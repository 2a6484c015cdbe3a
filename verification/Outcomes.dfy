/** How a step of the agent ends.  The source stops a unit with a failed assert;
    here that is a value, so that the exact cause can be reasoned about. */
module Outcomes {

  /** The asserts of the source that some run can violate. */
  datatype Fault =
    | ScheduleOverrun        // a sync period would end more than two periods after its start
    | HistoryReversion       // dropout of a unit whose history names a former master other than itself
    | HistoryUnderflow       // dropout of a unit whose history has no former master (never happens)
    | PreludeOff             // a sync slot starts though the radio prelude was not done
    | PreludeUnderflow       // less than one slot is left in which to do the next prelude
    | InvalidOffset          // a sync offset longer than one sync period
    | ScatterBySlave         // a scatter completes on a unit that is no longer the master

  /** Result of a method that changes state in place. */
  datatype Outcome = Pass | Halt(fault: Fault) {
    predicate IsFailure() {
      Halt?
    }

    function PropagateFailure(): Outcome
      requires Halt?
    {
      this
    }
  }

  /** Result of a function that computes a new state. */
  datatype Result<+T> = Ok(value: T) | Halted(fault: Fault) {
    predicate IsFailure() {
      Halted?
    }

    function PropagateFailure<U>(): Result<U>
      requires Halted?
    {
      Halted(fault)
    }

    function Extract(): T
      requires Ok?
    {
      value
    }
  }
}
