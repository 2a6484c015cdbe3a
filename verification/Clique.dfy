/** Mastership of the clique a unit belongs to, the history of its masters, and dropout. */
module Cliques {
  import opened Parameters
  import opened Outcomes
  import opened Schedules
  import opened Messages
  import opened Trolling

  datatype Clique = Clique(
    self: SystemID, master: SystemID,
    records: seq<SystemID>, index: nat,    // former masters; `index` is the current one
    missed: nat)                           // sync slots without a sync, while a slave
  {
    predicate IsSelfMaster() {
      master == self
    }

    /** Kept by every sequence of messages, catches, dropouts, abandons and scatters. */
    predicate Valid() {
      && master <= self
      && |records| == HISTORY_RECORDS && records[0] == self && index < HISTORY_RECORDS
      && (forall j :: 1 <= j <= index ==> records[j] < self)
      && (!IsSelfMaster() ==> index >= 1)
      && missed <= MAX_MISSED_SYNCS
    }
  }

  function Founded(self: SystemID): Clique {
    Clique(self, self, [self, 0, 0, 0, 0, 0], 0, 0)
  }

  /** The clique with the least master ID is better. */
  predicate Better(c: Clique, other: SystemID) {
    other < c.master
  }

  predicate SameOrBetter(c: Clique, other: SystemID) {
    other == c.master || Better(c, other)
  }

  /** A new master is also pushed on the history, unless that is full. */
  function Joined(c: Clique, other: SystemID): Clique {
    if other == c.master then c
    else if c.index < HISTORY_RECORDS - 1 && c.index + 1 < |c.records| then
      c.(master := other, index := c.index + 1, records := c.records[c.index + 1 := other])
    else c.(master := other)
  }

  function SelfMastered(c: Clique): Clique {
    c.(master := c.self)
  }

  /** Joining by a sync message: master and schedule change together. */
  function JoinedBySync(c: Clique, p: Period, msg: Message, toa: Time): Result<(Clique, Period)> {
    var p' :- Adjusted(p, AdjustedEnd(p, EventTime(toa, msg.offset)));
    Ok((Joined(c, msg.master), p'))
  }

  /** One more sync slot passed without a sync; too many mean the master dropped out. */
  predicate DropsOut(c: Clique) {
    c.missed + 1 > MAX_MISSED_SYNCS
  }

  /** A slave at the end of a sync slot in which it listened. */
  function DropoutChecked(c: Clique): Result<Clique> {
    if !DropsOut(c) then Ok(c.(missed := c.missed + 1))
    else if c.index == 0 || c.index > |c.records| then Halted(HistoryUnderflow)
    else if c.records[c.index - 1] == c.self then
      Ok(c.(missed := 0, index := c.index - 1, master := c.self))
    else Halted(HistoryReversion)
  }

  /** Joining keeps the invariant because only better cliques are joined: in particular the unit
      with the least ID is never a slave, and a unit that joined another clique is one. */
  lemma JoinedKeepsValid(c: Clique, other: SystemID)
    requires c.Valid() && SameOrBetter(c, other)
    ensures Joined(c, other).Valid() && Joined(c, other).master == other
    ensures Better(c, other) ==> !Joined(c, other).IsSelfMaster()
    ensures Joined(c, other).missed == c.missed && Joined(c, other).self == c.self
  {
  }

  /** Dropout: the history never underflows, the counter assert never fails, and reverting is
      possible exactly for a unit that joined once since it was last at the bottom of its history. */
  lemma DropoutIsSafeFromFirstClique(c: Clique)
    requires c.Valid() && !c.IsSelfMaster()
    ensures c.index >= 1
    ensures DropoutChecked(c).Halted? <==> DropsOut(c) && c.index > 1
    ensures DropoutChecked(c).Halted? ==> DropoutChecked(c).fault == HistoryReversion
    ensures DropoutChecked(c).Ok? ==> DropoutChecked(c).value.Valid()
    ensures DropoutChecked(c).Ok? && DropsOut(c) ==>
              DropoutChecked(c).value.IsSelfMaster() && DropoutChecked(c).value.index == 0
  {
  }

  /** Two joins followed by a dropout reach the unfinished reversion. */
  lemma TwoJoinsThenDropoutHalts(self: SystemID, first: SystemID, second: SystemID)
    requires second < first < self
    ensures var c := Joined(Joined(Founded(self), first), second).(missed := MAX_MISSED_SYNCS);
            c.Valid() && !c.IsSelfMaster() && DropoutChecked(c) == Halted(HistoryReversion)
  {
  }

  class CliqueOfUnit {
    const self: SystemID
    const schedule: Schedule
    const trolling: TrollingPolicy
    const records: array<SystemID>
    var master: SystemID
    var index: nat
    var missed: nat

    function View(): Clique
      reads this, records
    {
      Clique(self, master, records[..], index, missed)
    }

    ghost predicate Valid()
      reads this, records
    {
      records.Length == HISTORY_RECORDS && View().Valid()
    }

    constructor (self: SystemID, schedule: Schedule, trolling: TrollingPolicy)
      ensures this.self == self && this.schedule == schedule && this.trolling == trolling
      ensures fresh(records) && Valid() && View() == Founded(self)
    {
      this.self, this.schedule, this.trolling := self, schedule, trolling;
      master, index, missed := self, 0, 0;
      records := new SystemID[6](i => if i == 0 then self else 0);
      new;
      assert records[..] == [self, 0, 0, 0, 0, 0];
    }

    method IsSelfMaster() returns (r: bool)
      ensures r == View().IsSelfMaster()
    {
      r := master == self;
    }

    method UpdateMastership(other: SystemID)
      requires records.Length == HISTORY_RECORDS
      modifies this, records
      ensures View() == Joined(old(View()), other)
    {
      if master != other {
        master := other;
        AddToHistory(other);
      }
    }

    method AddToHistory(newMaster: SystemID)
      requires records.Length == HISTORY_RECORDS
      modifies this, records
      ensures index == if old(index) < HISTORY_RECORDS - 1 then old(index) + 1 else old(index)
      ensures records[..] == if old(index) < HISTORY_RECORDS - 1 then old(records[..])[index := newMaster]
                             else old(records[..])
      ensures master == old(master) && missed == old(missed)
    {
      if index < HISTORY_RECORDS - 1 {
        index := index + 1;
        records[index] := newMaster;
      }
    }

    method SetSelfMastership()
      requires records.Length == HISTORY_RECORDS && SelfMastered(View()).Valid()
      modifies this
      ensures Valid() && View() == SelfMastered(old(View()))
    {
      master := self;
    }

    method HeardSync()
      requires Valid()
      modifies this
      ensures Valid() && View() == old(View()).(missed := 0)
    {
      missed := 0;
    }

    /** Master, history and schedule change together. */
    method UpdateBySyncMessage(msg: Message, toa: Time) returns (r: Outcome)
      requires Valid() && SameOrBetter(View(), msg.master)
      requires CarriesSync(msg.kind)
      modifies this, records, schedule
      ensures match JoinedBySync(old(View()), old(schedule.View()), msg, toa)
              case Ok((c, p)) => r == Pass && Valid() && View() == c && schedule.View() == p
              case Halted(f) => r == Halt(f)
    {
      JoinedKeepsValid(View(), msg.master);
      UpdateMastership(msg.master);
      r := schedule.AdjustBySyncMsg(toa, msg.offset);
    }

    /** The schedule is kept; trolling restarts near the sync slot, where the lost master may be. */
    method GrabMastership()
      requires records.Length == HISTORY_RECORDS && SelfMastered(View()).Valid() && trolling.View().Valid()
      modifies this, trolling
      ensures Valid() && View() == SelfMastered(old(View()))
      ensures trolling.View() == Restarted(old(trolling.View()))
    {
      SetSelfMastership();
      trolling.Restart();
    }

    method ScatterSync(random: nat)
      requires Valid() && trolling.View().Valid() && schedule.View().WellFormed() && random <= PERIOD
      modifies this, trolling, schedule
      ensures Valid() && View() == SelfMastered(old(View()))
      ensures trolling.View() == Restarted(old(trolling.View()))
      ensures schedule.View() == old(schedule.View()).(end := old(schedule.start) + PERIOD + random)
      ensures schedule.View().WellFormed()
    {
      GrabMastership();
      schedule.AdjustWithRandomAddedTime(random);
    }

    /** Called by a slave at the end of its sync slot, well before the end of the period. */
    method CheckMasterDroppedOut(now: Time) returns (r: Outcome)
      requires Valid() && !View().IsSelfMaster() && trolling.View().Valid()
      requires now + 1 < schedule.unadjustedEnd
      modifies this, records, schedule, trolling
      ensures match DropoutChecked(old(View()))
              case Ok(c) => r == Pass && Valid() && View() == c && schedule.View() == old(schedule.View())
              case Halted(f) => r == Halt(f)
      ensures trolling.View() == if r == Pass && DropsOut(old(View())) then Restarted(old(trolling.View()))
                                 else old(trolling.View())
    {
      r := Pass;
      assert missed <= MAX_MISSED_SYNCS;
      missed := missed + 1;
      if missed > MAX_MISSED_SYNCS {
        missed := 0;
        assert index > 0;
        index := index - 1;
        if records[index] == self {
          GrabMastership();
        } else {
          r := RevertToFormerMaster(now);
        }
      }
    }

    /** The former master is read from record 0, which is this unit itself, and the schedule is to end
        one tick from now: the second always violates the asserts on a new end of the period. */
    method RevertToFormerMaster(now: Time) returns (r: Outcome)
      requires records.Length == HISTORY_RECORDS
      requires now + 1 < schedule.unadjustedEnd
      modifies this, records, schedule
      ensures r == Halt(HistoryReversion)
    {
      UpdateMastership(records[0]);
      var adjusted := schedule.AdjustByCliqueHistoryOffset(now, 1);
      assert adjusted.Halt?;
      r := Halt(HistoryReversion);
    }
  }
}
