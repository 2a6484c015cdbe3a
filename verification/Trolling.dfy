/** Which slots of the sync period a trolling unit fishes, one session per period.
    Two counters fan outward from the sync slot in alternate periods: one up from the first
    sleeping slot, one down from the last.  The session length changes with the power supply. */
module Trolling {
  import opened Parameters

  datatype Troll = Troll(
    slots: int, ticks: int,      // length of a session, kept in both units
    up: int, down: int,          // slot ordinals where the two counters stand
    first: int, last: int,       // slot ordinals of the current session
    upward: bool)                // which counter moves next
  {
    /** What every interleaving of the operations keeps. */
    predicate Valid() {
      && 1 <= slots <= MAX_SESSION_SLOTS
      && ticks == slots * SLOT
      && FIRST_FISH_SLOT <= up <= LAST_FISH_SLOT - slots
      && FIRST_FISH_SLOT <= down <= InitialDown(slots)
      && FIRST_FISH_SLOT <= first <= last <= LAST_FISH_SLOT
    }

    /** The session was computed for the present session length. */
    predicate Fresh() {
      last == first + slots - 1
    }

    predicate Covers(ordinal: int) {
      first <= ordinal <= last
    }
  }

  /** Values at power-on. */
  const INITIAL_TROLL: Troll := Troll(1, SLOT, FIRST_FISH_SLOT, LAST_FISH_SLOT, FIRST_FISH_SLOT, FIRST_FISH_SLOT, true)

  function InitialDown(slots: int): int {
    LAST_FISH_SLOT - slots + 1
  }

  function Incremented(counter: int, slots: int): int {
    if counter + slots + slots > LAST_FISH_SLOT then FIRST_FISH_SLOT else counter + slots
  }

  function Decremented(counter: int, slots: int): int {
    if counter < FIRST_FISH_SLOT + slots then InitialDown(slots) else counter - slots
  }

  function WithSession(t: Troll, ordinal: int): Troll {
    t.(first := ordinal, last := ordinal + t.slots - 1)
  }

  function Restarted(t: Troll): Troll {
    WithSession(t.(up := FIRST_FISH_SLOT, down := InitialDown(t.slots), upward := true), FIRST_FISH_SLOT)
  }

  function Proceeded(t: Troll): Troll {
    if t.upward then
      var up := Incremented(t.up, t.slots);
      WithSession(t.(up := up, upward := false), up)
    else
      var down := Decremented(t.down, t.slots);
      WithSession(t.(down := down, upward := true), down)
  }

  /** A longer session restarts the policy; an increment past the maximum is ignored. */
  function Lengthened(t: Troll, increment: nat): Troll {
    if t.slots + increment > MAX_SESSION_SLOTS then t
    else Restarted(t.(slots := t.slots + increment, ticks := (t.slots + increment) * SLOT))
  }

  /** Back to one slot, without restarting the policy. */
  function Shortened(t: Troll): Troll {
    t.(slots := 1, ticks := SLOT)
  }

  datatype Op = Restart | Proceed | Lengthen(increment: nat) | Shorten

  function Apply(t: Troll, op: Op): Troll {
    match op
    case Restart => Restarted(t)
    case Proceed => Proceeded(t)
    case Lengthen(n) => Lengthened(t, n)
    case Shorten => Shortened(t)
  }

  function ApplyAll(t: Troll, ops: seq<Op>): Troll
    decreases |ops|
  {
    if ops == [] then t else Apply(ApplyAll(t, ops[..|ops| - 1]), ops[|ops| - 1])
  }

  /** Range: under every interleaving of restarts, advances and changes of length, the session
      stays within the sleeping slots and its two lengths agree; and a session just advanced to
      has the present length, even when the length shrank without a restart. */
  lemma {:induction false} TrollingRange(ops: seq<Op>)
    ensures var t := ApplyAll(INITIAL_TROLL, ops);
            t.Valid() && (ops != [] && ops[|ops| - 1].Proceed? ==> t.Fresh())
    decreases |ops|
  {
    if ops != [] {
      TrollingRange(ops[..|ops| - 1]);
    }
  }

  /** The policy after `n` periods with the session length unchanged. */
  function Periods(t: Troll, n: nat): Troll {
    if n == 0 then t else Proceeded(Periods(t, n - 1))
  }

  function UpAfter(counter: int, slots: int, n: nat): int {
    if n == 0 then counter else Incremented(UpAfter(counter, slots, n - 1), slots)
  }

  function DownAfter(counter: int, slots: int, n: nat): int {
    if n == 0 then counter else Decremented(DownAfter(counter, slots, n - 1), slots)
  }

  lemma {:induction false} DownAfterSum(counter: int, slots: int, a: nat, b: nat)
    ensures DownAfter(counter, slots, a + b) == DownAfter(DownAfter(counter, slots, a), slots, b)
    decreases b
  {
    if b != 0 {
      DownAfterSum(counter, slots, a, b - 1);
    }
  }

  /** How often each counter moved in `n` periods. */
  function UpMoves(t: Troll, n: nat): nat {
    if t.upward then (n + 1) / 2 else n / 2
  }

  /** The two counters advance independently, each in every second period. */
  lemma {:induction false} PeriodsCounters(t: Troll, n: nat)
    ensures var t' := Periods(t, n);
            && t'.slots == t.slots
            && t'.up == UpAfter(t.up, t.slots, UpMoves(t, n))
            && t'.down == DownAfter(t.down, t.slots, n - UpMoves(t, n))
            && t'.upward == (t.upward <==> n % 2 == 0)
            && (n > 0 ==> t'.first == (if t'.upward then t'.down else t'.up) && t'.Fresh())
  {
    if n != 0 {
      PeriodsCounters(t, n - 1);
    }
  }

  /** Number of sessions of the down counter in one sweep of the sleeping slots. */
  function Sweep(slots: int): int
    requires slots != 0
  {
    (LAST_FISH_SLOT - 1) / slots
  }

  lemma SweepBounds(slots: int)
    requires 1 <= slots <= MAX_SESSION_SLOTS
    ensures 1 <= Sweep(slots)
    ensures Sweep(slots) * slots <= LAST_FISH_SLOT - 1 < Sweep(slots) * slots + slots
  {
  }

  /** From a fresh sweep, the k-th session of the down counter. */
  lemma {:induction false} DownSweep(slots: int, k: nat)
    requires 1 <= slots <= MAX_SESSION_SLOTS && k < Sweep(slots)
    ensures DownAfter(InitialDown(slots), slots, k) == InitialDown(slots) - k * slots
    ensures InitialDown(slots) - k * slots >= FIRST_FISH_SLOT
  {
    SweepBounds(slots);
    assert (k + 1) * slots <= Sweep(slots) * slots;
    if k != 0 {
      DownSweep(slots, k - 1);
      assert (k - 1) * slots == k * slots - slots;
    }
  }

  /** Wherever the down counter stands, it starts a fresh sweep within one sweep. */
  lemma {:induction false} DownResets(counter: int, slots: int) returns (k: nat)
    requires 1 <= slots <= MAX_SESSION_SLOTS
    requires FIRST_FISH_SLOT <= counter <= InitialDown(slots)
    ensures 1 <= k && k * slots <= counter - FIRST_FISH_SLOT + slots
    ensures DownAfter(counter, slots, k) == InitialDown(slots)
    decreases counter
  {
    if counter < FIRST_FISH_SLOT + slots {
      k := 1;
      assert DownAfter(counter, slots, 1) == Decremented(DownAfter(counter, slots, 0), slots);
    } else {
      var k' := DownResets(counter - slots, slots);
      k := k' + 1;
      assert DownAfter(counter, slots, 1) == Decremented(DownAfter(counter, slots, 0), slots) == counter - slots;
      DownAfterSum(counter, slots, 1, k');
      assert k * slots == k' * slots + slots;
    }
  }

  lemma {:induction false} UpAfterSum(counter: int, slots: int, a: nat, b: nat)
    ensures UpAfter(counter, slots, a + b) == UpAfter(UpAfter(counter, slots, a), slots, b)
    decreases b
  {
    if b != 0 {
      UpAfterSum(counter, slots, a, b - 1);
    }
  }

  /** Wherever the up counter stands, it comes back to the first sleeping slot within one sweep. */
  lemma {:induction false} UpResets(counter: int, slots: int) returns (k: nat)
    requires 1 <= slots <= MAX_SESSION_SLOTS
    requires FIRST_FISH_SLOT <= counter <= LAST_FISH_SLOT - slots
    ensures 1 <= k && k * slots <= LAST_FISH_SLOT - counter
    ensures UpAfter(counter, slots, k) == FIRST_FISH_SLOT
    decreases LAST_FISH_SLOT - counter
  {
    assert UpAfter(counter, slots, 1) == Incremented(UpAfter(counter, slots, 0), slots) == Incremented(counter, slots);
    if counter + slots + slots > LAST_FISH_SLOT {
      k := 1;
    } else {
      var k' := UpResets(counter + slots, slots);
      k := k' + 1;
      UpAfterSum(counter, slots, 1, k');
      assert k * slots == k' * slots + slots;
    }
  }

  lemma SmallerFactor(a: nat, b: nat, slots: int)
    requires 1 <= slots && a * slots < b * slots
    ensures a < b
  {
  }

  lemma AtMostOneSweep(k: nat, slots: int)
    requires 1 <= slots <= MAX_SESSION_SLOTS
    requires k * slots <= LAST_FISH_SLOT - 1
    ensures k <= Sweep(slots)
  {
    SweepBounds(slots);
    assert (Sweep(slots) + 1) * slots == Sweep(slots) * slots + slots;
    SmallerFactor(k, Sweep(slots) + 1, slots);
  }

  /** The period in which the down counter makes its k-th move, and the session it then gives. */
  lemma DownSession(t: Troll, k: nat) returns (n: nat)
    requires k >= 1
    ensures 1 <= n <= 2 * k
    ensures var t' := Periods(t, n);
            var start := DownAfter(t.down, t.slots, k);
            t'.first == start && t'.last == start + t.slots - 1
  {
    n := if t.upward then 2 * k else 2 * k - 1;
    PeriodsCounters(t, n);
  }

  lemma UpSession(t: Troll, k: nat) returns (n: nat)
    requires k >= 1
    ensures 1 <= n <= 2 * k
    ensures var t' := Periods(t, n);
            var start := UpAfter(t.up, t.slots, k);
            t'.first == start && t'.last == start + t.slots - 1
  {
    n := if t.upward then 2 * k - 1 else 2 * k;
    PeriodsCounters(t, n);
  }

  /** Slots near the sync slot, which the down counter may skip, are covered by the up counter. */
  lemma UpCovers(t: Troll, ordinal: int) returns (n: nat)
    requires t.Valid()
    requires FIRST_FISH_SLOT <= ordinal <= LAST_FISH_SLOT - Sweep(t.slots) * t.slots
    ensures 1 <= n <= 2 * Sweep(t.slots) && Periods(t, n).Covers(ordinal)
  {
    SweepBounds(t.slots);
    var k := UpResets(t.up, t.slots);
    AtMostOneSweep(k, t.slots);
    n := UpSession(t, k);
  }

  /** The move of a fresh sweep of the down counter whose session covers an ordinal. */
  lemma DownIndex(slots: int, ordinal: int) returns (i: nat)
    requires 1 <= slots <= MAX_SESSION_SLOTS
    requires LAST_FISH_SLOT - Sweep(slots) * slots < ordinal <= LAST_FISH_SLOT
    ensures i < Sweep(slots)
    ensures InitialDown(slots) - i * slots <= ordinal <= InitialDown(slots) - i * slots + slots - 1
  {
    SweepBounds(slots);
    var d := LAST_FISH_SLOT - ordinal;
    i := d / slots;
    assert d == i * slots + d % slots;
    SmallerFactor(i, Sweep(slots), slots);
  }

  /** Coverage after a restart: every sleeping slot is fished within two moves of the policy per
      session of a sweep, whatever the session length. */
  lemma TrollingCoverage(t: Troll, ordinal: int) returns (n: nat)
    requires t.Valid() && FIRST_FISH_SLOT <= ordinal <= LAST_FISH_SLOT
    ensures 1 <= n <= 2 * Sweep(t.slots)
    ensures Periods(Restarted(t), n).Covers(ordinal)
  {
    var r := Restarted(t);
    SweepBounds(t.slots);
    if ordinal <= LAST_FISH_SLOT - Sweep(t.slots) * t.slots {
      n := UpCovers(r, ordinal);
    } else {
      var i := DownIndex(t.slots, ordinal);
      DownSweep(t.slots, i);
      if i == 0 {
        var k := DownResets(InitialDown(t.slots), t.slots);
        AtMostOneSweep(k, t.slots);
        n := DownSession(r, k);
      } else {
        n := DownSession(r, i);
      }
    }
  }

  /** Coverage from any state the policy can be in, for instance after the session length shrank in
      the middle of a sweep: twice as many periods are always enough. */
  lemma TrollingCoverageFromAnywhere(t: Troll, ordinal: int) returns (n: nat)
    requires t.Valid() && FIRST_FISH_SLOT <= ordinal <= LAST_FISH_SLOT
    ensures 1 <= n <= 4 * Sweep(t.slots)
    ensures Periods(t, n).Covers(ordinal)
  {
    SweepBounds(t.slots);
    if ordinal <= LAST_FISH_SLOT - Sweep(t.slots) * t.slots {
      n := UpCovers(t, ordinal);
    } else {
      var i := DownIndex(t.slots, ordinal);
      DownSweep(t.slots, i);
      var k := DownResets(t.down, t.slots);
      AtMostOneSweep(k, t.slots);
      DownAfterSum(t.down, t.slots, k, i);
      n := DownSession(t, k + i);
    }
  }

  /** The policy means to fish next to the sync slot first, to recover a master that drifted.  As it
      advances before fishing, it skips exactly those two sessions in the periods after a restart. */
  lemma RestartSkipsSlotsNextToSyncSlot(t: Troll)
    requires t.Valid()
    ensures Restarted(t).Covers(FIRST_FISH_SLOT)
    ensures Periods(Restarted(t), 1).first == FIRST_FISH_SLOT + t.slots
    ensures Periods(Restarted(t), 2).last == LAST_FISH_SLOT - t.slots
  {
  }

  /** Where a session lies in the sync period, in ticks from its start. */
  function SessionStart(t: Troll): int {
    (t.first - 1) * SLOT
  }

  function SessionEnd(t: Troll): int {
    t.last * SLOT
  }

  predicate NearStart(t: Troll) {
    t.first == FIRST_FISH_SLOT || t.first == FIRST_FISH_SLOT + 1
  }

  predicate NearEnd(t: Troll) {
    t.last >= LAST_FISH_SLOT || t.last == LAST_FISH_SLOT - 1
  }

  /** The prelude fits: a session lies between the sync slot and the next sync point, and whenever a
      predicate lets the prelude be switched off there are at least two slots before it is needed. */
  lemma PreludeFits(t: Troll)
    requires t.Valid() && t.Fresh()
    ensures SLOT <= SessionStart(t) && SessionStart(t) + t.ticks == SessionEnd(t) <= PERIOD
    ensures NearStart(t) <==> SessionStart(t) - SLOT < 2 * SLOT
    ensures NearEnd(t) <==> PERIOD - SessionEnd(t) < 2 * SLOT
  {
  }

  class TrollingPolicy {
    var slots: int
    var ticks: int
    var upCounter: int
    var downCounter: int
    var first: int
    var last: int
    var direction: bool

    function View(): Troll
      reads this
    {
      Troll(slots, ticks, upCounter, downCounter, first, last, direction)
    }

    constructor ()
      ensures View() == INITIAL_TROLL && View().Valid()
    {
      slots, ticks := 1, SLOT;
      upCounter, downCounter := FIRST_FISH_SLOT, LAST_FISH_SLOT;
      first, last := FIRST_FISH_SLOT, FIRST_FISH_SLOT;
      direction := true;
    }

    method SetSessionForStartSlot(startSlot: int)
      requires 1 <= slots
      requires FIRST_FISH_SLOT <= startSlot <= InitialDown(slots)
      modifies this
      ensures View() == WithSession(old(View()), startSlot)
    {
      first := startSlot;
      last := first + slots - 1;
      assert first >= FIRST_FISH_SLOT && last <= LAST_FISH_SLOT;   // isInRange
    }

    method IncrementCounterModuloSleepingSlots()
      modifies this
      ensures View() == old(View()).(up := Incremented(old(upCounter), old(slots)))
    {
      var result := upCounter + slots;
      if result + slots > LAST_FISH_SLOT {
        result := FIRST_FISH_SLOT;
      }
      upCounter := result;
    }

    method DecrementCounterModuloSleepingSlots()
      requires View().Valid()
      modifies this
      ensures View() == old(View()).(down := Decremented(old(downCounter), old(slots)))
      ensures View().Valid()
    {
      var result;
      if downCounter < FIRST_FISH_SLOT + slots {
        result := LAST_FISH_SLOT - slots + 1;
      } else {
        result := downCounter - slots;
      }
      downCounter := result;
    }

    method Restart()
      requires 1 <= slots <= MAX_SESSION_SLOTS && ticks == slots * SLOT
      modifies this
      ensures View() == Restarted(old(View()))
      ensures View().Valid()
    {
      upCounter := FIRST_FISH_SLOT;
      downCounter := LAST_FISH_SLOT - slots + 1;
      SetSessionForStartSlot(upCounter);
      direction := true;
    }

    method ProceedToNextFishSlotOrdinal()
      requires View().Valid()
      modifies this
      ensures View() == Proceeded(old(View()))
      ensures View().Valid() && View().Fresh()
    {
      var next;
      if direction {
        IncrementCounterModuloSleepingSlots();
        next := upCounter;
      } else {
        DecrementCounterModuloSleepingSlots();
        next := downCounter;
      }
      direction := !direction;
      SetSessionForStartSlot(next);
    }

    method IncrementFishSessionDuration(increment: nat)
      requires View().Valid()
      modifies this
      ensures View() == Lengthened(old(View()), increment)
      ensures View().Valid()
    {
      var trial := slots + increment;
      if trial > MAX_SESSION_SLOTS {
        return;
      }
      slots := trial;
      ticks := trial * SLOT;
      Restart();
    }

    method SetDurationToMinDuration()
      requires View().Valid()
      modifies this
      ensures View() == Shortened(old(View()))
      ensures View().Valid()
    {
      slots := 1;
      ticks := SLOT;
    }
  }
}
