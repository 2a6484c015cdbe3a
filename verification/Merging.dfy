/** The merger role: which clique to merge, when to transmit into the sync slot of the clique that
    should move, what to say, and when to stop. */
module Merging {
  import opened Parameters
  import opened Outcomes
  import opened Schedules
  import opened Messages
  import opened Cliques

  datatype Role = Merger | Fisher | NoFishing

  /** The role together with the record of the merger and its count of sent merge syncs. */
  datatype Merge = Merge(
    role: Role, active: bool, slotStart: int,
    superior: SystemID, inferior: SystemID, kind: MessageType, sent: nat)
  {
    predicate Valid(latency: int) {
      && (active <==> role == Merger)
      && (active ==> Placed(slotStart, latency) && IsMerge(kind))
      && sent <= MERGE_SYNCS
    }
  }

  const INITIAL_MERGE: Merge := Merge(NoFishing, false, 0, 0, 0, Invalid, 0)

  /** A merge slot comes after the sync slot and its transmission ends before the next sync point. */
  predicate Placed(slotStart: int, latency: int) {
    2 * SLOT < slotStart && slotStart + PreflightDelta(latency) < PERIOD
  }

  function EarliestMergeTime(latency: int): int {
    2 * SLOT + PreflightDelta(latency)
  }

  /** Leaves time for the preflight, but never reaches back into the sync slot. */
  function AdjustedRawTime(raw: int, latency: int): int {
    if raw > EarliestMergeTime(latency) then raw - PreflightDelta(latency) else EarliestMergeTime(latency)
  }

  function TimeOfTransmittal(toa: Time): Time {
    toa - GUESSED_LATENCY
  }

  /** Merging my clique: from the sync point of the catch, whose schedule this unit joins, to the
      middle of the next sync slot of the clique it leaves. */
  function RawTimeToMergeMy(p: Period, toa: Time, latency: int): int {
    ClampedSub(p.end + NominalSlotMiddle(latency), TimeOfTransmittal(toa) - NominalSlotMiddle(latency)) % PERIOD
  }

  /** Merging the other clique: from my next sync point to the middle of the next sync slot of the catch. */
  function RawTimeToMergeOther(p: Period, toa: Time): int {
    ClampedSub(TimeOfTransmittal(toa) + PERIOD, p.end) % PERIOD
  }

  function MergeMyStart(p: Period, toa: Time, latency: int): int {
    AdjustedRawTime(RawTimeToMergeMy(p, toa, latency), latency)
  }

  function MergeOtherStart(p: Period, toa: Time, latency: int): int {
    AdjustedRawTime(RawTimeToMergeOther(p, toa), latency)
  }

  /** A catch while trolling: merge my clique into a better one, or invite a worse one. */
  function Caught(m: Merge, c: Clique, p: Period, msg: Message, toa: Time, latency: int)
    : Result<(Merge, Clique, Period)>
  {
    if Better(c, msg.master) then
      var kind := if c.IsSelfMaster() then MergeMyMasterDepart else MergeMySlaveDepart;
      var m' := m.(role := Merger, active := true, slotStart := MergeMyStart(p, toa, latency),
                   superior := msg.master, inferior := c.master, kind := kind);
      var (c', p') :- JoinedBySync(c, p, msg, toa);
      Ok((m', c', p'))
    else
      var m' := m.(role := Merger, active := true, slotStart := MergeOtherStart(p, toa, latency),
                   superior := c.master, inferior := msg.master, kind := MergeOther);
      Ok((m', c, p))
  }

  function Stopped(m: Merge): Merge {
    m.(role := Fisher, active := false, sent := 0)
  }

  /** Power loss ends the role without resetting the count. */
  function ToNoFishing(m: Merge): Merge {
    m.(role := NoFishing, active := false)
  }

  function SentOne(m: Merge): Merge {
    if m.sent + 1 > MERGE_SYNCS then Stopped(m) else m.(sent := m.sent + 1)
  }

  function MergeMessage(m: Merge, p: Period, now: Time): Message {
    Message(m.kind, m.superior, ClampedSub(p.unadjustedEnd, now), m.inferior % 256)
  }

  predicate MergeNearStart(m: Merge) {
    m.slotStart < THREE_SLOTS
  }

  predicate MergeNearEnd(m: Merge, latency: int) {
    ClampedSub(PERIOD, m.slotStart + SendDuration(latency)) < THREE_SLOTS
  }

  /** Placement, for every fished arrival time: the merge slot is placed, and if the raw time was not
      clamped its transmission ends, by the preflight estimate, at what the code takes for the middle
      of the next sync slot of the clique to be moved. */
  lemma MergeMyPlacement(p: Period, toa: Time, latency: int)
    requires p.WellFormed() && IsLatency(latency) && p.start <= toa <= p.start + PERIOD
    ensures var slotStart := MergeMyStart(p, toa, latency);
            var catchSyncPoint := TimeOfTransmittal(toa) - NominalSlotMiddle(latency);
            && Placed(slotStart, latency)
            && (RawTimeToMergeMy(p, toa, latency) > EarliestMergeTime(latency) <==>
                Congruent(catchSyncPoint + slotStart + PreflightDelta(latency), p.end + NominalSlotMiddle(latency)))
            && (RawTimeToMergeMy(p, toa, latency) <= EarliestMergeTime(latency) ==> slotStart == 3 * SLOT + latency)
  {
  }

  /** As above; the difference is clamped only if the period was already extended, and then only if
      the catch's next sync slot is before this unit's next sync point. */
  lemma MergeOtherPlacement(p: Period, toa: Time, latency: int)
    requires p.WellFormed() && IsLatency(latency) && p.start + SLOT <= toa <= p.start + PERIOD
    ensures var slotStart := MergeOtherStart(p, toa, latency);
            && Placed(slotStart, latency)
            && (RawTimeToMergeOther(p, toa) <= EarliestMergeTime(latency) ==> slotStart == 3 * SLOT + latency)
            && (p.Unadjusted() ==> p.end <= TimeOfTransmittal(toa) + PERIOD)
            && (p.end <= TimeOfTransmittal(toa) + PERIOD ==>
                (RawTimeToMergeOther(p, toa) > EarliestMergeTime(latency) <==>
                 Congruent(p.end + slotStart + PreflightDelta(latency), TimeOfTransmittal(toa))))
  {
  }

  /** Whether a transmission arriving at `arrival` falls into the sync slot after a sync point. */
  predicate HeardInSyncSlot(arrival: Time, syncPoint: Time) {
    (arrival - syncPoint) % PERIOD <= SLOT
  }

  /** Where the invitation really arrives when the catch sent its sync from the middle of its sync slot:
      it is heard exactly if the radio takes between 35 and 85 ticks more than the send latency from the
      start of the merge slot, as it does when it has to start the crystal first. */
  lemma MergeOtherReachesSyncSlot(p: Period, toa: Time, latency: int, delay: int, catchSyncPoint: Time)
    requires p.WellFormed() && IsLatency(latency) && 0 <= delay <= 2 * SLOT
    requires p.start + SLOT <= toa <= p.start + PERIOD
    requires p.end <= TimeOfTransmittal(toa) + PERIOD
    requires RawTimeToMergeOther(p, toa) > EarliestMergeTime(latency)
    requires Congruent(toa, catchSyncPoint + HALF_SLOT)
    ensures HeardInSyncSlot(p.end + MergeOtherStart(p, toa, latency) + delay, catchSyncPoint) <==>
            35 <= delay - latency <= 85
  {
  }

  /** The message to the former clique: both slot middles in its placement include the crystal start-up,
      so whatever the radio delay, and whether or not the placement was clamped, it arrives outside the
      sync slot of the clique that was left: unclamped, 55 ticks or more after its sync point. */
  lemma MergeMyMissesSyncSlot(p: Period, toa: Time, latency: int, delay: int, newSyncPoint: Time)
    requires p.WellFormed() && IsLatency(latency) && 0 <= delay <= 2 * SLOT
    requires p.start <= toa <= p.start + PERIOD
    requires Congruent(toa, newSyncPoint + HALF_SLOT)
    ensures var arrival := newSyncPoint + MergeMyStart(p, toa, latency) + delay;
            && !HeardInSyncSlot(arrival, p.end)
            && (RawTimeToMergeMy(p, toa, latency) > EarliestMergeTime(latency) ==>
                  Congruent(arrival, p.end + 85 - 3 * latency + delay))
  {
  }

  /** A merge message always carries a valid offset, and names the better of the two cliques. */
  lemma CaughtKeepsValid(m: Merge, c: Clique, p: Period, msg: Message, toa: Time, latency: int)
    requires m.Valid(latency) && c.Valid() && p.WellFormed() && IsLatency(latency)
    requires p.start + SLOT <= toa <= p.start + PERIOD
    ensures match Caught(m, c, p, msg, toa, latency)
            case Ok((m', c', p')) =>
              && m'.Valid(latency) && c'.Valid() && m'.role == Merger
              && c'.master == m'.superior <= m'.inferior
              && (m'.kind == MergeOther <==> !Better(c, msg.master))
              && (m'.kind == MergeMyMasterDepart <==> Better(c, msg.master) && c.IsSelfMaster())
              && (m'.kind != MergeOther ==> !c'.IsSelfMaster())
            case Halted(f) => f == ScheduleOverrun && Better(c, msg.master)
  {
  }

  class MergerOfUnit {
    const clique: CliqueOfUnit
    const latency: int
    var role: Role
    var active: bool
    var slotStart: int
    var superior: SystemID
    var inferior: SystemID
    var kind: MessageType
    var sent: nat

    function View(): Merge
      reads this
    {
      Merge(role, active, slotStart, superior, inferior, kind, sent)
    }

    constructor (clique: CliqueOfUnit, latency: int)
      ensures this.clique == clique && this.latency == latency
      ensures View() == INITIAL_MERGE && View().Valid(latency)
    {
      this.clique, this.latency := clique, latency;
      role, active, slotStart := NoFishing, false, 0;
      superior, inferior, kind, sent := 0, 0, Invalid, 0;
    }

    method ToFisherFromNoFishing()
      modifies this
      ensures View() == old(View()).(role := Fisher)
    {
      role := Fisher;
    }

    method ToNoFishingFromOther()
      requires View().Valid(latency)
      modifies this
      ensures View() == ToNoFishing(old(View())) && View().Valid(latency)
    {
      if role == Merger {
        active := false;
      }
      role := NoFishing;
    }

    /** A fisher caught a sync of another clique. */
    method ToMergerFromFisher(msg: Message, toa: Time) returns (r: Outcome)
      requires IsLatency(latency) && View().Valid(latency) && role == Fisher && IsSync(msg.kind)
      requires clique.Valid() && clique.schedule.View().WellFormed()
      requires clique.schedule.start + SLOT <= toa <= clique.schedule.start + PERIOD
      modifies this, clique, clique.records, clique.schedule
      ensures match Caught(old(View()), old(clique.View()), old(clique.schedule.View()), msg, toa, latency)
              case Ok((m, c, p)) =>
                && r == Pass && View() == m && clique.View() == c && clique.schedule.View() == p
                && View().Valid(latency) && clique.Valid()
              case Halted(f) => r == Halt(f)
    {
      CaughtKeepsValid(View(), clique.View(), clique.schedule.View(), msg, toa, latency);
      role := Merger;
      if msg.master < clique.master {
        r := InitMergeMyClique(msg, toa);
      } else {
        InitMergeOtherClique(msg, toa);
        r := Pass;
      }
      active := true;
    }

    method InitMergeMyClique(msg: Message, toa: Time) returns (r: Outcome)
      requires IsLatency(latency) && IsSync(msg.kind)
      requires clique.Valid() && Better(clique.View(), msg.master) && clique.schedule.View().WellFormed()
      requires clique.schedule.start <= toa <= clique.schedule.start + PERIOD
      modifies this, clique, clique.records, clique.schedule
      ensures View() == old(View()).(slotStart := MergeMyStart(old(clique.schedule.View()), toa, latency),
                                     superior := msg.master, inferior := old(clique.master),
                                     kind := if old(clique.View()).IsSelfMaster() then MergeMyMasterDepart
                                             else MergeMySlaveDepart)
      ensures match JoinedBySync(old(clique.View()), old(clique.schedule.View()), msg, toa)
              case Ok((c, p)) => r == Pass && clique.View() == c && clique.schedule.View() == p && clique.Valid()
              case Halted(f) => r == Halt(f)
    {
      slotStart := PeriodTimeToMergeMyClique(toa);
      superior, inferior := msg.master, clique.master;
      var isSelfMaster := clique.IsSelfMaster();
      kind := if isSelfMaster then MergeMyMasterDepart else MergeMySlaveDepart;
      JoinedKeepsValid(clique.View(), msg.master);
      r := clique.UpdateBySyncMessage(msg, toa);
      assert r == Pass ==> !clique.View().IsSelfMaster();
    }

    method InitMergeOtherClique(msg: Message, toa: Time)
      requires IsLatency(latency) && clique.schedule.View().WellFormed()
      requires clique.schedule.start + SLOT <= toa <= clique.schedule.start + PERIOD
      modifies this
      ensures View() == old(View()).(slotStart := MergeOtherStart(clique.schedule.View(), toa, latency),
                                     superior := clique.master, inferior := msg.master, kind := MergeOther)
    {
      slotStart := PeriodTimeToMergeOtherClique(toa);
      kind := MergeOther;
      superior, inferior := clique.master, msg.master;
    }

    method PeriodTimeToMergeMyClique(toa: Time) returns (t: int)
      requires IsLatency(latency) && clique.schedule.View().WellFormed()
      requires clique.schedule.start <= toa <= clique.schedule.start + PERIOD
      ensures t == MergeMyStart(clique.schedule.View(), toa, latency) && Placed(t, latency)
    {
      MergeMyPlacement(clique.schedule.View(), toa, latency);
      var pastSyncPointOfCatch := toa - GUESSED_LATENCY - NominalSlotMiddle(latency);
      var middleOfNextSyncSlot := clique.schedule.end + NominalSlotMiddle(latency);
      t := AdjustedRawTime((middleOfNextSyncSlot - pastSyncPointOfCatch) % PERIOD, latency);
      assert 0 <= t <= PERIOD;   // a PeriodTime
    }

    method PeriodTimeToMergeOtherClique(toa: Time) returns (t: int)
      requires IsLatency(latency) && clique.schedule.View().WellFormed()
      requires clique.schedule.start + SLOT <= toa <= clique.schedule.start + PERIOD
      ensures t == MergeOtherStart(clique.schedule.View(), toa, latency) && Placed(t, latency)
    {
      MergeOtherPlacement(clique.schedule.View(), toa, latency);
      var middleOfNextSyncSlotOfCatch := toa - GUESSED_LATENCY + PERIOD;
      var raw := ClampedSub(middleOfNextSyncSlotOfCatch, clique.schedule.end) % PERIOD;
      t := AdjustedRawTime(raw, latency);
      assert 0 <= t <= PERIOD;   // a PeriodTime
    }

    method StopMerger()
      modifies this
      ensures View() == Stopped(old(View()))
    {
      sent := 0;
      role := Fisher;
      active := false;
    }

    method MakeMergeMsg(now: Time) returns (msg: Message)
      requires View().Valid(latency) && active
      requires clique.schedule.View().WellFormed() && clique.schedule.start <= now
      ensures msg == MergeMessage(View(), clique.schedule.View(), now)
      ensures msg.ValidOffset() && IsMerge(msg.kind)
    {
      assert active;
      msg := Message(kind, superior, ClampedSub(clique.schedule.unadjustedEnd, now), inferior % 256);
    }

    /** Called after every merge sync sent; quits the role after enough of them. */
    method CheckCompletionOfMergerRole() returns (done: bool)
      requires View().Valid(latency) && active
      modifies this
      ensures done <==> old(sent) == MERGE_SYNCS
      ensures View() == old(View()).(sent := old(sent) + 1)
    {
      assert sent <= MERGE_SYNCS;
      sent := sent + 1;
      done := sent > MERGE_SYNCS;
    }
  }
}
