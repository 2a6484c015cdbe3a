/** Invitations in a network: a merger whose clique is the better one tells the clique it fished where to
    deep fish.  Where the message lands in the invited clique's period, and what becomes of it there. */
module Inviting {
  import opened Parameters
  import opened Outcomes
  import opened Messages
  import opened Merging
  import opened Fishing
  import opened TaskMachine
  import opened Runs
  import opened Network
  import opened Aiming

  /** Of a merger: the clique it fished, how late in its sync slot that clique's sync arrived (a sync on
      time arrives mid slot), and whether the arithmetic of the merge slot was clamped. */
  datatype Catch = Catch(invited: SystemID, late: int, clamped: bool)

  /** Of a merge message: its origin, the catch it goes back to, and its sender's latency. */
  datatype Invitation = Invitation(origin: Origin, catch: Catch, latency: int)

  datatype Ledger = Ledger(catches: seq<Catch>, late: map<Flight, int>, sent: map<Flight, Invitation>)

  function Clamped(s: Agent, toa: Time): bool {
    !(s.period.end <= TimeOfTransmittal(toa) + PERIOD && RawTimeToMergeOther(s.period, toa) > EarliestMergeTime(s.latency))
  }

  function Lateness(s: Agent): int {
    s.due + s.latency - s.period.start - HALF_SLOT
  }

  predicate IsCatch(s: Agent, ev: NetEvent, s': Agent) {
    ev.Delivery? && s.merge.role != Merger && s'.merge.role == Merger
  }

  function CatchAfter(c: Catch, s: Agent, ev: NetEvent, s': Agent, late: map<Flight, int>): Catch {
    if IsCatch(s, ev, s') && ev.flight in late then
      Catch(ev.flight.msg.master, late[ev.flight], Clamped(s, ev.flight.arrival))
    else c
  }

  function LateAfter(late: map<Flight, int>, s: Agent, ev: NetEvent): map<Flight, int> {
    if s.pending == SendSync then late + map f | f in Sent(s, ev) :: f := Lateness(s) else late
  }

  function SentAfter(sent: map<Flight, Invitation>, t: Trace, c: Catch, s: Agent, ev: NetEvent): map<Flight, Invitation> {
    if ev.TaskOf? && s.pending == MergerStartAndEnd then
      sent + map f | f in Sent(s, ev) :: f := Invitation(Origin(t.began, ev.radio), c, s.latency)
    else sent
  }

  function Entered(l: Ledger, h: History, n: Net, ev: NetEvent, n': Net): Ledger
    requires ev.unit < |n.agents| == |n'.agents| == |l.catches| == |h.traces|
  {
    var i := ev.unit;
    if i in n'.halted then l
    else Ledger(l.catches[i := CatchAfter(l.catches[i], n.agents[i], ev, n'.agents[i], l.late)],
                LateAfter(l.late, n.agents[i], ev), SentAfter(l.sent, h.traces[i], l.catches[i], n.agents[i], ev))
  }

  ghost function LedgerAt(r: NetRun, ids: seq<SystemID>, k: nat): (l: Ledger)
    requires IsJoiningRun(r, ids) && k <= |r.events|
    ensures |l.catches| == |r.states[k].agents|
  {
    if k == 0 then Ledger(seq(|r.states[0].agents|, i => Catch(0, 0, true)), map[], map[])
    else
      assert StepAt(r, k - 1);
      Entered(LedgerAt(r, ids, k - 1), HistoryAt(r, ids, k - 1), r.states[k - 1], r.events[k - 1], r.states[k])
  }

  // ----- what the entries mean -----

  /** Unless clamped, a merge slot of an invitation lies where the caught sync did, less the latency guessed
      of its sender and the preflight allowed for. */
  predicate CatchTrue(s: Agent, c: Catch, phases: Phases) {
    s.merge.role == Merger && s.merge.kind == MergeOther && !c.clamped ==>
      && c.invited in phases && s.merge.superior in phases && c.late >= 0
      && Congruent(phases[s.merge.superior] + s.merge.slotStart,
                   phases[c.invited] + HALF_SLOT + c.late - GUESSED_LATENCY - PreflightDelta(s.latency))
  }

  predicate SyncTrue(f: Flight, late: map<Flight, int>, phases: Phases) {
    IsSync(f.msg.kind) ==>
      f in late && late[f] >= 0 && f.msg.master in phases && Congruent(f.arrival, phases[f.msg.master] + HALF_SLOT + late[f])
  }

  /** Where an invitation arrives, after the sync point of the clique invited. */
  function Landing(v: Invitation): int {
    HALF_SLOT + v.catch.late - GUESSED_LATENCY - PreflightDelta(v.latency) + v.origin.radio
  }

  predicate InvitationTrue(f: Flight, sent: map<Flight, Invitation>, phases: Phases) {
    IsMerge(f.msg.kind) ==>
      && f in sent && IsLatency(sent[f].latency)
      && (f.msg.kind == MergeOther && !sent[f].catch.clamped && sent[f].origin.told == f.msg.master ==>
            && sent[f].catch.invited in phases && sent[f].catch.late >= 0
            && Congruent(f.arrival, phases[sent[f].catch.invited] + Landing(sent[f])))
  }

  predicate FlightTrue(f: Flight, l: Ledger, phases: Phases) {
    SyncTrue(f, l.late, phases) && InvitationTrue(f, l.sent, phases)
  }

  ghost predicate LedgerTrue(n: Net, l: Ledger, h: History, phases: Phases) {
    && |l.catches| == |n.agents|
    && (forall i :: 0 <= i < |n.agents| ==> CatchTrue(n.agents[i], l.catches[i], phases))
    && (forall f :: f in n.air ==> FlightTrue(f, l, phases))
    && SameOrigins(l.sent, h.origins)
  }

  ghost predicate SameOrigins(sent: map<Flight, Invitation>, origins: map<Flight, Origin>) {
    forall f :: f in sent ==> f in origins && origins[f] == sent[f].origin
  }

  // ----- every step keeps them true -----

  lemma SentSyncTrue(s: Agent, ev: NetEvent, t: Trace, late: map<Flight, int>, phases: Phases)
    requires ev.TaskOf? && Inv(s) && ev.env.Legal() && Fire(s, ev.env).Ok? && s.pending == SendSync
    requires StartTraced(s, t, phases)
    ensures forall f :: f in Sent(s, ev) ==> SyncTrue(f, LateAfter(late, s, ev), phases) && !IsMerge(f.msg.kind)
  {
    TransmissionValid(s, ev.env);
    CongruentShift(s.period.start, phases[t.began], HALF_SLOT + Lateness(s));
  }

  lemma SentInvitationTrue(s: Agent, ev: NetEvent, t: Trace, c: Catch, sent: map<Flight, Invitation>, phases: Phases)
    requires ev.TaskOf? && Inv(s) && ev.env.Legal() && Fire(s, ev.env).Ok? && s.pending == MergerStartAndEnd
    requires StartTraced(s, t, phases) && CatchTrue(s, c, phases)
    ensures forall f :: f in Sent(s, ev) ==> InvitationTrue(f, SentAfter(sent, t, c, s, ev), phases) && !IsSync(f.msg.kind)
  {
    TransmissionValid(s, ev.env);
    var m := s.merge;
    if m.kind == MergeOther && !c.clamped && t.began == m.superior {
      LandsAt(s.period.start, phases[t.began], m.slotStart,
              phases[c.invited] + HALF_SLOT + c.late - GUESSED_LATENCY - PreflightDelta(s.latency), ev.radio);
    }
  }

  lemma LandsAt(start: Time, own: Time, slotStart: int, place: Time, radio: int)
    requires Congruent(start, own) && Congruent(own + slotStart, place)
    ensures Congruent(start + slotStart + radio, place + radio)
  {
    assert start + slotStart + radio - (place + radio) == (start - own) + (own + slotStart - place);
  }

  lemma TaskCatchTrue(s: Agent, ev: NetEvent, s': Agent, c: Catch, late: map<Flight, int>, phases: Phases)
    requires ev.TaskOf? && Inv(s) && Fire(s, ev.env) == Ok(s') && CatchTrue(s, c, phases)
    ensures CatchTrue(s', CatchAfter(c, s, ev, s', late), phases)
  {
    FireFrame(s, ev.env);
  }

  lemma HearingCatchTrue(s: Agent, ev: NetEvent, s': Agent, c: Catch, late: map<Flight, int>, phases: Phases)
    requires ev.Delivery? && Inv(s) && IsStep(s, EventOf(ev), s') && CatchTrue(s, c, phases)
    requires UnitInPhase(s, phases) && SyncTrue(ev.flight, late, phases)
    ensures CatchTrue(s', CatchAfter(c, s, ev, s', late), phases)
  {
    var f := ev.flight;
    if s.pending == EndSyncSlotListen {
      SyncSlotNeverStopsMerger(s, f.msg, f.arrival, ev.random);
    } else if IsSync(f.msg.kind) && s.fish.mode == Trolling {
      CaughtTrue(s, f, s', late, phases);
    }
  }

  lemma CaughtTrue(s: Agent, f: Flight, s': Agent, late: map<Flight, int>, phases: Phases)
    requires Inv(s) && CanHear(s, f.msg, f.arrival, 0) && HearInFishSlot(s.(now := f.arrival), f.msg) == Ok(s')
    requires s.pending == FishSlotEnd && s.fish.mode == Trolling && IsSync(f.msg.kind)
    requires UnitInPhase(s, phases) && SyncTrue(f, late, phases)
    ensures s.merge.role != Merger && s'.merge.role == Merger
    ensures CatchTrue(s', Catch(f.msg.master, late[f], Clamped(s, f.arrival)), phases)
  {
    PreludeFitsTheCatch(s, f.arrival);
    MergeOtherPlacement(s.period, f.arrival, s.latency);
    var m := s'.merge;
    if m.kind == MergeOther && !Clamped(s, f.arrival) {
      var own := phases[s.clique.master];
      InvitationPlace(s.period.end, own, m.slotStart, PreflightDelta(s.latency), f.arrival,
                      phases[f.msg.master] + HALF_SLOT + late[f]);
    }
  }

  lemma InvitationPlace(end: Time, own: Time, slotStart: int, preflight: int, toa: Time, sync: Time)
    requires Congruent(end, own) && Congruent(end + slotStart + preflight, toa - GUESSED_LATENCY) && Congruent(toa, sync)
    ensures Congruent(own + slotStart, sync - GUESSED_LATENCY - preflight)
  {
    var a, b, c := end - own, end + slotStart + preflight - (toa - GUESSED_LATENCY), toa - sync;
    assert own + slotStart - (sync - GUESSED_LATENCY - preflight) == b + c - a;
  }

  lemma UnitStepTrue(s: Agent, ev: NetEvent, s': Agent, t: Trace, l: Ledger, c: Catch, phases: Phases)
    requires Inv(s) && IsStep(s, EventOf(ev), s') && UnitInPhase(s, phases)
    requires StartTraced(s, t, phases) && CatchTrue(s, c, phases)
    requires ev.Delivery? ==> FlightTrue(ev.flight, l, phases)
    ensures CatchTrue(s', CatchAfter(c, s, ev, s', l.late), phases)
    ensures forall f :: f in Sent(s, ev) ==>
              SyncTrue(f, LateAfter(l.late, s, ev), phases) && InvitationTrue(f, SentAfter(l.sent, t, c, s, ev), phases)
  {
    match ev
    case TaskOf(_, e, _) =>
      TaskCatchTrue(s, ev, s', c, l.late, phases);
      if s.pending == SendSync {
        SentSyncTrue(s, ev, t, l.late, phases);
      } else if s.pending == MergerStartAndEnd {
        SentInvitationTrue(s, ev, t, c, l.sent, phases);
      }
    case Delivery(_, _, _) => HearingCatchTrue(s, ev, s', c, l.late, phases);
  }

  /** What is in the air stays true: a new entry is only made for what is sent now. */
  lemma OldFlightTrue(f: Flight, s: Agent, ev: NetEvent, t: Trace, l: Ledger, c: Catch, phases: Phases)
    requires FlightTrue(f, l, phases)
    requires forall g :: g in Sent(s, ev) ==>
               SyncTrue(g, LateAfter(l.late, s, ev), phases) && InvitationTrue(g, SentAfter(l.sent, t, c, s, ev), phases)
    ensures SyncTrue(f, LateAfter(l.late, s, ev), phases) && InvitationTrue(f, SentAfter(l.sent, t, c, s, ev), phases)
  {
  }

  lemma StaySameOrigins(sent: map<Flight, Invitation>, origins: map<Flight, Origin>, t: Trace, c: Catch,
                        s: Agent, ev: NetEvent)
    requires SameOrigins(sent, origins)
    ensures SameOrigins(SentAfter(sent, t, c, s, ev), OriginsAfter(origins, t, s, ev))
  {
  }

  lemma StepTrue(n: Net, ev: NetEvent, n': Net, l: Ledger, h: History, phases: Phases)
    requires InPhase(n, phases) && Traced(n, h, phases) && LedgerTrue(n, l, h, phases) && IsNetStep(n, ev, n')
    ensures LedgerTrue(n', Entered(l, h, n, ev, n'), Recorded(h, n, ev, n'), phases)
  {
    var s, t, c := n.agents[ev.unit], h.traces[ev.unit], l.catches[ev.unit];
    if Step(s, EventOf(ev)).Ok? {
      assert ev.Delivery? && ev.flight !in n.air ==> FlightTrue(ev.flight, l, phases);
      UnitStepTrue(s, ev, n'.agents[ev.unit], t, l, c, phases);
      StaySameOrigins(l.sent, h.origins, t, c, s, ev);
      forall f | f in n'.air
        ensures SyncTrue(f, LateAfter(l.late, s, ev), phases) && InvitationTrue(f, SentAfter(l.sent, t, c, s, ev), phases)
      {
        if f in n.air {
          OldFlightTrue(f, s, ev, t, l, c, phases);
        }
      }
    }
  }

  lemma {:induction false} RunLedgerTrue(r: NetRun, ids: seq<SystemID>, k: nat)
    requires IsJoiningRun(r, ids) && k <= |r.events|
    ensures LedgerTrue(r.states[k], LedgerAt(r, ids, k), HistoryAt(r, ids, k), InitialPhases(r.states[0], ids))
  {
    if k == 0 {
      InitialLedgerTrue(r, ids);
    } else {
      RunLedgerTrue(r, ids, k - 1);
      LedgerTrueInRun(r, ids, k - 1);
    }
  }

  lemma InitialLedgerTrue(r: NetRun, ids: seq<SystemID>)
    requires IsJoiningRun(r, ids)
    ensures LedgerTrue(r.states[0], LedgerAt(r, ids, 0), HistoryAt(r, ids, 0), InitialPhases(r.states[0], ids))
  {
  }

  lemma LedgerTrueInRun(r: NetRun, ids: seq<SystemID>, k: nat)
    requires IsJoiningRun(r, ids) && k < |r.events|
    requires LedgerTrue(r.states[k], LedgerAt(r, ids, k), HistoryAt(r, ids, k), InitialPhases(r.states[0], ids))
    ensures LedgerTrue(r.states[k + 1], LedgerAt(r, ids, k + 1), HistoryAt(r, ids, k + 1), InitialPhases(r.states[0], ids))
  {
    RunInPhase(r, ids, k);
    RunTraced(r, ids, k);
    assert StepAt(r, k);
    StepTrue(r.states[k], r.events[k], r.states[k + 1], LedgerAt(r, ids, k), HistoryAt(r, ids, k),
             InitialPhases(r.states[0], ids));
  }

  // ----- an invitation that is heard where it was meant to be -----

  /** Event h delivers an unclamped invitation, from a merger whose period began in the clique it names, and
      which caught a sync that was not late, to a unit of the clique it invites. */
  ghost predicate InvitesOnTarget(r: NetRun, ids: seq<SystemID>, h: nat, i: nat)
    requires IsJoiningRun(r, ids) && h < |r.events|
  {
    var ev, l := r.events[h], LedgerAt(r, ids, h);
    && ev.Delivery? && ev.unit == i < |r.states[h].agents|
    && ev.flight.msg.kind == MergeOther && ev.flight in l.sent
    && var v := l.sent[ev.flight];
       && !v.catch.clamped && v.origin.told == ev.flight.msg.master
       && v.catch.late < GUESSED_LATENCY + v.latency
       && r.states[h].agents[i].clique.master == v.catch.invited
  }

  /** It can be heard there only if it took more than half a slot from the start of the merge slot. */
  lemma OnTargetIsLate(s: Agent, t: Trace, f: Flight, random: nat, sent: map<Flight, Invitation>, phases: Phases)
    requires Inv(s) && StartTraced(s, t, phases) && CanHear(s, f.msg, f.arrival, random) && s.pending == EndSyncSlotListen
    requires InvitationTrue(f, sent, phases) && f.msg.kind == MergeOther && f in sent
    requires !sent[f].catch.clamped && sent[f].origin.told == f.msg.master
    requires sent[f].catch.late < GUESSED_LATENCY + sent[f].latency && s.clique.master == sent[f].catch.invited
    requires 0 <= sent[f].origin.radio <= 2 * SLOT
    ensures sent[f].origin.radio > HALF_SLOT
  {
    var d := f.arrival - s.period.start;
    assert 0 <= d <= SLOT;
    CongruentDifference(f.arrival, phases[s.clique.master] + Landing(sent[f]), s.period.start, phases[s.clique.master]);
    assert Congruent(d, Landing(sent[f]));
  }

  /** No deep session that an invitation leads to, in the very clique it was meant for, contains a mid-slot
      sync of the clique that sent it, however many periods it goes on. */
  lemma InvitedSessionsMissTheSync(r: NetRun, ids: seq<SystemID>, h: nat, k: nat, i: nat)
    requires IsJoiningRun(r, ids) && h < k <= |r.events| && AimsFrom(r, ids, h, k, i)
    requires InvitesOnTarget(r, ids, h, i) && InUnclampedDeepSession(r.states[k].agents[i])
    ensures var named, phases := r.events[h].flight.msg.master, InitialPhases(r.states[0], ids);
            named in phases && !SessionMeets(r.states[k].agents[i], phases[named])
  {
    var s, ev := r.states[h].agents[i], r.events[h];
    var t, phases := HistoryAt(r, ids, h).traces[i], InitialPhases(r.states[0], ids);
    HearsInSlot(r, ids, h, k, i);
    RunLedgerTrue(r, ids, h);
    UnitTracedInRun(r, ids, h, i);
    OnTargetIsLate(s, t, ev.flight, ev.random, LedgerAt(r, ids, h).sent, phases);
    DeepFishingAimInSameClique(r, ids, h, k, i);
  }

  lemma HearsInSlot(r: NetRun, ids: seq<SystemID>, h: nat, k: nat, i: nat)
    requires IsJoiningRun(r, ids) && h < k <= |r.events| && AimsFrom(r, ids, h, k, i)
    requires r.events[h].flight.msg.kind == MergeOther
    ensures var s, ev := r.states[h].agents[i], r.events[h];
            && CanHear(s, ev.flight.msg, ev.flight.arrival, ev.random) && s.pending == EndSyncSlotListen
            && ev.flight in r.states[h].air && ev.flight in HistoryAt(r, ids, h).origins
            && 0 <= HistoryAt(r, ids, h).origins[ev.flight].radio <= 2 * SLOT
  {
    UnitTracedInRun(r, ids, h, i);
    RunTraced(r, ids, h);
    assert StepAt(r, h);
    var s, ev := r.states[h].agents[i], r.events[h];
    assert FlightTraced(ev.flight, HistoryAt(r, ids, h).origins, InitialPhases(r.states[0], ids));
    assert r.states[h + 1].agents[i].fish.mode == DeepFishing;
    DeepStartsOnMerge(s, ev.flight.msg, ev.flight.arrival, ev.random);
  }
}
