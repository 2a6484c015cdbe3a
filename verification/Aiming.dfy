/** Deep fishing in a network: whether a session, periods after a merge message was heard, still contains
    a sync of the clique the message told of.  What units and flights stand for is recorded along a run. */
module Aiming {
  import opened Parameters
  import opened Outcomes
  import opened Schedules
  import opened Messages
  import opened Merging
  import opened Fishing
  import opened TaskMachine
  import opened Runs
  import opened Network

  /** Of a merge message: the clique its sender was in when the sender's period began, the clique the
      message names, and its time from the start of the merge slot to arrival.  Of the unit that started
      to deep fish on it: the clique that unit was in when its period began. */
  datatype Aim = Aim(told: SystemID, named: SystemID, radio: int, hearer: SystemID)

  /** Of a unit: the clique it was in when its period began, and its last aim. */
  datatype Trace = Trace(began: SystemID, aim: Aim)

  datatype Origin = Origin(told: SystemID, radio: int)

  datatype History = History(traces: seq<Trace>, origins: map<Flight, Origin>)

  function NoHistory(n: Net): History {
    History(seq(|n.agents|, i requires 0 <= i < |n.agents| => Trace(n.agents[i].clique.self, Aim(0, 0, 0, 0))), map[])
  }

  function TraceAfter(t: Trace, s: Agent, ev: NetEvent, s': Agent, origins: map<Flight, Origin>): Trace {
    match ev
    case TaskOf(_, e, _) => if IsRoll(s, Fires(e)) then t.(began := s.clique.master) else t
    case Delivery(_, f, _) =>
      if s.fish.mode == Trolling && s'.fish.mode == DeepFishing && f in origins then
        t.(aim := Aim(origins[f].told, f.msg.master, origins[f].radio, t.began))
      else t
  }

  function OriginsAfter(origins: map<Flight, Origin>, t: Trace, s: Agent, ev: NetEvent): map<Flight, Origin> {
    if ev.TaskOf? && s.pending == MergerStartAndEnd then
      origins + map f | f in Sent(s, ev) :: f := Origin(t.began, ev.radio)
    else origins
  }

  function Recorded(h: History, n: Net, ev: NetEvent, n': Net): History
    requires ev.unit < |n.agents| == |n'.agents| == |h.traces|
  {
    var i := ev.unit;
    if i in n'.halted then h
    else History(h.traces[i := TraceAfter(h.traces[i], n.agents[i], ev, n'.agents[i], h.origins)],
                 OriginsAfter(h.origins, h.traces[i], n.agents[i], ev))
  }

  /** What is recorded up to the k-th state of a run. */
  ghost function HistoryAt(r: NetRun, ids: seq<SystemID>, k: nat): (h: History)
    requires IsJoiningRun(r, ids) && k <= |r.events|
    ensures |h.traces| == |r.states[k].agents|
  {
    if k == 0 then NoHistory(r.states[0])
    else
      assert StepAt(r, k - 1) && JoiningAt(r, k - 1);
      Recorded(HistoryAt(r, ids, k - 1), r.states[k - 1], r.events[k - 1], r.states[k])
  }

  // ----- what the records mean -----

  /** Tasks from the roll of a period to the end of a merge slot. */
  predicate InSlot(task: Task) {
    task in {SendSync, EndSyncSlotListen, EndSyncSlotSend, MergerStartAndEnd}
  }

  predicate StartTraced(s: Agent, t: Trace, phases: Phases) {
    t.began in phases &&
    (s.pending != StartSyncPeriodMaintain ==> Congruent(s.period.start, phases[t.began])) &&
    (s.pending == SendSync || (s.pending == EndSyncSlotListen && s.listening) ==> t.began == s.clique.master)
  }

  /** A merger calls superior the clique it was in when it became one; it may since have joined a better one. */
  predicate MergerTraced(s: Agent, t: Trace, phases: Phases) {
    s.merge.role == Merger ==>
      && s.merge.superior in phases && s.clique.master <= s.merge.superior
      && (InSlot(s.pending) ==> t.began <= s.merge.superior)
  }

  /** The distance a deep fisher keeps is that from its sync point to the one told of. */
  predicate AimTrue(a: Aim, delta: int, phases: Phases) {
    && a.told in phases && a.named in phases && a.hearer in phases
    && a.told <= a.named && 0 <= a.radio <= 2 * SLOT
    && Congruent(delta, phases[a.told] + a.radio - phases[a.hearer])
  }

  predicate UnitTraced(s: Agent, t: Trace, phases: Phases) {
    && StartTraced(s, t, phases) && MergerTraced(s, t, phases)
    && (s.fish.mode == DeepFishing ==> AimTrue(t.aim, s.fish.delta, phases))
  }

  predicate FlightTraced(f: Flight, origins: map<Flight, Origin>, phases: Phases) {
    IsMerge(f.msg.kind) ==>
      && f in origins && origins[f].told in phases && f.msg.master in phases
      && origins[f].told <= f.msg.master && 0 <= origins[f].radio <= 2 * SLOT
      && Congruent(EventTime(f.arrival, f.msg.offset), phases[origins[f].told] + origins[f].radio)
  }

  ghost predicate Traced(n: Net, h: History, phases: Phases) {
    && |h.traces| == |n.agents|
    && (forall i :: 0 <= i < |n.agents| ==> UnitTraced(n.agents[i], h.traces[i], phases))
    && (forall f :: f in n.air ==> FlightTraced(f, h.origins, phases))
  }

  // ----- every step keeps them true -----

  lemma TaskStartTraced(s: Agent, ev: NetEvent, s': Agent, t: Trace, origins: map<Flight, Origin>, phases: Phases)
    requires ev.TaskOf? && Inv(s) && ev.env.Legal() && Fire(s, ev.env) == Ok(s') && s'.clique.master == s.clique.master
    requires UnitInPhase(s, phases) && StartTraced(s, t, phases)
    ensures StartTraced(s', TraceAfter(t, s, ev, s', origins), phases)
  {
    FireTask(s, ev.env);
    if !IsRoll(s, Fires(ev.env)) {
      FireFrame(s, ev.env);
      TaskAfterMaintain(s, ev.env);
    }
  }

  /** Only a roll of the period ends or begins sleeping through it. */
  lemma TaskAfterMaintain(s: Agent, e: Env)
    requires Fire(s, e).Ok? && TasksToRoll(s.pending) != 1
    ensures Fire(s, e).value.pending !in {StartSyncPeriodMaintain, SendSync, EndSyncSlotListen}
    ensures InSlot(Fire(s, e).value.pending) ==> InSlot(s.pending)
  {
    if s.pending in {EndSyncSlotListen, EndSyncSlotSend} {
      FireEndSyncSlotFrame(s, e);
    } else if s.pending == FishSlotEnd {
      FireFishEndFrame(s, e);
    } else if s.pending == MergerStartAndEnd {
      FireMergerFrame(s, e);
    } else {
      FireSimpleFrame(s, e);
    }
  }

  lemma TaskMergerTraced(s: Agent, ev: NetEvent, s': Agent, t: Trace, origins: map<Flight, Origin>, phases: Phases)
    requires ev.TaskOf? && Inv(s) && ev.env.Legal() && Fire(s, ev.env) == Ok(s') && s'.clique.master == s.clique.master
    requires MergerTraced(s, t, phases)
    ensures MergerTraced(s', TraceAfter(t, s, ev, s', origins), phases)
  {
    FireFrame(s, ev.env);
    if TasksToRoll(s.pending) != 1 {
      TaskAfterMaintain(s, ev.env);
    }
  }

  lemma TaskTraced(s: Agent, ev: NetEvent, s': Agent, t: Trace, origins: map<Flight, Origin>, phases: Phases)
    requires ev.TaskOf? && Inv(s) && ev.env.Legal() && Fire(s, ev.env) == Ok(s') && s'.clique.master == s.clique.master
    requires UnitInPhase(s, phases) && UnitTraced(s, t, phases)
    ensures UnitTraced(s', TraceAfter(t, s, ev, s', origins), phases)
  {
    TaskStartTraced(s, ev, s', t, origins, phases);
    TaskMergerTraced(s, ev, s', t, origins, phases);
    FireFrame(s, ev.env);
    if s'.fish.mode == DeepFishing && s.fish.mode == Trolling {
      FireFishEndFrame(s, ev.env);
    }
  }

  /** A merge message tells of the sync point of the clique its sender was in when its period began. */
  lemma SentTraced(s: Agent, ev: NetEvent, t: Trace, origins: map<Flight, Origin>, phases: Phases)
    requires ev.TaskOf? && Inv(s) && ev.env.Legal() && Fire(s, ev.env).Ok? && ev.radio <= 2 * SLOT
    requires UnitTraced(s, t, phases)
    ensures forall f :: f in Sent(s, ev) ==> FlightTraced(f, OriginsAfter(origins, t, s, ev), phases)
  {
    if Transmission(s, ev.env).Some? {
      TransmissionValid(s, ev.env);
      if s.pending == MergerStartAndEnd {
        CongruentShift(s.period.start, phases[t.began], PERIOD + ev.radio);
      }
    }
  }

  lemma HearingMergerTraced(s: Agent, f: Flight, random: nat, s': Agent, t: Trace, phases: Phases)
    requires Inv(s) && CanHear(s, f.msg, f.arrival, random) && Hear(s, f.msg, f.arrival, random) == Ok(s')
    requires MergerTraced(s, t, phases) && s'.clique.master in phases && s'.clique.master <= s.clique.master
    ensures MergerTraced(s', t, phases)
  {
    if s.pending == EndSyncSlotListen {
      SyncSlotNeverStopsMerger(s, f.msg, f.arrival, random);
    } else if IsSync(f.msg.kind) && s.fish.mode == Trolling {
      PreludeFitsTheCatch(s, f.arrival);
      CaughtKeepsValid(s.merge, s.clique, s.period, f.msg, f.arrival, s.latency);
    }
  }

  /** A trolling session ends within the normal period. */
  lemma PreludeFitsTheCatch(s: Agent, toa: Time)
    requires Inv(s) && s.pending == FishSlotEnd && s.fish.mode == Trolling && s.listening && s.now <= toa <= s.due
    ensures s.period.start + SLOT <= toa <= s.period.start + PERIOD
  {
  }

  lemma HearingAimTraced(s: Agent, f: Flight, random: nat, s': Agent, t: Trace, origins: map<Flight, Origin>,
                         phases: Phases)
    requires Inv(s) && CanHear(s, f.msg, f.arrival, random) && Hear(s, f.msg, f.arrival, random) == Ok(s')
    requires StartTraced(s, t, phases) && FlightTraced(f, origins, phases)
    requires s.fish.mode == DeepFishing ==> AimTrue(t.aim, s.fish.delta, phases)
    requires s'.fish.mode == DeepFishing
    ensures AimTrue(TraceAfter(t, s, Delivery(0, f, random), s', origins).aim, s'.fish.delta, phases)
  {
    if s.fish.mode == DeepFishing {
      DeepStep(s, Hears(f.msg, f.arrival, random));
    } else {
      assert IsMerge(f.msg.kind) && s.pending == EndSyncSlotListen;
      var event := EventTime(f.arrival, f.msg.offset);
      assert s'.fish.delta == event - s.period.start;
      CongruentDifference(event, phases[origins[f].told] + origins[f].radio, s.period.start, phases[t.began]);
    }
  }

  lemma CongruentDifference(a: Time, b: Time, c: Time, d: Time)
    requires Congruent(a, b) && Congruent(c, d)
    ensures Congruent(a - c, b - d)
  {
    assert (a - c) - (b - d) == (a - b) - (c - d);
  }

  lemma HearingTraced(s: Agent, f: Flight, random: nat, s': Agent, t: Trace, origins: map<Flight, Origin>,
                      phases: Phases)
    requires Inv(s) && CanHear(s, f.msg, f.arrival, random) && Hear(s, f.msg, f.arrival, random) == Ok(s')
    requires UnitTraced(s, t, phases) && FlightTraced(f, origins, phases)
    requires s'.clique.master in phases && s'.clique.master <= s.clique.master
    ensures UnitTraced(s', TraceAfter(t, s, Delivery(0, f, random), s', origins), phases)
  {
    HearKeepsTimer(s, f.msg, f.arrival, random);
    HearKeepsStart(s, f.msg, f.arrival, random);
    HearingMergerTraced(s, f, random, s', t, phases);
    if s'.fish.mode == DeepFishing {
      HearingAimTraced(s, f, random, s', t, origins, phases);
    }
  }

  lemma UnitStepTraced(s: Agent, ev: NetEvent, s': Agent, t: Trace, origins: map<Flight, Origin>, phases: Phases)
    requires Inv(s) && IsStep(s, EventOf(ev), s') && Joining(s, ev, s') && UnitInPhase(s, phases)
    requires UnitTraced(s, t, phases) && (ev.TaskOf? ==> ev.radio <= 2 * SLOT)
    requires ev.Delivery? ==> FlightInPhase(ev.flight, phases) && FlightTraced(ev.flight, origins, phases)
    ensures UnitTraced(s', TraceAfter(t, s, ev, s', origins), phases)
    ensures forall f :: f in Sent(s, ev) ==> FlightTraced(f, OriginsAfter(origins, t, s, ev), phases)
  {
    UnitStepInPhase(s, ev, s', phases);
    match ev
    case TaskOf(_, _, _) =>
      TaskTraced(s, ev, s', t, origins, phases);
      SentTraced(s, ev, t, origins, phases);
    case Delivery(_, f, random) =>
      HearingTraced(s, f, random, s', t, origins, phases);
  }

  /** What is in the air stays true: a new record is only made of what is sent now. */
  lemma OldFlightTraced(f: Flight, s: Agent, ev: NetEvent, t: Trace, origins: map<Flight, Origin>, phases: Phases)
    requires FlightTraced(f, origins, phases)
    requires forall g :: g in Sent(s, ev) ==> FlightTraced(g, OriginsAfter(origins, t, s, ev), phases)
    ensures FlightTraced(f, OriginsAfter(origins, t, s, ev), phases)
  {
  }

  lemma StepTraced(n: Net, ev: NetEvent, n': Net, h: History, phases: Phases)
    requires InPhase(n, phases) && Traced(n, h, phases) && IsNetStep(n, ev, n')
    requires Joining(n.agents[ev.unit], ev, n'.agents[ev.unit])
    ensures Traced(n', Recorded(h, n, ev, n'), phases)
  {
    var s, t := n.agents[ev.unit], h.traces[ev.unit];
    if Step(s, EventOf(ev)).Ok? {
      UnitStepTraced(s, ev, n'.agents[ev.unit], t, h.origins, phases);
      forall f | f in n'.air
        ensures FlightTraced(f, OriginsAfter(h.origins, t, s, ev), phases)
      {
        if f in n.air {
          OldFlightTraced(f, s, ev, t, h.origins, phases);
        }
      }
    }
  }

  lemma InitialTraced(n: Net, ids: seq<SystemID>)
    requires Initial(n, ids)
    ensures Traced(n, NoHistory(n), InitialPhases(n, ids))
  {
    forall i | 0 <= i < |ids|
      ensures UnitTraced(n.agents[i], NoHistory(n).traces[i], InitialPhases(n, ids))
    {
      assert StartsUp(n.agents[i], ids[i]);
    }
  }

  lemma {:induction false} RunTraced(r: NetRun, ids: seq<SystemID>, k: nat)
    requires IsJoiningRun(r, ids) && k <= |r.events|
    ensures Traced(r.states[k], HistoryAt(r, ids, k), InitialPhases(r.states[0], ids))
  {
    if k == 0 {
      InitialTraced(r.states[0], ids);
    } else {
      RunTraced(r, ids, k - 1);
      TracedInRun(r, ids, k - 1);
    }
  }

  lemma TracedInRun(r: NetRun, ids: seq<SystemID>, k: nat)
    requires IsJoiningRun(r, ids) && k < |r.events|
    requires Traced(r.states[k], HistoryAt(r, ids, k), InitialPhases(r.states[0], ids))
    ensures Traced(r.states[k + 1], HistoryAt(r, ids, k + 1), InitialPhases(r.states[0], ids))
  {
    RunInPhase(r, ids, k);
    assert StepAt(r, k) && JoiningAt(r, k);
    StepTraced(r.states[k], r.events[k], r.states[k + 1], HistoryAt(r, ids, k), InitialPhases(r.states[0], ids));
  }

  lemma UnitTracedInRun(r: NetRun, ids: seq<SystemID>, k: nat, i: nat)
    requires IsJoiningRun(r, ids) && k <= |r.events| && i < |r.states[k].agents|
    ensures Inv(r.states[k].agents[i])
    ensures UnitTraced(r.states[k].agents[i], HistoryAt(r, ids, k).traces[i], InitialPhases(r.states[0], ids))
  {
    RunTraced(r, ids, k);
    RunInPhase(r, ids, k);
  }

  // ----- where deep sessions are -----

  /** A sync started in the middle of some sync slot of a clique arrives at `t`. */
  predicate SyncArrives(t: Time, syncPoint: Time) {
    Congruent(t, syncPoint + HALF_SLOT)
  }

  lemma SyncArrivesMidSlot(s: Agent, t: Trace, phases: Phases)
    requires UnitTraced(s, t, phases) && s.pending == SendSync && s.due == s.period.start + TransmitDelta(s.latency)
    ensures SyncArrives(s.due + s.latency, phases[t.began])
  {
    CongruentShift(s.period.start, phases[t.began], HALF_SLOT);
  }

  /** Any sync sent on time arrives in the middle of a sync slot of the clique its sender's period began in. */
  lemma SyncsArriveMidSlot(r: NetRun, ids: seq<SystemID>, k: nat, i: nat)
    requires IsJoiningRun(r, ids) && k <= |r.events| && i < |r.states[k].agents|
    requires var s := r.states[k].agents[i]; s.pending == SendSync && s.due == s.period.start + TransmitDelta(s.latency)
    ensures var s, phases := r.states[k].agents[i], InitialPhases(r.states[0], ids);
            var began := HistoryAt(r, ids, k).traces[i].began;
            began in phases && SyncArrives(s.due + s.latency, phases[began])
  {
    UnitTracedInRun(r, ids, k, i);
    SyncArrivesMidSlot(r.states[k].agents[i], HistoryAt(r, ids, k).traces[i], InitialPhases(r.states[0], ids));
  }

  /** A window of one slot contains a mid-slot sync of a clique exactly if the next one comes in time. */
  lemma MidSlotInWindow(first: Time, syncPoint: Time)
    ensures (syncPoint + HALF_SLOT - first) % PERIOD <= SLOT <==>
            exists t: Time :: SyncArrives(t, syncPoint) && first <= t <= first + SLOT
  {
    var d := (syncPoint + HALF_SLOT - first) % PERIOD;
    if d <= SLOT {
      assert SyncArrives(first + d, syncPoint);
    }
    forall t: Time | SyncArrives(t, syncPoint) && first <= t <= first + SLOT
      ensures d <= SLOT
    {
      assert (syncPoint + HALF_SLOT - first) % PERIOD == (t - first) % PERIOD;
    }
  }

  /** The session now listening contains a mid-slot sync of a clique. */
  ghost predicate SessionMeets(s: Agent, syncPoint: Time) {
    exists t: Time :: SyncArrives(t, syncPoint) && s.due - SLOT <= t <= s.due
  }

  /** A deep session that neither my sync slot nor my next sync point cuts off. */
  predicate InUnclampedDeepSession(s: Agent) {
    && s.pending == FishSlotEnd && s.fish.mode == DeepFishing
    && s.period.start + SLOT <= s.period.start + s.fish.delta <= s.period.end
  }

  lemma CongruentSum(a: Time, b: Time, c: Time, d: Time)
    requires Congruent(a, b) && Congruent(c, d)
    ensures Congruent(a + c, b + d)
  {
    assert (a + c) - (b + d) == (a - b) + (c - d);
  }

  lemma CongruentWindow(a: Time, b: Time, c: Time)
    requires Congruent(b, c)
    ensures (a - b) % PERIOD == (a - c) % PERIOD
  {
    assert a - b == (a - c) - (b - c);
  }

  /** How long after the start of an aimed session the next mid-slot sync of a clique arrives. */
  function FromSessionToSync(a: Aim, began: SystemID, target: SystemID, phases: Phases): int
    requires a.told in phases && a.hearer in phases && began in phases && target in phases
  {
    (phases[target] - phases[a.told] + phases[a.hearer] - phases[began] + HALF_SLOT - a.radio) % PERIOD
  }

  lemma SessionAim(s: Agent, t: Trace, phases: Phases, target: SystemID)
    requires Inv(s) && UnitTraced(s, t, phases) && InUnclampedDeepSession(s) && target in phases
    ensures SessionMeets(s, phases[target]) <==> FromSessionToSync(t.aim, t.began, target, phases) <= SLOT
  {
    var first := s.period.start + s.fish.delta;
    assert s.due == first + SLOT;
    MidSlotInWindow(first, phases[target]);
    var delta := phases[t.aim.told] + t.aim.radio - phases[t.aim.hearer];
    CongruentSum(s.period.start, phases[t.began], s.fish.delta, delta);
    CongruentWindow(phases[target] + HALF_SLOT, first, phases[t.began] + delta);
  }

  /** Aim, on every run, for every unclamped deep session, in whatever later period: the merge message told
      of the clique it named, or of a better one its sender had joined since.  The session contains a
      mid-slot sync of a clique exactly if that follows within a slot, by the start-up phases of four
      cliques: that clique, the one told of, and those this unit was in when it heard the message and
      when its present period began. */
  lemma DeepFishingAim(r: NetRun, ids: seq<SystemID>, k: nat, i: nat, target: SystemID)
    requires IsJoiningRun(r, ids) && k <= |r.events| && i < |r.states[k].agents| && target in ids
    requires InUnclampedDeepSession(r.states[k].agents[i])
    ensures var t, phases := HistoryAt(r, ids, k).traces[i], InitialPhases(r.states[0], ids);
            && t.aim.told in phases && t.aim.hearer in phases && t.began in phases && target in phases
            && t.aim.told <= t.aim.named
            && (SessionMeets(r.states[k].agents[i], phases[target]) <==>
                FromSessionToSync(t.aim, t.began, target, phases) <= SLOT)
  {
    UnitTracedInRun(r, ids, k, i);
    SessionAim(r.states[k].agents[i], HistoryAt(r, ids, k).traces[i], InitialPhases(r.states[0], ids), target);
  }

  lemma SameCliqueAim(a: Aim, phases: Phases)
    requires a.told in phases && a.hearer in phases && 0 <= a.radio <= 2 * SLOT
    ensures FromSessionToSync(a, a.hearer, a.told, phases) <= SLOT <==> a.radio <= HALF_SLOT
  {
  }

  /** Unit i starts to deep fish on the merge message of the h-th event, and goes on in the same clique. */
  ghost predicate AimsFrom(r: NetRun, ids: seq<SystemID>, h: nat, k: nat, i: nat)
    requires IsJoiningRun(r, ids) && h < k <= |r.events|
  {
    && r.events[h].Delivery? && r.events[h].unit == i < |r.states[h].agents|
    && r.states[h].agents[i].fish.mode == Trolling
    && (forall j :: h < j <= k ==> i < |r.states[j].agents| && r.states[j].agents[i].fish.mode == DeepFishing)
    && (forall j :: h < j <= k ==> r.states[j].agents[i].clique.master == r.states[h].agents[i].clique.master)
  }

  /** The records of that unit while it does: where its message came from, and its own clique. */
  ghost predicate AimRecorded(r: NetRun, ids: seq<SystemID>, h: nat, k: nat, i: nat)
    requires IsJoiningRun(r, ids) && h < k <= |r.events| && AimsFrom(r, ids, h, k, i)
  {
    var f, origins := r.events[h].flight, HistoryAt(r, ids, h).origins;
    var master, t := r.states[h].agents[i].clique.master, HistoryAt(r, ids, k).traces[i];
    f in origins && t == Trace(master, Aim(origins[f].told, f.msg.master, origins[f].radio, master))
  }

  /** Deep fishing starts only on a merge message heard in the sync slot. */
  lemma DeepStartsOnMerge(s: Agent, msg: Message, toa: Time, random: nat)
    requires Inv(s) && CanHear(s, msg, toa, random) && Hear(s, msg, toa, random).Ok?
    requires s.fish.mode == Trolling && Hear(s, msg, toa, random).value.fish.mode == DeepFishing
    ensures IsMerge(msg.kind) && s.pending == EndSyncSlotListen
  {
  }

  lemma AimStarts(r: NetRun, ids: seq<SystemID>, h: nat, i: nat)
    requires IsJoiningRun(r, ids) && h < |r.events| && AimsFrom(r, ids, h, h + 1, i)
    ensures AimRecorded(r, ids, h, h + 1, i)
  {
    UnitTracedInRun(r, ids, h, i);
    RunTraced(r, ids, h);
    assert StepAt(r, h) && JoiningAt(r, h);
    var s, f := r.states[h].agents[i], r.events[h].flight;
    DeepStartsOnMerge(s, f.msg, f.arrival, r.events[h].random);
    assert FlightTraced(f, HistoryAt(r, ids, h).origins, InitialPhases(r.states[0], ids));
  }

  lemma AimGoesOn(r: NetRun, ids: seq<SystemID>, h: nat, k: nat, i: nat)
    requires IsJoiningRun(r, ids) && h < k < |r.events| && AimsFrom(r, ids, h, k + 1, i)
    requires AimsFrom(r, ids, h, k, i) && AimRecorded(r, ids, h, k, i)
    ensures AimRecorded(r, ids, h, k + 1, i)
  {
    assert StepAt(r, k) && JoiningAt(r, k);
  }

  lemma {:induction false} AimKept(r: NetRun, ids: seq<SystemID>, h: nat, k: nat, i: nat)
    requires IsJoiningRun(r, ids) && h < k <= |r.events| && AimsFrom(r, ids, h, k, i)
    ensures AimRecorded(r, ids, h, k, i)
    decreases k
  {
    if k == h + 1 {
      AimStarts(r, ids, h, i);
    } else {
      AimKept(r, ids, h, k - 1, i);
      AimGoesOn(r, ids, h, k - 1, i);
    }
  }

  /** As long as a unit stays in the clique in which it heard a merge message, each unclamped session of its
      deep fishing, however many periods later, contains a mid-slot sync of the clique the message told of
      exactly if the message took at most half a slot from the start of the merge slot. */
  lemma DeepFishingAimInSameClique(r: NetRun, ids: seq<SystemID>, h: nat, k: nat, i: nat)
    requires IsJoiningRun(r, ids) && h < k <= |r.events| && AimsFrom(r, ids, h, k, i)
    requires InUnclampedDeepSession(r.states[k].agents[i])
    ensures var f, origins, phases := r.events[h].flight, HistoryAt(r, ids, h).origins, InitialPhases(r.states[0], ids);
            && f in origins && origins[f].told in phases && origins[f].told <= f.msg.master
            && (SessionMeets(r.states[k].agents[i], phases[origins[f].told]) <==> origins[f].radio <= HALF_SLOT)
  {
    AimKept(r, ids, h, k, i);
    UnitTracedInRun(r, ids, k, i);
    var t, phases := HistoryAt(r, ids, k).traces[i], InitialPhases(r.states[0], ids);
    SameCliqueAim(t.aim, phases);
    SessionAim(r.states[k].agents[i], t, phases, t.aim.told);
  }

  /** An invitation heard in the very sync slot it was meant for took more than half a slot: the deep
      sessions it leads to then begin after the sync they are to catch. */
  lemma InvitationHeardIsTooLate(p: Period, toa: Time, latency: int, radio: int, catchSyncPoint: Time)
    requires p.WellFormed() && IsLatency(latency) && 0 <= radio <= 2 * SLOT
    requires p.start + SLOT <= toa <= p.start + PERIOD
    requires p.end <= TimeOfTransmittal(toa) + PERIOD
    requires RawTimeToMergeOther(p, toa) > EarliestMergeTime(latency)
    requires SyncArrives(toa, catchSyncPoint)
    requires HeardInSyncSlot(p.end + MergeOtherStart(p, toa, latency) + radio, catchSyncPoint)
    ensures radio > HALF_SLOT
  {
    MergeOtherReachesSyncSlot(p, toa, latency, radio, catchSyncPoint);
  }
}
