/** Properties of whole runs of one unit, from start-up, for every sequence of power levels, coin
    tosses, things to send and messages. */
module Runs {
  import opened Parameters
  import opened Outcomes
  import opened Schedules
  import opened Messages
  import opened Cliques
  import opened Trolling
  import opened Merging
  import opened Fishing
  import opened TaskMachine

  datatype Event =
    | Fires(env: Env)
    | Hears(msg: Message, toa: Time, random: nat)

  predicate Possible(s: Agent, ev: Event) {
    match ev
    case Fires(e) => e.Legal()
    case Hears(msg, toa, random) => CanHear(s, msg, toa, random)
  }

  function Step(s: Agent, ev: Event): Result<Agent> {
    match ev
    case Fires(e) => Fire(s, e)
    case Hears(msg, toa, random) => Hear(s, msg, toa, random)
  }

  predicate StepDoomed(s: Agent, ev: Event) {
    match ev
    case Fires(e) => Doomed(s, e)
    case Hears(msg, toa, random) => HearDoomed(s, msg, toa)
  }

  lemma StepSafe(s: Agent, ev: Event)
    requires Inv(s) && Possible(s, ev)
    ensures Step(s, ev).Halted? <==> StepDoomed(s, ev)
    ensures Step(s, ev).Ok? ==> Inv(Step(s, ev).value)
  {
    match ev
    case Fires(e) => FireSafe(s, e);
    case Hears(msg, toa, random) => HearSafe(s, msg, toa, random);
  }

  /** A run is the sequence of states from `states[0]`, one event leading from each to the next. */
  datatype Run = Run(states: seq<Agent>, events: seq<Event>)

  ghost predicate IsStep(s: Agent, ev: Event, s': Agent) {
    Possible(s, ev) && Step(s, ev) == Ok(s')
  }

  ghost predicate IsRun(r: Run) {
    && |r.states| == |r.events| + 1
    && forall k :: 0 <= k < |r.events| ==> IsStep(r.states[k], r.events[k], r.states[k + 1])
  }

  function Last(r: Run): Agent
    requires |r.states| > 0
  {
    r.states[|r.states| - 1]
  }

  function Prefix(r: Run): Run
    requires |r.states| == |r.events| + 1 && r.events != []
  {
    Run(r.states[..|r.events|], r.events[..|r.events| - 1])
  }

  lemma PrefixIsRun(r: Run)
    requires IsRun(r) && r.events != []
    ensures IsRun(Prefix(r)) && IsStep(Last(Prefix(r)), r.events[|r.events| - 1], Last(r))
  {
  }

  /** The invariant holds all along a run that starts in it. */
  lemma {:induction false} LastInv(r: Run)
    requires IsRun(r) && Inv(r.states[0])
    ensures Inv(Last(r))
    decreases |r.events|
  {
    if r.events != [] {
      PrefixIsRun(r);
      LastInv(Prefix(r));
      StepSafe(Last(Prefix(r)), r.events[|r.events| - 1]);
    }
  }

  /** Safety over runs: from start-up, every state satisfies the invariant, and whatever event comes
      next, the unit goes on to another such state unless the event is one of the named causes. */
  lemma RunSafe(self: SystemID, latency: int, now: Time, r: Run, next: Event)
    requires IsLatency(latency) && IsRun(r) && r.states[0] == Booted(self, latency, now)
    requires Possible(Last(r), next)
    ensures Inv(Last(r))
    ensures Step(Last(r), next).Halted? <==> StepDoomed(Last(r), next)
    ensures Step(Last(r), next).Ok? ==> Inv(Step(Last(r), next).value)
  {
    BootedInv(self, latency, now);
    LastInv(r);
    StepSafe(Last(r), next);
  }

  // ----- runs that never halt -----

  /** Guards, each decided before the event, that rule out every cause of a halt: no scatter, no merge
      slot in the last three slots of a period, no dropout of a unit with more than one former clique,
      no merge message that tells of a sync point within two slots before the unit's own, and no sync
      that adjusts a period a second time to an end out of bounds. */
  predicate Calm(s: Agent, ev: Event) {
    match ev
    case Fires(e) =>
      && e.scatter.None?
      && !(s.pending == MergerStartAndEnd && s.merge.slotStart + OVER_THE_AIR + s.latency > PERIOD - 3 * SLOT)
      && !(s.pending == EndSyncSlotListen && !s.clique.IsSelfMaster() && DropsOut(s.clique) && s.clique.index > 1)
    case Hears(msg, toa, random) =>
      && msg.kind != ControlScatterClique
      && (s.pending == EndSyncSlotListen && IsMerge(msg.kind) && s.fish.mode == Trolling ==>
            EventTime(toa, msg.offset) <= s.period.start + PERIOD - 2 * SLOT)
      && !HearDoomed(s, msg, toa)
  }

  predicate CalmState(s: Agent) {
    && Inv(s)
    && (s.fish.mode == DeepFishing ==> s.fish.delta <= PERIOD - 2 * SLOT)
    && (s.pending == FishSlotEnd && s.session == DeepFishing ==> s.due <= s.period.start + PERIOD - SLOT)
    && (s.pending == StartSyncSlotWithoutPrelude ==> s.prelude)
    && (s.pending == SendSync ==> s.period.Unadjusted())
  }

  lemma CalmTaskSafe(s: Agent, e: Env)
    requires CalmState(s) && e.Legal() && Calm(s, Fires(e))
    ensures Fire(s, e).Ok? && Inv(Fire(s, e).value)
    ensures s.pending == FishSlotEnd ==> s.prelude
  {
    FireSafe(s, e);
    if s.pending == FishSlotEnd && s.session == Trolling {
      PreludeFits(s.troll);
    }
  }

  lemma CalmRoll(s: Agent, e: Env)
    requires CalmState(s) && Calm(s, Fires(e)) && TasksToRoll(s.pending) == 1
    requires Fire(s, e).Ok? && Inv(Fire(s, e).value)
    ensures CalmState(Fire(s, e).value)
  {
    FireFrame(s, e);
    FireRollFrame(s, e);
  }

  lemma CalmFire(s: Agent, e: Env)
    requires CalmState(s) && e.Legal() && Calm(s, Fires(e))
    ensures Fire(s, e).Ok? && CalmState(Fire(s, e).value)
  {
    CalmTaskSafe(s, e);
    if TasksToRoll(s.pending) == 1 {
      CalmRoll(s, e);
    } else if s.pending in {EndSyncSlotListen, EndSyncSlotSend} {
      FireEndSyncSlotFrame(s, e);
    } else if s.pending == FishSlotEnd {
      FireFishEndFrame(s, e);
    } else if s.pending == MergerStartAndEnd {
      FireMergerFrame(s, e);
    } else {
      FireSimpleFrame(s, e);
    }
  }

  lemma CalmHear(s: Agent, msg: Message, toa: Time, random: nat)
    requires CalmState(s) && CanHear(s, msg, toa, random) && Calm(s, Hears(msg, toa, random))
    ensures Hear(s, msg, toa, random).Ok? && CalmState(Hear(s, msg, toa, random).value)
  {
    HearSafe(s, msg, toa, random);
  }

  ghost predicate AllCalm(r: Run)
    requires |r.states| == |r.events| + 1
  {
    forall k :: 0 <= k < |r.events| ==> Calm(r.states[k], r.events[k])
  }

  /** No assert of the source fails on any run all of whose events are calm. */
  lemma {:induction false} CalmRunNeverHalts(self: SystemID, latency: int, now: Time, r: Run, next: Event)
    requires IsLatency(latency) && IsRun(r) && r.states[0] == Booted(self, latency, now) && AllCalm(r)
    requires Possible(Last(r), next) && Calm(Last(r), next)
    ensures CalmState(Last(r)) && Step(Last(r), next).Ok?
    decreases |r.events|
  {
    if r.events == [] {
      BootedInv(self, latency, now);
    } else {
      PrefixIsRun(r);
      var ev := r.events[|r.events| - 1];
      PrefixCalm(r);
      CalmRunNeverHalts(self, latency, now, Prefix(r), ev);
      CalmStep(Last(Prefix(r)), ev);
    }
    CalmStep(Last(r), next);
  }

  lemma PrefixCalm(r: Run)
    requires IsRun(r) && r.events != [] && AllCalm(r)
    ensures AllCalm(Prefix(r))
    ensures Calm(Last(Prefix(r)), r.events[|r.events| - 1])
  {
  }

  lemma CalmStep(s: Agent, ev: Event)
    requires CalmState(s) && Possible(s, ev) && Calm(s, ev)
    ensures Step(s, ev).Ok? && CalmState(Step(s, ev).value)
  {
    match ev
    case Fires(e) => CalmFire(s, e);
    case Hears(msg, toa, random) => CalmHear(s, msg, toa, random);
  }

  // ----- the causes, seen from where they arise -----

  /** A merge slot dooms the unit exactly if it ends in the last three slots of the normal period:
      the prelude is then off, and the next sync slot starts without it. */
  lemma MergeNearEndHalts(s: Agent, e: Env, e': Env)
    requires Inv(s) && e.Legal() && e'.Legal() && s.pending == MergerStartAndEnd
    ensures Fire(s, e).Ok? && Inv(Fire(s, e).value)
    ensures Fire(Fire(s, e).value, e') == Halted(PreludeOff) <==>
            PERIOD - (s.merge.slotStart + OVER_THE_AIR + s.latency) < 3 * SLOT
  {
    FireSafe(s, e);
    var s' := Fire(s, e).value;
    assert s'.pending == StartSyncSlotWithoutPrelude || s'.pending == PreludeWSync;
  }

  /** A deep session that catches nothing leaves too little time for the next prelude exactly if it
      aims at a sync point later than two slots before the unit's own next one, and is not the last of
      its episode with a trolling session next to the sync slot set. */
  lemma DeepSessionNearSyncPointHalts(s: Agent, e: Env)
    requires Inv(s) && e.Legal() && s.pending == FishSlotEnd && s.fish.mode == DeepFishing
    ensures Fire(s, e) == Halted(PreludeUnderflow) <==>
            && s.period.start + s.fish.delta > s.period.end - 2 * SLOT
            && !(EpisodeOver(s.fish) && NearEnd(s.troll))
  {
  }

  /** A trolling session never does, wherever its session lies and whatever it catches. */
  lemma TrollingSessionNeverHalts(s: Agent, e: Env)
    requires Inv(s) && e.Legal() && s.pending == FishSlotEnd && s.session == Trolling
    ensures Fire(s, e).Ok?
  {
  }

  /** An invalid offset is sent only in the very slot in which a scatter completed, and then exactly if
      the random added time is more than the time from the sync point to the arrival of the message,
      which is half a slot if the sync slot started on time. */
  lemma InvalidOffsetOnlyAfterScatter(s: Agent, e: Env)
    requires Inv(s) && e.Legal() && s.pending == SendSync
    ensures Fire(s, e).Halted? ==> s.kind == SendControlSync(ControlScatterClique)
    ensures Fire(s, e) == Halted(InvalidOffset) <==>
            s.period.end - s.period.unadjustedEnd > s.due + s.latency - s.period.start
    ensures HALF_SLOT <= s.due + s.latency - s.period.start <= SLOT + s.latency
  {
  }

  /** Whatever a unit transmits without halting has a valid offset.  A sync names the sender's clique
      and, at its arrival, the sender's next sync point; a merge message names the better clique. */
  lemma TransmissionValid(s: Agent, e: Env)
    requires Inv(s) && e.Legal() && Fire(s, e).Ok? && Transmission(s, e).Some?
    ensures var msg := Transmission(s, e).value;
            && msg.ValidOffset()
            && (s.pending == SendSync ==>
                  && CarriesSync(msg.kind) && msg.master == s.clique.master
                  && EventTime(s.due + s.latency, msg.offset) == s.period.end)
            && (s.pending != SendSync ==>
                  && IsMerge(msg.kind) && msg.master == s.merge.superior
                  && EventTime(s.due, msg.offset) == s.period.unadjustedEnd)
  {
  }

  /** Hearing a message in the sync slot never ends the role Merger, though the source means a sync from
      another clique to end it: by the time it asks, it has already made that clique its own. */
  lemma SyncSlotNeverStopsMerger(s: Agent, msg: Message, toa: Time, random: nat)
    requires s.pending == EndSyncSlotListen && Hear(s, msg, toa, random).Ok?
    ensures Hear(s, msg, toa, random).value.merge == s.merge
    ensures IsSync(msg.kind) && SameOrBetter(s.clique, msg.master) ==>
              Hear(s, msg, toa, random).value.clique.master == msg.master
  {
  }

  /** On every run only a master sends the periodic sync of a master. */
  lemma OnlyMastersSendMasterSync(self: SystemID, latency: int, now: Time, r: Run, e: Env)
    requires IsLatency(latency) && IsRun(r) && r.states[0] == Booted(self, latency, now)
    requires Last(r).pending == SendSync && Last(r).kind == SendMasterSync
    ensures Transmission(Last(r), e).Some? && Transmission(Last(r), e).value.kind == MasterSync
    ensures Last(r).clique.master == self == Transmission(Last(r), e).value.master
  {
    BootedInv(self, latency, now);
    LastInv(r);
    RunKeepsSelf(r);
  }

  lemma {:induction false} RunKeepsSelf(r: Run)
    requires IsRun(r) && Inv(r.states[0])
    ensures Last(r).clique.self == r.states[0].clique.self
    decreases |r.events|
  {
    if r.events != [] {
      PrefixIsRun(r);
      RunKeepsSelf(Prefix(r));
      LastInv(Prefix(r));
      StepKeepsSelf(Last(Prefix(r)), r.events[|r.events| - 1]);
    }
  }

  lemma StepKeepsSelf(s: Agent, ev: Event)
    requires Inv(s) && Possible(s, ev) && Step(s, ev).Ok?
    ensures Step(s, ev).value.clique.self == s.clique.self
  {
    match ev
    case Fires(e) => FireFrame(s, e);
    case Hears(msg, toa, random) => HearKeepsSelf(s, msg, toa, random);
  }

  lemma HearKeepsSelf(s: Agent, msg: Message, toa: Time, random: nat)
    requires Hear(s, msg, toa, random).Ok?
    ensures Hear(s, msg, toa, random).value.clique.self == s.clique.self
  {
  }

  // ----- progress and spacing of sync points -----

  predicate IsRoll(s: Agent, ev: Event) {
    ev.Fires? && s.pending in {StartSyncPeriodMaintain, StartSyncSlotAfterPrelude, StartSyncSlotWithoutPrelude}
  }

  lemma FireTask(s: Agent, e: Env)
    requires Inv(s) && e.Legal() && Fire(s, e).Ok?
    ensures var s' := Fire(s, e).value;
            && (!IsRoll(s, Fires(e)) ==> TasksToRoll(s'.pending) < TasksToRoll(s.pending) && s'.period == s.period)
            && (IsRoll(s, Fires(e)) ==> s'.period.start == s.period.end)
            && s'.now == s.due
  {
    FireFrame(s, e);
    if IsRoll(s, Fires(e)) {
      FireRollFrame(s, e);
    }
  }

  lemma StepRoll(s: Agent, ev: Event)
    requires Inv(s) && Possible(s, ev) && Step(s, ev).Ok?
    ensures var s' := Step(s, ev).value;
            && s'.period.start == (if IsRoll(s, ev) then s.period.end else s.period.start)
            && TasksToRoll(s'.pending) + (if ev.Fires? then 1 else 0) <=
               TasksToRoll(s.pending) + (if IsRoll(s, ev) then 7 else 0)
  {
    match ev
    case Fires(e) => FireTask(s, e);
    case Hears(msg, toa, random) => HearKeepsTimer(s, msg, toa, random); HearKeepsStart(s, msg, toa, random);
  }

  /** On every run from start-up, a period begins on its sync point, unless the last session was deep
      fishing; then its sync slot starts at most one slot late. */
  lemma SyncSlotOnTime(self: SystemID, latency: int, now: Time, r: Run, e: Env)
    requires IsLatency(latency) && IsRun(r) && r.states[0] == Booted(self, latency, now)
    requires e.Legal() && IsRoll(Last(r), Fires(e)) && Fire(Last(r), e).Ok?
    ensures var s' := Fire(Last(r), e).value;
            s'.period.start <= s'.now <= s'.period.start + (if Last(r).session == Trolling then 0 else SLOT)
  {
    BootedInv(self, latency, now);
    LastInv(r);
    FireTask(Last(r), e);
  }

  function Rolls(r: Run): nat
    requires |r.states| == |r.events| + 1
    decreases |r.events|
  {
    if r.events == [] then 0
    else Rolls(Prefix(r)) + if IsRoll(Last(Prefix(r)), r.events[|r.events| - 1]) then 1 else 0
  }

  function Firings(r: Run): nat
    requires |r.states| == |r.events| + 1
    decreases |r.events|
  {
    if r.events == [] then 0
    else Firings(Prefix(r)) + if r.events[|r.events| - 1].Fires? then 1 else 0
  }

  lemma LastStepRoll(r: Run)
    requires IsRun(r) && Inv(r.states[0]) && r.events != []
    ensures IsRun(Prefix(r))
    ensures var s, ev := Last(Prefix(r)), r.events[|r.events| - 1];
            TasksToRoll(Last(r).pending) + (if ev.Fires? then 1 else 0) <=
            TasksToRoll(s.pending) + (if IsRoll(s, ev) then 7 else 0)
  {
    PrefixIsRun(r);
    LastInv(Prefix(r));
    StepRoll(Last(Prefix(r)), r.events[|r.events| - 1]);
  }

  /** Progress: at most seven tasks run between two rolls of the period, so that on every run that
      goes on, sync points keep coming. */
  lemma {:induction false} SyncPointsKeepComing(r: Run)
    requires IsRun(r) && Inv(r.states[0])
    ensures Firings(r) + TasksToRoll(Last(r).pending) <= 7 * Rolls(r) + TasksToRoll(r.states[0].pending)
    decreases |r.events|
  {
    if r.events != [] {
      LastStepRoll(r);
      SyncPointsKeepComing(Prefix(r));
    }
  }

  lemma HearKeepsStart(s: Agent, msg: Message, toa: Time, random: nat)
    requires Inv(s) && CanHear(s, msg, toa, random) && Hear(s, msg, toa, random).Ok?
    ensures Hear(s, msg, toa, random).value.period.start == s.period.start
  {
  }

  /** Spacing: after n rolls the sync point has moved by n to 2n normal periods, whatever was heard. */
  lemma {:induction false} SyncPointSpacing(r: Run)
    requires IsRun(r) && Inv(r.states[0]) && r.states[0].period.WellFormed()
    ensures Last(r).period.WellFormed()
    ensures var n := Rolls(r);
            r.states[0].period.start + n * PERIOD <= Last(r).period.start <= r.states[0].period.start + 2 * n * PERIOD
    decreases |r.events|
  {
    if r.events != [] {
      PrefixIsRun(r);
      LastInv(Prefix(r));
      SyncPointSpacing(Prefix(r));
      var s, ev := Last(Prefix(r)), r.events[|r.events| - 1];
      StepRoll(s, ev);
      StepKeepsWellFormed(s, ev);
    }
  }

  lemma StepKeepsWellFormed(s: Agent, ev: Event)
    requires Inv(s) && Possible(s, ev) && s.period.WellFormed() && Step(s, ev).Ok?
    ensures Step(s, ev).value.period.WellFormed()
  {
    StepSafe(s, ev);
    match ev
    case Fires(e) =>
      if IsRoll(s, ev) {
        FireRollFrame(s, e);
      } else {
        FireFrame(s, e);
      }
    case Hears(msg, toa, random) => HearKeepsTimer(s, msg, toa, random);
  }

  // ----- episodes -----

  /** A deep session ends without a catch. */
  predicate EndsDeepSession(s: Agent, ev: Event) {
    ev.Fires? && s.pending == FishSlotEnd && s.fish.mode == DeepFishing
  }

  function DeepSessions(r: Run): nat
    requires |r.states| == |r.events| + 1
    decreases |r.events|
  {
    if r.events == [] then 0
    else DeepSessions(Prefix(r)) + if EndsDeepSession(Last(Prefix(r)), r.events[|r.events| - 1]) then 1 else 0
  }

  /** How often the callback of deep fishing was run. */
  function Callbacks(r: Run): nat
    requires |r.states| == |r.events| + 1
    decreases |r.events|
  {
    if r.events == [] then 0
    else
      var s, ev := Last(Prefix(r)), r.events[|r.events| - 1];
      Callbacks(Prefix(r)) + if EndsDeepSession(s, ev) && EpisodeOver(s.fish) then 1 else 0
  }

  lemma DeepStep(s: Agent, ev: Event)
    requires Inv(s) && Possible(s, ev) && Step(s, ev).Ok?
    requires s.fish.mode == DeepFishing && Step(s, ev).value.fish.mode == DeepFishing
    ensures var s' := Step(s, ev).value;
            && s'.fish.delta == s.fish.delta && s'.fish.callback == s.fish.callback
            && s'.fish.count - (if InFishTask(s') then 1 else 0) ==
               s.fish.count - (if InFishTask(s) then 1 else 0) + (if EndsDeepSession(s, ev) then 1 else 0)
  {
    match ev
    case Fires(e) => FireFrame(s, e);
    case Hears(msg, toa, random) => HearKeepsDeep(s, msg, toa, random);
  }

  /** A message does not count as a session, and no further merge message changes the aim. */
  lemma HearKeepsDeep(s: Agent, msg: Message, toa: Time, random: nat)
    requires s.fish.mode == DeepFishing && Hear(s, msg, toa, random).Ok?
    ensures var s' := Hear(s, msg, toa, random).value;
            s'.pending == s.pending && (s'.fish == s.fish || s'.fish == SwitchedToTrolling(s.fish))
  {
  }

  /** The last session of an episode ends it. */
  lemma LastSessionEnds(s: Agent, ev: Event)
    requires EndsDeepSession(s, ev) && EpisodeOver(s.fish) && Step(s, ev).Ok?
    ensures Step(s, ev).value.fish == SwitchedToTrolling(s.fish)
  {
    var s2 := EndEpisode(s.(now := s.due, listening := false));
    NextSyncSlotFrame(s2, FishNearEnd(s2.fish, s2.troll));
  }

  /** Deep fishing has just been started by a merge message. */
  predicate EpisodeStarts(s: Agent) {
    s.fish.mode == DeepFishing && s.fish.count == 0 && !InFishTask(s)
  }

  /** What holds as long as an episode goes on: it keeps its aim and callback, and counts its sessions. */
  predicate EpisodeGoesOn(r: Run)
    requires |r.states| == |r.events| + 1
  {
    var s, f := Last(r), r.states[0].fish;
    && s.fish == f.(count := DeepSessions(r) + (if InFishTask(s) then 1 else 0))
    && Callbacks(r) == 0
  }

  lemma SessionsCounted(s: Agent, ev: Event, f: Fish, sessions: nat)
    requires Inv(s) && Possible(s, ev) && Step(s, ev).Ok? && Step(s, ev).value.fish.mode == DeepFishing
    requires s.fish.mode == DeepFishing && s.fish == f.(count := sessions + (if InFishTask(s) then 1 else 0))
    ensures var s' := Step(s, ev).value;
            s'.fish == f.(count := sessions + (if EndsDeepSession(s, ev) then 1 else 0) + (if InFishTask(s') then 1 else 0))
    ensures !(EndsDeepSession(s, ev) && EpisodeOver(s.fish))
  {
    DeepStep(s, ev);
    if EndsDeepSession(s, ev) && EpisodeOver(s.fish) {
      LastSessionEnds(s, ev);
    }
  }

  /** The last event of a run, counted as by `SessionsCounted`. */
  predicate LastCounted(r: Run)
    requires |r.states| == |r.events| + 1 && r.events != []
  {
    var s, ev := Last(Prefix(r)), r.events[|r.events| - 1];
    && Last(r).fish == r.states[0].fish.(count := DeepSessions(Prefix(r)) + (if EndsDeepSession(s, ev) then 1 else 0)
                                                  + (if InFishTask(Last(r)) then 1 else 0))
    && !(EndsDeepSession(s, ev) && EpisodeOver(s.fish))
  }

  lemma LastIsCounted(r: Run)
    requires IsRun(r) && Inv(r.states[0]) && r.events != []
    requires Last(Prefix(r)).fish.mode == Last(r).fish.mode == DeepFishing && EpisodeGoesOn(Prefix(r))
    ensures LastCounted(r)
  {
    PrefixIsRun(r);
    LastInv(Prefix(r));
    SessionsCounted(Last(Prefix(r)), r.events[|r.events| - 1], r.states[0].fish, DeepSessions(Prefix(r)));
  }

  lemma EpisodeStep(r: Run)
    requires |r.states| == |r.events| + 1 && r.events != [] && EpisodeGoesOn(Prefix(r)) && LastCounted(r)
    ensures EpisodeGoesOn(r)
  {
  }

  lemma {:induction false} DeepEpisodeGoesOn(r: Run)
    requires IsRun(r) && Inv(r.states[0]) && EpisodeStarts(r.states[0])
    requires forall k :: 0 <= k < |r.states| ==> r.states[k].fish.mode == DeepFishing
    ensures EpisodeGoesOn(r)
    decreases |r.events|
  {
    if r.events != [] {
      PrefixIsRun(r);
      DeepEpisodeGoesOn(Prefix(r));
      LastIsCounted(r);
      EpisodeStep(r);
    }
  }

  /** How deep fishing can end in one step: by the last session, or by a catch. */
  lemma DeepEnds(s: Agent, ev: Event)
    requires Inv(s) && Possible(s, ev) && Step(s, ev).Ok?
    requires s.fish.mode == DeepFishing && Step(s, ev).value.fish.mode == Trolling
    ensures var s' := Step(s, ev).value;
            match ev
            case Fires(_) =>
              && EndsDeepSession(s, ev) && EpisodeOver(s.fish)
              && s'.clique.master == if s.fish.callback == EndWithRecoverMaster then s.clique.self else s.clique.master
            case Hears(msg, _, _) =>
              s.pending == FishSlotEnd && IsSync(msg.kind) && Better(s.clique, msg.master) && s'.clique.master == msg.master
  {
    match ev
    case Fires(e) =>
      FireFrame(s, e);
      FireFishEndFrame(s, e);
    case Hears(msg, toa, random) =>
  }

  /** A deep-fishing episode, however long it is interrupted and however many further merge messages are
      heard: it goes back to trolling either by catching a better clique, after at most six sessions
      without a catch and without running its callback; or by the seventh session without a catch,
      which runs the callback it was started with, once. */
  lemma DeepEpisode(r: Run)
    requires IsRun(r) && Inv(r.states[0]) && EpisodeStarts(r.states[0]) && r.events != []
    requires forall k :: 0 <= k < |r.events| ==> r.states[k].fish.mode == DeepFishing
    requires Last(r).fish.mode == Trolling
    ensures var s, s' := Last(Prefix(r)), Last(r);
            match r.events[|r.events| - 1]
            case Fires(_) =>
              && DeepSessions(r) == DEEP_SESSIONS + 1 && Callbacks(r) == 1
              && s'.clique.master == if r.states[0].fish.callback == EndWithRecoverMaster then s.clique.self
                                     else s.clique.master
            case Hears(msg, _, _) =>
              && DeepSessions(r) <= DEEP_SESSIONS && Callbacks(r) == 0
              && Better(s.clique, msg.master) && s'.clique.master == msg.master
  {
    PrefixIsRun(r);
    DeepEpisodeGoesOn(Prefix(r));
    LastInv(Prefix(r));
    DeepEnds(Last(Prefix(r)), r.events[|r.events| - 1]);
  }

  /** The first merge message a trolling unit hears in a sync slot starts an episode, whatever the unit did
      before; only that of a departing master is to recover mastership. */
  lemma MergeMessageStartsEpisode(s: Agent, msg: Message, toa: Time, random: nat)
    requires Inv(s) && CanHear(s, msg, toa, random) && s.pending == EndSyncSlotListen
    requires IsMerge(msg.kind) && s.fish.mode == Trolling
    ensures Hear(s, msg, toa, random).Ok?
    ensures var s' := Hear(s, msg, toa, random).value;
            && Inv(s') && EpisodeStarts(s') && s'.clique == s.clique
            && s'.fish.callback == (if msg.kind == MergeMyMasterDepart then EndWithRecoverMaster else EndWithNoAction)
  {
    HearSafe(s, msg, toa, random);
  }

  /** The episode of a merge message, on every run from the state in which it was heard.  It ends by catching
      a better clique, or with the seventh session without a catch; in that case, and only once, a unit
      whose master departed becomes its own master, and any other keeps the master it has. */
  lemma EpisodeOfMergeMessage(s: Agent, msg: Message, toa: Time, random: nat, r: Run)
    requires Inv(s) && CanHear(s, msg, toa, random) && s.pending == EndSyncSlotListen
    requires IsMerge(msg.kind) && s.fish.mode == Trolling
    requires IsRun(r) && r.events != [] && Hear(s, msg, toa, random) == Ok(r.states[0])
    requires forall k :: 0 <= k < |r.events| ==> r.states[k].fish.mode == DeepFishing
    requires Last(r).fish.mode == Trolling
    ensures var before, after := Last(Prefix(r)).clique, Last(r).clique;
            match r.events[|r.events| - 1]
            case Fires(_) =>
              && DeepSessions(r) == 7 && Callbacks(r) == 1
              && after.master == if msg.kind == MergeMyMasterDepart then before.self else before.master
            case Hears(catch, _, _) =>
              && DeepSessions(r) <= 6 && Callbacks(r) == 0
              && catch.master < before.master && after.master == catch.master
  {
    MergeMessageStartsEpisode(s, msg, toa, random);
    DeepEpisode(r);
  }

  /** Merge syncs sent. */
  function MergeSends(r: Run): nat
    requires |r.states| == |r.events| + 1
    decreases |r.events|
  {
    if r.events == [] then 0
    else MergeSends(Prefix(r)) +
         if r.events[|r.events| - 1].Fires? && Last(Prefix(r)).pending == MergerStartAndEnd then 1 else 0
  }

  lemma MergeStep(s: Agent, ev: Event)
    requires Inv(s) && Possible(s, ev) && Step(s, ev).Ok?
    requires s.merge.role == Merger && Step(s, ev).value.merge.role == Merger
    ensures var s' := Step(s, ev).value;
            s'.merge == s.merge.(sent := s.merge.sent + if ev.Fires? && s.pending == MergerStartAndEnd then 1 else 0)
  {
    if ev.Fires? {
      FireFrame(s, ev.env);
    }
  }

  /** The merge sync sent is the last of its role. */
  predicate EndsMerge(s: Agent, ev: Event) {
    ev.Fires? && s.pending == MergerStartAndEnd && s.merge.sent == MERGE_SYNCS
  }

  function MergeEnds(r: Run): nat
    requires |r.states| == |r.events| + 1
    decreases |r.events|
  {
    if r.events == [] then 0
    else MergeEnds(Prefix(r)) + if EndsMerge(Last(Prefix(r)), r.events[|r.events| - 1]) then 1 else 0
  }

  lemma TaskKeepsCount(s: Agent, e: Env)
    requires Inv(s) && Fire(s, e).Ok?
    ensures Fire(s, e).value.merge.sent ==
            (if s.pending != MergerStartAndEnd then s.merge.sent
             else if s.merge.sent == MERGE_SYNCS then 0 else s.merge.sent + 1)
  {
    FireFrame(s, e);
  }

  lemma MessageKeepsCount(s: Agent, msg: Message, toa: Time, random: nat)
    requires Hear(s, msg, toa, random).Ok?
    ensures Hear(s, msg, toa, random).value.merge.sent == s.merge.sent
  {
  }

  /** Conservation of merge syncs, on every run, through any changes of role and losses of power: every
      seven of them sent end one role, and what is left over stands in the count, which no loss of power
      and no new role resets. */
  lemma {:induction false} MergeSyncsConserved(r: Run)
    requires IsRun(r) && Inv(r.states[0])
    ensures r.states[0].merge.sent + MergeSends(r) == (MERGE_SYNCS + 1) * MergeEnds(r) + Last(r).merge.sent
    ensures Last(r).merge.sent <= MERGE_SYNCS
    decreases |r.events|
  {
    LastInv(r);
    if r.events != [] {
      PrefixIsRun(r);
      MergeSyncsConserved(Prefix(r));
      LastInv(Prefix(r));
      match r.events[|r.events| - 1]
      case Fires(e) => TaskKeepsCount(Last(Prefix(r)), e);
      case Hears(msg, toa, random) => MessageKeepsCount(Last(Prefix(r)), msg, toa, random);
    }
  }

  /** A merger keeps its slot and what it says until it stops; it sends at most seven merge syncs, and
      the one that makes up the count ends the role. */
  lemma {:induction false} MergeEpisode(r: Run)
    requires IsRun(r) && Inv(r.states[0]) && forall k :: 0 <= k < |r.states| ==> r.states[k].merge.role == Merger
    ensures Last(r).merge == r.states[0].merge.(sent := r.states[0].merge.sent + MergeSends(r))
    ensures MergeSends(r) <= MERGE_SYNCS - r.states[0].merge.sent
    ensures Last(r).pending == MergerStartAndEnd ==>
              (SentOne(Last(r).merge).role == Fisher <==> MergeSends(r) == MERGE_SYNCS - r.states[0].merge.sent)
    decreases |r.events|
  {
    if r.events != [] {
      PrefixIsRun(r);
      MergeEpisode(Prefix(r));
      LastInv(Prefix(r));
      MergeStep(Last(Prefix(r)), r.events[|r.events| - 1]);
    }
    LastInv(r);
  }
}
