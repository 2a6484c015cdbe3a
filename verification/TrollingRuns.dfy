/** Trolling coverage as a property of runs: a unit that has the power to fish and is left to it listens in
    every sleeping slot within a bounded number of sync periods. */
module TrollingRuns {
  import opened Parameters
  import opened Outcomes
  import opened Schedules
  import opened Messages
  import opened Cliques
  import opened Trolling
  import opened Merging
  import opened Fishing
  import opened TaskMachine
  import opened Runs

  /** The unit trolls, with sessions of a given length. */
  predicate IsTrolling(s: Agent, slots: int) {
    s.mode == SyncAndFishMerge && s.merge.role == Fisher && s.fish.mode == Trolling && s.troll.slots == slots
  }

  /** Nothing restarts the policy, and there is power for the fish slot. */
  predicate Undisturbed(s: Agent, ev: Event) {
    match ev
    case Fires(e) =>
      && e.scatter.None?
      && (s.pending in {EndSyncSlotListen, EndSyncSlotSend} ==> e.powerForFishSlot)
      && !(s.pending == EndSyncSlotListen && !s.clique.IsSelfMaster() && DropsOut(s.clique))
    case Hears(msg, _, _) => msg.kind != ControlScatterClique
  }

  ghost predicate IsTrollingRun(r: Run, slots: int) {
    && IsRun(r) && Inv(r.states[0])
    && (forall k :: 0 <= k < |r.states| ==> IsTrolling(r.states[k], slots))
    && forall k :: 0 <= k < |r.events| ==> Undisturbed(r.states[k], r.events[k])
  }

  lemma PrefixIsTrollingRun(r: Run, slots: int)
    requires IsTrollingRun(r, slots) && r.events != []
    ensures IsTrollingRun(Prefix(r), slots)
  {
    PrefixIsRun(r);
  }

  // ----- one step -----

  predicate IsAdvance(s: Agent, ev: Event) {
    ev.Fires? && s.pending in {EndSyncSlotListen, EndSyncSlotSend}
  }

  predicate IsSession(s: Agent, ev: Event) {
    ev.Fires? && s.pending == FishSlotStart
  }

  /** In this period the policy has still to advance; or it has, and the session is still to come. */
  predicate AdvanceDue(task: Task) {
    task in {SendSync, EndSyncSlotListen, EndSyncSlotSend}
  }

  predicate SessionDue(task: Task) {
    task in {PreludeWFish, FishSlotStart}
  }

  /** A listening session lies over its slots, from the start of the first to the end of the last. */
  predicate InSession(s: Agent) {
    && s.pending == FishSlotEnd && s.listening
    && s.now == s.period.start + SessionStart(s.troll) && s.due == s.period.start + SessionEnd(s.troll)
  }

  function One(b: bool): nat {
    if b then 1 else 0
  }

  lemma BookkeepingTroll(s: Agent, e: Env)
    requires s.troll.Valid() && PreludeBookkeeping(s, e).troll.slots == s.troll.slots
    ensures PreludeBookkeeping(s, e).troll == s.troll
  {
  }

  lemma AdvanceTask(s: Agent, e: Env, s': Agent, slots: int)
    requires Inv(s) && e.Legal() && Fire(s, e) == Ok(s') && IsAdvance(s, Fires(e)) && Undisturbed(s, Fires(e))
    requires IsTrolling(s, slots)
    ensures s'.troll == Proceeded(s.troll) && SessionDue(s'.pending)
  {
    if s.pending == EndSyncSlotListen && !s.clique.IsSelfMaster() {
      AdvanceFishes(s.(now := s.due, listening := false, clique := DropoutChecked(s.clique).value), e, slots);
    } else {
      AdvanceFishes(s.(now := s.due, listening := s.listening && s.pending != EndSyncSlotListen), e, slots);
    }
  }

  lemma AdvanceFishes(s: Agent, e: Env, slots: int)
    requires IsTrolling(s, slots) && e.powerForFishSlot && ToNonSyncTask(s, e).Ok?
    ensures ToNonSyncTask(s, e).value.troll == Proceeded(s.troll)
    ensures SessionDue(ToNonSyncTask(s, e).value.pending)
  {
  }

  /** What a task other than an advance does to the policy and to whose turn it is. */
  predicate KeepsTurn(s: Agent, e: Env, s': Agent) {
    && s'.troll == s.troll
    && (AdvanceDue(s'.pending) <==> IsRoll(s, Fires(e)) || AdvanceDue(s.pending))
    && (SessionDue(s'.pending) <==> s.pending == PreludeWFish)
    && (s.pending == FishSlotStart ==> InSession(s'))
  }

  lemma RollKeepsTurn(s: Agent, e: Env, s': Agent, slots: int)
    requires Inv(s) && Fire(s, e) == Ok(s') && TasksToRoll(s.pending) == 1 && e.scatter.None?
    requires IsTrolling(s, slots)
    ensures KeepsTurn(s, e, s')
  {
    SyncSlotFrame(s.(now := s.due, period := Rolled(s.period)), e);
  }

  lemma SimpleKeepsTurn(s: Agent, e: Env, s': Agent, slots: int)
    requires Inv(s) && Fire(s, e) == Ok(s') && s.pending in {PreludeWSync, SendSync, PreludeWFish}
    requires IsTrolling(s, slots) && IsTrolling(s', slots)
    ensures KeepsTurn(s, e, s')
  {
    FireSimpleFrame(s, e);
    if s.pending == PreludeWSync {
      BookkeepingTroll(Scheduled(s.(now := s.due), StartSyncSlotAfterPrelude, SLOT).(prelude := true), e);
    }
  }

  lemma SessionKeepsTurn(s: Agent, e: Env, s': Agent, slots: int)
    requires Inv(s) && e.Legal() && Fire(s, e) == Ok(s') && s.pending == FishSlotStart
    requires IsTrolling(s, slots)
    ensures KeepsTurn(s, e, s')
  {
    FishStartTaskSafe(s, e);
  }

  lemma SessionEndKeepsTurn(s: Agent, e: Env, s': Agent, slots: int)
    requires Fire(s, e) == Ok(s') && s.pending in {FishSlotEnd, MergerStartAndEnd} && IsTrolling(s, slots)
    ensures KeepsTurn(s, e, s')
  {
    if s.pending == FishSlotEnd {
      NextSyncSlotFrame(s.(now := s.due, listening := false), FishNearEnd(s.fish, s.troll));
    } else {
      FireMergerFrame(s, e);
    }
  }

  lemma OtherTask(s: Agent, e: Env, s': Agent, slots: int)
    requires Inv(s) && e.Legal() && Fire(s, e) == Ok(s') && !IsAdvance(s, Fires(e)) && e.scatter.None?
    requires IsTrolling(s, slots) && IsTrolling(s', slots)
    ensures KeepsTurn(s, e, s')
  {
    if TasksToRoll(s.pending) == 1 {
      RollKeepsTurn(s, e, s', slots);
    } else if s.pending == FishSlotStart {
      SessionKeepsTurn(s, e, s', slots);
    } else if s.pending in {FishSlotEnd, MergerStartAndEnd} {
      SessionEndKeepsTurn(s, e, s', slots);
    } else {
      SimpleKeepsTurn(s, e, s', slots);
    }
  }

  lemma HearTroll(s: Agent, msg: Message, toa: Time, random: nat)
    requires Hear(s, msg, toa, random).Ok? && msg.kind != ControlScatterClique
    ensures Hear(s, msg, toa, random).value.troll == s.troll
  {
  }

  /** The books of one step: rolls, advances and sessions follow each other in turn. */
  predicate InTurn(s: Agent, ev: Event, s': Agent) {
    && s'.troll == (if IsAdvance(s, ev) then Proceeded(s.troll) else s.troll)
    && One(IsRoll(s, ev)) + One(AdvanceDue(s.pending)) == One(IsAdvance(s, ev)) + One(AdvanceDue(s'.pending))
    && One(IsAdvance(s, ev)) + One(SessionDue(s.pending)) == One(IsSession(s, ev)) + One(SessionDue(s'.pending))
    && (IsSession(s, ev) ==> InSession(s'))
  }

  lemma StepInTurn(s: Agent, ev: Event, s': Agent, slots: int)
    requires Inv(s) && IsStep(s, ev, s') && Undisturbed(s, ev) && IsTrolling(s, slots) && IsTrolling(s', slots)
    ensures InTurn(s, ev, s')
  {
    match ev
    case Fires(e) =>
      if IsAdvance(s, ev) {
        AdvanceTask(s, e, s', slots);
        assert !AdvanceDue(s'.pending);
      } else {
        OtherTask(s, e, s', slots);
      }
    case Hears(msg, toa, random) =>
      HearTroll(s, msg, toa, random);
      HearKeepsTimer(s, msg, toa, random);
  }

  // ----- runs -----

  function Advances(r: Run): nat
    requires |r.states| == |r.events| + 1
    decreases |r.events|
  {
    if r.events == [] then 0 else Advances(Prefix(r)) + One(IsAdvance(Last(Prefix(r)), r.events[|r.events| - 1]))
  }

  function Sessions(r: Run): nat
    requires |r.states| == |r.events| + 1
    decreases |r.events|
  {
    if r.events == [] then 0 else Sessions(Prefix(r)) + One(IsSession(Last(Prefix(r)), r.events[|r.events| - 1]))
  }

  ghost predicate AllInTurn(r: Run) {
    && |r.states| == |r.events| + 1
    && forall k :: 0 <= k < |r.events| ==> InTurn(r.states[k], r.events[k], r.states[k + 1])
  }

  lemma {:induction false} TrollingRunInTurn(r: Run, slots: int)
    requires IsTrollingRun(r, slots)
    ensures AllInTurn(r)
    decreases |r.events|
  {
    if r.events != [] {
      PrefixIsTrollingRun(r, slots);
      TrollingRunInTurn(Prefix(r), slots);
      LastInTurn(r, slots);
      LastTurn(r);
    }
  }

  lemma LastTurn(r: Run)
    requires |r.states| == |r.events| + 1 && r.events != [] && AllInTurn(Prefix(r))
    requires InTurn(Last(Prefix(r)), r.events[|r.events| - 1], Last(r))
    ensures AllInTurn(r)
  {
    forall k | 0 <= k < |r.events|
      ensures InTurn(r.states[k], r.events[k], r.states[k + 1])
    {
      if k < |r.events| - 1 {
        assert InTurn(Prefix(r).states[k], Prefix(r).events[k], Prefix(r).states[k + 1]);
      }
    }
  }

  lemma LastInTurn(r: Run, slots: int)
    requires IsTrollingRun(r, slots) && r.events != []
    ensures InTurn(Last(Prefix(r)), r.events[|r.events| - 1], Last(r))
  {
    PrefixIsRun(r);
    LastInv(Prefix(r));
    assert Last(Prefix(r)) == r.states[|r.events| - 1];
    StepInTurn(Last(Prefix(r)), r.events[|r.events| - 1], Last(r), slots);
  }

  lemma PrefixInTurn(r: Run)
    requires AllInTurn(r) && r.events != []
    ensures AllInTurn(Prefix(r)) && Prefix(r).states[0] == r.states[0]
    ensures InTurn(Last(Prefix(r)), r.events[|r.events| - 1], Last(r))
  {
    forall k | 0 <= k < |Prefix(r).events|
      ensures InTurn(Prefix(r).states[k], Prefix(r).events[k], Prefix(r).states[k + 1])
    {
      assert InTurn(r.states[k], r.events[k], r.states[k + 1]);
    }
    assert InTurn(r.states[|r.events| - 1], r.events[|r.events| - 1], r.states[|r.events|]);
  }

  /** One advance and one session in every period. */
  predicate InStep(r: Run)
    requires |r.states| == |r.events| + 1
  {
    && Last(r).troll == Periods(r.states[0].troll, Advances(r))
    && Rolls(r) + One(AdvanceDue(r.states[0].pending)) == Advances(r) + One(AdvanceDue(Last(r).pending))
    && Advances(r) + One(SessionDue(r.states[0].pending)) == Sessions(r) + One(SessionDue(Last(r).pending))
  }

  lemma StaysInStep(r: Run)
    requires |r.states| == |r.events| + 1 && r.events != []
    requires InStep(Prefix(r)) && InTurn(Last(Prefix(r)), r.events[|r.events| - 1], Last(r))
    ensures InStep(r)
  {
    var t, n := r.states[0].troll, Advances(Prefix(r));
    assert Periods(t, n + 1) == Proceeded(Periods(t, n));
  }

  lemma {:induction false} SessionsKeepPace(r: Run)
    requires AllInTurn(r)
    ensures InStep(r)
    decreases |r.events|
  {
    if r.events != [] {
      PrefixInTurn(r);
      SessionsKeepPace(Prefix(r));
      StaysInStep(r);
    }
  }

  predicate IsNthSession(s: Agent, t: Troll, n: nat) {
    InSession(s) && s.troll == Periods(t, n)
  }

  /** A session that has just begun is as far in the policy's sequence as there were sessions. */
  lemma NewestSession(r: Run)
    requires |r.states| == |r.events| + 1 && r.events != [] && InStep(r)
    requires InTurn(Last(Prefix(r)), r.events[|r.events| - 1], Last(r)) && !SessionDue(r.states[0].pending)
    requires Sessions(r) != Sessions(Prefix(r))
    ensures Sessions(r) == Sessions(Prefix(r)) + 1 && IsNthSession(Last(r), r.states[0].troll, Sessions(r))
  {
    assert IsSession(Last(Prefix(r)), r.events[|r.events| - 1]);
    assert InSession(Last(r)) && !SessionDue(Last(r).pending);
    assert Advances(r) == Sessions(r);
  }

  /** The state in which the n-th session begins to listen. */
  lemma {:induction false} NthSession(r: Run, n: nat) returns (k: nat)
    requires AllInTurn(r) && !SessionDue(r.states[0].pending) && 1 <= n <= Sessions(r)
    ensures k < |r.states| && IsNthSession(r.states[k], r.states[0].troll, n)
    decreases |r.events|
  {
    PrefixInTurn(r);
    if n <= Sessions(Prefix(r)) {
      k := NthSession(Prefix(r), n);
    } else {
      k := |r.events|;
      SessionsKeepPace(r);
      NewestSession(r);
    }
  }

  /** Coverage on runs, after a restart of the policy: in as many sync periods as twice the sessions of a
      sweep, and one to get there, every sleeping slot lies within a session that the unit listened in. */
  lemma TrollingCoverageOnRuns(r: Run, slots: int, ordinal: int) returns (k: nat)
    requires IsTrollingRun(r, slots) && !SessionDue(r.states[0].pending)
    requires r.states[0].troll == Restarted(r.states[0].troll)
    requires Rolls(r) > 2 * Sweep(slots) && FIRST_FISH_SLOT <= ordinal <= LAST_FISH_SLOT
    ensures k < |r.states| && InSession(r.states[k]) && r.states[k].troll.Covers(ordinal)
  {
    TrollingRunInTurn(r, slots);
    SessionsKeepPace(r);
    var n := TrollingCoverage(r.states[0].troll, ordinal);
    k := NthSession(r, n);
  }

  /** The same wherever the policy stands, in twice as many periods. */
  lemma TrollingCoverageOnRunsFromAnywhere(r: Run, slots: int, ordinal: int) returns (k: nat)
    requires IsTrollingRun(r, slots) && !SessionDue(r.states[0].pending)
    requires Rolls(r) > 4 * Sweep(slots) && FIRST_FISH_SLOT <= ordinal <= LAST_FISH_SLOT
    ensures k < |r.states| && InSession(r.states[k]) && r.states[k].troll.Covers(ordinal)
  {
    TrollingRunInTurn(r, slots);
    SessionsKeepPace(r);
    var n := TrollingCoverageFromAnywhere(r.states[0].troll, ordinal);
    k := NthSession(r, n);
  }
}
