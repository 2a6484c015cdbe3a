/** Which faults really arise: for each, a run from start-up that ends in it. */
module Halts {
  import opened Parameters
  import opened Outcomes
  import opened Schedules
  import opened Messages
  import opened Cliques
  import opened Trolling
  import opened Merging
  import opened Fishing
  import opened TaskMachine
  import opened Runs

  ghost predicate FromStartUp(r: Run) {
    IsRun(r) && exists self, latency, now :: IsLatency(latency) && r.states[0] == Booted(self, latency, now)
  }

  ghost predicate HaltsWith(r: Run, ev: Event, fault: Fault) {
    FromStartUp(r) && Possible(Last(r), ev) && Step(Last(r), ev) == Halted(fault)
  }

  // ----- building runs -----

  lemma Then(r: Run, ev: Event) returns (r': Run)
    requires FromStartUp(r) && Possible(Last(r), ev) && Step(Last(r), ev).Ok?
    ensures FromStartUp(r') && Last(r') == Step(Last(r), ev).value
  {
    r' := Run(r.states + [Step(Last(r), ev).value], r.events + [ev]);
  }

  /** Power to sync and, if `fish`, to fish; nothing to send. */
  function Quiet(fish: bool): Env {
    Env(true, fish, fish, false, true, false, false, None, None)
  }

  /** As above, but without power for a fish slot or luck for a merge slot in this period. */
  const IDLE: Env := Env(true, true, false, false, false, false, false, None, None)

  const SCATTER: Env := Env(true, true, false, false, false, false, false, Some(ControlScatterClique), Some(100))

  function MasterSyncFrom(master: SystemID, offset: int): Message {
    Message(MasterSync, master, offset, 0)
  }

  /** Unit 7, in its `n`-th period after start-up, listens in its sync slot; so far it has heard nothing. */
  function Listener(mode: Mode, role: Role, troll: Troll, n: nat): Agent {
    var start := n * PERIOD;
    Agent(4, Founded(7), Period(start, start + PERIOD, start + PERIOD), troll, INITIAL_FISH,
          INITIAL_MERGE.(role := role), mode, false, Listen, true, true, 0, 0, FishingMode.Trolling,
          EndSyncSlotListen, start + SLOT, start)
  }

  lemma BootedRun() returns (r: Run)
    ensures FromStartUp(r) && Last(r) == Booted(7, 4, 0)
  {
    r := Run([Booted(7, 4, 0)], []);
    assert IsLatency(4);
  }

  /** The sync slot is about to begin, with power to fish. */
  lemma FirstPrelude(fish: bool) returns (r: Run)
    ensures FromStartUp(r)
    ensures Last(r) == Listener(if fish then SyncAndFishMerge else SyncOnly, if fish then Fisher else NoFishing, INITIAL_TROLL, 1)
                       .(period := Period(0, PERIOD, PERIOD), listening := false,
                         pending := StartSyncSlotAfterPrelude, due := PERIOD, now := PERIOD - SLOT)
  {
    r := BootedRun();
    r := Then(r, Fires(Quiet(fish)));
    r := Then(r, Fires(Quiet(fish)));
  }

  lemma FirstSyncSlot(fish: bool) returns (r: Run)
    ensures FromStartUp(r)
    ensures Last(r) == Listener(if fish then SyncAndFishMerge else SyncOnly, if fish then Fisher else NoFishing, INITIAL_TROLL, 1)
  {
    r := FirstPrelude(fish);
    r := Then(r, Fires(Quiet(fish)));
  }

  // ----- one run for each fault -----

  /** A scatter completes in the slot in which its last message is to be sent. */
  lemma InvalidOffsetArises() returns (r: Run, ev: Event)
    ensures HaltsWith(r, ev, InvalidOffset)
  {
    r := FirstPrelude(true);
    r := Then(r, Fires(SCATTER));
    ev := Fires(IDLE);
  }

  /** A unit joins a better clique, and then the scatter it was asked for as a master completes. */
  lemma ScatterBySlaveArises() returns (r: Run, ev: Event)
    ensures HaltsWith(r, ev, ScatterBySlave)
  {
    r := FirstSyncSlot(true);
    r := Then(r, Hears(MasterSyncFrom(3, 100), PERIOD + 10, 0));
    r := Then(r, Fires(IDLE));
    r := Then(r, Fires(IDLE));
    ev := Fires(SCATTER);
  }

  /** A unit joins a better clique in its sync slot and catches a still better one in the same period. */
  lemma ScheduleOverrunArises() returns (r: Run, ev: Event)
    ensures HaltsWith(r, ev, ScheduleOverrun)
  {
    r := FirstSyncSlot(true);
    r := Then(r, Hears(MasterSyncFrom(5, PERIOD - 100), PERIOD + 10, 0));
    r := Then(r, Fires(Quiet(true)));
    r := Then(r, Fires(Quiet(true)));
    ev := Hears(MasterSyncFrom(3, PERIOD - 100), PERIOD + 110, 0);
  }

  /** A merge message tells of a sync point just before the unit's own. */
  lemma PreludeUnderflowArises() returns (r: Run, ev: Event)
    ensures HaltsWith(r, ev, PreludeUnderflow)
  {
    r := FirstSyncSlot(true);
    r := Then(r, Hears(Message(MergeOther, 3, PERIOD - 30, 0), PERIOD + 10, 0));
    r := Then(r, Fires(Quiet(true)));
    r := Then(r, Fires(Quiet(true)));
    r := Then(r, Fires(Quiet(true)));
    ev := Fires(Quiet(true));
  }

  lemma SecondSyncSlot() returns (r: Run)
    ensures FromStartUp(r) && Last(r) == Listener(SyncAndFishMerge, Fisher, Proceeded(INITIAL_TROLL), 2)
  {
    r := FirstSyncSlot(true);
    r := Then(r, Fires(IDLE));
    r := Then(r, Fires(IDLE));
    r := Then(r, Fires(IDLE));
  }

  /** A trolling unit catches a worse clique in the last slot but one of its second period. */
  lemma CatchNearEnd() returns (r: Run)
    ensures FromStartUp(r)
    ensures var s := Last(r);
            && s.pending == FishSlotEnd && s.due == 3 * PERIOD - SLOT && s.prelude && !s.listening
            && s.mode == SyncAndFishMerge && s.fish == INITIAL_FISH && s.latency == 4
            && s.clique.IsSelfMaster() && s.period == Period(2 * PERIOD, 3 * PERIOD, 3 * PERIOD)
            && s.merge.role == Merger && s.merge.slotStart == PERIOD - 144 && s.merge.sent == 0 && NearEnd(s.troll)
  {
    r := SecondSyncSlot();
    r := Then(r, Fires(Quiet(true)));
    r := Then(r, Fires(Quiet(true)));
    r := Then(r, Fires(Quiet(true)));
    r := Then(r, Hears(MasterSyncFrom(9, 100), 3 * PERIOD - 80, 0));
  }

  /** Its merge slot then ends so near its sync point that the next sync slot starts without prelude. */
  lemma PreludeOffArises() returns (r: Run, ev: Event)
    ensures HaltsWith(r, ev, PreludeOff)
  {
    r := CatchNearEnd();
    r := Then(r, Fires(Quiet(true)));
    r := Then(r, Fires(Quiet(true)));
    r := Then(r, Fires(Quiet(true)));
    r := Then(r, Fires(Quiet(true)));
    ev := Fires(Quiet(true));
  }

  /** A unit without power to fish listens, at the start of its sync slot. */
  predicate Listening(s: Agent, c: Clique) {
    && s.pending == EndSyncSlotListen && s.listening && s.mode == SyncOnly && s.merge.role == NoFishing
    && s.clique == c && s.period.Unadjusted() && s.now == s.period.start && s.due == s.now + SLOT
    && s.fish.mode == Trolling
  }

  /** A period passes. */
  lemma NextSyncSlot(r: Run) returns (r': Run)
    requires FromStartUp(r) && Last(r).pending == EndSyncSlotListen && Last(r).mode == SyncOnly
    requires Last(r).period.Unadjusted() && Last(r).due == Last(r).period.start + SLOT && Last(r).fish.mode == Trolling
    requires Last(r).merge.role == NoFishing && !Last(r).clique.IsSelfMaster() && !DropsOut(Last(r).clique)
    ensures FromStartUp(r') && Listening(Last(r'), Last(r).clique.(missed := Last(r).clique.missed + 1))
  {
    r' := Then(r, Fires(Quiet(false)));
    r' := Then(r', Fires(Quiet(false)));
    r' := Then(r', Fires(Quiet(false)));
  }

  /** A better clique with the same sync point is heard. */
  lemma JoinsInSlot(r: Run, c: Clique, other: SystemID) returns (r': Run)
    requires FromStartUp(r) && Listening(Last(r), c) && other < c.master < c.self
    requires Joined(c, other).missed < MAX_MISSED_SYNCS
    ensures FromStartUp(r') && Listening(Last(r'), Joined(c, other).(missed := 1))
  {
    var start := Last(r).period.start;
    r' := Then(r, Hears(MasterSyncFrom(other, PERIOD - 10), start + 10, 0));
    r' := NextSyncSlot(r');
  }

  lemma {:induction false} Misses(r: Run, c: Clique, n: nat) returns (r': Run)
    requires FromStartUp(r) && Listening(Last(r), c) && !c.IsSelfMaster() && c.missed + n <= MAX_MISSED_SYNCS
    ensures FromStartUp(r') && Listening(Last(r'), c.(missed := c.missed + n))
  {
    if n == 0 {
      r' := r;
    } else {
      r' := Misses(r, c, n - 1);
      r' := NextSyncSlot(r');
    }
  }

  /** A unit joins one clique, then a better one, and hears nothing any more. */
  lemma HistoryReversionArises() returns (r: Run, ev: Event)
    ensures HaltsWith(r, ev, HistoryReversion)
  {
    r := FirstSyncSlot(false);
    r := Then(r, Hears(MasterSyncFrom(5, PERIOD - 10), PERIOD + 10, 0));
    r := NextSyncSlot(r);
    var c := Joined(Founded(7), 5).(missed := 1);
    r := JoinsInSlot(r, c, 3);
    r := Misses(r, Joined(c, 3).(missed := 1), MAX_MISSED_SYNCS - 1);
    ev := Fires(Quiet(false));
  }

  // ----- which faults arise -----

  lemma NonSyncTaskNeverUnderflows(s: Agent, e: Env)
    ensures ToNonSyncTask(s, e) != Halted(HistoryUnderflow)
  {
  }

  lemma StepNeverUnderflows(s: Agent, ev: Event)
    requires Inv(s)
    ensures Step(s, ev) != Halted(HistoryUnderflow)
  {
    if ev.Fires? && s.pending == EndSyncSlotSend {
      NonSyncTaskNeverUnderflows(s.(now := s.due), ev.env);
    } else if ev.Fires? && s.pending == EndSyncSlotListen {
      SlotEndNeverUnderflows(s, ev.env);
    }
  }

  lemma SlotEndNeverUnderflows(s: Agent, e: Env)
    requires Inv(s) && s.pending == EndSyncSlotListen
    ensures Fire(s, e) != Halted(HistoryUnderflow)
  {
    var s1 := s.(now := s.due, listening := false);
    if s.clique.IsSelfMaster() {
      NonSyncTaskNeverUnderflows(s1, e);
    } else {
      DropoutIsSafeFromFirstClique(s.clique);
      match DropoutChecked(s.clique)
      case Ok(c) =>
        var t := if DropsOut(s.clique) then Restarted(s.troll) else s.troll;
        NonSyncTaskNeverUnderflows(s1.(clique := c, troll := t), e);
      case Halted(_) =>
    }
  }

  lemma HistoryNeverUnderflows(r: Run, ev: Event)
    requires FromStartUp(r) && Possible(Last(r), ev)
    ensures Step(Last(r), ev) != Halted(HistoryUnderflow)
  {
    var self, latency, now :| IsLatency(latency) && r.states[0] == Booted(self, latency, now);
    BootedInv(self, latency, now);
    LastInv(r);
    StepNeverUnderflows(Last(r), ev);
  }

  /** Of all faults, exactly the underflow of the history arises on no run. */
  lemma FaultsThatArise(fault: Fault)
    ensures (exists r: Run, ev: Event :: HaltsWith(r, ev, fault)) <==> fault != HistoryUnderflow
  {
    match fault
    case ScheduleOverrun => var r, ev := ScheduleOverrunArises();
    case HistoryReversion => var r, ev := HistoryReversionArises();
    case PreludeOff => var r, ev := PreludeOffArises();
    case PreludeUnderflow => var r, ev := PreludeUnderflowArises();
    case InvalidOffset => var r, ev := InvalidOffsetArises();
    case ScatterBySlave => var r, ev := ScatterBySlaveArises();
    case HistoryUnderflow =>
      forall r: Run, ev: Event | FromStartUp(r) && Possible(Last(r), ev)
        ensures !HaltsWith(r, ev, HistoryUnderflow)
      {
        HistoryNeverUnderflows(r, ev);
      }
  }
}
