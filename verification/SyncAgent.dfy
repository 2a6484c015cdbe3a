/** The agent as the source runs it: namespaces with state become objects, tasks and message handlers
    become methods.  The asserts of the source that hold on every run are asserts here; those that can
    fail end the method with their fault.  Every method is tied to the task machine. */
module SyncAgents {
  import opened Parameters
  import opened Outcomes
  import opened Schedules
  import opened Messages
  import opened Cliques
  import opened Trolling
  import opened Merging
  import opened Fishing
  import opened TaskMachine

  class SyncAgent {
    const latency: int
    const schedule: Schedule
    const trolling: TrollingPolicy
    const clique: CliqueOfUnit
    const fishing: FishingManager
    const merger: MergerOfUnit

    var mode: Mode
    var isMaxFishing: bool
    var kind: SlotKind
    var isPreludeStarted: bool
    var isListening: bool
    var memoStart: Time
    var memoEnd: Time
    ghost var session: FishingMode
    // the task timer: one slot
    var task: Task
    var due: Time
    var isArmed: bool
    var now: Time

    /** The parts are those of one unit. */
    ghost predicate Wired() {
      && clique.schedule == schedule && clique.trolling == trolling && clique.records.Length == HISTORY_RECORDS
      && fishing.trolling == trolling && fishing.clique == clique
      && merger.clique == clique && merger.latency == latency
    }

    ghost function View(): Agent
      reads this, clique, clique.records, schedule, trolling, fishing, merger
    {
      Agent(latency, clique.View(), schedule.View(), trolling.View(), fishing.View(), merger.View(),
            mode, isMaxFishing, kind, isPreludeStarted, isListening, memoStart, memoEnd, session, task, due, now)
    }

    ghost predicate Valid()
      reads this, clique, clique.records, schedule, trolling, fishing, merger
    {
      Wired() && isArmed && Inv(View())
    }

    /** Start-up, from checking the power reserve to scheduling the first period. */
    constructor (self: SystemID, latency: int, now: Time)
      requires IsLatency(latency)
      ensures Valid() && View() == Booted(self, latency, now)
      ensures fresh(clique) && fresh(clique.records) && fresh(schedule) && fresh(trolling)
      ensures fresh(fishing) && fresh(merger)
    {
      var s := new Schedule(now);
      var t := new TrollingPolicy();
      var c := new CliqueOfUnit(self, s, t);
      var f := new FishingManager(t, c);
      var m := new MergerOfUnit(c, latency);
      this.latency := latency;
      schedule, trolling, clique, fishing, merger := s, t, c, f, m;
      mode, isMaxFishing, kind := Maintain, false, Listen;
      isPreludeStarted, isListening := false, false;
      memoStart, memoEnd, session := 0, 0, FishingMode.Trolling;
      this.now, due, isArmed, task := now, 0, false, StartSyncPeriodMaintain;
      new;
      schedule.SetEndOfSyncPeriodToNow(now);
      MaintainSyncPeriod();
      BootedInv(self, latency, now);
    }

    // ----- timer -----

    method ScheduleTask(newTask: Task, delay: nat)
      requires !isArmed
      modifies this
      ensures isArmed && View() == Scheduled(old(View()), newTask, delay)
    {
      task := newTask;
      due := now + delay;
      isArmed := true;
    }

    // ----- SyncSchedule -----

    method MaintainSyncPeriod()
      requires !isArmed
      modifies this
      ensures isArmed
      ensures View() == Scheduled(old(View()), StartSyncPeriodMaintain, ClampedSub(old(schedule.end), old(now)))
    {
      var delay := schedule.DeltaNowToNextSyncPoint(now);
      ScheduleTask(StartSyncPeriodMaintain, delay);
    }

    method RadioPreludeTaskWSync() returns (r: Outcome)
      requires !isArmed
      modifies this
      ensures match ToPreludeWSync(old(View()))
              case Ok(s) => r == Pass && isArmed && View() == s
              case Halted(f) => r == Halt(f)
    {
      var untilSyncPoint := schedule.DeltaNowToNextSyncPoint(now);
      if untilSyncPoint < SLOT {
        return Halt(PreludeUnderflow);
      }
      ScheduleTask(PreludeWSync, untilSyncPoint - SLOT);
      return Pass;
    }

    method SyncSlotAfterSyncSlot() returns (r: Outcome)
      requires !isArmed && !isPreludeStarted
      modifies this
      ensures match ToPreludeWSync(old(View()))
              case Ok(s) => r == Pass && isArmed && View() == s
              case Halted(f) => r == Halt(f)
    {
      assert !isPreludeStarted;
      r := RadioPreludeTaskWSync();
    }

    method OmitNonsyncSlot() returns (r: Outcome)
      requires !isArmed
      modifies this
      ensures match OmitNonSyncSlot(old(View()))
              case Ok(s) => r == Pass && isArmed && View() == s
              case Halted(f) => r == Halt(f)
    {
      isPreludeStarted := false;
      r := SyncSlotAfterSyncSlot();
    }

    /** After a fish or merge slot; `keep` is the decision not to undo the prelude. */
    method SyncSlotAfterNonsyncSlot(keep: bool) returns (r: Outcome)
      requires !isArmed
      modifies this
      ensures match ToNextSyncSlot(old(View()), keep)
              case Ok(s) => r == Pass && isArmed && View() == s
              case Halted(f) => r == Halt(f)
    {
      if !keep {
        isPreludeStarted := false;
        r := RadioPreludeTaskWSync();
      } else {
        var delay := schedule.DeltaNowToNextSyncPoint(now);
        ScheduleTask(StartSyncSlotWithoutPrelude, delay);
        r := Pass;
      }
    }

    // ----- power -----

    method CheckPowerAndTryModeTransitions(e: Env)
      requires Wired() && merger.View().Valid(latency)
      requires mode == SyncAndFishMerge <==> merger.role != NoFishing
      modifies this, merger
      ensures View() == ModeChecked(old(View()), e)
      ensures isArmed == old(isArmed)
    {
      match mode
      case Maintain =>
        if e.powerForSync {
          mode := SyncOnly;
        }
      case SyncOnly =>
        if !e.powerForSync {
          mode := Maintain;
        } else if e.powerForFishMode {
          mode := SyncAndFishMerge;
          merger.ToFisherFromNoFishing();
        }
      case SyncAndFishMerge =>
        if !e.powerForFishMode {
          mode := SyncOnly;
          merger.ToNoFishingFromOther();
        }
    }

    method ManageFishPower(e: Env)
      requires trolling.View().Valid()
      modifies this, trolling
      ensures View() == PowerManaged(old(View()), e)
      ensures isArmed == old(isArmed)
    {
      if e.vccHigh {
        if !isMaxFishing {
          trolling.IncrementFishSessionDuration(20);
          isMaxFishing := true;
        }
      } else {
        trolling.SetDurationToMinDuration();
        isMaxFishing := false;
      }
    }

    method BookkeepingAtPreludeToSyncSlot(e: Env)
      requires Wired() && Base(View())
      modifies this, merger, trolling
      ensures View() == PreludeBookkeeping(old(View()), e)
      ensures isArmed == old(isArmed)
    {
      CheckPowerAndTryModeTransitions(e);
      ManageFishPower(e);
    }

    method BookkeepingAtStartSyncSlot()
      requires !isListening
      modifies schedule
      ensures View() == old(View()).(period := Rolled(old(schedule.View())))
    {
      schedule.RollPeriodForward();
      assert !isListening;   // radio not in use after every sync period
    }

    // ----- sync slot -----

    method DispatchSyncSlotKind(e: Env) returns (r: Outcome)
      requires Wired() && e.Legal() && !isArmed && clique.Valid() && trolling.View().Valid()
      requires schedule.View().WellFormed()
      modifies this, clique, trolling, schedule
      ensures match ToSyncSlot(old(View()), e)
              case Ok(s) => r == Pass && isArmed && View() == s
              case Halted(f) => r == Halt(f)
    {
      r := Pass;
      if e.control.Some? {
        kind := SendControlSync(e.control.value);
      } else if e.workToSend {
        kind := SendWorkSync;
      } else if clique.master == clique.self && e.masterShouldSend {
        kind := SendMasterSync;
      } else {
        kind := Listen;
      }
      match kind
      case Listen =>
        isListening := true;
        ScheduleTask(EndSyncSlotListen, ClampedSub(schedule.start + SLOT, now));
      case SendControlSync(_) =>
        ScheduleTask(SendSync, ClampedSub(schedule.start + TransmitDelta(latency), now));
        if e.scatter.Some? {
          r := OnDoneScatter(e.scatter.value);
        }
      case SendWorkSync =>
        ScheduleTask(SendSync, ClampedSub(schedule.start + TransmitDelta(latency), now));
      case SendMasterSync =>
        ScheduleTask(SendSync, ClampedSub(schedule.start + TransmitDelta(latency), now));
    }

    method OnDoneScatter(random: nat) returns (r: Outcome)
      requires Wired() && clique.Valid() && trolling.View().Valid() && schedule.View().WellFormed() && random <= PERIOD
      modifies clique, trolling, schedule
      ensures r == if old(clique.View()).IsSelfMaster() then Pass else Halt(ScatterBySlave)
      ensures r == Pass ==> View() == Scattered(old(View()), random)
    {
      var isSelfMaster := clique.IsSelfMaster();
      if !isSelfMaster {
        return Halt(ScatterBySlave);
      }
      clique.ScatterSync(random);
      return Pass;
    }

    // ----- tasks -----

    method StartSyncPeriodMaintainTask(e: Env) returns (r: Outcome)
      requires Wired() && !isArmed && Base(View()) && !isPreludeStarted && !isListening
      modifies this, merger, trolling, schedule
      ensures var s2 := PreludeBookkeeping(old(View()), e).(period := Rolled(old(schedule.View())));
              match (if s2.mode == Maintain then
                       Ok(Scheduled(s2, StartSyncPeriodMaintain, ClampedSub(s2.period.end, s2.now)))
                     else ToPreludeWSync(s2))
              case Ok(s) => r == Pass && isArmed && View() == s
              case Halted(f) => r == Halt(f)
    {
      assert !isPreludeStarted;
      BookkeepingAtPreludeToSyncSlot(e);
      BookkeepingAtStartSyncSlot();
      match mode
      case Maintain =>
        MaintainSyncPeriod();
        r := Pass;
      case _ =>
        r := RadioPreludeTaskWSync();
    }

    method RadioPreludeTask(e: Env)
      requires Wired() && !isArmed && Base(View())
      modifies this, merger, trolling
      ensures isArmed
      ensures View() == PreludeBookkeeping(Scheduled(old(View()), StartSyncSlotAfterPrelude, SLOT).(prelude := true), e)
    {
      ScheduleTask(StartSyncSlotAfterPrelude, SLOT);
      isPreludeStarted := true;
      BookkeepingAtPreludeToSyncSlot(e);
    }

    method StartSyncSlotTask(e: Env) returns (r: Outcome)
      requires Wired() && e.Legal() && !isArmed && Base(View()) && !isListening
      modifies this, clique, trolling, schedule
      ensures match StartSyncSlot(old(View()), e)
              case Ok(s) => r == Pass && isArmed && View() == s
              case Halted(f) => r == Halt(f)
    {
      if !isPreludeStarted {
        return Halt(PreludeOff);
      }
      BookkeepingAtStartSyncSlot();
      match mode
      case Maintain =>
        MaintainSyncPeriod();
        isPreludeStarted := false;
        r := Pass;
      case _ =>
        r := DispatchSyncSlotKind(e);
    }

    /** The offset is computed just before the message goes out. */
    method SendSyncTask() returns (r: Outcome, msg: Message)
      requires Wired() && !isArmed && kind != Listen && clique.Valid()
      modifies this
      ensures SyncOffset(old(schedule.View()), old(now), latency) > PERIOD ==> r == Halt(InvalidOffset)
      ensures SyncOffset(old(schedule.View()), old(now), latency) <= PERIOD ==>
                && r == Pass && isArmed
                && View() == Scheduled(old(View()), EndSyncSlotSend, ClampedSub(old(schedule.start) + SLOT, old(now)))
                && msg.kind == (match kind
                                case SendWorkSync => WorkSync
                                case SendControlSync(control) => control
                                case _ => MasterSync)
                && msg == Message(msg.kind, clique.master, SyncOffset(schedule.View(), old(now), latency), 0)
    {
      var untilSyncPoint := schedule.DeltaNowToNextSyncPoint(now);
      var offset := ClampedSub(untilSyncPoint, latency);
      msg := Message(Invalid, clique.master, offset, 0);
      if offset > PERIOD {
        return Halt(InvalidOffset), msg;
      }
      match kind {
        case SendMasterSync => msg := msg.(kind := MasterSync);
        case SendWorkSync => msg := msg.(kind := WorkSync);
        case SendControlSync(control) => msg := msg.(kind := control);
        case Listen => assert false;
      }
      ScheduleTask(EndSyncSlotSend, ClampedSub(schedule.start + SLOT, now));
      r := Pass;
    }

    method EndSyncSlotListenTask(e: Env) returns (r: Outcome)
      requires Wired() && !isArmed && Base(View()) && mode != Maintain && isPreludeStarted
      requires schedule.View().WellFormed() && now == schedule.start + SLOT
      requires fishing.mode == DeepFishing ==> fishing.countFishings <= DEEP_SESSIONS
      modifies this, clique, clique.records, schedule, trolling, fishing
      ensures var s1 := old(View()).(listening := false);
              match (if s1.clique.IsSelfMaster() then ToNonSyncTask(s1, e)
                     else match DropoutChecked(s1.clique)
                          case Halted(f) => Halted(f)
                          case Ok(c) =>
                            ToNonSyncTask(s1.(clique := c, troll := if DropsOut(s1.clique) then Restarted(s1.troll)
                                                                   else s1.troll), e))
              case Ok(s) => r == Pass && isArmed && View() == s
              case Halted(f) => r == Halt(f)
    {
      isListening := false;
      var isSelfMaster := clique.IsSelfMaster();
      if !isSelfMaster {
        DropoutIsSafeFromFirstClique(clique.View());
        :- clique.CheckMasterDroppedOut(now);
      }
      r := ScheduleNonSyncTask(e);
    }

    method EndSyncSlotSendTask(e: Env) returns (r: Outcome)
      requires Wired() && !isArmed && BetweenSlots(View()) && mode != Maintain && isPreludeStarted
      requires now == schedule.start + SLOT
      modifies this, trolling, fishing
      ensures match ToNonSyncTask(old(View()), e)
              case Ok(s) => r == Pass && isArmed && View() == s
              case Halted(f) => r == Halt(f)
    {
      assert isPreludeStarted;
      r := ScheduleNonSyncTask(e);
    }

    method ScheduleNonSyncTask(e: Env) returns (r: Outcome)
      requires Wired() && !isArmed && BetweenSlots(View()) && mode != Maintain && isPreludeStarted
      requires now == schedule.start + SLOT
      modifies this, trolling, fishing
      ensures match ToNonSyncTask(old(View()), e)
              case Ok(s) => r == Pass && isArmed && View() == s
              case Halted(f) => r == Halt(f)
    {
      fishing.PreFishing();
      TryUndoAfterSyncing();
      match mode
      case SyncOnly =>
        r := SyncSlotAfterSyncSlot();
      case SyncAndFishMerge =>
        r := TryFishOrMerge(e);
    }

    method TryUndoAfterSyncing()
      requires Wired() && isPreludeStarted && mode != Maintain
      requires mode == SyncAndFishMerge ==> merger.role != NoFishing
      modifies this`isPreludeStarted
      ensures isPreludeStarted == !UndoAfterSyncing(old(View()))
    {
      assert isPreludeStarted;
      var undo := true;
      if mode == SyncAndFishMerge {
        match merger.role
        case Fisher =>
          var near := fishing.IsFishSlotStartSyncPeriod();
          undo := !near;
        case Merger =>
          undo := merger.slotStart >= THREE_SLOTS;
      }
      if undo {
        isPreludeStarted := false;
      }
    }

    method TryFishOrMerge(e: Env) returns (r: Outcome)
      requires Wired() && !isArmed && BetweenSlots(View()) && mode == SyncAndFishMerge
      requires now == schedule.start + SLOT
      modifies this, fishing
      ensures match FishOrMerge(old(View()), e)
              case Ok(s) => r == Pass && isArmed && View() == s
              case Halted(f) => r == Halt(f)
    {
      if merger.role == Merger && e.coin {
        assert schedule.start + merger.slotStart < schedule.end;
        ScheduleTask(MergerStartAndEnd, ClampedSub(schedule.start + merger.slotStart, now));
        r := Pass;
      } else if merger.role == Fisher && e.powerForFishSlot {
        SetStartAndEndTimes();
        r := StartFishing();
      } else {
        r := OmitNonsyncSlot();
      }
    }

    // ----- fishing and merging -----

    method SetStartAndEndTimes()
      requires Wired()
      modifies this`memoStart, this`memoEnd, this`session, fishing
      ensures var s := old(View());
              var start := Min(StartTimeToFish(s.fish, s.troll, s.period), s.period.end);
              View() == s.(fishStart := start, fishEnd := Min(start + SessionTicks(s.fish, s.troll), s.period.end),
                           fish := if s.fish.mode == DeepFishing then s.fish.(count := s.fish.count + 1) else s.fish,
                           session := s.fish.mode)
    {
      var start := fishing.GetStartTimeToFish();
      memoStart := schedule.ClampTimeBeforeLatestSlotMark(start);
      var ticks := FishSessionDurationTicks();
      memoEnd := schedule.ClampTimeBeforeLatestSlotMark(memoStart + ticks);
      session := fishing.mode;
    }

    method FishSessionDurationTicks() returns (ticks: int)
      requires Wired()
      ensures ticks == SessionTicks(fishing.View(), trolling.View())
    {
      match fishing.mode
      case Trolling => ticks := trolling.ticks;
      case DeepFishing => ticks := SLOT;
    }

    method StartFishing() returns (r: Outcome)
      requires !isArmed
      modifies this
      ensures var untilStart := ClampedSub(old(memoStart), old(now));
              match (if old(isPreludeStarted) then Ok(Scheduled(old(View()), FishSlotStart, untilStart))
                     else if untilStart < SLOT then Halted(PreludeUnderflow)
                     else Ok(Scheduled(old(View()), PreludeWFish, untilStart - SLOT)))
              case Ok(s) => r == Pass && isArmed && View() == s
              case Halted(f) => r == Halt(f)
    {
      var untilStart := ClampedSub(memoStart, now);
      if isPreludeStarted {
        ScheduleTask(FishSlotStart, untilStart);
      } else {
        if untilStart < SLOT {
          return Halt(PreludeUnderflow);
        }
        ScheduleTask(PreludeWFish, untilStart - SLOT);
      }
      r := Pass;
    }

    method FishSlotStartTask()
      requires Wired() && !isArmed && isPreludeStarted && trolling.View().Valid()
      modifies this
      ensures isArmed
      ensures View() == Scheduled(old(View()).(listening := true), FishSlotEnd,
                                  SessionTicks(old(fishing.View()), old(trolling.View())))
    {
      assert isPreludeStarted;
      var ticks := FishSessionDurationTicks();
      ScheduleTask(FishSlotEnd, ticks);
      isListening := true;
    }

    method FishSlotEndTask() returns (r: Outcome)
      requires Wired() && !isArmed && isPreludeStarted && Base(View())
      modifies this, fishing, clique
      ensures var s1 := old(View()).(listening := false);
              var s2 := if EpisodeOver(s1.fish) then EndEpisode(s1) else s1;
              match ToNextSyncSlot(s2, FishNearEnd(s2.fish, s2.troll))
              case Ok(s) => r == Pass && isArmed && View() == s
              case Halted(f) => r == Halt(f)
    {
      isListening := false;
      assert isPreludeStarted;
      var _ := fishing.CheckFishingDone();
      var keep := fishing.IsFishSlotEndSyncPeriod();
      r := SyncSlotAfterNonsyncSlot(keep);
    }

    method MergerTask() returns (r: Outcome, msg: Message)
      requires Wired() && !isArmed && Base(View()) && merger.role == Merger
      requires schedule.View().WellFormed() && schedule.start <= now
      modifies this, merger
      ensures msg == MergeMessage(old(merger.View()), old(schedule.View()), old(now))
      ensures var s1 := old(View()).(merge := SentOne(old(merger.View())));
              match ToNextSyncSlot(s1, MergeNearEnd(s1.merge, s1.latency))
              case Ok(s) => r == Pass && isArmed && View() == s
              case Halted(f) => r == Halt(f)
    {
      msg := merger.MakeMergeMsg(now);
      var done := merger.CheckCompletionOfMergerRole();
      if done {
        merger.StopMerger();
      }
      assert merger.View() == SentOne(old(merger.View()));
      var keep := ClampedSub(PERIOD, merger.slotStart + SendDuration(latency)) < THREE_SLOTS;
      r := SyncSlotAfterNonsyncSlot(keep);
    }

    /** The timer fires: the pending task runs to completion.  Unless it halts, it has scheduled exactly
        one successor, and the invariant holds again. */
    method Fire(e: Env) returns (r: Outcome, sent: Option<Message>)
      requires Valid() && e.Legal()
      modifies this, clique, clique.records, schedule, trolling, fishing, merger
      ensures match TaskMachine.Fire(old(View()), e)
              case Ok(s) => r == Pass && Valid() && View() == s && sent == Transmission(old(View()), e)
              case Halted(f) => r == Halt(f)
      ensures r.Halt? <==> Doomed(old(View()), e)
    {
      FireSafe(View(), e);
      BeginTask(e);
      if TasksToRoll(task) == 1 || task == PreludeWSync {
        r := RunStartTask(e);
        sent := None;
      } else if task in {SendSync, EndSyncSlotListen, EndSyncSlotSend} {
        r, sent := RunSyncSlotTask(e);
      } else {
        r, sent := RunNonSyncTask(e);
      }
    }

    /** The timer slot is free again, and it is now the time the task was due. */
    method BeginTask(ghost e: Env)
      requires Valid() && e.Legal()
      modifies this`isArmed, this`now
      ensures !isArmed && now == due && View() == old(View()).(now := due) && Inv(View())
      ensures TaskMachine.Fire(View(), e) == TaskMachine.Fire(old(View()), e)
      ensures Transmission(View(), e) == Transmission(old(View()), e)
      ensures task !in {SendSync, MergerStartAndEnd} ==> Transmission(old(View()), e) == None
    {
      FireAtDue(View(), e);
      InvAtDue(View());
      isArmed := false;
      now := due;
    }

    method RunStartTask(e: Env) returns (r: Outcome)
      requires Wired() && !isArmed && now == due && Inv(View()) && e.Legal()
      requires TasksToRoll(task) == 1 || task == PreludeWSync
      modifies this, clique, schedule, trolling, merger
      ensures match TaskMachine.Fire(old(View()), e)
              case Ok(s) => r == Pass && isArmed && View() == s
              case Halted(f) => r == Halt(f)
    {
      match task {
        case StartSyncPeriodMaintain => r := StartSyncPeriodMaintainTask(e);
        case PreludeWSync => RadioPreludeTask(e); r := Pass;
        case StartSyncSlotAfterPrelude => r := StartSyncSlotTask(e);
        case StartSyncSlotWithoutPrelude => r := StartSyncSlotTask(e);
      }
    }

    method RunSyncSlotTask(e: Env) returns (r: Outcome, sent: Option<Message>)
      requires Wired() && !isArmed && now == due && Inv(View()) && e.Legal()
      requires task in {SendSync, EndSyncSlotListen, EndSyncSlotSend}
      modifies this, clique, clique.records, schedule, trolling, fishing
      ensures match TaskMachine.Fire(old(View()), e)
              case Ok(s) => r == Pass && isArmed && View() == s && sent == Transmission(old(View()), e)
              case Halted(f) => r == Halt(f)
    {
      sent := None;
      match task {
        case SendSync =>
          var msg;
          r, msg := SendSyncTask();
          sent := Some(msg);
        case EndSyncSlotListen => r := EndSyncSlotListenTask(e);
        case EndSyncSlotSend => r := EndSyncSlotSendTask(e);
      }
    }

    method RunNonSyncTask(e: Env) returns (r: Outcome, sent: Option<Message>)
      requires Wired() && !isArmed && now == due && Inv(View()) && e.Legal()
      requires task in {PreludeWFish, FishSlotStart, FishSlotEnd, MergerStartAndEnd}
      modifies this, clique, fishing, merger
      ensures match TaskMachine.Fire(old(View()), e)
              case Ok(s) => r == Pass && isArmed && View() == s && sent == Transmission(old(View()), e)
              case Halted(f) => r == Halt(f)
    {
      sent := None;
      match task {
        case PreludeWFish =>
          ScheduleTask(FishSlotStart, SLOT);
          isPreludeStarted := true;
          r := Pass;
        case FishSlotStart => FishSlotStartTask(); r := Pass;
        case FishSlotEnd => r := FishSlotEndTask();
        case MergerStartAndEnd =>
          var msg;
          r, msg := MergerTask();
          sent := Some(msg);
      }
    }

    // ----- messages -----

    /** The radio received a message while a slot listens.  The timer is not touched. */
    method OnMsgReceived(msg: Message, toa: Time, random: nat) returns (r: Outcome)
      requires Valid() && CanHear(View(), msg, toa, random)
      modifies this, clique, clique.records, schedule, trolling, fishing, merger
      ensures match Hear(old(View()), msg, toa, random)
              case Ok(s) => r == Pass && Valid() && View() == s
              case Halted(f) => r == Halt(f)
      ensures r.Halt? <==> HearDoomed(old(View()), msg, toa)
      ensures task == old(task) && due == old(due) && isArmed
    {
      HearSafe(View(), msg, toa, random);
      now := toa;
      if task == EndSyncSlotListen {
        r := HandleInSyncSlot(msg, random);
      } else {
        r := HandleInFishSlot(msg);
      }
    }

    method HandleInSyncSlot(msg: Message, random: nat) returns (r: Outcome)
      requires Wired() && Base(View()) && schedule.View().WellFormed() && isListening && random <= PERIOD
      modifies this, clique, clique.records, schedule, trolling, fishing, merger
      ensures match HearInSyncSlot(old(View()), msg, random)
              case Ok(s) => r == Pass && View() == s && Wired()
              case Halted(f) => r == Halt(f)
      ensures task == old(task) && due == old(due) && isArmed == old(isArmed)
    {
      r := Pass;
      match msg.kind
      case MasterSync => r := HandleSyncInSyncSlot(msg);
      case WorkSync => r := HandleSyncInSyncSlot(msg);
      case MergeOther =>
        var delta := GetFishingDeltaFromMergeMsg(msg);
        fishing.SwitchToDeepFishing(delta, EndWithNoAction);
      case MergeMyMasterDepart =>
        var delta := GetFishingDeltaFromMergeMsg(msg);
        fishing.SwitchToDeepFishing(delta, EndWithRecoverMaster);
      case MergeMySlaveDepart =>
        var delta := GetFishingDeltaFromMergeMsg(msg);
        fishing.SwitchToDeepFishing(delta, EndWithNoAction);
      case AbandonMastership => clique.SetSelfMastership();
      case ControlScatterClique =>
        if msg.master == clique.master && clique.master != clique.self {
          clique.ScatterSync(random);
        }
      case _ =>
    }

    /** A sync that keeps this unit in sync also ends the listening. */
    method HandleSyncInSyncSlot(msg: Message) returns (r: Outcome)
      requires Wired() && Base(View()) && isListening && IsSync(msg.kind)
      modifies this`isListening, clique, clique.records, schedule, merger
      ensures match HearInSyncSlot(old(View()), msg, 0)
              case Ok(s) => r == Pass && View() == s
              case Halted(f) => r == Halt(f)
    {
      var keeps;
      keeps, r := FilterSyncMsg(msg);
      if r.Pass? && keeps {
        isListening := false;
      }
    }

    // ----- SyncBehaviour -----

    /** Returns whether the message keeps this unit in sync: only one of the same or a better clique does. */
    method FilterSyncMsg(msg: Message) returns (keeps: bool, r: Outcome)
      requires Wired() && Base(View()) && CarriesSync(msg.kind)
      modifies clique, clique.records, schedule, merger
      ensures keeps == SameOrBetter(old(clique.View()), msg.master)
      ensures !keeps ==> r == Pass && View() == old(View())
      ensures keeps ==>
                match TakenUp(old(View()), msg)
                case Ok(s) => r == Pass && View() == s.(clique := s.clique.(missed := 0))
                case Halted(f) => r == Halt(f)
    {
      keeps, r := false, Pass;
      if msg.master == clique.master {
        keeps := true;
        r := HandleSuperiorOrSameSyncMsg(msg);
        if r.Pass? {
          clique.HeardSync();
        }
      } else if msg.master < clique.master {
        keeps := true;
        r := HandleSuperiorOrSameSyncMsg(msg);
        if r.Pass? {
          clique.HeardSync();
        }
      }
    }

    method HandleSuperiorOrSameSyncMsg(msg: Message) returns (r: Outcome)
      requires Wired() && Base(View()) && SameOrBetter(clique.View(), msg.master) && CarriesSync(msg.kind)
      modifies clique, clique.records, schedule, merger
      ensures match TakenUp(old(View()), msg)
              case Ok(s) => r == Pass && View() == s && Base(View())
              case Halted(f) => r == Halt(f)
    {
      r := clique.UpdateBySyncMessage(msg, now);
      if r.Pass? && merger.role == Merger {
        HandleSuperiorOrSameSyncWhileMerging(msg);
      }
    }

    /** A sync from another clique is to stop the merger.  But the master was already updated, so that
        no message is from another clique. */
    method HandleSuperiorOrSameSyncWhileMerging(msg: Message)
      requires merger.role == Merger
      modifies merger
      ensures merger.View() == if msg.master == clique.master then old(merger.View())
                               else Stopped(old(merger.View()))
    {
      if msg.master != clique.master {
        merger.StopMerger();
      }
    }

    method GetFishingDeltaFromMergeMsg(msg: Message) returns (delta: int)
      requires Wired()
      ensures delta == FishingDelta(schedule.View(), msg.offset, now, now)
    {
      var timeOfSyncPoint := now + msg.offset;
      var deltaNowToSyncPoint := ClampedSub(timeOfSyncPoint, now);
      var deltaPastSyncPointToNow := ClampedSub(now, schedule.start);
      delta := deltaNowToSyncPoint + deltaPastSyncPointToNow;
    }

    method HandleInFishSlot(msg: Message) returns (r: Outcome)
      requires Wired() && Base(View()) && schedule.View().WellFormed() && isListening
      requires merger.role == Fisher
      requires fishing.mode == Trolling ==> schedule.start + SLOT <= now <= schedule.start + PERIOD
      modifies this, clique, clique.records, schedule, fishing, merger
      ensures match HearInFishSlot(old(View()), msg)
              case Ok(s) => r == Pass && View() == s && Wired()
              case Halted(f) => r == Halt(f)
      ensures task == old(task) && due == old(due) && isArmed == old(isArmed)
    {
      r := Pass;
      if msg.kind == MasterSync || msg.kind == WorkSync {
        match fishing.mode {
          case Trolling =>
            r := merger.ToMergerFromFisher(msg, now);
            isListening := false;
          case DeepFishing =>
            var caught;
            caught, r := HandleCatchFromDeepFishing(msg);
            if caught || msg.kind == WorkSync {
              isListening := false;
            }
        }
      } else if IsMerge(msg.kind) {
        isListening := false;
      }
    }

    /** Only a better clique is a catch; it aborts deep fishing. */
    method HandleCatchFromDeepFishing(msg: Message) returns (caught: bool, r: Outcome)
      requires Wired() && clique.Valid() && IsSync(msg.kind)
      modifies clique, clique.records, schedule, fishing
      ensures caught == Better(old(clique.View()), msg.master)
      ensures !caught ==> r == Pass && View() == old(View())
      ensures caught ==>
                match JoinedBySync(old(clique.View()), old(schedule.View()), msg, now)
                case Ok((c, p)) =>
                  r == Pass && View() == old(View()).(clique := c, period := p,
                                                      fish := SwitchedToTrolling(old(fishing.View())))
                case Halted(f) => r == Halt(f)
    {
      caught, r := msg.master < clique.master, Pass;
      if caught {
        r := clique.UpdateBySyncMessage(msg, now);
        if r.Pass? {
          fishing.SwitchToTrolling();
        }
      }
    }
  }
}
