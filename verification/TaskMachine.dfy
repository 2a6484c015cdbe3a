/** The run-to-completion task machine of one unit, as a function on its whole state.
    One task is pending on the timer; while a slot listens, messages may also arrive.
    Times are exact: a task runs when it is due and takes no time. */
module TaskMachine {
  import opened Parameters
  import opened Outcomes
  import opened Schedules
  import opened Messages
  import opened Cliques
  import opened Trolling
  import opened Merging
  import opened Fishing

  datatype Task =
    | StartSyncPeriodMaintain
    | PreludeWSync | StartSyncSlotAfterPrelude | StartSyncSlotWithoutPrelude
    | SendSync | EndSyncSlotListen | EndSyncSlotSend
    | PreludeWFish | FishSlotStart | FishSlotEnd
    | MergerStartAndEnd

  /** SyncAndProvision does not exist in a build without SoftDevice. */
  datatype Mode = Maintain | SyncOnly | SyncAndFishMerge

  datatype SlotKind = Listen | SendMasterSync | SendWorkSync | SendControlSync(control: MessageType)

  datatype Agent = Agent(
    latency: int,
    clique: Clique, period: Period,
    troll: Troll, fish: Fish, merge: Merge,
    mode: Mode, maxFishing: bool,
    kind: SlotKind,
    prelude: bool, listening: bool,
    fishStart: Time, fishEnd: Time,
    session: FishingMode,            // mode of the current or last fishing session
    pending: Task, due: Time, now: Time)

  predicate IsControl(kind: MessageType) {
    kind in {MasterSync, ControlNetGranularity, ControlScatterClique}
  }

  /** Everything a task learns from outside: power levels, the coin, and what there is to send. */
  datatype Env = Env(
    powerForSync: bool, powerForFishMode: bool, powerForFishSlot: bool, vccHigh: bool, coin: bool,
    masterShouldSend: bool, workToSend: bool, control: Option<MessageType>, scatter: Option<nat>)
  {
    /** Control messages that carry sync; repeating one of them may just have completed a scatter. */
    predicate Legal() {
      && (control.Some? ==> IsControl(control.value))
      && (scatter.Some? ==> control == Some(ControlScatterClique) && scatter.value <= PERIOD)
    }
  }

  /** State after start-up: own master, lowest mode, and a first period that starts at once. */
  function Booted(self: SystemID, latency: int, now: Time): Agent {
    Agent(latency, Founded(self), Period(0, now, PERIOD), INITIAL_TROLL, INITIAL_FISH, INITIAL_MERGE,
          Maintain, false, Listen, false, false, 0, 0, Trolling, StartSyncPeriodMaintain, now, now)
  }

  function Scheduled(s: Agent, task: Task, delay: int): Agent {
    s.(pending := task, due := s.now + delay)
  }

  // ----- power -----

  /** Modes are left and entered one level at a time. */
  function ModeChecked(s: Agent, e: Env): Agent {
    match s.mode
    case Maintain => if e.powerForSync then s.(mode := SyncOnly) else s
    case SyncOnly =>
      if !e.powerForSync then s.(mode := Maintain)
      else if e.powerForFishMode then s.(mode := SyncAndFishMerge, merge := s.merge.(role := Fisher))
      else s
    case SyncAndFishMerge =>
      if !e.powerForFishMode then s.(mode := SyncOnly, merge := ToNoFishing(s.merge)) else s
  }

  function PowerManaged(s: Agent, e: Env): Agent {
    if !e.vccHigh then s.(troll := Shortened(s.troll), maxFishing := false)
    else if s.maxFishing then s
    else s.(troll := Lengthened(s.troll, 20), maxFishing := true)
  }

  function PreludeBookkeeping(s: Agent, e: Env): Agent {
    PowerManaged(ModeChecked(s, e), e)
  }

  // ----- which task comes next -----

  /** Sleep until the prelude to the next sync slot, which needs one slot. */
  function ToPreludeWSync(s: Agent): Result<Agent> {
    var untilSyncPoint := ClampedSub(s.period.end, s.now);
    if untilSyncPoint < SLOT then Halted(PreludeUnderflow)
    else Ok(Scheduled(s, PreludeWSync, untilSyncPoint - SLOT))
  }

  function OmitNonSyncSlot(s: Agent): Result<Agent> {
    ToPreludeWSync(s.(prelude := false))
  }

  /** After a fishing or merge slot: near the sync point the prelude is left on. */
  function ToNextSyncSlot(s: Agent, nearEnd: bool): Result<Agent> {
    if nearEnd then Ok(Scheduled(s, StartSyncSlotWithoutPrelude, ClampedSub(s.period.end, s.now)))
    else ToPreludeWSync(s.(prelude := false))
  }

  function ToFishing(s: Agent): Result<Agent> {
    var start := Min(StartTimeToFish(s.fish, s.troll, s.period), s.period.end);
    var end := Min(start + SessionTicks(s.fish, s.troll), s.period.end);
    var f := if s.fish.mode == DeepFishing then s.fish.(count := s.fish.count + 1) else s.fish;
    var s' := s.(fishStart := start, fishEnd := end, fish := f, session := f.mode);
    var untilStart := ClampedSub(start, s.now);
    if s.prelude then Ok(Scheduled(s', FishSlotStart, untilStart))
    else if untilStart < SLOT then Halted(PreludeUnderflow)
    else Ok(Scheduled(s', PreludeWFish, untilStart - SLOT))
  }

  /** Is the prelude switched off at the end of the sync slot? */
  predicate UndoAfterSyncing(s: Agent) {
    match s.mode
    case Maintain => true
    case SyncOnly => true
    case SyncAndFishMerge =>
      match s.merge.role
      case Fisher => !FishNearStart(s.fish, s.troll)
      case Merger => !MergeNearStart(s.merge)
      case NoFishing => true
  }

  /** At the end of the sync slot: the next trolling session, and the prelude as the coming slot needs it. */
  function Prepared(s: Agent): Agent {
    var s1 := if s.fish.mode == Trolling then s.(troll := Proceeded(s.troll)) else s;
    s1.(prelude := !UndoAfterSyncing(s1))
  }

  function FishOrMerge(s: Agent, e: Env): Result<Agent> {
    if s.merge.role == Merger && e.coin then
      Ok(Scheduled(s, MergerStartAndEnd, ClampedSub(s.period.start + s.merge.slotStart, s.now)))
    else if s.merge.role == Fisher && e.powerForFishSlot then ToFishing(s)
    else OmitNonSyncSlot(s)
  }

  function ToNonSyncTask(s: Agent, e: Env): Result<Agent> {
    var s' := Prepared(s);
    if s'.mode == SyncAndFishMerge then FishOrMerge(s', e) else ToPreludeWSync(s')
  }

  function DecideKind(s: Agent, e: Env): SlotKind {
    if e.control.Some? then SendControlSync(e.control.value)
    else if e.workToSend then SendWorkSync
    else if s.clique.IsSelfMaster() && e.masterShouldSend then SendMasterSync
    else Listen
  }

  /** A scatter: master again, at a random place in time, trolling from the start. */
  function Scattered(s: Agent, random: nat): Agent {
    s.(clique := SelfMastered(s.clique), troll := Restarted(s.troll),
       period := s.period.(end := s.period.start + PERIOD + random))
  }

  function ToSyncSlot(s: Agent, e: Env): Result<Agent> {
    var s1 := s.(kind := DecideKind(s, e));
    if s1.kind == Listen then
      Ok(Scheduled(s1.(listening := true), EndSyncSlotListen, ClampedSub(s1.period.start + SLOT, s1.now)))
    else
      var s2 := Scheduled(s1, SendSync, ClampedSub(s1.period.start + TransmitDelta(s1.latency), s1.now));
      if e.scatter.None? then Ok(s2)
      else if !s2.clique.IsSelfMaster() then Halted(ScatterBySlave)
      else Ok(Scattered(s2, e.scatter.value))
  }

  // ----- tasks -----

  /** Runs the pending task at the time it is due. */
  function Fire(state: Agent, e: Env): Result<Agent> {
    var s := state.(now := state.due);
    match s.pending
    case StartSyncPeriodMaintain =>
      var s1 := PreludeBookkeeping(s, e);
      var s2 := s1.(period := Rolled(s1.period));
      if s2.mode == Maintain then
        Ok(Scheduled(s2, StartSyncPeriodMaintain, ClampedSub(s2.period.end, s2.now)))
      else ToPreludeWSync(s2)
    case PreludeWSync =>
      var s1 := Scheduled(s, StartSyncSlotAfterPrelude, SLOT);
      Ok(PreludeBookkeeping(s1.(prelude := true), e))
    case StartSyncSlotAfterPrelude => StartSyncSlot(s, e)
    case StartSyncSlotWithoutPrelude => StartSyncSlot(s, e)
    case SendSync =>
      if SyncOffset(s.period, s.now, s.latency) > PERIOD then Halted(InvalidOffset)
      else Ok(Scheduled(s, EndSyncSlotSend, ClampedSub(s.period.start + SLOT, s.now)))
    case EndSyncSlotListen =>
      var s1 := s.(listening := false);
      if s1.clique.IsSelfMaster() then ToNonSyncTask(s1, e)
      else
        var c :- DropoutChecked(s1.clique);
        var t := if DropsOut(s1.clique) then Restarted(s1.troll) else s1.troll;
        ToNonSyncTask(s1.(clique := c, troll := t), e)
    case EndSyncSlotSend => ToNonSyncTask(s, e)
    case PreludeWFish => Ok(Scheduled(s.(prelude := true), FishSlotStart, SLOT))
    case FishSlotStart =>
      Ok(Scheduled(s.(listening := true), FishSlotEnd, SessionTicks(s.fish, s.troll)))
    case FishSlotEnd =>
      var s1 := s.(listening := false);
      var s2 := if EpisodeOver(s1.fish) then EndEpisode(s1) else s1;
      ToNextSyncSlot(s2, FishNearEnd(s2.fish, s2.troll))
    case MergerStartAndEnd =>
      var s1 := s.(merge := SentOne(s.merge));
      ToNextSyncSlot(s1, MergeNearEnd(s1.merge, s1.latency))
  }

  function StartSyncSlot(s: Agent, e: Env): Result<Agent> {
    if !s.prelude then Halted(PreludeOff)
    else
      var s1 := s.(period := Rolled(s.period));
      if s1.mode == Maintain then
        Ok(Scheduled(s1, StartSyncPeriodMaintain, ClampedSub(s1.period.end, s1.now)).(prelude := false))
      else ToSyncSlot(s1, e)
  }

  /** Deep fishing ended without a catch: run its callback and go back to trolling. */
  function EndEpisode(s: Agent): Agent {
    s.(fish := SwitchedToTrolling(s.fish),
       clique := if s.fish.callback == EndWithRecoverMaster then SelfMastered(s.clique) else s.clique)
  }

  /** The message a task transmits, if any. */
  function Transmission(state: Agent, e: Env): Option<Message> {
    var s := state.(now := state.due);
    match s.pending
    case SendSync =>
      var offset := SyncOffset(s.period, s.now, s.latency);
      (match s.kind
       case Listen => None
       case SendMasterSync => Some(Message(MasterSync, s.clique.master, offset, 0))
       case SendWorkSync => Some(Message(WorkSync, s.clique.master, offset, 0))
       case SendControlSync(control) => Some(Message(control, s.clique.master, offset, 0)))
    case MergerStartAndEnd => Some(MergeMessage(s.merge, s.period, s.now))
    case _ => None
  }

  // ----- messages -----

  /** A message received while a slot listens; `random` is used only by a scatter. */
  function Hear(state: Agent, msg: Message, toa: Time, random: nat): Result<Agent> {
    var s := state.(now := toa);
    if s.pending == EndSyncSlotListen then HearInSyncSlot(s, msg, random) else HearInFishSlot(s, msg)
  }

  /** Takes up a sync of the same or a better clique.  Only then is a merger asked whether the message
      came from another clique, which would stop it. */
  function TakenUp(s: Agent, msg: Message): Result<Agent> {
    var (c, p) :- JoinedBySync(s.clique, s.period, msg, s.now);
    var s1 := s.(clique := c, period := p);
    if s1.merge.role == Merger && msg.master != s1.clique.master then Ok(s1.(merge := Stopped(s1.merge)))
    else Ok(s1)
  }

  function HearInSyncSlot(s: Agent, msg: Message, random: nat): Result<Agent> {
    if IsSync(msg.kind) then
      if SameOrBetter(s.clique, msg.master) then
        var s1 :- TakenUp(s, msg);
        Ok(s1.(clique := s1.clique.(missed := 0), listening := false))
      else Ok(s)
    else if IsMerge(msg.kind) then
      var delta := FishingDelta(s.period, msg.offset, s.now, s.now);
      Ok(s.(fish := SwitchedToDeep(s.fish, delta, CallbackFor(msg.kind))))
    else if msg.kind == AbandonMastership then
      Ok(s.(clique := SelfMastered(s.clique)))
    else if msg.kind == ControlScatterClique && msg.master == s.clique.master && !s.clique.IsSelfMaster() then
      Ok(Scattered(s, random))
    else Ok(s)
  }

  function HearInFishSlot(s: Agent, msg: Message): Result<Agent> {
    if IsSync(msg.kind) && s.fish.mode == Trolling then
      var (m, c, p) :- Caught(s.merge, s.clique, s.period, msg, s.now, s.latency);
      Ok(s.(merge := m, clique := c, period := p, listening := false))
    else if IsSync(msg.kind) && Better(s.clique, msg.master) then
      var (c, p) :- JoinedBySync(s.clique, s.period, msg, s.now);
      Ok(s.(clique := c, period := p, fish := SwitchedToTrolling(s.fish), listening := false))
    else
      // a work sync stops the slot even if nothing was caught, and so does any merge message
      Ok(s.(listening := s.listening && msg.kind != WorkSync && !IsMerge(msg.kind)))
  }

  // ----- what every task relies on -----

  predicate InFishTask(s: Agent) {
    s.pending in {PreludeWFish, FishSlotStart, FishSlotEnd}
  }

  /** Start of a deep session: where the other sync point is, but after my sync slot and not after my
      next sync point. */
  function DeepStart(s: Agent): Time {
    Max(s.period.start + SLOT, Min(s.period.start + s.fish.delta, s.period.end))
  }

  /** What does not depend on the pending task. */
  predicate Base(s: Agent) {
    && IsLatency(s.latency)
    && s.clique.Valid() && s.troll.Valid() && s.fish.Valid() && s.merge.Valid(s.latency)
    && (s.mode == SyncAndFishMerge <==> s.merge.role != NoFishing)
  }

  predicate Common(s: Agent) {
    && Base(s)
    && (s.fish.mode == DeepFishing ==> s.fish.count <= DEEP_SESSIONS || InFishTask(s))
    && (s.listening ==> s.pending == EndSyncSlotListen || s.pending == FishSlotEnd)
    && s.now <= s.due
    && (s.pending != StartSyncPeriodMaintain ==> s.period.WellFormed() && s.period.start <= s.now)
  }

  /** The session about to start or running is the one that was planned. */
  predicate FishPlanned(s: Agent, start: Time) {
    && s.mode == SyncAndFishMerge && s.merge.role == Fisher && s.session == s.fish.mode
    && (s.session == Trolling ==> s.troll.Fresh() && start == s.period.start + SessionStart(s.troll))
    && (s.session == DeepFishing ==> s.fish.count >= 1 && start == DeepStart(s))
  }

  predicate AtTask(s: Agent) {
    match s.pending
    case StartSyncPeriodMaintain => s.mode == Maintain && !s.prelude && s.due == s.period.end
    case PreludeWSync => s.mode != Maintain && !s.prelude && s.due == s.period.end - SLOT
    case StartSyncSlotAfterPrelude => s.prelude && s.due == s.period.end
    case StartSyncSlotWithoutPrelude =>
      && s.mode == SyncAndFishMerge && s.period.end <= s.due <= s.period.end + SLOT
      && (s.session == Trolling || !s.prelude ==> s.due == s.period.end)
    case SendSync =>
      && s.mode != Maintain && s.prelude && s.kind != Listen
      && (s.kind.SendControlSync? ==> IsControl(s.kind.control))
      && (s.kind == SendMasterSync ==> s.clique.IsSelfMaster())
      && s.period.start + TransmitDelta(s.latency) <= s.due <= s.period.start + SLOT
      && (s.kind != SendControlSync(ControlScatterClique) ==> s.period.Unadjusted())
    case EndSyncSlotListen =>
      s.mode != Maintain && s.prelude && s.kind == Listen && s.due == s.period.start + SLOT
    case EndSyncSlotSend =>
      s.mode != Maintain && s.prelude && s.kind != Listen && s.due == s.period.start + SLOT
    case PreludeWFish =>
      !s.prelude && s.period.start + SLOT <= s.due && FishPlanned(s, s.due + SLOT)
    case FishSlotStart => s.prelude && FishPlanned(s, s.due)
    case FishSlotEnd =>
      && s.prelude && s.mode == SyncAndFishMerge
      && (s.listening ==> s.merge.role == Fisher && s.fish.mode == s.session)
      && s.period.start + SLOT <= s.now
      && (s.session == Trolling ==>
            && s.fish.mode == Trolling && s.troll.Fresh()
            && s.due == s.period.start + SessionEnd(s.troll))
      && (s.session == DeepFishing ==> s.merge.role == Fisher && s.due <= s.period.end + SLOT)
      && (s.fish.mode == DeepFishing ==> s.fish.count >= 1 && DeepStart(s) <= s.now && s.due == DeepStart(s) + SLOT)
    case MergerStartAndEnd =>
      && s.mode == SyncAndFishMerge && s.merge.role == Merger
      && (s.prelude <==> MergeNearStart(s.merge))
      && s.due == s.period.start + s.merge.slotStart
  }

  /** The prelude is off at the start of a sync slot only after a merge slot near the sync point. */
  predicate PreludeAccounted(s: Agent) {
    s.pending == StartSyncSlotWithoutPrelude && !s.prelude ==> MergeNearEnd(s.merge, s.latency)
  }

  predicate Inv(s: Agent) {
    Common(s) && AtTask(s) && PreludeAccounted(s)
  }

  lemma BootedInv(self: SystemID, latency: int, now: Time)
    requires IsLatency(latency)
    ensures Inv(Booted(self, latency, now))
  {
  }

  /** The exact cause of a halt when the pending task runs. */
  predicate Doomed(s: Agent, e: Env) {
    match s.pending
    case StartSyncSlotWithoutPrelude =>
      !s.prelude || ScatterBySlaveCompletes(s, e)
    case StartSyncSlotAfterPrelude => s.mode != Maintain && ScatterBySlaveCompletes(s, e)
    case SendSync => SyncOffset(s.period, s.due, s.latency) > PERIOD
    case EndSyncSlotListen => !s.clique.IsSelfMaster() && DropsOut(s.clique) && s.clique.index > 1
    case FishSlotEnd =>
      && s.period.end - s.due < SLOT
      && (if s.fish.mode == DeepFishing && s.fish.count <= DEEP_SESSIONS then s.fish.delta >= PERIOD - 3 * SLOT
          else s.troll.last < COUNT_SLOTS - 1)
    case _ => false
  }

  predicate ScatterBySlaveCompletes(s: Agent, e: Env) {
    e.scatter.Some? && !s.clique.IsSelfMaster()
  }

  /** Roles other than NoFishing occur exactly in the highest mode, the merger record is active
      exactly in the role Merger, and the mode moves by at most one level. */
  lemma ModeRoleCoupling(s: Agent, e: Env)
    requires Base(s)
    ensures var s' := ModeChecked(s, e);
            && Base(s')
            && !(s.mode == Maintain && s'.mode == SyncAndFishMerge)
            && !(s.mode == SyncAndFishMerge && s'.mode == Maintain)
            && (s'.merge.role == Merger ==> s'.merge == s.merge)
            && s' == s.(mode := s'.mode, merge := s'.merge)
  {
  }

  lemma BookkeepingKeeps(s: Agent, e: Env)
    requires Base(s)
    ensures var s' := PreludeBookkeeping(s, e);
            && Base(s')
            && (s.mode == Maintain ==> s'.mode != SyncAndFishMerge)
            && s' == s.(mode := s'.mode, merge := s'.merge, troll := s'.troll, maxFishing := s'.maxFishing)
  {
    ModeRoleCoupling(s, e);
    var s1 := ModeChecked(s, e);
    var s2 := PowerManaged(s1, e);
    assert s2.troll.Valid() && s2 == s1.(troll := s2.troll, maxFishing := s2.maxFishing);
  }

  /** Between slots: nothing listens and the sync slot is over. */
  predicate BetweenSlots(s: Agent) {
    && Base(s) && !s.listening && s.period.WellFormed() && s.period.start <= s.now
    && (s.fish.mode == DeepFishing ==> s.fish.count <= DEEP_SESSIONS)
  }

  lemma PreludeWSyncSafe(s: Agent)
    requires BetweenSlots(s) && s.mode != Maintain && !s.prelude
    ensures ToPreludeWSync(s).Halted? <==> s.period.end - s.now < SLOT
    ensures ToPreludeWSync(s).Ok? ==> Inv(ToPreludeWSync(s).value)
  {
  }

  /** A trolling session, or a deep session outside my sync slot, leaves time for its prelude. */
  lemma FishingSafe(s: Agent)
    requires BetweenSlots(s) && s.mode == SyncAndFishMerge && s.merge.role == Fisher
    requires s.now == s.period.start + SLOT
    requires s.fish.mode == Trolling ==> s.troll.Fresh()
    requires s.prelude <==> FishNearStart(s.fish, s.troll)
    ensures ToFishing(s).Ok? && Inv(ToFishing(s).value)
  {
    if s.fish.mode == Trolling {
      PreludeFits(s.troll);
    }
  }

  lemma PreparedSafe(s: Agent)
    requires BetweenSlots(s)
    ensures var s' := Prepared(s);
            && BetweenSlots(s') && s' == s.(troll := s'.troll, prelude := s'.prelude)
            && (s.fish.mode == Trolling ==> s'.troll.Fresh())
            && (s'.prelude <==> !UndoAfterSyncing(s'))
  {
  }

  lemma FishOrMergeSafe(s: Agent, e: Env)
    requires BetweenSlots(s) && s.mode == SyncAndFishMerge && s.now == s.period.start + SLOT
    requires s.fish.mode == Trolling ==> s.troll.Fresh()
    requires s.prelude <==> !UndoAfterSyncing(s)
    ensures FishOrMerge(s, e).Ok? && Inv(FishOrMerge(s, e).value)
  {
    if s.merge.role == Merger && e.coin {
    } else if s.merge.role == Fisher && e.powerForFishSlot {
      FishingSafe(s);
    } else {
      PreludeWSyncSafe(s.(prelude := false));
    }
  }

  /** At the end of the sync slot some task is always scheduled, with the prelude as it needs it. */
  lemma NonSyncTaskSafe(s: Agent, e: Env)
    requires BetweenSlots(s) && s.mode != Maintain && s.now == s.period.start + SLOT
    ensures ToNonSyncTask(s, e).Ok? && Inv(ToNonSyncTask(s, e).value)
  {
    PreparedSafe(s);
    if s.mode == SyncAndFishMerge {
      FishOrMergeSafe(Prepared(s), e);
    } else {
      PreludeWSyncSafe(Prepared(s));
    }
  }

  lemma SyncSlotSafe(s: Agent, e: Env)
    requires e.Legal() && BetweenSlots(s) && s.prelude
    requires s.mode != Maintain && s.period.Unadjusted() && s.now <= s.period.start + SLOT
    ensures ToSyncSlot(s, e).Halted? <==> ScatterBySlaveCompletes(s, e)
    ensures ToSyncSlot(s, e).Ok? ==> Inv(ToSyncSlot(s, e).value)
  {
  }

  lemma InvAtDue(s: Agent)
    requires Inv(s)
    ensures Inv(s.(now := s.due))
  {
  }

  /** Firing looks at the clock only through the due time. */
  lemma FireAtDue(s: Agent, e: Env)
    ensures var s' := s.(now := s.due);
            && Fire(s', e) == Fire(s, e)
            && Transmission(s', e) == Transmission(s, e)
            && (s.pending !in {SendSync, MergerStartAndEnd} ==> Transmission(s, e) == None)
  {
  }

  lemma MaintainTaskSafe(s: Agent, e: Env)
    requires Inv(s) && e.Legal() && s.pending == StartSyncPeriodMaintain
    ensures Fire(s, e).Ok? && Inv(Fire(s, e).value)
  {
    var s0 := s.(now := s.due);
    BookkeepingKeeps(s0, e);
    var s2 := PreludeBookkeeping(s0, e);
    var s3 := s2.(period := Rolled(s2.period));
    if s3.mode != Maintain {
      PreludeWSyncSafe(s3);
    }
  }

  lemma PreludeTaskSafe(s: Agent, e: Env)
    requires Inv(s) && e.Legal() && s.pending == PreludeWSync
    ensures Fire(s, e).Ok? && Inv(Fire(s, e).value)
  {
    BookkeepingKeeps(Scheduled(s.(now := s.due), StartSyncSlotAfterPrelude, SLOT).(prelude := true), e);
  }

  lemma StartTaskSafe(s: Agent, e: Env)
    requires Inv(s) && e.Legal()
    requires s.pending == StartSyncSlotAfterPrelude || s.pending == StartSyncSlotWithoutPrelude
    ensures Fire(s, e).Halted? <==> Doomed(s, e)
    ensures Fire(s, e).Ok? ==> Inv(Fire(s, e).value)
  {
    var s1 := s.(now := s.due, period := Rolled(s.period));
    if s.prelude && s.mode != Maintain {
      SyncSlotSafe(s1, e);
    }
  }

  lemma EndSyncSlotTaskSafe(s: Agent, e: Env)
    requires Inv(s) && e.Legal()
    requires s.pending == EndSyncSlotListen || s.pending == EndSyncSlotSend
    ensures Fire(s, e).Halted? <==> Doomed(s, e)
    ensures Fire(s, e).Ok? ==> Inv(Fire(s, e).value)
  {
    var s1 := s.(now := s.due, listening := false);
    if s.pending == EndSyncSlotSend || s.clique.IsSelfMaster() {
      assert s1 == s.(now := s.due) || s.pending == EndSyncSlotListen;
      NonSyncTaskSafe(s1, e);
    } else {
      DropoutIsSafeFromFirstClique(s.clique);
      var c := DropoutChecked(s.clique);
      if c.Ok? {
        var t := if DropsOut(s.clique) then Restarted(s.troll) else s.troll;
        assert BetweenSlots(s1.(clique := c.value, troll := t));
        NonSyncTaskSafe(s1.(clique := c.value, troll := t), e);
      }
    }
  }

  lemma FishStartTaskSafe(s: Agent, e: Env)
    requires Inv(s) && e.Legal() && (s.pending == PreludeWFish || s.pending == FishSlotStart)
    ensures Fire(s, e).Ok? && Inv(Fire(s, e).value)
  {
    if s.fish.mode == Trolling {
      PreludeFits(s.troll);
    }
  }

  lemma NextSyncSlotSafe(s: Agent, nearEnd: bool)
    requires BetweenSlots(s) && s.mode == SyncAndFishMerge
    requires s.now <= s.period.end + SLOT
    requires nearEnd && (s.session == Trolling || !s.prelude) ==> s.now <= s.period.end
    requires nearEnd && !s.prelude ==> MergeNearEnd(s.merge, s.latency)
    ensures ToNextSyncSlot(s, nearEnd).Halted? <==> !nearEnd && s.period.end - s.now < SLOT
    ensures ToNextSyncSlot(s, nearEnd).Ok? ==> Inv(ToNextSyncSlot(s, nearEnd).value)
  {
  }

  lemma FishEndTaskSafe(s: Agent, e: Env)
    requires Inv(s) && e.Legal() && s.pending == FishSlotEnd
    ensures Fire(s, e).Halted? <==> Doomed(s, e)
    ensures Fire(s, e).Ok? ==> Inv(Fire(s, e).value)
  {
    var s1 := s.(now := s.due, listening := false);
    var s2 := if EpisodeOver(s1.fish) then EndEpisode(s1) else s1;
    assert s2.troll == s.troll && s2.period == s.period && s2.session == s.session && s2.now == s.due;
    assert s.session == Trolling ==> s2.now <= s2.period.end;
    assert BetweenSlots(s2);
    NextSyncSlotSafe(s2, FishNearEnd(s2.fish, s2.troll));
  }

  lemma MergerTaskSafe(s: Agent, e: Env)
    requires Inv(s) && e.Legal() && s.pending == MergerStartAndEnd
    ensures Fire(s, e).Ok? && Inv(Fire(s, e).value)
  {
    var s1 := s.(now := s.due, merge := SentOne(s.merge));
    assert BetweenSlots(s1);
    NextSyncSlotSafe(s1, MergeNearEnd(s1.merge, s1.latency));
  }

  // ----- what the parts of a task leave alone -----

  lemma ToPreludeFrame(s: Agent)
    requires ToPreludeWSync(s).Ok?
    ensures ToPreludeWSync(s).value == s.(pending := PreludeWSync, due := s.period.end - SLOT)
    ensures s.now + SLOT <= s.period.end
  {
  }

  lemma BookkeepingFrame(s: Agent, e: Env)
    ensures var s' := PreludeBookkeeping(s, e);
            && s' == s.(mode := s'.mode, merge := s'.merge, troll := s'.troll, maxFishing := s'.maxFishing)
            && (s'.merge.role == Merger ==> s'.merge == s.merge) && s'.merge.sent == s.merge.sent
  {
    var s1 := ModeChecked(s, e);
    assert s1 == s.(mode := s1.mode, merge := s1.merge);
    var s2 := PowerManaged(s1, e);
    assert s2 == s1.(troll := s2.troll, maxFishing := s2.maxFishing);
  }

  lemma FishingFrame(s: Agent)
    requires ToFishing(s).Ok?
    ensures var s' := ToFishing(s).value;
            && s' == s.(fishStart := s'.fishStart, fishEnd := s'.fishEnd, fish := s'.fish, session := s.fish.mode,
                        pending := s'.pending, due := s'.due)
            && s'.fish == (if s.fish.mode == DeepFishing then s.fish.(count := s.fish.count + 1) else s.fish)
            && s'.pending in {PreludeWFish, FishSlotStart}
  {
  }

  lemma NonSyncTaskFrame(s: Agent, e: Env)
    requires ToNonSyncTask(s, e).Ok?
    ensures var s' := ToNonSyncTask(s, e).value;
            && s' == s.(troll := s'.troll, prelude := s'.prelude, fishStart := s'.fishStart, fishEnd := s'.fishEnd,
                        fish := s'.fish, session := s'.session, pending := s'.pending, due := s'.due)
            && s'.pending in {PreludeWSync, PreludeWFish, FishSlotStart, MergerStartAndEnd}
            && s'.fish == (if InFishTask(s') && s.fish.mode == DeepFishing then s.fish.(count := s.fish.count + 1)
                           else s.fish)
            && (s'.session == s.session || s'.session == s.fish.mode)
  {
    var s' := Prepared(s);
    assert s' == s.(troll := s'.troll, prelude := s'.prelude);
    if s'.mode != SyncAndFishMerge {
      ToPreludeFrame(s');
    } else if s'.merge.role == Merger && e.coin {
    } else if s'.merge.role == Fisher && e.powerForFishSlot {
      FishingFrame(s');
    } else {
      ToPreludeFrame(s'.(prelude := false));
    }
  }

  lemma SyncSlotFrame(s: Agent, e: Env)
    requires ToSyncSlot(s, e).Ok?
    ensures var s' := ToSyncSlot(s, e).value;
            && s' == s.(kind := s'.kind, listening := s'.listening, clique := s'.clique, troll := s'.troll,
                        period := s'.period, pending := s'.pending, due := s'.due)
            && s'.pending in {SendSync, EndSyncSlotListen}
            && s'.period.start == s.period.start
            && (e.scatter.None? ==> s'.period == s.period && s'.clique == s.clique)
            && s'.kind == DecideKind(s, e)
  {
  }

  lemma NextSyncSlotFrame(s: Agent, nearEnd: bool)
    requires ToNextSyncSlot(s, nearEnd).Ok?
    ensures var s' := ToNextSyncSlot(s, nearEnd).value;
            && s' == s.(prelude := s'.prelude, pending := s'.pending, due := s'.due)
            && s'.prelude == (nearEnd && s.prelude)
            && s'.pending == (if nearEnd then StartSyncSlotWithoutPrelude else PreludeWSync)
  {
  }

  /** What firing a task leaves alone. */
  predicate FireLeaves(s: Agent, s': Agent) {
    && s'.now == s.due && s'.latency == s.latency && s'.clique.self == s.clique.self
    && (s.pending in {StartSyncPeriodMaintain, StartSyncSlotAfterPrelude, StartSyncSlotWithoutPrelude} ||
        (s'.period == s.period))
    && s'.fish.delta == s.fish.delta && s'.fish.callback == s.fish.callback
    && (s'.fish.mode == s.fish.mode || s.pending == FishSlotEnd)
    && s'.fish.count == s.fish.count + (if s.fish.mode == DeepFishing && InFishTask(s') && !InFishTask(s) then 1 else 0)
    && (s'.session == s.session || s'.session == s.fish.mode)
    && s'.merge.sent == (if s.pending == MergerStartAndEnd then SentOne(s.merge).sent else s.merge.sent)
    && (s'.merge.role == Merger ==>
          s'.merge == s.merge.(sent := s.merge.sent + if s.pending == MergerStartAndEnd then 1 else 0))
  }

  /** Tasks left, at most, up to and including the next roll of the period. */
  function TasksToRoll(task: Task): (n: nat)
    ensures 1 <= n <= 7
  {
    match task
    case StartSyncPeriodMaintain => 1
    case StartSyncSlotAfterPrelude => 1
    case StartSyncSlotWithoutPrelude => 1
    case PreludeWSync => 2
    case FishSlotEnd => 3
    case MergerStartAndEnd => 3
    case FishSlotStart => 4
    case PreludeWFish => 5
    case EndSyncSlotListen => 6
    case EndSyncSlotSend => 6
    case SendSync => 7
  }

  lemma FireRollFrame(s: Agent, e: Env)
    requires Fire(s, e).Ok? && TasksToRoll(s.pending) == 1
    ensures FireLeaves(s, Fire(s, e).value)
    ensures Fire(s, e).value.period.start == s.period.end
    ensures Fire(s, e).value.pending in {StartSyncPeriodMaintain, PreludeWSync, SendSync, EndSyncSlotListen}
    ensures e.scatter.None? || Fire(s, e).value.pending !in {SendSync, EndSyncSlotListen} ==>
              Fire(s, e).value.period == Rolled(s.period) && Fire(s, e).value.clique == s.clique
  {
    var s0 := s.(now := s.due);
    if s.pending == StartSyncPeriodMaintain {
      BookkeepingFrame(s0, e);
      var s1 := PreludeBookkeeping(s0, e);
      if s1.mode != Maintain {
        ToPreludeFrame(s1.(period := Rolled(s1.period)));
      }
    } else if s.mode != Maintain {
      SyncSlotFrame(s0.(period := Rolled(s.period)), e);
    }
  }

  lemma FireFishEndFrame(s: Agent, e: Env)
    requires Fire(s, e).Ok? && s.pending == FishSlotEnd
    ensures FireLeaves(s, Fire(s, e).value)
    ensures Fire(s, e).value.clique == if EpisodeOver(s.fish) then EndEpisode(s).clique else s.clique
    ensures Fire(s, e).value.pending in {StartSyncSlotWithoutPrelude, PreludeWSync}
    ensures Fire(s, e).value.pending == StartSyncSlotWithoutPrelude ==> Fire(s, e).value.prelude == s.prelude
  {
    var s1 := s.(now := s.due, listening := false);
    var s2 := if EpisodeOver(s1.fish) then EndEpisode(s1) else s1;
    NextSyncSlotFrame(s2, FishNearEnd(s2.fish, s2.troll));
  }

  lemma FireMergerFrame(s: Agent, e: Env)
    requires Fire(s, e).Ok? && s.pending == MergerStartAndEnd
    ensures FireLeaves(s, Fire(s, e).value)
    ensures Fire(s, e).value.clique == s.clique
    ensures Fire(s, e).value.pending ==
            if MergeNearEnd(s.merge, s.latency) then StartSyncSlotWithoutPrelude else PreludeWSync
  {
    var s1 := s.(now := s.due, merge := SentOne(s.merge));
    NextSyncSlotFrame(s1, MergeNearEnd(s1.merge, s1.latency));
  }

  lemma FireSimpleFrame(s: Agent, e: Env)
    requires Fire(s, e).Ok?
    requires s.pending in {PreludeWSync, SendSync, PreludeWFish, FishSlotStart}
    ensures FireLeaves(s, Fire(s, e).value)
    ensures Fire(s, e).value.clique == s.clique
    ensures Fire(s, e).value.pending ==
            (match s.pending case PreludeWSync => StartSyncSlotAfterPrelude case SendSync => EndSyncSlotSend
             case PreludeWFish => FishSlotStart case _ => FishSlotEnd)
  {
    if s.pending == PreludeWSync {
      BookkeepingFrame(Scheduled(s.(now := s.due), StartSyncSlotAfterPrelude, SLOT).(prelude := true), e);
    }
  }

  lemma EndSyncSlotLeaves(s: Agent, s1: Agent, e: Env)
    requires s.pending in {EndSyncSlotListen, EndSyncSlotSend} && ToNonSyncTask(s1, e).Ok?
    requires s1 == s.(now := s.due, listening := s1.listening, clique := s1.clique, troll := s1.troll)
    requires s1.clique.self == s.clique.self
    ensures var s' := ToNonSyncTask(s1, e).value;
            && FireLeaves(s, s') && s'.clique == s1.clique
            && s'.pending in {PreludeWSync, PreludeWFish, FishSlotStart, MergerStartAndEnd}
  {
    NonSyncTaskFrame(s1, e);
  }

  lemma FireEndSyncSlotFrame(s: Agent, e: Env)
    requires Fire(s, e).Ok?
    requires s.pending in {EndSyncSlotListen, EndSyncSlotSend}
    ensures FireLeaves(s, Fire(s, e).value)
    ensures Fire(s, e).value.pending in {PreludeWSync, PreludeWFish, FishSlotStart, MergerStartAndEnd}
    ensures !(s.pending == EndSyncSlotListen && !s.clique.IsSelfMaster()) ==> Fire(s, e).value.clique == s.clique
    ensures s.pending == EndSyncSlotListen && !s.clique.IsSelfMaster() ==>
              DropoutChecked(s.clique) == Ok(Fire(s, e).value.clique)
  {
    var s0 := s.(now := s.due);
    if s.pending == EndSyncSlotSend {
      EndSyncSlotLeaves(s, s0, e);
    } else if s.clique.IsSelfMaster() {
      EndSyncSlotLeaves(s, s0.(listening := false), e);
    } else {
      var c := DropoutChecked(s.clique).value;
      var t := if DropsOut(s.clique) then Restarted(s.troll) else s.troll;
      EndSyncSlotLeaves(s, s0.(listening := false, clique := c, troll := t), e);
    }
  }

  lemma FireFrame(s: Agent, e: Env)
    requires Fire(s, e).Ok?
    ensures FireLeaves(s, Fire(s, e).value)
    ensures TasksToRoll(s.pending) == 1 || TasksToRoll(Fire(s, e).value.pending) < TasksToRoll(s.pending)
  {
    if TasksToRoll(s.pending) == 1 {
      FireRollFrame(s, e);
    } else if s.pending in {EndSyncSlotListen, EndSyncSlotSend} {
      FireEndSyncSlotFrame(s, e);
    } else if s.pending == FishSlotEnd {
      FireFishEndFrame(s, e);
    } else if s.pending == MergerStartAndEnd {
      FireMergerFrame(s, e);
    } else {
      FireSimpleFrame(s, e);
    }
  }

  /** Safety of one task: it schedules a successor and keeps the invariant, or it halts for the
      cause named by `Doomed`, and for no other. */
  lemma FireSafe(s: Agent, e: Env)
    requires Inv(s) && e.Legal()
    ensures Fire(s, e).Halted? <==> Doomed(s, e)
    ensures Fire(s, e).Ok? ==> Inv(Fire(s, e).value)
  {
    match s.pending
    case StartSyncPeriodMaintain => MaintainTaskSafe(s, e);
    case PreludeWSync => PreludeTaskSafe(s, e);
    case StartSyncSlotAfterPrelude => StartTaskSafe(s, e);
    case StartSyncSlotWithoutPrelude => StartTaskSafe(s, e);
    case SendSync =>
    case EndSyncSlotListen => EndSyncSlotTaskSafe(s, e);
    case EndSyncSlotSend => EndSyncSlotTaskSafe(s, e);
    case PreludeWFish => FishStartTaskSafe(s, e);
    case FishSlotStart => FishStartTaskSafe(s, e);
    case FishSlotEnd => FishEndTaskSafe(s, e);
    case MergerStartAndEnd => MergerTaskSafe(s, e);
  }

  /** A message can arrive from now until the slot ends; its offset is valid, as sent. */
  predicate CanHear(s: Agent, msg: Message, toa: Time, random: nat) {
    s.listening && s.now <= toa <= s.due && msg.ValidOffset() && random <= PERIOD
  }

  /** Hearing this message makes the unit take over another unit's sync point. */
  predicate Adopts(s: Agent, msg: Message) {
    && IsSync(msg.kind)
    && (if s.pending == EndSyncSlotListen then SameOrBetter(s.clique, msg.master) else Better(s.clique, msg.master))
  }

  /** The exact cause of a halt on hearing a message: the sync point heard of lies strictly between the
      normal and the extended end of this period, or after the end of any acceptable period. */
  predicate HearDoomed(s: Agent, msg: Message, toa: Time) {
    var event := EventTime(toa, msg.offset);
    Adopts(s, msg) && (s.period.start + PERIOD < event < s.period.end || s.period.start + 2 * PERIOD < event)
  }

  lemma SyncInSyncSlotSafe(s: Agent, msg: Message, toa: Time, random: nat)
    requires Inv(s) && CanHear(s, msg, toa, random) && s.pending == EndSyncSlotListen
    requires IsSync(msg.kind)
    ensures Hear(s, msg, toa, random).Halted? <==> HearDoomed(s, msg, toa)
    ensures Hear(s, msg, toa, random).Ok? ==> Inv(Hear(s, msg, toa, random).value)
  {
  }

  lemma OtherInSyncSlotSafe(s: Agent, msg: Message, toa: Time, random: nat)
    requires Inv(s) && CanHear(s, msg, toa, random) && s.pending == EndSyncSlotListen
    requires !IsSync(msg.kind)
    ensures Hear(s, msg, toa, random).Ok? && Inv(Hear(s, msg, toa, random).value)
  {
    if IsMerge(msg.kind) {
      var f := SwitchedToDeep(s.fish, FishingDelta(s.period, msg.offset, toa, toa), CallbackFor(msg.kind));
      assert f.Valid();
    } else {
      assert SelfMastered(s.clique).Valid();
    }
  }

  lemma TrollingCatchSafe(s: Agent, msg: Message, toa: Time, random: nat)
    requires Inv(s) && CanHear(s, msg, toa, random) && s.pending == FishSlotEnd
    requires IsSync(msg.kind) && s.fish.mode == Trolling
    ensures Hear(s, msg, toa, random).Halted? <==> HearDoomed(s, msg, toa)
    ensures Hear(s, msg, toa, random).Ok? ==> Inv(Hear(s, msg, toa, random).value)
    ensures Hear(s, msg, toa, random).Ok? ==> Hear(s, msg, toa, random).value.merge.role == Merger
  {
    PreludeFits(s.troll);
    assert s.due <= s.period.start + PERIOD;
    AdjustmentBound(s.period, toa, msg.offset);
    CaughtKeepsValid(s.merge, s.clique, s.period, msg, toa, s.latency);
  }

  lemma DeepCatchSafe(s: Agent, msg: Message, toa: Time, random: nat)
    requires Inv(s) && CanHear(s, msg, toa, random) && s.pending == FishSlotEnd
    requires IsSync(msg.kind) && s.fish.mode == DeepFishing && Better(s.clique, msg.master)
    ensures Hear(s, msg, toa, random).Halted? <==> HearDoomed(s, msg, toa)
    ensures Hear(s, msg, toa, random).Ok? ==> Inv(Hear(s, msg, toa, random).value)
  {
  }

  lemma IgnoredInFishSlotSafe(s: Agent, msg: Message, toa: Time, random: nat)
    requires Inv(s) && CanHear(s, msg, toa, random) && s.pending == FishSlotEnd
    requires !IsSync(msg.kind) || (s.fish.mode == DeepFishing && !Better(s.clique, msg.master))
    ensures Hear(s, msg, toa, random).Ok? && Inv(Hear(s, msg, toa, random).value)
  {
  }

  lemma HearKeepsTimer(s: Agent, msg: Message, toa: Time, random: nat)
    ensures Hear(s, msg, toa, random).Ok? ==>
              var s' := Hear(s, msg, toa, random).value;
              s'.pending == s.pending && s'.due == s.due && s'.prelude == s.prelude && s'.mode == s.mode
  {
  }

  /** Safety of one message: it never touches the timer, and it keeps the invariant or halts for the
      cause named by `HearDoomed`, and for no other. */
  lemma HearSafe(s: Agent, msg: Message, toa: Time, random: nat)
    requires Inv(s) && CanHear(s, msg, toa, random)
    ensures Hear(s, msg, toa, random).Halted? <==> HearDoomed(s, msg, toa)
    ensures Hear(s, msg, toa, random).Ok? ==>
              var s' := Hear(s, msg, toa, random).value;
              Inv(s') && s'.pending == s.pending && s'.due == s.due
  {
    HearKeepsTimer(s, msg, toa, random);
    if s.pending == EndSyncSlotListen {
      if IsSync(msg.kind) {
        SyncInSyncSlotSafe(s, msg, toa, random);
      } else {
        OtherInSyncSlotSafe(s, msg, toa, random);
      }
    } else if IsSync(msg.kind) && s.fish.mode == Trolling {
      TrollingCatchSafe(s, msg, toa, random);
    } else if IsSync(msg.kind) && Better(s.clique, msg.master) {
      DeepCatchSafe(s, msg, toa, random);
    } else {
      IgnoredInFishSlotSafe(s, msg, toa, random);
    }
  }
}
