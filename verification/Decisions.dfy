/** What every task and message decides, said by the fields of the state and what the unit learns. */
module Decisions {
  import opened Parameters
  import opened Outcomes
  import opened Schedules
  import opened Messages
  import opened Cliques
  import opened Trolling
  import opened Merging
  import opened Fishing
  import opened TaskMachine

  // ----- power -----

  function Rank(mode: Mode): nat {
    match mode
    case Maintain => 0
    case SyncOnly => 1
    case SyncAndFishMerge => 2
  }

  /** The power a mode needs. */
  predicate HasPowerFor(mode: Mode, e: Env) {
    match mode
    case Maintain => true
    case SyncOnly => e.powerForSync
    case SyncAndFishMerge => e.powerForFishMode
  }

  /** At a check a mode is left for the one below exactly for want of its own power, and otherwise for the
      one above exactly if there is power for that. */
  lemma PowerDecidesMode(s: Agent, e: Env)
    requires Inv(s) && e.Legal() && s.pending in {StartSyncPeriodMaintain, PreludeWSync} && Fire(s, e).Ok?
    ensures var s' := Fire(s, e).value;
            && (Rank(s'.mode) == Rank(s.mode) - 1 <==> !HasPowerFor(s.mode, e))
            && (Rank(s'.mode) == Rank(s.mode) + 1 <==>
                HasPowerFor(s.mode, e) && exists above :: Rank(above) == Rank(s.mode) + 1 && HasPowerFor(above, e))
            && Rank(s.mode) - 1 <= Rank(s'.mode) <= Rank(s.mode) + 1
  {
    assert Rank(SyncOnly) == 1 && Rank(SyncAndFishMerge) == 2;
  }

  /** A new role comes with the mode: a unit begins as fisher, and without a role it keeps nothing but its
      count of merge syncs. */
  lemma ModeDecidesRole(s: Agent, e: Env)
    requires Inv(s) && e.Legal() && s.pending in {StartSyncPeriodMaintain, PreludeWSync} && Fire(s, e).Ok?
    ensures var s' := Fire(s, e).value;
            && s'.merge.role == (if s'.mode != SyncAndFishMerge then NoFishing
                                 else if s.mode != SyncAndFishMerge then Fisher else s.merge.role)
            && s'.merge == s.merge.(role := s'.merge.role, active := s'.merge.role == Merger)
  {
  }

  /** Low supply shortens trolling sessions to one slot and leaves the counters where they are; high supply
      lengthens them by twenty slots, once, and then begins next to the sync slot again. */
  lemma SupplyDecidesLength(s: Agent, e: Env)
    requires Inv(s) && e.Legal() && s.pending in {StartSyncPeriodMaintain, PreludeWSync} && Fire(s, e).Ok?
    ensures var t, t' := s.troll, Fire(s, e).value.troll;
            && Fire(s, e).value.maxFishing == e.vccHigh
            && (!e.vccHigh ==> t' == t.(slots := 1, ticks := SLOT))
            && (e.vccHigh && (s.maxFishing || t.slots + 20 > MAX_SESSION_SLOTS) ==> t' == t)
            && (e.vccHigh && !s.maxFishing && t.slots + 20 <= MAX_SESSION_SLOTS ==>
                  t' == Troll(t.slots + 20, (t.slots + 20) * SLOT, FIRST_FISH_SLOT, LAST_FISH_SLOT - (t.slots + 20) + 1,
                              FIRST_FISH_SLOT, FIRST_FISH_SLOT + t.slots + 20 - 1, true))
  {
  }

  /** What the first task of a period in the lowest mode, and the prelude to a sync slot, do besides. */
  lemma BookkeepingTasks(s: Agent, e: Env)
    requires Inv(s) && e.Legal() && s.pending in {StartSyncPeriodMaintain, PreludeWSync} && Fire(s, e).Ok?
    ensures var s', end := Fire(s, e).value, s.period.end;
            && s'.clique == s.clique && s'.fish == s.fish && s'.kind == s.kind && !s'.listening && s'.session == s.session
            && (s.pending == PreludeWSync ==>
                  s'.period == s.period && s'.prelude && s'.pending == StartSyncSlotAfterPrelude && s'.due == end)
            && (s.pending == StartSyncPeriodMaintain ==>
                  && s'.period == Period(end, end + PERIOD, end + PERIOD) && !s'.prelude
                  && s'.pending == (if e.powerForSync then PreludeWSync else StartSyncPeriodMaintain)
                  && s'.due == end + PERIOD - (if e.powerForSync then SLOT else 0))
  {
  }

  // ----- the sync slot -----

  predicate StartsSyncSlot(s: Agent) {
    s.pending in {StartSyncSlotAfterPrelude, StartSyncSlotWithoutPrelude}
  }

  /** Without power to sync, a sync slot is slept through. */
  lemma SleepsThroughSyncSlot(s: Agent, e: Env)
    requires Inv(s) && e.Legal() && StartsSyncSlot(s) && s.mode == Maintain
    ensures var end := s.period.end;
            Fire(s, e) == Ok(s.(period := Period(end, end + PERIOD, end + PERIOD), prelude := false,
                                pending := StartSyncPeriodMaintain, due := end + PERIOD, now := s.due))
  {
  }

  /** In a sync slot a unit listens exactly if it has no control message and no work to send and is not a
      master whose turn it is.  Control comes before work, and work before the master's sync. */
  lemma SyncSlotDecides(s: Agent, e: Env, e': Env)
    requires Inv(s) && e.Legal() && StartsSyncSlot(s) && s.mode != Maintain && Fire(s, e).Ok?
    ensures var s' := Fire(s, e).value;
            && (s'.listening <==> e.control.None? && !e.workToSend && !(s.clique.master == s.clique.self && e.masterShouldSend))
            && (s'.listening ==> s'.pending == EndSyncSlotListen && s'.due == s'.period.start + SLOT)
            && (!s'.listening ==>
                  && s'.pending == SendSync && s'.due == Max(s.due, s'.period.start + HALF_SLOT - s.latency)
                  && Transmission(s', e').Some?
                  && Transmission(s', e').value.kind == (if e.control.Some? then e.control.value
                                                         else if e.workToSend then WorkSync else MasterSync))
  {
  }

  /** The period rolls forward at its sync point; a scatter that completes then makes the unit its own
      master, moves its next sync point by the random time, and restarts trolling next to the sync slot. */
  lemma SyncSlotRolls(s: Agent, e: Env)
    requires Inv(s) && e.Legal() && StartsSyncSlot(s) && s.mode != Maintain && Fire(s, e).Ok?
    ensures var s', end, t := Fire(s, e).value, s.period.end, s.troll;
            && s'.prelude && s'.mode == s.mode && s'.merge == s.merge && s'.fish == s.fish && s'.now == s.due
            && (e.scatter.None? ==>
                  s'.period == Period(end, end + PERIOD, end + PERIOD) && s'.clique == s.clique && s'.troll == t)
            && (e.scatter.Some? ==>
                  && s'.period == Period(end, end + PERIOD + e.scatter.value, end + PERIOD)
                  && s.clique.master == s.clique.self && s'.clique == s.clique
                  && s'.troll == Troll(t.slots, t.ticks, FIRST_FISH_SLOT, LAST_FISH_SLOT - t.slots + 1,
                                       FIRST_FISH_SLOT, FIRST_FISH_SLOT + t.slots - 1, true))
  {
  }

  /** What a unit sends: in the sync slot its clique and the time from arrival to its next sync point; in
      the merge slot the better of two cliques, the time to that one's sync point, and the low byte of
      the worse. */
  lemma TransmissionDecided(s: Agent, e: Env)
    requires Inv(s) && e.Legal() && Fire(s, e).Ok?
    ensures Transmission(s, e).Some? <==> s.pending in {SendSync, MergerStartAndEnd}
    ensures s.pending == SendSync ==>
              Transmission(s, e).value ==
              Message(match s.kind case SendWorkSync => WorkSync case SendControlSync(c) => c case _ => MasterSync,
                      s.clique.master, s.period.end - (s.due + s.latency), 0)
    ensures s.pending == MergerStartAndEnd ==>
              Transmission(s, e).value ==
              Message(s.merge.kind, s.merge.superior, s.period.unadjustedEnd - s.due, s.merge.inferior % 256)
  {
  }

  /** A transmission changes nothing, and the sync slot then goes on to its end. */
  lemma AfterSending(s: Agent, e: Env)
    requires Inv(s) && e.Legal() && s.pending == SendSync && Fire(s, e).Ok?
    ensures Fire(s, e).value == s.(pending := EndSyncSlotSend, due := s.period.start + SLOT, now := s.due)
  {
  }

  // ----- after the sync slot -----

  /** The end of a sync slot: first mastership, then the next slot. */
  lemma SlotEndState(s: Agent, e: Env) returns (s1: Agent)
    requires Inv(s) && s.pending in {EndSyncSlotListen, EndSyncSlotSend} && Fire(s, e).Ok?
    ensures Fire(s, e) == ToNonSyncTask(s1, e) && BetweenSlots(s1)
    ensures s1 == s.(now := s.due, listening := false, clique := s1.clique, troll := s1.troll)
    ensures s1.troll == if s.pending == EndSyncSlotListen && s.clique.master != s.clique.self && s.clique.missed == 80
                        then Restarted(s.troll) else s.troll
    ensures var c := s.clique;
            var counts := s.pending == EndSyncSlotListen && c.master != c.self;
            && (!counts ==> s1.clique == c)
            && (counts && c.missed < 80 ==> s1.clique == c.(missed := c.missed + 1))
            && (counts && c.missed == 80 ==> s1.clique == c.(missed := 0, index := 0, master := c.self) && c.index == 1)
  {
    s1 := s.(now := s.due, listening := false);
    if s.pending == EndSyncSlotListen && !s.clique.IsSelfMaster() {
      DropoutIsSafeFromFirstClique(s.clique);
      s1 := s1.(clique := DropoutChecked(s.clique).value,
                troll := if DropsOut(s.clique) then Restarted(s.troll) else s.troll);
    }
  }

  /** At the end of a sync slot in which it listened, a slave counts one more missed sync, and after eighty of
      them it is its own master; nobody else's mastership changes. */
  lemma MissedSyncsDecide(s: Agent, e: Env)
    requires Inv(s) && e.Legal() && s.pending in {EndSyncSlotListen, EndSyncSlotSend} && Fire(s, e).Ok?
    ensures var s', c := Fire(s, e).value, s.clique;
            var counts := s.pending == EndSyncSlotListen && c.master != c.self;
            && (!counts ==> s'.clique == c)
            && (counts && c.missed < 80 ==> s'.clique == c.(missed := c.missed + 1))
            && (counts && c.missed == 80 ==> s'.clique == c.(missed := 0, index := 0, master := c.self) && c.index == 1)
            && s'.period == s.period && s'.mode == s.mode && s'.merge == s.merge && !s'.listening
  {
    var s1 := SlotEndState(s, e);
    NonSyncTaskFrame(s1, e);
  }

  /** Trolling advances once in every period with a sync slot, by one session up or down in turn, whether or not
      there is a fish slot; in deep fishing it stays where it is.  A dropout has restarted it before. */
  lemma AdvanceDecided(s: Agent, e: Env)
    requires Inv(s) && e.Legal() && s.pending in {EndSyncSlotListen, EndSyncSlotSend} && Fire(s, e).Ok?
    ensures var t', n := Fire(s, e).value.troll, s.troll.slots;
            var dropped := s.pending == EndSyncSlotListen && s.clique.master != s.clique.self && s.clique.missed == 80;
            var t := if dropped then Troll(n, n * SLOT, FIRST_FISH_SLOT, LAST_FISH_SLOT - n + 1, FIRST_FISH_SLOT, FIRST_FISH_SLOT + n - 1, true)
                     else s.troll;
            && (s.fish.mode == DeepFishing ==> t' == t)
            && (s.fish.mode == Trolling ==>
                  && t' == Troll(n, n * SLOT, t'.up, t'.down, t'.first, t'.first + n - 1, !t.upward)
                  && (t.upward ==> t'.first == t'.up == (if t.up + n <= LAST_FISH_SLOT - n then t.up + n else FIRST_FISH_SLOT)
                                   && t'.down == t.down)
                  && (!t.upward ==> t'.first == t'.down == (if t.down - n >= FIRST_FISH_SLOT then t.down - n else LAST_FISH_SLOT - n + 1)
                                    && t'.up == t.up))
  {
    var s1 := SlotEndState(s, e);
    TrollAdvances(s1, e);
  }

  lemma TrollAdvances(s: Agent, e: Env)
    requires ToNonSyncTask(s, e).Ok?
    ensures ToNonSyncTask(s, e).value.troll == if s.fish.mode == Trolling then Proceeded(s.troll) else s.troll
  {
  }

  /** Whether this period has a fish or merge slot. */
  predicate HasSlot(s: Agent, e: Env) {
    s.mode == SyncAndFishMerge && (if s.merge.role == Merger then e.coin else e.powerForFishSlot)
  }

  /** Where that slot is, from the sync point, before any clamping. */
  function SlotOffset(s: Agent, s': Agent): int {
    if s.merge.role == Merger then s.merge.slotStart
    else if s.fish.mode == DeepFishing then s.fish.delta
    else (s'.troll.first - 1) * SLOT
  }

  /** Without a fish or merge slot the unit sleeps until the next prelude. */
  lemma NoSlotDecided(s: Agent, e: Env)
    requires Inv(s) && e.Legal() && s.pending in {EndSyncSlotListen, EndSyncSlotSend} && Fire(s, e).Ok?
    requires !HasSlot(s, e)
    ensures var s' := Fire(s, e).value;
            s'.pending == PreludeWSync && !s'.prelude && s'.due == s.period.end - SLOT && s'.fish == s.fish
  {
    var s1 := SlotEndState(s, e);
    PreparedSafe(s1);
  }

  /** A merge slot begins where the merger placed it; the prelude stays on until then exactly if that is
      less than three slots after the sync point. */
  lemma MergeSlotDecided(s: Agent, e: Env)
    requires Inv(s) && e.Legal() && s.pending in {EndSyncSlotListen, EndSyncSlotSend} && Fire(s, e).Ok?
    requires HasSlot(s, e) && s.merge.role == Merger
    ensures var s' := Fire(s, e).value;
            && s'.pending == MergerStartAndEnd && s'.due == s.period.start + s.merge.slotStart && s'.fish == s.fish
            && (s'.prelude <==> s.merge.slotStart < 3 * SLOT)
  {
    var s1 := SlotEndState(s, e);
    PreparedSafe(s1);
  }

  lemma FishingDecided(s: Agent)
    requires BetweenSlots(s) && s.mode == SyncAndFishMerge && s.merge.role == Fisher && s.now == s.period.start + SLOT
    requires (s.fish.mode == Trolling ==> s.troll.Fresh()) && (s.prelude <==> !UndoAfterSyncing(s)) && ToFishing(s).Ok?
    ensures var s', offset := ToFishing(s).value, if s.fish.mode == DeepFishing then s.fish.delta else (s.troll.first - 1) * SLOT;
            var start := s.period.start + Max(SLOT, Min(offset, s.period.end - s.period.start));
            && (s'.prelude <==> offset < 3 * SLOT)
            && s'.pending == (if s'.prelude then FishSlotStart else PreludeWFish)
            && s'.due == start - (if s'.prelude then 0 else SLOT)
            && s'.fish == s.fish.(count := s.fish.count + (if s.fish.mode == DeepFishing then 1 else 0))
            && s'.session == s.fish.mode && s'.troll == s.troll
            && s'.fishStart == s.period.start + Min(offset, s.period.end - s.period.start)
            && s'.fishEnd == Min(s'.fishStart + (if s.fish.mode == DeepFishing then 1 else s.troll.slots) * SLOT, s.period.end)
  {
    if s.fish.mode == Trolling {
      PreludeFits(s.troll);
    }
  }

  /** A fish slot begins with the trolling session, or where deep fishing aims, but outside my sync slot and
      not after my next sync point; the prelude stays on until then exactly if that is less than three
      slots after the sync point, and else it is done anew. */
  lemma FishSlotDecided(s: Agent, e: Env)
    requires Inv(s) && e.Legal() && s.pending in {EndSyncSlotListen, EndSyncSlotSend} && Fire(s, e).Ok?
    requires HasSlot(s, e) && s.merge.role == Fisher
    ensures var s' := Fire(s, e).value;
            var start := s.period.start + Max(SLOT, Min(SlotOffset(s, s'), s.period.end - s.period.start));
            && (s'.prelude <==> SlotOffset(s, s') < 3 * SLOT)
            && s'.pending == (if s'.prelude then FishSlotStart else PreludeWFish)
            && s'.due == start - (if s'.prelude then 0 else SLOT)
            && s'.fish == s.fish.(count := s.fish.count + (if s.fish.mode == DeepFishing then 1 else 0))
            && s'.session == s.fish.mode
            && s'.fishStart == s.period.start + Min(SlotOffset(s, s'), s.period.end - s.period.start)
            && s'.fishEnd == Min(s'.fishStart + (if s.fish.mode == DeepFishing then 1 else s'.troll.slots) * SLOT, s.period.end)
  {
    var s1 := SlotEndState(s, e);
    PreparedSafe(s1);
    FishingDecided(Prepared(s1));
    assert ToNonSyncTask(s1, e) == ToFishing(Prepared(s1));
  }

  /** The prelude to a fish slot takes one slot; the session then lasts a slot in deep fishing and the session
      length in trolling. */
  lemma SessionDecided(s: Agent, e: Env)
    requires Inv(s) && e.Legal() && s.pending in {PreludeWFish, FishSlotStart}
    ensures Fire(s, e) == Ok(if s.pending == PreludeWFish then
                               s.(prelude := true, pending := FishSlotStart, due := s.due + SLOT, now := s.due)
                             else
                               s.(listening := true, pending := FishSlotEnd, now := s.due,
                                  due := s.due + if s.fish.mode == DeepFishing then SLOT else s.troll.slots * SLOT))
  {
  }

  // ----- after a fish or merge slot -----

  /** The prelude stays on until the next sync slot. */
  predicate KeepsPrelude(s: Agent, s': Agent) {
    s'.pending == StartSyncSlotWithoutPrelude && s'.prelude && s'.due == Max(s.due, s.period.end)
  }

  predicate DoesPreludeAnew(s: Agent, s': Agent) {
    s'.pending == PreludeWSync && !s'.prelude && s'.due == s.period.end - SLOT
  }

  /** After a trolling session the prelude stays on exactly if the session ended in the last two slots. */
  lemma AfterTrolling(s: Agent, e: Env)
    requires Inv(s) && e.Legal() && s.pending == FishSlotEnd && s.fish.mode == Trolling && Fire(s, e).Ok?
    ensures var s' := Fire(s, e).value;
            && (if s.troll.last >= COUNT_SLOTS - 1 then KeepsPrelude(s, s') else DoesPreludeAnew(s, s'))
            && s'.fish == s.fish && s'.clique == s.clique && s'.merge == s.merge && s'.troll == s.troll && !s'.listening
  {
  }

  /** After a deep session that is not the last the sense is the opposite: the prelude stays on exactly if
      the session was aimed at more than three slots before the end of a normal period. */
  lemma AfterDeepFishing(s: Agent, e: Env)
    requires Inv(s) && e.Legal() && s.pending == FishSlotEnd && s.fish.mode == DeepFishing && Fire(s, e).Ok?
    requires s.fish.count <= 6
    ensures var s' := Fire(s, e).value;
            && (if s.fish.delta < PERIOD - 3 * SLOT then KeepsPrelude(s, s') else DoesPreludeAnew(s, s'))
            && s'.fish == s.fish && s'.clique == s.clique && s'.merge == s.merge && s'.troll == s.troll && !s'.listening
  {
  }

  /** After the seventh session deep fishing is over, and trolling as it stood decides on the prelude. */
  lemma AfterLastDeepFishing(s: Agent, e: Env)
    requires Inv(s) && e.Legal() && s.pending == FishSlotEnd && s.fish.mode == DeepFishing && Fire(s, e).Ok?
    requires s.fish.count == 7
    ensures var s' := Fire(s, e).value;
            && (if s.troll.last >= COUNT_SLOTS - 1 then KeepsPrelude(s, s') else DoesPreludeAnew(s, s'))
            && s'.fish == s.fish.(mode := Trolling) && s'.merge == s.merge && s'.troll == s.troll && !s'.listening
            && s'.clique == s.clique.(master := if s.fish.callback == EndWithRecoverMaster then s.clique.self
                                                else s.clique.master)
  {
  }

  /** A transmission from the merge slot on ends within the last three slots of a normal period. */
  predicate EndsInLastThreeSlots(s: Agent) {
    PERIOD - (s.merge.slotStart + OVER_THE_AIR + s.latency) < 3 * SLOT
  }

  /** After a merge slot in the last three slots of the period the next sync slot starts without its prelude,
      which the source does not survive; after any other the prelude is done anew. */
  lemma AfterMergeSlot(s: Agent, e: Env, e': Env)
    requires Inv(s) && e.Legal() && e'.Legal() && s.pending == MergerStartAndEnd
    ensures Fire(s, e).Ok?
    ensures var s' := Fire(s, e).value;
            && (Fire(s', e') == Halted(PreludeOff) <==> EndsInLastThreeSlots(s))
            && (EndsInLastThreeSlots(s) ==> s'.pending == StartSyncSlotWithoutPrelude && !s'.prelude && s'.due == s.period.end)
            && (!EndsInLastThreeSlots(s) ==> DoesPreludeAnew(s, s'))
            && s'.merge == (if s.merge.sent == 6 then s.merge.(role := Fisher, active := false, sent := 0)
                            else s.merge.(sent := s.merge.sent + 1))
            && s'.fish == s.fish && s'.clique == s.clique && s'.troll == s.troll && s'.period == s.period
  {
    MergerTaskSafe(s, e);
  }

  // ----- messages -----

  /** In the sync slot a sync of the same or a better clique is taken up and ends the listening; any other
      sync changes nothing. */
  lemma SyncInSyncSlotDecides(s: Agent, msg: Message, toa: Time, random: nat)
    requires Inv(s) && CanHear(s, msg, toa, random) && s.pending == EndSyncSlotListen && IsSync(msg.kind)
    requires Hear(s, msg, toa, random).Ok?
    ensures var s' := Hear(s, msg, toa, random).value;
            if msg.master > s.clique.master then s' == s.(now := toa)
            else
              && s'.clique.master == msg.master && s'.clique.missed == 0 && !s'.listening
              && s'.clique.index == (if msg.master == s.clique.master then s.clique.index else Min(s.clique.index + 1, 5))
              && (msg.master != s.clique.master && s.clique.index < 5 ==> s'.clique.records[s'.clique.index] == msg.master)
              && s'.period == s.period.(end := toa + msg.offset + if toa + msg.offset < s.period.end then PERIOD else 0)
              && s' == s.(now := toa, clique := s'.clique, period := s'.period, listening := false)
  {
  }

  /** The first merge message starts deep fishing, at zero sessions, at the distance from my sync point to the
      one told of; only one from the master that left recovers mastership in the end.  Further ones change
      nothing, and none ends the listening. */
  lemma MergeInSyncSlotDecides(s: Agent, msg: Message, toa: Time, random: nat)
    requires Inv(s) && CanHear(s, msg, toa, random) && s.pending == EndSyncSlotListen && IsMerge(msg.kind)
    ensures Hear(s, msg, toa, random) ==
            Ok(s.(now := toa,
                  fish := if s.fish.mode == DeepFishing then s.fish
                          else Fish(DeepFishing, 0, toa + msg.offset - s.period.start,
                                    if msg.kind == MergeMyMasterDepart then EndWithRecoverMaster else EndWithNoAction)))
  {
  }

  /** Any other message in the sync slot: an abandoned clique leaves every unit its own master, and a scatter of
      its clique scatters a slave. */
  lemma OtherInSyncSlotDecides(s: Agent, msg: Message, toa: Time, random: nat)
    requires Inv(s) && CanHear(s, msg, toa, random) && s.pending == EndSyncSlotListen
    requires !IsSync(msg.kind) && !IsMerge(msg.kind)
    ensures var t := s.troll;
            Hear(s, msg, toa, random) ==
            Ok(if msg.kind == AbandonMastership then s.(now := toa, clique := s.clique.(master := s.clique.self))
               else if msg.kind == ControlScatterClique && msg.master == s.clique.master != s.clique.self then
                 s.(now := toa, clique := s.clique.(master := s.clique.self),
                    period := s.period.(end := s.period.start + PERIOD + random),
                    troll := Troll(t.slots, t.ticks, FIRST_FISH_SLOT, LAST_FISH_SLOT - t.slots + 1,
                                   FIRST_FISH_SLOT, FIRST_FISH_SLOT + t.slots - 1, true))
               else s.(now := toa))
  {
  }

  /** Where a merge slot is placed: one preflight before the middle of a sync slot that lies `middle` after the
      sync point, but never in my own sync slot nor in the slot after it. */
  function PlaceOfMergeSlot(middle: int, latency: int): int {
    Max(middle - SLOT - latency, if middle > 3 * SLOT + latency then 0 else 3 * SLOT + latency)
  }

  /** Trolling, any sync is a catch.  Of a better clique: I join it and will tell my former clique, counting
      from the caught sync point.  Of the same or a worse one: I stay and will invite it, counting from my
      own. */
  lemma CatchDecides(s: Agent, msg: Message, toa: Time, random: nat)
    requires Inv(s) && CanHear(s, msg, toa, random) && s.pending == FishSlotEnd && s.fish.mode == Trolling
    requires IsSync(msg.kind) && Hear(s, msg, toa, random).Ok?
    ensures var s' := Hear(s, msg, toa, random).value;
            var m, c := s'.merge, s.clique;
            && m.role == Merger && m.active && m.sent == s.merge.sent && !s'.listening
            && s' == s.(now := toa, merge := m, clique := s'.clique, period := s'.period, listening := false)
            && (msg.master < c.master ==>
                  && m.kind == (if c.master == c.self then MergeMyMasterDepart else MergeMySlaveDepart)
                  && m.superior == msg.master && m.inferior == c.master
                  && m.slotStart == PlaceOfMergeSlot((s.period.end - (toa - 10) + 2 * (75 - s.latency)) % PERIOD, s.latency)
                  && s'.clique.master == msg.master && s'.clique.missed == c.missed
                  && s'.period == s.period.(end := toa + msg.offset + if toa + msg.offset < s.period.end then PERIOD else 0))
            && (msg.master >= c.master ==>
                  && m.kind == MergeOther && m.superior == c.master && m.inferior == msg.master
                  && m.slotStart == PlaceOfMergeSlot(Max(0, toa - 10 + PERIOD - s.period.end) % PERIOD, s.latency)
                  && s'.clique == c && s'.period == s.period)
  {
  }

  /** Deep fishing, only a sync of a better clique is a catch; it ends deep fishing. */
  lemma DeepCatchDecides(s: Agent, msg: Message, toa: Time, random: nat)
    requires Inv(s) && CanHear(s, msg, toa, random) && s.pending == FishSlotEnd && s.fish.mode == DeepFishing
    requires IsSync(msg.kind) && msg.master < s.clique.master && Hear(s, msg, toa, random).Ok?
    ensures var s' := Hear(s, msg, toa, random).value;
            && s'.clique.master == msg.master && s'.clique.missed == s.clique.missed
            && s'.period == s.period.(end := toa + msg.offset + if toa + msg.offset < s.period.end then PERIOD else 0)
            && s' == s.(now := toa, clique := s'.clique, period := s'.period, fish := s.fish.(mode := Trolling),
                        listening := false)
  {
  }

  /** Nothing else heard in a fish slot has an effect, but that a work sync or a merge message ends it. */
  lemma NoCatchDecides(s: Agent, msg: Message, toa: Time, random: nat)
    requires Inv(s) && CanHear(s, msg, toa, random) && s.pending == FishSlotEnd
    requires IsSync(msg.kind) ==> s.fish.mode == DeepFishing && msg.master >= s.clique.master
    ensures Hear(s, msg, toa, random) ==
            Ok(s.(now := toa, listening := msg.kind !in {WorkSync, MergeOther, MergeMyMasterDepart, MergeMySlaveDepart}))
  {
  }
}
