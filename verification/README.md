# Sleep synchronisation: verified model

SleepSyncAgent lets radios that sleep nearly all the time wake at the same moments. Every unit keeps a sync
period; units form cliques named by the ID of their master; a unit that hears a sync of a better clique (one with
a smaller master ID) takes over its master and its sync point. Between sync slots a unit fishes for other cliques
and tells them, or its own former clique, where to look. All this runs as run-to-completion tasks on one timer.

This project models the task-based design in a build without SoftDevice and proves:

- **One unit.** `TaskMachine` gives the whole state of a unit and the effect of every task and message. `Runs` proves,
  for every sequence of power levels, coin tosses, things to send and messages from start-up, that the invariant
  holds and that a modelled assert (a `Fault`) fails exactly for the causes named in `Doomed` and `HearDoomed`; that runs
  whose events satisfy simple guards never fail; that sync points keep coming, n to 2n periods apart after n rolls;
  and that deep-fishing and merger episodes are bounded. `Halts` has a run from start-up for every fault that can arise.
  `Decisions` says of every task and message, by the fields of the state and what the unit learns, what it decides.
- **The same unit in imperative form.** `SyncAgents` has the namespaces of the source as objects and its tasks and
  handlers as methods, each proved against the task machine.
- **Many units.** `Network` puts any number of complete units in range of each other, with arbitrary message loss; a
  unit whose assert fails is dead and the others go on. On runs without scatter in which no slave becomes a master
  again (joining runs) it proves phase agreement, and exactly when agreement survives the first slave that does;
  `Disagreement` has a run on which it does not. `Epochs` does without that restriction: units agree as far as their
  cliques go back to the same founding. `Convergence` proves that the least ID is never a slave, and that the election
  settles on the least ID with one sync point. `Aiming` and `Inviting` follow merge messages through joining runs and
  prove when deep sessions meet the sync they are to catch; `MissedInvitation` has a run on which one does not.
  `TrollingRuns` carries the coverage of trolling over to runs.
- **The parts.** `Schedules` (adjustment of the period), `Cliques` (mastership, history, dropout), `Trolling`
  (range and coverage), `Merging` (placement), `Fishing` (the two modes), `Serializer` (the radio payload).

P is 80000 ticks, a virtual slot V is 50, a period has N = 1600 slots; the send latency is 4 or 10, per unit.

## How to read it

Functions on values (`Adjusted`, `Joined`, `Proceeded`, `Fire`, `Hear`, ...) say what an operation does; the classes do it
in place and their methods' `ensures` equate the new `View()` with those functions; the lemmas are about the functions.
An assert of the source that can fail is a `Fault`; one that cannot is an `assert` in a method.

## Where the code differs from its own comments

- An adjustment can shorten an already extended period (`Schedules.SecondAdjustmentCanShorten`), and can violate the
  2P assert; `Schedules.AdjustmentBound` says exactly when.
- `revertToFormerMaster` always violates the asserts of `adjust`; `Cliques.DropoutIsSafeFromFirstClique` says exactly when
  a dropout reaches it.
- The first sessions after a trolling restart are not those next to the sync slot.
- The branch that abandons a merger on a sync from another clique is never taken, because the master is updated first.
- A merge slot in the last three slots of the period makes the next sync slot start without its prelude.
- `MergeMy...` messages arrive outside the sync slot of the former clique: both slot middles in the arithmetic include
  the crystal start-up, and the sync slot no longer does.
- An unclamped invitation heard in the very clique it was computed for tells of a sync point over half a slot too late,
  so that the deep sessions it leads to begin after the sync they are to catch (`Inviting.InvitedSessionsMissTheSync`,
  and a run in `MissedInvitation`): the sender does not allow for its radio delay, and neither does the receiver.
- Message type codes from 5 on are decoded as other types.

## Model

| member | source | states |
|---|---|---|
| Schedules.AdjustmentBound | src/clique/schedule.cpp:190-265 | new end congruent to arrival plus offset and never below the normal end; accepted iff that event is not strictly between start + P and the current end; shortens the period iff the event is over a period early; a first adjustment always passes |
| Schedules.SecondAdjustmentCanOverrun | src/clique/schedule.cpp:257-263 | a second message in an extended period can violate the 2P assert (concrete) |
| Schedules.SecondAdjustmentCanShorten | src/clique/schedule.cpp:242-259 | a second message can make the period end sooner than it was going to, which the comment excludes (concrete) |
| Schedules.ReceiverGetsSendersSyncPoint | src/modules/syncOffset.cpp:18-44 | arrival plus offset is exactly the sender's next sync point; the receiver's is that one, or the one after iff it would be too soon |
| Schedules.OffsetFromSyncSlotValidity | src/modules/deltaSync.cpp:14-27 | an offset sent from mid sync slot is valid iff the period ends at most half a slot late |
| Schedules.Schedule.constructor | src/clique/schedule.cpp:94-105 | power-on period |
| Schedules.Schedule.RollPeriodForward | src/clique/schedule.cpp:44-75 | the next period starts at the end of this one |
| Schedules.Schedule.SetEndOfSyncPeriodToNow | src/clique/schedule.cpp:134-139 | only the end time changes |
| Schedules.Schedule.Adjust | src/clique/schedule.cpp:190-201 | passes iff the new end is between the normal end and start + 2P |
| Schedules.Schedule.AdjustBySyncMsg | src/clique/schedule.cpp:165-170 | moves the end to the adjusted event time, or fails exactly when the asserts do |
| Schedules.Schedule.AdjustWithRandomAddedTime | src/clique/schedule.cpp:173-186 | scatter never violates the asserts |
| Schedules.Schedule.AdjustByCliqueHistoryOffset | src/clique/schedule.cpp:205-208 | passes iff now plus offset is already an acceptable end |
| Schedules.Schedule.ClampTimeBeforeLatestSlotMark | src/clique/schedule.cpp:407-420 | the lesser of the proposed time and the end of the period |
| Cliques.JoinedKeepsValid | src/clique/cliqueRoles.cpp:53-90 | joining same or better cliques keeps masterID <= selfID, record 0 self, slave => index >= 1; joining a better one leaves no self-mastership |
| Cliques.DropoutIsSafeFromFirstClique | src/clique/cliqueReversion.cpp:45-89 | dropout halts iff the counter is full and the history index is over 1; otherwise the unit is its own master at index 0; the pop never underflows |
| Cliques.TwoJoinsThenDropoutHalts | src/cliqueHistory/cliqueHistory.cpp:31-65 | two joins then a dropout reach the unfinished reversion (concrete) |
| Cliques.CliqueOfUnit.constructor | src/cliqueHistory/cliqueHistory.cpp:25-28 | own master, record 0 is self |
| Cliques.CliqueOfUnit.UpdateMastership | src/clique/cliqueRoles.cpp:82-90 | any other master becomes the master and is pushed on the history |
| Cliques.CliqueOfUnit.AddToHistory | src/cliqueHistory/cliqueHistory.cpp:31-45 | next record written unless the history is full |
| Cliques.CliqueOfUnit.UpdateBySyncMessage | src/clique/clique.cpp:102-120 | master, history and schedule change together, by the message |
| Cliques.CliqueOfUnit.GrabMastership | src/clique/cliqueReversion.cpp:20-42 | own master again, schedule kept, trolling restarted |
| Cliques.CliqueOfUnit.ScatterSync | src/clique/cliqueScatter.cpp:8-15 | own master at a random later sync point, always within bounds |
| Cliques.CliqueOfUnit.CheckMasterDroppedOut | src/policy/dropoutMonitor.cpp:22-29 | counter assert and history assert hold; reverts or halts exactly as the specification |
| Cliques.CliqueOfUnit.RevertToFormerMaster | src/clique/cliqueReversion.cpp:45-56 | always halts, because the proposed end now + 1 is below the normal end |
| Trolling.TrollingRange | src/fishPolicy/syncRecoveryfishPolicy.cpp:36-112 | under every interleaving of operations ticks = slots * V and every session lies in ordinals 2..N; after an advance it has the present length |
| Trolling.PeriodsCounters | src/fishPolicy/syncRecoveryfishPolicy.cpp:97-112 | the two counters advance independently in alternate periods |
| Trolling.DownSweep | src/fishPolicy/utils.h:41-61 | the k-th session of a downward sweep |
| Trolling.DownResets | src/fishPolicy/utils.h:41-61 | from anywhere the down counter restarts its sweep within one sweep |
| Trolling.UpResets | src/fishPolicy/utils.h:22-39 | from anywhere the up counter returns to the first sleeping slot within one sweep |
| Trolling.TrollingCoverage | src/fishPolicy/syncRecoveryfishPolicy.cpp:53-112 | from a restart, every slot 2..N is fished within 2 * floor((N-1)/D) advances, for every session length D |
| Trolling.TrollingCoverageFromAnywhere | src/fishPolicy/slottedFishSession.cpp:34-76 | from any reachable state, twice as many advances are enough |
| TrollingRuns.SessionsKeepPace | src/task/fishTask.cpp:32-102 | on a run of a fisher with power there is exactly one advance and one session per roll, in turn |
| TrollingRuns.TrollingCoverageOnRuns | src/fishPolicy/syncRecoveryfishPolicy.cpp:53-112 | on such a run from a restart every slot 2..N lies in a session listened in, over its very slots, within one more than 2 * floor((N-1)/D) rolls |
| TrollingRuns.TrollingCoverageOnRunsFromAnywhere | src/fishPolicy/slottedFishSession.cpp:34-76 | the same from any state, within twice as many |
| Trolling.RestartSkipsSlotsNextToSyncSlot | src/fishPolicy/fishPolicy.h:13-31 | after a restart the first two sessions fished are not the two next to the sync slot, against the documented intent |
| Trolling.PreludeFits | src/fishPolicy/syncRecoveryfishPolicy.cpp:115-159 | a session lies in [start + V, start + P]; the near predicates hold iff fewer than two slots remain on that side |
| Trolling.TrollingPolicy.constructor | src/fishPolicy/syncRecoveryfishPolicy.cpp:27-33 | values at power-on are in range |
| Trolling.TrollingPolicy.SetSessionForStartSlot | src/fishPolicy/syncRecoveryfishPolicy.cpp:42-47 | isInRange assert holds |
| Trolling.TrollingPolicy.IncrementCounterModuloSleepingSlots | src/fishPolicy/utils.h:22-39 | wraparound upward |
| Trolling.TrollingPolicy.DecrementCounterModuloSleepingSlots | src/fishPolicy/utils.h:41-61 | wraparound downward, in range |
| Trolling.TrollingPolicy.Restart | src/fishPolicy/syncRecoveryfishPolicy.cpp:63-73 | both counters at their ends |
| Trolling.TrollingPolicy.ProceedToNextFishSlotOrdinal | src/fishPolicy/syncRecoveryfishPolicy.cpp:97-112 | one counter moves, the session is fresh and in range |
| Trolling.TrollingPolicy.IncrementFishSessionDuration | src/fishPolicy/slottedFishSession.cpp:34-52 | longer session and restart, or nothing past the maximum |
| Trolling.TrollingPolicy.SetDurationToMinDuration | src/fishPolicy/slottedFishSession.cpp:70-76 | one slot, counters kept |
| Merging.MergeMyPlacement | src/cliqueMerger/cliqueMerger.cpp:121-134 | for every arrival the merge slot starts over 2V after the sync point and ends before the next; congruent to the slot middle of the code iff unclamped; the clamped value |
| Merging.MergeOtherPlacement | src/cliqueMerger/cliqueMerger.cpp:139-150 | the same for merging the other clique; the subtraction clamps only in an extended period |
| Merging.MergeOtherReachesSyncSlot | src/cliqueMerger/cliqueMerger.cpp:62-74 | the invitation really arrives in the other clique's sync slot iff the radio delay is 35 to 85 ticks over the send latency |
| Merging.MergeMyMissesSyncSlot | src/scheduleParameters.h:248-250 | the message to the former clique arrives outside its sync slot for every radio delay, clamped or not; where exactly, unclamped |
| Merging.CaughtKeepsValid | src/cliqueMerger/cliqueMerger.cpp:164-258 | after a catch the record names the better clique as superior, the kind says who departed, and merging my clique leaves no self-mastership |
| Merging.MergerOfUnit.constructor | src/syncAgentImp/state/role.cpp:14-14 | no role, inactive |
| Merging.MergerOfUnit.ToFisherFromNoFishing | src/syncAgentImp/syncAgentRole.cpp:23-25 | role Fisher |
| Merging.MergerOfUnit.ToNoFishingFromOther | src/syncAgentImp/syncAgentRole.cpp:27-33 | active iff Merger is kept; the count is not reset |
| Merging.MergerOfUnit.ToMergerFromFisher | src/syncAgentImp/syncAgentRole.cpp:40-52 | role, record, clique and schedule after a catch, or the exact halt |
| Merging.MergerOfUnit.InitMergeMyClique | src/cliqueMerger/cliqueMerger.cpp:164-215 | slot from the old schedule, then joins; "not self master" holds |
| Merging.MergerOfUnit.InitMergeOtherClique | src/cliqueMerger/cliqueMerger.cpp:222-258 | slot in my schedule, nothing else changes |
| Merging.MergerOfUnit.PeriodTimeToMergeMyClique | src/cliqueMerger/cliqueMerger.cpp:121-134 | a valid, placed PeriodTime |
| Merging.MergerOfUnit.PeriodTimeToMergeOtherClique | src/cliqueMerger/cliqueMerger.cpp:139-150 | a valid, placed PeriodTime |
| Merging.MergerOfUnit.StopMerger | src/syncAgentImp/syncAgentRole.cpp:55-71 | Fisher, inactive, count reset |
| Merging.MergerOfUnit.MakeMergeMsg | src/cliqueMerger/cliqueMerger.cpp:341-361 | offset to the unadjusted sync point, always valid |
| Merging.MergerOfUnit.CheckCompletionOfMergerRole | src/slots/merge/mergePolicy.cpp:53-65 | count assert holds; done iff this was the last |
| Fishing.FishingManager.constructor | src/slots/fishing/fishingManager.cpp:9-11 | trolling |
| Fishing.FishingManager.SwitchToDeepFishing | src/slots/fishing/fishingManager.cpp:25-31 | only the first call of an episode has an effect |
| Fishing.FishingManager.PreFishing | src/slots/fishing/fishingManager.cpp:61-71 | trolling advances, deep fishing does not |
| Fishing.FishingManager.GetStartTimeToFish | src/fishPolicy/deepFishingPolicy.cpp:34-57 | start time; in deep mode one more session is counted |
| Fishing.FishingManager.CheckFishingDone | src/slots/fishing/fishingManager.cpp:46-59 | episode over iff more than six sessions; callback run, back to trolling |
| Fishing.FishingManager.IsFishSlotStartSyncPeriod | src/fishPolicy/deepFishingPolicy.cpp:97-99 | near-start predicate by mode |
| Fishing.FishingManager.IsFishSlotEndSyncPeriod | src/fishPolicy/deepFishingPolicy.cpp:101-103 | near-end predicate by mode, opposite sense in deep mode |
| TaskMachine.BootedInv | src/task/checkPowerReserve.cpp:9-26 | start-up establishes the invariant |
| TaskMachine.ModeRoleCoupling | src/syncAgentImp/state/syncMode.cpp:46-129 | active iff Merger; fishing and merging roles iff highest mode; one level per check |
| TaskMachine.PreludeWSyncSafe | src/schedule/sleepDuration.cpp:33-35 | the prelude subtraction fails iff less than one slot is left |
| TaskMachine.FishingSafe | src/schedule/syncSchedule.cpp:155-169 | at the end of a sync slot the prelude before a fish slot never underflows |
| TaskMachine.NonSyncTaskSafe | src/task/task.cpp:30-60 | at the end of every sync slot a task is scheduled with the prelude as it needs it; no assert fails |
| TaskMachine.SyncSlotSafe | src/slots/sync/syncSlot.cpp:77-111 | every slot kind schedules its task; halts iff a scatter completes on a slave |
| TaskMachine.NextSyncSlotSafe | src/schedule/syncSchedule.cpp:196-226 | after a fish or merge slot: halts iff the prelude is undone with less than a slot left |
| TaskMachine.FireSafe | src/task/task.cpp:65-181 | every task keeps the invariant or halts, and halts iff the cause named in Doomed |
| TaskMachine.TrollingCatchSafe | src/messageHandler/fishSlotMsgHandler.cpp:13-43 | a catch while trolling makes a merger; halts iff its sync point lies between the normal and the extended end |
| TaskMachine.DeepCatchSafe | src/messageHandler/deepFishingMessageHandler.cpp:16-40 | a better catch in deep fishing joins and returns to trolling, or halts exactly as HearDoomed |
| TaskMachine.HearSafe | src/messageHandler/messageDispatcher.cpp:13-36 | every message keeps the invariant and the timer, or halts, and halts iff HearDoomed |
| TaskMachine.HearKeepsTimer | src/receiver/receiver.cpp:13-27 | receiving never changes the pending task, prelude or mode |
| TaskMachine.FireFrame | src/task/task.cpp:65-181 | what firing leaves alone, and that every task brings the next roll nearer |
| TaskMachine.FireAtDue | src/schedule/sleepDuration.cpp:25-57 | tasks depend on the clock only through their due time |
| Decisions.PowerDecidesMode | src/syncAgentImp/state/syncMode.cpp:46-129 | a mode is left for the one below iff its own power is wanting, and else for the one above iff there is power for that |
| Decisions.ModeDecidesRole | src/syncAgentImp/state/syncMode.cpp:63-129 | a unit enters the highest mode as fisher and leaves it without a role, keeping only its count |
| Decisions.SupplyDecidesLength | src/fishPolicy/fishPowerMgr.cpp:31-46 | low supply shortens sessions to one slot, counters kept; high supply lengthens them by twenty slots once, starting afresh |
| Decisions.BookkeepingTasks | src/task/task.cpp:122-149 | next task, due time and prelude of the two tasks that check power; nothing else changes |
| Decisions.SleepsThroughSyncSlot | src/task/task.cpp:159-181 | without power to sync the slot is slept through, prelude off |
| Decisions.SyncSlotDecides | src/slots/sync/syncSlotProperty.cpp:20-36 | a unit listens iff it has no control message, no work, and is not a master whose turn it is; control before work before the master's sync; when it sends and what kind |
| Decisions.SyncSlotRolls | src/slots/sync/syncSlot.cpp:77-111 | the period rolls; a completing scatter moves the next sync point by the random time and restarts trolling |
| Decisions.TransmissionDecided | src/modules/syncSender.cpp:70-130 | the whole message sent in a sync slot and in a merge slot |
| Decisions.MissedSyncsDecide | src/policy/dropoutMonitor.cpp:18-29 | a slave that listened in vain counts one more, and after eighty is its own master at the bottom of its history |
| Decisions.AdvanceDecided | src/fishPolicy/syncRecoveryfishPolicy.cpp:97-112 | trolling advances once per sync slot, up and down in turn, and not in deep fishing |
| Decisions.NoSlotDecided | src/task/fishTask.cpp:32-66 | without power, luck or role for a fish or merge slot the unit sleeps until the next prelude |
| Decisions.MergeSlotDecided | src/schedule/radioPrelude.cpp:84-117 | a merge slot starts where the merger placed it; the prelude is kept iff that is under three slots after the sync point |
| Decisions.FishSlotDecided | src/schedule/syncSchedule.cpp:155-184 | a fish slot starts with its session or aim, clamped; the prelude is kept iff that is under three slots after the sync point, else done anew |
| Decisions.SessionDecided | src/task/fishTask.cpp:77-86 | one slot of prelude, then a session of one slot or the trolling length |
| Decisions.AfterTrolling | src/fishPolicy/syncRecoveryfishPolicy.cpp:115-159 | after trolling the prelude is kept iff the session ended in the last two slots |
| Decisions.AfterDeepFishing | src/fishPolicy/deepFishingPolicy.cpp:101-103 | after a deep session the prelude is kept iff it was aimed more than three slots before the end of a normal period: the opposite sense |
| Decisions.AfterLastDeepFishing | src/fishPolicy/deepFishingPolicy.cpp:59-85 | after the seventh the unit trolls again, is its own master iff the callback recovers, and trolling decides on the prelude |
| Decisions.AfterMergeSlot | src/slots/merge/mergeSchedule.cpp:62-69 | the next sync slot starts without prelude iff the transmission ends in the last three slots, else the prelude is done anew; the seventh send ends the role |
| Decisions.SyncInSyncSlotDecides | src/messageHandler/syncSlotMsgHandler.cpp:60-82 | a sync of the same or a better clique is taken up and ends the listening; any other changes nothing |
| Decisions.MergeInSyncSlotDecides | src/messageHandler/syncSlotMsgHandler.cpp:113-163 | the first merge message starts deep fishing at zero sessions with its aim; only that of a departing master recovers mastership |
| Decisions.OtherInSyncSlotDecides | src/messageHandler/syncSlotMsgHandler.cpp:206-230 | abandoned mastership, a scatter of the clique, and nothing else |
| Decisions.CatchDecides | src/messageHandler/fishSlotMsgHandler.cpp:13-43 | a better clique is joined and the former one told; the same or a worse one is invited; who is superior and inferior, and where the merge slot is placed in each case |
| Decisions.DeepCatchDecides | src/messageHandler/deepFishingMessageHandler.cpp:16-40 | a better clique caught in deep fishing is joined, and deep fishing ends |
| Decisions.NoCatchDecides | src/messageHandler/fishSlotMsgHandler.cpp:48-119 | nothing else has an effect, but work syncs and merge messages end the slot |
| Runs.RunSafe | src/task/task.cpp:30-181 | from start-up, on every run: invariant in every state, and a halt only for, and always for, a named cause |
| Runs.CalmRunNeverHalts | src/task/task.cpp:30-181 | no modelled assert fails on any run whose events satisfy the guards in Calm, each decided before the event |
| Runs.MergeNearEndHalts | src/slots/merge/mergeSchedule.cpp:62-69 | after a merge slot the next sync slot starts without prelude iff less than three slots were left in a normal period at the end of its transmission |
| Runs.DeepSessionNearSyncPointHalts | src/fishPolicy/deepFishingPolicy.cpp:101-103 | the end of any deep session underflows the prelude iff it aims past two slots before my next sync point, except as last of its episode with a trolling session next to the sync slot set |
| Runs.TrollingSessionNeverHalts | src/schedule/radioPrelude.cpp:119-119 | the end of a trolling session never halts |
| Runs.InvalidOffsetOnlyAfterScatter | src/slots/sync/syncSlot.cpp:81-92 | an invalid offset arises only in the slot in which a scatter completed, iff the random time is over the time from sync point to arrival, which is at least half a slot |
| Runs.TransmissionValid | src/message/messageFactory.h:116-130 | every transmitted offset is valid and means the sender's next sync point at arrival; merge messages name the superior |
| Runs.OnlyMastersSendMasterSync | src/clique/clique.cpp:54-56 | on every run only a unit that is its own master sends the periodic master sync |
| Runs.SyncSlotNeverStopsMerger | src/modules/syncBehaviour.cpp:25-40 | the branch that stops a merger on a sync from another clique is never taken, in any state |
| Runs.SyncSlotOnTime | src/schedule/syncSchedule.cpp:111-115 | on every run from start-up a period begins on its sync point, or at most one slot late after deep fishing |
| Runs.SyncPointsKeepComing | src/schedule/syncSchedule.cpp:62-226 | at most seven tasks between two rolls of the period, on every run |
| Runs.SyncPointSpacing | src/clique/schedule.cpp:44-75 | after n rolls the sync point has moved by nP to 2nP |
| Runs.DeepEpisodeGoesOn | src/fishPolicy/deepFishingPolicy.cpp:27-85 | an episode still going on keeps aim and callback, has run no callback, and its counter is its number of sessions, whatever messages repeat |
| Runs.DeepEpisode | src/slots/fishing/fishingManager.cpp:25-59 | an episode goes back to trolling by a catch of a better clique, callback not run, or by its seventh session without one, callback run once; mastership as the callback says |
| Runs.MergeMessageStartsEpisode | src/fishPolicy/deepFishingPolicy.cpp:27-31 | in any state the first merge message starts an episode at zero sessions, with the callback of its type |
| Runs.EpisodeOfMergeMessage | src/messageHandler/syncSlotMsgHandler.cpp:152-163 | from any merge message: seven sessions without a catch, and then the unit is its own master iff its master had departed, else it keeps its master; or a catch before that |
| Runs.MergeEpisode | src/slots/merge/mergePolicy.cpp:15-65 | in an unbroken stretch in the role a merger keeps its slot and message, sends at most seven merge syncs, and the one that makes up the count ends the role |
| Runs.MergeSyncsConserved | src/slots/merge/mergePolicy.cpp:15-65 | on every run, through any losses of power and new roles: what stood in the count plus the merge syncs sent is seven for each role ended by its last one plus what stands in the count |
| SyncAgents.SyncAgent.constructor | src/syncAgentImp/syncAgentImp.cpp:92-160 | start-up state, first task armed |
| SyncAgents.SyncAgent.ScheduleTask | src/schedule/syncSchedule.cpp:62-65 | takes a free timer slot and fills it |
| SyncAgents.SyncAgent.MaintainSyncPeriod | src/schedule/syncSchedule.cpp:75-85 | sleep to the sync point |
| SyncAgents.SyncAgent.RadioPreludeTaskWSync | src/schedule/syncSchedule.cpp:95-99 | prelude one slot before the sync point, or the exact underflow |
| SyncAgents.SyncAgent.SyncSlotAfterSyncSlot | src/schedule/syncSchedule.cpp:90-93 | assert prelude off holds |
| SyncAgents.SyncAgent.OmitNonsyncSlot | src/schedule/syncSchedule.cpp:141-148 | prelude off, then as above |
| SyncAgents.SyncAgent.SyncSlotAfterNonsyncSlot | src/schedule/syncSchedule.cpp:196-226 | keeps the prelude for an abutting sync slot or undoes and redoes it |
| SyncAgents.SyncAgent.CheckPowerAndTryModeTransitions | src/syncAgentImp/state/syncMode.cpp:63-129 | one step of the mode diagram with its role change |
| SyncAgents.SyncAgent.ManageFishPower | src/fishPolicy/fishPowerMgr.cpp:31-46 | lengthen once while power is high, else one slot |
| SyncAgents.SyncAgent.BookkeepingAtPreludeToSyncSlot | src/slots/sync/syncSlot.cpp:47-53 | modes, then fishing power |
| SyncAgents.SyncAgent.BookkeepingAtStartSyncSlot | src/syncAgentImp/syncAgentLoop.cpp:79-97 | rolls the period; radio is not in use |
| SyncAgents.SyncAgent.DispatchSyncSlotKind | src/slots/sync/syncSlot.cpp:77-111 | kind by priority, one task scheduled, scatter enacted |
| SyncAgents.SyncAgent.OnDoneScatter | src/network/intraCliqueManager.cpp:43-46 | scatters a master, halts on a slave |
| SyncAgents.SyncAgent.StartSyncPeriodMaintainTask | src/task/task.cpp:122-149 | assert prelude off holds; next task by mode |
| SyncAgents.SyncAgent.RadioPreludeTask | src/schedule/syncSchedule.cpp:31-44 | sync slot one slot later, prelude on, bookkeeping done |
| SyncAgents.SyncAgent.StartSyncSlotTask | src/task/task.cpp:159-181 | halts iff the prelude is off or a scatter completes on a slave; else rolls and dispatches |
| SyncAgents.SyncAgent.SendSyncTask | src/task/task.cpp:65-88 | kind is never listen; message and offset sent, or the exact halt |
| SyncAgents.SyncAgent.EndSyncSlotListenTask | src/task/task.cpp:94-99 | dropout check of a slave, then the next task |
| SyncAgents.SyncAgent.EndSyncSlotSendTask | src/task/task.cpp:103-110 | assert prelude on holds |
| SyncAgents.SyncAgent.ScheduleNonSyncTask | src/task/task.cpp:30-60 | never in mode Maintain; next task as specified |
| SyncAgents.SyncAgent.TryUndoAfterSyncing | src/schedule/radioPrelude.cpp:84-117 | prelude kept iff a fish or merge slot is near |
| SyncAgents.SyncAgent.TryFishOrMerge | src/task/fishTask.cpp:32-66 | merge, fish or omit by role, power and coin; merge start assert holds |
| SyncAgents.SyncAgent.SetStartAndEndTimes | src/slots/fishing/fishSchedule.cpp:30-127 | clamped start and end |
| SyncAgents.SyncAgent.StartFishing | src/schedule/syncSchedule.cpp:155-184 | fish slot now due, or its prelude first |
| SyncAgents.SyncAgent.FishSlotStartTask | src/task/fishTask.cpp:77-86 | assert prelude on holds; listens for the session length |
| SyncAgents.SyncAgent.FishSlotEndTask | src/task/fishTask.cpp:89-102 | assert prelude on holds; episode check, then the next sync slot |
| SyncAgents.SyncAgent.MergerTask | src/task/mergerTask.cpp:21-38 | sends, counts, stops after the last, then the next sync slot |
| SyncAgents.SyncAgent.Fire | src/task/task.h:17-50 | any task from a valid state: exactly one successor and validity again, or the exact halt |
| SyncAgents.SyncAgent.OnMsgReceived | src/messageHandler/messageDispatcher.cpp:13-36 | any message from a valid state: validity again with the timer untouched, or the exact halt |
| SyncAgents.SyncAgent.HandleInSyncSlot | src/messageHandler/syncSlotMsgHandler.cpp:172-234 | effect of each message type in a sync slot |
| SyncAgents.SyncAgent.HandleSyncInSyncSlot | src/messageHandler/syncSlotMsgHandler.cpp:60-82 | listening ends iff the sync was taken up |
| SyncAgents.SyncAgent.FilterSyncMsg | src/modules/syncBehaviour.cpp:46-95 | only syncs of the same or a better clique are taken up and reset the dropout counter |
| SyncAgents.SyncAgent.HandleSuperiorOrSameSyncMsg | src/modules/syncBehaviour.cpp:106-121 | clique and schedule first, then a merger is asked whether to stop |
| SyncAgents.SyncAgent.HandleSuperiorOrSameSyncWhileMerging | src/modules/syncBehaviour.cpp:25-40 | stops the merger iff the message names another clique than the present one |
| SyncAgents.SyncAgent.GetFishingDeltaFromMergeMsg | src/messageHandler/syncSlotMsgHandler.cpp:113-132 | from my sync point to the one told of |
| SyncAgents.SyncAgent.HandleInFishSlot | src/messageHandler/fishSlotMsgHandler.cpp:48-119 | effect of each message type in a fish slot |
| SyncAgents.SyncAgent.HandleCatchFromDeepFishing | src/messageHandler/deepFishingMessageHandler.cpp:16-40 | only a better clique is caught |
| Network.RunSound | src/clique/cliqueRoles.cpp:53-92 | on every run every live or dead unit satisfies the invariant, and every master followed or announced is the ID of a unit |
| Network.FireKeepsPhase | src/clique/schedule.cpp:62-64 | a task of a joining unit changes neither master nor phase |
| Network.HearKeepsPhase | src/clique/clique.cpp:102-120 | master and sync point change together, to those of the message, or not at all |
| Network.UnitStepInPhase | src/modules/syncOffset.cpp:18-44 | a unit and what it sends stay in the phase of its clique |
| Network.RunInPhase | src/clique/schedule.cpp:235-304 | on every run, whichever units halt, every unit and every sync in the air is in the phase its clique's master started with |
| Network.PhaseAgreement | src/clique/schedule.cpp:235-304 | any two units with the same master have next sync points congruent modulo P, whatever is lost and whichever units halt |
| Network.NeverStuck | src/task/task.h:17-50 | on every run, with dropouts, abandons, recoveries and scatters, as long as one unit lives the first due task can run next: a unit that halts holds up no other |
| Network.RegainingMastership | src/clique/cliqueReversion.cpp:20-42 | when a slave regains mastership after a joining run, agreement survives iff no other live unit names it or the start-up phases of its own clique and of the one it left agree |
| Disagreement.RegainingMastershipCanDisagree | src/clique/cliqueReversion.cpp:27-31 | it need not survive: a run of three units from start-up that ends in a dropout |
| Epochs.RunInEpochs | src/clique/schedule.cpp:173-304 | on every run each unit is, modulo P, at the sync point at which its master last founded the clique that the unit joined; each sync in the air likewise |
| Epochs.EpochAgreement | src/clique/schedule.cpp:235-304 | on every run two units agree on the sync point iff their cliques were founded at the same one, hence if they go back to the same founding |
| Epochs.RegainingOnAnyRun | src/clique/cliqueReversion.cpp:20-42 | after any number of dropouts, recoveries and scatters, the next slave to regain mastership keeps agreement iff all live units naming it go back to a founding at the sync point of the clique it left |
| Convergence.BelowDecreases | src/clique/cliqueRoles.cpp:53-61 | a better master leaves strictly fewer better IDs |
| Convergence.RunMasters | src/clique/cliqueRoles.cpp:53-92 | on every run, with dropouts, abandons, recoveries, scatters and halts, masters are IDs of units, none worse than the follower |
| Convergence.LeastIsNeverSlave | src/clique/cliqueRoles.cpp:53-92 | on no run is the unit with the least ID ever a slave |
| Convergence.MasterStep | src/clique/cliqueRoles.cpp:82-90 | an event changes only one unit's master, only to a better one it took up |
| Convergence.BoundedJoins | src/clique/clique.cpp:102-120 | at most n(n-1)/2 changes of master on any run of n units, whichever units halt |
| Convergence.SettledIffConverged | src/clique/cliqueRoles.cpp:47-61 | no live unit could improve by hearing another live one iff all live units follow one master at one sync point modulo P |
| Convergence.SettledByMastersIffConverged | src/clique/cliqueRoles.cpp:47-61 | while the least ID lives, no live unit can still hear a better self-master iff all follow the least ID at one sync point modulo P |
| Convergence.HearingLeastConverges | src/modules/syncBehaviour.cpp:46-95 | if each live unit took up one sync of the least ID's clique, the live units have converged, and stay so, whether or not the least lives |
| Aiming.SentTraced | src/cliqueMerger/cliqueMerger.cpp:341-361 | a merge message tells of the sync point of the clique its sender was in when its period began, which is the one it names or a better one |
| Aiming.RunTraced | src/messageHandler/syncSlotMsgHandler.cpp:113-132 | on every run the distance a deep fisher keeps is that from its sync point to the one told of plus the radio delay, in the phases of the recorded cliques |
| Aiming.SyncsArriveMidSlot | src/scheduleParameters.h:248-250 | a sync sent on time arrives in the middle of a sync slot of its clique |
| Aiming.DeepFishingAim | src/fishPolicy/deepFishingPolicy.cpp:34-67 | on every run every unclamped deep session contains a mid-slot sync of a clique iff the start-up phases of four cliques and the radio delay put one within a slot of its start |
| Aiming.DeepFishingAimInSameClique | src/messageHandler/syncSlotMsgHandler.cpp:113-132 | as long as the unit stays in the clique in which it heard the message, every unclamped session contains a mid-slot sync of the clique told of iff the message took at most half a slot |
| Aiming.InvitationHeardIsTooLate | src/cliqueMerger/cliqueMerger.cpp:62-74 | an unclamped invitation that is heard in the sync slot it was meant for took longer than that |
| Inviting.RunLedgerTrue | src/cliqueMerger/cliqueMerger.cpp:139-150 | on every joining run, where an unclamped merge slot and its message lie relative to the invited clique's sync point, by the lateness of the caught sync, the latencies and the radio delay |
| Inviting.InvitedSessionsMissTheSync | src/messageHandler/syncSlotMsgHandler.cpp:113-132 | on every joining run no unclamped deep session begun by an unclamped invitation heard in the clique it was meant for meets a sync of the inviting clique, unless the caught sync was late |
| MissedInvitation.InvitationCanMiss | src/messageHandler/syncSlotMsgHandler.cpp:113-132 | a run of two units from start-up to such a session, begun 29 ticks after the sync arrived |
| Halts.FaultsThatArise | src/clique/schedule.cpp:257-263 | each modelled assert fails at the end of some run from start-up, except the history underflow, which does on none |
| Halts.PreludeOffArises | src/schedule/syncSchedule.cpp:212-216 | a run to a sync slot that starts without its prelude |
| Halts.PreludeUnderflowArises | src/schedule/sleepDuration.cpp:33-35 | a run to a prelude with less than a slot left, after deep fishing |
| Halts.ScheduleOverrunArises | src/clique/schedule.cpp:257-263 | a run to a second adjustment beyond 2P |
| Halts.InvalidOffsetArises | src/modules/deltaSync.cpp:14-27 | a run to an offset longer than a period, after a scatter |
| Halts.ScatterBySlaveArises | src/network/intraCliqueManager.cpp:43-46 | a run to a scatter that completes on a slave |
| Halts.HistoryReversionArises | src/clique/cliqueReversion.cpp:45-56 | a run of two joins and eighty missed syncs to the stubbed reversion |
| Serializer.BytesInOrder | src/message/serializer.cpp:143-161 | the least significant byte comes first |
| Serializer.NumberRoundTrip | src/message/serializer.cpp:134-161 | little-endian bytes give back the number modulo their size |
| Serializer.PayloadFields | src/message/serializer.cpp:184-189 | every field is read back; the master to 48 bits |
| Serializer.RoundTrip | src/message/serializer.cpp:263-337 | a message survives iff its type carries sync and its master has 48 bits |
| Serializer.MisreadTypes | src/message/message.cpp:50-69 | the code of each type, and what each later one is taken for; no merge type survives |
| Serializer.CopyIn | src/message/serializer.cpp:143-148 | writes exactly the field's bytes, nothing else |
| Serializer.CopyOut | src/message/serializer.cpp:134-141 | reads exactly the field's number |
| Serializer.SerializeSyncMessageIntoRadioBuffer | src/message/serializer.cpp:322-337 | the fields tile the eleven bytes |
| Serializer.Unserialize | src/message/serializer.cpp:263-293 | reads the payload, rejects unknown types, halts on an offset out of range |

## Left out

- Codes of control messages: the task machine sends only the control messages that carry sync; repeating a work-time or
  work-cycle control message would violate the assert in `initSyncMessage`.
- `SendRepeater` and the granularity, topology and scatter relays: thin; that a scatter completes is an input. Hence
  not modelled either: the asserts in `onDoneGranularityWithAction` and `onDoneRepeatingUpstream` of
  src/network/intraCliqueManager.cpp, on who is master when another control message has been repeated.
- Reversion to a former master beyond its failing assert: the offset is a stub in the source.
- Master transmit policy, power thresholds, coin tosses, random numbers: inputs. `RandomAlarmingCircularClock`, TimeMath,
  TaskTimer, LongClock, Radio and Ensemble are not part of this model; the timer is one slot that fires on time.
- Provisioning and the mode SyncAndProvision: need SoftDevice.
- Work payloads, the app callbacks, logging and phases: no effect on sync. Messages sent by the task machine carry work 0.
- Clock drift, wrap-around of LongTime and code latency: tasks run when due and take no time.
- How long the radio takes from the start of a merge slot to the arrival of the message: any time up to two slots.
- Restart of a unit after a failed assert: in `Network` it is dead from then on.
- Network.PhaseAgreement: for runs without scatter in which no slave becomes a master again; Network.RegainingMastership
  says when agreement survives that step, and Disagreement.RegainingMastershipCanDisagree that it need not.
- Convergence.BoundedJoins: for the same runs.
- Convergence.SettledIffConverged: for the same runs.
- Convergence.SettledByMastersIffConverged: for the same runs.
- Convergence.HearingLeastConverges: for the same runs; that every unit hears the least clique is its hypothesis, since
  losses are arbitrary.
- Aiming.RunTraced: for the same runs.
- Aiming.DeepFishingAim: for the same runs, and where the session is not clamped by my sync slot or my next sync point.
- Aiming.DeepFishingAimInSameClique: as above.
- Inviting.RunLedgerTrue: for the same runs.
- Inviting.InvitedSessionsMissTheSync: for the same runs and sessions.
- TrollingRuns.TrollingCoverageOnRuns: while nothing ends the role Fisher, changes the session length or restarts the
  policy (a scatter or a dropout), and there is power for every fish slot.
- TrollingRuns.TrollingCoverageOnRunsFromAnywhere: as above.
- Sending AbandonMastership: compiled out in the source; in a network it may be heard at any time.
- Network messages are not passed through the serializer, which loses the types of merge messages.
- The RANGE_FILTERING variant of the payload.
