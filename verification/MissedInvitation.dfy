/** A run of two units on which an invitation leads to a deep session that misses its sync.  Unit 3 fishes
    unit 5 in its third trolling session and invites it; 5 hears the invitation in its sync slot and deep
    fishes, but begins to listen after 3 has sent its sync. */
module MissedInvitation {
  import opened Parameters
  import opened Outcomes
  import opened Messages
  import opened Cliques
  import opened Trolling
  import opened Merging
  import opened Fishing
  import opened TaskMachine
  import opened Network
  import opened Aiming
  import opened Scripts

  const IDS: seq<SystemID> := [3, 5]

  function Two(a: Agent, b: Agent, air: set<Flight>, now: Time): Net {
    Net([a, b], {}, air, now)
  }

  /** A master with the power to fish, in a normal period. */
  function Master(self: SystemID, start: Time, t: Troll, on: bool, listening: bool, task: Task, due: Time, now: Time): Agent {
    Agent(4, Founded(self), Normal(start), t, INITIAL_FISH, INITIAL_MERGE.(role := Fisher), SyncAndFishMerge, false,
          Listen, on, listening, 0, 0, FishingMode.Trolling, task, due, now)
  }

  function Listens(self: SystemID, start: Time, t: Troll): Agent {
    Master(self, start, t, true, true, EndSyncSlotListen, start + SLOT, start)
  }

  function Asleep(self: SystemID, start: Time, t: Troll): Agent {
    Master(self, start, t, false, false, PreludeWSync, start + PERIOD - SLOT, start + SLOT)
  }

  function Ready(self: SystemID, start: Time, t: Troll): Agent {
    Master(self, start, t, true, false, StartSyncSlotAfterPrelude, start + PERIOD, start + PERIOD - SLOT)
  }

  /** After the first task, before there is power to fish. */
  function Woken(self: SystemID, start: Time): Agent {
    Master(self, start, INITIAL_TROLL, false, false, PreludeWSync, start + PERIOD - SLOT, start)
    .(merge := INITIAL_MERGE, mode := SyncOnly)
  }

  const T0: Troll := INITIAL_TROLL
  const T1: Troll := Proceeded(T0)
  const T2: Troll := Proceeded(T1)
  const T3: Troll := Proceeded(T2)

  predicate OneSlot(t: Troll) {
    t.slots == 1 && t.ticks == SLOT
  }

  lemma Wakes(self: SystemID, start: Time)
    ensures Fire(Booted(self, 4, start), POWER) == Ok(Woken(self, start))
    ensures Fire(Woken(self, start), IDLE) == Ok(Ready(self, start, T0))
  {
  }

  lemma GoesOn(self: SystemID, start: Time, t: Troll)
    requires OneSlot(t)
    ensures Fire(Ready(self, start, t), IDLE) == Ok(Listens(self, start + PERIOD, t))
    ensures Fire(Listens(self, start, t), IDLE) == Ok(Asleep(self, start, Proceeded(t)))
    ensures Fire(Asleep(self, start, t), IDLE) == Ok(Ready(self, start, t))
  {
  }

  // ----- unit 3 alone -----

  lemma StartUp() returns (r: NetRun)
    ensures At(r, IDS, Two(Booted(3, 4, 0), Booted(5, 4, 2 * PERIOD + 170), {}, 0))
  {
    assert IsLatency(4);
    r := NetRun([Two(Booted(3, 4, 0), Booted(5, 4, 2 * PERIOD + 170), {}, 0)], []);
  }

  lemma FirstSlot() returns (r: NetRun)
    ensures At(r, IDS, Two(Listens(3, PERIOD, T0), Booted(5, 4, 2 * PERIOD + 170), {}, PERIOD))
  {
    r := StartUp();
    var b := Booted(5, 4, 2 * PERIOD + 170);
    Wakes(3, 0);
    GoesOn(3, 0, T0);
    r := RunsTask(r, IDS, Two(Booted(3, 4, 0), b, {}, 0), 0, POWER, Woken(3, 0));
    r := RunsTask(r, IDS, Two(Woken(3, 0), b, {}, 0), 0, IDLE, Ready(3, 0, T0));
    r := RunsTask(r, IDS, Two(Ready(3, 0, T0), b, {}, PERIOD - SLOT), 0, IDLE, Listens(3, PERIOD, T0));
  }

  lemma SecondSlot() returns (r: NetRun)
    ensures At(r, IDS, Two(Listens(3, 2 * PERIOD, T1), Booted(5, 4, 2 * PERIOD + 170), {}, 2 * PERIOD))
  {
    r := FirstSlot();
    var b := Booted(5, 4, 2 * PERIOD + 170);
    GoesOn(3, PERIOD, T0);
    GoesOn(3, PERIOD, T1);
    r := RunsTask(r, IDS, Two(Listens(3, PERIOD, T0), b, {}, PERIOD), 0, IDLE, Asleep(3, PERIOD, T1));
    r := RunsTask(r, IDS, Two(Asleep(3, PERIOD, T1), b, {}, PERIOD + SLOT), 0, IDLE, Ready(3, PERIOD, T1));
    r := RunsTask(r, IDS, Two(Ready(3, PERIOD, T1), b, {}, 2 * PERIOD - SLOT), 0, IDLE, Listens(3, 2 * PERIOD, T1));
  }

  lemma ThirdSlot() returns (r: NetRun)
    ensures At(r, IDS, Two(Listens(3, 3 * PERIOD, T2), Woken(5, 2 * PERIOD + 170), {}, 3 * PERIOD))
  {
    r := SecondSlot();
    var b, b' := Booted(5, 4, 2 * PERIOD + 170), Woken(5, 2 * PERIOD + 170);
    Wakes(5, 2 * PERIOD + 170);
    GoesOn(3, 2 * PERIOD, T1);
    GoesOn(3, 2 * PERIOD, T2);
    r := RunsTask(r, IDS, Two(Listens(3, 2 * PERIOD, T1), b, {}, 2 * PERIOD), 0, IDLE, Asleep(3, 2 * PERIOD, T2));
    r := RunsTask(r, IDS, Two(Asleep(3, 2 * PERIOD, T2), b, {}, 2 * PERIOD + SLOT), 1, POWER, b');
    r := RunsTask(r, IDS, Two(Asleep(3, 2 * PERIOD, T2), b', {}, 2 * PERIOD + 170), 0, IDLE, Ready(3, 2 * PERIOD, T2));
    r := RunsTask(r, IDS, Two(Ready(3, 2 * PERIOD, T2), b', {}, 3 * PERIOD - SLOT), 0, IDLE, Listens(3, 3 * PERIOD, T2));
  }

  // ----- unit 3 fishes unit 5 -----

  /** Unit 3 about its third trolling session, in slot 4. */
  function Troller(on: bool, listening: bool, task: Task, due: Time, now: Time): Agent {
    Master(3, 3 * PERIOD, T3, on, listening, task, due, now).(fishStart := 3 * PERIOD + 150, fishEnd := 3 * PERIOD + 200)
  }

  lemma Fishes()
    ensures Fire(Listens(3, 3 * PERIOD, T2), FISH) ==
            Ok(Troller(false, false, PreludeWFish, 3 * PERIOD + 100, 3 * PERIOD + 50))
    ensures Fire(Troller(false, false, PreludeWFish, 3 * PERIOD + 100, 3 * PERIOD + 50), IDLE) ==
            Ok(Troller(true, false, FishSlotStart, 3 * PERIOD + 150, 3 * PERIOD + 100))
    ensures Fire(Troller(true, false, FishSlotStart, 3 * PERIOD + 150, 3 * PERIOD + 100), IDLE) ==
            Ok(Troller(true, true, FishSlotEnd, 3 * PERIOD + 200, 3 * PERIOD + 150))
  {
  }

  lemma FishSlotOf3() returns (r: NetRun)
    ensures At(r, IDS, Two(Troller(true, true, FishSlotEnd, 3 * PERIOD + 200, 3 * PERIOD + 150),
                           Ready(5, 2 * PERIOD + 170, T0), {}, 3 * PERIOD + 150))
  {
    r := ThirdSlot();
    var a := Listens(3, 3 * PERIOD, T2);
    var a1 := Troller(false, false, PreludeWFish, 3 * PERIOD + 100, 3 * PERIOD + 50);
    var a2 := Troller(true, false, FishSlotStart, 3 * PERIOD + 150, 3 * PERIOD + 100);
    var a3 := Troller(true, true, FishSlotEnd, 3 * PERIOD + 200, 3 * PERIOD + 150);
    var b, b' := Woken(5, 2 * PERIOD + 170), Ready(5, 2 * PERIOD + 170, T0);
    Fishes();
    Wakes(5, 2 * PERIOD + 170);
    r := RunsTask(r, IDS, Two(a, b, {}, 3 * PERIOD), 0, FISH, a1);
    r := RunsTask(r, IDS, Two(a1, b, {}, 3 * PERIOD + 50), 0, IDLE, a2);
    r := RunsTask(r, IDS, Two(a2, b, {}, 3 * PERIOD + 100), 1, IDLE, b');
    r := RunsTask(r, IDS, Two(a2, b', {}, 3 * PERIOD + 120), 0, IDLE, a3);
  }

  /** Unit 5 about its sync, sent at its first sync point. */
  function Announcer(on: bool, t: Troll, task: Task, due: Time, now: Time): Agent {
    Master(5, 3 * PERIOD + 170, t, on, false, task, due, now).(kind := SendMasterSync)
  }

  const CAUGHT: Flight := Flight(Message(MasterSync, 5, PERIOD - HALF_SLOT, 0), 3 * PERIOD + 195)

  lemma Announces()
    ensures Fire(Ready(5, 2 * PERIOD + 170, T0), SEND) ==
            Ok(Announcer(true, T0, SendSync, 3 * PERIOD + 191, 3 * PERIOD + 170))
    ensures var s := Announcer(true, T0, SendSync, 3 * PERIOD + 191, 3 * PERIOD + 170);
            && Fire(s, IDLE) == Ok(Announcer(true, T0, EndSyncSlotSend, 3 * PERIOD + 220, 3 * PERIOD + 191))
            && Transmission(s, IDLE) == Some(CAUGHT.msg)
    ensures Fire(Announcer(true, T0, EndSyncSlotSend, 3 * PERIOD + 220, 3 * PERIOD + 191), IDLE) ==
            Ok(Announcer(false, T1, PreludeWSync, 4 * PERIOD + 120, 3 * PERIOD + 220))
    ensures Fire(Announcer(false, T1, PreludeWSync, 4 * PERIOD + 120, 3 * PERIOD + 220), IDLE) ==
            Ok(Announcer(true, T1, StartSyncSlotAfterPrelude, 4 * PERIOD + 170, 4 * PERIOD + 120))
    ensures Fire(Announcer(true, T1, StartSyncSlotAfterPrelude, 4 * PERIOD + 170, 4 * PERIOD + 120), IDLE) ==
            Ok(Listens(5, 4 * PERIOD + 170, T1))
  {
  }

  /** Unit 3 once it invites unit 5, with its merge slot 131 ticks after its sync point. */
  function Inviter(start: Time, t: Troll, on: bool, listening: bool, task: Task, due: Time, now: Time, sent: nat): Agent {
    Master(3, start, t, on, listening, task, due, now)
    .(fishStart := 3 * PERIOD + 150, fishEnd := 3 * PERIOD + 200, merge := Merge(Merger, true, 131, 3, 5, MergeOther, sent))
  }

  lemma Catches()
    ensures var s, s' := Troller(true, true, FishSlotEnd, 3 * PERIOD + 200, 3 * PERIOD + 150),
                         Inviter(3 * PERIOD, T3, true, false, FishSlotEnd, 3 * PERIOD + 200, 3 * PERIOD + 195, 0);
            && CanHear(s, CAUGHT.msg, CAUGHT.arrival, 0) && Hear(s, CAUGHT.msg, CAUGHT.arrival, 0) == Ok(s')
            && Fire(s', IDLE) == Ok(Inviter(3 * PERIOD, T3, false, false, PreludeWSync, 4 * PERIOD - 50, 3 * PERIOD + 200, 0))
  {
  }

  lemma CatchOf3() returns (r: NetRun)
    ensures At(r, IDS, Two(Inviter(3 * PERIOD, T3, true, false, FishSlotEnd, 3 * PERIOD + 200, 3 * PERIOD + 195, 0),
                           Announcer(true, T0, EndSyncSlotSend, 3 * PERIOD + 220, 3 * PERIOD + 191),
                           {CAUGHT}, 3 * PERIOD + 195))
  {
    r := FishSlotOf3();
    var a := Troller(true, true, FishSlotEnd, 3 * PERIOD + 200, 3 * PERIOD + 150);
    var a' := Inviter(3 * PERIOD, T3, true, false, FishSlotEnd, 3 * PERIOD + 200, 3 * PERIOD + 195, 0);
    var b := Ready(5, 2 * PERIOD + 170, T0);
    var b1 := Announcer(true, T0, SendSync, 3 * PERIOD + 191, 3 * PERIOD + 170);
    var b2 := Announcer(true, T0, EndSyncSlotSend, 3 * PERIOD + 220, 3 * PERIOD + 191);
    Announces();
    Catches();
    r := RunsTask(r, IDS, Two(a, b, {}, 3 * PERIOD + 150), 1, SEND, b1);
    r := Sends(r, IDS, Two(a, b1, {}, 3 * PERIOD + 170), 1, IDLE, 0, b2, CAUGHT);
    r := Heard(r, IDS, Two(a, b2, {CAUGHT}, 3 * PERIOD + 191), 0, CAUGHT, a');
  }

  // ----- unit 3 invites unit 5 -----

  const T4: Troll := Proceeded(T3)
  const T5: Troll := Proceeded(T4)

  const INVITATION: Flight := Flight(Message(MergeOther, 3, PERIOD - 131, 5), 4 * PERIOD + 185)

  lemma Invites()
    ensures Fire(Inviter(3 * PERIOD, T3, false, false, PreludeWSync, 4 * PERIOD - 50, 3 * PERIOD + 200, 0), IDLE) ==
            Ok(Inviter(3 * PERIOD, T3, true, false, StartSyncSlotAfterPrelude, 4 * PERIOD, 4 * PERIOD - 50, 0))
    ensures Fire(Inviter(3 * PERIOD, T3, true, false, StartSyncSlotAfterPrelude, 4 * PERIOD, 4 * PERIOD - 50, 0), IDLE) ==
            Ok(Inviter(4 * PERIOD, T3, true, true, EndSyncSlotListen, 4 * PERIOD + 50, 4 * PERIOD, 0))
    ensures Fire(Inviter(4 * PERIOD, T3, true, true, EndSyncSlotListen, 4 * PERIOD + 50, 4 * PERIOD, 0), FISH) ==
            Ok(Inviter(4 * PERIOD, T4, true, false, MergerStartAndEnd, 4 * PERIOD + 131, 4 * PERIOD + 50, 0))
    ensures var s := Inviter(4 * PERIOD, T4, true, false, MergerStartAndEnd, 4 * PERIOD + 131, 4 * PERIOD + 50, 0);
            && Fire(s, IDLE) == Ok(Inviter(4 * PERIOD, T4, false, false, PreludeWSync, 5 * PERIOD - 50, 4 * PERIOD + 131, 1))
            && Transmission(s, IDLE) == Some(INVITATION.msg)
  {
  }

  lemma FourthPrelude() returns (r: NetRun)
    ensures At(r, IDS, Two(Inviter(3 * PERIOD, T3, true, false, StartSyncSlotAfterPrelude, 4 * PERIOD, 4 * PERIOD - 50, 0),
                           Announcer(false, T1, PreludeWSync, 4 * PERIOD + 120, 3 * PERIOD + 220), {CAUGHT}, 4 * PERIOD - 50))
  {
    r := CatchOf3();
    var a := Inviter(3 * PERIOD, T3, true, false, FishSlotEnd, 3 * PERIOD + 200, 3 * PERIOD + 195, 0);
    var a1 := Inviter(3 * PERIOD, T3, false, false, PreludeWSync, 4 * PERIOD - 50, 3 * PERIOD + 200, 0);
    var a2 := Inviter(3 * PERIOD, T3, true, false, StartSyncSlotAfterPrelude, 4 * PERIOD, 4 * PERIOD - 50, 0);
    var b := Announcer(true, T0, EndSyncSlotSend, 3 * PERIOD + 220, 3 * PERIOD + 191);
    var b' := Announcer(false, T1, PreludeWSync, 4 * PERIOD + 120, 3 * PERIOD + 220);
    Catches();
    Announces();
    Invites();
    r := RunsTask(r, IDS, Two(a, b, {CAUGHT}, 3 * PERIOD + 195), 0, IDLE, a1);
    r := RunsTask(r, IDS, Two(a1, b, {CAUGHT}, 3 * PERIOD + 200), 1, IDLE, b');
    r := RunsTask(r, IDS, Two(a1, b', {CAUGHT}, 3 * PERIOD + 220), 0, IDLE, a2);
  }

  lemma FourthSlot() returns (r: NetRun)
    ensures At(r, IDS, Two(Inviter(4 * PERIOD, T4, true, false, MergerStartAndEnd, 4 * PERIOD + 131, 4 * PERIOD + 50, 0),
                           Announcer(true, T1, StartSyncSlotAfterPrelude, 4 * PERIOD + 170, 4 * PERIOD + 120),
                           {CAUGHT}, 4 * PERIOD + 120))
  {
    r := FourthPrelude();
    var a := Inviter(3 * PERIOD, T3, true, false, StartSyncSlotAfterPrelude, 4 * PERIOD, 4 * PERIOD - 50, 0);
    var a1 := Inviter(4 * PERIOD, T3, true, true, EndSyncSlotListen, 4 * PERIOD + 50, 4 * PERIOD, 0);
    var a2 := Inviter(4 * PERIOD, T4, true, false, MergerStartAndEnd, 4 * PERIOD + 131, 4 * PERIOD + 50, 0);
    var b := Announcer(false, T1, PreludeWSync, 4 * PERIOD + 120, 3 * PERIOD + 220);
    var b' := Announcer(true, T1, StartSyncSlotAfterPrelude, 4 * PERIOD + 170, 4 * PERIOD + 120);
    Invites();
    Announces();
    r := RunsTask(r, IDS, Two(a, b, {CAUGHT}, 4 * PERIOD - 50), 0, IDLE, a1);
    r := RunsTask(r, IDS, Two(a1, b, {CAUGHT}, 4 * PERIOD), 0, FISH, a2);
    r := RunsTask(r, IDS, Two(a2, b, {CAUGHT}, 4 * PERIOD + 50), 1, IDLE, b');
  }

  const AIR: set<Flight> := {CAUGHT, INVITATION}

  lemma InvitationSent() returns (r: NetRun)
    ensures At(r, IDS, Two(Inviter(4 * PERIOD, T4, false, false, PreludeWSync, 5 * PERIOD - 50, 4 * PERIOD + 131, 1),
                           Listens(5, 4 * PERIOD + 170, T1), AIR, 4 * PERIOD + 170))
  {
    r := FourthSlot();
    var a := Inviter(4 * PERIOD, T4, true, false, MergerStartAndEnd, 4 * PERIOD + 131, 4 * PERIOD + 50, 0);
    var a' := Inviter(4 * PERIOD, T4, false, false, PreludeWSync, 5 * PERIOD - 50, 4 * PERIOD + 131, 1);
    var b := Announcer(true, T1, StartSyncSlotAfterPrelude, 4 * PERIOD + 170, 4 * PERIOD + 120);
    var b' := Listens(5, 4 * PERIOD + 170, T1);
    Invites();
    Announces();
    r := Sends(r, IDS, Two(a, b, {CAUGHT}, 4 * PERIOD + 120), 0, IDLE, 54, a', INVITATION);
    assert {CAUGHT} + {INVITATION} == AIR;
    r := RunsTask(r, IDS, Two(a', b, AIR, 4 * PERIOD + 131), 1, IDLE, b');
  }

  // ----- unit 5 deep fishes for unit 3 -----

  /** Unit 5 once it deep fishes 116 ticks before its sync point. */
  function Invited(t: Troll, on: bool, listening: bool, task: Task, due: Time, now: Time): Agent {
    Master(5, 4 * PERIOD + 170, t, on, listening, task, due, now)
    .(fish := Fish(DeepFishing, 1, PERIOD - 116, EndWithNoAction), session := FishingMode.DeepFishing,
      fishStart := 5 * PERIOD + 54, fishEnd := 5 * PERIOD + 104)
  }

  /** Unit 5 in the rest of the sync slot in which it heard the invitation. */
  function JustInvited(): Agent {
    Listens(5, 4 * PERIOD + 170, T1).(fish := Fish(DeepFishing, 0, PERIOD - 116, EndWithNoAction), now := 4 * PERIOD + 185)
  }

  lemma DeepFishes()
    ensures var s := Listens(5, 4 * PERIOD + 170, T1);
            && CanHear(s, INVITATION.msg, INVITATION.arrival, 0)
            && Hear(s, INVITATION.msg, INVITATION.arrival, 0) == Ok(JustInvited())
    ensures Fire(JustInvited(), FISH) == Ok(Invited(T1, false, false, PreludeWFish, 5 * PERIOD + 4, 4 * PERIOD + 220))
    ensures Fire(Invited(T1, false, false, PreludeWFish, 5 * PERIOD + 4, 4 * PERIOD + 220), IDLE) ==
            Ok(Invited(T1, true, false, FishSlotStart, 5 * PERIOD + 54, 5 * PERIOD + 4))
    ensures Fire(Invited(T1, true, false, FishSlotStart, 5 * PERIOD + 54, 5 * PERIOD + 4), IDLE) ==
            Ok(Invited(T1, true, true, FishSlotEnd, 5 * PERIOD + 104, 5 * PERIOD + 54))
  {
  }

  /** Meanwhile unit 3 sends its next sync, mid slot. */
  lemma InviterSends()
    ensures Fire(Inviter(4 * PERIOD, T4, false, false, PreludeWSync, 5 * PERIOD - 50, 4 * PERIOD + 131, 1), IDLE) ==
            Ok(Inviter(4 * PERIOD, T4, true, false, StartSyncSlotAfterPrelude, 5 * PERIOD, 5 * PERIOD - 50, 1))
    ensures Fire(Inviter(4 * PERIOD, T4, true, false, StartSyncSlotAfterPrelude, 5 * PERIOD, 5 * PERIOD - 50, 1), SEND) ==
            Ok(Inviter(5 * PERIOD, T4, true, false, SendSync, 5 * PERIOD + 21, 5 * PERIOD, 1).(kind := SendMasterSync))
    ensures var s := Inviter(5 * PERIOD, T4, true, false, SendSync, 5 * PERIOD + 21, 5 * PERIOD, 1).(kind := SendMasterSync);
            && Fire(s, IDLE) == Ok(s.(pending := EndSyncSlotSend, due := 5 * PERIOD + 50, now := 5 * PERIOD + 21))
            && Transmission(s, IDLE) == Some(Message(MasterSync, 3, PERIOD - HALF_SLOT, 0))
    ensures var s := Inviter(5 * PERIOD, T4, true, false, EndSyncSlotSend, 5 * PERIOD + 50, 5 * PERIOD + 21, 1).(kind := SendMasterSync);
            Fire(s, IDLE) ==
            Ok(Inviter(5 * PERIOD, T5, false, false, PreludeWSync, 6 * PERIOD - 50, 5 * PERIOD + 50, 1).(kind := SendMasterSync))
  {
  }

  /** Since event h, in which it heard the invitation, unit 5 has kept on deep fishing as its own master. */
  ghost predicate SinceInvited(r: NetRun, h: nat) {
    && h < |r.events| && |r.states| == |r.events| + 1 && r.events[h] == Delivery(1, INVITATION, 0)
    && |r.states[h].agents| == 2 && r.states[h].agents[1] == Listens(5, 4 * PERIOD + 170, T1)
    && forall j :: h < j <= |r.events| ==> StillInvited(r.states[j])
  }

  predicate StillInvited(n: Net) {
    |n.agents| == 2 && n.agents[1].fish.mode == DeepFishing && n.agents[1].clique.master == 5
  }

  lemma StaysInvited(r: NetRun, h: nat, ev: NetEvent, n': Net, r': NetRun)
    requires SinceInvited(r, h) && StillInvited(n')
    requires r'.states == r.states + [n'] && r'.events == r.events + [ev]
    ensures SinceInvited(r', h)
  {
    forall j | h < j <= |r'.events|
      ensures StillInvited(r'.states[j])
    {
      assert j <= |r.events| ==> r'.states[j] == r.states[j];
    }
  }

  /** A task by which unit 5 goes on so. */
  lemma Next(r: NetRun, h: nat, n: Net, i: nat, e: Env, s': Agent) returns (r': NetRun)
    requires At(r, IDS, n) && i < 2 == |n.agents| && InTime(n, i, n.agents[i].due) && SinceInvited(r, h)
    requires e.Legal() && e.scatter.None? && Fire(n.agents[i], e) == Ok(s') && Transmission(n.agents[i], e) == None
    requires s'.clique == n.agents[i].clique && StillInvited(n) && (i == 1 ==> s'.fish.mode == DeepFishing)
    ensures At(r', IDS, n.(agents := n.agents[i := s'], now := n.agents[i].due)) && SinceInvited(r', h)
  {
    r' := RunsTask(r, IDS, n, i, e, s');
    StaysInvited(r, h, TaskOf(i, e, 0), n.(agents := n.agents[i := s'], now := n.agents[i].due), r');
  }

  lemma InvitationHeard() returns (r: NetRun, h: nat)
    ensures At(r, IDS, Two(Inviter(4 * PERIOD, T4, false, false, PreludeWSync, 5 * PERIOD - 50, 4 * PERIOD + 131, 1),
                           JustInvited(), AIR, 4 * PERIOD + 185))
    ensures SinceInvited(r, h)
  {
    var r0 := InvitationSent();
    var a := Inviter(4 * PERIOD, T4, false, false, PreludeWSync, 5 * PERIOD - 50, 4 * PERIOD + 131, 1);
    var n := Two(a, Listens(5, 4 * PERIOD + 170, T1), AIR, 4 * PERIOD + 170);
    DeepFishes();
    r := Heard(r0, IDS, n, 1, INVITATION, JustInvited());
    h := |r0.events|;
    assert r.states[h] == n && r.events[h] == Delivery(1, INVITATION, 0);
  }

  lemma FifthSlot() returns (r: NetRun, h: nat)
    ensures At(r, IDS, Two(Inviter(5 * PERIOD, T4, true, false, SendSync, 5 * PERIOD + 21, 5 * PERIOD, 1).(kind := SendMasterSync),
                           Invited(T1, false, false, PreludeWFish, 5 * PERIOD + 4, 4 * PERIOD + 220), AIR, 5 * PERIOD))
    ensures SinceInvited(r, h)
  {
    r, h := InvitationHeard();
    var a := Inviter(4 * PERIOD, T4, false, false, PreludeWSync, 5 * PERIOD - 50, 4 * PERIOD + 131, 1);
    var a1 := Inviter(4 * PERIOD, T4, true, false, StartSyncSlotAfterPrelude, 5 * PERIOD, 5 * PERIOD - 50, 1);
    var a2 := Inviter(5 * PERIOD, T4, true, false, SendSync, 5 * PERIOD + 21, 5 * PERIOD, 1).(kind := SendMasterSync);
    var b, b' := JustInvited(), Invited(T1, false, false, PreludeWFish, 5 * PERIOD + 4, 4 * PERIOD + 220);
    DeepFishes();
    InviterSends();
    r := Next(r, h, Two(a, b, AIR, 4 * PERIOD + 185), 1, FISH, b');
    r := Next(r, h, Two(a, b', AIR, 4 * PERIOD + 220), 0, IDLE, a1);
    r := Next(r, h, Two(a1, b', AIR, 5 * PERIOD - 50), 0, SEND, a2);
  }

  const ANNOUNCED: Flight := Flight(Message(MasterSync, 3, PERIOD - HALF_SLOT, 0), 5 * PERIOD + 25)

  lemma SyncSent() returns (r: NetRun, h: nat)
    ensures At(r, IDS, Two(Inviter(5 * PERIOD, T4, true, false, EndSyncSlotSend, 5 * PERIOD + 50, 5 * PERIOD + 21, 1).(kind := SendMasterSync),
                           Invited(T1, true, false, FishSlotStart, 5 * PERIOD + 54, 5 * PERIOD + 4),
                           AIR + {ANNOUNCED}, 5 * PERIOD + 21))
    ensures SinceInvited(r, h)
  {
    var r0;
    r0, h := FifthSlot();
    var a := Inviter(5 * PERIOD, T4, true, false, SendSync, 5 * PERIOD + 21, 5 * PERIOD, 1).(kind := SendMasterSync);
    var a' := Inviter(5 * PERIOD, T4, true, false, EndSyncSlotSend, 5 * PERIOD + 50, 5 * PERIOD + 21, 1).(kind := SendMasterSync);
    var b := Invited(T1, false, false, PreludeWFish, 5 * PERIOD + 4, 4 * PERIOD + 220);
    var b' := Invited(T1, true, false, FishSlotStart, 5 * PERIOD + 54, 5 * PERIOD + 4);
    DeepFishes();
    InviterSends();
    r0 := Next(r0, h, Two(a, b, AIR, 5 * PERIOD), 1, IDLE, b');
    var n := Two(a', b', AIR + {ANNOUNCED}, 5 * PERIOD + 21);
    r := Sends(r0, IDS, Two(a, b', AIR, 5 * PERIOD + 4), 0, IDLE, 0, a', ANNOUNCED);
    assert [a, b'][0 := a'] == n.agents;
    StaysInvited(r0, h, TaskOf(0, IDLE, 0), n, r);
  }

  function Final(): Net {
    Two(Inviter(5 * PERIOD, T5, false, false, PreludeWSync, 6 * PERIOD - 50, 5 * PERIOD + 50, 1).(kind := SendMasterSync),
        Invited(T1, true, true, FishSlotEnd, 5 * PERIOD + 104, 5 * PERIOD + 54),
        AIR + {ANNOUNCED}, 5 * PERIOD + 54)
  }

  lemma DeepSession() returns (r: NetRun, h: nat)
    ensures At(r, IDS, Final())
    ensures SinceInvited(r, h)
  {
    r, h := SyncSent();
    var a := Inviter(5 * PERIOD, T4, true, false, EndSyncSlotSend, 5 * PERIOD + 50, 5 * PERIOD + 21, 1).(kind := SendMasterSync);
    var a' := Inviter(5 * PERIOD, T5, false, false, PreludeWSync, 6 * PERIOD - 50, 5 * PERIOD + 50, 1).(kind := SendMasterSync);
    var b := Invited(T1, true, false, FishSlotStart, 5 * PERIOD + 54, 5 * PERIOD + 4);
    var b' := Invited(T1, true, true, FishSlotEnd, 5 * PERIOD + 104, 5 * PERIOD + 54);
    DeepFishes();
    InviterSends();
    r := Next(r, h, Two(a, b, AIR + {ANNOUNCED}, 5 * PERIOD + 21), 0, IDLE, a');
    r := Next(r, h, Two(a', b, AIR + {ANNOUNCED}, 5 * PERIOD + 50), 1, IDLE, b');
  }

  /** The session misses every sync that arrives mid slot by the sync point of unit 3. */
  ghost predicate MissesSync(n: Net, phase: Time) {
    && |n.agents| == 2 && InUnclampedDeepSession(n.agents[1])
    && n.agents[1].listening && n.agents[1].now == n.agents[1].due - SLOT
    && !SessionMeets(n.agents[1], phase)
    && exists f :: f in n.air && f.msg.kind == MasterSync && f.msg.master == 3 && f.arrival == n.agents[1].now - 29
  }

  lemma FinalMissesSync(phase: Time)
    requires Congruent(6 * PERIOD, phase)
    ensures MissesSync(Final(), phase)
  {
    forall t: Time | 5 * PERIOD + 54 <= t <= 5 * PERIOD + 104
      ensures !SyncArrives(t, phase)
    {
      assert 0 < t - (5 * PERIOD + HALF_SLOT) < PERIOD;
      NotCongruent(t, 5 * PERIOD + HALF_SLOT, phase + HALF_SLOT);
    }
    assert ANNOUNCED in Final().air;
  }

  lemma NotCongruent(t: Time, a: Time, b: Time)
    requires Congruent(a + PERIOD, b) && 0 < t - a < PERIOD
    ensures !Congruent(t, b)
  {
    assert t - b == (a + PERIOD - b) + (t - a) - PERIOD;
  }

  lemma PhaseOf3(r: NetRun)
    requires At(r, IDS, Final())
    ensures 3 in InitialPhases(r.states[0], IDS) && Congruent(6 * PERIOD, InitialPhases(r.states[0], IDS)[3])
  {
    InviterAtFinal();
    UnitInPhaseInRun(r, IDS, |r.events|, 0);
  }

  lemma InviterAtFinal()
    ensures |Final().agents| == 2 && Final().agents[0].clique.master == 3 && Final().agents[0].period.end == 6 * PERIOD
  {
  }

  /** On a run, a unit stays in the clique in which it heard an invitation, deep fishes, and the session now
      listening, clamped by nothing, meets no sync of the clique that invited it; while one is in the air
      that arrived 29 ticks before the session began. */
  lemma InvitationCanMiss() returns (r: NetRun, h: nat)
    ensures IsJoiningRun(r, IDS) && h < |r.events| && AimsFrom(r, IDS, h, |r.events|, 1)
    ensures r.events[h].flight.msg.kind == MergeOther && r.events[h].flight.msg.master == 3
    ensures 3 in InitialPhases(r.states[0], IDS)
    ensures MissesSync(r.states[|r.events|], InitialPhases(r.states[0], IDS)[3])
  {
    r, h := DeepSession();
    PhaseOf3(r);
    FinalMissesSync(InitialPhases(r.states[0], IDS)[3]);
    Aimed(r, h);
  }

  lemma Aimed(r: NetRun, h: nat)
    requires IsJoiningRun(r, IDS) && SinceInvited(r, h)
    requires StillInvited(r.states[|r.events|])
    ensures AimsFrom(r, IDS, h, |r.events|, 1)
  {
    assert forall j :: h < j <= |r.events| ==> StillInvited(r.states[j]);
  }
}
