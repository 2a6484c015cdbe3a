/** A run of three units at the end of which a slave that lost its master disagrees with its own former
    slave.  Unit 9 joins 5, and sleeps through its sync slots for want of power; 5 joins 3, which then
    does the same; 5 hears no more syncs, drops out, and is its own master again at 3's sync point. */
module Disagreement {
  import opened Parameters
  import opened Outcomes
  import opened Schedules
  import opened Messages
  import opened Cliques
  import opened Trolling
  import opened Merging
  import opened Fishing
  import opened TaskMachine
  import opened Network
  import opened Scripts

  const IDS: seq<SystemID> := [5, 9, 3]

  /** The three units, none halted. */
  function Three(a: Agent, b: Agent, c: Agent, air: set<Flight>, now: Time): Net {
    Net([a, b, c], {}, air, now)
  }

  // ----- the states of a unit that never fished -----

  function Unit(c: Clique, p: Period, t: Troll, mode: Mode, kind: SlotKind, on: bool, listening: bool,
                task: Task, due: Time, now: Time): Agent
  {
    Agent(4, c, p, t, INITIAL_FISH, INITIAL_MERGE, mode, false, kind, on, listening, 0, 0, FishingMode.Trolling,
          task, due, now)
  }

  /** Asleep until the prelude to the sync slot after a given period. */
  function Asleep(c: Clique, p: Period, t: Troll, kind: SlotKind, now: Time): Agent {
    Unit(c, p, t, SyncOnly, kind, false, false, PreludeWSync, p.end - SLOT, now)
  }

  function Ready(c: Clique, p: Period, t: Troll, kind: SlotKind): Agent {
    Unit(c, p, t, SyncOnly, kind, true, false, StartSyncSlotAfterPrelude, p.end, p.end - SLOT)
  }

  function Listens(c: Clique, start: Time, t: Troll): Agent {
    Unit(c, Normal(start), t, SyncOnly, Listen, true, true, EndSyncSlotListen, start + SLOT, start)
  }

  function Transmits(c: Clique, start: Time, t: Troll): Agent {
    Unit(c, Normal(start), t, SyncOnly, SendMasterSync, true, false, SendSync, start + 21, start)
  }

  function HasSent(c: Clique, start: Time, t: Troll): Agent {
    Transmits(c, start, t).(pending := EndSyncSlotSend, due := start + SLOT, now := start + 21)
  }

  function Announcement(master: SystemID, start: Time): Flight {
    Flight(Message(MasterSync, master, PERIOD - HALF_SLOT, 0), start + HALF_SLOT)
  }

  const T0: Troll := INITIAL_TROLL
  const T1: Troll := Proceeded(INITIAL_TROLL)

  lemma Wakes(self: SystemID, start: Time)
    ensures Fire(Booted(self, 4, start), POWER) == Ok(Asleep(Founded(self), Normal(start), T0, Listen, start))
  {
  }

  lemma Prepares(c: Clique, p: Period, t: Troll, kind: SlotKind, now: Time)
    requires t == T0 || t == T1
    ensures Fire(Asleep(c, p, t, kind, now), POWER) == Ok(Ready(c, p, t, kind))
    ensures Fire(Ready(c, p, t, kind), POWER) == Ok(Listens(c, p.end, t))
    ensures c.IsSelfMaster() ==> Fire(Ready(c, p, t, kind), SEND) == Ok(Transmits(c, p.end, t))
  {
  }

  lemma Announces(self: SystemID, start: Time)
    ensures var c, s := Founded(self), Transmits(Founded(self), start, T0);
            && Fire(s, POWER) == Ok(HasSent(c, start, T0))
            && Transmission(s, POWER) == Some(Announcement(self, start).msg)
            && Fire(HasSent(c, start, T0), POWER) == Ok(Asleep(c, Normal(start), T1, SendMasterSync, start + SLOT))
  {
  }

  /** A unit in its sync slot joins the better clique of a unit whose period began `late` after its own. */
  function Follows(self: SystemID, master: SystemID, start: Time, late: nat, t: Troll): Agent {
    Listens(Joined(Founded(self), master), start, t)
    .(period := Normal(start).(end := start + PERIOD + late), listening := false, now := start + late + HALF_SLOT)
  }

  lemma JoinsOnHearing(self: SystemID, master: SystemID, start: Time, late: nat, t: Troll)
    requires master < self && late <= HALF_SLOT
    ensures var s, f := Listens(Founded(self), start, t), Announcement(master, start + late);
            CanHear(s, f.msg, f.arrival, 0) && Hear(s, f.msg, f.arrival, 0) == Ok(Follows(self, master, start, late, t))
  {
  }

  lemma StartUp() returns (r: NetRun)
    ensures At(r, IDS, Three(Booted(5, 4, 10), Booted(9, 4, 0), Booted(3, 4, PERIOD + 30), {}, 0))
  {
    assert IsLatency(4);
    r := NetRun([Three(Booted(5, 4, 10), Booted(9, 4, 0), Booted(3, 4, PERIOD + 30), {}, 0)], []);
  }

  lemma FirstTasks() returns (r: NetRun)
    ensures At(r, IDS, Three(Asleep(Founded(5), Normal(10), T0, Listen, 10), Asleep(Founded(9), Normal(0), T0, Listen, 0),
                        Booted(3, 4, PERIOD + 30), {}, 10))
  {
    r := StartUp();
    var a, b, c := Booted(5, 4, 10), Booted(9, 4, 0), Booted(3, 4, PERIOD + 30);
    var a', b' := Asleep(Founded(5), Normal(10), T0, Listen, 10), Asleep(Founded(9), Normal(0), T0, Listen, 0);
    Wakes(5, 10);
    Wakes(9, 0);
    r := RunsTask(r, IDS, Three(a, b, c, {}, 0), 1, POWER, b');
    r := RunsTask(r, IDS, Three(a, b', c, {}, 0), 0, POWER, a');
  }

  lemma FirstPreludes() returns (r: NetRun)
    ensures At(r, IDS, Three(Ready(Founded(5), Normal(10), T0, Listen), Ready(Founded(9), Normal(0), T0, Listen),
                        Booted(3, 4, PERIOD + 30), {}, PERIOD - 40))
  {
    r := FirstTasks();
    var a, b := Asleep(Founded(5), Normal(10), T0, Listen, 10), Asleep(Founded(9), Normal(0), T0, Listen, 0);
    var a', b' := Ready(Founded(5), Normal(10), T0, Listen), Ready(Founded(9), Normal(0), T0, Listen);
    var c := Booted(3, 4, PERIOD + 30);
    Prepares(Founded(5), Normal(10), T0, Listen, 10);
    Prepares(Founded(9), Normal(0), T0, Listen, 0);
    r := RunsTask(r, IDS, Three(a, b, c, {}, 10), 1, POWER, b');
    r := RunsTask(r, IDS, Three(a, b', c, {}, PERIOD - 50), 0, POWER, a');
  }

  lemma FirstSlots() returns (r: NetRun)
    ensures At(r, IDS, Three(Transmits(Founded(5), PERIOD + 10, T0), Listens(Founded(9), PERIOD, T0),
                        Booted(3, 4, PERIOD + 30), {}, PERIOD + 10))
  {
    r := FirstPreludes();
    var a, b, c := Ready(Founded(5), Normal(10), T0, Listen), Ready(Founded(9), Normal(0), T0, Listen), Booted(3, 4, PERIOD + 30);
    var a1, b1 := Transmits(Founded(5), PERIOD + 10, T0), Listens(Founded(9), PERIOD, T0);
    Prepares(Founded(5), Normal(10), T0, Listen, 10);
    Prepares(Founded(9), Normal(0), T0, Listen, 0);
    r := RunsTask(r, IDS, Three(a, b, c, {}, PERIOD - 40), 1, POWER, b1);
    r := RunsTask(r, IDS, Three(a, b1, c, {}, PERIOD), 0, SEND, a1);
  }

  /** Unit 9 joins 5. */
  lemma FirstJoin() returns (r: NetRun)
    ensures At(r, IDS, Three(HasSent(Founded(5), PERIOD + 10, T0), Follows(9, 5, PERIOD, 10, T0),
                        Asleep(Founded(3), Normal(PERIOD + 30), T0, Listen, PERIOD + 30),
                        {Announcement(5, PERIOD + 10)}, PERIOD + 35))
  {
    r := FirstSlots();
    var a, a' := Transmits(Founded(5), PERIOD + 10, T0), HasSent(Founded(5), PERIOD + 10, T0);
    var b, b' := Listens(Founded(9), PERIOD, T0), Follows(9, 5, PERIOD, 10, T0);
    var c, f := Asleep(Founded(3), Normal(PERIOD + 30), T0, Listen, PERIOD + 30), Announcement(5, PERIOD + 10);
    Wakes(3, PERIOD + 30);
    Announces(5, PERIOD + 10);
    JoinsOnHearing(9, 5, PERIOD, 10, T0);
    r := RunsTask(r, IDS, Three(a, b, Booted(3, 4, PERIOD + 30), {}, PERIOD + 10), 2, POWER, c);
    r := Sends(r, IDS, Three(a, b, c, {}, PERIOD + 30), 0, POWER, 0, a', f);
    r := Heard(r, IDS, Three(a', b, c, {f}, PERIOD + 31), 1, f, b');
  }

  /** Unit 9 after the sync slot in which it joined, and asleep for want of power from its next one on. */
  function Follower(): Clique {
    Joined(Founded(9), 5).(missed := 1)
  }

  const FIRST_AIR: set<Flight> := {Announcement(5, PERIOD + 10)}
  const AIR: set<Flight> := FIRST_AIR + {Announcement(3, 2 * PERIOD + 30)}

  function Extended(): Period {
    Normal(PERIOD).(end := 2 * PERIOD + 10)
  }

  function Doze(c: Clique, start: Time): Agent {
    Unit(c, Normal(start), T1, Maintain, Listen, false, false, StartSyncPeriodMaintain, start + PERIOD, start)
  }

  lemma FollowerDozes()
    ensures Fire(Follows(9, 5, PERIOD, 10, T0), POWER) == Ok(Asleep(Follower(), Extended(), T1, Listen, PERIOD + SLOT))
    ensures Fire(Asleep(Follower(), Extended(), T1, Listen, PERIOD + SLOT), LOW) ==
            Ok(Ready(Follower(), Extended(), T1, Listen).(mode := Maintain))
    ensures Fire(Ready(Follower(), Extended(), T1, Listen).(mode := Maintain), LOW) == Ok(Doze(Follower(), 2 * PERIOD + 10))
  {
  }

  lemma EndOfFirstSlots() returns (r: NetRun)
    ensures At(r, IDS, Three(Asleep(Founded(5), Normal(PERIOD + 10), T1, SendMasterSync, PERIOD + 60),
                        Ready(Follower(), Extended(), T1, Listen).(mode := Maintain),
                        Asleep(Founded(3), Normal(PERIOD + 30), T0, Listen, PERIOD + 30),
                        FIRST_AIR, 2 * PERIOD - 40))
  {
    r := FirstJoin();
    var a, a' := HasSent(Founded(5), PERIOD + 10, T0), Asleep(Founded(5), Normal(PERIOD + 10), T1, SendMasterSync, PERIOD + 60);
    var b, b1 := Follows(9, 5, PERIOD, 10, T0), Asleep(Follower(), Extended(), T1, Listen, PERIOD + SLOT);
    var b2 := Ready(Follower(), Extended(), T1, Listen).(mode := Maintain);
    var c := Asleep(Founded(3), Normal(PERIOD + 30), T0, Listen, PERIOD + 30);
    FollowerDozes();
    Announces(5, PERIOD + 10);
    r := RunsTask(r, IDS, Three(a, b, c, FIRST_AIR, PERIOD + 35), 1, POWER, b1);
    r := RunsTask(r, IDS, Three(a, b1, c, FIRST_AIR, PERIOD + 50), 0, POWER, a');
    r := RunsTask(r, IDS, Three(a', b1, c, FIRST_AIR, PERIOD + 60), 1, LOW, b2);
  }

  lemma SecondPreludes() returns (r: NetRun)
    ensures At(r, IDS, Three(Listens(Founded(5), 2 * PERIOD + 10, T1),
                        Ready(Follower(), Extended(), T1, Listen).(mode := Maintain),
                        Ready(Founded(3), Normal(PERIOD + 30), T0, Listen), FIRST_AIR, 2 * PERIOD + 10))
  {
    r := EndOfFirstSlots();
    var a, a1 := Asleep(Founded(5), Normal(PERIOD + 10), T1, SendMasterSync, PERIOD + 60),
                 Ready(Founded(5), Normal(PERIOD + 10), T1, SendMasterSync);
    var a2, b := Listens(Founded(5), 2 * PERIOD + 10, T1), Ready(Follower(), Extended(), T1, Listen).(mode := Maintain);
    var c, c' := Asleep(Founded(3), Normal(PERIOD + 30), T0, Listen, PERIOD + 30),
                 Ready(Founded(3), Normal(PERIOD + 30), T0, Listen);
    Prepares(Founded(5), Normal(PERIOD + 10), T1, SendMasterSync, PERIOD + 60);
    Prepares(Founded(3), Normal(PERIOD + 30), T0, Listen, PERIOD + 30);
    r := RunsTask(r, IDS, Three(a, b, c, FIRST_AIR, 2 * PERIOD - 40), 0, POWER, a1);
    r := RunsTask(r, IDS, Three(a1, b, c, FIRST_AIR, 2 * PERIOD - 40), 2, POWER, c');
    r := RunsTask(r, IDS, Three(a1, b, c', FIRST_AIR, 2 * PERIOD - 20), 0, POWER, a2);
  }

  lemma SecondSlots() returns (r: NetRun)
    ensures At(r, IDS, Three(Listens(Founded(5), 2 * PERIOD + 10, T1), Doze(Follower(), 2 * PERIOD + 10),
                        Transmits(Founded(3), 2 * PERIOD + 30, T0), FIRST_AIR, 2 * PERIOD + 30))
  {
    r := SecondPreludes();
    var a := Listens(Founded(5), 2 * PERIOD + 10, T1);
    var b, b' := Ready(Follower(), Extended(), T1, Listen).(mode := Maintain), Doze(Follower(), 2 * PERIOD + 10);
    var c, c' := Ready(Founded(3), Normal(PERIOD + 30), T0, Listen), Transmits(Founded(3), 2 * PERIOD + 30, T0);
    FollowerDozes();
    Prepares(Founded(3), Normal(PERIOD + 30), T0, Listen, PERIOD + 30);
    r := RunsTask(r, IDS, Three(a, b, c, FIRST_AIR, 2 * PERIOD + 10), 1, LOW, b');
    r := RunsTask(r, IDS, Three(a, b', c, FIRST_AIR, 2 * PERIOD + 10), 2, SEND, c');
  }

  /** Unit 5 joins 3, at a sync point 20 ticks later than that of 9. */
  lemma SecondJoin() returns (r: NetRun)
    ensures At(r, IDS, Three(Follows(5, 3, 2 * PERIOD + 10, 20, T1), Doze(Follower(), 2 * PERIOD + 10),
                        HasSent(Founded(3), 2 * PERIOD + 30, T0), AIR, 2 * PERIOD + 55))
  {
    r := SecondSlots();
    var a, a' := Listens(Founded(5), 2 * PERIOD + 10, T1), Follows(5, 3, 2 * PERIOD + 10, 20, T1);
    var b, f := Doze(Follower(), 2 * PERIOD + 10), Announcement(3, 2 * PERIOD + 30);
    var c, c' := Transmits(Founded(3), 2 * PERIOD + 30, T0), HasSent(Founded(3), 2 * PERIOD + 30, T0);
    Announces(3, 2 * PERIOD + 30);
    JoinsOnHearing(5, 3, 2 * PERIOD + 10, 20, T1);
    r := Sends(r, IDS, Three(a, b, c, FIRST_AIR, 2 * PERIOD + 30), 2, POWER, 0, c', f);
    r := Heard(r, IDS, Three(a, b, c', AIR, 2 * PERIOD + 51), 0, f, a');
  }

  // ----- the periods without a sync -----

  predicate Dozing(s: Agent) {
    && s.mode == Maintain && s.pending == StartSyncPeriodMaintain && s.merge.role == NoFishing && s.due == s.period.end
  }

  lemma DozesOn(s: Agent)
    requires Dozing(s)
    ensures Fire(s, LOW).Ok? && Transmission(s, LOW) == None
    ensures var s' := Fire(s, LOW).value; Dozing(s') && s'.clique == s.clique && s'.due == s.due + PERIOD
  {
  }

  /** A slave that listens in its sync slot. */
  predicate Waiting(s: Agent, missed: nat) {
    && s.pending == EndSyncSlotListen && s.mode == SyncOnly && s.merge.role == NoFishing && s.fish.mode == Trolling
    && s.clique == Joined(Founded(5), 3).(missed := missed) && s.period.Unadjusted() && s.due == s.period.start + SLOT
  }

  /** Unit 5 at the end of a sync slot, at the prelude to the next, and at its start. */
  lemma WaitsOn(s: Agent, missed: nat)
    requires Waiting(s, missed) && missed < MAX_MISSED_SYNCS
    ensures Fire(s, POWER).Ok?
    ensures var s1 := Fire(s, POWER).value;
            && Transmission(s, POWER) == Transmission(s1, POWER) == None && Fire(s1, POWER).Ok?
            && s1.due == s.period.end - SLOT && !s1.clique.IsSelfMaster()
            && var s2 := Fire(s1, POWER).value;
               && Transmission(s2, POWER) == None && Fire(s2, POWER).Ok?
               && s2.due == s.period.end && !s2.clique.IsSelfMaster()
               && var s3 := Fire(s2, POWER).value;
                  Waiting(s3, missed + 1) && s3.period.start == s.period.end
  {
  }

  /** Between sync slots of unit 5: it has missed so many syncs, and the others doze. */
  predicate Round(n: Net, missed: nat) {
    && |n.agents| == 3 && n.halted == {}
    && Waiting(n.agents[0], missed) && Dozing(n.agents[1]) && Dozing(n.agents[2])
    && n.agents[1].clique.master == 5 && n.agents[1].clique.self == 9 && n.agents[2].clique.IsSelfMaster()
    && var start := n.agents[0].period.start;
       n.now <= start + SLOT && n.agents[1].due == start + PERIOD - 20 && n.agents[2].due == start + PERIOD
  }

  lemma HalfRound(r: NetRun, n: Net, missed: nat) returns (r': NetRun)
    requires At(r, IDS, n) && Round(n, missed) && missed < MAX_MISSED_SYNCS
    ensures var a, b, c := n.agents[0], n.agents[1], n.agents[2];
            var a1 := Fire(a, POWER).value;
            At(r', IDS, Three(Fire(a1, POWER).value, b, c, n.air, a1.due))
  {
    var a, b, c := n.agents[0], n.agents[1], n.agents[2];
    WaitsOn(a, missed);
    var a1 := Fire(a, POWER).value;
    assert n == Three(a, b, c, n.air, n.now);
    r' := RunsTask(r, IDS, n, 0, POWER, a1);
    r' := RunsTask(r', IDS, Three(a1, b, c, n.air, a.due), 0, POWER, Fire(a1, POWER).value);
  }

  lemma NextRound(r: NetRun, n: Net, missed: nat) returns (r': NetRun, n': Net)
    requires At(r, IDS, n) && Round(n, missed) && missed < MAX_MISSED_SYNCS
    ensures At(r', IDS, n') && Round(n', missed + 1)
  {
    var a, b, c := n.agents[0], n.agents[1], n.agents[2];
    WaitsOn(a, missed);
    DozesOn(b);
    DozesOn(c);
    var a1 := Fire(a, POWER).value;
    var a2 := Fire(a1, POWER).value;
    var a3, b', c' := Fire(a2, POWER).value, Fire(b, LOW).value, Fire(c, LOW).value;
    r' := HalfRound(r, n, missed);
    r' := RunsTask(r', IDS, Three(a2, b, c, n.air, a1.due), 1, LOW, b');
    r' := RunsTask(r', IDS, Three(a2, b', c, n.air, b.due), 0, POWER, a3);
    r' := RunsTask(r', IDS, Three(a3, b', c, n.air, a2.due), 2, LOW, c');
    n' := Three(a3, b', c', n.air, c.due);
  }

  lemma {:induction false} Rounds(r: NetRun, n: Net, missed: nat) returns (r': NetRun, n': Net)
    requires At(r, IDS, n) && Round(n, missed) && missed <= MAX_MISSED_SYNCS
    ensures At(r', IDS, n') && Round(n', MAX_MISSED_SYNCS)
    decreases MAX_MISSED_SYNCS - missed
  {
    if missed == MAX_MISSED_SYNCS {
      r', n' := r, n;
    } else {
      r', n' := NextRound(r, n, missed);
      r', n' := Rounds(r', n', missed + 1);
    }
  }

  /** Unit 3 goes to sleep too. */
  lemma MasterDozes()
    ensures Fire(Asleep(Founded(3), Normal(2 * PERIOD + 30), T1, SendMasterSync, 2 * PERIOD + 80), LOW) ==
            Ok(Ready(Founded(3), Normal(2 * PERIOD + 30), T1, SendMasterSync).(mode := Maintain))
    ensures Fire(Ready(Founded(3), Normal(2 * PERIOD + 30), T1, SendMasterSync).(mode := Maintain), LOW) ==
            Ok(Doze(Founded(3), 3 * PERIOD + 30).(kind := SendMasterSync))
  {
  }

  /** Unit 5 after the sync slot in which it joined 3. */
  function Slave(): Clique {
    Joined(Founded(5), 3).(missed := 1)
  }

  function JoinedPeriod(): Period {
    Normal(2 * PERIOD + 10).(end := 3 * PERIOD + 30)
  }

  const T2: Troll := Proceeded(T1)

  lemma SlaveWaits()
    ensures Fire(Follows(5, 3, 2 * PERIOD + 10, 20, T1), POWER) ==
            Ok(Asleep(Slave(), JoinedPeriod(), T2, Listen, 2 * PERIOD + 60))
    ensures Fire(Asleep(Slave(), JoinedPeriod(), T2, Listen, 2 * PERIOD + 60), POWER) ==
            Ok(Ready(Slave(), JoinedPeriod(), T2, Listen))
    ensures Fire(Ready(Slave(), JoinedPeriod(), T2, Listen), POWER) == Ok(Listens(Slave(), 3 * PERIOD + 30, T2))
  {
  }

  lemma EndOfSecondSlots() returns (r: NetRun)
    ensures At(r, IDS, Three(Asleep(Slave(), JoinedPeriod(), T2, Listen, 2 * PERIOD + 60), Doze(Follower(), 2 * PERIOD + 10),
                        Ready(Founded(3), Normal(2 * PERIOD + 30), T1, SendMasterSync).(mode := Maintain),
                        AIR, 3 * PERIOD - 20))
  {
    r := SecondJoin();
    var a, a' := Follows(5, 3, 2 * PERIOD + 10, 20, T1), Asleep(Slave(), JoinedPeriod(), T2, Listen, 2 * PERIOD + 60);
    var b, c := Doze(Follower(), 2 * PERIOD + 10), HasSent(Founded(3), 2 * PERIOD + 30, T0);
    var c1 := Asleep(Founded(3), Normal(2 * PERIOD + 30), T1, SendMasterSync, 2 * PERIOD + 80);
    var c2 := Ready(Founded(3), Normal(2 * PERIOD + 30), T1, SendMasterSync).(mode := Maintain);
    SlaveWaits();
    Announces(3, 2 * PERIOD + 30);
    MasterDozes();
    r := RunsTask(r, IDS, Three(a, b, c, AIR, 2 * PERIOD + 55), 0, POWER, a');
    r := RunsTask(r, IDS, Three(a', b, c, AIR, 2 * PERIOD + 60), 2, POWER, c1);
    r := RunsTask(r, IDS, Three(a', b, c1, AIR, 2 * PERIOD + 80), 2, LOW, c2);
  }

  lemma ThirdPrelude() returns (r: NetRun, b: Agent)
    ensures Dozing(b) && b.clique == Follower() && b.due == 4 * PERIOD + 10
    ensures At(r, IDS, Three(Ready(Slave(), JoinedPeriod(), T2, Listen), b,
                        Ready(Founded(3), Normal(2 * PERIOD + 30), T1, SendMasterSync).(mode := Maintain),
                        AIR, 3 * PERIOD + 10))
  {
    r := EndOfSecondSlots();
    var a, a' := Asleep(Slave(), JoinedPeriod(), T2, Listen, 2 * PERIOD + 60), Ready(Slave(), JoinedPeriod(), T2, Listen);
    var b0, c := Doze(Follower(), 2 * PERIOD + 10),
                 Ready(Founded(3), Normal(2 * PERIOD + 30), T1, SendMasterSync).(mode := Maintain);
    SlaveWaits();
    DozesOn(b0);
    b := Fire(b0, LOW).value;
    r := RunsTask(r, IDS, Three(a, b0, c, AIR, 3 * PERIOD - 20), 0, POWER, a');
    r := RunsTask(r, IDS, Three(a', b0, c, AIR, 3 * PERIOD - 20), 1, LOW, b);
  }

  lemma ThirdSlots() returns (r: NetRun, n: Net)
    ensures At(r, IDS, n) && Round(n, 1)
  {
    var b;
    r, b := ThirdPrelude();
    var a0, a := Ready(Slave(), JoinedPeriod(), T2, Listen), Listens(Slave(), 3 * PERIOD + 30, T2);
    var c := Ready(Founded(3), Normal(2 * PERIOD + 30), T1, SendMasterSync).(mode := Maintain);
    var c' := Doze(Founded(3), 3 * PERIOD + 30).(kind := SendMasterSync);
    SlaveWaits();
    MasterDozes();
    r := RunsTask(r, IDS, Three(a0, b, c, AIR, 3 * PERIOD + 10), 0, POWER, a);
    r := RunsTask(r, IDS, Three(a, b, c, AIR, 3 * PERIOD + 30), 2, LOW, c');
    n := Three(a, b, c', AIR, 3 * PERIOD + 30);
  }

  /** Unit 5 drops out. */
  lemma DropsOutAtLast(s: Agent)
    requires Waiting(s, MAX_MISSED_SYNCS)
    ensures Fire(s, POWER).Ok? && Fire(s, POWER).value.clique.master == 5 && Fire(s, POWER).value.period == s.period
  {
  }

  lemma LastTask(n: Net)
    requires Round(n, MAX_MISSED_SYNCS)
    ensures var ev := TaskOf(0, POWER, 0);
            var n' := After(n, ev);
            && IsNetStep(n, ev, n') && !n.agents[0].clique.IsSelfMaster() && n'.agents[0].clique.IsSelfMaster()
            && !Agree(n')
  {
    var a, ev := n.agents[0], TaskOf(0, POWER, 0);
    DropsOutAtLast(a);
    var n' := After(n, ev);
    var a', b := n'.agents[0], n'.agents[1];
    assert Live(n', 0) && Live(n', 1) && a'.clique.master == b.clique.master == 5;
    assert a'.period.end - b.period.end == 20 && !Congruent(a'.period.end, b.period.end);
  }

  /** Agreement need not survive: on a run, a slave drops out while another unit still follows it. */
  lemma RegainingMastershipCanDisagree() returns (r: NetRun, ev: NetEvent, n': Net)
    ensures IsJoiningRun(r, IDS) && Agree(r.states[|r.events|])
    ensures IsNetStep(r.states[|r.events|], ev, n') && WithoutScatter(ev)
    ensures !r.states[|r.events|].agents[ev.unit].clique.IsSelfMaster() && n'.agents[ev.unit].clique.IsSelfMaster()
    ensures !Agree(n')
  {
    var n;
    r, n := ThirdSlots();
    r, n := Rounds(r, n, 1);
    RunAgrees(r, IDS, |r.events|);
    ev := TaskOf(0, POWER, 0);
    LastTask(n);
    n' := After(n, ev);
  }
}
