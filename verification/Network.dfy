/** Any number of units in range of each other, each running the whole task machine, without drift.
    Messages are lost arbitrarily.  A unit whose assert fails is dead from then on; the others go on. */
module Network {
  import opened Parameters
  import opened Outcomes
  import opened Schedules
  import opened Messages
  import opened Cliques
  import opened TaskMachine
  import opened Runs

  datatype Flight = Flight(msg: Message, arrival: Time)

  /** A unit that halted keeps the state in which it did. */
  datatype Net = Net(agents: seq<Agent>, halted: set<nat>, air: set<Flight>, now: Time)

  /** `radio` is the time from the start of a merge slot to the arrival of its message. */
  datatype NetEvent =
    | TaskOf(unit: nat, env: Env, radio: nat)
    | Delivery(unit: nat, flight: Flight, random: nat)

  predicate Live(n: Net, i: nat) {
    i < |n.agents| && i !in n.halted
  }

  /** Timers fire on time: nothing happens after a live unit's task is due but before it has run. */
  ghost predicate OnTime(n: Net, t: Time) {
    n.now <= t && forall j: nat :: Live(n, j) ==> t <= n.agents[j].due
  }

  function EventOf(ev: NetEvent): Event {
    match ev
    case TaskOf(_, e, _) => Fires(e)
    case Delivery(_, f, random) => Hears(f.msg, f.arrival, random)
  }

  function TimeOf(n: Net, ev: NetEvent): Time
    requires ev.unit < |n.agents|
  {
    match ev
    case TaskOf(i, _, _) => n.agents[i].due
    case Delivery(_, f, _) => f.arrival
  }

  /** Syncs arrive the send latency after they were started. */
  function Sent(s: Agent, ev: NetEvent): set<Flight> {
    match ev
    case TaskOf(_, e, radio) =>
      var m := Transmission(s, e);
      if m.Some? then {Flight(m.value, s.due + if s.pending == SendSync then s.latency else radio)} else {}
    case Delivery(_, _, _) => {}
  }

  function After(n: Net, ev: NetEvent): Net
    requires ev.unit < |n.agents|
  {
    var s := n.agents[ev.unit];
    match Step(s, EventOf(ev))
    case Ok(s') => Net(n.agents[ev.unit := s'], n.halted, n.air + Sent(s, ev), TimeOf(n, ev))
    case Halted(_) => n.(halted := n.halted + {ev.unit}, now := TimeOf(n, ev))
  }

  /** One live unit runs its task, or hears a message in flight; it goes on, or halts.  The message that
      abandons mastership, which no task sends, may be heard at any time. */
  ghost predicate IsNetStep(n: Net, ev: NetEvent, n': Net) {
    && Live(n, ev.unit)
    && OnTime(n, TimeOf(n, ev))
    && (ev.TaskOf? ==> ev.radio <= 2 * SLOT)
    && (ev.Delivery? ==> ev.flight in n.air || ev.flight.msg.kind == AbandonMastership)
    && Possible(n.agents[ev.unit], EventOf(ev))
    && n' == After(n, ev)
  }

  /** Steps with no scatter and in which no slave becomes a master again (by dropout, by an abandon
      message, or by deep fishing without a catch). */
  predicate Joining(s: Agent, ev: NetEvent, s': Agent) {
    && (ev.TaskOf? ==> ev.env.scatter.None?)
    && (!s.clique.IsSelfMaster() ==> !s'.clique.IsSelfMaster())
  }

  datatype NetRun = NetRun(states: seq<Net>, events: seq<NetEvent>)

  ghost predicate StepAt(r: NetRun, k: nat)
    requires k < |r.events| && |r.states| == |r.events| + 1
  {
    IsNetStep(r.states[k], r.events[k], r.states[k + 1])
  }

  predicate JoiningAt(r: NetRun, k: nat)
    requires k < |r.events| && |r.states| == |r.events| + 1
  {
    var n, ev, n' := r.states[k], r.events[k], r.states[k + 1];
    && ev.unit < |n.agents| && ev.unit < |n'.agents|
    && Joining(n.agents[ev.unit], ev, n'.agents[ev.unit])
  }

  /** A start-up of units with distinct IDs, at any times. */
  ghost predicate Initial(n: Net, ids: seq<SystemID>) {
    && |n.agents| == |ids| && n.halted == {} && n.air == {}
    && (forall i, j :: 0 <= i < j < |ids| ==> ids[i] != ids[j])
    && forall i :: 0 <= i < |ids| ==> StartsUp(n.agents[i], ids[i]) && n.now <= n.agents[i].now
  }

  ghost predicate StartsUp(s: Agent, id: SystemID) {
    IsLatency(s.latency) && s == Booted(id, s.latency, s.now)
  }

  ghost predicate IsNetRun(r: NetRun, ids: seq<SystemID>) {
    && |r.states| == |r.events| + 1
    && Initial(r.states[0], ids)
    && forall k :: 0 <= k < |r.events| ==> StepAt(r, k)
  }

  ghost predicate IsJoiningRun(r: NetRun, ids: seq<SystemID>) {
    IsNetRun(r, ids) && forall k :: 0 <= k < |r.events| ==> JoiningAt(r, k)
  }

  // ----- what holds on every run -----

  /** Unit i has the i-th ID. */
  predicate OwnIDs(n: Net, ids: seq<SystemID>) {
    |n.agents| == |ids| && forall i :: 0 <= i < |ids| ==> n.agents[i].clique.self == ids[i]
  }

  function Members(ids: seq<SystemID>): set<SystemID> {
    set i | 0 <= i < |ids| :: ids[i]
  }

  predicate UnitSound(s: Agent, members: set<SystemID>) {
    Inv(s) && s.clique.self in members && s.clique.master in members
  }

  predicate FlightSound(f: Flight, members: set<SystemID>) {
    IsSync(f.msg.kind) ==> f.msg.master in members
  }

  /** Every unit keeps its invariant, and every master, followed or announced, is the ID of a unit. */
  ghost predicate Sound(n: Net, members: set<SystemID>) {
    && (forall i :: 0 <= i < |n.agents| ==> UnitSound(n.agents[i], members))
    && (forall f :: f in n.air ==> FlightSound(f, members))
  }

  /** A task leaves the sync point where it is modulo the period and the master as it is, or makes the unit
      its own master. */
  lemma FireKeepsOrFounds(s: Agent, e: Env, s': Agent)
    requires Inv(s) && e.Legal() && Fire(s, e) == Ok(s')
    ensures s'.clique.self == s.clique.self
    ensures s'.clique.IsSelfMaster() ||
            (s'.clique.master == s.clique.master && s'.period.end in {s.period.end, s.period.end + PERIOD})
  {
    FireFrame(s, e);
    if TasksToRoll(s.pending) == 1 {
      FireRollFrame(s, e);
      RollKeepsOrFounds(s, e);
    } else if s.pending in {EndSyncSlotListen, EndSyncSlotSend} {
      FireEndSyncSlotFrame(s, e);
      if s.pending == EndSyncSlotListen && !s.clique.IsSelfMaster() {
        DropoutMaster(s.clique, s'.clique);
      }
    } else if s.pending == FishSlotEnd {
      FireFishEndFrame(s, e);
    } else if s.pending == MergerStartAndEnd {
      FireMergerFrame(s, e);
    } else {
      FireSimpleFrame(s, e);
    }
  }

  lemma RollKeepsOrFounds(s: Agent, e: Env)
    requires e.Legal() && Fire(s, e).Ok? && TasksToRoll(s.pending) == 1
    ensures e.scatter.None? || Fire(s, e).value.clique.IsSelfMaster() ||
            (Fire(s, e).value.clique == s.clique && Fire(s, e).value.period == Rolled(s.period))
  {
    FireRollFrame(s, e);
    if s.pending != StartSyncPeriodMaintain && s.mode != Maintain {
      SlotKeepsOrFounds(s.(now := s.due, period := Rolled(s.period)), e);
    }
  }

  lemma SlotKeepsOrFounds(s: Agent, e: Env)
    requires ToSyncSlot(s, e).Ok?
    ensures var s' := ToSyncSlot(s, e).value;
            s'.clique.IsSelfMaster() || (s'.clique == s.clique && s'.period == s.period)
  {
  }

  lemma DropoutMaster(c: Clique, c': Clique)
    requires DropoutChecked(c) == Ok(c')
    ensures c'.IsSelfMaster() || c'.master == c.master
    ensures c'.self == c.self
  {
  }

  /** A message changes master and sync point together, to those of the message, or neither, or it makes
      the unit its own master. */
  lemma HearKeepsOrFounds(s: Agent, msg: Message, toa: Time, random: nat, s': Agent)
    requires Inv(s) && CanHear(s, msg, toa, random) && Hear(s, msg, toa, random) == Ok(s')
    ensures s'.clique.self == s.clique.self
    ensures if Adopts(s, msg) then
              s'.clique.master == msg.master && Congruent(s'.period.end, EventTime(toa, msg.offset))
            else s'.clique.IsSelfMaster() ||
                 (s'.clique.master == s.clique.master && s'.period.end == s.period.end)
  {
    if Adopts(s, msg) {
      JoinedKeepsValid(s.clique, msg.master);
      var event := EventTime(toa, msg.offset);
      assert Congruent(event, event) && Congruent(event + PERIOD, event);
    }
  }

  lemma UnitStepSound(s: Agent, ev: NetEvent, s': Agent, members: set<SystemID>)
    requires UnitSound(s, members) && IsStep(s, EventOf(ev), s')
    requires ev.Delivery? ==> FlightSound(ev.flight, members)
    ensures UnitSound(s', members) && s'.clique.self == s.clique.self
    ensures forall f :: f in Sent(s, ev) ==> FlightSound(f, members)
  {
    StepSafe(s, EventOf(ev));
    match ev
    case TaskOf(_, e, _) =>
      FireKeepsOrFounds(s, e, s');
      if Transmission(s, e).Some? {
        TransmissionValid(s, e);
      }
    case Delivery(_, f, random) => HearKeepsOrFounds(s, f.msg, f.arrival, random, s');
  }

  lemma StepSound(n: Net, ev: NetEvent, n': Net, members: set<SystemID>, ids: seq<SystemID>)
    requires Sound(n, members) && OwnIDs(n, ids) && IsNetStep(n, ev, n')
    ensures Sound(n', members) && OwnIDs(n', ids)
  {
    var s := n.agents[ev.unit];
    if Step(s, EventOf(ev)).Ok? {
      UnitStepSound(s, ev, n'.agents[ev.unit], members);
    }
  }

  lemma InitialSound(n: Net, ids: seq<SystemID>)
    requires Initial(n, ids)
    ensures Sound(n, Members(ids)) && OwnIDs(n, ids)
  {
    forall i | 0 <= i < |ids|
      ensures UnitSound(n.agents[i], Members(ids)) && n.agents[i].clique.self == ids[i]
    {
      var s := n.agents[i];
      assert StartsUp(s, ids[i]);
      BootedInv(ids[i], s.latency, s.now);
    }
  }

  /** On every run, whatever is lost, drops out, is abandoned, recovered or scattered, and whichever units
      halt, the units keep their invariant, and masters are IDs of units. */
  lemma {:induction false} RunSound(r: NetRun, ids: seq<SystemID>, k: nat)
    requires IsNetRun(r, ids) && k <= |r.events|
    ensures Sound(r.states[k], Members(ids)) && OwnIDs(r.states[k], ids)
  {
    if k == 0 {
      InitialSound(r.states[0], ids);
    } else {
      RunSound(r, ids, k - 1);
      SoundInRun(r, ids, k - 1);
    }
  }

  lemma SoundInRun(r: NetRun, ids: seq<SystemID>, k: nat)
    requires IsNetRun(r, ids) && k < |r.events| && Sound(r.states[k], Members(ids)) && OwnIDs(r.states[k], ids)
    ensures Sound(r.states[k + 1], Members(ids)) && OwnIDs(r.states[k + 1], ids)
  {
    StepInNetRun(r, ids, k);
    StepSound(r.states[k], r.events[k], r.states[k + 1], Members(ids), ids);
  }

  lemma StepInNetRun(r: NetRun, ids: seq<SystemID>, k: nat)
    requires IsNetRun(r, ids) && k < |r.events|
    ensures IsNetStep(r.states[k], r.events[k], r.states[k + 1])
  {
    assert StepAt(r, k);
  }

  // ----- a unit that halts holds up no other -----

  lemma StepKeepsOnTime(n: Net, ev: NetEvent, n': Net)
    requires OnTime(n, n.now) && IsNetStep(n, ev, n') && Inv(n.agents[ev.unit])
    ensures OnTime(n', n'.now)
  {
    var s := n.agents[ev.unit];
    StepSafe(s, EventOf(ev));
    if Step(s, EventOf(ev)).Ok? {
      match ev
      case TaskOf(_, e, _) => FireFrame(s, e);
      case Delivery(_, f, random) => HearKeepsTimer(s, f.msg, f.arrival, random);
    }
  }

  lemma InitialOnTime(n: Net, ids: seq<SystemID>)
    requires Initial(n, ids)
    ensures OnTime(n, n.now)
  {
    forall j: nat | Live(n, j)
      ensures n.now <= n.agents[j].due
    {
      assert StartsUp(n.agents[j], ids[j]);
    }
  }

  lemma {:induction false} RunOnTime(r: NetRun, ids: seq<SystemID>, k: nat)
    requires IsNetRun(r, ids) && k <= |r.events|
    ensures OnTime(r.states[k], r.states[k].now)
  {
    if k == 0 {
      InitialOnTime(r.states[0], ids);
    } else {
      RunOnTime(r, ids, k - 1);
      OnTimeInRun(r, ids, k - 1);
    }
  }

  lemma OnTimeInRun(r: NetRun, ids: seq<SystemID>, k: nat)
    requires IsNetRun(r, ids) && k < |r.events| && OnTime(r.states[k], r.states[k].now)
    ensures OnTime(r.states[k + 1], r.states[k + 1].now)
  {
    RunSound(r, ids, k);
    assert StepAt(r, k);
    StepKeepsOnTime(r.states[k], r.events[k], r.states[k + 1]);
  }

  /** The live unit whose task is due first. */
  lemma {:induction false} FirstDue(n: Net, upTo: nat) returns (first: nat)
    requires upTo <= |n.agents| && exists i: nat :: i < upTo && Live(n, i)
    ensures first < upTo && Live(n, first)
    ensures forall j: nat :: j < upTo && Live(n, j) ==> n.agents[first].due <= n.agents[j].due
  {
    if j: nat :| j < upTo - 1 && Live(n, j) {
      first := FirstDue(n, upTo - 1);
      if Live(n, upTo - 1) && n.agents[upTo - 1].due < n.agents[first].due {
        first := upTo - 1;
      }
    } else {
      first := upTo - 1;
    }
  }

  /** On every run, as long as one unit lives, the first due task can run next, whatever it learns. */
  lemma NeverStuck(r: NetRun, ids: seq<SystemID>, k: nat, e: Env) returns (first: nat)
    requires IsNetRun(r, ids) && k <= |r.events| && e.Legal()
    requires exists i: nat :: Live(r.states[k], i)
    ensures Live(r.states[k], first)
    ensures IsNetStep(r.states[k], TaskOf(first, e, 0), After(r.states[k], TaskOf(first, e, 0)))
  {
    RunOnTime(r, ids, k);
    first := FirstDue(r.states[k], |r.states[k].agents|);
  }


  // ----- phase agreement -----

  /** Sync point of each clique, modulo the period: that of its master when it started up. */
  type Phases = map<SystemID, Time>

  predicate UnitInPhase(s: Agent, phases: Phases) {
    s.clique.master in phases && Congruent(s.period.end, phases[s.clique.master])
  }

  predicate FlightInPhase(f: Flight, phases: Phases) {
    IsSync(f.msg.kind) ==>
      f.msg.master in phases && Congruent(EventTime(f.arrival, f.msg.offset), phases[f.msg.master])
  }

  ghost predicate InPhase(n: Net, phases: Phases) {
    && (forall i :: 0 <= i < |n.agents| ==> Inv(n.agents[i]) && UnitInPhase(n.agents[i], phases))
    && (forall f :: f in n.air ==> FlightInPhase(f, phases))
  }

  /** A task of a joining unit changes neither its master nor the phase of its sync point. */
  lemma FireKeepsPhase(s: Agent, e: Env, s': Agent)
    requires Inv(s) && e.Legal() && Fire(s, e) == Ok(s') && e.scatter.None?
    requires !s.clique.IsSelfMaster() ==> !s'.clique.IsSelfMaster()
    ensures s'.clique.master == s.clique.master && s'.clique.self == s.clique.self
    ensures s'.period.end in {s.period.end, s.period.end + PERIOD}
  {
    FireKeepsOrFounds(s, e, s');
    FireFrame(s, e);
    if TasksToRoll(s.pending) == 1 {
      FireRollFrame(s, e);
    }
  }

  /** A message changes master and sync point together, to those of the message, or neither. */
  lemma HearKeepsPhase(s: Agent, msg: Message, toa: Time, random: nat, s': Agent)
    requires Inv(s) && CanHear(s, msg, toa, random) && Hear(s, msg, toa, random) == Ok(s')
    requires !s.clique.IsSelfMaster() ==> !s'.clique.IsSelfMaster()
    ensures s'.clique.self == s.clique.self
    ensures if Adopts(s, msg) then
              s'.clique.master == msg.master && Congruent(s'.period.end, EventTime(toa, msg.offset))
            else s'.clique.master == s.clique.master && s'.period.end == s.period.end
  {
    HearKeepsOrFounds(s, msg, toa, random, s');
  }

  lemma TaskInPhase(s: Agent, e: Env, s': Agent, phases: Phases)
    requires Inv(s) && e.Legal() && Fire(s, e) == Ok(s') && UnitInPhase(s, phases)
    requires Joining(s, TaskOf(0, e, 0), s')
    ensures UnitInPhase(s', phases) && s'.clique.self == s.clique.self && s'.clique.master == s.clique.master
    ensures forall f, radio :: f in Sent(s, TaskOf(0, e, radio)) ==> FlightInPhase(f, phases)
  {
    FireKeepsPhase(s, e, s');
    var phase := phases[s.clique.master];
    CongruentShift(s.period.end, phase, 0);
    if Transmission(s, e).Some? {
      TransmissionValid(s, e);
    }
  }

  lemma HearingInPhase(s: Agent, f: Flight, random: nat, s': Agent, phases: Phases)
    requires Inv(s) && CanHear(s, f.msg, f.arrival, random) && Hear(s, f.msg, f.arrival, random) == Ok(s')
    requires UnitInPhase(s, phases) && FlightInPhase(f, phases) && Joining(s, Delivery(0, f, random), s')
    ensures UnitInPhase(s', phases) && s'.clique.self == s.clique.self
    ensures s'.clique.master == if Adopts(s, f.msg) then f.msg.master else s.clique.master
  {
    HearKeepsPhase(s, f.msg, f.arrival, random, s');
    if Adopts(s, f.msg) {
      CongruentTransitive(s'.period.end, EventTime(f.arrival, f.msg.offset), phases[f.msg.master]);
    }
  }

  /** One unit's step keeps the unit in phase, and what it sends is in phase; its master changes only
      to a better one that it hears of. */
  lemma UnitStepInPhase(s: Agent, ev: NetEvent, s': Agent, phases: Phases)
    requires Inv(s) && IsStep(s, EventOf(ev), s') && Joining(s, ev, s') && UnitInPhase(s, phases)
    requires ev.Delivery? ==> FlightInPhase(ev.flight, phases)
    ensures Inv(s') && UnitInPhase(s', phases)
    ensures s'.clique.self == s.clique.self
    ensures s'.clique.master == if ev.Delivery? && Adopts(s, ev.flight.msg) then ev.flight.msg.master
                                else s.clique.master
    ensures forall f :: f in Sent(s, ev) ==> FlightInPhase(f, phases)
  {
    StepSafe(s, EventOf(ev));
    match ev
    case TaskOf(i, e, radio) =>
      TaskInPhase(s, e, s', phases);
      assert Sent(s, ev) == Sent(s, TaskOf(0, e, radio));
    case Delivery(i, f, random) => HearingInPhase(s, f, random, s', phases);
  }

  lemma StepKeepsInPhase(n: Net, ev: NetEvent, n': Net, phases: Phases, ids: seq<SystemID>)
    requires InPhase(n, phases) && OwnIDs(n, ids)
    requires IsNetStep(n, ev, n') && Joining(n.agents[ev.unit], ev, n'.agents[ev.unit])
    ensures InPhase(n', phases) && OwnIDs(n', ids)
  {
    if Step(n.agents[ev.unit], EventOf(ev)).Ok? {
      UnitStepInPhase(n.agents[ev.unit], ev, n'.agents[ev.unit], phases);
    }
  }

  ghost function InitialPhases(n: Net, ids: seq<SystemID>): (phases: Phases)
    requires Initial(n, ids)
    ensures phases.Keys == set i | 0 <= i < |ids| :: ids[i]
    ensures forall i :: 0 <= i < |ids| ==> phases[ids[i]] == n.agents[i].period.end
  {
    map i | 0 <= i < |ids| :: ids[i] := n.agents[i].period.end
  }

  lemma InitialInPhase(n: Net, ids: seq<SystemID>)
    requires Initial(n, ids)
    ensures InPhase(n, InitialPhases(n, ids)) && OwnIDs(n, ids)
  {
    forall i | 0 <= i < |ids|
      ensures Inv(n.agents[i]) && n.agents[i].clique.self == n.agents[i].clique.master == ids[i]
    {
      var s := n.agents[i];
      assert StartsUp(s, ids[i]);
      BootedInv(ids[i], s.latency, s.now);
    }
    assert forall t: Time :: Congruent(t, t);
  }

  lemma {:induction false} RunInPhase(r: NetRun, ids: seq<SystemID>, k: nat)
    requires IsJoiningRun(r, ids) && k <= |r.events|
    ensures InPhase(r.states[k], InitialPhases(r.states[0], ids)) && OwnIDs(r.states[k], ids)
  {
    if k == 0 {
      InitialInPhase(r.states[0], ids);
    } else {
      RunInPhase(r, ids, k - 1);
      StepInRun(r, ids, k - 1);
    }
  }

  lemma StepInRun(r: NetRun, ids: seq<SystemID>, k: nat)
    requires IsJoiningRun(r, ids) && k < |r.events|
    requires InPhase(r.states[k], InitialPhases(r.states[0], ids)) && OwnIDs(r.states[k], ids)
    ensures InPhase(r.states[k + 1], InitialPhases(r.states[0], ids)) && OwnIDs(r.states[k + 1], ids)
  {
    assert StepAt(r, k) && JoiningAt(r, k);
    StepKeepsInPhase(r.states[k], r.events[k], r.states[k + 1], InitialPhases(r.states[0], ids), ids);
  }

  lemma UnitInPhaseInRun(r: NetRun, ids: seq<SystemID>, k: nat, i: nat)
    requires IsJoiningRun(r, ids) && k <= |r.events| && i < |r.states[k].agents|
    ensures UnitInPhase(r.states[k].agents[i], InitialPhases(r.states[0], ids))
  {
    RunInPhase(r, ids, k);
  }

  /** Phase agreement: on every run of joining units, whatever is lost and whichever units halt, any two
      units with the same master have next sync points a whole number of periods apart. */
  lemma PhaseAgreement(r: NetRun, ids: seq<SystemID>, k: nat, i: nat, j: nat)
    requires IsJoiningRun(r, ids) && k <= |r.events|
    requires i < |r.states[k].agents| && j < |r.states[k].agents|
    requires r.states[k].agents[i].clique.master == r.states[k].agents[j].clique.master
    ensures Congruent(r.states[k].agents[i].period.end, r.states[k].agents[j].period.end)
  {
    UnitInPhaseInRun(r, ids, k, i);
    UnitInPhaseInRun(r, ids, k, j);
    var phases := InitialPhases(r.states[0], ids);
    var s, s' := r.states[k].agents[i], r.states[k].agents[j];
    CongruentSymmetric(s'.period.end, phases[s'.clique.master]);
    CongruentTransitive(s.period.end, phases[s.clique.master], s'.period.end);
  }

  // ----- why slaves must not become masters again -----

  /** Any two live units with the same master agree on the sync point modulo the period. */
  ghost predicate Agree(n: Net) {
    forall i: nat, j: nat :: Live(n, i) && Live(n, j) && n.agents[i].clique.master == n.agents[j].clique.master ==>
      Congruent(n.agents[i].period.end, n.agents[j].period.end)
  }

  lemma RunAgrees(r: NetRun, ids: seq<SystemID>, k: nat)
    requires IsJoiningRun(r, ids) && k <= |r.events|
    ensures Agree(r.states[k])
  {
    var n := r.states[k];
    forall i: nat, j: nat | Live(n, i) && Live(n, j) && n.agents[i].clique.master == n.agents[j].clique.master
      ensures Congruent(n.agents[i].period.end, n.agents[j].period.end)
    {
      PhaseAgreement(r, ids, k, i, j);
    }
  }

  predicate WithoutScatter(ev: NetEvent) {
    match ev
    case TaskOf(_, e, _) => e.scatter.None?
    case Delivery(_, f, _) => f.msg.kind != ControlScatterClique
  }

  /** The step by which a slave becomes its own master again leaves its sync point where it was. */
  lemma RegainingKeepsSyncPoint(s: Agent, ev: NetEvent, s': Agent)
    requires Inv(s) && Possible(s, EventOf(ev)) && Step(s, EventOf(ev)) == Ok(s') && WithoutScatter(ev)
    requires !s.clique.IsSelfMaster() && s'.clique.IsSelfMaster()
    ensures s'.period == s.period && s'.clique.self == s.clique.self
  {
    match ev
    case TaskOf(_, e, _) =>
      FireFrame(s, e);
      if TasksToRoll(s.pending) == 1 {
        FireRollFrame(s, e);
      }
    case Delivery(_, f, random) =>
      if Adopts(s, f.msg) {
        JoinedKeepsValid(s.clique, f.msg.master);
      }
  }

  /** One unit left a clique for its own and kept its sync point, all others are in phase. */
  lemma AgreementAfterLeaving(n: Net, phases: Phases, i: nat, left: SystemID)
    requires Live(n, i) && n.agents[i].clique.master in phases && left in phases
    requires Congruent(n.agents[i].period.end, phases[left])
    requires forall j: nat :: Live(n, j) && j != i ==> UnitInPhase(n.agents[j], phases)
    ensures var own := n.agents[i].clique.master;
            Agree(n) <==>
            || (forall j: nat :: Live(n, j) && j != i ==> n.agents[j].clique.master != own)
            || Congruent(phases[own], phases[left])
  {
    var own, end := n.agents[i].clique.master, n.agents[i].period.end;
    if Congruent(phases[own], phases[left]) {
      CongruentSymmetric(phases[own], phases[left]);
      CongruentTransitive(end, phases[left], phases[own]);
      InPhaseAgrees(n, phases);
    } else if j: nat :| Live(n, j) && j != i && n.agents[j].clique.master == own {
      if Agree(n) {
        var end' := n.agents[j].period.end;
        assert UnitInPhase(n.agents[j], phases) && Congruent(end', end);
        CongruentSymmetric(end', phases[own]);
        CongruentTransitive(phases[own], end', end);
        CongruentTransitive(phases[own], end, phases[left]);
      }
    } else {
      var phases' := phases[own := end];
      forall j: nat | Live(n, j)
        ensures UnitInPhase(n.agents[j], phases')
      {
        assert Congruent(end, end);
      }
      InPhaseAgrees(n, phases');
    }
  }

  lemma InPhaseAgrees(n: Net, phases: Phases)
    requires forall j: nat :: Live(n, j) ==> UnitInPhase(n.agents[j], phases)
    ensures Agree(n)
  {
    forall i: nat, j: nat | Live(n, i) && Live(n, j) && n.agents[i].clique.master == n.agents[j].clique.master
      ensures Congruent(n.agents[i].period.end, n.agents[j].period.end)
    {
      var phase := phases[n.agents[j].clique.master];
      assert UnitInPhase(n.agents[i], phases) && UnitInPhase(n.agents[j], phases);
      CongruentSymmetric(n.agents[j].period.end, phase);
      CongruentTransitive(n.agents[i].period.end, phase, n.agents[j].period.end);
    }
  }

  /** Regaining mastership, on any run: a slave becomes its own master again and keeps its schedule.
      Agreement then survives exactly if no other live unit still names it as master, or its clique once
      had the same sync point as the clique it just left. */
  lemma RegainingMastership(r: NetRun, ids: seq<SystemID>, k: nat, ev: NetEvent, n': Net)
    requires IsJoiningRun(r, ids) && k <= |r.events|
    requires IsNetStep(r.states[k], ev, n') && WithoutScatter(ev)
    requires !r.states[k].agents[ev.unit].clique.IsSelfMaster() && n'.agents[ev.unit].clique.IsSelfMaster()
    ensures ev.unit < |ids| && ids[ev.unit] in InitialPhases(r.states[0], ids)
    ensures r.states[k].agents[ev.unit].clique.master in InitialPhases(r.states[0], ids)
    ensures var phases := InitialPhases(r.states[0], ids);
            Agree(n') <==>
            || (forall j: nat :: Live(n', j) && j != ev.unit ==> n'.agents[j].clique.master != ids[ev.unit])
            || Congruent(phases[ids[ev.unit]], phases[r.states[k].agents[ev.unit].clique.master])
  {
    RunInPhase(r, ids, k);
    var n, i, phases := r.states[k], ev.unit, InitialPhases(r.states[0], ids);
    RegainingStep(n, ev, n', phases, ids);
    AgreementAfterLeaving(n', phases, i, n.agents[i].clique.master);
  }

  lemma RegainingStep(n: Net, ev: NetEvent, n': Net, phases: Phases, ids: seq<SystemID>)
    requires InPhase(n, phases) && OwnIDs(n, ids) && IsNetStep(n, ev, n') && WithoutScatter(ev)
    requires !n.agents[ev.unit].clique.IsSelfMaster() && n'.agents[ev.unit].clique.IsSelfMaster()
    ensures Live(n', ev.unit) && n'.agents[ev.unit].clique.master == ids[ev.unit]
    ensures n.agents[ev.unit].clique.master in phases
    ensures Congruent(n'.agents[ev.unit].period.end, phases[n.agents[ev.unit].clique.master])
    ensures forall j: nat :: Live(n', j) && j != ev.unit ==> UnitInPhase(n'.agents[j], phases)
  {
    var s := n.agents[ev.unit];
    assert UnitInPhase(s, phases);
    RegainingKeepsSyncPoint(s, ev, n'.agents[ev.unit]);
  }
}
