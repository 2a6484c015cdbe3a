/** Agreement on every run, with dropouts, abandoned and recovered mastership, and scatters.  A unit that
    becomes its own master, or scatters, founds its clique anew, at the sync point it has then; units
    agree as far as their cliques go back to the same founding. */
module Epochs {
  import opened Parameters
  import opened Outcomes
  import opened Schedules
  import opened Messages
  import opened TaskMachine
  import opened Runs
  import opened Network

  /** One founding of a clique: by whom, and at which sync point. */
  datatype Epoch = Epoch(founder: SystemID, phase: Time)

  /** The founding that the clique of each unit, and each sync in the air, goes back to. */
  datatype Origins = Origins(units: seq<Epoch>, air: map<Flight, Epoch>)

  function Founding(s: Agent): Epoch {
    Epoch(s.clique.self, s.period.end)
  }

  predicate Founds(s: Agent, s': Agent) {
    s'.clique.IsSelfMaster() && !(s.clique.IsSelfMaster() && Congruent(s'.period.end, s.period.end))
  }

  function EpochAfter(e: Epoch, s: Agent, ev: NetEvent, s': Agent, air: map<Flight, Epoch>): Epoch {
    if ev.Delivery? && Adopts(s, ev.flight.msg) then
      if ev.flight in air then air[ev.flight] else e
    else if Founds(s, s') then Founding(s')
    else e
  }

  function AirAfter(air: map<Flight, Epoch>, e: Epoch, s: Agent, ev: NetEvent): map<Flight, Epoch> {
    air + map f | f in Sent(s, ev) :: f := e
  }

  function OriginsAfterStep(o: Origins, n: Net, ev: NetEvent, n': Net): Origins
    requires ev.unit < |n.agents| == |n'.agents| == |o.units|
  {
    var i := ev.unit;
    if i in n'.halted then o
    else Origins(o.units[i := EpochAfter(o.units[i], n.agents[i], ev, n'.agents[i], o.air)],
                 AirAfter(o.air, o.units[i], n.agents[i], ev))
  }

  ghost function OriginsAt(r: NetRun, ids: seq<SystemID>, k: nat): (o: Origins)
    requires IsNetRun(r, ids) && k <= |r.events|
    ensures |o.units| == |r.states[k].agents|
  {
    if k == 0 then
      var agents := r.states[0].agents;
      Origins(seq(|agents|, i requires 0 <= i < |agents| => Founding(agents[i])), map[])
    else
      assert StepAt(r, k - 1);
      OriginsAfterStep(OriginsAt(r, ids, k - 1), r.states[k - 1], r.events[k - 1], r.states[k])
  }

  // ----- what is recorded is so -----

  predicate UnitInEpoch(s: Agent, e: Epoch) {
    e.founder == s.clique.master && Congruent(s.period.end, e.phase)
  }

  predicate FlightInEpoch(f: Flight, air: map<Flight, Epoch>) {
    IsSync(f.msg.kind) ==>
      f in air && air[f].founder == f.msg.master && Congruent(EventTime(f.arrival, f.msg.offset), air[f].phase)
  }

  predicate UnitRecorded(s: Agent, e: Epoch) {
    Inv(s) && UnitInEpoch(s, e)
  }

  ghost predicate InEpochs(n: Net, o: Origins) {
    && |o.units| == |n.agents|
    && (forall i :: 0 <= i < |n.agents| ==> UnitRecorded(n.agents[i], o.units[i]))
    && (forall f :: f in n.air ==> FlightInEpoch(f, o.air))
  }

  lemma KeptOrFounded(s: Agent, s': Agent, e: Epoch)
    requires UnitInEpoch(s, e) && s'.clique.self == s.clique.self
    requires s'.clique.IsSelfMaster() ||
             (s'.clique.master == s.clique.master && Congruent(s'.period.end, s.period.end))
    ensures UnitInEpoch(s', if Founds(s, s') then Founding(s') else e)
  {
    assert Congruent(s'.period.end, s'.period.end);
    if Congruent(s'.period.end, s.period.end) {
      CongruentTransitive(s'.period.end, s.period.end, e.phase);
    }
  }

  lemma TaskInEpoch(s: Agent, ev: NetEvent, s': Agent, e: Epoch, air: map<Flight, Epoch>)
    requires ev.TaskOf? && Inv(s) && ev.env.Legal() && Fire(s, ev.env) == Ok(s') && UnitInEpoch(s, e)
    ensures UnitInEpoch(s', EpochAfter(e, s, ev, s', air))
    ensures forall f :: f in Sent(s, ev) ==> FlightInEpoch(f, AirAfter(air, e, s, ev))
  {
    FireKeepsOrFounds(s, ev.env, s');
    assert Congruent(s.period.end, s.period.end) && Congruent(s.period.end + PERIOD, s.period.end);
    KeptOrFounded(s, s', e);
    if Transmission(s, ev.env).Some? {
      TransmissionValid(s, ev.env);
    }
  }

  lemma HearingInEpoch(s: Agent, ev: NetEvent, s': Agent, e: Epoch, air: map<Flight, Epoch>)
    requires ev.Delivery? && Inv(s) && IsStep(s, EventOf(ev), s') && UnitInEpoch(s, e)
    requires FlightInEpoch(ev.flight, air)
    ensures UnitInEpoch(s', EpochAfter(e, s, ev, s', air))
  {
    var f := ev.flight;
    HearKeepsOrFounds(s, f.msg, f.arrival, ev.random, s');
    if Adopts(s, f.msg) {
      CongruentTransitive(s'.period.end, EventTime(f.arrival, f.msg.offset), air[f].phase);
    } else {
      assert Congruent(s.period.end, s.period.end);
      KeptOrFounded(s, s', e);
    }
  }

  lemma UnitStepInEpoch(s: Agent, ev: NetEvent, s': Agent, e: Epoch, air: map<Flight, Epoch>)
    requires UnitRecorded(s, e) && IsStep(s, EventOf(ev), s')
    requires ev.Delivery? ==> FlightInEpoch(ev.flight, air)
    ensures UnitRecorded(s', EpochAfter(e, s, ev, s', air))
    ensures forall f :: f in Sent(s, ev) ==> FlightInEpoch(f, AirAfter(air, e, s, ev))
  {
    StepSafe(s, EventOf(ev));
    match ev
    case TaskOf(_, _, _) => TaskInEpoch(s, ev, s', e, air);
    case Delivery(_, _, _) => HearingInEpoch(s, ev, s', e, air);
  }

  lemma StepInEpochs(n: Net, ev: NetEvent, n': Net, o: Origins)
    requires InEpochs(n, o) && IsNetStep(n, ev, n')
    ensures InEpochs(n', OriginsAfterStep(o, n, ev, n'))
  {
    var s, e := n.agents[ev.unit], o.units[ev.unit];
    if Step(s, EventOf(ev)).Ok? {
      UnitStepInEpoch(s, ev, n'.agents[ev.unit], e, o.air);
      forall f | f in n'.air
        ensures FlightInEpoch(f, AirAfter(o.air, e, s, ev))
      {
        assert f in n.air ==> FlightInEpoch(f, o.air);
      }
    }
  }

  lemma InitialInEpochs(r: NetRun, ids: seq<SystemID>)
    requires IsNetRun(r, ids)
    ensures InEpochs(r.states[0], OriginsAt(r, ids, 0))
  {
    forall i | 0 <= i < |ids|
      ensures UnitRecorded(r.states[0].agents[i], OriginsAt(r, ids, 0).units[i])
    {
      var s := r.states[0].agents[i];
      assert StartsUp(s, ids[i]);
      BootedInv(ids[i], s.latency, s.now);
    }
  }

  lemma EpochsInRun(r: NetRun, ids: seq<SystemID>, k: nat)
    requires IsNetRun(r, ids) && k < |r.events| && InEpochs(r.states[k], OriginsAt(r, ids, k))
    ensures InEpochs(r.states[k + 1], OriginsAt(r, ids, k + 1))
  {
    assert StepAt(r, k);
    StepInEpochs(r.states[k], r.events[k], r.states[k + 1], OriginsAt(r, ids, k));
  }

  /** On every run each unit is at the sync point, modulo the period, at which its clique was founded, by
      its master, the last time that it knows of. */
  lemma {:induction false} RunInEpochs(r: NetRun, ids: seq<SystemID>, k: nat)
    requires IsNetRun(r, ids) && k <= |r.events|
    ensures InEpochs(r.states[k], OriginsAt(r, ids, k))
  {
    if k == 0 {
      InitialInEpochs(r, ids);
    } else {
      RunInEpochs(r, ids, k - 1);
      EpochsInRun(r, ids, k - 1);
    }
  }

  // ----- agreement -----

  lemma SamePhase(s: Agent, e: Epoch, s': Agent, e': Epoch)
    requires UnitInEpoch(s, e) && UnitInEpoch(s', e')
    ensures Congruent(s.period.end, s'.period.end) <==> Congruent(e.phase, e'.phase)
  {
    var end, end' := s.period.end, s'.period.end;
    CongruentSymmetric(end, e.phase);
    CongruentSymmetric(end', e'.phase);
    if Congruent(end, end') {
      CongruentTransitive(e.phase, end, end');
      CongruentTransitive(e.phase, end', e'.phase);
    }
    if Congruent(e.phase, e'.phase) {
      CongruentTransitive(end, e.phase, e'.phase);
      CongruentTransitive(end, e'.phase, end');
    }
  }

  /** Agreement on every run, whatever happens: two units agree on the sync point exactly if their cliques
      were founded at the same one; in particular if they go back to the same founding. */
  lemma EpochAgreement(r: NetRun, ids: seq<SystemID>, k: nat, i: nat, j: nat)
    requires IsNetRun(r, ids) && k <= |r.events| && i < |r.states[k].agents| && j < |r.states[k].agents|
    ensures var n, units := r.states[k], OriginsAt(r, ids, k).units;
            && units[i].founder == n.agents[i].clique.master
            && (Congruent(n.agents[i].period.end, n.agents[j].period.end) <==>
                Congruent(units[i].phase, units[j].phase))
            && (units[i] == units[j] ==> n.agents[i].clique.master == n.agents[j].clique.master &&
                                         Congruent(n.agents[i].period.end, n.agents[j].period.end))
  {
    RunInEpochs(r, ids, k);
    var n, units := r.states[k], OriginsAt(r, ids, k).units;
    assert UnitRecorded(n.agents[i], units[i]) && UnitRecorded(n.agents[j], units[j]);
    SamePhase(n.agents[i], units[i], n.agents[j], units[j]);
    assert Congruent(units[i].phase, units[i].phase);
  }

  /** Any number of foundings: a step by which a slave becomes its own master, in a state that agrees, keeps
      agreement exactly if all live units that still name it go back to a founding at the sync point
      of the clique it just left. */
  lemma RegainingOnAnyRun(r: NetRun, ids: seq<SystemID>, k: nat, ev: NetEvent, n': Net)
    requires IsNetRun(r, ids) && k <= |r.events| && Agree(r.states[k])
    requires IsNetStep(r.states[k], ev, n') && WithoutScatter(ev)
    requires !r.states[k].agents[ev.unit].clique.IsSelfMaster() && n'.agents[ev.unit].clique.IsSelfMaster()
    ensures var units := OriginsAt(r, ids, k).units;
            && |n'.agents| == |units|
            && (Agree(n') <==>
                forall j: nat :: Live(n', j) && j != ev.unit && n'.agents[j].clique.master == n'.agents[ev.unit].clique.self ==>
                  Congruent(units[j].phase, units[ev.unit].phase))
  {
    RunInEpochs(r, ids, k);
    var n, i, units := r.states[k], ev.unit, OriginsAt(r, ids, k).units;
    assert UnitRecorded(n.agents[i], units[i]);
    RegainingKeepsSyncPoint(n.agents[i], ev, n'.agents[i]);
    forall j: nat | Live(n', j) && j != i
      ensures n'.agents[j] == n.agents[j]
      ensures Congruent(n'.agents[j].period.end, n'.agents[i].period.end) <==> Congruent(units[j].phase, units[i].phase)
    {
      assert UnitRecorded(n.agents[j], units[j]);
      SamePhase(n.agents[j], units[j], n.agents[i], units[i]);
    }
    AgreeAfterOneLeft(n, n', i);
  }

  /** One unit became its own master and nothing else changed: agreement is a matter of those that name it. */
  lemma AgreeAfterOneLeft(n: Net, n': Net, i: nat)
    requires Agree(n) && Live(n', i) && n'.agents[i].clique.IsSelfMaster()
    requires forall j: nat :: Live(n', j) && j != i ==> Live(n, j) && n'.agents[j] == n.agents[j]
    ensures Agree(n') <==>
            forall j: nat :: Live(n', j) && j != i && n'.agents[j].clique.master == n'.agents[i].clique.self ==>
              Congruent(n'.agents[j].period.end, n'.agents[i].period.end)
  {
    if forall j: nat :: Live(n', j) && j != i && n'.agents[j].clique.master == n'.agents[i].clique.self ==>
         Congruent(n'.agents[j].period.end, n'.agents[i].period.end)
    {
      forall j: nat, h: nat | Live(n', j) && Live(n', h) && n'.agents[j].clique.master == n'.agents[h].clique.master
        ensures Congruent(n'.agents[j].period.end, n'.agents[h].period.end)
      {
        if h == i && j != i {
          assert Congruent(n'.agents[j].period.end, n'.agents[i].period.end);
        } else if j == i && h != i {
          CongruentSymmetric(n'.agents[h].period.end, n'.agents[i].period.end);
        } else if j != i {
          assert Live(n, j) && Live(n, h);
        }
      }
    }
  }
}
