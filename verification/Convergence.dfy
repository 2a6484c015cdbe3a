/** Leader election: the units of a network converge to the clique of the least ID. */
module Convergence {
  import opened Parameters
  import opened Cliques
  import opened TaskMachine
  import opened Runs
  import opened Network

  // ----- a measure of how far the election is -----

  /** How many of the IDs are better than a master. */
  function Below(ids: seq<SystemID>, master: SystemID): nat
    decreases |ids|
  {
    if ids == [] then 0
    else Below(ids[..|ids| - 1], master) + if ids[|ids| - 1] < master then 1 else 0
  }

  /** Sum over the first n units of the number of IDs better than their master. */
  function Measure(ids: seq<SystemID>, agents: seq<Agent>, n: nat): nat
    requires n <= |agents|
  {
    if n == 0 then 0 else Measure(ids, agents, n - 1) + Below(ids, agents[n - 1].clique.master)
  }

  /** A better master leaves strictly fewer better IDs. */
  lemma {:induction false} BelowDecreases(ids: seq<SystemID>, better: SystemID, master: SystemID)
    requires better <= master
    ensures Below(ids, better) <= Below(ids, master)
    ensures better < master && better in ids ==> Below(ids, better) < Below(ids, master)
    decreases |ids|
  {
    if ids != [] {
      BelowDecreases(ids[..|ids| - 1], better, master);
      assert ids == ids[..|ids| - 1] + [ids[|ids| - 1]];
    }
  }

  lemma {:induction false} MeasureOfUpdate(ids: seq<SystemID>, agents: seq<Agent>, i: nat, s: Agent, n: nat)
    requires n <= |agents| && i < |agents|
    ensures Measure(ids, agents[i := s], n) == Measure(ids, agents, n)
            + if i < n then Below(ids, s.clique.master) - Below(ids, agents[i].clique.master) else 0
  {
    if n != 0 {
      MeasureOfUpdate(ids, agents, i, s, n - 1);
    }
  }

  /** Sum over some IDs of the number of IDs below them. */
  function Inversions(ids: seq<SystemID>, some: seq<SystemID>): nat
    decreases |some|
  {
    if some == [] then 0 else Inversions(ids, some[..|some| - 1]) + Below(ids, some[|some| - 1])
  }

  /** How many of the IDs have a given ID below them. */
  function Above(ids: seq<SystemID>, id: SystemID): nat
    decreases |ids|
  {
    if ids == [] then 0 else Above(ids[..|ids| - 1], id) + if id < ids[|ids| - 1] then 1 else 0
  }

  lemma {:induction false} InversionsWithOneMore(ids: seq<SystemID>, id: SystemID, some: seq<SystemID>)
    ensures Inversions(ids + [id], some) == Inversions(ids, some) + Above(some, id)
    decreases |some|
  {
    if some != [] {
      InversionsWithOneMore(ids, id, some[..|some| - 1]);
      assert (ids + [id])[..|ids|] == ids;
    }
  }

  lemma {:induction false} BelowOrAbove(ids: seq<SystemID>, id: SystemID)
    requires id !in ids
    ensures Below(ids, id) + Above(ids, id) == |ids|
    decreases |ids|
  {
    if ids != [] {
      BelowOrAbove(ids[..|ids| - 1], id);
    }
  }

  /** Distinct IDs have as many ordered pairs as there are pairs. */
  lemma {:induction false} InversionsOfDistinct(ids: seq<SystemID>)
    requires forall i, j :: 0 <= i < j < |ids| ==> ids[i] != ids[j]
    ensures 2 * Inversions(ids, ids) == |ids| * (|ids| - 1)
    decreases |ids|
  {
    if ids != [] {
      var rest, id := ids[..|ids| - 1], ids[|ids| - 1];
      InversionsOfDistinct(rest);
      InversionsWithOneMore(rest, id, rest);
      BelowOrAbove(rest, id);
      assert ids == rest + [id] && (rest + [id])[..|rest|] == rest;
      assert |ids| * (|ids| - 1) == |rest| * (|rest| - 1) + 2 * |rest|;
    }
  }

  lemma {:induction false} InitialMeasure(n: Net, ids: seq<SystemID>, k: nat)
    requires Initial(n, ids) && k <= |ids|
    ensures Measure(ids, n.agents, k) == Inversions(ids, ids[..k])
  {
    if k != 0 {
      InitialMeasure(n, ids, k - 1);
      assert ids[..k][..k - 1] == ids[..k - 1];
      assert StartsUp(n.agents[k - 1], ids[k - 1]);
    }
  }

  // ----- joins -----

  /** Did the k-th event make a unit change its master? */
  predicate IsJoin(r: NetRun, k: nat)
    requires k < |r.events| && |r.states| == |r.events| + 1
  {
    var i := r.events[k].unit;
    && i < |r.states[k].agents| && i < |r.states[k + 1].agents|
    && r.states[k + 1].agents[i].clique.master != r.states[k].agents[i].clique.master
  }

  function Joins(r: NetRun, k: nat): nat
    requires k <= |r.events| && |r.states| == |r.events| + 1
  {
    if k == 0 then 0 else Joins(r, k - 1) + if IsJoin(r, k - 1) then 1 else 0
  }

  /** Masters are IDs of units, and no unit follows a worse one than itself. */
  predicate MastersAmong(n: Net, ids: seq<SystemID>) {
    forall i :: 0 <= i < |n.agents| ==> n.agents[i].clique.master in ids && n.agents[i].clique.master <= n.agents[i].clique.self
  }

  /** Mastership, on every run, whatever is lost, drops out, is abandoned, recovered or scattered, and
      whichever units halt. */
  lemma RunMasters(r: NetRun, ids: seq<SystemID>, k: nat)
    requires IsNetRun(r, ids) && k <= |r.events|
    ensures OwnIDs(r.states[k], ids) && MastersAmong(r.states[k], ids)
  {
    RunSound(r, ids, k);
    forall i | 0 <= i < |r.states[k].agents|
      ensures r.states[k].agents[i].clique.master in ids
      ensures r.states[k].agents[i].clique.master <= r.states[k].agents[i].clique.self
    {
      assert UnitSound(r.states[k].agents[i], Members(ids));
    }
  }

  /** On no run is the unit with the least ID ever a slave. */
  lemma LeastIsNeverSlave(r: NetRun, ids: seq<SystemID>, k: nat, i: nat)
    requires IsNetRun(r, ids) && k <= |r.events| && i < |ids| && ids[i] == Least(ids)
    ensures i < |r.states[k].agents| && r.states[k].agents[i].clique.IsSelfMaster()
  {
    RunMasters(r, ids, k);
    assert r.states[k].agents[i].clique.master in ids;
  }

  /** The unit concerned takes up a sync in this event. */
  predicate TakesUpIn(n: Net, ev: NetEvent, n': Net) {
    ev.Delivery? && Live(n, ev.unit) && Adopts(n.agents[ev.unit], ev.flight.msg) && Live(n', ev.unit)
  }

  predicate TakesUp(r: NetRun, k: nat)
    requires k < |r.events| && |r.states| == |r.events| + 1
  {
    TakesUpIn(r.states[k], r.events[k], r.states[k + 1])
  }

  /** One event changes only the unit concerned, and its master only to a better one that it takes up. */
  predicate MasterImproves(n: Net, ev: NetEvent, n': Net) {
    && ev.unit < |n.agents| == |n'.agents|
    && n'.agents == n.agents[ev.unit := n'.agents[ev.unit]]
    && n'.agents[ev.unit].clique.master ==
       (if TakesUpIn(n, ev, n') then ev.flight.msg.master else n.agents[ev.unit].clique.master)
    && n'.agents[ev.unit].clique.master <= n.agents[ev.unit].clique.master
  }

  lemma StepMasterImproves(n: Net, ev: NetEvent, n': Net, phases: Phases)
    requires InPhase(n, phases) && IsNetStep(n, ev, n') && Joining(n.agents[ev.unit], ev, n'.agents[ev.unit])
    ensures MasterImproves(n, ev, n')
  {
    var s := n.agents[ev.unit];
    assert UnitInPhase(s, phases) && (ev.Delivery? ==> FlightInPhase(ev.flight, phases));
    match Step(s, EventOf(ev))
    case Ok(s') =>
      UnitStepInPhase(s, ev, s', phases);
    case Halted(_) =>
  }

  lemma MasterStep(r: NetRun, ids: seq<SystemID>, k: nat)
    requires IsJoiningRun(r, ids) && k < |r.events|
    ensures MasterImproves(r.states[k], r.events[k], r.states[k + 1])
  {
    RunInPhase(r, ids, k);
    assert StepAt(r, k) && JoiningAt(r, k);
    StepMasterImproves(r.states[k], r.events[k], r.states[k + 1], InitialPhases(r.states[0], ids));
  }

  lemma JoinDecreasesMeasure(r: NetRun, ids: seq<SystemID>, k: nat)
    requires IsJoiningRun(r, ids) && k < |r.events|
    ensures |r.states[k].agents| == |r.states[k + 1].agents| == |ids|
    ensures Measure(ids, r.states[k + 1].agents, |ids|) + (if IsJoin(r, k) then 1 else 0)
            <= Measure(ids, r.states[k].agents, |ids|)
  {
    MasterStep(r, ids, k);
    MasterAfterStep(r, ids, k);
    MeasureDecreases(ids, r.states[k].agents, r.events[k].unit, r.states[k + 1].agents[r.events[k].unit]);
  }

  lemma MasterAfterStep(r: NetRun, ids: seq<SystemID>, k: nat)
    requires IsJoiningRun(r, ids) && k < |r.events|
    ensures |r.states[k].agents| == |r.states[k + 1].agents| == |ids|
    ensures r.events[k].unit < |ids| && r.states[k + 1].agents[r.events[k].unit].clique.master in ids
  {
    MasterStep(r, ids, k);
    RunMasters(r, ids, k + 1);
    assert r.states[k + 1].agents[r.events[k].unit].clique.master in ids;
  }

  lemma MeasureDecreases(ids: seq<SystemID>, agents: seq<Agent>, i: nat, s: Agent)
    requires i < |agents| == |ids| && s.clique.master in ids && s.clique.master <= agents[i].clique.master
    ensures Measure(ids, agents[i := s], |ids|) + (if s.clique.master != agents[i].clique.master then 1 else 0)
            <= Measure(ids, agents, |ids|)
  {
    MeasureOfUpdate(ids, agents, i, s, |ids|);
    BelowDecreases(ids, s.clique.master, agents[i].clique.master);
  }

  lemma {:induction false} JoinsDecreaseMeasure(r: NetRun, ids: seq<SystemID>, k: nat)
    requires IsJoiningRun(r, ids) && k <= |r.events|
    ensures |r.states[0].agents| == |r.states[k].agents| == |ids|
    ensures Joins(r, k) + Measure(ids, r.states[k].agents, |ids|) <= Measure(ids, r.states[0].agents, |ids|)
  {
    if k != 0 {
      JoinsDecreaseMeasure(r, ids, k - 1);
      JoinDecreasesMeasure(r, ids, k - 1);
    }
  }

  /** Convergence, one: on any run of n units, whichever of them halt, there are at most n(n-1)/2 changes
      of master. */
  lemma BoundedJoins(r: NetRun, ids: seq<SystemID>, k: nat)
    requires IsJoiningRun(r, ids) && k <= |r.events|
    ensures 2 * Joins(r, k) <= |ids| * (|ids| - 1)
  {
    JoinsDecreaseMeasure(r, ids, k);
    InitialMeasure(r.states[0], ids, |ids|);
    assert ids[..|ids|] == ids;
    InversionsOfDistinct(ids);
  }

  // ----- the settled state -----

  function Least(ids: seq<SystemID>): (id: SystemID)
    requires ids != []
    ensures id in ids && forall j :: 0 <= j < |ids| ==> id <= ids[j]
    decreases |ids|
  {
    var rest, last := ids[..|ids| - 1], ids[|ids| - 1];
    if rest == [] then last
    else
      assert forall j :: 0 <= j < |ids| - 1 ==> ids[j] == rest[j];
      Min(Least(rest), last)
  }

  /** No live unit could improve by hearing any live unit: a unit that can send a sync at all names its
      own master in it. */
  ghost predicate Settled(n: Net) {
    forall i: nat, j: nat :: Live(n, i) && Live(n, j) ==> !Better(n.agents[i].clique, n.agents[j].clique.master)
  }

  /** The same, of hearing only units that are their own masters. */
  ghost predicate SettledByMasters(n: Net) {
    forall i: nat, j: nat :: Live(n, i) && Live(n, j) && n.agents[j].clique.IsSelfMaster() ==>
      !Better(n.agents[i].clique, n.agents[j].clique.master)
  }

  /** All live units have one master, and one sync point up to whole periods. */
  ghost predicate Converged(n: Net, master: SystemID) {
    && (forall i: nat :: Live(n, i) ==> n.agents[i].clique.master == master)
    && (forall i: nat, j: nat :: Live(n, i) && Live(n, j) ==>
          Congruent(n.agents[i].period.end, n.agents[j].period.end))
  }

  /** Every live unit has the same master: then they also have the same sync point. */
  lemma OneMasterConverged(r: NetRun, ids: seq<SystemID>, k: nat, master: SystemID)
    requires IsJoiningRun(r, ids) && k <= |r.events|
    requires forall i: nat :: Live(r.states[k], i) ==> r.states[k].agents[i].clique.master == master
    ensures Converged(r.states[k], master)
  {
    var n := r.states[k];
    forall i: nat, j: nat | Live(n, i) && Live(n, j)
      ensures Congruent(n.agents[i].period.end, n.agents[j].period.end)
    {
      PhaseAgreement(r, ids, k, i, j);
    }
  }

  /** Convergence, two: a reachable state is settled exactly if all live units follow one master, at one
      sync point. */
  lemma SettledIffConverged(r: NetRun, ids: seq<SystemID>, k: nat, i: nat)
    requires IsJoiningRun(r, ids) && k <= |r.events| && Live(r.states[k], i)
    ensures Settled(r.states[k]) <==> Converged(r.states[k], r.states[k].agents[i].clique.master)
  {
    var n := r.states[k];
    if Settled(n) {
      forall j: nat | Live(n, j)
        ensures n.agents[j].clique.master == n.agents[i].clique.master
      {
        assert !Better(n.agents[i].clique, n.agents[j].clique.master);
        assert !Better(n.agents[j].clique, n.agents[i].clique.master);
      }
      OneMasterConverged(r, ids, k, n.agents[i].clique.master);
    }
  }

  lemma SettledFollowsLeast(n: Net, ids: seq<SystemID>, i: nat)
    requires MastersAmong(n, ids) && OwnIDs(n, ids) && Live(n, i) && ids[i] == Least(ids) && SettledByMasters(n)
    ensures forall j: nat :: Live(n, j) ==> n.agents[j].clique.master == Least(ids)
  {
    assert n.agents[i].clique.master in ids && n.agents[i].clique.IsSelfMaster();
    forall j: nat | Live(n, j)
      ensures n.agents[j].clique.master == Least(ids)
    {
      assert !Better(n.agents[j].clique, n.agents[i].clique.master);
      assert n.agents[j].clique.master in ids;
    }
  }

  /** While the unit with the least ID lives, syncs of masters are enough: no unit can still hear a better
      one exactly if all live units follow the least ID. */
  lemma SettledByMastersIffConverged(r: NetRun, ids: seq<SystemID>, k: nat, i: nat)
    requires IsJoiningRun(r, ids) && k <= |r.events| && i < |ids| && ids[i] == Least(ids) && Live(r.states[k], i)
    ensures SettledByMasters(r.states[k]) <==> Converged(r.states[k], Least(ids))
  {
    RunMasters(r, ids, k);
    if SettledByMasters(r.states[k]) {
      SettledFollowsLeast(r.states[k], ids, i);
      OneMasterConverged(r, ids, k, Least(ids));
    }
  }

  // ----- convergence when every unit is heard by -----

  /** Unit i takes up, in the k-th event, a sync of the least ID's clique. */
  predicate HearsLeast(r: NetRun, k: nat, i: nat, least: SystemID)
    requires k < |r.events| && |r.states| == |r.events| + 1
  {
    TakesUp(r, k) && r.events[k].unit == i && r.events[k].flight.msg.master == least
  }

  lemma {:induction false} MasterStaysLeast(r: NetRun, ids: seq<SystemID>, k: nat, k': nat, i: nat, least: SystemID)
    requires IsJoiningRun(r, ids) && k <= k' <= |r.events| && ids != [] && least == Least(ids)
    requires i < |r.states[k].agents| && r.states[k].agents[i].clique.master == least
    ensures i < |r.states[k'].agents| && r.states[k'].agents[i].clique.master == least
    decreases k' - k
  {
    if k != k' {
      LeastMasterStep(r, ids, k, i, least);
      MasterStaysLeast(r, ids, k + 1, k', i, least);
    }
  }

  lemma LeastMasterStep(r: NetRun, ids: seq<SystemID>, k: nat, i: nat, least: SystemID)
    requires IsJoiningRun(r, ids) && k < |r.events| && ids != [] && least == Least(ids)
    requires i < |r.states[k].agents| && r.states[k].agents[i].clique.master == least
    ensures i < |r.states[k + 1].agents| && r.states[k + 1].agents[i].clique.master == least
  {
    MasterStep(r, ids, k);
    RunMasters(r, ids, k + 1);
    assert r.states[k + 1].agents[i].clique.master in ids;
  }

  /** Convergence, three: on every run in which each live unit but the least has taken up one sync of the
      least ID's clique, in whatever slots, order and company, and whether or not the least itself still
      lives, the live units have converged, and stay so. */
  lemma HearingLeastConverges(r: NetRun, ids: seq<SystemID>, k: nat)
    requires IsJoiningRun(r, ids) && k <= |r.events| && ids != []
    requires forall i: nat :: i < |ids| && ids[i] != Least(ids) && Live(r.states[k], i) ==>
               exists h: nat :: h < k && HearsLeast(r, h, i, Least(ids))
    ensures Converged(r.states[k], Least(ids))
  {
    var n := r.states[k];
    RunMasters(r, ids, k);
    forall i: nat | Live(n, i)
      ensures n.agents[i].clique.master == Least(ids)
    {
      if ids[i] != Least(ids) {
        var h: nat :| h < k && HearsLeast(r, h, i, Least(ids));
        MasterStep(r, ids, h);
        MasterStaysLeast(r, ids, h + 1, k, i, Least(ids));
      } else {
        assert n.agents[i].clique.master in ids;
      }
    }
    OneMasterConverged(r, ids, k, Least(ids));
  }
}
