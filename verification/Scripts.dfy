/** Writing down a run of a few units event by event. */
module Scripts {
  import opened Parameters
  import opened Outcomes
  import opened Schedules
  import opened Messages
  import opened TaskMachine
  import opened Network

  /** A run that has come to a given state. */
  ghost predicate At(r: NetRun, ids: seq<SystemID>, n: Net) {
    IsJoiningRun(r, ids) && r.states[|r.events|] == n
  }

  /** At most three units, none halted, and none due before the time of the next event. */
  predicate InTime(n: Net, i: nat, t: Time) {
    && i < |n.agents| <= 3 && n.halted == {} && n.now <= t
    && t <= n.agents[0].due
    && (|n.agents| > 1 ==> t <= n.agents[1].due)
    && (|n.agents| > 2 ==> t <= n.agents[2].due)
  }

  lemma Extend(r: NetRun, ids: seq<SystemID>, n: Net, ev: NetEvent, n': Net) returns (r': NetRun)
    requires At(r, ids, n) && IsNetStep(n, ev, n') && Joining(n.agents[ev.unit], ev, n'.agents[ev.unit])
    ensures At(r', ids, n') && r'.events == r.events + [ev] && r'.states == r.states + [n']
  {
    r' := NetRun(r.states + [n'], r.events + [ev]);
    forall k | 0 <= k < |r'.events|
      ensures StepAt(r', k) && JoiningAt(r', k)
    {
      assert r'.states[k] == r.states[k];
      assert k < |r.events| ==> r'.events[k] == r.events[k] && StepAt(r, k) && JoiningAt(r, k);
    }
  }

  /** A task that sends nothing. */
  lemma RunsTask(r: NetRun, ids: seq<SystemID>, n: Net, i: nat, e: Env, s': Agent) returns (r': NetRun)
    requires At(r, ids, n) && i < |n.agents| && InTime(n, i, n.agents[i].due)
    requires e.Legal() && e.scatter.None? && Fire(n.agents[i], e) == Ok(s') && Transmission(n.agents[i], e) == None
    requires !n.agents[i].clique.IsSelfMaster() ==> !s'.clique.IsSelfMaster()
    ensures var n' := n.(agents := n.agents[i := s'], now := n.agents[i].due);
            At(r', ids, n') && r'.events == r.events + [TaskOf(i, e, 0)] && r'.states == r.states + [n']
  {
    r' := Extend(r, ids, n, TaskOf(i, e, 0), n.(agents := n.agents[i := s'], now := n.agents[i].due));
  }

  lemma Sends(r: NetRun, ids: seq<SystemID>, n: Net, i: nat, e: Env, radio: nat, s': Agent, f: Flight)
    returns (r': NetRun)
    requires At(r, ids, n) && i < |n.agents| && InTime(n, i, n.agents[i].due) && radio <= 2 * SLOT
    requires e.Legal() && e.scatter.None? && Fire(n.agents[i], e) == Ok(s') && Transmission(n.agents[i], e) == Some(f.msg)
    requires f.arrival == n.agents[i].due + if n.agents[i].pending == SendSync then n.agents[i].latency else radio
    requires s'.clique == n.agents[i].clique
    ensures var n' := Net(n.agents[i := s'], {}, n.air + {f}, n.agents[i].due);
            At(r', ids, n') && r'.events == r.events + [TaskOf(i, e, radio)] && r'.states == r.states + [n']
  {
    r' := Extend(r, ids, n, TaskOf(i, e, radio), Net(n.agents[i := s'], {}, n.air + {f}, n.agents[i].due));
  }

  lemma Heard(r: NetRun, ids: seq<SystemID>, n: Net, i: nat, f: Flight, s': Agent) returns (r': NetRun)
    requires At(r, ids, n) && InTime(n, i, f.arrival) && f in n.air
    requires CanHear(n.agents[i], f.msg, f.arrival, 0) && Hear(n.agents[i], f.msg, f.arrival, 0) == Ok(s')
    requires !n.agents[i].clique.IsSelfMaster() ==> !s'.clique.IsSelfMaster()
    ensures var n' := Net(n.agents[i := s'], {}, n.air, f.arrival);
            At(r', ids, n') && r'.events == r.events + [Delivery(i, f, 0)] && r'.states == r.states + [n']
  {
    r' := Extend(r, ids, n, Delivery(i, f, 0), Net(n.agents[i := s'], {}, n.air, f.arrival));
  }

  // ----- what units learn -----

  const LOW: Env := Env(false, false, false, false, false, false, false, None, None)
  const POWER: Env := LOW.(powerForSync := true)
  const SEND: Env := POWER.(masterShouldSend := true)

  /** Power to fish; and to fish in this very period, and luck for a merge slot. */
  const IDLE: Env := POWER.(powerForFishMode := true)
  const FISH: Env := IDLE.(powerForFishSlot := true, coin := true)

  // ----- states -----

  /** A period that nothing has moved. */
  function Normal(start: Time): Period {
    Period(start, start + PERIOD, start + PERIOD)
  }
}
