/** Where the lease guarantees end: runs of the operator that show that their conditions cannot be dropped. */
module OperatorLimits {
  import opened Functions
  import opened Cluster
  import opened Controller
  import opened Drain
  import opened FunctionClient
  import opened Cleanup
  import opened Operator
  import opened OperatorLeases
  import opened OperatorResults
  import opened OperatorRefinement

  lemma RunOneMore(c: Settings, s: System, steps: seq<Step>, step: Step)
    ensures Run(c, s, steps + [step]) == Next(c, Run(c, s, steps), step)
  {
    assert (steps + [step])[..|steps|] == steps;
  }

  /** The steps of an undisturbed activation. */
  function Activation(k: Key): seq<Step> {
    [Read(0, Operation.Activate, k), Stamp(0), Commit(0)]
  }

  /** They perform it at the current time, and put that time on record. */
  lemma ActivationRuns(c: Settings, s: System, steps: seq<Step>, k: Key)
    requires var r := Run(c, s, steps); r.calls == map[] && WellNamed(r.world) && k in r.world.functions
    ensures var r, t := Run(c, s, steps), Run(c, s, steps + Activation(k));
      && t.world == Performed(Operation.Activate, r.world, k, ServerKeepWarm(c))
      && t.worker == r.worker && t.renewals == Later(r.renewals, k, r.world.clock)
  {
    var r := Run(c, s, steps);
    RunOneMore(c, s, steps, Read(0, Operation.Activate, k));
    RunOneMore(c, s, steps + [Read(0, Operation.Activate, k)], Stamp(0));
    RunOneMore(c, s, steps + [Read(0, Operation.Activate, k)] + [Stamp(0)], Commit(0));
    assert steps + [Read(0, Operation.Activate, k)] + [Stamp(0)] + [Commit(0)] == steps + Activation(k);
    hide Run, ServerKeepWarm, WellFormed;
    ActivationSteps(c, r, k);
  }

  lemma ActivationSteps(c: Settings, r: System, k: Key)
    requires r.calls == map[] && WellNamed(r.world) && k in r.world.functions
    ensures var t := Next(c, Next(c, Next(c, r, Read(0, Operation.Activate, k)), Stamp(0)), Commit(0));
      && t.world == Performed(Operation.Activate, r.world, k, ServerKeepWarm(c))
      && t.worker == r.worker && t.renewals == Later(r.renewals, k, r.world.clock)
  {
    hide ServerKeepWarm, WellFormed, Later;
    assert r.world.functions[k].key == k;
    var f := r.world.functions[k];
    assert Next(c, Next(c, r, Read(0, Operation.Activate, k)), Stamp(0)).calls ==
      map[0 := HasStamped(Operation.Activate, f, r.world.clock)];
  }

  // The window in which cleanup spares a Function

  /**
   * From every start of the manager there is a run in which a Function is renewed one nanosecond before the window
   * that `CleanupSparesRenewed` promises, and cleanup switches it off. (Below a second less two nanoseconds of
   * keep-warm time the window lies in the future, so nothing can be renewed before it.)
   */
  lemma SpareWindowIsTight(c: Settings, start: System, k: Key) returns (steps: seq<Step>)
    requires Started(start) && k in start.world.functions && c.keepWarm >= SECOND - 2
    ensures IsRun(start, steps)
    ensures var s := Run(c, start, steps);
      && k in s.renewals && s.renewals[k] == s.world.clock - c.keepWarm + SECOND - 2
      && k in s.world.functions && s.world.functions[k].spec.isActive
      && k in Next(c, s, CleanUp(k)).world.functions && !Next(c, s, CleanUp(k)).world.functions[k].spec.isActive
  {
    var wait := (SECOND - 1 - (start.world.clock + c.keepWarm)) % SECOND;
    var more := c.keepWarm - SECOND + 2;
    steps := [Tick(wait)] + Activation(k) + [Tick(more)];
    LateActivation(c, start, k, wait, more);
    hide Run, Next;
    ExpiryEnds(c, Run(c, start, steps), k);
  }

  /** Waiting, an activation, and waiting again: the activation is on record and its lease just over. */
  lemma LateActivation(c: Settings, start: System, k: Key, wait: nat, more: nat)
    requires Started(start) && k in start.world.functions && c.keepWarm > 0
    requires (start.world.clock + wait + c.keepWarm) % SECOND == SECOND - 1 && more == c.keepWarm - SECOND + 2
    ensures var s := Run(c, start, [Tick(wait)] + Activation(k) + [Tick(more)]);
      && k in s.renewals && s.renewals[k] == s.world.clock - more
      && WellNamed(s.world) && k in s.world.functions && Expired(s.world.functions[k], s.world.clock)
  {
    var s0 := Next(c, start, Tick(wait));
    RunOneMore(c, start, [], Tick(wait));
    assert [] + [Tick(wait)] == [Tick(wait)];
    TickMoves(c, start, wait);
    ActivationRuns(c, start, [Tick(wait)], k);
    var s1 := Run(c, start, [Tick(wait)] + Activation(k));
    RunOneMore(c, start, [Tick(wait)] + Activation(k), Tick(more));
    TickMoves(c, s1, more);
    hide Run, Next, Performed, ServerKeepWarm;
    LateExpiry(c, s0, s1, k, more);
  }

  lemma LateExpiry(c: Settings, s: System, t: System, k: Key, more: nat)
    requires WellNamed(s.world) && k in s.world.functions && k !in s.renewals && c.keepWarm > 0
    requires (s.world.clock + c.keepWarm) % SECOND == SECOND - 1 && more == c.keepWarm - SECOND + 2
    requires t.world == Performed(Operation.Activate, s.world, k, ServerKeepWarm(c))
    requires t.renewals == Later(s.renewals, k, s.world.clock)
    ensures var w := t.world.(clock := t.world.clock + more);
      && k in t.renewals && t.renewals[k] == w.clock - more
      && WellNamed(w) && k in w.functions && Expired(w.functions[k], w.clock)
  {
    LateLease(c, s.world, k, more);
    hide Over, WellNamed, Performed;
    ClockIsNoName(t.world, more);
  }

  lemma ClockIsNoName(w: World, more: int)
    requires WellNamed(w)
    ensures WellNamed(w.(clock := w.clock + more))
  {
  }

  lemma TickMoves(c: Settings, s: System, nanos: nat)
    ensures Next(c, s, Tick(nanos)) == s.(world := s.world.(clock := s.world.clock + nanos))
  {
  }

  /** The lease of an activation loses all but a nanosecond of a second, and is over right after. */
  lemma LateLease(c: Settings, w: World, k: Key, more: int)
    requires WellNamed(w) && k in w.functions && c.keepWarm > 0
    requires (w.clock + c.keepWarm) % SECOND == SECOND - 1 && more == c.keepWarm - SECOND + 2
    ensures var v := Performed(Operation.Activate, w, k, ServerKeepWarm(c));
      && WellNamed(v) && k in v.functions && v.functions[k].spec.isActive && v.clock == w.clock
      && Over(v.functions[k].spec.lease, w.clock + more)
  {
    var t := w.clock + c.keepWarm;
    assert t == (t / SECOND) * SECOND + (SECOND - 1);
    assert w.functions[k].key == k;
  }

  lemma ExpiryEnds(c: Settings, s: System, k: Key)
    requires WellNamed(s.world) && k in s.world.functions && Expired(s.world.functions[k], s.world.clock)
    ensures k in Next(c, s, CleanUp(k)).world.functions && !Next(c, s, CleanUp(k)).world.functions[k].spec.isActive
  {
    hide SharedInUse, DeploymentKey, ServiceKey;
  }

  // The keep-warm time

  /**
   * After an activation the next reconcile cuts the lease exactly when the configured keep-warm time is not positive.
   */
  lemma LeaseRecedesIff(c: Settings, w: World, k: Key)
    requires WellNamed(w) && k in w.functions
    ensures var v := Performed(Operation.Activate, w, k, ServerKeepWarm(c)); var u := Reconciled(c, v, k);
      && k in v.functions && v.functions[k].spec.lease.Until? && k in u.functions && u.functions[k].spec.lease.Until?
      && (u.functions[k].spec.lease.second < v.functions[k].spec.lease.second <==> c.keepWarm <= 0)
      && (c.keepWarm > 0 ==> u.functions[k].spec.lease == v.functions[k].spec.lease)
  {
    var v := Performed(Operation.Activate, w, k, ServerKeepWarm(c));
    assert w.functions[k].key == k;
    assert WellNamed(v);
    ReconciledWrites(c, v, k);
    hide Reconciled, WellNamed;
    assert v.functions[k].spec.isActive && v.functions[k].spec.lease == Format(w.clock + ServerKeepWarm(c));
  }

  /** No step of any run moves a lease to an earlier time. */
  ghost predicate NeverRecedes(c: Settings, start: System) {
    forall steps: seq<Step>, step: Step, k: Key :: IsRun(start, steps) && Admissible(step) ==>
      LeaseKept(Run(c, start, steps).world, Next(c, Run(c, start, steps), step).world, k)
  }

  lemma {:induction false} LeaseKeptAlong(c: Settings, start: System, a: seq<Step>, b: seq<Step>, k: Key)
    requires NeverRecedes(c, start) && IsRun(start, a + b)
    ensures LeaseKept(Run(c, start, a).world, Run(c, start, a + b).world, k)
  {
    if b == [] {
      assert a + b == a;
    } else {
      var shorter, last := b[..|b| - 1], b[|b| - 1];
      assert a + b == (a + shorter) + [last];
      assert IsRun(start, a + shorter) && Admissible(last) by {
        assert (a + b)[|a + b| - 1] == last;
        assert forall i :: 0 <= i < |a + shorter| ==> (a + shorter)[i] == (a + b)[i];
      }
      LeaseKeptAlong(c, start, a, shorter, k);
      RunOneMore(c, start, a + shorter, last);
      hide Run, Next, IsRun;
      assert LeaseKept(Run(c, start, a + shorter).world, Next(c, Run(c, start, a + shorter), last).world, k);
    }
  }

  /** The worker's steps to the end of what it is at. */
  lemma WorkToTheEnd(c: Settings, start: System, a: seq<Step>) returns (b: seq<Step>)
    ensures Run(c, start, a + b) == Finished(c, Run(c, start, a)) && forall i :: 0 <= i < |b| ==> b[i] == Work
    decreases CallsLeft(Run(c, start, a).worker)
  {
    b := [];
    if Run(c, start, a).worker.Idle? {
      assert a + b == a;
    } else {
      RunOneMore(c, start, a, Work);
      WorkMakesProgress(c, Run(c, start, a));
      hide Run, Worked, CallsLeft;
      var rest := WorkToTheEnd(c, start, a + [Work]);
      b := [Work] + rest;
      assert a + b == a + [Work] + rest;
    }
  }

  /** The lease that a reconcile writes does not depend on the queue. */
  lemma QueueIsNoLease(c: Settings, w: World, queue: set<Key>, k: Key)
    requires WellNamed(w)
    ensures var u, v := Reconciled(c, w, k), Reconciled(c, w.(queue := queue), k);
      u.functions.Keys == v.functions.Keys && (k in u.functions ==> u.functions[k].spec == v.functions[k].spec)
  {
    assert WellNamed(w.(queue := queue));
    ReconciledWrites(c, w, k);
    ReconciledWrites(c, w.(queue := queue), k);
    hide Reconciled, WellNamed;
  }

  lemma ActivatedIsQueued(w: World, k: Key, keepWarm: int)
    requires WellNamed(w) && k in w.functions && k in w.queue
    ensures var v := Performed(Operation.Activate, w, k, keepWarm); WellNamed(v) && k in v.functions && k in v.queue
  {
    assert w.functions[k].key == k;
  }

  /** Taking an activated Function and working to the end cuts its lease. */
  lemma TakeAndFinishCuts(c: Settings, w: World, s: System, k: Key)
    requires WellNamed(w) && k in w.functions && k in w.queue && c.keepWarm <= 0
    requires s.worker.Idle? && s.world == Performed(Operation.Activate, w, k, ServerKeepWarm(c))
    ensures !LeaseKept(s.world, Finished(c, Next(c, s, Take(k))).world, k)
  {
    ActivatedIsQueued(w, k, ServerKeepWarm(c));
    var t := Next(c, s, Take(k));
    assert t.worker == Fetching(k) && t.world == s.world.(queue := s.world.queue - {k});
    assert WellNamed(t.world);
    AloneIsAtomic(c, t, k);
    LeaseRecedesIff(c, w, k);
    QueueIsNoLease(c, s.world, s.world.queue - {k}, k);
    hide Finished, Reconciled, Performed, Next, WellNamed, ServerKeepWarm;
  }

  /** With a keep-warm time that is not positive some run moves a lease to an earlier time. */
  lemma SomeLeaseRecedes(c: Settings, start: System, k: Key) returns (a: seq<Step>, b: seq<Step>)
    requires Started(start) && k in start.world.functions && c.keepWarm <= 0
    ensures IsRun(start, a + b) && !LeaseKept(Run(c, start, a).world, Run(c, start, a + b).world, k)
  {
    a := Activation(k);
    assert [] + a == a;
    ActivationRuns(c, start, [], k);
    TakeAndFinishCuts(c, start.world, Run(c, start, a), k);
    RunOneMore(c, start, a, Take(k));
    var rest := WorkToTheEnd(c, start, a + [Take(k)]);
    b := [Take(k)] + rest;
    assert a + [Take(k)] + rest == a + b;
    hide Run, Next, Performed, ServerKeepWarm, LeaseKept, Finished;
  }

  /**
   * Leases never recede, in any run from a start with leases in reach, if and only if the keep-warm time is positive:
   * otherwise server and controller use different ones.
   */
  lemma KeepWarmMustBePositive(c: Settings, start: System, k: Key)
    requires Started(start) && LeasesInReach(c, start.world) && k in start.world.functions
    ensures NeverRecedes(c, start) <==> c.keepWarm > 0
    ensures ServerKeepWarm(c) == c.keepWarm <==> c.keepWarm > 0
  {
    if c.keepWarm > 0 {
      forall steps: seq<Step>, step: Step, j: Key | IsRun(start, steps) && Admissible(step)
        ensures LeaseKept(Run(c, start, steps).world, Next(c, Run(c, start, steps), step).world, j)
      {
        hide Run, Next, Started, LeasesInReach;
        var w := Run(c, start, steps).world;
        if j in w.functions && w.functions[j].spec.lease.Until? {
          LeaseNeverRecedes(c, start, steps, step, j);
        }
      }
    } else {
      var a, b := SomeLeaseRecedes(c, start, k);
      hide Run, IsRun, NeverRecedes, LeaseKept;
      if NeverRecedes(c, start) {
        LeaseKeptAlong(c, start, a, b, k);
      }
    }
  }
}
