/** The guarantees of the operator, for every run: any steps, in any order, from any start of the manager. */
module OperatorResults {
  import opened Functions
  import opened Cluster
  import opened Controller
  import opened Convergence
  import opened FunctionClient
  import opened Cleanup
  import opened Operator
  import opened OperatorInvariant
  import opened OperatorTheorems
  import opened OperatorLeases

  ghost predicate IsRun(start: System, steps: seq<Step>) {
    Started(start) && forall i :: 0 <= i < |steps| ==> Admissible(steps[i])
  }

  /** The worker has decided to remove the runtime that serves `f`. */
  predicate AboutToDelete(worker: Worker, f: Function) {
    worker.Reconciling? && HasChecked(worker.phase) && SameRuntime(worker.f, f)
  }

  /**
   * An active Function whose Deployment or Service is missing, outdated or about to be deleted is queued, or is the
   * one the worker is building.
   */
  lemma ActiveIsServedOrPending(c: Settings, start: System, steps: seq<Step>, k: Key)
    requires IsRun(start, steps)
    requires var w := Run(c, start, steps).world; k in w.functions && w.functions[k].spec.isActive
    ensures var s := Run(c, start, steps); var f := s.world.functions[k];
      || k in s.world.queue
      || Builds(s.worker, k)
      || (Provisioned(c, s.world, f) && !AboutToDelete(s.worker, f))
  {
    Reachable(c, start, steps);
    var s := Run(c, start, steps);
    hide Run, Started, DeploymentKey, ServiceKey, NewDeployment, NewService, WellNamed, Remembers;
    if AboutToDelete(s.worker, s.world.functions[k]) {
      assert ActiveUsersQueued(s.world, s.worker.f);
      assert SameRuntime(s.world.functions[k], s.worker.f);
    }
  }

  /** A runtime without active user has a Function that is queued, or in flight and on its way to remove it. */
  lemma UnusedRuntimeIsDoomed(c: Settings, start: System, steps: seq<Step>, k: Key)
    requires IsRun(start, steps)
    requires var w := Run(c, start, steps).world;
      k in w.functions && HasRuntime(w, w.functions[k]) && !HasActiveUser(w, w.functions[k])
    ensures var s := Run(c, start, steps); HasCollector(s.world, s.worker, s.world.functions[k])
  {
    Reachable(c, start, steps);
    hide Run, Started, HasRuntime, HasActiveUser, HasCollector;
  }

  /** When the worker has nothing left to do, exactly the active Functions have their runtimes. */
  lemma QuiescentIsSettled(c: Settings, start: System, steps: seq<Step>)
    requires IsRun(start, steps)
    requires Run(c, start, steps).worker.Idle? && Run(c, start, steps).world.queue == {}
    ensures Settled(c, Run(c, start, steps).world, Run(c, start, steps).world.functions.Keys)
  {
    Reachable(c, start, steps);
    IdleInvIsSettled(c, Run(c, start, steps));
  }

  lemma IdleInvIsSettled(c: Settings, s: System)
    requires Inv(c, s) && s.worker.Idle? && s.world.queue == {}
    ensures Settled(c, s.world, s.world.functions.Keys)
  {
  }

  // Linearisation

  /** The call may still be committed: nobody has written its Function since it was read. */
  predicate Undisturbed(s: System, call: Call) {
    call.f.key in s.world.functions && s.world.functions[call.f.key].version == call.f.version
  }

  /**
   * A gRPC operation takes effect at its commit, as if it had been performed on the current object in one step with
   * the time it read; or, if anybody has written the object since it was read, it changes nothing at all.
   */
  lemma CommitActsAtOnce(c: Settings, start: System, steps: seq<Step>, id: nat)
    requires IsRun(start, steps) && id in Run(c, start, steps).calls
    ensures var s := Run(c, start, steps); var call, t := s.calls[id], Next(c, s, Commit(id));
      if Undisturbed(s, call) && (call.HasStamped? || call.op.Deactivate?) then
        var at := if call.HasStamped? then call.at else 0;
        && Applies(call.op, s.world.functions[call.f.key])
        && t.world == Performed(call.op, s.world.(clock := at), call.f.key, ServerKeepWarm(c)).(clock := s.world.clock)
      else t.world == s.world
  {
    Reachable(c, start, steps);
    hide Run, Started, Inv, IsRun, Committed, Performed;
    CommitActs(c, Run(c, start, steps), id);
  }

  lemma CommitActs(c: Settings, s: System, id: nat)
    requires Inv(c, s) && id in s.calls
    ensures var call, t := s.calls[id], Committed(c, s, id);
      if Undisturbed(s, call) && IsReady(call) then
        && Applies(call.op, s.world.functions[call.f.key])
        && t.world ==
          Performed(call.op, s.world.(clock := TimeOf(call)), call.f.key, ServerKeepWarm(c)).(clock := s.world.clock)
      else t.world == s.world
  {
    var call := s.calls[id];
    CommitEffect(c, s, id);
    hide Inv, Committed, Modified, Performed, WriteIfChanged, ServerKeepWarm;
    if Undisturbed(s, call) && IsReady(call) {
      PerformedAt(call.op, s.world, call.f.key, ServerKeepWarm(c), TimeOf(call));
    }
  }

  lemma PerformedAt(op: Operation, w: World, key: Key, keepWarm: int, at: int)
    requires key in w.functions && Applies(op, w.functions[key])
    ensures Performed(op, w.(clock := at), key, keepWarm).(clock := w.clock)
         == WriteIfChanged(w, Modified(op, w.functions[key], keepWarm, at))
  {
  }

  predicate IsReady(call: Call) {
    call.HasStamped? || call.op.Deactivate?
  }

  function TimeOf(call: Call): int {
    if call.HasStamped? then call.at else 0
  }

  lemma CommitEffect(c: Settings, s: System, id: nat)
    requires Inv(c, s) && id in s.calls
    ensures var call, t := s.calls[id], Committed(c, s, id);
      && call.f.key in s.world.functions && Applies(call.op, call.f)
      && if Undisturbed(s, call) && IsReady(call) then
           && s.world.functions[call.f.key] == call.f
           && t.world == WriteIfChanged(s.world, Modified(call.op, call.f, ServerKeepWarm(c), TimeOf(call)))
         else t.world == s.world
  {
  }

  /** The closing update of a reconcile also acts on the current object, or not at all. */
  lemma RenewalActsAtOnce(c: Settings, start: System, steps: seq<Step>)
    requires IsRun(start, steps)
    requires Run(c, start, steps).worker.Reconciling? && Run(c, start, steps).worker.phase.Renew?
    ensures var s := Run(c, start, steps); var f, at, t := s.worker.f, s.worker.phase.at, Next(c, s, Work);
      if f.key in s.world.functions && s.world.functions[f.key].version == f.version then
        && s.world.functions[f.key].spec.isActive
        && t.world == WriteIfChanged(s.world, Renewed(c, s.world.functions[f.key], at))
      else t.world == s.world.(queue := s.world.queue + {f.key})
  {
    Reachable(c, start, steps);
    var s := Run(c, start, steps);
    RenewEffect(c, s, s.worker.f, s.worker.phase.at);
    hide Run, IsRun, Inv, Started, WriteIfChanged, Worked;
  }

  lemma RenewEffect(c: Settings, s: System, f: Function, at: int)
    requires Inv(c, s) && s.worker == Reconciling(f, Renew(at))
    ensures f.key in s.world.functions && f.spec.isActive
    ensures if s.world.functions[f.key].version == f.version then
        && s.world.functions[f.key] == f
        && Worked(c, s).world == WriteIfChanged(s.world, Renewed(c, f, at))
      else Worked(c, s).world == s.world.(queue := s.world.queue + {f.key})
  {
  }

  /** Nothing but the commit of an activation turns an inactive Function active. */
  lemma OnlyActivationWakes(c: Settings, start: System, steps: seq<Step>, step: Step, k: Key)
    requires IsRun(start, steps) && Admissible(step)
    requires var s := Run(c, start, steps); var t := Next(c, s, step);
      && k in t.world.functions && t.world.functions[k].spec.isActive
      && (k in s.world.functions ==> !s.world.functions[k].spec.isActive)
    ensures var s := Run(c, start, steps);
      step.Commit? && step.call in s.calls && s.calls[step.call].op.Activate? && s.calls[step.call].f.key == k
  {
    Reachable(c, start, steps);
    hide Run, Started;
    WakingStep(c, Run(c, start, steps), step, k);
  }

  lemma WakingStep(c: Settings, s: System, step: Step, k: Key)
    requires Inv(c, s)
    requires var t := Next(c, s, step);
      && k in t.world.functions && t.world.functions[k].spec.isActive
      && (k in s.world.functions ==> !s.world.functions[k].spec.isActive)
    ensures step.Commit? && step.call in s.calls && s.calls[step.call].op.Activate? && s.calls[step.call].f.key == k
  {
    match step {
      case Commit(id) => if id in s.calls { CommitWakes(c, s, id, k); }
      case Work => WorkWakesNobody(c, s, k);
      case CleanUp(key) => if key in s.world.functions { CleanUpWakesNobody(s.world, key, k); }
      case _ =>
        hide Inv;
        OtherStepsKeepFunctions(c, s, step);
        hide Next;
    }
  }

  lemma CommitWakes(c: Settings, s: System, id: nat, k: Key)
    requires Inv(c, s) && id in s.calls
    requires var t := Committed(c, s, id);
      && k in t.world.functions && t.world.functions[k].spec.isActive
      && (k in s.world.functions ==> !s.world.functions[k].spec.isActive)
    ensures s.calls[id].op.Activate? && s.calls[id].f.key == k
  {
    CommitEffect(c, s, id);
    hide Inv, Committed;
  }

  lemma CleanUpWakesNobody(w: World, key: Key, k: Key)
    requires key in w.functions && k in Expire(w, key).functions && Expire(w, key).functions[k].spec.isActive
    requires WellNamed(w)
    ensures k in w.functions && w.functions[k].spec.isActive
  {
  }

  lemma WorkWakesNobody(c: Settings, s: System, k: Key)
    requires Inv(c, s) && k in Worked(c, s).world.functions && Worked(c, s).world.functions[k].spec.isActive
    ensures k in s.world.functions && s.world.functions[k].spec.isActive
  {
    if s.worker.Reconciling? && s.worker.phase.Renew? {
      RenewEffect(c, s, s.worker.f, s.worker.phase.at);
      hide Inv, Worked;
    } else {
      WorkIsQuiet(c, s);
      hide Worked;
    }
  }

  /**
   * A Function is created as the request says, inactive and without lease, and no other one changes; one that exists
   * already is left alone.
   */
  lemma CreationStoresRequest(c: Settings, s: System, key: Key, project: string, language: string, isAsync: bool)
    ensures var t := Next(c, s, Create(key, project, language, isAsync));
      if key in s.world.functions then t == s
      else
        && t.world.functions.Keys == s.world.functions.Keys + {key} && key in t.world.queue
        && (forall k :: k in s.world.functions ==> t.world.functions[k] == s.world.functions[k])
        && var f := t.world.functions[key];
          && f.key == key && f.spec.project == project && f.spec.language == language && f.spec.name == key.name
          && f.spec.isAsync == isAsync && !f.spec.isActive && f.spec.lease == Unset
          && f.spec.gitCreds == "" && f.spec.httpMethod == ""
  {
  }

  /** The step has failed without effect, and the reconcile will be taken up again. */
  ghost predicate HasGivenUp(s: System, t: System)
    requires s.worker.Reconciling?
  {
    t == s.(world := s.world.(queue := s.world.queue + {s.worker.f.key}), worker := Idle)
  }

  /**
   * The call of a reconcile that writes the Deployment acts on what the call before it found, which somebody else may
   * have changed, removed or put back since: then it has no effect.
   */
  lemma DeploymentCallsActOnWhatWasFound(c: Settings, s: System)
    requires s.worker.Reconciling?
    ensures var t, phase, key := Next(c, s, Work), s.worker.phase, DeploymentKey(s.worker.f);
      && (phase.MakeDeployment? ==>
            if key in s.world.deployments then HasGivenUp(s, t)
            else key in t.world.deployments && t.world.deployments[key].template == NewDeployment(c, s.worker.f))
      && (phase.ChangeDeployment? ==>
            if key !in s.world.deployments || s.world.deployments[key].version != phase.found then HasGivenUp(s, t)
            else key in t.world.deployments && t.world.deployments[key].template == NewDeployment(c, s.worker.f))
      && (phase.DeleteDoomedDeployment? ==>
            if key !in s.world.deployments then HasGivenUp(s, t) else key !in t.world.deployments)
  {
    assert NewDeployment(c, s.worker.f).key == DeploymentKey(s.worker.f);
    hide DeploymentKey, NewDeployment;
  }

  /** The same of the Service, which keeps the address that was found. */
  lemma ServiceCallsActOnWhatWasFound(c: Settings, s: System)
    requires s.worker.Reconciling?
    ensures var t, phase, key := Next(c, s, Work), s.worker.phase, ServiceKey(s.worker.f);
      && (phase.MakeService? ==>
            if key in s.world.services then HasGivenUp(s, t)
            else key in t.world.services && t.world.services[key].template == NewService(s.worker.f))
      && (phase.ChangeService? ==>
            if key !in s.world.services || s.world.services[key].version != phase.found then HasGivenUp(s, t)
            else
              && key in t.world.services && t.world.services[key].template == NewService(s.worker.f)
              && t.world.services[key].clusterIP == phase.clusterIP)
      && (phase.DeleteDoomedService? ==>
            if key !in s.world.services then HasGivenUp(s, t) else key !in t.world.services)
  {
    assert NewService(s.worker.f).key == ServiceKey(s.worker.f);
    hide ServiceKey, NewService;
  }

  // Leases

  /** Every active Function has a lease, which ends at most one keep-warm time from now. */
  lemma LeaseBounded(c: Settings, start: System, steps: seq<Step>, k: Key)
    requires c.keepWarm > 0 && IsRun(start, steps) && LeasesInReach(c, start.world)
    requires var w := Run(c, start, steps).world; k in w.functions
    ensures var w := Run(c, start, steps).world; var f := w.functions[k];
      && (f.spec.isActive ==> f.spec.lease.Until?)
      && (f.spec.lease.Until? ==> f.spec.lease.second * SECOND <= w.clock + c.keepWarm)
  {
    LeasesReachable(c, start, steps);
    var w := Run(c, start, steps).world;
    assert LeaseInReach(c, w, w.functions[k]);
  }

  /** No step moves a lease to an earlier time, or removes it. */
  lemma LeaseNeverRecedes(c: Settings, start: System, steps: seq<Step>, step: Step, k: Key)
    requires c.keepWarm > 0 && IsRun(start, steps) && LeasesInReach(c, start.world) && Admissible(step)
    requires var w := Run(c, start, steps).world; k in w.functions && w.functions[k].spec.lease.Until?
    ensures var before, after := Run(c, start, steps).world, Next(c, Run(c, start, steps), step).world;
      && k in after.functions && after.functions[k].spec.lease.Until?
      && before.functions[k].spec.lease.second <= after.functions[k].spec.lease.second
  {
    LeasesReachable(c, start, steps);
    hide Run, Started;
    StepKeepsLease(c, Run(c, start, steps), step, k);
  }

  lemma StepKeepsLease(c: Settings, s: System, step: Step, k: Key)
    requires c.keepWarm > 0 && Inv(c, s) && LeaseInv(c, s)
    requires k in s.world.functions && s.world.functions[k].spec.lease.Until?
    ensures var t := Next(c, s, step).world;
      && k in t.functions && t.functions[k].spec.lease.Until?
      && s.world.functions[k].spec.lease.second <= t.functions[k].spec.lease.second
  {
    match step {
      case Commit(id) => if id in s.calls { CommitKeepsLease(c, s, id, k); }
      case Work => WorkKeepsLease(c, s, k);
      case CleanUp(key) => if key in s.world.functions { CleanUpKeepsLease(s.world, key, k); }
      case _ =>
        hide Inv, LeaseInv;
        OtherStepsKeepFunctions(c, s, step);
        hide Next;
    }
  }

  lemma OtherStepsKeepFunctions(c: Settings, s: System, step: Step)
    requires !step.Commit? && !step.Work? && !step.CleanUp?
    ensures forall k :: k in s.world.functions ==>
      k in Next(c, s, step).world.functions && Next(c, s, step).world.functions[k] == s.world.functions[k]
    ensures forall k :: k in Next(c, s, step).world.functions && k !in s.world.functions ==>
      !Next(c, s, step).world.functions[k].spec.isActive
  {
  }

  /** The lease of `k` in `v` is there and ends no earlier than in `w`. */
  ghost predicate LeaseKept(w: World, v: World, k: Key) {
    k in w.functions && w.functions[k].spec.lease.Until? ==>
      && k in v.functions && v.functions[k].spec.lease.Until?
      && w.functions[k].spec.lease.second <= v.functions[k].spec.lease.second
  }

  lemma CommitKeepsLease(c: Settings, s: System, id: nat, k: Key)
    requires c.keepWarm > 0 && Inv(c, s) && LeaseInv(c, s) && id in s.calls
    ensures LeaseKept(s.world, Committed(c, s, id).world, k)
  {
    var call := s.calls[id];
    CommitEffect(c, s, id);
    ServerAgrees(c);
    assert call.HasStamped? ==> Ready(c, s.world, call.f, call.at);
    hide Inv, LeaseInv, Committed, ServerKeepWarm;
  }

  lemma WorkKeepsLease(c: Settings, s: System, k: Key)
    requires Inv(c, s) && LeaseInv(c, s)
    ensures LeaseKept(s.world, Worked(c, s).world, k)
  {
    if s.worker.Reconciling? && s.worker.phase.Renew? {
      RenewEffect(c, s, s.worker.f, s.worker.phase.at);
      assert Ready(c, s.world, s.worker.f, s.worker.phase.at);
      hide Inv, LeaseInv, Worked;
    } else {
      WorkIsQuiet(c, s);
      hide Worked;
    }
  }

  lemma CleanUpKeepsLease(w: World, key: Key, k: Key)
    requires WellNamed(w) && key in w.functions
    ensures LeaseKept(w, Expire(w, key), k)
  {
  }

  /** A committed lease write is on record from then on, with the latest time any of them read. */
  lemma RenewalsOnRecord(c: Settings, s: System, step: Step, k: Key)
    ensures var t := Next(c, s, step);
      && (k in s.renewals ==> k in t.renewals && s.renewals[k] <= t.renewals[k])
      && (step.Commit? && step.call in s.calls && s.calls[step.call].HasStamped? && !s.calls[step.call].op.Deactivate?
          && Undisturbed(s, s.calls[step.call]) ==>
            var call := s.calls[step.call]; call.f.key in t.renewals && call.at <= t.renewals[call.f.key])
      && (step.Work? && s.worker.Reconciling? && s.worker.phase.Renew?
          && s.worker.f.key in s.world.functions && s.world.functions[s.worker.f.key].version == s.worker.f.version ==>
            s.worker.f.key in t.renewals && s.worker.phase.at <= t.renewals[s.worker.f.key])
  {
    if step.Work? && !(s.worker.Reconciling? && s.worker.phase.Renew?) {
      WorkIsQuiet(c, s);
      hide Worked;
    }
  }

  /**
   * Cleanup cannot deactivate a Function if some lease write read the clock within the last keep-warm time less one
   * second: the text of the lease drops less than a second.
   */
  lemma CleanupSparesRenewed(c: Settings, start: System, steps: seq<Step>, k: Key)
    requires c.keepWarm > 0 && IsRun(start, steps) && LeasesInReach(c, start.world)
    requires var s := Run(c, start, steps);
      k in s.renewals && s.renewals[k] >= s.world.clock - c.keepWarm + SECOND - 1
    ensures var s := Run(c, start, steps);
      k in s.world.functions && !Expired(s.world.functions[k], s.world.clock) && Next(c, s, CleanUp(k)) == s
  {
    LeasesReachable(c, start, steps);
    hide Run, Started, Inv, LeasesInReach, WritesReady, Expire;
    var s := Run(c, start, steps);
    TruncationIsShort(s.renewals[k] + c.keepWarm);
  }

  lemma TruncationIsShort(t: int)
    ensures t - SECOND < (t / SECOND) * SECOND <= t
  {
  }
}
