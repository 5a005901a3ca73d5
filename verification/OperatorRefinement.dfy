/** Left alone, the worker's API calls add up to one atomic reconcile; and the worker then empties its queue. */
module OperatorRefinement {
  import opened Functions
  import opened Cluster
  import opened Controller
  import opened Convergence
  import opened Drain
  import opened FunctionClient
  import opened Operator
  import opened OperatorInvariant
  import opened OperatorSteps
  import opened OperatorTheorems
  import opened OperatorResults

  /** The API calls left in a phase, at most. */
  function CallsLeft(worker: Worker): nat {
    match worker
    case Idle => 0
    case Fetching(_) => 10
    case Reconciling(_, phase) =>
      match phase
      case CheckUse => 5
      case FindDoomedDeployment => 4
      case DeleteDoomedDeployment => 3
      case FindDoomedService => 2
      case DeleteDoomedService => 1
      case FindDeployment => 6
      case MakeDeployment => 5
      case ChangeDeployment(_) => 5
      case FindService => 4
      case MakeService => 3
      case ChangeService(_, _) => 3
      case ReadClock => 2
      case Renew(_) => 1
  }

  lemma WorkMakesProgress(c: Settings, s: System)
    requires !s.worker.Idle?
    ensures CallsLeft(Worked(c, s).worker) < CallsLeft(s.worker)
  {
    hide DeploymentKey, ServiceKey, NewDeployment, NewService, SharedInUse;
    match s.worker {
      case Fetching(_) =>
      case Reconciling(f, phase) => CallMakesProgress(c, s, f, phase);
    }
  }

  lemma CallMakesProgress(c: Settings, s: System, f: Function, phase: Phase)
    requires s.worker == Reconciling(f, phase)
    ensures CallsLeft(Called(c, s, f, phase).worker) < CallsLeft(s.worker)
  {
    hide DeploymentKey, ServiceKey, NewDeployment, NewService, SharedInUse, CreateDeployment, UpdateDeployment;
    hide DeleteDeployment;
    hide CreateService, UpdateService, DeleteService, UpdateFunction;
    match phase {
      case FindDoomedDeployment => { }
      case FindDeployment => { }
      case FindService => { }
      case _ => { }
    }
  }

  /** The worker runs to the end of its reconcile with nobody in between. */
  ghost function Finished(c: Settings, s: System): System
    decreases CallsLeft(s.worker)
  {
    if s.worker.Idle? then s
    else
      WorkMakesProgress(c, s);
      Finished(c, Worked(c, s))
  }

  lemma {:induction false} FinishingKeepsInv(c: Settings, s: System)
    requires Inv(c, s)
    ensures Inv(c, Finished(c, s)) && Finished(c, s).worker.Idle?
    decreases CallsLeft(s.worker)
  {
    if !s.worker.Idle? {
      WorkMakesProgress(c, s);
      WorkKeepsInv(c, s);
      hide Inv, Worked;
      FinishingKeepsInv(c, Worked(c, s));
    }
  }

  lemma FinishStep(c: Settings, s: System, t: System)
    requires !s.worker.Idle? && Worked(c, s) == t
    ensures Finished(c, s) == Finished(c, t)
  {
  }

  lemma FinishServiceRemoval(c: Settings, s: System, f: Function)
    requires s.worker == Reconciling(f, FindDoomedService)
    ensures Finished(c, s).world == s.world.(services := s.world.services - {ServiceKey(f)})
  {
    var t := Worked(c, s);
    FinishStep(c, s, t);
    hide ServiceKey;
    if t.worker.Idle? {
      assert s.world.services - {ServiceKey(f)} == s.world.services;
    } else {
      FinishStep(c, t, Worked(c, t));
    }
  }

  lemma FinishRemoval(c: Settings, s: System, f: Function)
    requires s.worker == Reconciling(f, FindDoomedDeployment)
    ensures Finished(c, s).world == RemoveRuntime(s.world, f)
  {
    var t := Worked(c, s);
    FinishStep(c, s, t);
    hide DeploymentKey, ServiceKey, Finished;
    if t.worker.phase.DeleteDoomedDeployment? {
      FinishStep(c, t, Worked(c, t));
      FinishServiceRemoval(c, Worked(c, t), f);
    } else {
      assert s.world.deployments - {DeploymentKey(f)} == s.world.deployments;
      FinishServiceRemoval(c, t, f);
    }
  }

  lemma FinishRenewal(c: Settings, s: System, f: Function)
    requires s.worker == Reconciling(f, ReadClock) && f.key in s.world.functions && s.world.functions[f.key] == f
    ensures Finished(c, s).world == WriteIfChanged(s.world, Renewed(c, f, s.world.clock))
  {
    var t := Worked(c, s);
    FinishStep(c, s, t);
    FinishStep(c, t, Worked(c, t));
  }

  lemma FinishService(c: Settings, s: System, f: Function)
    requires s.worker == Reconciling(f, FindService) && f.key in s.world.functions && s.world.functions[f.key] == f
    ensures Finished(c, s).world == WriteIfChanged(PutService(s.world, NewService(f)), Renewed(c, f, s.world.clock))
  {
    var t := Worked(c, s);
    TemplateKeys(c, f);
    FinishStep(c, s, t);
    FinishStep(c, t, Worked(c, t));
    hide Finished, ServiceKey, NewService;
    FinishRenewal(c, Worked(c, t), f);
  }

  lemma FinishBuild(c: Settings, s: System, f: Function)
    requires s.worker == Reconciling(f, FindDeployment) && f.key in s.world.functions && s.world.functions[f.key] == f
    ensures Finished(c, s).world == WriteIfChanged(Provision(c, s.world, f), Renewed(c, f, s.world.clock))
  {
    var t := Worked(c, s);
    TemplateKeys(c, f);
    FinishStep(c, s, t);
    FinishStep(c, t, Worked(c, t));
    hide Finished, DeploymentKey, NewDeployment, PutService;
    FinishService(c, Worked(c, t), f);
  }

  /** The worker's API calls, with nobody in between, have the effect of one atomic reconcile. */
  lemma AloneIsAtomic(c: Settings, s: System, key: Key)
    requires s.worker == Fetching(key) && WellNamed(s.world)
    ensures Finished(c, s).world == Reconciled(c, s.world, key)
  {
    var t := Worked(c, s);
    FinishStep(c, s, t);
    hide Finished, DeploymentKey, ServiceKey, RemoveRuntime, Provision;
    if key in s.world.functions {
      var f := s.world.functions[key];
      if f.spec.isActive {
        FinishBuild(c, t, f);
      } else if t.worker == Reconciling(f, CheckUse) {
        FinishStep(c, t, Worked(c, t));
        if !SharedInUse(s.world, f) {
          FinishRemoval(c, Worked(c, t), f);
        } else {
          FinishedIdle(c, Worked(c, t));
        }
      } else {
        FinishRemoval(c, t, f);
      }
    } else {
      FinishedIdle(c, t);
    }
  }

  lemma FinishedIdle(c: Settings, s: System)
    requires s.worker.Idle?
    ensures Finished(c, s) == s
  {
  }

  /** One key processed by an otherwise idle operator. */
  lemma ProcessingKeepsInv(c: Settings, s: System, visit: Visit)
    requires Inv(c, s) && s.worker.Idle? && visit.key in s.world.queue
    ensures exists t: System :: Inv(c, t) && t.worker.Idle? && t.world == Processed(c, s.world, visit)
  {
    var s1 := s.(world := s.world.(clock := visit.at));
    TickKeepsInv(c, s, visit.at);
    TakeKeepsInv(c, s1, visit.key);
    var s2 := Next(c, s1, Take(visit.key));
    FinishingKeepsInv(c, s2);
    AloneIsAtomic(c, s2, visit.key);
    hide Inv, Finished, Reconciled;
    assert s2.world == s.world.(clock := visit.at, queue := s.world.queue - {visit.key});
    assert Finished(c, s2).world == Processed(c, s.world, visit);
  }

  lemma {:induction false} WorkerRunKeepsInv(c: Settings, s: System, visits: seq<Visit>)
    requires Inv(c, s) && s.worker.Idle? && IsWorkerRun(c, s.world, visits)
    ensures exists t: System :: Inv(c, t) && t.worker.Idle? && t.world == ProcessedAll(c, s.world, visits)
    decreases |visits|
  {
    if visits != [] {
      ProcessingKeepsInv(c, s, visits[0]);
      hide Inv, Processed;
      var t: System :| Inv(c, t) && t.worker.Idle? && t.world == Processed(c, s.world, visits[0]);
      WorkerRunKeepsInv(c, t, visits[1..]);
    }
  }

  /**
   * From any reachable state: however the worker, when it has finished what it is at and nobody else acts, empties its
   * queue, it leaves exactly the active Functions with runtimes.
   */
  lemma DrainedIsSettled(c: Settings, start: System, steps: seq<Step>, visits: seq<Visit>)
    requires IsRun(start, steps)
    requires var w := Finished(c, Run(c, start, steps)).world;
      IsWorkerRun(c, w, visits) && ProcessedAll(c, w, visits).queue == {}
    ensures var w := ProcessedAll(c, Finished(c, Run(c, start, steps)).world, visits);
      Settled(c, w, w.functions.Keys)
  {
    Reachable(c, start, steps);
    FinishingKeepsInv(c, Run(c, start, steps));
    var s := Finished(c, Run(c, start, steps));
    hide Run, IsRun, Inv, Started, Finished;
    WorkerRunKeepsInv(c, s, visits);
    var t: System :| Inv(c, t) && t.worker.Idle? && t.world == ProcessedAll(c, s.world, visits);
    IdleInvIsSettled(c, t);
  }

  /** At a fixed time the worker empties its queue, whichever key it takes first, within the bound on pending work. */
  lemma {:induction false} QueueEmpties(c: Settings, w: World, at: int) returns (visits: seq<Visit>)
    requires WellNamed(w) && w.clock <= at
    ensures IsWorkerRun(c, w, visits) && ProcessedAll(c, w, visits).queue == {}
    ensures |visits| <= |w.queue| + |OffTarget(w, Target(c, at))|
    decreases Pending(w, Target(c, at), Target(c, at))
  {
    visits := [];
    if w.queue != {} {
      var key :| key in w.queue;
      var v := Processed(c, w, Visit(key, at));
      ProcessedEffect(c, w, Visit(key, at));
      ProcessingDecreases(c, w, Visit(key, at), Target(c, at));
      hide Processed, WellNamed, Target, OffTarget, Active;
      NoTimePasses(v, Target(c, at));
      NoTimePasses(w, Target(c, at));
      var rest := QueueEmpties(c, v, at);
      visits := [Visit(key, at)] + rest;
      assert visits[1..] == rest;
    }
  }

  /**
   * Why the guarantees take a cleanup iteration as one step. If a Function `h` is activated and reconciled after the
   * cleanup job has found the runtime of `f` unused but before it deletes it, then `h` is left active with neither
   * Deployment nor Service, and unless its lease changes again nothing is queued that would restore them.
   */
  lemma SplitCleanupStrandsActivation(c: Settings, w: World, f: Key, h: Key)
    requires WellNamed(w) && f in w.functions && h in w.functions && SameRuntime(w.functions[f], w.functions[h])
    requires !w.functions[f].spec.isActive && !w.functions[h].spec.isActive && !SharedInUse(w, w.functions[f])
    ensures var activated := Performed(Operation.Activate, w, h, ServerKeepWarm(c));
      var served := Processed(c, activated, Visit(h, w.clock));
      var cleaned := RemoveRuntime(served, w.functions[f]);
      && h in cleaned.functions && cleaned.functions[h].spec.isActive && Absent(cleaned, cleaned.functions[h])
      && h in served.functions && Provisioned(c, served, served.functions[h])
      && (c.keepWarm > 0 ==> h !in cleaned.queue)
  {
    var hn := w.functions[h];
    var activated := Performed(Operation.Activate, w, h, ServerKeepWarm(c));
    var served := Processed(c, activated, Visit(h, w.clock));
    ActivationThenReconcile(c, w, h);
    NamesEqualIffSameRuntime(w.functions[f], hn);
    IdentityFixesRuntime(hn, served.functions[h]);
    hide Performed, Processed, DeploymentKey, ServiceKey, NewDeployment, NewService, SameRuntime, WellNamed;
  }

  lemma ActivationThenReconcile(c: Settings, w: World, h: Key)
    requires WellNamed(w) && h in w.functions && !w.functions[h].spec.isActive
    ensures var activated := Performed(Operation.Activate, w, h, ServerKeepWarm(c));
      var served := Processed(c, activated, Visit(h, w.clock));
      && h in served.functions && SameIdentity(w.functions[h], served.functions[h])
      && served.functions[h].spec.isActive && Provisioned(c, served, served.functions[h])
      && (c.keepWarm > 0 ==> h !in served.queue)
  {
    var activated := Performed(Operation.Activate, w, h, ServerKeepWarm(c));
    ActivationKeepsNames(c, w, h);
    ProcessedServes(c, activated, Visit(h, w.clock));
    ProcessedEffect(c, activated, Visit(h, w.clock));
    hide Performed, Processed, Provisioned, WellNamed, Active;
  }

  lemma ProcessedServes(c: Settings, w: World, visit: Visit)
    requires WellNamed(w) && visit.key in w.functions && w.functions[visit.key].spec.isActive
    ensures var v := Processed(c, w, visit);
      && visit.key in v.functions && SameIdentity(w.functions[visit.key], v.functions[visit.key])
      && v.functions[visit.key].spec.isActive && Provisioned(c, v, v.functions[visit.key])
  {
    var taken := w.(clock := visit.at, queue := w.queue - {visit.key});
    assert WellNamed(taken);
    ReconcileKeepsActivity(c, taken, visit.key);
    ReconcileSettlesOne(c, taken, visit.key);
    hide Reconciled, WellNamed;
    IdentityFixesRuntime(w.functions[visit.key], Processed(c, w, visit).functions[visit.key]);
    hide DeploymentKey, ServiceKey, NewDeployment, NewService;
  }

  lemma ActivationKeepsNames(c: Settings, w: World, h: Key)
    requires WellNamed(w) && h in w.functions && !w.functions[h].spec.isActive
    ensures var v := Performed(Operation.Activate, w, h, ServerKeepWarm(c));
      && WellNamed(v) && h in v.functions && SameIdentity(w.functions[h], v.functions[h])
      && v.functions[h].spec.isActive && v.clock == w.clock
      && (c.keepWarm > 0 ==> v.functions[h].spec.lease == Format(w.clock + c.keepWarm))
  {
  }
}
