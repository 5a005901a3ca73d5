/** What every step of the operator keeps, whatever is interleaved with the worker's API calls. */
module OperatorInvariant {
  import opened Functions
  import opened Cluster
  import opened Controller
  import opened Convergence
  import opened FunctionClient
  import opened Operator

  /** `f` was read from the store earlier on: it is still the stored object exactly if the versions agree. */
  ghost predicate Remembers(w: World, f: Function) {
    && f.key in w.functions && SameIdentity(f, w.functions[f.key]) && f.version < w.version
    && (w.functions[f.key].version == f.version ==> w.functions[f.key] == f)
  }

  ghost predicate CurrentOrQueued(w: World, f: Function) {
    f.key in w.functions && (w.functions[f.key] == f || f.key in w.queue)
  }

  ghost predicate ActiveUsersQueued(w: World, f: Function) {
    forall k :: k in w.functions && w.functions[k].spec.isActive && SameRuntime(w.functions[k], f) ==> k in w.queue
  }

  ghost predicate DeploymentServed(c: Settings, w: World, f: Function) {
    DeploymentKey(f) in w.deployments && w.deployments[DeploymentKey(f)].template == NewDeployment(c, f)
  }

  ghost predicate ServiceServed(c: Settings, w: World, f: Function) {
    ServiceKey(f) in w.services && w.services[ServiceKey(f)].template == NewService(f)
  }

  predicate HasChecked(phase: Phase) {
    || phase.FindDoomedDeployment? || phase.DeleteDoomedDeployment?
    || phase.FindDoomedService? || phase.DeleteDoomedService?
  }

  predicate IsRemoving(phase: Phase) {
    phase.CheckUse? || HasChecked(phase)
  }

  predicate DeploymentGone(phase: Phase) {
    phase.FindDoomedService? || phase.DeleteDoomedService?
  }

  predicate ServiceBuilt(phase: Phase) {
    phase.ReadClock? || phase.Renew?
  }

  predicate DeploymentBuilt(phase: Phase) {
    phase.FindService? || phase.MakeService? || phase.ChangeService? || ServiceBuilt(phase)
  }

  /** The facts a reconcile has established about `f` by `phase`, and that interference cannot take from it. */
  ghost predicate PhaseSound(c: Settings, w: World, f: Function, phase: Phase) {
    && Remembers(w, f) && CurrentOrQueued(w, f)
    && (f.spec.isActive <==> !IsRemoving(phase))
    && (HasChecked(phase) ==> ActiveUsersQueued(w, f))
    && (DeploymentGone(phase) ==> DeploymentKey(f) !in w.deployments)
    && (DeploymentBuilt(phase) ==> f.key in w.queue || DeploymentServed(c, w, f))
    && (ServiceBuilt(phase) ==> f.key in w.queue || ServiceServed(c, w, f))
  }

  ghost predicate WorkerSound(c: Settings, w: World, worker: Worker) {
    worker.Reconciling? ==> PhaseSound(c, w, worker.f, worker.phase)
  }

  ghost predicate CallsSound(w: World, calls: map<nat, Call>) {
    forall id :: id in calls ==> Remembers(w, calls[id].f) && Applies(calls[id].op, calls[id].f)
  }

  /** The worker is about to read `k`, or has read it as active and is building its runtime. */
  predicate Builds(worker: Worker, k: Key) {
    worker == Fetching(k) || (worker.Reconciling? && worker.f.key == k && !IsRemoving(worker.phase))
  }

  /** The worker is about to read `k`, or has read it as inactive and is removing its runtime. */
  predicate Removes(worker: Worker, k: Key) {
    worker == Fetching(k) || (worker.Reconciling? && worker.f.key == k && IsRemoving(worker.phase))
  }

  /** An active Function has its runtime, or is queued, or is the one being built. */
  ghost predicate ActiveServed(c: Settings, w: World, worker: Worker) {
    forall k :: k in w.functions && w.functions[k].spec.isActive ==>
      k in w.queue || Builds(worker, k) || Provisioned(c, w, w.functions[k])
  }

  ghost predicate HasRuntime(w: World, f: Function) {
    DeploymentKey(f) in w.deployments || ServiceKey(f) in w.services
  }

  /** Some Function of the runtime of `f` is queued, or is in flight and on its way to remove the runtime. */
  ghost predicate HasCollector(w: World, worker: Worker, f: Function) {
    exists u :: u in w.functions && SameRuntime(w.functions[u], f) && (u in w.queue || Removes(worker, u))
  }

  ghost predicate UnusedDoomed(w: World, worker: Worker) {
    forall k :: k in w.functions && HasRuntime(w, w.functions[k]) && !HasActiveUser(w, w.functions[k]) ==>
      HasCollector(w, worker, w.functions[k])
  }

  ghost predicate Inv(c: Settings, s: System) {
    && WellNamed(s.world)
    && WorkerSound(c, s.world, s.worker)
    && CallsSound(s.world, s.calls)
    && ActiveServed(c, s.world, s.worker)
    && UnusedDoomed(s.world, s.worker)
  }

  // Writing a Function

  /** `g` may be written: a new Function with good names, or a new value for a stored one. */
  ghost predicate Refreshes(w: World, g: Function) {
    WellFormed(g) && (g.key in w.functions ==> SameIdentity(g, w.functions[g.key]))
  }

  lemma WriteKeepsMemory(w: World, g: Function, f: Function)
    requires Remembers(w, f) && Refreshes(w, g)
    ensures Remembers(Write(w, g), f)
    ensures CurrentOrQueued(w, f) ==> CurrentOrQueued(Write(w, g), f)
    ensures ActiveUsersQueued(w, f) ==> ActiveUsersQueued(Write(w, g), f)
  {
  }

  lemma WriteKeepsWorker(c: Settings, w: World, worker: Worker, g: Function)
    requires WorkerSound(c, w, worker) && Refreshes(w, g)
    ensures WorkerSound(c, Write(w, g), worker)
  {
  }

  lemma WriteKeepsServed(c: Settings, w: World, worker: Worker, g: Function)
    requires ActiveServed(c, w, worker) && Refreshes(w, g)
    ensures ActiveServed(c, Write(w, g), worker)
  {
  }

  lemma WriteKeepsDoomed(w: World, worker: Worker, g: Function)
    requires WellNamed(w) && UnusedDoomed(w, worker) && Refreshes(w, g)
    ensures UnusedDoomed(Write(w, g), worker)
  {
    var v := Write(w, g);
    forall k | k in v.functions && HasRuntime(v, v.functions[k]) && !HasActiveUser(v, v.functions[k])
      ensures HasCollector(v, worker, v.functions[k])
    {
      CollectorAfterWrite(w, worker, g, k);
    }
  }

  lemma CollectorAfterWrite(w: World, worker: Worker, g: Function, k: Key)
    requires WellNamed(w) && UnusedDoomed(w, worker) && Refreshes(w, g)
    requires var v := Write(w, g);
      k in v.functions && HasRuntime(v, v.functions[k]) && !HasActiveUser(v, v.functions[k])
    ensures HasCollector(Write(w, g), worker, Write(w, g).functions[k])
  {
    var v := Write(w, g);
    var h := v.functions[k];
    if SameRuntime(v.functions[g.key], h) {
      assert g.key in v.queue;
    } else {
      assert k != g.key && w.functions[k] == h;
      assert HasRuntime(w, h);
      UsersSurviveWrite(w, g, h);
      CollectorSurvivesWrite(w, worker, g, h);
    }
  }

  lemma UsersSurviveWrite(w: World, g: Function, h: Function)
    requires Refreshes(w, g) && !SameRuntime(g, h)
    ensures HasActiveUser(w, h) ==> HasActiveUser(Write(w, g), h)
  {
    if HasActiveUser(w, h) {
      var a :| a in w.functions && w.functions[a].spec.isActive && SameRuntime(w.functions[a], h);
      assert a != g.key;
      assert Write(w, g).functions[a] == w.functions[a];
    }
  }

  lemma CollectorSurvivesWrite(w: World, worker: Worker, g: Function, h: Function)
    requires HasCollector(w, worker, h) && Refreshes(w, g)
    ensures HasCollector(Write(w, g), worker, h)
  {
  }

  lemma WriteKeepsInv(c: Settings, s: System, g: Function)
    requires Inv(c, s) && Refreshes(s.world, g)
    ensures Inv(c, s.(world := Write(s.world, g)))
  {
    WriteKeepsWorker(c, s.world, s.worker, g);
    WriteKeepsServed(c, s.world, s.worker, g);
    WriteKeepsDoomed(s.world, s.worker, g);
    forall id | id in s.calls
      ensures Remembers(Write(s.world, g), s.calls[id].f)
    {
      WriteKeepsMemory(s.world, g, s.calls[id].f);
    }
    hide Remembers, WorkerSound, ActiveServed, UnusedDoomed;
  }

  lemma WriteIfChangedKeepsInv(c: Settings, s: System, g: Function)
    requires Inv(c, s) && Refreshes(s.world, g)
    ensures Inv(c, s.(world := WriteIfChanged(s.world, g)))
  {
    WriteKeepsInv(c, s, g);
    hide Inv, Refreshes;
  }

  /** An update from a remembered object writes a new value of the stored one. */
  lemma ChangeRefreshes(w: World, f: Function, g: Function)
    requires WellNamed(w) && Remembers(w, f) && SameIdentity(f, g)
    ensures Refreshes(w, g)
  {
  }

  lemma UpdateKeepsInv(c: Settings, s: System, f: Function, g: Function)
    requires Inv(c, s) && Remembers(s.world, f) && SameIdentity(f, g)
    ensures Inv(c, s.(world := UpdateFunction(s.world, g).world))
  {
    ChangeRefreshes(s.world, f, g);
    WriteIfChangedKeepsInv(c, s, g);
    hide Inv, Refreshes, Remembers;
  }

  // Removing a runtime that nobody is active on

  /** The worlds differ only in Deployments, Services and unused version numbers. */
  ghost predicate SameFunctions(w: World, v: World) {
    w.functions == v.functions && w.queue == v.queue && w.version <= v.version
  }

  lemma SameFunctionsSameMemory(w: World, v: World, f: Function)
    requires SameFunctions(w, v)
    ensures Remembers(w, f) ==> Remembers(v, f)
    ensures CurrentOrQueued(w, f) <==> CurrentOrQueued(v, f)
    ensures ActiveUsersQueued(w, f) <==> ActiveUsersQueued(v, f)
    ensures HasActiveUser(w, f) <==> HasActiveUser(v, f)
    ensures forall worker :: HasCollector(w, worker, f) <==> HasCollector(v, worker, f)
    ensures WellNamed(w) ==> WellNamed(v)
  {
  }

  lemma CurrentUserIsActive(w: World, f: Function, g: Function)
    requires CurrentOrQueued(w, f) && f.spec.isActive && SameRuntime(f, g) && !HasActiveUser(w, g)
    ensures f.key in w.queue
  {
  }

  lemma RemovalKeepsWorker(c: Settings, w: World, worker: Worker, g: Function)
    requires WellNamed(w) && WorkerSound(c, w, worker) && WellFormed(g) && !HasActiveUser(w, g)
    ensures WorkerSound(c, RemoveRuntime(w, g), worker)
  {
    if worker.Reconciling? {
      SameFunctionsSameMemory(w, RemoveRuntime(w, g), worker.f);
      RememberedIsWellFormed(w, worker.f);
      if SameRuntime(worker.f, g) {
        OwnRemovalIsSound(c, w, worker.f, worker.phase, g);
      } else {
        RemovalSparesOthers(c, w, g, worker.f);
        OtherRemovalIsSound(c, w, worker.f, worker.phase, g);
      }
    }
  }

  /** The worker's own runtime may go if it is not building it from a Function that is still active. */
  lemma OwnRemovalIsSound(c: Settings, w: World, f: Function, phase: Phase, g: Function)
    requires WellNamed(w) && PhaseSound(c, w, f, phase) && SameRuntime(f, g) && !HasActiveUser(w, g)
    requires var v := RemoveRuntime(w, g);
      && (Remembers(w, f) <==> Remembers(v, f)) && (CurrentOrQueued(w, f) <==> CurrentOrQueued(v, f))
      && (ActiveUsersQueued(w, f) <==> ActiveUsersQueued(v, f))
    ensures PhaseSound(c, RemoveRuntime(w, g), f, phase)
  {
    if f.spec.isActive {
      CurrentUserIsActive(w, f, g);
    }
    hide Remembers, CurrentOrQueued, ActiveUsersQueued, DeploymentServed, ServiceServed, HasActiveUser;
    hide SameRuntime, WellNamed, WellFormed, DeploymentKey, ServiceKey;
  }

  lemma OtherRemovalIsSound(c: Settings, w: World, f: Function, phase: Phase, g: Function)
    requires PhaseSound(c, w, f, phase)
    requires var v := RemoveRuntime(w, g);
      && (Remembers(w, f) <==> Remembers(v, f)) && (CurrentOrQueued(w, f) <==> CurrentOrQueued(v, f))
      && (ActiveUsersQueued(w, f) <==> ActiveUsersQueued(v, f))
      && (DeploymentServed(c, w, f) <==> DeploymentServed(c, v, f)) &&
        (ServiceServed(c, w, f) <==> ServiceServed(c, v, f))
    ensures PhaseSound(c, RemoveRuntime(w, g), f, phase)
  {
    hide Remembers, CurrentOrQueued, ActiveUsersQueued, DeploymentServed, ServiceServed, DeploymentKey, ServiceKey;
  }

  lemma RemovalSparesOthers(c: Settings, w: World, g: Function, f: Function)
    requires WellFormed(f) && WellFormed(g) && !SameRuntime(f, g)
    ensures var v := RemoveRuntime(w, g);
      && (DeploymentServed(c, w, f) <==> DeploymentServed(c, v, f))
      && (ServiceServed(c, w, f) <==> ServiceServed(c, v, f))
  {
    NamesEqualIffSameRuntime(f, g);
    hide DeploymentKey, ServiceKey, NewDeployment, NewService, SameRuntime, WellFormed;
  }

  lemma RememberedIsWellFormed(w: World, f: Function)
    requires WellNamed(w) && Remembers(w, f)
    ensures WellFormed(f)
  {
  }

  lemma RemovalKeepsServed(c: Settings, w: World, worker: Worker, g: Function)
    requires WellNamed(w) && ActiveServed(c, w, worker) && WellFormed(g)
    requires ActiveUsersQueued(w, g)
    ensures ActiveServed(c, RemoveRuntime(w, g), worker)
  {
    var v := RemoveRuntime(w, g);
    forall k | k in v.functions && v.functions[k].spec.isActive
      ensures k in v.queue || Builds(worker, k) || Provisioned(c, v, v.functions[k])
    {
      if !SameRuntime(w.functions[k], g) {
        NamesEqualIffSameRuntime(w.functions[k], g);
      }
      hide DeploymentKey, ServiceKey, NewDeployment, NewService, SameRuntime, Builds;
    }
  }

  lemma RemovalKeepsDoomed(w: World, worker: Worker, g: Function)
    requires UnusedDoomed(w, worker)
    ensures UnusedDoomed(RemoveRuntime(w, g), worker)
  {
  }

  lemma RemovalKeepsInv(c: Settings, s: System, g: Function)
    requires Inv(c, s) && WellFormed(g) && !HasActiveUser(s.world, g)
    ensures Inv(c, s.(world := RemoveRuntime(s.world, g)))
  {
    RemovalKeepsWorker(c, s.world, s.worker, g);
    RemovalKeepsServed(c, s.world, s.worker, g) by {
      assert ActiveUsersQueued(s.world, g);
    }
    RemovalKeepsDoomed(s.world, s.worker, g);
    SameFunctionsSameMemory(s.world, RemoveRuntime(s.world, g), g);
    forall id | id in s.calls
      ensures Remembers(RemoveRuntime(s.world, g), s.calls[id].f)
    {
      SameFunctionsSameMemory(s.world, RemoveRuntime(s.world, g), s.calls[id].f);
    }
    hide Remembers, WorkerSound, ActiveServed, UnusedDoomed, WellNamed, WellFormed, HasActiveUser, DeploymentKey;
    hide ServiceKey;
  }
}
