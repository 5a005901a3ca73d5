/** Every step of the operator keeps the invariant; hence it holds in every reachable state. */
module OperatorSteps {
  import opened Functions
  import opened Cluster
  import opened Controller
  import opened Convergence
  import opened Operator
  import opened OperatorInvariant

  // Storing the Deployment or Service of an active Function that is current or queued

  /** `v` is `w` after storing one of the two templates of `f`. */
  ghost predicate Stores(c: Settings, w: World, v: World, f: Function) {
    && SameFunctions(w, v)
    && (v.deployments == w.deployments
        || (v.deployments.Keys == w.deployments.Keys + {DeploymentKey(f)} && DeploymentServed(c, v, f)
            && v.deployments - {DeploymentKey(f)} == w.deployments - {DeploymentKey(f)}))
    && (v.services == w.services
        || (v.services.Keys == w.services.Keys + {ServiceKey(f)} && ServiceServed(c, v, f)
            && v.services - {ServiceKey(f)} == w.services - {ServiceKey(f)}))
  }

  lemma StoreSpares(c: Settings, w: World, v: World, f: Function, g: Function)
    requires Stores(c, w, v, f) && WellFormed(f) && WellFormed(g)
    ensures DeploymentServed(c, w, g) ==> DeploymentServed(c, v, g)
    ensures ServiceServed(c, w, g) ==> ServiceServed(c, v, g)
    ensures HasRuntime(v, g) && !SameRuntime(f, g) ==> HasRuntime(w, g)
  {
    NamesEqualIffSameRuntime(f, g);
    if SameRuntime(f, g) {
      SameRuntimeSameTemplates(c, f, g);
    }
    hide SameRuntime, WellFormed, DeploymentKey, ServiceKey, NewDeployment, NewService;
    assert DeploymentKey(g) != DeploymentKey(f) ==>
      (DeploymentKey(g) in v.deployments <==> DeploymentKey(g) in v.deployments - {DeploymentKey(f)});
    assert ServiceKey(g) != ServiceKey(f) ==>
      (ServiceKey(g) in v.services <==> ServiceKey(g) in v.services - {ServiceKey(f)});
    assert DeploymentKey(g) != DeploymentKey(f) && DeploymentKey(g) in w.deployments ==>
      w.deployments[DeploymentKey(g)] == (v.deployments - {DeploymentKey(f)})[DeploymentKey(g)];
    assert ServiceKey(g) != ServiceKey(f) && ServiceKey(g) in w.services ==>
      w.services[ServiceKey(g)] == (v.services - {ServiceKey(f)})[ServiceKey(g)];
  }

  lemma StoreKeepsServed(c: Settings, w: World, v: World, worker: Worker, f: Function)
    requires WellNamed(w) && ActiveServed(c, w, worker) && Stores(c, w, v, f) && WellFormed(f)
    ensures ActiveServed(c, v, worker)
  {
    forall k | k in v.functions && v.functions[k].spec.isActive
      ensures k in v.queue || Builds(worker, k) || Provisioned(c, v, v.functions[k])
    {
      StoreSpares(c, w, v, f, w.functions[k]);
      hide DeploymentKey, ServiceKey, NewDeployment, NewService, Builds, WellFormed;
    }
  }

  lemma StoreKeepsDoomed(c: Settings, w: World, v: World, worker: Worker, f: Function)
    requires WellNamed(w) && UnusedDoomed(w, worker) && Stores(c, w, v, f)
    requires Remembers(w, f) && CurrentOrQueued(w, f) && f.spec.isActive
    ensures UnusedDoomed(v, worker)
  {
    RememberedIsWellFormed(w, f);
    forall k | k in v.functions && HasRuntime(v, v.functions[k]) && !HasActiveUser(v, v.functions[k])
      ensures HasCollector(v, worker, v.functions[k])
    {
      var g := v.functions[k];
      SameFunctionsSameMemory(w, v, g);
      StoreSpares(c, w, v, f, g);
      if SameRuntime(f, g) {
        CurrentUserIsActive(w, f, g);
        assert SameRuntime(w.functions[f.key], g);
      }
      hide HasActiveUser, HasRuntime, WellFormed, SameRuntime, Removes;
    }
  }

  // The phases of the reconcile in progress

  /** What the old phase was going to build is built, queued, or built by the next phase. */
  ghost predicate BuildsCarryOver(c: Settings, w: World, worker: Worker, next: Worker) {
    forall k :: k in w.functions && w.functions[k].spec.isActive && Builds(worker, k) ==>
      k in w.queue || Builds(next, k) || Provisioned(c, w, w.functions[k])
  }

  /** A runtime that the old phase was going to remove is gone, in use, or still has somebody to remove it. */
  ghost predicate RemovalsCarryOver(w: World, worker: Worker, next: Worker) {
    forall u, k ::
      (&& u in w.functions && Removes(worker, u) && k in w.functions && SameRuntime(w.functions[u], w.functions[k])
       && HasRuntime(w, w.functions[k]) && !HasActiveUser(w, w.functions[k]))
      ==> u in w.queue || Removes(next, u)
  }

  /** A change of phase that writes nothing. */
  lemma PhaseKeepsRest(c: Settings, s: System, next: Worker)
    requires Inv(c, s) && WorkerSound(c, s.world, next)
    requires BuildsCarryOver(c, s.world, s.worker, next) && RemovalsCarryOver(s.world, s.worker, next)
    ensures Inv(c, s.(worker := next))
  {
  }

  lemma GivingUpKeepsInv(c: Settings, s: System)
    requires Inv(c, s) && !s.worker.Idle?
    ensures Inv(c, GiveUp(s))
  {
    var v := s.world.(queue := s.world.queue + {WorkerKey(s.worker)});
    forall k | k in v.functions && HasRuntime(v, v.functions[k]) && !HasActiveUser(v, v.functions[k])
      ensures HasCollector(v, Idle, v.functions[k])
    {
      assert HasRuntime(s.world, s.world.functions[k]);
      CollectorAfterGivingUp(s.world, s.worker, s.world.functions[k]);
      SameUsers(s.world, v, s.world.functions[k]);
    }
    hide DeploymentKey, ServiceKey, NewDeployment, NewService, WellFormed, HasCollector, HasActiveUser, HasRuntime;
    hide Remembers;
  }

  lemma SameUsers(w: World, v: World, f: Function)
    requires w.functions == v.functions
    ensures HasActiveUser(w, f) <==> HasActiveUser(v, f)
  {
  }

  lemma CollectorAfterGivingUp(w: World, worker: Worker, f: Function)
    requires !worker.Idle?
    ensures HasCollector(w, worker, f) ==> HasCollector(w.(queue := w.queue + {WorkerKey(worker)}), Idle, f)
  {
  }

  lemma TakeKeepsInv(c: Settings, s: System, key: Key)
    requires Inv(c, s) && s.worker.Idle? && key in s.world.queue
    ensures Inv(c, Next(c, s, Take(key)))
  {
    var w := s.world;
    var v := w.(queue := w.queue - {key});
    forall k | k in v.functions && HasRuntime(v, v.functions[k]) && !HasActiveUser(v, v.functions[k])
      ensures HasCollector(v, Fetching(key), v.functions[k])
    {
      assert HasRuntime(w, w.functions[k]);
      SameUsers(w, v, w.functions[k]);
      var u :| u in w.functions && SameRuntime(w.functions[u], w.functions[k]) && (u in w.queue || Removes(Idle, u));
      assert u in v.queue || Removes(Fetching(key), u);
    }
    hide DeploymentKey, ServiceKey, NewDeployment, NewService, WellFormed, HasCollector, HasActiveUser, HasRuntime;
    hide SameIdentity;
  }

  lemma FetchKeepsInv(c: Settings, s: System)
    requires Inv(c, s) && s.worker.Fetching?
    ensures Inv(c, Worked(c, s))
  {
    var w, key, next := s.world, s.worker.key, Worked(c, s).worker;
    FetchIsSound(c, w, key, next);
    FetchCarriesOver(c, w, key, next);
    hide Inv, WorkerSound, BuildsCarryOver, RemovalsCarryOver;
    PhaseKeepsRest(c, s, next);
  }

  ghost predicate FollowsFetch(w: World, key: Key, next: Worker) {
    next == if key in w.functions then Reconciling(w.functions[key], FirstPhase(w.functions[key])) else Idle
  }

  lemma FetchIsSound(c: Settings, w: World, key: Key, next: Worker)
    requires WellNamed(w) && FollowsFetch(w, key, next)
    ensures WorkerSound(c, w, next)
  {
  }

  lemma FetchCarriesOver(c: Settings, w: World, key: Key, next: Worker)
    requires WellNamed(w) && FollowsFetch(w, key, next)
    ensures BuildsCarryOver(c, w, Fetching(key), next)
    ensures RemovalsCarryOver(w, Fetching(key), next)
  {
  }

  /**
   * After the in-use test has found nobody, every active user of the runtime has been activated since and is queued.
   */
  lemma UnusedMeansQueued(w: World, f: Function)
    requires WellNamed(w) && Remembers(w, f) && CurrentOrQueued(w, f) && !f.spec.isActive && !SharedInUse(w, f)
    ensures ActiveUsersQueued(w, f)
  {
  }

  lemma InUseMeansActive(w: World, f: Function, g: Function)
    requires SharedInUse(w, f) && SameRuntime(f, g)
    ensures HasActiveUser(w, g)
  {
  }

  /** The Function a removal works on stands for every Function of its runtime. */
  lemma RemoverSharesRuntime(w: World, f: Function, phase: Phase, u: Key, k: Key)
    requires Remembers(w, f) && u in w.functions && Removes(Reconciling(f, phase), u)
    requires k in w.functions && SameRuntime(w.functions[u], w.functions[k])
    ensures u == f.key && SameRuntime(f, w.functions[k])
  {
  }

  lemma CheckKeepsInv(c: Settings, s: System, f: Function)
    requires Inv(c, s) && s.worker == Reconciling(f, CheckUse)
    ensures Inv(c, Worked(c, s))
  {
    var w, next := s.world, Worked(c, s).worker;
    if SharedInUse(w, f) {
      forall u, k | u in w.functions && Removes(s.worker, u) && k in w.functions &&
        SameRuntime(w.functions[u], w.functions[k])
        ensures HasActiveUser(w, w.functions[k])
      {
        RemoverSharesRuntime(w, f, CheckUse, u, k);
        InUseMeansActive(w, f, w.functions[k]);
      }
    } else {
      UnusedMeansQueued(w, f);
    }
    hide DeploymentKey, ServiceKey, NewDeployment, NewService, WellFormed, HasActiveUser, HasRuntime, Provisioned;
    hide SharedInUse;
    PhaseKeepsRest(c, s, next);
  }

  /** A removal may end once neither object of the runtime is left. */
  lemma RemovalEnds(c: Settings, s: System, f: Function, phase: Phase)
    requires Inv(c, s) && s.worker == Reconciling(f, phase) && IsRemoving(phase)
    requires DeploymentKey(f) !in s.world.deployments && ServiceKey(f) !in s.world.services
    ensures Inv(c, s.(worker := Idle))
  {
  }

  /** From one removing phase to another. */
  lemma RemovalGoesOn(c: Settings, s: System, f: Function, phase: Phase, next: Phase)
    requires Inv(c, s) && s.worker == Reconciling(f, phase) && IsRemoving(phase) && IsRemoving(next)
    requires PhaseSound(c, s.world, f, next)
    ensures Inv(c, s.(worker := Reconciling(f, next)))
  {
  }

  lemma FindDoomedKeepsInv(c: Settings, s: System, f: Function, phase: Phase)
    requires Inv(c, s) && s.worker == Reconciling(f, phase)
    requires phase.FindDoomedDeployment? || phase.FindDoomedService?
    ensures Inv(c, Worked(c, s))
  {
    var next := Worked(c, s).worker;
    hide DeploymentKey, ServiceKey, NewDeployment, NewService, Remembers, CurrentOrQueued, ActiveUsersQueued;
    assert PhaseSound(c, s.world, f, phase);
    hide ActiveServed, UnusedDoomed, WellNamed, CallsSound, DeploymentServed, ServiceServed;
    if next.Idle? {
      RemovalEnds(c, s, f, phase);
    } else {
      RemovalGoesOn(c, s, f, phase, next.phase);
    }
  }

  /** `v` is `w` without objects of the runtime of `f`. */
  ghost predicate Deletes(w: World, v: World, f: Function) {
    && SameFunctions(w, v)
    && (v.deployments == w.deployments || v.deployments == w.deployments - {DeploymentKey(f)})
    && (v.services == w.services || v.services == w.services - {ServiceKey(f)})
  }

  lemma DeletionSparesOthers(c: Settings, w: World, v: World, f: Function, g: Function)
    requires WellFormed(f) && WellFormed(g) && !SameRuntime(g, f) && Deletes(w, v, f)
    ensures Provisioned(c, w, g) ==> Provisioned(c, v, g)
  {
    NamesEqualIffSameRuntime(g, f);
    hide DeploymentKey, ServiceKey, NewDeployment, NewService, WellFormed, SameRuntime;
  }

  lemma DeletionKeepsServed(c: Settings, w: World, v: World, worker: Worker, f: Function)
    requires WellNamed(w) && ActiveServed(c, w, worker) && WellFormed(f) && ActiveUsersQueued(w, f)
    requires Deletes(w, v, f)
    ensures ActiveServed(c, v, worker)
  {
    forall k | k in v.functions && v.functions[k].spec.isActive
      ensures k in v.queue || Builds(worker, k) || Provisioned(c, v, v.functions[k])
    {
      if !SameRuntime(w.functions[k], f) {
        DeletionSparesOthers(c, w, v, f, w.functions[k]);
      }
      hide WellNamed, WellFormed, SameRuntime, Provisioned, Builds, DeploymentKey, ServiceKey;
    }
  }

  lemma DeletionKeepsDoomed(w: World, v: World, worker: Worker, f: Function)
    requires UnusedDoomed(w, worker) && Deletes(w, v, f)
    ensures UnusedDoomed(v, worker)
  {
  }

  lemma CallsSurvive(w: World, v: World, calls: map<nat, Call>)
    requires SameFunctions(w, v) && CallsSound(w, calls)
    ensures CallsSound(v, calls)
  {
  }

  lemma DeletionIsSound(c: Settings, w: World, v: World, f: Function, phase: Phase)
    requires PhaseSound(c, w, f, phase) && HasChecked(phase) && Deletes(w, v, f)
    ensures PhaseSound(c, v, f, phase)
  {
  }

  /** Deleting objects of a runtime whose active users are all queued. */
  lemma DeletionKeepsInv(c: Settings, s: System, f: Function, phase: Phase, v: World)
    requires Inv(c, s) && s.worker == Reconciling(f, phase) && HasChecked(phase) && Deletes(s.world, v, f)
    ensures Inv(c, s.(world := v))
  {
    var w := s.world;
    RememberedIsWellFormed(w, f);
    DeletionKeepsServed(c, w, v, s.worker, f);
    DeletionKeepsDoomed(w, v, s.worker, f);
    DeletionIsSound(c, w, v, f, phase);
    CallsSurvive(w, v, s.calls);
    SameFunctionsSameMemory(w, v, f);
    hide Deletes, PhaseSound, WellNamed, ActiveServed, UnusedDoomed, CallsSound;
  }

  lemma DeletingDeploymentKeepsInv(c: Settings, s: System, f: Function)
    requires Inv(c, s) && s.worker == Reconciling(f, DeleteDoomedDeployment)
    ensures Inv(c, Worked(c, s))
  {
    var w := s.world;
    if DeploymentKey(f) in w.deployments {
      var s1 := s.(world := w.(deployments := w.deployments - {DeploymentKey(f)}));
      DeletionKeepsInv(c, s, f, DeleteDoomedDeployment, s1.world);
      hide DeploymentKey, ServiceKey, Remembers, CurrentOrQueued, ActiveUsersQueued;
      RemovalGoesOn(c, s1, f, DeleteDoomedDeployment, FindDoomedService);
    } else {
      GivingUpKeepsInv(c, s);
    }
  }

  lemma DeletingServiceKeepsInv(c: Settings, s: System, f: Function)
    requires Inv(c, s) && s.worker == Reconciling(f, DeleteDoomedService)
    ensures Inv(c, Worked(c, s))
  {
    var w := s.world;
    if ServiceKey(f) in w.services {
      var s1 := s.(world := w.(services := w.services - {ServiceKey(f)}));
      DeletionKeepsInv(c, s, f, DeleteDoomedService, s1.world);
      hide DeploymentKey, ServiceKey, Remembers, CurrentOrQueued, ActiveUsersQueued;
      RemovalEnds(c, s1, f, DeleteDoomedService);
    } else {
      GivingUpKeepsInv(c, s);
    }
  }

  lemma StoreIsSound(c: Settings, w: World, v: World, f: Function, phase: Phase, next: Phase)
    requires WellNamed(w) && PhaseSound(c, w, f, phase)
    requires !IsRemoving(phase) && !IsRemoving(next) && Stores(c, w, v, f)
    requires DeploymentBuilt(next) ==> DeploymentBuilt(phase) || DeploymentServed(c, v, f)
    requires ServiceBuilt(next) ==> ServiceBuilt(phase) || ServiceServed(c, v, f)
    ensures PhaseSound(c, v, f, next)
  {
  }

  /** From one building phase to another. */
  lemma BuildGoesOn(c: Settings, s: System, f: Function, phase: Phase, next: Phase)
    requires Inv(c, s) && s.worker == Reconciling(f, phase) && !IsRemoving(phase) && !IsRemoving(next)
    requires PhaseSound(c, s.world, f, next)
    ensures Inv(c, s.(worker := Reconciling(f, next)))
  {
  }

  /** Storing a template of the Function being built, and moving on. */
  lemma StoreKeepsInv(c: Settings, s: System, f: Function, phase: Phase, v: World, next: Phase)
    requires Inv(c, s) && s.worker == Reconciling(f, phase) && !IsRemoving(phase) && !IsRemoving(next)
    requires Stores(c, s.world, v, f)
    requires DeploymentBuilt(next) ==> DeploymentBuilt(phase) || DeploymentServed(c, v, f)
    requires ServiceBuilt(next) ==> ServiceBuilt(phase) || ServiceServed(c, v, f)
    ensures Inv(c, s.(world := v, worker := Reconciling(f, next)))
  {
    var w := s.world;
    RememberedIsWellFormed(w, f);
    StoreKeepsServed(c, w, v, s.worker, f);
    StoreKeepsDoomed(c, w, v, s.worker, f);
    StoreIsSound(c, w, v, f, phase, phase);
    StoreIsSound(c, w, v, f, phase, next);
    CallsSurvive(w, v, s.calls);
    SameFunctionsSameMemory(w, v, f);
    hide Stores, PhaseSound, WellNamed, ActiveServed, UnusedDoomed, CallsSound;
    BuildGoesOn(c, s.(world := v), f, phase, next);
  }

  lemma NothingStored(c: Settings, w: World, f: Function)
    ensures Stores(c, w, w, f)
  {
  }

  lemma DeploymentStored(c: Settings, w: World, f: Function)
    ensures Stores(c, w, StoreDeployment(w, NewDeployment(c, f)), f)
    ensures DeploymentServed(c, StoreDeployment(w, NewDeployment(c, f)), f)
  {
  }

  lemma ServiceStored(c: Settings, w: World, f: Function, clusterIP: nat)
    ensures Stores(c, w, StoreService(w, NewService(f), clusterIP), f)
    ensures ServiceServed(c, StoreService(w, NewService(f), clusterIP), f)
  {
  }

  lemma LookingKeepsInv(c: Settings, s: System, f: Function, phase: Phase)
    requires Inv(c, s) && s.worker == Reconciling(f, phase)
    requires phase.FindDeployment? || phase.FindService? || phase.ReadClock?
    ensures Inv(c, Worked(c, s))
  {
    NothingStored(c, s.world, f);
    hide Inv, Stores;
    StoreKeepsInv(c, s, f, phase, s.world, Worked(c, s).worker.phase);
  }

  lemma StoringDeploymentKeepsInv(c: Settings, s: System, f: Function, phase: Phase)
    requires Inv(c, s) && s.worker == Reconciling(f, phase)
    requires phase.MakeDeployment? || phase.ChangeDeployment?
    ensures Inv(c, Worked(c, s))
  {
    DeploymentCallStores(c, s, f, phase);
    var t := Called(c, s, f, phase);
    hide Inv, Stores, DeploymentServed, Called;
    if t == GiveUp(s) {
      GivingUpKeepsInv(c, s);
    } else {
      StoreKeepsInv(c, s, f, phase, t.world, FindService);
    }
  }

  lemma DeploymentCallStores(c: Settings, s: System, f: Function, phase: Phase)
    requires s.worker == Reconciling(f, phase) && (phase.MakeDeployment? || phase.ChangeDeployment?)
    ensures var t := Called(c, s, f, phase);
      || t == GiveUp(s)
      || (t == s.(world := t.world, worker := Reconciling(f, FindService))
          && Stores(c, s.world, t.world, f) && DeploymentServed(c, t.world, f))
  {
    TemplateKeys(c, f);
    DeploymentStored(c, s.world, f);
    NothingStored(c, s.world, f);
    hide Stores, DeploymentKey, ServiceKey, NewDeployment, NewService, StoreDeployment;
  }

  lemma StoringServiceKeepsInv(c: Settings, s: System, f: Function, phase: Phase)
    requires Inv(c, s) && s.worker == Reconciling(f, phase)
    requires phase.MakeService? || phase.ChangeService?
    ensures Inv(c, Worked(c, s))
  {
    ServiceCallStores(c, s, f, phase);
    var t := Called(c, s, f, phase);
    hide Inv, Stores, ServiceServed, Called;
    if t == GiveUp(s) {
      GivingUpKeepsInv(c, s);
    } else {
      StoreKeepsInv(c, s, f, phase, t.world, ReadClock);
    }
  }

  lemma ServiceCallStores(c: Settings, s: System, f: Function, phase: Phase)
    requires s.worker == Reconciling(f, phase) && (phase.MakeService? || phase.ChangeService?)
    ensures var t := Called(c, s, f, phase);
      || t == GiveUp(s)
      || (t == s.(world := t.world, worker := Reconciling(f, ReadClock))
          && Stores(c, s.world, t.world, f) && ServiceServed(c, t.world, f))
  {
    TemplateKeys(c, f);
    ServiceStored(c, s.world, f, if phase.MakeService? then s.world.version else phase.clusterIP);
    NothingStored(c, s.world, f);
    hide Stores, DeploymentKey, ServiceKey, NewDeployment, NewService, StoreService;
  }

  /** A build may end once both objects are in place, or its Function has changed and is queued again. */
  lemma BuildEnds(c: Settings, s: System, f: Function, at: int)
    requires Inv(c, s) && s.worker == Reconciling(f, Renew(at))
    ensures Inv(c, s.(worker := Idle))
  {
  }

  lemma RenewingKeepsInv(c: Settings, s: System, f: Function, at: int)
    requires Inv(c, s) && s.worker == Reconciling(f, Renew(at))
    ensures Inv(c, Worked(c, s))
  {
    GivingUpKeepsInv(c, s);
    BuildEnds(c, s, f, at);
    var s1 := s.(worker := Idle, renewals := Later(s.renewals, f.key, at));
    assert Remembers(s.world, f) && SameIdentity(f, Renewed(c, f, at));
    InvIgnoresRenewals(c, s.(worker := Idle), s1);
    hide Inv, Remembers;
    UpdateKeepsInv(c, s1, f, Renewed(c, f, at));
  }

  lemma InvIgnoresRenewals(c: Settings, s: System, t: System)
    requires Inv(c, s) && t == s.(renewals := t.renewals)
    ensures Inv(c, t)
  {
  }

  /** The worker keeps the invariant at every API call. */
  lemma WorkKeepsInv(c: Settings, s: System)
    requires Inv(c, s)
    ensures Inv(c, Worked(c, s))
  {
    match s.worker {
      case Idle => { }
      case Fetching(_) => FetchKeepsInv(c, s);
      case Reconciling(f, phase) => CallKeepsInv(c, s, f, phase);
    }
  }

  lemma CallKeepsInv(c: Settings, s: System, f: Function, phase: Phase)
    requires Inv(c, s) && s.worker == Reconciling(f, phase)
    ensures Inv(c, Worked(c, s))
  {
    match phase {
      case CheckUse => CheckKeepsInv(c, s, f);
      case FindDoomedDeployment => FindDoomedKeepsInv(c, s, f, phase);
      case DeleteDoomedDeployment => DeletingDeploymentKeepsInv(c, s, f);
      case FindDoomedService => FindDoomedKeepsInv(c, s, f, phase);
      case DeleteDoomedService => DeletingServiceKeepsInv(c, s, f);
      case FindDeployment => LookingKeepsInv(c, s, f, phase);
      case MakeDeployment => StoringDeploymentKeepsInv(c, s, f, phase);
      case ChangeDeployment(_) => StoringDeploymentKeepsInv(c, s, f, phase);
      case FindService => LookingKeepsInv(c, s, f, phase);
      case MakeService => StoringServiceKeepsInv(c, s, f, phase);
      case ChangeService(_, _) => StoringServiceKeepsInv(c, s, f, phase);
      case ReadClock => LookingKeepsInv(c, s, f, phase);
      case Renew(at) => RenewingKeepsInv(c, s, f, at);
    }
  }
}
