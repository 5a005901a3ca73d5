/** Reconciling every Function, in any order and at any times, leads to one determined set of runtimes. */
module Convergence {
  import opened Functions
  import opened Cluster
  import opened Controller

  /** A reconcile of `key` that starts when the clock shows `at`. */
  datatype Visit = Visit(key: Key, at: int)

  ghost function ReconciledAll(c: Settings, w: World, visits: seq<Visit>): World
    decreases |visits|
  {
    if visits == [] then w
    else ReconciledAll(c, Reconciled(c, w.(clock := visits[0].at), visits[0].key), visits[1..])
  }

  ghost predicate IsDeploymentOfSome(w: World, d: Key) {
    exists k :: k in w.functions && DeploymentKey(w.functions[k]) == d
  }

  ghost predicate IsServiceOfSome(w: World, s: Key) {
    exists k :: k in w.functions && ServiceKey(w.functions[k]) == s
  }

  ghost predicate Provisioned(c: Settings, w: World, f: Function) {
    && DeploymentKey(f) in w.deployments && w.deployments[DeploymentKey(f)].template == NewDeployment(c, f)
    && ServiceKey(f) in w.services && w.services[ServiceKey(f)].template == NewService(f)
  }

  ghost predicate Absent(w: World, f: Function) {
    DeploymentKey(f) !in w.deployments && ServiceKey(f) !in w.services
  }

  /** The Functions in `scope` have the runtimes their activity calls for. */
  ghost predicate Settled(c: Settings, w: World, scope: set<Key>) {
    forall k :: k in w.functions && k in scope ==>
      && (w.functions[k].spec.isActive ==> Provisioned(c, w, w.functions[k]))
      && (!HasActiveUser(w, w.functions[k]) ==> Absent(w, w.functions[k]))
  }

  /** Objects that belong to no Function are as they were. */
  ghost predicate StrangersUntouched(before: World, after: World) {
    && (forall d :: !IsDeploymentOfSome(before, d) ==>
         (d in after.deployments <==> d in before.deployments)
         && (d in before.deployments ==> after.deployments[d] == before.deployments[d]))
    && (forall s :: !IsServiceOfSome(before, s) ==>
         (s in after.services <==> s in before.services)
         && (s in before.services ==> after.services[s] == before.services[s]))
  }

  /** A Service that is still used keeps the address it had. */
  ghost predicate AddressesKept(before: World, after: World) {
    forall k :: k in before.functions && HasActiveUser(before, before.functions[k]) ==>
      var s := ServiceKey(before.functions[k]);
      s in before.services ==> s in after.services && after.services[s].clusterIP == before.services[s].clusterIP
  }

  lemma IdentityFixesRuntime(f: Function, g: Function)
    requires SameIdentity(f, g)
    ensures DeploymentKey(f) == DeploymentKey(g) && ServiceKey(f) == ServiceKey(g)
    ensures forall c: Settings :: NewDeployment(c, f) == NewDeployment(c, g)
    ensures NewService(f) == NewService(g)
    ensures forall h :: SameRuntime(f, h) == SameRuntime(g, h) && SameRuntime(h, f) == SameRuntime(h, g)
  {
  }

  lemma SameActivitySameUsers(w: World, v: World, f: Function, g: Function)
    requires SameActivity(w, v) && SameIdentity(f, g)
    ensures HasActiveUser(w, f) <==> HasActiveUser(v, g)
  {
  }

  lemma ProvisionKeepsFunctions(c: Settings, w: World, f: Function)
    ensures var v := Provision(c, w, f);
      v.functions == w.functions && v.queue == w.queue && v.clock == w.clock && v.version >= w.version
  {
  }

  lemma WriteKeepsActivity(w: World, f: Function)
    requires WellNamed(w) && f.key in w.functions && SameIdentity(w.functions[f.key], f)
    requires f.spec.isActive == w.functions[f.key].spec.isActive
    ensures WellNamed(WriteIfChanged(w, f)) && SameActivity(w, WriteIfChanged(w, f))
  {
  }

  /** A reconcile changes no activity, no names, and keeps the store well formed. */
  lemma ReconcileKeepsActivity(c: Settings, w: World, key: Key)
    requires WellNamed(w)
    ensures WellNamed(Reconciled(c, w, key)) && SameActivity(w, Reconciled(c, w, key))
  {
    if key in w.functions {
      var f := w.functions[key];
      ProvisionKeepsFunctions(c, w, f);
      hide Provision, WellFormed;
      if f.spec.isActive {
        WriteKeepsActivity(Provision(c, w, f), Renewed(c, f, w.clock));
      }
    }
  }

  /** A reconcile gives an active Function a lease of one keep-warm time from now, and changes nothing else in it. */
  lemma ReconcileRenews(c: Settings, w: World, key: Key)
    requires WellNamed(w) && key in w.functions
    ensures var spec, after := w.functions[key].spec, Reconciled(c, w, key).functions[key].spec;
      if spec.isActive
      then after == spec.(lease := after.lease) && EndsInLastSecond(after.lease, w.clock + c.keepWarm)
      else after == spec
  {
    var f := w.functions[key];
    ProvisionKeepsFunctions(c, w, f);
    hide Provision, WellFormed, SharedInUse, RemoveRuntime;
  }

  /** Apart from the two objects named after its Function a reconcile leaves Deployments and Services alone. */
  lemma ReconcileFrame(c: Settings, w: World, key: Key)
    requires WellNamed(w) && key in w.functions
    ensures var v := Reconciled(c, w, key); var f := w.functions[key];
      && v.deployments - {DeploymentKey(f)} == w.deployments - {DeploymentKey(f)}
      && v.services - {ServiceKey(f)} == w.services - {ServiceKey(f)}
      && (ServiceKey(f) in v.services && ServiceKey(f) in w.services ==>
            v.services[ServiceKey(f)].clusterIP == w.services[ServiceKey(f)].clusterIP)
  {
    var f := w.functions[key];
    TemplateKeys(c, f);
    PutFrame(w, NewDeployment(c, f), NewService(f));
    hide DeploymentKey, ServiceKey, NewDeployment, NewService, PutDeployment, PutService;
  }

  lemma PutFrame(w: World, t: DeploymentTemplate, s: ServiceTemplate)
    ensures var v := PutService(PutDeployment(w, t), s);
      && v.deployments - {t.key} == w.deployments - {t.key}
      && v.services - {s.key} == w.services - {s.key}
      && (s.key in v.services && s.key in w.services ==> v.services[s.key].clusterIP == w.services[s.key].clusterIP)
  {
  }

  /** A reconcile touches no object outside the runtime of its Function. */
  lemma ReconcileIsLocal(c: Settings, w: World, key: Key, f: Function)
    requires WellNamed(w) && key in w.functions && WellFormed(f) && !SameRuntime(f, w.functions[key])
    ensures var v := Reconciled(c, w, key);
      && (Provisioned(c, w, f) ==> Provisioned(c, v, f))
      && (Absent(w, f) ==> Absent(v, f))
  {
    var g, v := w.functions[key], Reconciled(c, w, key);
    NamesEqualIffSameRuntime(f, g);
    ReconcileFrame(c, w, key);
    hide Reconciled, SameRuntime, WellNamed, WellFormed, DeploymentKey, ServiceKey, NewDeployment, NewService;
    assert DeploymentKey(f) in w.deployments ==> DeploymentKey(f) in w.deployments - {DeploymentKey(g)};
    assert ServiceKey(f) in w.services ==> ServiceKey(f) in w.services - {ServiceKey(g)};
    assert DeploymentKey(f) in v.deployments ==> DeploymentKey(f) in v.deployments - {DeploymentKey(g)};
    assert ServiceKey(f) in v.services ==> ServiceKey(f) in v.services - {ServiceKey(g)};
  }

  lemma ReconcileSettlesOne(c: Settings, w: World, key: Key)
    requires WellNamed(w) && key in w.functions
    ensures var v := Reconciled(c, w, key); var f := w.functions[key];
      && (f.spec.isActive ==> Provisioned(c, v, f))
      && (!HasActiveUser(w, f) ==> Absent(v, f))
      && (!f.spec.isActive && HasActiveUser(w, f) ==> v == w)
  {
    hide DeploymentKey, ServiceKey, NewDeployment, NewService;
    var f := w.functions[key];
    assert NewDeployment(c, f).key == DeploymentKey(f) && NewService(f).key == ServiceKey(f) by {
      TemplateKeys(c, f);
    }
    if !f.spec.isActive && HasActiveUser(w, f) {
      var k :| k in w.functions && w.functions[k].spec.isActive && SameRuntime(w.functions[k], f);
      assert SharesRuntimeOf(w.functions[k], f);
    }
  }

  lemma TemplateKeys(c: Settings, f: Function)
    ensures NewDeployment(c, f).key == DeploymentKey(f) && NewService(f).key == ServiceKey(f)
  {
  }

  /** One more reconcile keeps what is settled and settles its own Function. */
  lemma ReconcileExtendsSettled(c: Settings, w: World, key: Key, scope: set<Key>)
    requires WellNamed(w) && Settled(c, w, scope)
    ensures Settled(c, Reconciled(c, w, key), scope + {key})
  {
    var v := Reconciled(c, w, key);
    ReconcileKeepsActivity(c, w, key);
    forall k | k in v.functions && k in scope + {key}
      ensures v.functions[k].spec.isActive ==> Provisioned(c, v, v.functions[k])
      ensures !HasActiveUser(v, v.functions[k]) ==> Absent(v, v.functions[k])
    {
      SettledAfterReconcile(c, w, key, scope, k);
    }
  }

  lemma SettledAfterReconcile(c: Settings, w: World, key: Key, scope: set<Key>, k: Key)
    requires WellNamed(w) && Settled(c, w, scope)
    requires k in w.functions && (k in scope || k == key)
    requires SameActivity(w, Reconciled(c, w, key))
    ensures var v := Reconciled(c, w, key);
      && (v.functions[k].spec.isActive ==> Provisioned(c, v, v.functions[k]))
      && (!HasActiveUser(v, v.functions[k]) ==> Absent(v, v.functions[k]))
  {
    var v, f := Reconciled(c, w, key), w.functions[k];
    IdentityFixesRuntime(f, v.functions[k]);
    SameActivitySameUsers(w, v, f, v.functions[k]);
    hide DeploymentKey, ServiceKey, NewDeployment, NewService;
    if key in w.functions {
      ReconcileSettlesOne(c, w, key);
      var g := w.functions[key];
      if !SameRuntime(f, g) {
        ReconcileIsLocal(c, w, key, f);
      } else {
        NamesEqualIffSameRuntime(f, g);
        SameRuntimeSameTemplates(c, f, g);
        if f.spec.isActive {
          assert HasActiveUser(w, g);
        }
        if !HasActiveUser(w, f) {
          NoUserOnSameRuntime(w, f, g);
        }
      }
    }
  }

  lemma NoUserOnSameRuntime(w: World, f: Function, g: Function)
    requires SameRuntime(f, g) && !HasActiveUser(w, f)
    ensures !HasActiveUser(w, g)
  {
  }

  lemma ReconcileSparesStrangers(c: Settings, w: World, key: Key)
    requires WellNamed(w)
    ensures StrangersUntouched(w, Reconciled(c, w, key))
  {
    if key in w.functions {
      ReconcileFrame(c, w, key);
      var v, f := Reconciled(c, w, key), w.functions[key];
      hide DeploymentKey, ServiceKey, Reconciled;
      forall d | !IsDeploymentOfSome(w, d)
        ensures d in v.deployments <==> d in w.deployments
        ensures d in w.deployments ==> v.deployments[d] == w.deployments[d]
      {
        assert d != DeploymentKey(f);
        assert d in v.deployments - {DeploymentKey(f)} <==> d in w.deployments - {DeploymentKey(f)};
      }
      forall s | !IsServiceOfSome(w, s)
        ensures s in v.services <==> s in w.services
        ensures s in w.services ==> v.services[s] == w.services[s]
      {
        assert s != ServiceKey(f);
        assert s in v.services - {ServiceKey(f)} <==> s in w.services - {ServiceKey(f)};
      }
    }
  }

  lemma ReconcileKeepsAddresses(c: Settings, w: World, key: Key)
    requires WellNamed(w)
    ensures AddressesKept(w, Reconciled(c, w, key))
  {
    var v := Reconciled(c, w, key);
    forall k | k in w.functions && HasActiveUser(w, w.functions[k]) && ServiceKey(w.functions[k]) in w.services
      ensures ServiceKey(w.functions[k]) in v.services
      ensures v.services[ServiceKey(w.functions[k])].clusterIP == w.services[ServiceKey(w.functions[k])].clusterIP
    {
      if key in w.functions {
        AddressKept(c, w, key, w.functions[k]);
      }
    }
  }

  lemma AddressKept(c: Settings, w: World, key: Key, f: Function)
    requires WellNamed(w) && key in w.functions && WellFormed(f)
    requires HasActiveUser(w, f) && ServiceKey(f) in w.services
    ensures var v := Reconciled(c, w, key);
      ServiceKey(f) in v.services && v.services[ServiceKey(f)].clusterIP == w.services[ServiceKey(f)].clusterIP
  {
    var v, g := Reconciled(c, w, key), w.functions[key];
    ReconcileFrame(c, w, key);
    ReconcileSettlesOne(c, w, key);
    NamesEqualIffSameRuntime(f, g);
    if SameRuntime(f, g) && !HasActiveUser(w, g) {
      NoUserOnSameRuntime(w, g, f);
    }
    hide Reconciled, DeploymentKey, ServiceKey;
    assert ServiceKey(f) != ServiceKey(g) ==> ServiceKey(f) in v.services - {ServiceKey(g)};
  }

  /** The keys a schedule visits. */
  function Visited(visits: seq<Visit>): set<Key> {
    set i | 0 <= i < |visits| :: visits[i].key
  }

  /** What any schedule of reconciles keeps and achieves, by induction over the schedule. */
  lemma {:induction false} SchedulesSettle(c: Settings, w: World, visits: seq<Visit>, scope: set<Key>)
    requires WellNamed(w) && Settled(c, w, scope)
    ensures var v := ReconciledAll(c, w, visits);
      && WellNamed(v) && SameActivity(w, v)
      && Settled(c, v, scope + Visited(visits))
      && StrangersUntouched(w, v) && AddressesKept(w, v)
    decreases |visits|
  {
    var v := ReconciledAll(c, w, visits);
    if visits == [] {
      assert scope + Visited(visits) == scope;
    } else {
      var w1 := Reconciled(c, w.(clock := visits[0].at), visits[0].key);
      hide Reconciled, Settled, SameActivity, StrangersUntouched, AddressesKept, WellNamed, Visited;
      VisitExtendsSettled(c, w, visits[0], scope);
      SchedulesSettle(c, w1, visits[1..], scope + {visits[0].key});
      VisitedCons(visits);
      assert scope + {visits[0].key} + Visited(visits[1..]) == scope + Visited(visits);
      ChainEffects(w, w1, v);
    }
  }

  /** What one visit keeps and achieves. */
  lemma VisitExtendsSettled(c: Settings, w: World, visit: Visit, scope: set<Key>)
    requires WellNamed(w) && Settled(c, w, scope)
    ensures var v := Reconciled(c, w.(clock := visit.at), visit.key);
      && WellNamed(v) && SameActivity(w, v) && Settled(c, v, scope + {visit.key})
      && StrangersUntouched(w, v) && AddressesKept(w, v)
  {
    var w0 := w.(clock := visit.at);
    ClockIsNoActivity(c, w, visit.at, scope);
    ReconcileKeepsActivity(c, w0, visit.key);
    ReconcileExtendsSettled(c, w0, visit.key, scope);
    ReconcileSparesStrangers(c, w0, visit.key);
    ReconcileKeepsAddresses(c, w0, visit.key);
    hide Reconciled, Settled, WellNamed;
    ChainEffects(w, w0, Reconciled(c, w0, visit.key));
  }

  lemma VisitedCons(visits: seq<Visit>)
    requires visits != []
    ensures Visited(visits) == {visits[0].key} + Visited(visits[1..])
  {
  }

  lemma ClockIsNoActivity(c: Settings, w: World, at: int, scope: set<Key>)
    ensures var v := w.(clock := at);
      && SameActivity(w, v) && StrangersUntouched(w, v) && AddressesKept(w, v)
      && (Settled(c, w, scope) ==> Settled(c, v, scope))
      && (WellNamed(w) ==> WellNamed(v))
  {
  }

  lemma ChainEffects(w: World, w1: World, v: World)
    requires SameActivity(w, w1) && SameActivity(w1, v)
    requires StrangersUntouched(w, w1) && StrangersUntouched(w1, v)
    requires AddressesKept(w, w1) && AddressesKept(w1, v)
    ensures SameActivity(w, v) && StrangersUntouched(w, v) && AddressesKept(w, v)
  {
    SameActivitySameObjects(w, w1);
    ChainAddresses(w, w1, v);
    hide DeploymentKey, ServiceKey, HasActiveUser, AddressesKept, IsDeploymentOfSome, IsServiceOfSome;
  }

  lemma SameActivitySameObjects(w: World, v: World)
    requires SameActivity(w, v)
    ensures forall d :: IsDeploymentOfSome(w, d) <==> IsDeploymentOfSome(v, d)
    ensures forall s :: IsServiceOfSome(w, s) <==> IsServiceOfSome(v, s)
  {
  }

  lemma ChainAddresses(w: World, w1: World, v: World)
    requires SameActivity(w, w1) && AddressesKept(w, w1) && AddressesKept(w1, v)
    ensures AddressesKept(w, v)
  {
  }

  /**
   * Once every Function has been visited, however often and in whatever order, exactly the Functions that are active
   * have runtimes, each built from its Function; everything else stays as it was.
   */
  lemma AnyCompleteScheduleConverges(c: Settings, w: World, visits: seq<Visit>)
    requires WellNamed(w) && w.functions.Keys <= Visited(visits)
    ensures var v := ReconciledAll(c, w, visits);
      && Settled(c, v, w.functions.Keys) && SameActivity(w, v)
      && StrangersUntouched(w, v) && AddressesKept(w, v)
  {
    SchedulesSettle(c, w, visits, {});
    var v := ReconciledAll(c, w, visits);
    assert forall k :: k in w.functions ==> k in {} + Visited(visits);
  }

  /** The two worlds hold the same Deployments and Services, version numbers and the addresses of new Services apart. */
  ghost predicate SameRuntimes(v1: World, v2: World) {
    && v1.deployments.Keys == v2.deployments.Keys
    && (forall d :: d in v1.deployments ==> v1.deployments[d].template == v2.deployments[d].template)
    && v1.services.Keys == v2.services.Keys
    && (forall s :: s in v1.services ==> v1.services[s].template == v2.services[s].template)
  }

  /** Two complete schedules end with the same Deployments and Services. */
  lemma SchedulesAgree(c: Settings, w: World, first: seq<Visit>, second: seq<Visit>)
    requires WellNamed(w) && w.functions.Keys <= Visited(first) && w.functions.Keys <= Visited(second)
    ensures SameRuntimes(ReconciledAll(c, w, first), ReconciledAll(c, w, second))
  {
    var v1, v2 := ReconciledAll(c, w, first), ReconciledAll(c, w, second);
    AnyCompleteScheduleConverges(c, w, first);
    AnyCompleteScheduleConverges(c, w, second);
    hide ReconciledAll, Settled, StrangersUntouched, WellNamed, SameActivity;
    SameDeployments(c, w, v1, v2);
    SameServices(c, w, v1, v2);
  }

  lemma SameDeployments(c: Settings, w: World, v1: World, v2: World)
    requires WellNamed(w)
    requires SameActivity(w, v1) && Settled(c, v1, w.functions.Keys) && StrangersUntouched(w, v1)
    requires SameActivity(w, v2) && Settled(c, v2, w.functions.Keys) && StrangersUntouched(w, v2)
    ensures v1.deployments.Keys == v2.deployments.Keys
    ensures forall d :: d in v1.deployments ==> v1.deployments[d].template == v2.deployments[d].template
  {
    hide WellNamed, SameActivity, Settled, StrangersUntouched;
    forall d
      ensures d in v1.deployments <==> d in v2.deployments
      ensures d in v1.deployments ==> v1.deployments[d].template == v2.deployments[d].template
    {
      DeploymentsAgree(c, w, v1, v2, d);
    }
  }

  lemma SameServices(c: Settings, w: World, v1: World, v2: World)
    requires WellNamed(w)
    requires SameActivity(w, v1) && Settled(c, v1, w.functions.Keys) && StrangersUntouched(w, v1)
    requires SameActivity(w, v2) && Settled(c, v2, w.functions.Keys) && StrangersUntouched(w, v2)
    ensures v1.services.Keys == v2.services.Keys
    ensures forall s :: s in v1.services ==> v1.services[s].template == v2.services[s].template
  {
    hide WellNamed, SameActivity, Settled, StrangersUntouched;
    forall s
      ensures s in v1.services <==> s in v2.services
      ensures s in v1.services ==> v1.services[s].template == v2.services[s].template
    {
      ServicesAgree(c, w, v1, v2, s);
    }
  }

  lemma DeploymentsAgree(c: Settings, w: World, v1: World, v2: World, d: Key)
    requires WellNamed(w)
    requires SameActivity(w, v1) && Settled(c, v1, w.functions.Keys) && StrangersUntouched(w, v1)
    requires SameActivity(w, v2) && Settled(c, v2, w.functions.Keys) && StrangersUntouched(w, v2)
    ensures d in v1.deployments <==> d in v2.deployments
    ensures d in v1.deployments ==> v1.deployments[d].template == v2.deployments[d].template
  {
    if IsDeploymentOfSome(w, d) {
      var k :| k in w.functions && DeploymentKey(w.functions[k]) == d;
      RuntimesAgree(c, w, v1, v2, k);
    }
    hide DeploymentKey, ServiceKey, NewDeployment, NewService, IsDeploymentOfSome, Settled;
  }

  lemma ServicesAgree(c: Settings, w: World, v1: World, v2: World, s: Key)
    requires WellNamed(w)
    requires SameActivity(w, v1) && Settled(c, v1, w.functions.Keys) && StrangersUntouched(w, v1)
    requires SameActivity(w, v2) && Settled(c, v2, w.functions.Keys) && StrangersUntouched(w, v2)
    ensures s in v1.services <==> s in v2.services
    ensures s in v1.services ==> v1.services[s].template == v2.services[s].template
  {
    if IsServiceOfSome(w, s) {
      var k :| k in w.functions && ServiceKey(w.functions[k]) == s;
      RuntimesAgree(c, w, v1, v2, k);
    }
    hide DeploymentKey, ServiceKey, NewDeployment, NewService, IsServiceOfSome, Settled;
  }

  /** In a settled world the runtime of `k` is fixed by the activity alone. */
  lemma RuntimesAgree(c: Settings, w: World, v1: World, v2: World, k: Key)
    requires WellNamed(w) && k in w.functions
    requires SameActivity(w, v1) && Settled(c, v1, w.functions.Keys)
    requires SameActivity(w, v2) && Settled(c, v2, w.functions.Keys)
    ensures var f := w.functions[k];
      || (Absent(v1, f) && Absent(v2, f))
      || (Provisioned(c, v1, f) && Provisioned(c, v2, f))
  {
    RuntimeFollowsActivity(c, w, v1, k);
    RuntimeFollowsActivity(c, w, v2, k);
  }

  lemma RuntimeFollowsActivity(c: Settings, w: World, v: World, k: Key)
    requires WellNamed(w) && k in w.functions
    requires SameActivity(w, v) && Settled(c, v, w.functions.Keys)
    ensures var f := w.functions[k];
      if HasActiveUser(w, f) then Provisioned(c, v, f) else Absent(v, f)
  {
    var f := w.functions[k];
    SameActivitySameUsers(w, v, f, v.functions[k]);
    IdentityFixesRuntime(f, v.functions[k]);
    if HasActiveUser(w, f) {
      var u :| u in w.functions && w.functions[u].spec.isActive && SameRuntime(w.functions[u], f);
      IdentityFixesRuntime(w.functions[u], v.functions[u]);
      NamesEqualIffSameRuntime(w.functions[u], f);
      SameRuntimeSameTemplates(c, w.functions[u], f);
    }
  }
}
