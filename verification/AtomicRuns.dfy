/** Runs whose operations happen one after the other: no step takes the runtime of a Function that stays active. */
module AtomicRuns {
  import opened Functions
  import opened Cluster
  import opened Controller
  import opened Convergence
  import opened FunctionClient
  import opened Cleanup

  datatype Event =
    | Created(key: Key, project: string, language: string, isAsync: bool)
    | OperationPerformed(op: Operation, opKey: Key)
    | FunctionReconciled(recKey: Key)
    | ItemCleanedUp(itemKey: Key)
    | TimePassed(nanos: nat)

  /** Names the operator can keep apart. */
  predicate Admissible(e: Event) {
    e.Created? ==> WellFormed(NewFunction(e.key, e.project, e.language, e.isAsync))
  }

  ghost function After(c: Settings, w: World, e: Event): World {
    match e
    case Created(key, project, language, isAsync) =>
      CreateFunction(w, NewFunction(key, project, language, isAsync)).world
    case OperationPerformed(op, key) => Performed(op, w, key, ServerKeepWarm(c))
    case FunctionReconciled(key) => Reconciled(c, w, key)
    case ItemCleanedUp(key) => if key in w.functions && Expired(w.functions[key], w.clock) then Expire(w, key) else w
    case TimePassed(nanos) => w.(clock := w.clock + nanos)
  }

  ghost function AfterAll(c: Settings, w: World, events: seq<Event>): World {
    if events == [] then w else After(c, AfterAll(c, w, events[..|events| - 1]), events[|events| - 1])
  }

  lemma EventKeepsNames(c: Settings, w: World, e: Event)
    requires WellNamed(w) && Admissible(e)
    ensures WellNamed(After(c, w, e))
    ensures w.functions.Keys <= After(c, w, e).functions.Keys
    ensures forall k :: k in w.functions ==> SameIdentity(w.functions[k], After(c, w, e).functions[k])
  {
    match e {
      case Created(key, project, language, isAsync) =>
        if key !in w.functions { WriteKeepsNames(w, NewFunction(key, project, language, isAsync)); }
      case OperationPerformed(op, key) => OperationKeepsNames(w, op, key, ServerKeepWarm(c));
      case FunctionReconciled(key) => ReconcileKeepsActivity(c, w, key);
      case ItemCleanedUp(key) => if key in w.functions { ExpireKeepsNames(w, key); }
      case TimePassed(_) =>
    }
  }

  lemma OperationKeepsNames(w: World, op: Operation, key: Key, keepWarm: int)
    requires WellNamed(w)
    ensures var v := Performed(op, w, key, keepWarm);
      && WellNamed(v) && w.functions.Keys <= v.functions.Keys
      && forall k :: k in w.functions ==> SameIdentity(w.functions[k], v.functions[k])
  {
  }

  lemma ExpireKeepsNames(w: World, key: Key)
    requires WellNamed(w) && key in w.functions
    ensures var v := Expire(w, key);
      && WellNamed(v) && w.functions.Keys <= v.functions.Keys
      && forall k :: k in w.functions ==> SameIdentity(w.functions[k], v.functions[k])
  {
    PatchKeepsNames(w, key);
    hide DeploymentKey, ServiceKey, SharedInUse, WellFormed;
  }

  lemma WriteKeepsNames(w: World, g: Function)
    requires WellNamed(w) && WellFormed(g) && (g.key in w.functions ==> SameIdentity(w.functions[g.key], g))
    ensures var v := Write(w, g);
      && WellNamed(v) && w.functions.Keys <= v.functions.Keys
      && forall k :: k in w.functions ==> SameIdentity(w.functions[k], v.functions[k])
  {
  }

  /** A Function that is active after the event keeps every object it had before. */
  lemma EventSparesActive(c: Settings, w: World, e: Event, k: Key)
    requires WellNamed(w) && Admissible(e)
    requires k in w.functions && k in After(c, w, e).functions && After(c, w, e).functions[k].spec.isActive
    ensures var v := After(c, w, e); var f := w.functions[k];
      && (DeploymentKey(f) in w.deployments ==> DeploymentKey(f) in v.deployments)
      && (ServiceKey(f) in w.services ==> ServiceKey(f) in v.services)
      && (Provisioned(c, w, f) ==> Provisioned(c, v, f))
  {
    match e {
      case FunctionReconciled(key) => ReconcileSparesActive(c, w, key, k);
      case ItemCleanedUp(key) =>
        if key in w.functions && Expired(w.functions[key], w.clock) {
          ExpirySparesActive(c, w, key, k);
        }
      case _ => hide DeploymentKey, ServiceKey, NewDeployment, NewService;
    }
  }

  lemma ReconcileSparesActive(c: Settings, w: World, key: Key, k: Key)
    requires WellNamed(w) && k in w.functions && k in Reconciled(c, w, key).functions
    requires Reconciled(c, w, key).functions[k].spec.isActive
    ensures var v := Reconciled(c, w, key); var f := w.functions[k];
      && (DeploymentKey(f) in w.deployments ==> DeploymentKey(f) in v.deployments)
      && (ServiceKey(f) in w.services ==> ServiceKey(f) in v.services)
      && (Provisioned(c, w, f) ==> Provisioned(c, v, f))
  {
    ReconcileKeepsActivity(c, w, key);
    assert w.functions[k].spec.isActive;
    if key in w.functions {
      var f, g, v := w.functions[k], w.functions[key], Reconciled(c, w, key);
      NamesEqualIffSameRuntime(f, g);
      ReconcileFrame(c, w, key);
      ReconcileSettlesOne(c, w, key);
      if SameRuntime(f, g) {
        assert HasActiveUser(w, g);
        SameRuntimeSameTemplates(c, f, g);
      } else {
        ReconcileIsLocal(c, w, key, f);
      }
      hide Reconciled, DeploymentKey, ServiceKey, NewDeployment, NewService, SameRuntime, HasActiveUser;
      assert DeploymentKey(f) != DeploymentKey(g) ==>
        (DeploymentKey(f) in v.deployments <==> DeploymentKey(f) in v.deployments - {DeploymentKey(g)});
      assert ServiceKey(f) != ServiceKey(g) ==>
        (ServiceKey(f) in v.services <==> ServiceKey(f) in v.services - {ServiceKey(g)});
    }
  }

  lemma ExpirySparesActive(c: Settings, w: World, key: Key, k: Key)
    requires WellNamed(w) && key in w.functions && Expired(w.functions[key], w.clock)
    requires k in w.functions && k in Expire(w, key).functions && Expire(w, key).functions[k].spec.isActive
    ensures var v := Expire(w, key); var f := w.functions[k];
      && (DeploymentKey(f) in w.deployments ==> DeploymentKey(f) in v.deployments)
      && (ServiceKey(f) in w.services ==> ServiceKey(f) in v.services)
      && (Provisioned(c, w, f) ==> Provisioned(c, v, f))
  {
    var v, f, g := Expire(w, key), w.functions[k], w.functions[key];
    ExpireEffect(w, key);
    assert w.functions[key].key == key && k != key;
    assert v.functions[k] == f;
    NamesEqualIffSameRuntime(f, g);
    assert SameRuntime(f, g) ==> HasActiveUser(v, g);
    hide Expire, DeploymentKey, ServiceKey, NewDeployment, NewService, SameRuntime, HasActiveUser, WellNamed;
  }

  /** The Function is active after every one of the events. */
  ghost predicate StaysActive(c: Settings, w: World, events: seq<Event>, k: Key) {
    events != [] ==>
      && StaysActive(c, w, events[..|events| - 1], k)
      && k in AfterAll(c, w, events).functions && AfterAll(c, w, events).functions[k].spec.isActive
  }

  /** A Function that stays active through a run keeps its runtime through the run. */
  lemma {:induction false} RunKeepsRuntime(c: Settings, w: World, events: seq<Event>, k: Key)
    requires WellNamed(w) && k in w.functions && Provisioned(c, w, w.functions[k])
    requires forall i :: 0 <= i < |events| ==> Admissible(events[i])
    requires StaysActive(c, w, events, k)
    ensures var v := AfterAll(c, w, events);
      && WellNamed(v) && k in v.functions && SameIdentity(w.functions[k], v.functions[k])
      && Provisioned(c, v, v.functions[k])
  {
    hide WellNamed, Provisioned, After;
    if events != [] {
      var n := |events| - 1;
      var prefix, e := events[..n], events[n];
      RunKeepsRuntime(c, w, prefix, k);
      var u := AfterAll(c, w, prefix);
      EventKeepsNames(c, u, e);
      EventSparesActive(c, u, e, k);
      IdentityFixesRuntime(u.functions[k], After(c, u, e).functions[k]);
      IdentityMovesProvision(c, After(c, u, e), u.functions[k], After(c, u, e).functions[k]);
    }
  }

  lemma IdentityMovesProvision(c: Settings, w: World, f: Function, g: Function)
    requires SameIdentity(f, g) && Provisioned(c, w, f)
    ensures Provisioned(c, w, g)
  {
  }
}
