/** The cleanup job: deactivates Functions whose lease is over and removes runtimes that nobody uses any more. */
module Cleanup {
  import opened Collections
  import opened Functions
  import opened Cluster
  import Api
  import Convergence

  /** The Functions that a pass at time `now` deactivates. */
  predicate Expired(f: Function, now: int) {
    f.spec.isActive && Over(f.spec.lease, now)
  }

  predicate Deactivated(f: Function, g: Function) {
    g == f.(spec := f.spec.(isActive := false), version := g.version)
  }

  function ExpiredIn(w: World, scope: set<Key>, now: int): set<Key> {
    set k | k in scope && k in w.functions && Expired(w.functions[k], now)
  }

  /** The Functions of `scope` that expired and whose runtime has no active Function left. */
  ghost function Abandoned(before: World, after: World, scope: set<Key>, now: int): set<Key> {
    set k | k in scope && k in before.functions && Expired(before.functions[k], now)
            && !HasActiveUser(after, before.functions[k])
  }

  ghost function DeploymentsOf(w: World, keys: set<Key>): set<Key> {
    set k | k in keys && k in w.functions :: DeploymentKey(w.functions[k])
  }

  ghost function ServicesOf(w: World, keys: set<Key>): set<Key> {
    set k | k in keys && k in w.functions :: ServiceKey(w.functions[k])
  }

  /** Exactly the expired Functions of `scope` are switched off; every other Function is untouched. */
  ghost predicate SwitchedOff(before: World, after: World, scope: set<Key>, now: int) {
    && after.functions.Keys == before.functions.Keys
    && (forall k :: k in before.functions ==>
         if k in scope && Expired(before.functions[k], now) then Deactivated(before.functions[k], after.functions[k])
         else after.functions[k] == before.functions[k])
  }

  /**
   * The outcome of a pass over the Functions in `scope`. Nothing here depends on the order of the list: a Function
   * ends active iff it was active and not over at `now`; a runtime is removed iff one of its Functions expired in
   * this pass and none is active afterwards.
   */
  ghost predicate CleanedUp(before: World, after: World, scope: set<Key>, now: int) {
    && SwitchedOff(before, after, scope, now)
    && after.deployments == before.deployments - DeploymentsOf(before, Abandoned(before, after, scope, now))
    && after.services == before.services - ServicesOf(before, Abandoned(before, after, scope, now))
    && after.queue == before.queue + ExpiredIn(before, scope, now)
    && after.clock == before.clock
    && after.version >= before.version
  }

  /** The effect of one iteration on an item that has expired. */
  ghost function Expire(w: World, key: Key): World
    requires key in w.functions
  {
    var v := PatchInactive(w, key).world;
    if SharedInUse(v, v.functions[key]) then v
    else v.(deployments := v.deployments - {DeploymentKey(v.functions[key])},
            services := v.services - {ServiceKey(v.functions[key])})
  }

  class CleanupJob {
    const api: Api.ApiServer

    constructor (api: Api.ApiServer)
      ensures this.api == api
    {
      this.api := api;
    }

    method RunCleanup(namespace: string)
      requires WellNamed(api.world)
      modifies api
      ensures WellNamed(api.world)
      ensures CleanedUp(old(api.world), api.world,
        set k | k in old(api.world).functions && k.namespace == namespace, old(api.world).clock)
      ensures forall k :: k in old(api.world).functions ==>
        && k in api.world.functions
        && (api.world.functions[k].spec.isActive <==>
              && old(api.world).functions[k].spec.isActive
              && (k.namespace == namespace && old(api.world).functions[k].spec.lease.Until? ==>
                    old(api.world).clock <= old(api.world).functions[k].spec.lease.second * 1_000_000_000))
    {
      var items := api.ListFunctions(namespace);
      var now := api.world.clock;
      ghost var before, scope := api.world, {};
      NothingCleaned(before, now);

      for i := 0 to |items|
        invariant WellNamed(api.world)
        invariant CleanedUp(before, api.world, scope, now)
        invariant scope == set j | 0 <= j < i :: items[j].key
      {
        var fn := items[i];
        ghost var w, done := api.world, scope;
        scope := scope + {fn.key};
        FreshItem(items, i, done);
        if fn.spec.isActive && fn.spec.lease != Unset {
          if fn.spec.lease.Malformed? {
            SkipStep(before, w, done, fn.key, now);
            continue;
          }
          if now > fn.spec.lease.second * SECOND {
            DeactivateAndRelease(fn);
            ExpireStep(before, w, done, fn.key, now);
            continue;
          }
        }
        SkipStep(before, w, done, fn.key, now);
      }
      assert scope == set k | k in before.functions && k.namespace == namespace;
    }

    /** The body of the loop for an expired item: patch, in-use test, delete. */
    method DeactivateAndRelease(listed: Function)
      requires WellNamed(api.world) && listed.key in api.world.functions
      requires SameIdentity(listed, api.world.functions[listed.key])
      modifies api
      ensures api.world == Expire(old(api.world), listed.key)
      ensures WellNamed(api.world)
    {
      ghost var w := api.world;
      var outcome := api.PatchInactive(listed.key);
      hide DeploymentKey, ServiceKey, WellFormed;
      assert SameIdentity(listed, api.world.functions[listed.key]);
      SameNames(listed, api.world.functions[listed.key]);
      PatchKeepsNames(w, listed.key);
      var sharedInUse := HasOtherActiveFunctionUsingSharedRuntime(listed);
      assert sharedInUse <==> SharedInUse(api.world, api.world.functions[listed.key]);
      if sharedInUse {
        return;
      }
      var existingDeployment := api.GetDeployment(DeploymentKey(listed));
      if existingDeployment.Some? {
        outcome := api.DeleteDeployment(DeploymentKey(listed));
      }
      var existingService := api.GetService(ServiceKey(listed));
      if existingService.Some? {
        outcome := api.DeleteService(ServiceKey(listed));
      }
      ghost var v := PatchInactive(w, listed.key).world;
      assert api.world.deployments == v.deployments - {DeploymentKey(listed)};
      assert api.world.services == v.services - {ServiceKey(listed)};
    }

    method HasOtherActiveFunctionUsingSharedRuntime(f: Function) returns (inUse: bool)
      requires WellNamed(api.world)
      ensures inUse <==> SharedInUse(api.world, f)
    {
      if !IsDynamicLanguage(f.spec.language) {
        return false;
      }
      var items := api.ListFunctions(f.key.namespace);
      for i := 0 to |items|
        invariant forall j :: 0 <= j < i ==> !(items[j].spec.isActive && SharesRuntimeOf(items[j], f))
      {
        var fn := items[i];
        if fn.key.name == f.key.name {
          continue;
        }
        if fn.spec.project != f.spec.project || fn.spec.language != f.spec.language {
          continue;
        }
        if fn.spec.isActive {
          assert fn.key in api.world.functions && api.world.functions[fn.key] == fn;
          return true;
        }
      }
      return false;
    }
  }

  lemma SameNames(f: Function, g: Function)
    requires SameIdentity(f, g)
    ensures DeploymentKey(f) == DeploymentKey(g) && ServiceKey(f) == ServiceKey(g)
    ensures forall h :: SharesRuntimeOf(h, f) == SharesRuntimeOf(h, g)
    ensures forall h :: SameRuntime(h, f) == SameRuntime(h, g)
  {
  }

  lemma PatchKeepsNames(w: World, key: Key)
    requires WellNamed(w)
    ensures WellNamed(PatchInactive(w, key).world)
  {
  }

  lemma FreshItem(items: seq<Function>, i: nat, done: set<Key>)
    requires i < |items| && done == set j | 0 <= j < i :: items[j].key
    requires forall a, b :: 0 <= a < b < |items| ==> items[a].key != items[b].key
    ensures items[i].key !in done
    ensures done + {items[i].key} == set j | 0 <= j < i + 1 :: items[j].key
  {
  }

  lemma NothingCleaned(w: World, now: int)
    ensures CleanedUp(w, w, {}, now)
  {
  }

  /** An item that has not expired widens the scope of what was cleaned, and nothing else. */
  lemma SkipStep(before: World, w: World, scope: set<Key>, key: Key, now: int)
    requires CleanedUp(before, w, scope, now) && key in before.functions && !Expired(before.functions[key], now)
    ensures CleanedUp(before, w, scope + {key}, now)
  {
  }

  /** On an inactive Function the in-use test looks for exactly the active users of its runtime. */
  lemma InUseTestIsActiveUse(w: World, f: Function)
    requires WellNamed(w) && f.key in w.functions && w.functions[f.key] == f && !f.spec.isActive
    ensures SharedInUse(w, f) <==> HasActiveUser(w, f)
  {
  }

  /** `key` is switched off between `w` and `v`, and no other Function changes. */
  ghost predicate SwitchesOff(w: World, v: World, key: Key) {
    && v.functions.Keys == w.functions.Keys && key in w.functions && Deactivated(w.functions[key], v.functions[key])
    && (forall k :: k in w.functions && k != key ==> v.functions[k] == w.functions[k])
  }

  /** The name to be removed along with `f`, if nobody is active on its runtime. */
  ghost function Released(v: World, f: Function, name: Key): set<Key> {
    if HasActiveUser(v, f) then {} else {name}
  }

  /** Switching off one Function takes an active user only from its own runtime. */
  lemma UsersAfterSwitchOff(w: World, v: World, key: Key, g: Function)
    requires SwitchesOff(w, v, key)
    ensures HasActiveUser(v, g) ==> HasActiveUser(w, g)
    ensures HasActiveUser(w, g) && !SameRuntime(g, w.functions[key]) ==> HasActiveUser(v, g)
    ensures SameRuntime(g, w.functions[key]) ==> (HasActiveUser(v, g) <==> HasActiveUser(v, w.functions[key]))
  {
  }

  /** After one more expiry, the newly abandoned Functions all share the runtime of the expired one. */
  lemma AbandonedGrow(before: World, w: World, v: World, scope: set<Key>, key: Key, now: int)
    requires SwitchedOff(before, w, scope, now) && key !in scope && SwitchesOff(w, v, key)
    requires key in before.functions && Expired(before.functions[key], now)
    ensures var old_, new_ := Abandoned(before, w, scope, now), Abandoned(before, v, scope + {key}, now);
      && old_ <= new_
      && (key in new_ <==> !HasActiveUser(v, before.functions[key]))
      && (forall k :: k in new_ && k !in old_ ==>
            key in new_ && SameRuntime(before.functions[k], before.functions[key]))
  {
    forall k | k in before.functions
      ensures HasActiveUser(v, before.functions[k]) ==> HasActiveUser(w, before.functions[k])
      ensures HasActiveUser(w, before.functions[k]) && !SameRuntime(before.functions[k], w.functions[key])
              ==> HasActiveUser(v, before.functions[k])
      ensures SameRuntime(before.functions[k], w.functions[key])
              ==> (HasActiveUser(v, before.functions[k]) <==> HasActiveUser(v, w.functions[key]))
    {
      UsersAfterSwitchOff(w, v, key, before.functions[k]);
    }
    hide HasActiveUser, SameRuntime;
    assert w.functions[key] == before.functions[key];
  }

  /** The names of the removed Deployments grow by that of the expired Function, or not at all. */
  lemma RemovedDeploymentsGrow(before: World, w: World, v: World, scope: set<Key>, key: Key, now: int)
    requires SwitchedOff(before, w, scope, now) && key !in scope && SwitchesOff(w, v, key)
    requires key in before.functions && Expired(before.functions[key], now)
    ensures var f := before.functions[key];
      DeploymentsOf(before, Abandoned(before, v, scope + {key}, now))
      == DeploymentsOf(before, Abandoned(before, w, scope, now)) + Released(v, f, DeploymentKey(f))
  {
    var old_, new_, f :=
      Abandoned(before, w, scope, now), Abandoned(before, v, scope + {key}, now), before.functions[key];
    AbandonedGrow(before, w, v, scope, key, now);
    assert forall k :: k in new_ && k !in old_ ==> DeploymentKey(before.functions[k]) == DeploymentKey(f);
    hide Abandoned, HasActiveUser, SwitchedOff, SwitchesOff, SameRuntime, DeploymentKey;
  }

  lemma RemovedServicesGrow(before: World, w: World, v: World, scope: set<Key>, key: Key, now: int)
    requires SwitchedOff(before, w, scope, now) && key !in scope && SwitchesOff(w, v, key)
    requires key in before.functions && Expired(before.functions[key], now)
    ensures var f := before.functions[key];
      ServicesOf(before, Abandoned(before, v, scope + {key}, now))
      == ServicesOf(before, Abandoned(before, w, scope, now)) + Released(v, f, ServiceKey(f))
  {
    var old_, new_, f :=
      Abandoned(before, w, scope, now), Abandoned(before, v, scope + {key}, now), before.functions[key];
    AbandonedGrow(before, w, v, scope, key, now);
    assert forall k :: k in new_ && k !in old_ ==> ServiceKey(before.functions[k]) == ServiceKey(f);
    hide Abandoned, HasActiveUser, SwitchedOff, SwitchesOff, SameRuntime, ServiceKey;
  }

  /** An expired item extends the cleaned scope by its key. */
  lemma ExpireStep(before: World, w: World, scope: set<Key>, key: Key, now: int)
    requires CleanedUp(before, w, scope, now) && WellNamed(w)
    requires key in before.functions && key !in scope && Expired(before.functions[key], now)
    ensures CleanedUp(before, Expire(w, key), scope + {key}, now)
  {
    var v, f := Expire(w, key), before.functions[key];
    assert w.functions[key] == f;
    ExpireEffect(w, key);
    SwitchOffGrows(before, w, v, scope, key, now);
    RemovedDeploymentsGrow(before, w, v, scope, key, now);
    RemovedServicesGrow(before, w, v, scope, key, now);
    hide Expire, ExpiredIn, Released, Abandoned, DeploymentsOf, ServicesOf, WellNamed, SwitchedOff, SwitchesOff;
    hide Expired;
    hide DeploymentKey, ServiceKey;
    MinusAddsUp(before.deployments, DeploymentsOf(before, Abandoned(before, w, scope, now)),
      Released(v, f, DeploymentKey(f)));
    MinusAddsUp(before.services, ServicesOf(before, Abandoned(before, w, scope, now)), Released(v, f, ServiceKey(f)));
  }

  /** One expiry: the Function is switched off, and its runtime goes unless somebody else is active on it. */
  lemma ExpireEffect(w: World, key: Key)
    requires WellNamed(w) && key in w.functions && w.functions[key].spec.isActive
    ensures var v, f := Expire(w, key), w.functions[key];
      && SwitchesOff(w, v, key)
      && v.queue == w.queue + {key} && v.clock == w.clock && v.version >= w.version
      && v.deployments == w.deployments - Released(v, f, DeploymentKey(f))
      && v.services == w.services - Released(v, f, ServiceKey(f))
  {
    var p, f := PatchInactive(w, key).world, w.functions[key];
    PatchKeepsNames(w, key);
    InUseTestIsActiveUse(p, p.functions[key]);
    SameNames(f, p.functions[key]);
    assert HasActiveUser(p, f) <==> HasActiveUser(Expire(w, key), f);
    hide SharedInUse, WellFormed, DeploymentKey, ServiceKey, SharesRuntimeOf, SameRuntime;
  }

  lemma SwitchOffGrows(before: World, w: World, v: World, scope: set<Key>, key: Key, now: int)
    requires SwitchedOff(before, w, scope, now) && key in before.functions && key !in scope
    requires Expired(before.functions[key], now) && SwitchesOff(w, v, key)
    ensures SwitchedOff(before, v, scope + {key}, now)
    ensures ExpiredIn(before, scope + {key}, now)
         == ExpiredIn(before, scope, now) + {key}
  {
  }

  /** Whatever the list order, two passes over the same world agree on everything but the version numbers. */
  lemma PassesAgree(before: World, first: World, second: World, scope: set<Key>, now: int)
    requires CleanedUp(before, first, scope, now) && CleanedUp(before, second, scope, now)
    ensures SameActivity(first, second)
    ensures first.deployments == second.deployments && first.services == second.services
    ensures first.queue == second.queue
  {
    forall k | k in before.functions
      ensures HasActiveUser(first, before.functions[k]) <==> HasActiveUser(second, before.functions[k])
    {
      Convergence.SameActivitySameUsers(first, second, before.functions[k], before.functions[k]);
    }
    hide HasActiveUser, DeploymentKey, ServiceKey;
    assert Abandoned(before, first, scope, now) == Abandoned(before, second, scope, now);
  }

  /** A pass never removes a runtime that an active Function still uses. */
  lemma CleanupSparesActiveRuntimes(before: World, after: World, scope: set<Key>, now: int, k: Key)
    requires WellNamed(before) && CleanedUp(before, after, scope, now)
    requires k in after.functions && after.functions[k].spec.isActive
    ensures var f := after.functions[k];
      && (DeploymentKey(f) in before.deployments ==> DeploymentKey(f) in after.deployments)
      && (ServiceKey(f) in before.services ==> ServiceKey(f) in after.services)
  {
    var f := after.functions[k];
    assert f == before.functions[k];
    forall u | u in Abandoned(before, after, scope, now)
      ensures DeploymentKey(before.functions[u]) != DeploymentKey(f) && ServiceKey(before.functions[u]) != ServiceKey(f)
    {
      NamesEqualIffSameRuntime(f, before.functions[u]);
    }
    hide Abandoned, DeploymentKey, ServiceKey;
  }
}
