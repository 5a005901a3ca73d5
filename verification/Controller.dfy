/** The reconcile loop body: brings the runtime of one Function in line with its activity. */
module Controller {
  import opened Functions
  import opened Cluster
  import opened Options
  import Api

  /** Creates or updates; an existing object with the wanted template is left alone. */
  function PutDeployment(w: World, t: DeploymentTemplate): World {
    if t.key in w.deployments && w.deployments[t.key].template == t then w else StoreDeployment(w, t)
  }

  /** A Service that already exists keeps its address. */
  function PutService(w: World, t: ServiceTemplate): World {
    if t.key !in w.services then StoreService(w, t, w.version)
    else if w.services[t.key].template == t then w
    else StoreService(w, t, w.services[t.key].clusterIP)
  }

  function RemoveRuntime(w: World, f: Function): World {
    w.(deployments := w.deployments - {DeploymentKey(f)}, services := w.services - {ServiceKey(f)})
  }

  function Renewed(c: Settings, f: Function, now: int): Function {
    f.(spec := f.spec.(lease := Format(now + c.keepWarm)))
  }

  function Provision(c: Settings, w: World, f: Function): World {
    PutService(PutDeployment(w, NewDeployment(c, f)), NewService(f))
  }

  /** One reconcile of `key` with nobody else writing. */
  ghost function Reconciled(c: Settings, w: World, key: Key): World {
    if key !in w.functions then w
    else
      var f := w.functions[key];
      if f.spec.isActive then WriteIfChanged(Provision(c, w, f), Renewed(c, f, w.clock))
      else if SharedInUse(w, f) then w
      else RemoveRuntime(w, f)
  }

  class FunctionReconciler {
    const api: Api.ApiServer
    const cfg: Settings

    constructor (api: Api.ApiServer, cfg: Settings)
      ensures this.api == api && this.cfg == cfg
    {
      this.api, this.cfg := api, cfg;
    }

    /** Reconciles one Function; without interference no API call fails and the effect is `Reconciled`. */
    method Reconcile(key: Key) returns (err: Option<Outcome>)
      requires WellNamed(api.world)
      modifies api
      ensures err.None?
      ensures api.world == Reconciled(cfg, old(api.world), key)
    {
      var got := api.GetFunction(key);
      if got.None? {
        return None;
      }
      var f := got.value;
      var deploymentKey, serviceKey := DeploymentKey(f), ServiceKey(f);
      var outcome: Outcome;

      if !f.spec.isActive {
        var sharedInUse := HasOtherActiveFunctionUsingSharedRuntime(f);
        if sharedInUse {
          return None;
        }
        var doomedDeployment := api.GetDeployment(deploymentKey);
        if doomedDeployment.Some? {
          outcome := api.DeleteDeployment(deploymentKey);
          if outcome != Done { return Some(outcome); }
        }
        var doomedService := api.GetService(serviceKey);
        if doomedService.Some? {
          outcome := api.DeleteService(serviceKey);
          if outcome != Done { return Some(outcome); }
        }
        ghost var w := old(api.world);
        assert api.world.deployments == w.deployments - {deploymentKey};
        assert api.world.services == w.services - {serviceKey};
        return None;
      }

      var deployment, service := NewDeployment(cfg, f), NewService(f);
      var existing := api.GetDeployment(deploymentKey);
      if existing.None? {
        outcome := api.CreateDeployment(deployment);
      } else {
        outcome := api.UpdateDeployment(deployment, existing.value.version);
      }
      if outcome != Done { return Some(outcome); }

      var existingService := api.GetService(serviceKey);
      if existingService.None? {
        outcome := api.CreateService(service);
      } else {
        outcome := api.UpdateService(service, existingService.value.clusterIP, existingService.value.version);
      }
      if outcome != Done { return Some(outcome); }

      var now := api.world.clock;
      outcome := api.UpdateFunction(Renewed(cfg, f, now));
      if outcome != Done { return Some(outcome); }
      return None;
    }

    /** Lists the namespace and looks for another active Function on the same shared runtime. */
    method HasOtherActiveFunctionUsingSharedRuntime(f: Function) returns (inUse: bool)
      requires WellNamed(api.world)
      ensures inUse <==> SharedInUse(api.world, f)
    {
      if !IsDynamicLanguage(f.spec.language) {
        return false;
      }
      var items := api.ListFunctions(f.key.namespace);
      for i := 0 to |items|
        invariant forall j :: 0 <= j < i ==> !(items[j].spec.isActive && SharesRuntimeOf(items[j], f))
      {
        var fn := items[i];
        if fn.key.name == f.key.name {
          continue;
        }
        if fn.spec.language != f.spec.language || fn.spec.project != f.spec.project {
          continue;
        }
        if fn.spec.isActive {
          assert fn.key in api.world.functions && api.world.functions[fn.key] == fn;
          return true;
        }
      }
      return false;
    }
  }
}
