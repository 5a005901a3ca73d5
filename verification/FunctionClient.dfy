/** The operations behind the gRPC service: create, activate, extend a lease, deactivate. */
module FunctionClient {
  import opened Functions
  import opened Cluster
  import opened Options
  import Api

  datatype Operation = Activate | Extend | Deactivate

  /** The keep-warm time the gRPC server uses: five minutes when none is configured. */
  function ServerKeepWarm(c: Settings): int {
    if c.keepWarm <= 0 then 5 * 60 * SECOND else c.keepWarm
  }

  /** Extending and deactivating do nothing on an inactive Function. */
  predicate Applies(op: Operation, f: Function) {
    op.Activate? || f.spec.isActive
  }

  /** The object an operation writes back, `now` being the time it read. */
  function Modified(op: Operation, f: Function, keepWarm: int, now: int): Function {
    match op
    case Activate => f.(spec := f.spec.(isActive := true, lease := Format(now + keepWarm)))
    case Extend => f.(spec := f.spec.(lease := Format(now + keepWarm)))
    case Deactivate => f.(spec := f.spec.(isActive := false))
  }

  /** An operation carried out at one instant. */
  function Performed(op: Operation, w: World, key: Key, keepWarm: int): World {
    if key in w.functions && Applies(op, w.functions[key])
    then WriteIfChanged(w, Modified(op, w.functions[key], keepWarm, w.clock))
    else w
  }

  function NewFunction(key: Key, project: string, language: string, isAsync: bool): Function {
    Function(key, 0, FunctionSpec(false, isAsync, Unset, language, key.name, "", project, ""))
  }

  datatype ActivateResponse = ActivateResponse(
    isActive: bool, language: string, isAsync: bool, project: string, name: string, httpMethod: string,
    serviceName: string, servicePort: nat)

  datatype Status = Success(value: ActivateResponse) | InvalidArgument | Internal(cause: Outcome)

  class Client {
    const api: Api.ApiServer

    constructor (api: Api.ApiServer)
      ensures this.api == api
    {
      this.api := api;
    }

    method MarkFunctionActive(key: Key, keepWarm: int) returns (f: Option<Function>, outcome: Outcome)
      requires WellNamed(api.world)
      modifies api
      ensures api.world == Performed(Activate, old(api.world), key, keepWarm)
      ensures outcome == if key in old(api.world).functions then Done else NotFound
      ensures key in old(api.world).functions ==>
        f == Some(Modified(Activate, old(api.world).functions[key], keepWarm, old(api.world).clock))
      ensures f.Some? ==>
        && key in api.world.functions && f.value.spec == api.world.functions[key].spec
        && f.value.spec == old(api.world).functions[key].spec.(isActive := true, lease := f.value.spec.lease)
        && EndsInLastSecond(f.value.spec.lease, api.world.clock + keepWarm)
      ensures f.Some? <==> outcome == Done
    {
      var got := api.GetFunction(key);
      if got.None? {
        return None, NotFound;
      }
      var now := api.world.clock;
      var fn := got.value.(spec := got.value.spec.(isActive := true, lease := Format(now + keepWarm)));
      outcome := api.UpdateFunction(fn);
      if outcome != Done {
        return None, outcome;
      }
      return Some(fn), Done;
    }

    method ExtendFunctionLease(key: Key, keepWarm: int) returns (extended: bool, outcome: Outcome)
      requires WellNamed(api.world)
      modifies api
      ensures api.world == Performed(Extend, old(api.world), key, keepWarm)
      ensures outcome == if key in old(api.world).functions then Done else NotFound
      ensures extended <==> key in old(api.world).functions && old(api.world).functions[key].spec.isActive
      ensures extended ==>
        && key in api.world.functions
        && var spec := api.world.functions[key].spec;
          && spec == old(api.world).functions[key].spec.(lease := spec.lease)
          && EndsInLastSecond(spec.lease, api.world.clock + keepWarm)
      ensures !extended ==> api.world == old(api.world)
    {
      var got := api.GetFunction(key);
      if got.None? {
        return false, NotFound;
      }
      var fn := got.value;
      if !fn.spec.isActive {
        return false, Done;
      }
      var now := api.world.clock;
      fn := fn.(spec := fn.spec.(lease := Format(now + keepWarm)));
      outcome := api.UpdateFunction(fn);
      return outcome == Done, outcome;
    }

    method MarkFunctionInactive(key: Key) returns (outcome: Outcome)
      requires WellNamed(api.world)
      modifies api
      ensures api.world == Performed(Deactivate, old(api.world), key, 0)
      ensures outcome == if key in old(api.world).functions then Done else NotFound
      ensures outcome == Done ==>
        && key in api.world.functions
        && api.world.functions[key].spec == old(api.world).functions[key].spec.(isActive := false)
    {
      var got := api.GetFunction(key);
      if got.None? {
        return NotFound;
      }
      var fn := got.value;
      if !fn.spec.isActive {
        return Done;
      }
      fn := fn.(spec := fn.spec.(isActive := false));
      outcome := api.UpdateFunction(fn);
    }

    method CreateFunctionIfNotExists(key: Key, project: string, language: string, isAsync: bool)
      returns (created: bool, outcome: Outcome)
      modifies api
      ensures outcome == Done
      ensures created <==> key !in old(api.world).functions
      ensures created ==>
        && key in api.world.functions
        && var spec := api.world.functions[key].spec;
          && spec.project == project && spec.language == language && spec.name == key.name
          && spec.isAsync == isAsync && !spec.isActive && spec.lease == Unset
          && spec.gitCreds == "" && spec.httpMethod == ""
      ensures api.world ==
        if key in old(api.world).functions then old(api.world)
        else Write(old(api.world), NewFunction(key, project, language, isAsync))
    {
      var existing := api.GetFunction(key);
      if existing.Some? {
        return false, Done;
      }
      outcome := api.CreateFunction(NewFunction(key, project, language, isAsync));
      return outcome == Done, outcome;
    }
  }

  class FunctionServer {
    const client: Client
    const keepWarmDuration: int

    constructor (client: Client, keepWarmDuration: int)
      ensures this.client == client && this.keepWarmDuration == keepWarmDuration
    {
      this.client, this.keepWarmDuration := client, keepWarmDuration;
    }

    /**
     * The answer names the Service that the controller creates for the activated Function, and the Function is
     * active with a lease that ends within the last second of the keep-warm time from now.
     */
    method Activate(c: Settings, key: Key) returns (r: Status)
      requires WellNamed(client.api.world) && c.keepWarm == keepWarmDuration
      modifies client.api
      ensures r.InvalidArgument? <==> key.namespace == "" || key.name == ""
      ensures !r.Success? ==> client.api.world == old(client.api.world)
      ensures r.Internal? ==> r.cause == NotFound && key !in old(client.api.world).functions
      ensures r.Success? ==>
        && key in old(client.api.world).functions
        && client.api.world == Performed(Operation.Activate, old(client.api.world), key, ServerKeepWarm(c))
        && r.value.isActive
        && client.api.world.functions[key].spec.isActive
        && EndsInLastSecond(client.api.world.functions[key].spec.lease,
             client.api.world.clock + if c.keepWarm > 0 then c.keepWarm else 300_000_000_000)
        && (var spec := old(client.api.world).functions[key].spec;
            && r.value.language == spec.language && r.value.isAsync == spec.isAsync
            && r.value.project == spec.project && r.value.httpMethod == spec.httpMethod)
        && Key(key.namespace, r.value.serviceName) == NewService(client.api.world.functions[key]).key
        && r.value.servicePort == NewService(client.api.world.functions[key]).port
        && r.value.name == key.name
    {
      if key.namespace == "" || key.name == "" {
        return InvalidArgument;
      }
      var keepWarm := keepWarmDuration;
      if keepWarm <= 0 {
        keepWarm := 5 * 60 * SECOND;
      }
      var f, outcome := client.MarkFunctionActive(key, keepWarm);
      if outcome != Done {
        return Internal(outcome);
      }
      r := Success(ActivateResponse(
        true, f.value.spec.language, f.value.spec.isAsync, f.value.spec.project, f.value.spec.name,
        f.value.spec.httpMethod, GetServiceName(f.value), 8080));
    }

    /** Asking for the status of an active Function renews its lease. */
    method GetStatus(c: Settings, key: Key) returns (isActive: bool, failed: bool)
      requires WellNamed(client.api.world) && c.keepWarm == keepWarmDuration
      modifies client.api
      ensures failed <==> key.namespace == "" || key.name == "" || key !in old(client.api.world).functions
      ensures failed ==> client.api.world == old(client.api.world)
      ensures !failed ==> isActive == old(client.api.world).functions[key].spec.isActive
      ensures !failed && isActive ==>
        && key in client.api.world.functions && client.api.world.functions[key].spec.isActive
        && EndsInLastSecond(client.api.world.functions[key].spec.lease,
             client.api.world.clock + if c.keepWarm > 0 then c.keepWarm else 300_000_000_000)
      ensures !failed && !isActive ==> client.api.world == old(client.api.world)
      ensures !failed ==> client.api.world == Performed(Extend, old(client.api.world), key, ServerKeepWarm(c))
    {
      if key.namespace == "" || key.name == "" {
        return false, true;
      }
      var got := client.api.GetFunction(key);
      if got.None? {
        return false, true;
      }
      isActive := got.value.spec.isActive;
      if isActive {
        var keepWarm := keepWarmDuration;
        if keepWarm <= 0 {
          keepWarm := 5 * 60 * SECOND;
        }
        var extended, outcome := client.ExtendFunctionLease(key, keepWarm);
        if outcome != Done {
          return false, true;
        }
      }
      return isActive, false;
    }
  }
}
