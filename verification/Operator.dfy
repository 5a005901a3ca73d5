/**
 * The operator process as a state machine with one step per API call: one reconcile worker, any number of gRPC calls,
 * the cleanup job, crashes, failing calls and the passage of time, interleaved in any way.
 */
module Operator {
  import opened Functions
  import opened Cluster
  import opened Controller
  import opened FunctionClient
  import opened Cleanup

  /** The call that Reconcile makes next, once it has read its Function, with what it has found so far. */
  datatype Phase =
    | CheckUse
    | FindDoomedDeployment
    | DeleteDoomedDeployment
    | FindDoomedService
    | DeleteDoomedService
    | FindDeployment
    | MakeDeployment
    | ChangeDeployment(found: nat)
    | FindService
    | MakeService
    | ChangeService(found: nat, clusterIP: nat)
    | ReadClock
    | Renew(at: int)

  datatype Worker = Idle | Fetching(key: Key) | Reconciling(f: Function, phase: Phase)

  /** A gRPC operation that has read its Function, and later the clock, and has yet to write. */
  datatype Call = HasRead(op: Operation, f: Function) | HasStamped(op: Operation, f: Function, at: int)

  /** `renewals` records, for each Function, the latest time read by any committed lease write. */
  datatype System = System(world: World, worker: Worker, calls: map<nat, Call>, renewals: map<Key, int>)

  datatype Step =
    | Tick(nanos: nat)
    | Create(key: Key, project: string, language: string, isAsync: bool)
    | Read(call: nat, op: Operation, readKey: Key)
    | Stamp(call: nat)
    | Commit(call: nat)
    | Drop(call: nat)
    | CleanUp(cleanKey: Key)
    | Take(takeKey: Key)
    | Work
    | Fail
    | Restart

  function Later(renewals: map<Key, int>, key: Key, at: int): map<Key, int> {
    if key in renewals && renewals[key] > at then renewals else renewals[key := at]
  }

  function WorkerKey(worker: Worker): Key
    requires !worker.Idle?
  {
    match worker
    case Fetching(key) => key
    case Reconciling(f, _) => f.key
  }

  /** A reconcile that returns an error puts its key back on the queue. */
  function GiveUp(s: System): System
    requires !s.worker.Idle?
  {
    s.(world := s.world.(queue := s.world.queue + {WorkerKey(s.worker)}), worker := Idle)
  }

  function Proceed(s: System, reply: Reply, next: Worker): System
    requires !s.worker.Idle?
  {
    if reply.outcome == Done then s.(world := reply.world, worker := next) else GiveUp(s)
  }

  /** The phase after a successful read of the Function, or the end for a runtime that is shared and in use. */
  function FirstPhase(f: Function): Phase {
    if f.spec.isActive then FindDeployment
    else if IsDynamicLanguage(f.spec.language) then CheckUse
    else FindDoomedDeployment
  }

  /** The next API call of the reconcile in progress. */
  ghost function Worked(c: Settings, s: System): System {
    match s.worker
    case Idle => s
    case Fetching(key) =>
      s.(worker := if key in s.world.functions
                   then Reconciling(s.world.functions[key], FirstPhase(s.world.functions[key])) else Idle)
    case Reconciling(f, phase) => Called(c, s, f, phase)
  }

  ghost function Called(c: Settings, s: System, f: Function, phase: Phase): System
    requires s.worker == Reconciling(f, phase)
  {
    var w := s.world;
    match phase
    case CheckUse => s.(worker := if SharedInUse(w, f) then Idle else Reconciling(f, FindDoomedDeployment))
    case FindDoomedDeployment =>
      s.(worker :=
        Reconciling(f, if DeploymentKey(f) in w.deployments then DeleteDoomedDeployment else FindDoomedService))
    case DeleteDoomedDeployment => Proceed(s, DeleteDeployment(w, DeploymentKey(f)), Reconciling(f, FindDoomedService))
    case FindDoomedService =>
      s.(worker := if ServiceKey(f) in w.services then Reconciling(f, DeleteDoomedService) else Idle)
    case DeleteDoomedService => Proceed(s, DeleteService(w, ServiceKey(f)), Idle)
    case FindDeployment =>
      s.(worker := Reconciling(f, if DeploymentKey(f) in w.deployments
                                  then ChangeDeployment(w.deployments[DeploymentKey(f)].version) else MakeDeployment))
    case MakeDeployment => Proceed(s, CreateDeployment(w, NewDeployment(c, f)), Reconciling(f, FindService))
    case ChangeDeployment(found) =>
      Proceed(s, UpdateDeployment(w, NewDeployment(c, f), found), Reconciling(f, FindService))
    case FindService =>
      var name := ServiceKey(f);
      s.(worker := Reconciling(f, if name in w.services
                                  then ChangeService(w.services[name].version, w.services[name].clusterIP)
                                  else MakeService))
    case MakeService => Proceed(s, CreateService(w, NewService(f)), Reconciling(f, ReadClock))
    case ChangeService(found, clusterIP) =>
      Proceed(s, UpdateService(w, NewService(f), clusterIP, found), Reconciling(f, ReadClock))
    case ReadClock => s.(worker := Reconciling(f, Renew(w.clock)))
    case Renew(at) =>
      var reply := UpdateFunction(w, Renewed(c, f, at));
      if reply.outcome == Done then s.(world := reply.world, worker := Idle, renewals := Later(s.renewals, f.key, at))
      else GiveUp(s)
  }

  /** The write that ends a gRPC call; a conflict is reported to the caller and changes nothing. */
  function Committed(c: Settings, s: System, id: nat): System
    requires id in s.calls
  {
    var call := s.calls[id];
    if call.HasRead? && !call.op.Deactivate? then s
    else
      var at := if call.HasStamped? then call.at else 0;
      var reply := UpdateFunction(s.world, Modified(call.op, call.f, ServerKeepWarm(c), at));
      var done := s.(world := reply.world, calls := s.calls - {id});
      if reply.outcome == Done && !call.op.Deactivate?
      then done.(renewals := Later(s.renewals, call.f.key, at)) else done
  }

  /** One step; a step that is not possible in `s` leaves it unchanged. */
  ghost function Next(c: Settings, s: System, step: Step): System {
    var w := s.world;
    match step
    case Tick(nanos) => s.(world := w.(clock := w.clock + nanos))
    case Create(key, project, language, isAsync) =>
      s.(world := CreateFunction(w, NewFunction(key, project, language, isAsync)).world)
    case Read(id, op, key) =>
      if key in w.functions && Applies(op, w.functions[key]) && id !in s.calls
      then s.(calls := s.calls[id := HasRead(op, w.functions[key])]) else s
    case Stamp(id) =>
      if id in s.calls && s.calls[id].HasRead?
      then s.(calls := s.calls[id := HasStamped(s.calls[id].op, s.calls[id].f, w.clock)]) else s
    case Commit(id) => if id in s.calls then Committed(c, s, id) else s
    case Drop(id) => s.(calls := s.calls - {id})
    case CleanUp(key) =>
      if key in w.functions && Expired(w.functions[key], w.clock) then s.(world := Expire(w, key)) else s
    case Take(key) =>
      if s.worker.Idle? && key in w.queue
      then s.(world := w.(queue := w.queue - {key}), worker := Fetching(key)) else s
    case Work => Worked(c, s)
    case Fail => if s.worker.Idle? then s else GiveUp(s)
    case Restart => s.(world := w.(queue := w.functions.Keys), worker := Idle, calls := map[])
  }

  ghost function Run(c: Settings, s: System, steps: seq<Step>): System {
    if steps == [] then s else Next(c, Run(c, s, steps[..|steps| - 1]), steps[|steps| - 1])
  }

  /** Functions are created with names the operator can keep apart. */
  predicate Admissible(step: Step) {
    step.Create? ==> WellFormed(NewFunction(step.key, step.project, step.language, step.isAsync))
  }

  /** The manager has just started: nothing is in progress and the informer has queued every Function. */
  ghost predicate Started(s: System) {
    && WellNamed(s.world)
    && s.worker.Idle? && s.calls == map[] && s.renewals == map[]
    && s.world.functions.Keys <= s.world.queue
  }

  /** An active Function has a lease, and no lease reaches further than a renewal right now would. */
  ghost predicate LeaseInReach(c: Settings, w: World, f: Function) {
    && (f.spec.isActive ==> f.spec.lease.Until?)
    && (f.spec.lease.Until? ==> f.spec.lease.second <= (w.clock + c.keepWarm) / SECOND)
  }
}
