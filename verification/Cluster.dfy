/** The versioned object store behind the Kubernetes API, with the manager's work queue and a clock. */
module Cluster {
  import opened Functions

  /** Nanoseconds in a second. */
  const SECOND := 1_000_000_000

  datatype Deployment = Deployment(template: DeploymentTemplate, version: nat)

  datatype Service = Service(template: ServiceTemplate, clusterIP: nat, version: nat)

  /**
   * `version` is the next unused resource version, `queue` the keys waiting for the reconcile worker (watch events
   * of the same key merge), and `clock` the time in nanoseconds.
   */
  datatype World = World(
    functions: map<Key, Function>, deployments: map<Key, Deployment>, services: map<Key, Service>,
    queue: set<Key>, version: nat, clock: int)

  datatype Outcome = Done | NotFound | Conflict | AlreadyExists

  datatype Reply = Reply(world: World, outcome: Outcome)

  /** The lease text for time `t`: the layout has no fractional seconds (date-time, section 5.6 of RFC 3339). */
  function Format(t: int): Lease {
    Until(t / SECOND)
  }

  /** The lease ends in the last second before `end`. */
  predicate EndsInLastSecond(lease: Lease, end: int) {
    lease.Until? && end - SECOND < lease.second * SECOND <= end
  }

  /** A lease is over once the clock is past the instant that its text denotes. */
  predicate Over(lease: Lease, now: int) {
    lease.Until? && now > lease.second * SECOND
  }

  // Function objects. Every write takes a fresh version and raises a watch event; a write that changes nothing does
  // neither.

  function Write(w: World, f: Function): World {
    w.(functions := w.functions[f.key := f.(version := w.version)],
       version := w.version + 1,
       queue := w.queue + {f.key})
  }

  function WriteIfChanged(w: World, f: Function): World {
    if f.key in w.functions && w.functions[f.key].spec == f.spec then w else Write(w, f)
  }

  function CreateFunction(w: World, f: Function): Reply {
    if f.key in w.functions then Reply(w, AlreadyExists) else Reply(Write(w, f), Done)
  }

  /** An update carries the version it was computed from and is refused when the stored object has moved on. */
  function UpdateFunction(w: World, f: Function): Reply {
    if f.key !in w.functions then Reply(w, NotFound)
    else if w.functions[f.key].version != f.version then Reply(w, Conflict)
    else Reply(WriteIfChanged(w, f), Done)
  }

  /** The merge patch of the cleanup job: it carries no version and touches only the activity flag. */
  function PatchInactive(w: World, key: Key): Reply {
    if key !in w.functions then Reply(w, NotFound)
    else
      var f := w.functions[key];
      Reply(WriteIfChanged(w, f.(spec := f.spec.(isActive := false))), Done)
  }

  // Deployments and Services. Nobody watches them, so they raise no events.

  function StoreDeployment(w: World, t: DeploymentTemplate): World {
    w.(deployments := w.deployments[t.key := Deployment(t, w.version)], version := w.version + 1)
  }

  function CreateDeployment(w: World, t: DeploymentTemplate): Reply {
    if t.key in w.deployments then Reply(w, AlreadyExists) else Reply(StoreDeployment(w, t), Done)
  }

  function UpdateDeployment(w: World, t: DeploymentTemplate, version: nat): Reply {
    if t.key !in w.deployments then Reply(w, NotFound)
    else if w.deployments[t.key].version != version then Reply(w, Conflict)
    else if w.deployments[t.key].template == t then Reply(w, Done)
    else Reply(StoreDeployment(w, t), Done)
  }

  function DeleteDeployment(w: World, key: Key): Reply {
    if key !in w.deployments then Reply(w, NotFound)
    else Reply(w.(deployments := w.deployments - {key}), Done)
  }

  function StoreService(w: World, t: ServiceTemplate, clusterIP: nat): World {
    w.(services := w.services[t.key := Service(t, clusterIP, w.version)], version := w.version + 1)
  }

  /** The API server picks the address of a new Service; the model uses the fresh version number for it. */
  function CreateService(w: World, t: ServiceTemplate): Reply {
    if t.key in w.services then Reply(w, AlreadyExists) else Reply(StoreService(w, t, w.version), Done)
  }

  function UpdateService(w: World, t: ServiceTemplate, clusterIP: nat, version: nat): Reply {
    if t.key !in w.services then Reply(w, NotFound)
    else if w.services[t.key].version != version then Reply(w, Conflict)
    else if w.services[t.key].template == t && w.services[t.key].clusterIP == clusterIP then Reply(w, Done)
    else Reply(StoreService(w, t, clusterIP), Done)
  }

  function DeleteService(w: World, key: Key): Reply {
    if key !in w.services then Reply(w, NotFound)
    else Reply(w.(services := w.services - {key}), Done)
  }

  // Well-formed worlds

  /**
   * Every Function is stored under its own key, has unambiguous names, and has a version that was already handed out.
   */
  ghost predicate WellNamed(w: World) {
    forall k :: k in w.functions ==>
      w.functions[k].key == k && WellFormed(w.functions[k]) && w.functions[k].version < w.version
  }

  /** Some active Function is served by the runtime of `f`. */
  ghost predicate HasActiveUser(w: World, f: Function) {
    exists k :: k in w.functions && w.functions[k].spec.isActive && SameRuntime(w.functions[k], f)
  }

  /** What the in-use test computes: another active Function shares the runtime of `f`. */
  ghost predicate SharedInUse(w: World, f: Function) {
    exists k :: k in w.functions && w.functions[k].spec.isActive && SharesRuntimeOf(w.functions[k], f)
  }

  /** The two worlds hold the same Functions with the same activity, whatever their leases and versions. */
  ghost predicate SameActivity(w: World, v: World) {
    && w.functions.Keys == v.functions.Keys
    && forall k :: k in w.functions ==>
         SameIdentity(w.functions[k], v.functions[k]) && w.functions[k].spec.isActive == v.functions[k].spec.isActive
  }
}
