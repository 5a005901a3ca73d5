/** Lease arithmetic in every reachable state: bounds, monotonicity, and when cleanup must spare a Function. */
module OperatorLeases {
  import opened Functions
  import opened Cluster
  import opened Controller
  import opened FunctionClient
  import opened Cleanup
  import opened Operator
  import opened OperatorInvariant
  import opened OperatorTheorems

  /** A write prepared from `f` with the time `at` does not shorten the lease, provided `f` is still stored. */
  ghost predicate Ready(c: Settings, w: World, f: Function, at: int) {
    && at <= w.clock
    && (f.key in w.functions && w.functions[f.key] == f && f.spec.lease.Until? ==>
         f.spec.lease.second <= (at + c.keepWarm) / SECOND)
  }

  ghost predicate LeasesInReach(c: Settings, w: World) {
    forall k :: k in w.functions ==> LeaseInReach(c, w, w.functions[k])
  }

  /** The recorded renewal of a Function explains its lease. */
  ghost predicate RenewalsExplain(c: Settings, w: World, renewals: map<Key, int>) {
    forall k :: k in renewals ==>
      k in w.functions && renewals[k] <= w.clock && w.functions[k].spec.lease == Format(renewals[k] + c.keepWarm)
  }

  ghost predicate WritesReady(c: Settings, s: System) {
    && (forall id :: id in s.calls && s.calls[id].HasStamped? ==> Ready(c, s.world, s.calls[id].f, s.calls[id].at))
    && (s.worker.Reconciling? && s.worker.phase.Renew? ==> Ready(c, s.world, s.worker.f, s.worker.phase.at))
  }

  ghost predicate LeaseInv(c: Settings, s: System) {
    && LeasesInReach(c, s.world) && RenewalsExplain(c, s.world, s.renewals) && WritesReady(c, s)
  }

  /** Steps that leave all Functions alone. */
  lemma QuietKeepsLeases(c: Settings, s: System, t: System)
    requires LeaseInv(c, s)
    requires t.world.functions == s.world.functions && t.world.clock >= s.world.clock && t.renewals == s.renewals
    requires forall id :: id in t.calls && t.calls[id].HasStamped? ==>
      (id in s.calls && s.calls[id] == t.calls[id]) || Ready(c, t.world, t.calls[id].f, t.calls[id].at)
    requires t.worker.Reconciling? && t.worker.phase.Renew? ==>
      t.worker == s.worker || Ready(c, t.world, t.worker.f, t.worker.phase.at)
    ensures LeaseInv(c, t)
  {
  }

  /** A time read just now is ready for any Function in the store. */
  lemma NowIsReady(c: Settings, w: World, f: Function)
    requires LeasesInReach(c, w)
    ensures Ready(c, w, f, w.clock)
  {
  }

  /** How a write may treat the lease: keep it, set it from a ready time, or create it unset. */
  ghost predicate LeaseMove(c: Settings, w: World, g: Function) {
    && (g.key in w.functions ==>
         || (g.spec.lease == w.functions[g.key].spec.lease && (g.spec.isActive ==> w.functions[g.key].spec.isActive))
         || (exists at :: Ready(c, w, w.functions[g.key], at) && g.spec.lease == Format(at + c.keepWarm)))
    && (g.key !in w.functions ==> !g.spec.isActive && g.spec.lease == Unset)
  }

  lemma WriteKeepsReach(c: Settings, w: World, g: Function)
    requires LeasesInReach(c, w) && LeaseMove(c, w, g)
    ensures LeasesInReach(c, Write(w, g))
  {
  }

  lemma WriteKeepsWritesReady(c: Settings, s: System, g: Function)
    requires Inv(c, s) && WritesReady(c, s)
    ensures WritesReady(c, s.(world := Write(s.world, g)))
  {
  }

  /** A write that keeps the lease keeps the lease invariant. */
  lemma KeepingWrite(c: Settings, s: System, g: Function)
    requires Inv(c, s) && LeaseInv(c, s)
    requires g.key in s.world.functions ==>
      g.spec.lease == s.world.functions[g.key].spec.lease &&
        (g.spec.isActive ==> s.world.functions[g.key].spec.isActive)
    requires g.key !in s.world.functions ==> !g.spec.isActive && g.spec.lease == Unset
    ensures LeaseInv(c, s.(world := Write(s.world, g)))
    ensures LeaseInv(c, s.(world := WriteIfChanged(s.world, g)))
  {
    WriteKeepsReach(c, s.world, g);
    WriteKeepsWritesReady(c, s, g);
    hide Inv, LeasesInReach, WritesReady;
  }

  /** A lease write whose time is ready keeps the lease invariant and never moves the lease back. */
  lemma RenewingWrite(c: Settings, s: System, f: Function, g: Function, at: int)
    requires Inv(c, s) && LeaseInv(c, s) && f.key == g.key && f.key in s.world.functions &&
      s.world.functions[f.key] == f
    requires Ready(c, s.world, f, at) && g.spec.lease == Format(at + c.keepWarm)
    ensures LeaseInv(c, s.(world := WriteIfChanged(s.world, g), renewals := Later(s.renewals, g.key, at)))
    ensures f.spec.lease.Until? ==> f.spec.lease.second <= g.spec.lease.second
  {
    var v, r := WriteIfChanged(s.world, g), Later(s.renewals, g.key, at);
    assert LeaseMove(c, s.world, g);
    WriteKeepsReach(c, s.world, g);
    WriteKeepsWritesReady(c, s, g);
    hide Inv, LeasesInReach, WritesReady, LeaseMove;
    RenewalExplains(c, s.world, s.renewals, f, g, at);
  }

  lemma RenewalExplains(c: Settings, w: World, renewals: map<Key, int>, f: Function, g: Function, at: int)
    requires RenewalsExplain(c, w, renewals) && f.key == g.key && f.key in w.functions && w.functions[f.key] == f
    requires Ready(c, w, f, at) && g.spec.lease == Format(at + c.keepWarm)
    ensures RenewalsExplain(c, WriteIfChanged(w, g), Later(renewals, g.key, at))
  {
  }

  lemma ServerAgrees(c: Settings)
    requires c.keepWarm > 0
    ensures ServerKeepWarm(c) == c.keepWarm
  {
  }

  lemma CommitKeepsLeases(c: Settings, s: System, id: nat)
    requires c.keepWarm > 0 && Inv(c, s) && LeaseInv(c, s) && id in s.calls
    ensures LeaseInv(c, Committed(c, s, id))
  {
    var call, t := s.calls[id], Committed(c, s, id);
    ServerAgrees(c);
    var s1 := s.(calls := s.calls - {id});
    CallsKeepLeases(c, s, id);
    assert Remembers(s.world, call.f);
    assert CallsSound(s.world, s1.calls);
    CallsKeepInv(c, s, s1.calls);
    var f := call.f;
    if t != s && s.world.functions[f.key].version == f.version {
      var at := if call.HasStamped? then call.at else 0;
      var g := Modified(call.op, f, c.keepWarm, at);
      assert Ready(c, s1.world, f, at) || call.op.Deactivate?;
      hide Inv, LeaseInv, Ready;
      if call.op.Deactivate? {
        KeepingWrite(c, s1, g);
      } else {
        RenewingWrite(c, s1, f, g, at);
      }
    }
  }

  lemma CallsKeepLeases(c: Settings, s: System, id: nat)
    requires LeaseInv(c, s)
    ensures LeaseInv(c, s.(calls := s.calls - {id}))
  {
  }

  lemma WorkKeepsLeases(c: Settings, s: System)
    requires Inv(c, s) && LeaseInv(c, s)
    ensures LeaseInv(c, Worked(c, s))
  {
    var t := Worked(c, s);
    if s.worker.Reconciling? && s.worker.phase.Renew? {
      var f, at := s.worker.f, s.worker.phase.at;
      RenewKeepsLeases(c, s, f, at);
    } else {
      if s.worker.Reconciling? && s.worker.phase.ReadClock? {
        NowIsReady(c, s.world, s.worker.f);
      }
      WorkIsQuiet(c, s);
      hide Worked, Ready;
      QuietKeepsLeases(c, s, t);
    }
  }

  ghost predicate Quiet(s: System, t: System) {
    && t.world.functions == s.world.functions && t.world.clock == s.world.clock
    && t.renewals == s.renewals && t.calls == s.calls
    && (t.worker.Reconciling? && t.worker.phase.Renew? ==>
          s.worker == Reconciling(t.worker.f, ReadClock) && t.worker.phase.at == s.world.clock)
  }

  lemma WorkIsQuiet(c: Settings, s: System)
    requires !(s.worker.Reconciling? && s.worker.phase.Renew?)
    ensures Quiet(s, Worked(c, s))
  {
    if s.worker.Reconciling? {
      CallIsQuiet(c, s, s.worker.f, s.worker.phase);
    }
  }

  lemma CallIsQuiet(c: Settings, s: System, f: Function, phase: Phase)
    requires s.worker == Reconciling(f, phase) && !phase.Renew?
    ensures Quiet(s, Called(c, s, f, phase))
  {
    hide DeploymentKey, ServiceKey, NewDeployment, NewService, SharedInUse;
    var w := s.world;
    match phase {
      case MakeDeployment => ProceedIsQuiet(s, CreateDeployment(w, NewDeployment(c, f)), FindService);
      case ChangeDeployment(found) => ProceedIsQuiet(s, UpdateDeployment(w, NewDeployment(c, f), found), FindService);
      case MakeService => ProceedIsQuiet(s, CreateService(w, NewService(f)), ReadClock);
      case ChangeService(found, clusterIP) =>
        ProceedIsQuiet(s, UpdateService(w, NewService(f), clusterIP, found), ReadClock);
      case DeleteDoomedDeployment => ProceedIsQuiet(s, DeleteDeployment(w, DeploymentKey(f)), FindDoomedService);
      case _ =>
        hide Proceed, CreateDeployment, UpdateDeployment, DeleteDeployment, CreateService, UpdateService;
    }
  }

  lemma ProceedIsQuiet(s: System, reply: Reply, next: Phase)
    requires s.worker.Reconciling? && !next.Renew?
    requires reply.world.functions == s.world.functions && reply.world.clock == s.world.clock
    ensures Quiet(s, Proceed(s, reply, Reconciling(s.worker.f, next)))
  {
  }

  lemma RenewKeepsLeases(c: Settings, s: System, f: Function, at: int)
    requires Inv(c, s) && LeaseInv(c, s) && s.worker == Reconciling(f, Renew(at))
    ensures LeaseInv(c, Worked(c, s))
  {
    var w := s.world;
    assert Remembers(w, f) && Ready(c, w, f, at);
    if w.functions[f.key].version == f.version {
      RenewingWrite(c, s, f, Renewed(c, f, at), at);
      QuietKeepsLeases(c, Worked(c, s).(worker := s.worker), Worked(c, s));
    } else {
      QuietKeepsLeases(c, s, Worked(c, s));
    }
  }

  lemma CleanUpKeepsLeases(c: Settings, s: System, key: Key)
    requires Inv(c, s) && LeaseInv(c, s) && key in s.world.functions
    ensures LeaseInv(c, s.(world := Expire(s.world, key)))
  {
    var w := s.world;
    var g := w.functions[key].(spec := w.functions[key].spec.(isActive := false));
    var s1 := s.(world := PatchInactive(w, key).world);
    assert w.functions[key].key == key;
    KeepingWrite(c, s, g);
    hide Inv, LeaseInv, SharedInUse, DeploymentKey, ServiceKey;
    QuietKeepsLeases(c, s1, s.(world := Expire(w, key)));
  }

  lemma CreateKeepsLeases(c: Settings, s: System, step: Step)
    requires Inv(c, s) && LeaseInv(c, s) && step.Create?
    ensures LeaseInv(c, Next(c, s, step))
  {
    if step.key !in s.world.functions {
      KeepingWrite(c, s, NewFunction(step.key, step.project, step.language, step.isAsync));
    }
  }

  lemma StampKeepsLeases(c: Settings, s: System, step: Step)
    requires LeaseInv(c, s) && (step.Read? || step.Stamp? || step.Drop?)
    ensures LeaseInv(c, Next(c, s, step))
  {
  }

  /** Every step keeps the lease invariant. */
  lemma NextKeepsLeases(c: Settings, s: System, step: Step)
    requires c.keepWarm > 0 && Inv(c, s) && LeaseInv(c, s)
    ensures LeaseInv(c, Next(c, s, step))
  {
    hide Inv, LeaseInv, Worked, Committed, Expire, Ready;
    match step {
      case Tick(nanos) => QuietKeepsLeases(c, s, Next(c, s, step));
      case Create(_, _, _, _) => CreateKeepsLeases(c, s, step);
      case Read(_, _, _) => StampKeepsLeases(c, s, step);
      case Stamp(_) => StampKeepsLeases(c, s, step);
      case Commit(id) => if id in s.calls { CommitKeepsLeases(c, s, id); }
      case Drop(_) => StampKeepsLeases(c, s, step);
      case CleanUp(key) => if key in s.world.functions { CleanUpKeepsLeases(c, s, key); }
      case Take(key) => QuietKeepsLeases(c, s, Next(c, s, step));
      case Work => WorkKeepsLeases(c, s);
      case Fail => QuietKeepsLeases(c, s, Next(c, s, step));
      case Restart => QuietKeepsLeases(c, s, Next(c, s, step));
    }
  }

  /** The lease invariant holds after every run from a store whose leases are in reach. */
  lemma {:induction false} LeasesReachable(c: Settings, s: System, steps: seq<Step>)
    requires Started(s) && forall i :: 0 <= i < |steps| ==> Admissible(steps[i])
    requires c.keepWarm > 0 && LeasesInReach(c, s.world)
    ensures Inv(c, Run(c, s, steps)) && LeaseInv(c, Run(c, s, steps))
  {
    Reachable(c, s, steps);
    if steps != [] {
      var n := |steps| - 1;
      LeasesReachable(c, s, steps[..n]);
      hide Started, Inv, LeaseInv, Next;
      NextKeepsLeases(c, Run(c, s, steps[..n]), steps[n]);
    }
  }
}
