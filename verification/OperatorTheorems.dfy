/** What holds in every state the operator can reach, and after every step it can take. */
module OperatorTheorems {
  import opened Functions
  import opened Cluster
  import opened FunctionClient
  import opened Cleanup
  import opened Operator
  import opened OperatorInvariant
  import opened OperatorSteps

  // The invariant holds in every reachable state

  lemma AllQueuedIsInv(c: Settings, s: System)
    requires WellNamed(s.world) && s.worker.Idle? && s.calls == map[] && s.world.functions.Keys <= s.world.queue
    ensures Inv(c, s)
  {
  }

  lemma TickKeepsInv(c: Settings, s: System, at: int)
    requires Inv(c, s)
    ensures Inv(c, s.(world := s.world.(clock := at)))
  {
  }

  lemma CreateKeepsInv(c: Settings, s: System, step: Step)
    requires Inv(c, s) && step.Create? && Admissible(step)
    ensures Inv(c, Next(c, s, step))
  {
    var g := NewFunction(step.key, step.project, step.language, step.isAsync);
    if step.key !in s.world.functions {
      assert Refreshes(s.world, g);
      hide Inv, Refreshes;
      WriteKeepsInv(c, s, g);
    }
  }

  lemma CallsKeepInv(c: Settings, s: System, calls: map<nat, Call>)
    requires Inv(c, s) && CallsSound(s.world, calls)
    ensures Inv(c, s.(calls := calls))
  {
  }

  lemma ReadKeepsInv(c: Settings, s: System, step: Step)
    requires Inv(c, s) && (step.Read? || step.Stamp? || step.Drop?)
    ensures Inv(c, Next(c, s, step))
  {
  }

  lemma CommitKeepsInv(c: Settings, s: System, id: nat)
    requires Inv(c, s) && id in s.calls
    ensures Inv(c, Committed(c, s, id))
  {
    var call, t := s.calls[id], Committed(c, s, id);
    assert Remembers(s.world, call.f);
    assert CallsSound(s.world, s.calls - {id});
    CallsKeepInv(c, s, s.calls - {id});
    var at := if call.HasStamped? then call.at else 0;
    var g := Modified(call.op, call.f, ServerKeepWarm(c), at);
    var s1 := s.(calls := s.calls - {id}, renewals := t.renewals);
    InvIgnoresRenewals(c, s.(calls := s.calls - {id}), s1);
    hide Inv, Remembers, Modified;
    if t != s {
      assert SameIdentity(call.f, g) by {
        ModifiedKeepsIdentity(call.op, call.f, ServerKeepWarm(c), at);
      }
      UpdateKeepsInv(c, s1, call.f, g);
    }
  }

  lemma ModifiedKeepsIdentity(op: Operation, f: Function, keepWarm: int, at: int)
    ensures SameIdentity(f, Modified(op, f, keepWarm, at)) && Modified(op, f, keepWarm, at).version == f.version
  {
  }

  lemma CleanUpKeepsInv(c: Settings, s: System, key: Key)
    requires Inv(c, s) && key in s.world.functions && s.world.functions[key].spec.isActive
    ensures Inv(c, s.(world := Expire(s.world, key)))
  {
    var w := s.world;
    var g := w.functions[key].(spec := w.functions[key].spec.(isActive := false));
    var p := PatchInactive(w, key).world;
    var s1 := s.(world := p);
    assert Refreshes(w, g);
    WriteIfChangedKeepsInv(c, s, g);
    InUseTestIsActiveUse(p, p.functions[key]);
    assert WellFormed(p.functions[key]);
    hide Inv, Refreshes, HasActiveUser, SharedInUse, WellFormed, DeploymentKey, ServiceKey;
    if !SharedInUse(p, p.functions[key]) {
      RemovalKeepsInv(c, s1, p.functions[key]);
    }
  }

  lemma RestartKeepsInv(c: Settings, s: System)
    requires Inv(c, s)
    ensures Inv(c, Next(c, s, Restart))
  {
  }

  /** Every step keeps the invariant. */
  lemma NextKeepsInv(c: Settings, s: System, step: Step)
    requires Inv(c, s) && Admissible(step)
    ensures Inv(c, Next(c, s, step))
  {
    hide WellNamed, WorkerSound, CallsSound, ActiveServed, UnusedDoomed, Worked, Committed, Expire;
    match step {
      case Tick(nanos) => TickKeepsInv(c, s, s.world.clock + nanos);
      case Create(_, _, _, _) => CreateKeepsInv(c, s, step);
      case Read(_, _, _) => ReadKeepsInv(c, s, step);
      case Stamp(_) => ReadKeepsInv(c, s, step);
      case Commit(id) => if id in s.calls { CommitKeepsInv(c, s, id); }
      case Drop(_) => ReadKeepsInv(c, s, step);
      case CleanUp(key) =>
        if key in s.world.functions && Expired(s.world.functions[key], s.world.clock) { CleanUpKeepsInv(c, s, key); }
      case Take(key) => if s.worker.Idle? && key in s.world.queue { TakeKeepsInv(c, s, key); }
      case Work => WorkKeepsInv(c, s);
      case Fail => if !s.worker.Idle? { GivingUpKeepsInv(c, s); }
      case Restart => RestartKeepsInv(c, s);
    }
  }

  /** The invariant holds after every run of the operator, from every well-named store. */
  lemma {:induction false} Reachable(c: Settings, s: System, steps: seq<Step>)
    requires Started(s) && forall i :: 0 <= i < |steps| ==> Admissible(steps[i])
    ensures Inv(c, Run(c, s, steps))
  {
    hide Inv, Next;
    if steps == [] {
      AllQueuedIsInv(c, s);
    } else {
      var n := |steps| - 1;
      Reachable(c, s, steps[..n]);
      hide Started;
      NextKeepsInv(c, Run(c, s, steps[..n]), steps[n]);
    }
  }
}
