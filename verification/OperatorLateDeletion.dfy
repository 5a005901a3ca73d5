/**
 * Exactly when a deletion that comes late does no harm. The cleanup job looks whether a runtime is in use, and deletes
 * its Deployment and its Service in later calls; the other guarantees take all this as one step.
 */
module OperatorLateDeletion {
  import opened Functions
  import opened Cluster
  import opened Controller
  import opened Convergence
  import opened Operator
  import opened OperatorInvariant
  import opened OperatorSteps
  import opened OperatorTheorems
  import opened OperatorResults

  datatype Lost = TheDeployment | TheService | Both

  /** The store after the deletions, whatever has happened since the look. */
  function Without(w: World, g: Function, lost: Lost): World {
    match lost
    case TheDeployment => w.(deployments := w.deployments - {DeploymentKey(g)})
    case TheService => w.(services := w.services - {ServiceKey(g)})
    case Both => RemoveRuntime(w, g)
  }

  /** The worker has not come past what is lost in building the runtime of `k`. */
  predicate StillBuilds(worker: Worker, k: Key, lost: Lost) {
    worker == Fetching(k)
    || (worker.Reconciling? && worker.f.key == k && !IsRemoving(worker.phase)
        && if lost.TheService? then !ServiceBuilt(worker.phase) else !DeploymentBuilt(worker.phase))
  }

  /**
   * Every active Function on the runtime of `g` is queued, or at a point where the worker still builds what is lost.
   */
  ghost predicate IsMadeUpFor(s: System, g: Function, lost: Lost) {
    forall k :: k in s.world.functions && s.world.functions[k].spec.isActive && SameRuntime(s.world.functions[k], g) ==>
      k in s.world.queue || StillBuilds(s.worker, k, lost)
  }

  lemma WithoutDeletes(w: World, g: Function, lost: Lost)
    ensures Deletes(w, Without(w, g, lost), g)
  {
  }

  /** What is lost to the runtime of `g` is lost to `f` on it. */
  lemma LostToAll(c: Settings, w: World, g: Function, f: Function, lost: Lost)
    requires WellFormed(f) && WellFormed(g) && SameRuntime(f, g)
    ensures var v := Without(w, g, lost);
      && (!lost.TheService? ==> !DeploymentServed(c, v, f)) && (!lost.TheDeployment? ==> !ServiceServed(c, v, f))
      && (lost.TheService? ==> (DeploymentServed(c, v, f) <==> DeploymentServed(c, w, f)))
      && (lost.TheDeployment? ==> (ServiceServed(c, v, f) <==> ServiceServed(c, w, f)))
      && !Provisioned(c, v, f)
  {
    NamesEqualIffSameRuntime(f, g);
    hide DeploymentKey, ServiceKey, NewDeployment, NewService, SameRuntime, WellFormed;
  }

  lemma NothingLostToOthers(c: Settings, w: World, g: Function, f: Function, lost: Lost)
    requires WellFormed(f) && WellFormed(g) && !SameRuntime(f, g)
    ensures var v := Without(w, g, lost);
      && (DeploymentServed(c, v, f) <==> DeploymentServed(c, w, f)) &&
        (ServiceServed(c, v, f) <==> ServiceServed(c, w, f))
  {
    NamesEqualIffSameRuntime(f, g);
    hide DeploymentKey, ServiceKey, NewDeployment, NewService, SameRuntime, WellFormed;
  }

  /** A worker that is building from a Function that has not changed builds for an active Function. */
  lemma BuilderIsActive(w: World, f: Function, phase: Phase, g: Function)
    requires CurrentOrQueued(w, f) && f.spec.isActive && SameRuntime(f, g) && f.key !in w.queue
    ensures f.key in w.functions && w.functions[f.key].spec.isActive && SameRuntime(w.functions[f.key], g)
  {
  }

  lemma WorkerSurvives(c: Settings, s: System, g: Function, lost: Lost)
    requires Inv(c, s) && WellFormed(g) && IsMadeUpFor(s, g, lost)
    ensures WorkerSound(c, Without(s.world, g, lost), s.worker)
  {
    if s.worker.Reconciling? {
      var w, v, f, phase := s.world, Without(s.world, g, lost), s.worker.f, s.worker.phase;
      WithoutDeletes(w, g, lost);
      SameFunctionsSameMemory(w, v, f);
      RememberedIsWellFormed(w, f);
      if SameRuntime(f, g) {
        LostToAll(c, w, g, f, lost);
        if f.spec.isActive && f.key !in w.queue {
          BuilderIsActive(w, f, phase, g);
          assert StillBuilds(s.worker, f.key, lost);
        }
      } else {
        NothingLostToOthers(c, w, g, f, lost);
      }
      assert DeploymentKey(f) in v.deployments ==> DeploymentKey(f) in w.deployments;
      hide DeploymentServed, ServiceServed, Without, IsMadeUpFor, SameRuntime, WellNamed, WellFormed, ActiveServed;
      hide UnusedDoomed, CallsSound, DeploymentKey, ServiceKey, Remembers, CurrentOrQueued, ActiveUsersQueued;
      PhaseSurvives(c, w, v, f, phase);
    }
  }

  lemma PhaseSurvives(c: Settings, w: World, v: World, f: Function, phase: Phase)
    requires PhaseSound(c, w, f, phase) && Remembers(v, f) && CurrentOrQueued(v, f)
    requires ActiveUsersQueued(w, f) ==> ActiveUsersQueued(v, f)
    requires DeploymentKey(f) in v.deployments ==> DeploymentKey(f) in w.deployments
    requires DeploymentBuilt(phase) ==> f.key in v.queue || DeploymentServed(c, v, f)
    requires ServiceBuilt(phase) ==> f.key in v.queue || ServiceServed(c, v, f)
    ensures PhaseSound(c, v, f, phase)
  {
  }

  lemma ServedSurvives(c: Settings, s: System, g: Function, lost: Lost)
    requires Inv(c, s) && WellFormed(g) && IsMadeUpFor(s, g, lost)
    ensures ActiveServed(c, Without(s.world, g, lost), s.worker)
  {
    var w, v := s.world, Without(s.world, g, lost);
    WithoutDeletes(w, g, lost);
    forall k | k in v.functions && v.functions[k].spec.isActive
      ensures k in v.queue || Builds(s.worker, k) || Provisioned(c, v, v.functions[k])
    {
      if !SameRuntime(w.functions[k], g) {
        DeletionSparesOthers(c, w, v, g, w.functions[k]);
      }
      hide WellFormed, SameRuntime, Provisioned, DeploymentKey, ServiceKey, WorkerSound, UnusedDoomed, CallsSound;
      hide Without;
    }
  }

  lemma SurvivorsAreMadeUpFor(c: Settings, s: System, g: Function, lost: Lost)
    requires Inv(c, s) && WellFormed(g) && Inv(c, s.(world := Without(s.world, g, lost)))
    ensures IsMadeUpFor(s, g, lost)
  {
    var w, v := s.world, Without(s.world, g, lost);
    WithoutDeletes(w, g, lost);
    forall k | k in w.functions && w.functions[k].spec.isActive && SameRuntime(w.functions[k], g)
      ensures k in w.queue || StillBuilds(s.worker, k, lost)
    {
      LostToAll(c, w, g, w.functions[k], lost);
      if k !in w.queue && s.worker.Reconciling? && s.worker.f.key == k {
        var f := s.worker.f;
        RememberedIsWellFormed(w, f);
        RememberedOnSameRuntime(w, f, g);
        LostToAll(c, w, g, f, lost);
        assert PhaseSound(c, v, f, s.worker.phase);
      }
      hide WellFormed, WellNamed, SameRuntime, Provisioned, DeploymentServed, ServiceServed, DeploymentKey, ServiceKey;
      hide UnusedDoomed, CallsSound, Without, Remembers, CurrentOrQueued, ActiveUsersQueued;
    }
  }

  lemma RememberedOnSameRuntime(w: World, f: Function, g: Function)
    requires Remembers(w, f) && f.key in w.functions && SameRuntime(w.functions[f.key], g)
    ensures SameRuntime(f, g)
  {
  }

  /** The invariant survives the deletion if and only if it is made up for. */
  lemma LateDeletionKeepsInvIff(c: Settings, s: System, g: Function, lost: Lost)
    requires Inv(c, s) && WellFormed(g)
    ensures Inv(c, s.(world := Without(s.world, g, lost))) <==> IsMadeUpFor(s, g, lost)
  {
    var w, v := s.world, Without(s.world, g, lost);
    WithoutDeletes(w, g, lost);
    if IsMadeUpFor(s, g, lost) {
      WorkerSurvives(c, s, g, lost);
      ServedSurvives(c, s, g, lost);
      DeletionKeepsDoomed(w, v, s.worker, g);
      CallsSurvive(w, v, s.calls);
      SameFunctionsSameMemory(w, v, g);
    } else if Inv(c, s.(world := v)) {
      SurvivorsAreMadeUpFor(c, s, g, lost);
    }
    hide WorkerSound, ActiveServed, UnusedDoomed, WellNamed, WellFormed, CallsSound, Without, IsMadeUpFor;
  }

  /** The promise of `ActiveIsServedOrPending`, for every active Function. */
  ghost predicate KeepsPromise(c: Settings, s: System) {
    forall k :: k in s.world.functions && s.world.functions[k].spec.isActive ==>
      || k in s.world.queue
      || Builds(s.worker, k)
      || (Provisioned(c, s.world, s.world.functions[k]) && !AboutToDelete(s.worker, s.world.functions[k]))
  }

  /** Every active Function on the runtime of `g` is queued or being built, however far. */
  ghost predicate NoneIsUnattended(s: System, g: Function) {
    forall k :: k in s.world.functions && s.world.functions[k].spec.isActive && SameRuntime(s.world.functions[k], g) ==>
      k in s.world.queue || Builds(s.worker, k)
  }

  lemma InvKeepsPromise(c: Settings, s: System)
    requires Inv(c, s)
    ensures KeepsPromise(c, s)
  {
    hide DeploymentKey, ServiceKey, NewDeployment, NewService, WellNamed, Remembers, Provisioned;
    forall k | k in s.world.functions && s.world.functions[k].spec.isActive &&
      AboutToDelete(s.worker, s.world.functions[k])
      ensures k in s.world.queue
    {
      assert ActiveUsersQueued(s.world, s.worker.f);
      assert SameRuntime(s.world.functions[k], s.worker.f);
    }
  }

  /**
   * In every reachable state a late deletion that is made up for does no harm: whatever the operator does from then on,
   * the invariant holds and with it the promise to every active Function.
   */
  lemma MadeUpForIsHarmless(
      c: Settings, start: System, steps: seq<Step>, g: Function, lost: Lost, later: seq<Step>)
    requires IsRun(start, steps) && WellFormed(g) && IsMadeUpFor(Run(c, start, steps), g, lost)
    requires forall i :: 0 <= i < |later| ==> Admissible(later[i])
    ensures var s := Run(c, start, steps); var t := s.(world := Without(s.world, g, lost));
      Inv(c, Run(c, t, later)) && KeepsPromise(c, Run(c, t, later))
  {
    Reachable(c, start, steps);
    var s := Run(c, start, steps);
    LateDeletionKeepsInvIff(c, s, g, lost);
    var t := s.(world := Without(s.world, g, lost));
    hide Run, Inv, Without, KeepsPromise, IsMadeUpFor;
    InvGoesOn(c, t, later);
    InvKeepsPromise(c, Run(c, t, later));
  }

  lemma {:induction false} InvGoesOn(c: Settings, s: System, steps: seq<Step>)
    requires Inv(c, s) && forall i :: 0 <= i < |steps| ==> Admissible(steps[i])
    ensures Inv(c, Run(c, s, steps))
  {
    hide Inv, Next;
    if steps != [] {
      var n := |steps| - 1;
      InvGoesOn(c, s, steps[..n]);
      NextKeepsInv(c, Run(c, s, steps[..n]), steps[n]);
    }
  }

  /**
   * In every reachable state the deletion keeps the invariant if and only if it is made up for, and it breaks the
   * promise on the spot if and only if some active Function on the runtime is neither queued nor being built at all.
   */
  lemma LateDeletionIsHarmlessIff(c: Settings, start: System, steps: seq<Step>, g: Function, lost: Lost)
    requires IsRun(start, steps) && WellFormed(g)
    ensures var s := Run(c, start, steps); var t := s.(world := Without(s.world, g, lost));
      && (Inv(c, t) <==> IsMadeUpFor(s, g, lost))
      && (KeepsPromise(c, t) <==> NoneIsUnattended(s, g))
  {
    Reachable(c, start, steps);
    var s := Run(c, start, steps);
    hide Run, IsRun, Started;
    LateDeletionKeepsInvIff(c, s, g, lost);
    PromiseSurvivesIff(c, s, g, lost);
    hide Inv, Without, KeepsPromise, IsMadeUpFor, SameRuntime, Builds;
  }

  lemma PromiseSurvivesIff(c: Settings, s: System, g: Function, lost: Lost)
    requires Inv(c, s) && WellFormed(g)
    ensures KeepsPromise(c, s.(world := Without(s.world, g, lost))) <==> NoneIsUnattended(s, g)
  {
    var w, v := s.world, Without(s.world, g, lost);
    WithoutDeletes(w, g, lost);
    InvKeepsPromise(c, s);
    forall k | k in w.functions
      ensures if SameRuntime(w.functions[k], g) then !Provisioned(c, v, w.functions[k])
              else Provisioned(c, w, w.functions[k]) ==> Provisioned(c, v, w.functions[k])
    {
      if SameRuntime(w.functions[k], g) {
        LostToAll(c, w, g, w.functions[k], lost);
      } else {
        DeletionSparesOthers(c, w, v, g, w.functions[k]);
      }
    }
    hide Inv, Without, Provisioned, SameRuntime, Builds, AboutToDelete, WellFormed;
  }
}
