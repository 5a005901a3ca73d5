/** The work queue feeds itself: a reconcile that renews a lease raises an event for its own Function. */
module Drain {
  import opened Collections
  import opened Functions
  import opened Cluster
  import opened Controller
  import opened Convergence

  /** The lease, in seconds, that a reconcile at time `at` aims for. */
  function Target(c: Settings, at: int): int {
    (at + c.keepWarm) / SECOND
  }

  /** The worker takes a key off the queue and reconciles it. */
  ghost function Processed(c: Settings, w: World, visit: Visit): World {
    Reconciled(c, w.(clock := visit.at, queue := w.queue - {visit.key}), visit.key)
  }

  ghost function ProcessedAll(c: Settings, w: World, visits: seq<Visit>): World
    decreases |visits|
  {
    if visits == [] then w else ProcessedAll(c, Processed(c, w, visits[0]), visits[1..])
  }

  /** A run of the worker alone: every key comes from the queue, and time does not go back. */
  ghost predicate IsWorkerRun(c: Settings, w: World, visits: seq<Visit>)
    decreases |visits|
  {
    visits != [] ==>
      && visits[0].key in w.queue && visits[0].at >= w.clock
      && IsWorkerRun(c, Processed(c, w, visits[0]), visits[1..])
  }

  function Active(w: World): set<Key> {
    set k | k in w.functions && w.functions[k].spec.isActive
  }

  /** The active Functions whose lease is not `second`. */
  function OffTarget(w: World, second: int): set<Key> {
    set k | k in w.functions && w.functions[k].spec.isActive && w.functions[k].spec.lease != Until(second)
  }

  /** Pending work while the target moves from `second` to `last`. */
  function Pending(w: World, second: int, last: int): int {
    |w.queue| + |Active(w)| * (last - second) + |OffTarget(w, second)|
  }

  /** What one processed key does to the Functions and the queue. */
  lemma ProcessedEffect(c: Settings, w: World, visit: Visit)
    requires WellNamed(w)
    ensures var v, k := Processed(c, w, visit), visit.key;
      && WellNamed(v) && v.clock == visit.at && Active(v) == Active(w)
      && if k in Active(w) && w.functions[k].spec.lease != Format(visit.at + c.keepWarm) then
           && v.queue == w.queue + {k}
           && v.functions == w.functions[k := v.functions[k]]
           && v.functions[k].spec == w.functions[k].spec.(lease := Format(visit.at + c.keepWarm))
         else v.queue == w.queue - {k} && v.functions == w.functions
  {
    var w0, k := w.(clock := visit.at, queue := w.queue - {visit.key}), visit.key;
    assert WellNamed(w0);
    ReconcileKeepsActivity(c, w0, k);
    SameActivitySameActive(w0, Processed(c, w, visit));
    ActiveIsOfFunctions(w, w0);
    MemberOfActive(w, k);
    ReconciledWrites(c, w0, k);
    hide Reconciled, WellNamed, SameActivity, Active;
    assert w.queue - {k} + {k} == w.queue + {k};
  }

  /** A reconcile writes its Function exactly when it is active and its lease is not the one aimed for. */
  lemma ReconciledWrites(c: Settings, w: World, k: Key)
    requires WellNamed(w)
    ensures var v := Reconciled(c, w, k);
      && v.clock == w.clock
      && if k in Active(w) && w.functions[k].spec.lease != Format(w.clock + c.keepWarm) then
           && v.queue == w.queue + {k}
           && v.functions == w.functions[k := v.functions[k]]
           && v.functions[k].spec == w.functions[k].spec.(lease := Format(w.clock + c.keepWarm))
         else v.queue == w.queue && v.functions == w.functions
  {
    if k in w.functions {
      ProvisionKeepsFunctions(c, w, w.functions[k]);
    }
    hide Provision, WellFormed, SharedInUse, DeploymentKey, ServiceKey;
  }

  lemma SameActivitySameActive(w: World, v: World)
    requires SameActivity(w, v)
    ensures Active(w) == Active(v)
  {
  }

  lemma ActiveIsOfFunctions(w: World, v: World)
    requires w.functions == v.functions
    ensures Active(w) == Active(v)
  {
  }

  lemma MemberOfActive(w: World, k: Key)
    ensures k in Active(w) <==> k in w.functions && w.functions[k].spec.isActive
  {
  }

  /** Processing a key while the target is `second` uses up pending work. */
  lemma ProcessingDecreases(c: Settings, w: World, visit: Visit, last: int)
    requires WellNamed(w) && visit.key in w.queue
    ensures var second := Target(c, visit.at);
      Pending(Processed(c, w, visit), second, last) < Pending(w, second, last)
  {
    var v, k, second := Processed(c, w, visit), visit.key, Target(c, visit.at);
    ProcessedEffect(c, w, visit);
    MemberOfActive(w, k);
    hide Processed, WellNamed, Target, Active;
    if k in Active(w) && w.functions[k].spec.lease != Until(second) {
      assert v.queue == w.queue;
      RenewedIsOnTarget(w, v, k, second);
    } else {
      OffTargetIsOfFunctions(w, v, second);
    }
  }

  lemma RenewedIsOnTarget(w: World, v: World, k: Key, second: int)
    requires k in w.functions && w.functions[k].spec.isActive && w.functions[k].spec.lease != Until(second)
    requires k in v.functions && v.functions == w.functions[k := v.functions[k]]
    requires v.functions[k].spec.lease == Until(second)
    ensures |OffTarget(v, second)| == |OffTarget(w, second)| - 1
  {
    assert OffTarget(v, second) == OffTarget(w, second) - {k};
  }

  lemma OffTargetIsOfFunctions(w: World, v: World, second: int)
    requires w.functions == v.functions
    ensures OffTarget(v, second) == OffTarget(w, second)
  {
  }

  /** When the target moves on, at most every active Function falls behind it once more. */
  lemma TargetAdvances(w: World, second: int, later: int, last: int)
    requires second <= later <= last
    ensures Pending(w, later, last) <= Pending(w, second, last)
  {
    if second < later {
      SubsetSize(OffTarget(w, later), Active(w));
      OneMoreEach(|Active(w)|, last - later, later - second, |OffTarget(w, later)|);
      assert last - later + (later - second) == last - second;
    }
  }

  lemma {:induction false} OneMoreEach(n: nat, gap: nat, step: nat, behind: nat)
    requires step > 0 && behind <= n
    ensures n * gap + behind <= n * (gap + step)
  {
  }

  lemma TargetMonotone(c: Settings, at: int, later: int)
    requires at <= later
    ensures Target(c, at) <= Target(c, later)
  {
  }

  lemma {:induction false} RunIsBounded(c: Settings, w: World, visits: seq<Visit>, now: int)
    requires WellNamed(w) && IsWorkerRun(c, w, visits)
    requires visits != [] ==> now <= visits[0].at
    requires w.clock <= now
    ensures var end := ProcessedAll(c, w, visits);
      && WellNamed(end) && end.clock >= w.clock && Active(end) == Active(w)
      && (visits != [] ==>
           var last := Target(c, end.clock);
           last >= Target(c, now) && |visits| + Pending(end, last, last) <= Pending(w, Target(c, now), last))
    decreases |visits|
  {
    if visits != [] {
      var v, at := Processed(c, w, visits[0]), visits[0].at;
      ProcessedEffect(c, w, visits[0]);
      RunIsBounded(c, v, visits[1..], at);
      var end := ProcessedAll(c, v, visits[1..]);
      var last := Target(c, end.clock);
      TargetMonotone(c, now, at);
      TargetMonotone(c, at, end.clock);
      ProcessingDecreases(c, w, visits[0], last);
      TargetAdvances(w, Target(c, now), Target(c, at), last);
      hide Processed, Pending, Target, WellNamed;
    }
  }

  /**
   * While nobody else writes, the worker processes at most as many keys as are queued, plus one for every active
   * Function and every value the target takes: each lease changes at most once per target second.
   */
  lemma QueueDrains(c: Settings, w: World, visits: seq<Visit>)
    requires WellNamed(w) && visits != [] && IsWorkerRun(c, w, visits)
    ensures var end := ProcessedAll(c, w, visits);
      var seconds := Target(c, end.clock) - Target(c, visits[0].at);
      && seconds >= 0
      && |visits| <= |w.queue| + |Active(w)| * seconds + |OffTarget(w, Target(c, visits[0].at))|
  {
    LateStart(c, w, visits);
    hide Processed, ProcessedAll, IsWorkerRun, WellNamed, Active, OffTarget, Target, Pending;
    var w0, first := w.(clock := visits[0].at), Target(c, visits[0].at);
    var end := ProcessedAll(c, w, visits);
    RunIsBounded(c, w0, visits, visits[0].at);
    NoTimePasses(end, Target(c, end.clock));
    assert Pending(w0, first, Target(c, end.clock))
        == |w.queue| + |Active(w)| * (Target(c, end.clock) - first) + |OffTarget(w, first)| by {
      PendingOfParts(w0, w, first, Target(c, end.clock));
    }
  }

  /** The worker's run may as well start at the time of its first visit. */
  lemma LateStart(c: Settings, w: World, visits: seq<Visit>)
    requires WellNamed(w) && visits != [] && IsWorkerRun(c, w, visits)
    ensures var w0 := w.(clock := visits[0].at);
      && WellNamed(w0) && IsWorkerRun(c, w0, visits) && ProcessedAll(c, w0, visits) == ProcessedAll(c, w, visits)
      && Active(w0) == Active(w) && OffTarget(w0, Target(c, visits[0].at)) == OffTarget(w, Target(c, visits[0].at))
  {
    var w0 := w.(clock := visits[0].at);
    assert Processed(c, w0, visits[0]) == Processed(c, w, visits[0]);
    hide Processed, WellFormed;
  }

  lemma PendingOfParts(v: World, w: World, second: int, last: int)
    requires v.queue == w.queue && Active(v) == Active(w) && OffTarget(v, second) == OffTarget(w, second)
    ensures Pending(v, second, last) == |w.queue| + |Active(w)| * (last - second) + |OffTarget(w, second)|
  {
    hide Active, OffTarget;
  }

  lemma NoTimePasses(w: World, second: int)
    ensures Pending(w, second, second) == |w.queue| + |OffTarget(w, second)|
  {
  }

  /** Reconciling again before the target moves changes nothing. */
  lemma ReconcileIdempotent(c: Settings, w: World, key: Key, later: int)
    requires WellNamed(w) && Target(c, w.clock) == Target(c, later)
    ensures var v := Reconciled(c, w, key).(clock := later);
      Reconciled(c, v, key) == v
  {
    if key in w.functions {
      var f, w1 := w.functions[key], Reconciled(c, w, key);
      var v := w1.(clock := later);
      if f.spec.isActive {
        SecondProvisionIsIdle(c, w, f, later);
      } else if SharedInUse(w, f) {
        assert SharedInUse(v, f);
      } else {
        assert !SharedInUse(v, f);
        assert v.deployments - {DeploymentKey(f)} == v.deployments;
        assert v.services - {ServiceKey(f)} == v.services;
      }
    }
  }

  lemma SecondProvisionIsIdle(c: Settings, w: World, f: Function, later: int)
    requires WellNamed(w) && f.key in w.functions && w.functions[f.key] == f && f.spec.isActive
    requires Target(c, w.clock) == Target(c, later)
    ensures var v := Reconciled(c, w, f.key).(clock := later);
      Reconciled(c, v, f.key) == v
  {
    var v := Reconciled(c, w, f.key).(clock := later);
    ProvisionKeepsFunctions(c, w, f);
    ReconcileSettlesOne(c, w, f.key);
    ProvisionedStays(c, v, f, v.functions[f.key]);
    hide Provision, Provisioned, WellNamed, SharedInUse;
  }

  lemma ProvisionedStays(c: Settings, v: World, f: Function, g: Function)
    requires SameIdentity(f, g) && Provisioned(c, v, f)
    ensures Provision(c, v, g) == v
  {
  }

  /** The visits of one key, one second apart. */
  function Relay(key: Key, at: int, n: nat): seq<Visit>
    decreases n
  {
    if n == 0 then [] else [Visit(key, at)] + Relay(key, at + SECOND, n - 1)
  }

  /**
   * Without a bound on the clock the queue need not drain: an active Function that is reconciled once a second
   * re-queues itself every time, for as long as one likes.
   */
  lemma {:induction false} SteadyClockNeverDrains(c: Settings, w: World, key: Key, at: int, n: nat)
    requires WellNamed(w) && key in w.queue && key in Active(w) && w.clock <= at
    requires w.functions[key].spec.lease.Until? ==> w.functions[key].spec.lease.second < Target(c, at)
    ensures IsWorkerRun(c, w, Relay(key, at, n))
    ensures key in ProcessedAll(c, w, Relay(key, at, n)).queue
    decreases n
  {
    if n > 0 {
      var v := Processed(c, w, Visit(key, at));
      RelayCons(key, at, n);
      RenewalRequeues(c, w, key, at);
      hide Processed, WellNamed, Active, Target;
      hide Relay;
      SteadyClockNeverDrains(c, v, key, at + SECOND, n - 1);
    }
  }

  lemma RelayCons(key: Key, at: int, n: nat)
    requires n > 0
    ensures Relay(key, at, n) != [] && Relay(key, at, n)[0] == Visit(key, at)
    ensures Relay(key, at, n)[1..] == Relay(key, at + SECOND, n - 1)
  {
  }

  lemma RenewalRequeues(c: Settings, w: World, key: Key, at: int)
    requires WellNamed(w) && key in w.queue && key in Active(w)
    requires w.functions[key].spec.lease.Until? ==> w.functions[key].spec.lease.second < Target(c, at)
    ensures var v := Processed(c, w, Visit(key, at));
      && WellNamed(v) && v.clock == at && key in v.queue && key in Active(v)
      && v.functions[key].spec.lease.Until? && v.functions[key].spec.lease.second < Target(c, at + SECOND)
  {
    ProcessedEffect(c, w, Visit(key, at));
    hide Processed, WellNamed;
  }

  /** However the worker takes its keys, and however the time passes, it has processed its last after finitely many. */
  ghost predicate AlwaysDrains(c: Settings, w: World) {
    exists n: nat :: AllRunsWithin(c, w, n)
  }

  ghost predicate AllRunsWithin(c: Settings, w: World, n: nat) {
    forall visits: seq<Visit> :: IsWorkerRun(c, w, visits) ==> |visits| <= n
  }

  lemma {:induction false} InactiveQueueShrinks(c: Settings, w: World, visits: seq<Visit>)
    requires WellNamed(w) && IsWorkerRun(c, w, visits) && w.queue !! Active(w)
    ensures |visits| <= |w.queue|
    decreases |visits|
  {
    if visits != [] {
      ProcessedEffect(c, w, visits[0]);
      hide Processed, WellNamed, Active;
      InactiveQueueShrinks(c, Processed(c, w, visits[0]), visits[1..]);
    }
  }

  lemma {:induction false} RelayLength(key: Key, at: int, n: nat)
    ensures |Relay(key, at, n)| == n
    decreases n
  {
    if n > 0 {
      RelayLength(key, at + SECOND, n - 1);
    }
  }

  /** A time from which on the lease of the Function is behind the target. */
  lemma LateEnough(c: Settings, w: World, key: Key) returns (at: int)
    requires key in w.functions
    ensures w.clock <= at
    ensures w.functions[key].spec.lease.Until? ==> w.functions[key].spec.lease.second < Target(c, at)
  {
    at := w.clock;
    if w.functions[key].spec.lease.Until? {
      var late := (w.functions[key].spec.lease.second + 1) * SECOND - c.keepWarm;
      at := if late > w.clock then late else w.clock;
      TargetMonotone(c, late, at);
    }
  }

  /**
   * With nobody else writing, the queue drains whatever the clock does if and only if no queued Function is active.
   * In either case `QueueDrains` bounds a run by the time that it takes.
   */
  lemma AlwaysDrainsIff(c: Settings, w: World)
    requires WellNamed(w)
    ensures AlwaysDrains(c, w) <==> w.queue !! Active(w)
  {
    if w.queue !! Active(w) {
      forall visits | IsWorkerRun(c, w, visits)
        ensures |visits| <= |w.queue|
      {
        InactiveQueueShrinks(c, w, visits);
      }
      assert AllRunsWithin(c, w, |w.queue|);
    } else {
      var key :| key in w.queue && key in Active(w);
      var at := LateEnough(c, w, key);
      forall n: nat
        ensures !AllRunsWithin(c, w, n)
      {
        SteadyClockNeverDrains(c, w, key, at, n + 1);
        RelayLength(key, at, n + 1);
        hide IsWorkerRun, Relay;
      }
    }
  }
}
