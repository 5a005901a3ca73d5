/**
 * Where overlapping reloads of the Python runtime lead: to the files, the cache and the consumers of the latest
 * checkout.
 */
module PythonConvergence {
  import opened PythonRuntime
  import opened PythonReloads
  import opened RuntimeFiles

  predicate IsWanted(source: Source, entry: string) {
    IsFunctionEntry(entry) && source.Present? && entry in source.dir
  }

  /** The runtime directory has this entry as a sync from the source would leave it. */
  predicate IsUpToDate(s: State, entry: string) {
    if IsWanted(s.source, entry) then entry in s.files && s.files[entry] == s.source.dir[entry] else entry !in s.files
  }

  /** A reload that is this far will yet bring the entry up to date. */
  predicate WillMend(p: Progress, source: Source, entry: string) {
    match p
    case Pulling => false
    case ListingFiles => true
    case Removing(todo) => IsWanted(source, entry) || entry in todo
    case ListingSource => IsWanted(source, entry)
    case Copying(todo) => IsWanted(source, entry) && entry in todo
    case Clearing => false
  }

  predicate IsOrderly(p: Progress) {
    match p
    case Removing(todo) => forall entry :: entry in todo ==> IsRemovable(entry)
    case Copying(todo) => forall entry :: entry in todo ==> IsFunctionEntry(entry)
    case _ => true
  }

  ghost predicate AllOrderly(s: State) {
    forall id :: id in s.reloads ==> IsOrderly(s.reloads[id])
  }

  ghost predicate HasMender(s: State, entry: string) {
    exists id :: id in s.reloads && WillMend(s.reloads[id], s.source, entry)
  }

  /** Entries that no reload touches are those of `base`; any other that is not up to date will be mended. */
  ghost predicate Converges(s: State, base: Directory) {
    && AllOrderly(s)
    && (forall entry :: !IsRemovable(entry) ==>
          (entry in s.files <==> entry in base) && (entry in base ==> s.files[entry] == base[entry]))
    && (forall entry :: IsRemovable(entry) ==> IsUpToDate(s, entry) || HasMender(s, entry))
  }

  predicate IsToBeCopied(s: State, id: nat, entry: string) {
    id in s.reloads && s.reloads[id].Copying? && entry in s.reloads[id].todo
  }

  /** The step does not fail: nobody aborts, and a file to be copied is still in the source. */
  predicate Completes(s: State, step: Step) {
    && !step.Abort?
    && (step.CopyOne? && IsToBeCopied(s, step.id, step.entry) ==> s.source.Present? && step.entry in s.source.dir)
  }

  predicate AllComplete(s: State, steps: seq<Step>) {
    steps == []
    || (AllComplete(s, steps[..|steps| - 1]) && Completes(Run(s, steps[..|steps| - 1]), steps[|steps| - 1]))
  }

  lemma FunctionsAreRemovable(entry: string)
    ensures IsFunctionEntry(entry) ==> IsRemovable(entry)
  {
    InitIsNoFunction();
  }

  lemma NextKeepsOrder(s: State, step: Step)
    requires AllOrderly(s)
    ensures AllOrderly(Next(s, step))
  {
    hide IsRemovable, IsFunctionEntry;
  }

  /** The only reload whose progress a step changes is its own. */
  lemma OthersStay(s: State, step: Step, id: nat)
    requires id in s.reloads && !step.Load? && step.id != id
    ensures id in Next(s, step).reloads && Next(s, step).reloads[id] == s.reloads[id]
    ensures !step.Pulled? ==> Next(s, step).source == s.source
  {
  }

  lemma OwnStepMends(s: State, step: Step, entry: string)
    requires !step.Load? && step.id in s.reloads && Completes(s, step) && AllOrderly(s)
    requires IsRemovable(entry) && WillMend(s.reloads[step.id], s.source, entry)
    ensures IsUpToDate(Next(s, step), entry) || HasMender(Next(s, step), entry)
  {
    var t := Next(s, step);
    hide IsRemovable, IsFunctionEntry;
    if step.id in t.reloads {
      assert IsUpToDate(t, entry) || WillMend(t.reloads[step.id], t.source, entry);
    }
  }

  /** A step that takes an entry out of date is one of a reload that will mend it. */
  lemma SpoiltIsMended(s: State, step: Step, entry: string)
    requires Completes(s, step) && AllOrderly(s) && IsRemovable(entry) && IsUpToDate(s, entry)
    ensures IsUpToDate(Next(s, step), entry) || HasMender(Next(s, step), entry)
  {
    var t := Next(s, step);
    hide IsRemovable, IsFunctionEntry;
    if t.source != s.source || t.files != s.files {
      assert step.id in t.reloads;
      assert IsUpToDate(t, entry) || WillMend(t.reloads[step.id], t.source, entry);
    }
  }

  lemma StepConverges(s: State, base: Directory, step: Step)
    requires Converges(s, base) && Completes(s, step)
    ensures Converges(Next(s, step), base)
  {
    var t := Next(s, step);
    NextKeepsOrder(s, step);
    forall entry | IsRemovable(entry)
      ensures IsUpToDate(t, entry) || HasMender(t, entry)
    {
      if IsUpToDate(s, entry) {
        SpoiltIsMended(s, step, entry);
      } else {
        var id :| id in s.reloads && WillMend(s.reloads[id], s.source, entry);
        MenderGoesOn(s, step, entry, id);
      }
    }
    forall entry | !IsRemovable(entry)
      ensures entry in t.files <==> entry in s.files
      ensures entry in s.files ==> t.files[entry] == s.files[entry]
    {
      OthersUntouched(s, step, entry);
    }
    hide IsRemovable, Next, IsUpToDate, HasMender;
  }

  lemma OthersUntouched(s: State, step: Step, entry: string)
    requires AllOrderly(s) && !IsRemovable(entry)
    ensures entry in Next(s, step).files <==> entry in s.files
    ensures entry in s.files ==> Next(s, step).files[entry] == s.files[entry]
  {
    FunctionsAreRemovable(entry);
    hide IsRemovable, IsFunctionEntry, FileOf;
    match step {
      case RemoveOne(id, gone) => assert id in s.reloads ==> IsOrderly(s.reloads[id]);
      case CopyOne(id, copied) => assert id in s.reloads ==> IsOrderly(s.reloads[id]);
      case _ =>
    }
  }

  lemma MenderGoesOn(s: State, step: Step, entry: string, id: nat)
    requires Completes(s, step) && AllOrderly(s) && IsRemovable(entry)
    requires id in s.reloads && WillMend(s.reloads[id], s.source, entry)
    ensures IsUpToDate(Next(s, step), entry) || HasMender(Next(s, step), entry)
  {
    var t := Next(s, step);
    if step.Load? {
      assert t.reloads == s.reloads && t.source == s.source;
    } else if step.id == id {
      OwnStepMends(s, step, entry);
    } else {
      OthersStay(s, step, id);
      if step.Pulled? && t != s {
        assert t.reloads[step.id] == ListingFiles;
      }
      hide Next;
    }
  }

  lemma {:induction false} RunConverges(s: State, base: Directory, steps: seq<Step>)
    requires Converges(s, base) && AllComplete(s, steps)
    ensures Converges(Run(s, steps), base)
  {
    hide Converges, Completes, Next;
    if steps != [] {
      RunConverges(s, base, steps[..|steps| - 1]);
      StepConverges(Run(s, steps[..|steps| - 1]), base, steps[|steps| - 1]);
    }
  }

  /** With no reload in flight there is nothing left to mend: the directory is that of one sync from the source. */
  lemma ConvergedIsSynced(s: State, base: Directory)
    requires Converges(s, base) && s.reloads == map[]
    ensures s.files == Synced(base, s.source)
  {
    var synced := Synced(base, s.source);
    forall entry
      ensures entry in s.files <==> entry in synced
      ensures entry in s.files ==> s.files[entry] == synced[entry]
    {
      SyncedEntry(base, s.source, entry);
      assert IsRemovable(entry) ==> IsUpToDate(s, entry);
      hide IsRemovable, Synced, IsWanted;
    }
    hide Synced;
  }

  lemma SyncedEntry(base: Directory, source: Source, entry: string)
    ensures var synced := Synced(base, source);
      if IsWanted(source, entry) then IsRemovable(entry) && entry in synced && synced[entry] == source.dir[entry]
      else if IsRemovable(entry) then entry !in synced
      else (entry in synced <==> entry in base) && (entry in base ==> synced[entry] == base[entry])
  {
    FunctionsAreRemovable(entry);
    hide IsRemovable, IsFunctionEntry;
  }

  /** Files, cache and consumers are those of a sync of `base` from the source as it is now. */
  ghost predicate ServesSource(s: State, base: Directory) {
    && s.files == Synced(base, s.source)
    && Coherent(s.modules, s.files)
    && s.consumers == (if s.source.Missing? then {} else FunctionNames(s.source.dir))
  }

  /**
   * From the start of the process, however its reloads overlap: if none of them fails, then when all have ended the
   * files, the cached modules and the consumers are those of the latest checkout.
   */
  lemma CompletedReloadsServeLatest(s: State, steps: seq<Step>)
    requires Started(s) && AllComplete(s, steps) && Run(s, steps).reloads == map[]
    ensures ServesSource(Run(s, steps), s.files)
  {
    Reachable(s, steps);
    assert Converges(s, s.files) by {
      assert s.reloads[0].Removing?;
      hide IsFunctionEntry, IsRemovable;
    }
    RunConverges(s, s.files, steps);
    NothingAborted(s, steps);
    ConvergedIsSynced(Run(s, steps), s.files);
    SyncedListsSource(s.files, Run(s, steps).source);
    hide Run, AllComplete, Synced, Converges, Started, FunctionNames;
  }

  lemma {:induction false} NothingAborted(s: State, steps: seq<Step>)
    requires s.aborted == {} && AllComplete(s, steps)
    ensures Run(s, steps).aborted == {}
  {
    if steps != [] {
      NothingAborted(s, steps[..|steps| - 1]);
    }
  }

  /**
   * After any history, failed reloads included: once a reload has its checkout and from then on none fails, when all
   * have ended everything is that of the latest checkout. One completed reload makes up for whatever failed before.
   */
  lemma CompletedReloadMakesUp(start: State, before: seq<Step>, id: nat, after: seq<Step>)
    requires Started(start)
    requires var s := Run(start, before);
      && id in s.reloads && s.reloads[id] == ListingFiles && AllComplete(s, after) && Run(s, after).reloads == map[]
    ensures var s := Run(start, before); ServesSource(Run(s, after), s.files)
  {
    var s := Run(start, before);
    Reachable(start, before);
    OrderlyRun(start, before);
    assert Converges(s, s.files) by {
      hide IsFunctionEntry, IsRemovable, Run, Started, Inv;
      assert forall entry :: WillMend(s.reloads[id], s.source, entry);
    }
    RunConverges(s, s.files, after);
    RunKeepsInv(s, after);
    ClearedOrInFlight(s, id, after);
    ConvergedIsSynced(Run(s, after), s.files);
    SyncedListsSource(s.files, Run(s, after).source);
    hide Run, AllComplete, Synced, Converges, Started, FunctionNames;
  }

  lemma {:induction false} OrderlyRun(s: State, steps: seq<Step>)
    requires Started(s)
    ensures AllOrderly(Run(s, steps))
  {
    hide IsFunctionEntry, IsRemovable, Next;
    if steps != [] {
      OrderlyRun(s, steps[..|steps| - 1]);
      NextKeepsOrder(Run(s, steps[..|steps| - 1]), steps[|steps| - 1]);
    }
  }

  lemma {:induction false} ClearedOrInFlight(s: State, id: nat, steps: seq<Step>)
    requires id in s.reloads && AllComplete(s, steps)
    ensures id in Run(s, steps).reloads || Run(s, steps).aborted == {}
  {
    if steps != [] {
      ClearedOrInFlight(s, id, steps[..|steps| - 1]);
      StaysClearedOrInFlight(Run(s, steps[..|steps| - 1]), id, steps[|steps| - 1]);
      hide Next;
    }
  }

  lemma StaysClearedOrInFlight(s: State, id: nat, step: Step)
    requires (id in s.reloads || s.aborted == {}) && Completes(s, step)
    ensures id in Next(s, step).reloads || Next(s, step).aborted == {}
  {
    hide IsRemovable, IsFunctionEntry, FileOf;
  }
}
