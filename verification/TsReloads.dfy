/**
 * Hot reloads of the TypeScript runtime with loads in between. One watcher handles the hooks in turn, so reloads never
 * overlap, but each waits at every file, and loads run there.
 */
module TsReloads {
  import opened RuntimeFiles
  import opened TsRuntime

  datatype Progress =
    | Idle
    | Pulling
    | Removing(todo: set<string>)
    | ListingSource
    | Copying(todo: set<string>)
    | Clearing

  /**
   * `source` is the checked-out functions directory; `broken` says that a reload failed after it had begun to touch
   * the files and that none has cleared the cache since.
   */
  datatype State = State(
    files: Directory, source: Source, modules: map<string, Module>, version: nat, imports: map<ImportKey, Module>,
    reload: Progress, broken: bool)

  datatype Step =
    | Hook
    | Pulled(checkout: Source)
    | RemoveOne(entry: string)
    | RemovalDone
    | ListSource
    | CopyOne(entry: string)
    | CopyDone
    | Clear
    | Abort
    | Load(name: string, raises: bool)

  predicate HasTouchedFiles(p: Progress) {
    !p.Idle? && !p.Pulling?
  }

  function AbortReload(s: State): State {
    s.(reload := Idle, broken := s.broken || HasTouchedFiles(s.reload))
  }

  /** The module a load hands out, if it hands out one. */
  function LoadIn(s: State, name: string, raises: bool): LoadResult {
    if name in s.modules then Loaded(s.modules[name])
    else if FileOf(name) !in s.files then FileNotFound
    else if (name, s.version) in s.imports then Loaded(s.imports[(name, s.version)])
    else if raises then ExecutionFailed
    else Loaded(Module(s.files[FileOf(name)]))
  }

  /** One step; a step that is not possible in `s` leaves it unchanged. */
  function Next(s: State, step: Step): State {
    match step
    case Hook => if s.reload.Idle? then s.(reload := Pulling) else s
    case Pulled(checkout) =>
      if s.reload.Pulling?
      then s.(source := checkout, reload := Removing(set entry | entry in s.files && IsFunctionFile(entry)))
      else s
    case RemoveOne(entry) =>
      if s.reload.Removing? && entry in s.reload.todo
      then s.(files := s.files - {entry}, reload := Removing(s.reload.todo - {entry}))
      else s
    case RemovalDone => if s.reload == Removing({}) then s.(reload := ListingSource) else s
    case ListSource =>
      if s.reload.ListingSource?
      then s.(reload :=
        if s.source.Missing? then Clearing
        else Copying(set entry | entry in s.source.dir && IsFunctionFile(entry)))
      else s
    case CopyOne(entry) =>
      if s.reload.Copying? && entry in s.reload.todo
      then
        if s.source.Present? && entry in s.source.dir
        then s.(files := s.files[entry := s.source.dir[entry]], reload := Copying(s.reload.todo - {entry}))
        else AbortReload(s)
      else s
    case CopyDone => if s.reload == Copying({}) then s.(reload := Clearing) else s
    case Clear =>
      if s.reload.Clearing? then s.(modules := map[], version := s.version + 1, reload := Idle, broken := false) else s
    case Abort => AbortReload(s)
    case Load(name, raises) =>
      var r := LoadIn(s, name, raises);
      if r.Loaded?
      then s.(modules := s.modules[name := r.m],
              imports := if (name, s.version) in s.imports then s.imports else s.imports[(name, s.version) := r.m])
      else s
  }

  function Run(s: State, steps: seq<Step>): State {
    if steps == [] then s else Next(Run(s, steps[..|steps| - 1]), steps[|steps| - 1])
  }

  /** The process has just started and its first reload is about to begin. */
  predicate Started(s: State) {
    s.modules == map[] && s.imports == map[] && s.version == 1 && s.reload == Pulling && !s.broken
  }

  predicate Settled(s: State) {
    !HasTouchedFiles(s.reload) && !s.broken
  }

  /** The source does not change while files are copied from it. */
  ghost predicate Inv(s: State) {
    && Versioned(s.modules, s.version, s.imports)
    && (Settled(s) ==> Coherent(s.modules, s.files))
    && (s.reload.Copying? ==> s.source.Present? && s.reload.todo <= FunctionsIn(s.source.dir).Keys)
  }

  lemma LoadKeepsInv(s: State, name: string, raises: bool)
    requires Inv(s)
    ensures Inv(Next(s, Load(name, raises)))
  {
  }

  lemma NextKeepsInv(s: State, step: Step)
    requires Inv(s)
    ensures Inv(Next(s, step))
  {
    match step {
      case Load(name, raises) => LoadKeepsInv(s, name, raises);
      case _ =>
        hide FileOf, IsFunctionFile;
    }
  }

  lemma {:induction false} RunKeepsInv(s: State, steps: seq<Step>)
    requires Inv(s)
    ensures Inv(Run(s, steps))
  {
    if steps != [] {
      RunKeepsInv(s, steps[..|steps| - 1]);
      NextKeepsInv(Run(s, steps[..|steps| - 1]), steps[|steps| - 1]);
    }
  }

  lemma Reachable(s: State, steps: seq<Step>)
    requires Started(s)
    ensures Inv(Run(s, steps))
  {
    RunKeepsInv(s, steps);
  }

  /** No import is ever keyed by a version that the runtime has not reached. */
  lemma ImportsNeverRunAhead(s: State, steps: seq<Step>, name: string, version: nat)
    requires Started(s) && (name, version) in Run(s, steps).imports
    ensures version <= Run(s, steps).version
  {
    Reachable(s, steps);
  }

  lemma NextKeepsImport(s: State, step: Step, key: ImportKey)
    requires key in s.imports
    ensures key in Next(s, step).imports && Next(s, step).imports[key] == s.imports[key]
  {
  }

  /** Imports are never evicted or replaced: each file is executed at most once in each version. */
  lemma {:induction false} ImportsArePermanent(s: State, steps: seq<Step>, key: ImportKey)
    requires key in s.imports
    ensures key in Run(s, steps).imports && Run(s, steps).imports[key] == s.imports[key]
  {
    hide Next;
    if steps != [] {
      var before := steps[..|steps| - 1];
      ImportsArePermanent(s, before, key);
      NextKeepsImport(Run(s, before), steps[|steps| - 1], key);
    }
  }

  /**
   * In every interleaving: when no reload is between its first touch of the files and its clear, and none broke off
   * there, a load hands out the file as it is now, although the import cache still holds every module ever executed.
   */
  lemma LoadsAreCurrent(s: State, steps: seq<Step>, name: string, raises: bool)
    requires Started(s) && Settled(Run(s, steps))
    ensures var t := Run(s, steps);
      LoadIn(t, name, raises).Loaded? ==>
        FileOf(name) in t.files && LoadIn(t, name, raises).m == Module(t.files[FileOf(name)])
  {
    hide FileOf;
    Reachable(s, steps);
  }

  /** A load made halfway through a reload is forgotten: whatever was cached before, a clear leaves nothing stale. */
  lemma ClearForgets(s: State, name: string, raises: bool)
    requires Inv(s) && s.reload.Clearing?
    ensures var t := Next(s, Clear);
      && Settled(t) && (name, t.version) !in t.imports
      && LoadIn(t, name, raises)
         == if FileOf(name) !in t.files then FileNotFound
            else if raises then ExecutionFailed
            else Loaded(Module(t.files[FileOf(name)]))
  {
  }

  // A reload from its checkout to its clear

  /**
   * The reload found the directory as `before`, checked out `checkout`, and the files are as far as its progress says.
   */
  ghost predicate OnTrack(s: State, before: Directory, checkout: Source) {
    && s.source == checkout
    && match s.reload
       case Idle => false
       case Pulling => false
       case Removing(todo) =>
         todo <= FunctionsIn(before).Keys && s.files == OthersIn(before) + (FunctionsIn(before) - (before.Keys - todo))
       case ListingSource => s.files == OthersIn(before)
       case Copying(todo) =>
         checkout.Present? && todo <= FunctionsIn(checkout.dir).Keys
         && s.files == OthersIn(before) + (FunctionsIn(checkout.dir) - todo)
       case Clearing => s.files == Synced(before, checkout)
  }

  lemma PullStartsOnTrack(s: State, checkout: Source)
    requires s.reload == Pulling
    ensures OnTrack(Next(s, Pulled(checkout)), s.files, checkout)
  {
  }

  lemma RemoveStaysOnTrack(s: State, before: Directory, checkout: Source, entry: string)
    requires OnTrack(s, before, checkout) && s.reload.Removing? && entry in s.reload.todo
    ensures OnTrack(Next(s, RemoveOne(entry)), before, checkout)
  {
  }

  lemma CopyStaysOnTrack(s: State, before: Directory, checkout: Source, entry: string)
    requires OnTrack(s, before, checkout) && s.reload.Copying? && entry in s.reload.todo
    ensures OnTrack(Next(s, CopyOne(entry)), before, checkout)
  {
  }

  /** Its steps, in whatever order it takes the files, and loads in between keep a reload on track until it ends. */
  lemma StaysOnTrack(s: State, before: Directory, checkout: Source, step: Step)
    requires OnTrack(s, before, checkout) && !step.Clear? && !step.Abort?
    ensures OnTrack(Next(s, step), before, checkout)
  {
    hide IsFunctionFile;
    match step {
      case RemoveOne(entry) =>
        if s.reload.Removing? && entry in s.reload.todo {
          RemoveStaysOnTrack(s, before, checkout, entry);
        }
      case CopyOne(entry) =>
        if s.reload.Copying? && entry in s.reload.todo {
          CopyStaysOnTrack(s, before, checkout, entry);
        }
      case CopyDone =>
        if s.reload == Copying({}) {
          assert FunctionsIn(checkout.dir) - {} == FunctionsIn(checkout.dir);
        }
      case _ =>
    }
  }

  lemma {:induction false} RunStaysOnTrack(s: State, before: Directory, checkout: Source, steps: seq<Step>)
    requires OnTrack(s, before, checkout) && forall i :: 0 <= i < |steps| ==> !steps[i].Clear? && !steps[i].Abort?
    ensures OnTrack(Run(s, steps), before, checkout)
  {
    if steps != [] {
      RunStaysOnTrack(s, before, checkout, steps[..|steps| - 1]);
      StaysOnTrack(Run(s, steps[..|steps| - 1]), before, checkout, steps[|steps| - 1]);
    }
  }

  lemma ClearServesCheckout(s: State, before: Directory, checkout: Source, name: string)
    requires Inv(s) && OnTrack(s, before, checkout) && s.reload.Clearing?
    ensures Served(Next(s, Clear), checkout, name)
  {
    SyncedListsSource(before, checkout);
    ClearForgets(s, name, false);
    ListedMeansLoadable(s.files, name);
    if checkout.Present? {
      ListedMeansLoadable(checkout.dir, name);
      ListingInvertsResolving(name, "");
    }
    hide IsName, IsFunctionFile, Basename, FunctionNames, FileOf;
  }

  /** The runtime lists the functions of the checkout, and `name`, if it is one of them, loads as it was checked out. */
  predicate Served(s: State, checkout: Source, name: string) {
    && FunctionNames(s.files) == (if checkout.Missing? then {} else FunctionNames(checkout.dir))
    && (name in FunctionNames(s.files) ==>
          && checkout.Present? && FileOf(name) in checkout.dir
          && LoadIn(s, name, false) == Loaded(Module(checkout.dir[FileOf(name)])))
  }

  /**
   * A reload that reaches its clear has made the runtime directory list exactly the functions of its checkout, and
   * from then on each of them loads as it was checked out.
   */
  lemma ReloadServesCheckout(s: State, checkout: Source, steps: seq<Step>, name: string)
    requires Inv(s) && s.reload == Pulling
    requires forall i :: 0 <= i < |steps| ==> !steps[i].Clear? && !steps[i].Abort?
    requires Run(Next(s, Pulled(checkout)), steps).reload.Clearing?
    ensures Served(Next(Run(Next(s, Pulled(checkout)), steps), Clear), checkout, name)
  {
    hide Inv, OnTrack, Next, Run, Served;
    var pulled := Next(s, Pulled(checkout));
    PullStartsOnTrack(s, checkout);
    RunStaysOnTrack(pulled, s.files, checkout, steps);
    NextKeepsInv(s, Pulled(checkout));
    RunKeepsInv(pulled, steps);
    ClearServesCheckout(Run(pulled, steps), s.files, checkout, name);
  }

  // A reload that fails

  /** Each cached module was executed from the file as it was in `before` or as it is now. */
  ghost predicate Dates(s: State, before: Directory) {
    forall name :: name in s.modules ==>
      IsFrom(s.modules[name], before, FileOf(name)) || IsFrom(s.modules[name], s.files, FileOf(name))
  }

  /** The progress of a reload from its hook on, `before` being the directory it found. */
  ghost predicate Underway(s: State, before: Directory) {
    && Inv(s) && Dates(s, before)
    && if s.reload.Pulling? then s.files == before else OnTrack(s, before, s.source)
  }

  lemma LoadKeepsDates(s: State, before: Directory, name: string, raises: bool)
    requires Inv(s) && Dates(s, before)
    ensures Dates(Next(s, Load(name, raises)), before)
  {
    hide FileOf, FunctionsIn;
  }

  /** The reload itself never changes a file into a third version. */
  lemma WorkKeepsDates(s: State, before: Directory, step: Step)
    requires Dates(s, before) && OnTrack(s, before, s.source) && !step.Load? && !step.Clear? && !step.Abort?
    ensures Dates(Next(s, step), before)
  {
    var t := Next(s, step);
    StaysOnTrack(s, before, s.source, step);
    hide IsFunctionFile, FileOf;
    forall name | name in t.modules
      ensures IsFrom(t.modules[name], before, FileOf(name)) || IsFrom(t.modules[name], t.files, FileOf(name))
    {
      assert IsFrom(s.modules[name], before, FileOf(name)) || IsFrom(s.modules[name], s.files, FileOf(name));
    }
  }

  lemma UnderwayGoesOn(s: State, before: Directory, step: Step)
    requires Underway(s, before) && !step.Clear? && !step.Abort?
    ensures Underway(Next(s, step), before)
  {
    NextKeepsInv(s, step);
    if step.Load? {
      LoadKeepsDates(s, before, step.name, step.raises);
    }
    if s.reload.Pulling? {
      if step.Pulled? {
        PullStartsOnTrack(s, step.checkout);
      }
    } else {
      StaysOnTrack(s, before, s.source, step);
      if !step.Load? {
        WorkKeepsDates(s, before, step);
      }
    }
    hide Inv, IsFunctionFile, FileOf;
  }

  lemma {:induction false} UnderwayRun(s: State, before: Directory, steps: seq<Step>)
    requires Underway(s, before) && forall i :: 0 <= i < |steps| ==> !steps[i].Clear? && !steps[i].Abort?
    ensures Underway(Run(s, steps), before)
  {
    hide Underway, Next;
    if steps != [] {
      UnderwayRun(s, before, steps[..|steps| - 1]);
      UnderwayGoesOn(Run(s, steps[..|steps| - 1]), before, steps[|steps| - 1]);
    }
  }

  /** A load of the name hands out a module that is not the file as it is now. */
  predicate ServesStale(s: State, name: string, raises: bool) {
    var r := LoadIn(s, name, raises);
    r.Loaded? && !IsFrom(r.m, s.files, FileOf(name))
  }

  /**
   * Exactly when a reload that fails leaves a name served stale, wherever it fails and whatever is loaded while it is
   * under way: when its file has changed and it is cached from before.
   */
  lemma FailedReloadServesStaleIff(s: State, steps: seq<Step>, name: string, raises: bool)
    requires Inv(s) && Settled(s) && s.reload == Pulling
    requires forall i :: 0 <= i < |steps| ==> !steps[i].Clear? && !steps[i].Abort?
    ensures var u := Run(s, steps);
      ServesStale(Next(u, Abort), name, raises) <==>
        name in u.modules && Differs(s.files, u.files, FileOf(name)) && IsFrom(u.modules[name], s.files, FileOf(name))
  {
    assert Dates(s, s.files);
    UnderwayRun(s, s.files, steps);
    var u := Run(s, steps);
    hide Run, OnTrack, FileOf, FunctionsIn;
  }

  /** In the phase of the removals the names served stale are the cached ones whose file is gone. */
  lemma FailedRemovalServesStaleIff(s: State, before: Directory, name: string, raises: bool)
    requires Underway(s, before) && s.reload.Removing?
    ensures ServesStale(Next(s, Abort), name, raises) <==> name in s.modules && FileOf(name) !in s.files
  {
    assert forall entry :: entry in s.files ==> entry in before && s.files[entry] == before[entry];
    hide OnTrack, FileOf, FunctionsIn;
  }

  /**
   * In the phase of the copies, the ones cached from before whose file is not copied yet, or was copied with another
   * text.
   */
  lemma FailedCopyServesStaleIff(s: State, before: Directory, name: string, raises: bool)
    requires Underway(s, before) && s.reload.Copying?
    ensures ServesStale(Next(s, Abort), name, raises) <==>
      && name in s.modules && IsFunctionFile(FileOf(name)) && IsFrom(s.modules[name], before, FileOf(name))
      && (FileOf(name) !in s.source.dir || FileOf(name) in s.reload.todo ||
        s.source.dir[FileOf(name)] != before[FileOf(name)])
  {
    hide IsFunctionFile, FileOf;
  }

  /** An example: a reload that fails after removing a file goes on serving its module. */
  lemma BrokenReloadServesRemovedFile(s: State, checkout: Source, name: string, raises: bool)
    requires Inv(s) && s.reload == Pulling && name in s.modules && IsName(name) && FileOf(name) in s.files
    ensures var t := Next(Next(Next(s, Pulled(checkout)), RemoveOne(FileOf(name))), Abort);
      t.reload.Idle? && FileOf(name) !in t.files && LoadIn(t, name, raises).Loaded?
  {
    hide IsFunctionFile, FileOf;
    ListingInvertsResolving(name, "");
  }
}
