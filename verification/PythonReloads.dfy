/**
 * Overlapping hot reloads of the Python runtime. Two hook watchers run at once; each reload works on the files from a
 * thread, one file at a time, while the event loop serves loads and runs every cache operation without a break.
 */
module PythonReloads {
  import opened PythonRuntime
  import opened RuntimeFiles

  /** Where a reload stands. */
  datatype Progress =
    | Pulling
    | ListingFiles
    | Removing(todo: set<string>)
    | ListingSource
    | Copying(todo: set<string>)
    | Clearing

  /**
   * `source` is the checked-out functions directory, `consumers` the names that have a consumer task, and `aborted`
   * the reloads that failed after they had begun to touch the files and that no clear has made up for since.
   */
  datatype State = State(
    files: Directory, source: Source, modules: map<string, Module>, moduleNames: set<string>,
    consumers: set<string>, reloads: map<nat, Progress>, aborted: set<nat>)

  datatype Step =
    | Hook(id: nat)
    | Pulled(id: nat, checkout: Source)
    | ListFiles(id: nat)
    | RemoveOne(id: nat, entry: string)
    | RemovalDone(id: nat)
    | ListSource(id: nat)
    | CopyOne(id: nat, entry: string)
    | CopyDone(id: nat)
    | Clear(id: nat)
    | Abort(id: nat)
    | Load(name: string, raises: bool)

  predicate HasTouchedFiles(p: Progress) {
    !p.Pulling? && !p.ListingFiles?
  }

  function AbortReload(s: State, id: nat): State
    requires id in s.reloads
  {
    s.(reloads := s.reloads - {id}, aborted := if HasTouchedFiles(s.reloads[id]) then s.aborted + {id} else s.aborted)
  }

  /** One step; a step that is not possible in `s` leaves it unchanged. */
  function Next(s: State, step: Step): State {
    match step
    case Hook(id) => if id in s.reloads then s else s.(reloads := s.reloads[id := Pulling])
    case Pulled(id, checkout) =>
      if id in s.reloads && s.reloads[id].Pulling?
      then s.(source := checkout, reloads := s.reloads[id := ListingFiles])
      else s
    case ListFiles(id) =>
      if id in s.reloads && s.reloads[id].ListingFiles?
      then s.(reloads := s.reloads[id := Removing(set entry | entry in s.files && IsRemovable(entry))])
      else s
    case RemoveOne(id, entry) =>
      if id in s.reloads && s.reloads[id].Removing? && entry in s.reloads[id].todo
      then s.(files := s.files - {entry}, reloads := s.reloads[id := Removing(s.reloads[id].todo - {entry})])
      else s
    case RemovalDone(id) =>
      if id in s.reloads && s.reloads[id] == Removing({}) then s.(reloads := s.reloads[id := ListingSource]) else s
    case ListSource(id) =>
      if id in s.reloads && s.reloads[id].ListingSource?
      then s.(reloads := s.reloads[id :=
        if s.source.Missing? then Clearing
        else Copying(set entry | entry in s.source.dir && IsFunctionEntry(entry))])
      else s
    case CopyOne(id, entry) =>
      if id in s.reloads && s.reloads[id].Copying? && entry in s.reloads[id].todo
      then
        if s.source.Present? && entry in s.source.dir
        then s.(files := s.files[entry := s.source.dir[entry]],
                reloads := s.reloads[id := Copying(s.reloads[id].todo - {entry})])
        else AbortReload(s, id)
      else s
    case CopyDone(id) =>
      if id in s.reloads && s.reloads[id] == Copying({}) then s.(reloads := s.reloads[id := Clearing]) else s
    case Clear(id) =>
      if id in s.reloads && s.reloads[id].Clearing?
      then s.(modules := map[], moduleNames := {}, consumers := FunctionNames(s.files),
              reloads := s.reloads - {id}, aborted := {})
      else s
    case Abort(id) => if id in s.reloads then AbortReload(s, id) else s
    case Load(name, raises) =>
      if name in s.modules || FileOf(name) !in s.files || raises then s
      else s.(modules := s.modules[name := Module(s.files[FileOf(name)])], moduleNames := s.moduleNames + {name})
  }

  function Run(s: State, steps: seq<Step>): State {
    if steps == [] then s else Next(Run(s, steps[..|steps| - 1]), steps[|steps| - 1])
  }

  /**
   * The process has just started: nothing is loaded or consumed, and the initial reload is about to work on the files.
   */
  predicate Started(s: State) {
    s.modules == map[] && s.moduleNames == {} && s.consumers == {} && s.aborted == {}
    && s.reloads == map[0 := Removing(set entry | entry in s.files && IsRemovable(entry))]
  }

  /** Some reload has begun to touch the files and has neither reached its clear nor been made up for by a later one. */
  ghost predicate Unsettled(s: State) {
    s.aborted != {} || exists id :: id in s.reloads && HasTouchedFiles(s.reloads[id])
  }

  /** The cached modules and the consumers are those of the files as they are now. */
  ghost predicate InSync(s: State) {
    Coherent(s.modules, s.files) && s.consumers == FunctionNames(s.files)
  }

  ghost predicate Inv(s: State) {
    s.modules.Keys == s.moduleNames && (Unsettled(s) || InSync(s))
  }

  /** A reload that goes on after touching the files leaves the state unsettled. */
  lemma StillUnsettled(s: State, id: nat)
    requires id in s.reloads && HasTouchedFiles(s.reloads[id])
    ensures Unsettled(s)
  {
  }

  lemma NextKeepsInv(s: State, step: Step)
    requires Inv(s)
    ensures Inv(Next(s, step))
  {
    var t := Next(s, step);
    hide FunctionNames, IsRemovable, IsFunctionEntry, FileOf;
    match step {
      case Load(name, raises) =>
        if t != s {
          assert t.reloads == s.reloads && t.files == s.files;
        }
      case Clear(id) =>
      case Hook(id) => EarlyStepKeepsInv(s, step);
      case Pulled(id, _) => EarlyStepKeepsInv(s, step);
      case _ =>
        if t != s {
          TouchingKeepsInv(s, step);
        }
    }
  }

  /** Until it lists the files, a reload does not matter to the cache. */
  lemma EarlyStepKeepsInv(s: State, step: Step)
    requires Inv(s) && (step.Hook? || step.Pulled?)
    ensures Inv(Next(s, step))
  {
    if Unsettled(s) && s.aborted == {} {
      var other :| other in s.reloads && HasTouchedFiles(s.reloads[other]);
      assert Next(s, step).reloads[other] == s.reloads[other];
    }
  }

  /** The steps of a reload on the files leave it in flight past its first touch, or on record as aborted. */
  lemma TouchingKeepsInv(s: State, step: Step)
    requires Inv(s) && Next(s, step) != s && !step.Load? && !step.Clear? && !step.Hook? && !step.Pulled?
    ensures Inv(Next(s, step))
  {
    var t := Next(s, step);
    hide FunctionNames, IsRemovable, IsFunctionEntry, FileOf;
    if step.id in t.reloads {
      StillUnsettled(t, step.id);
    } else {
      assert t == AbortReload(s, step.id);
      if t.aborted == {} && Unsettled(s) {
        var other :| other in s.reloads && HasTouchedFiles(s.reloads[other]);
        assert other in t.reloads;
      }
    }
  }

  lemma {:induction false} RunKeepsInv(s: State, steps: seq<Step>)
    requires Inv(s)
    ensures Inv(Run(s, steps))
  {
    if steps != [] {
      RunKeepsInv(s, steps[..|steps| - 1]);
      NextKeepsInv(Run(s, steps[..|steps| - 1]), steps[|steps| - 1]);
    }
  }

  lemma Reachable(s: State, steps: seq<Step>)
    requires Started(s)
    ensures Inv(Run(s, steps))
  {
    assert s.reloads[0].Removing?;
    RunKeepsInv(s, steps);
  }

  /**
   * In every interleaving of any number of reloads and loads: a cached module that is not the current file, or a
   * consumer set that is not the current set of functions, means that some reload has begun to touch the files and
   * has not reached its clear.
   */
  lemma StaleMeansUnsettled(s: State, steps: seq<Step>)
    requires Started(s)
    ensures !InSync(Run(s, steps)) ==> Unsettled(Run(s, steps))
  {
    Reachable(s, steps);
  }

  /** When no reload is in flight and none has failed since the last clear, cache and consumers match the files. */
  lemma QuietIsInSync(s: State, steps: seq<Step>)
    requires Started(s) && Run(s, steps).reloads == map[] && Run(s, steps).aborted == {}
    ensures InSync(Run(s, steps))
  {
    Reachable(s, steps);
  }
}
