/**
 * Exactly when the Python runtime is in sync with its files, read off the history of its steps: any number of reloads,
 * overlapping, failing or complete, with loads in between.
 */
module PythonStaleness {
  import opened PythonReloads
  import opened PythonRuntime
  import opened RuntimeFiles

  /** What the reloads did to a file last, if anything. */
  datatype Fate = Untouched | Removed | Written(text: string)

  /** The moment from which a fate is told: the load of a module, or the last clear. */
  datatype Mark = LoadOf(name: string) | LastClear

  predicate IsMark(s: State, step: Step, mark: Mark) {
    match mark
    case LoadOf(name) => step.Load? && step.name == name && name !in s.modules && name in Next(s, step).modules
    case LastClear => step.Clear? && step.id in s.reloads && s.reloads[step.id].Clearing?
  }

  predicate Removes(s: State, step: Step, entry: string) {
    step.RemoveOne? && step.entry == entry
    && step.id in s.reloads && s.reloads[step.id].Removing? && entry in s.reloads[step.id].todo
  }

  predicate Writes(s: State, step: Step, entry: string) {
    step.CopyOne? && step.entry == entry
    && step.id in s.reloads && s.reloads[step.id].Copying? && entry in s.reloads[step.id].todo
    && s.source.Present? && entry in s.source.dir
  }

  /** What the steps did to the file since the mark last occurred, or since `s` if it did not. */
  function FateSince(s: State, steps: seq<Step>, mark: Mark, entry: string): Fate {
    if steps == [] then Untouched
    else
      var so, last := Run(s, steps[..|steps| - 1]), steps[|steps| - 1];
      if IsMark(so, last, mark) then Untouched
      else if Removes(so, last, entry) then Removed
      else if Writes(so, last, entry) then Written(so.source.dir[entry])
      else FateSince(s, steps[..|steps| - 1], mark, entry)
  }

  /** A module loaded with this text is still that of its file. */
  predicate LeavesModule(fate: Fate, text: string) {
    fate.Untouched? || (fate.Written? && fate.text == text)
  }

  /** A function that was there or not at the last clear, as `listed` says, is still there or not. */
  predicate LeavesListing(fate: Fate, listed: bool) {
    match fate
    case Untouched => true
    case Removed => !listed
    case Written(_) => listed
  }

  /** What a fate says of the file now. */
  predicate Tells(fate: Fate, files: Directory, entry: string) {
    match fate
    case Untouched => true
    case Removed => entry !in files
    case Written(text) => entry in files && files[entry] == text
  }

  lemma {:induction false} FateTellsFile(s: State, steps: seq<Step>, mark: Mark, entry: string)
    ensures Tells(FateSince(s, steps, mark, entry), Run(s, steps).files, entry)
  {
    if steps != [] {
      var so, last := Run(s, steps[..|steps| - 1]), steps[|steps| - 1];
      FateTellsFile(s, steps[..|steps| - 1], mark, entry);
      if !Removes(so, last, entry) && !Writes(so, last, entry) {
        OtherStepsKeepFile(so, last, entry);
      }
      hide IsMark, IsRemovable, IsFunctionEntry, FileOf;
    }
  }

  lemma OtherStepsKeepFile(s: State, step: Step, entry: string)
    requires !Removes(s, step, entry) && !Writes(s, step, entry)
    ensures entry in Next(s, step).files <==> entry in s.files
    ensures entry in s.files ==> Next(s, step).files[entry] == s.files[entry]
  {
    hide IsRemovable, IsFunctionEntry, FunctionNames, FileOf;
  }

  /** A module whose file is untouched since its load is that of the file. */
  lemma {:induction false} UntouchedIsCurrent(s: State, steps: seq<Step>, name: string)
    requires Coherent(s.modules, s.files) && name in Run(s, steps).modules
    requires FateSince(s, steps, LoadOf(name), FileOf(name)).Untouched?
    ensures IsFrom(Run(s, steps).modules[name], Run(s, steps).files, FileOf(name))
  {
    if steps != [] {
      var before, last := steps[..|steps| - 1], steps[|steps| - 1];
      var so := Run(s, before);
      if !IsMark(so, last, LoadOf(name)) {
        ModuleStays(so, last, name);
        UntouchedIsCurrent(s, before, name);
        OtherStepsKeepFile(so, last, FileOf(name));
      }
      hide FileOf, FunctionNames, IsRemovable, IsFunctionEntry;
    }
  }

  lemma ModuleStays(s: State, step: Step, name: string)
    requires name in Next(s, step).modules && !IsMark(s, step, LoadOf(name))
    ensures name in s.modules && Next(s, step).modules[name] == s.modules[name]
  {
    hide FileOf, FunctionNames, IsRemovable, IsFunctionEntry;
  }

  /** A cached module is that of its file exactly when what happened to the file since its load left it. */
  lemma ModuleIsCurrentIff(s: State, steps: seq<Step>, name: string)
    requires Coherent(s.modules, s.files) && name in Run(s, steps).modules
    ensures IsFrom(Run(s, steps).modules[name], Run(s, steps).files, FileOf(name))
       <==> LeavesModule(FateSince(s, steps, LoadOf(name), FileOf(name)), Run(s, steps).modules[name].text)
  {
    FateTellsFile(s, steps, LoadOf(name), FileOf(name));
    if FateSince(s, steps, LoadOf(name), FileOf(name)).Untouched? {
      UntouchedIsCurrent(s, steps, name);
    }
    hide Run, FateSince, FileOf;
  }

  lemma FunctionIsListed(dir: Directory, entry: string)
    requires IsFunctionEntry(entry)
    ensures Stem(entry) in FunctionNames(dir) <==> entry in dir
  {
    if Stem(entry) in FunctionNames(dir) {
      var other :| other in dir && IsFunctionEntry(other) && Stem(other) == Stem(entry);
      assert other == Stem(other) + ".py" && entry == Stem(entry) + ".py";
    }
  }

  /** A function untouched since the last clear is there exactly if it has a consumer. */
  lemma {:induction false} UntouchedIsListed(s: State, steps: seq<Step>, entry: string)
    requires s.consumers == FunctionNames(s.files) && IsFunctionEntry(entry)
    requires FateSince(s, steps, LastClear, entry).Untouched?
    ensures Stem(entry) in Run(s, steps).consumers <==> entry in Run(s, steps).files
  {
    if steps == [] {
      FunctionIsListed(s.files, entry);
    } else {
      var before, last := steps[..|steps| - 1], steps[|steps| - 1];
      var so := Run(s, before);
      FunctionIsListed(so.files, entry);
      if !IsMark(so, last, LastClear) {
        UntouchedIsListed(s, before, entry);
        OtherStepsKeepFile(so, last, entry);
        ConsumersStay(so, last);
      }
      hide FunctionNames, IsRemovable, IsFunctionEntry, FileOf;
    }
  }

  lemma ConsumersStay(s: State, step: Step)
    requires !IsMark(s, step, LastClear)
    ensures Next(s, step).consumers == s.consumers
  {
    hide FileOf, FunctionNames, IsRemovable, IsFunctionEntry;
  }

  /** Consumers are only ever those of function entries. */
  ghost predicate AreStems(names: set<string>) {
    forall name :: name in names ==> IsFunctionEntry(FileOf(name)) && Stem(FileOf(name)) == name
  }

  lemma ListedAreStems(dir: Directory)
    ensures AreStems(FunctionNames(dir))
  {
    forall name | name in FunctionNames(dir)
      ensures IsFunctionEntry(FileOf(name)) && Stem(FileOf(name)) == name
    {
      var entry :| entry in dir && IsFunctionEntry(entry) && Stem(entry) == name;
      assert FileOf(name) == entry;
    }
  }

  lemma {:induction false} ConsumersAreStems(s: State, steps: seq<Step>)
    requires AreStems(s.consumers)
    ensures AreStems(Run(s, steps).consumers)
  {
    hide AreStems, FunctionNames, IsRemovable, IsFunctionEntry, FileOf;
    if steps != [] {
      var so := Run(s, steps[..|steps| - 1]);
      ConsumersAreStems(s, steps[..|steps| - 1]);
      ListedAreStems(so.files);
    }
  }

  /** A function is listed as it is there exactly when what happened to it since the last clear left the listing. */
  lemma ListingIsCurrentIff(s: State, steps: seq<Step>, entry: string)
    requires s.consumers == FunctionNames(s.files) && IsFunctionEntry(entry)
    ensures (Stem(entry) in Run(s, steps).consumers <==> entry in Run(s, steps).files)
       <==> LeavesListing(FateSince(s, steps, LastClear, entry), Stem(entry) in Run(s, steps).consumers)
  {
    FateTellsFile(s, steps, LastClear, entry);
    if FateSince(s, steps, LastClear, entry).Untouched? {
      UntouchedIsListed(s, steps, entry);
    }
    hide Run, FateSince, FunctionNames, IsFunctionEntry;
  }

  /** No cached module's file was removed, or overwritten with another text, since its load. */
  ghost predicate ModulesLeft(s: State, steps: seq<Step>) {
    forall name :: name in Run(s, steps).modules ==>
      LeavesModule(FateSince(s, steps, LoadOf(name), FileOf(name)), Run(s, steps).modules[name].text)
  }

  /** No function has come or gone since the last clear. */
  ghost predicate ListingLeft(s: State, steps: seq<Step>) {
    forall entry :: IsFunctionEntry(entry) ==>
      LeavesListing(FateSince(s, steps, LastClear, entry), Stem(entry) in Run(s, steps).consumers)
  }

  lemma SameListing(consumers: set<string>, dir: Directory)
    requires AreStems(consumers)
    ensures consumers == FunctionNames(dir)
       <==> forall entry :: IsFunctionEntry(entry) ==> (Stem(entry) in consumers <==> entry in dir)
  {
    forall entry | IsFunctionEntry(entry)
      ensures Stem(entry) in FunctionNames(dir) <==> entry in dir
    {
      FunctionIsListed(dir, entry);
    }
    ListedAreStems(dir);
    hide FunctionNames, IsFunctionEntry, FileOf;
    if forall entry :: IsFunctionEntry(entry) ==> (Stem(entry) in consumers <==> entry in dir) {
      forall name
        ensures name in consumers <==> name in FunctionNames(dir)
      {
        if name in consumers || name in FunctionNames(dir) {
          assert IsFunctionEntry(FileOf(name));
        }
      }
    }
  }

  /**
   * From a state in sync, after any steps at all: cache and consumers match the files if and only if no cached module's
   * file was removed, or overwritten with another text, since its load, and no function has come or gone since the
   * last clear. Reloads may overlap, fail or be under way.
   */
  lemma InSyncIffLeft(s: State, steps: seq<Step>)
    requires InSync(s)
    ensures InSync(Run(s, steps)) <==> ModulesLeft(s, steps) && ListingLeft(s, steps)
  {
    var t := Run(s, steps);
    forall name | name in t.modules
      ensures IsFrom(t.modules[name], t.files, FileOf(name))
         <==> LeavesModule(FateSince(s, steps, LoadOf(name), FileOf(name)), t.modules[name].text)
    {
      ModuleIsCurrentIff(s, steps, name);
    }
    forall entry | IsFunctionEntry(entry)
      ensures (Stem(entry) in t.consumers <==> entry in t.files)
         <==> LeavesListing(FateSince(s, steps, LastClear, entry), Stem(entry) in t.consumers)
    {
      ListingIsCurrentIff(s, steps, entry);
    }
    ListedAreStems(s.files);
    ConsumersAreStems(s, steps);
    SameListing(t.consumers, t.files);
    hide Run, FateSince, FunctionNames, IsFunctionEntry, LeavesModule, LeavesListing, FileOf, AreStems;
  }

  /** Every clear leaves a state in sync, so from there the history decides, whatever came before. */
  lemma InSyncSinceClearIff(s: State, id: nat, steps: seq<Step>)
    requires id in s.reloads && s.reloads[id].Clearing?
    ensures var cleared := Next(s, Clear(id));
      InSync(Run(cleared, steps)) <==> ModulesLeft(cleared, steps) && ListingLeft(cleared, steps)
  {
    InSyncIffLeft(Next(s, Clear(id)), steps);
  }
}
