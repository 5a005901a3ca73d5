/** A reload of the Python runtime with no other in flight, and exactly when its failure does no harm. */
module PythonFailures {
  import opened PythonConvergence
  import opened PythonRuntime
  import opened PythonReloads
  import opened RuntimeFiles

  /**
   * `id` is the only reload in flight, it found the directory as `before`, checked out `checkout`, and the files are
   * as far as its progress says.
   */
  ghost predicate Alone(s: State, id: nat, before: Directory, checkout: Source) {
    && s.reloads.Keys == {id} && s.source == checkout
    && match s.reloads[id]
       case Pulling => false
       case ListingFiles => s.files == before
       case Removing(todo) =>
         todo <= before.Keys && (forall entry :: entry in todo ==> IsRemovable(entry))
         && s.files.Keys == Kept(before).Keys + todo &&
           (forall entry :: entry in s.files ==> s.files[entry] == before[entry])
       case ListingSource => s.files == Kept(before)
       case Copying(todo) =>
         checkout.Present? && todo <= Copied(checkout.dir).Keys &&
           s.files == Kept(before) + (Copied(checkout.dir) - todo)
       case Clearing => s.files == Synced(before, checkout)
  }

  lemma PullStartsAlone(s: State, id: nat, checkout: Source)
    requires s.reloads == map[id := Pulling]
    ensures Alone(Next(s, Pulled(id, checkout)), id, s.files, checkout)
  {
  }

  /** Its own steps, in whatever order it takes the files, and loads in between keep it on track until it clears. */
  lemma AloneStaysOnTrack(s: State, id: nat, before: Directory, checkout: Source, step: Step)
    requires Alone(s, id, before, checkout)
    requires step.Load? || (step.id == id && !step.Abort? && !step.Clear?)
    ensures Alone(Next(s, step), id, before, checkout)
  {
    hide IsRemovable, IsFunctionEntry;
    match step {
      case CopyOne(_, entry) =>
        if s.reloads[id].Copying? && entry in s.reloads[id].todo {
          CopyExtends(Kept(before), Copied(checkout.dir), s.reloads[id].todo, entry);
        }
      case CopyDone(_) =>
        if s.reloads[id] == Copying({}) {
          assert Copied(checkout.dir) - {} == Copied(checkout.dir);
        }
      case ListSource(_) =>
        if s.reloads[id].ListingSource? && checkout.Present? {
          var all := Copied(checkout.dir).Keys;
          assert all == set entry | entry in checkout.dir && IsFunctionEntry(entry);
          assert Kept(before) + (Copied(checkout.dir) - all) == Kept(before);
        }
      case _ =>
    }
  }

  lemma CopyExtends(kept: Directory, copied: Directory, todo: set<string>, entry: string)
    requires todo <= copied.Keys && entry in todo
    ensures (kept + (copied - todo))[entry := copied[entry]] == kept + (copied - (todo - {entry}))
  {
  }

  /** So when it clears, the consumers are exactly the functions of its checkout. */
  lemma AloneEndsWithSource(s: State, id: nat, before: Directory, checkout: Source)
    requires Alone(s, id, before, checkout) && s.reloads[id].Clearing?
    ensures var t := Next(s, Clear(id));
      && t.files == Synced(before, checkout) && t.modules == map[]
      && t.consumers == (if checkout.Missing? then {} else FunctionNames(checkout.dir))
  {
    SyncedListsSource(before, checkout);
  }

  // A reload that fails

  /**
   * Each cached module was executed from the file as it was in `before` or as it is now; the consumers are those of
   * `before`.
   */
  ghost predicate Dates(s: State, before: Directory) {
    && s.consumers == FunctionNames(before)
    && (forall name :: name in s.modules ==>
      IsFrom(s.modules[name], before, FileOf(name)) || IsFrom(s.modules[name], s.files, FileOf(name)))
  }

  /** No function has come or gone since `before`, and no module is cached from before a change of its file. */
  ghost predicate IsHarmless(s: State, before: Directory) {
    && (forall entry :: IsFunctionEntry(entry) ==> (entry in before <==> entry in s.files))
    && (forall name :: name in s.modules && Differs(before, s.files, FileOf(name)) ==>
      !IsFrom(s.modules[name], before, FileOf(name)))
  }

  /** The progress of a lone reload, from its hook on. */
  ghost predicate Underway(s: State, id: nat, before: Directory) {
    && Dates(s, before)
    && if s.reloads == map[id := Pulling] then s.files == before else Alone(s, id, before, s.source)
  }

  lemma LoadKeepsDates(s: State, before: Directory, name: string, raises: bool)
    requires Dates(s, before)
    ensures Dates(Next(s, Load(name, raises)), before)
  {
    hide FileOf, FunctionNames;
  }

  /** The reload itself never changes a file into a third version: what it takes away is as it found it. */
  lemma WorkTakesOnlyOld(s: State, id: nat, before: Directory, step: Step, entry: string)
    requires Alone(s, id, before, s.source) && entry in s.files
    requires !step.Load? && step.id == id && !step.Abort? && !step.Clear?
    ensures (entry in Next(s, step).files && Next(s, step).files[entry] == s.files[entry])
         || (entry in before && before[entry] == s.files[entry])
  {
    hide IsFunctionEntry, IsRemovable;
  }

  lemma WorkKeepsDates(s: State, id: nat, before: Directory, step: Step)
    requires Dates(s, before) && Alone(s, id, before, s.source)
    requires !step.Load? && step.id == id && !step.Abort? && !step.Clear?
    ensures Dates(Next(s, step), before)
  {
    var t := Next(s, step);
    AloneStaysOnTrack(s, id, before, s.source, step);
    assert t.modules == s.modules && t.consumers == s.consumers;
    forall name | name in s.modules && FileOf(name) in s.files
      ensures (FileOf(name) in t.files && t.files[FileOf(name)] == s.files[FileOf(name)])
           || (FileOf(name) in before && before[FileOf(name)] == s.files[FileOf(name)])
    {
      WorkTakesOnlyOld(s, id, before, step, FileOf(name));
    }
    hide Next, Alone, FileOf, FunctionNames;
  }

  lemma UnderwayGoesOn(s: State, id: nat, before: Directory, step: Step)
    requires Underway(s, id, before) && (step.Load? || (step.id == id && !step.Abort? && !step.Clear?))
    ensures Underway(Next(s, step), id, before)
  {
    if step.Load? {
      LoadKeepsDates(s, before, step.name, step.raises);
    }
    if s.reloads == map[id := Pulling] {
      if step.Pulled? {
        PullStartsAlone(s, id, step.checkout);
      }
    } else {
      AloneStaysOnTrack(s, id, before, s.source, step);
      if !step.Load? {
        WorkKeepsDates(s, id, before, step);
      }
    }
    hide FunctionNames, IsFunctionEntry, IsRemovable, FileOf;
  }

  lemma {:induction false} UnderwayRun(s: State, id: nat, before: Directory, steps: seq<Step>)
    requires Underway(s, id, before)
    requires forall i :: 0 <= i < |steps| ==>
      steps[i].Load? || (steps[i].id == id && !steps[i].Abort? && !steps[i].Clear?)
    ensures Underway(Run(s, steps), id, before)
  {
    hide Underway, Next;
    if steps != [] {
      UnderwayRun(s, id, before, steps[..|steps| - 1]);
      UnderwayGoesOn(Run(s, steps[..|steps| - 1]), id, before, steps[|steps| - 1]);
    }
  }

  lemma {:induction false} SameNamesSameEntries(a: Directory, b: Directory, entry: string)
    requires FunctionNames(a) == FunctionNames(b) && IsFunctionEntry(entry) && entry in a
    ensures entry in b
  {
    assert Stem(entry) in FunctionNames(b);
    var other :| other in b && IsFunctionEntry(other) && Stem(other) == Stem(entry);
    assert other == Stem(other) + ".py" && entry == Stem(entry) + ".py";
  }

  /**
   * Exactly when a lone reload that fails leaves cache and consumers in line with the files, wherever it fails and
   * whatever is loaded while it is under way: when no function has come or gone, and none whose file changed is cached
   * from before.
   */
  lemma FailedReloadIsHarmlessIff(s: State, id: nat, steps: seq<Step>)
    requires InSync(s) && s.reloads == map[id := Pulling]
    requires forall i :: 0 <= i < |steps| ==>
      steps[i].Load? || (steps[i].id == id && !steps[i].Abort? && !steps[i].Clear?)
    ensures InSync(Next(Run(s, steps), Abort(id))) <==> IsHarmless(Run(s, steps), s.files)
  {
    assert Underway(s, id, s.files) by {
      hide FunctionNames, Alone;
    }
    UnderwayRun(s, id, s.files, steps);
    assert Dates(Run(s, steps), s.files);
    HarmlessIff(Run(s, steps), s.files);
    AbortKeepsSync(Run(s, steps), id);
    hide Run, Underway, Dates, InSync, IsHarmless, Next;
  }

  lemma AbortKeepsSync(s: State, id: nat)
    ensures InSync(Next(s, Abort(id))) <==> InSync(s)
  {
  }

  lemma HarmlessIff(s: State, before: Directory)
    requires Dates(s, before)
    ensures InSync(s) <==> IsHarmless(s, before)
  {
    if InSync(s) {
      forall entry | IsFunctionEntry(entry)
        ensures entry in before <==> entry in s.files
      {
        if entry in before {
          SameNamesSameEntries(before, s.files, entry);
        } else if entry in s.files {
          SameNamesSameEntries(s.files, before, entry);
        }
      }
    }
    hide FileOf;
    if IsHarmless(s, before) {
      assert FunctionNames(before) == FunctionNames(s.files);
    }
  }

  /** In the phase of the removals: when what is gone is no function, and no module is cached from it. */
  lemma FailedRemovalIsHarmlessIff(s: State, id: nat, before: Directory)
    requires Underway(s, id, before) && id in s.reloads && s.reloads[id].Removing?
    ensures InSync(Next(s, Abort(id))) <==>
      forall entry :: entry in before && entry !in s.files ==>
        !IsFunctionEntry(entry) && forall name :: name in s.modules ==> FileOf(name) != entry
  {
    HarmlessIff(s, before);
    AbortKeepsSync(s, id);
    assert forall entry :: entry in s.files ==> entry in before && s.files[entry] == before[entry];
    RemovalsOnly(s, before);
    hide IsHarmless, InSync, Next, Underway;
  }

  lemma RemovalsOnly(s: State, before: Directory)
    requires Dates(s, before) && forall entry :: entry in s.files ==> entry in before && s.files[entry] == before[entry]
    ensures IsHarmless(s, before) <==>
      forall entry :: entry in before && entry !in s.files ==>
        !IsFunctionEntry(entry) && forall name :: name in s.modules ==> FileOf(name) != entry
  {
    hide FunctionNames, IsFunctionEntry, IsRemovable, FileOf;
    if IsHarmless(s, before) {
      forall entry, name | entry in before && entry !in s.files && name in s.modules
        ensures FileOf(name) != entry
      {
        assert IsFrom(s.modules[name], before, FileOf(name)) || IsFrom(s.modules[name], s.files, FileOf(name));
      }
    }
  }

  /**
   * In the phase of the copies: when exactly the functions of before have been copied, and those cached from before are
   * the same.
   */
  lemma FailedCopyIsHarmlessIff(s: State, id: nat, before: Directory)
    requires Underway(s, id, before) && id in s.reloads && s.reloads[id].Copying?
    ensures InSync(Next(s, Abort(id))) <==>
      && (forall entry :: IsFunctionEntry(entry) ==>
            (entry in before <==> IsWanted(s.source, entry) && entry !in s.reloads[id].todo))
      && (forall name :: name in s.modules && IsRemovable(FileOf(name)) ==>
            IsFrom(s.modules[name], before, FileOf(name)) ==>
              IsWanted(s.source, FileOf(name)) && s.source.dir[FileOf(name)] == before[FileOf(name)])
  {
    HarmlessIff(s, before);
    AbortKeepsSync(s, id);
    forall entry
      ensures entry in s.files <==>
        if IsRemovable(entry) then IsWanted(s.source, entry) && entry !in s.reloads[id].todo else entry in before
      ensures entry in s.files ==> s.files[entry] == if IsRemovable(entry) then s.source.dir[entry] else before[entry]
      ensures IsFunctionEntry(entry) ==> IsRemovable(entry)
    {
      CopyingEntry(s, id, before, entry);
    }
    hide FunctionNames, IsFunctionEntry, IsRemovable, InSync, FileOf, Next, Underway;
    if IsHarmless(s, before) {
      forall name | name in s.modules && IsFrom(s.modules[name], before, FileOf(name)) && IsRemovable(FileOf(name))
        ensures IsWanted(s.source, FileOf(name)) && s.source.dir[FileOf(name)] == before[FileOf(name)]
      {
        assert !Differs(before, s.files, FileOf(name));
      }
    }
  }

  lemma CopyingEntry(s: State, id: nat, before: Directory, entry: string)
    requires Underway(s, id, before) && id in s.reloads && s.reloads[id].Copying?
    ensures entry in s.files <==>
      if IsRemovable(entry) then IsWanted(s.source, entry) && entry !in s.reloads[id].todo else entry in before
    ensures entry in s.files ==> s.files[entry] == if IsRemovable(entry) then s.source.dir[entry] else before[entry]
    ensures IsFunctionEntry(entry) ==> IsRemovable(entry)
  {
    FunctionsAreRemovable(entry);
    hide IsRemovable, IsFunctionEntry, Dates;
  }

  /** An example of the failing side: the reload fails after it has removed the file of a cached module. */
  lemma FailedReloadLeavesStaleModule(s: State, name: string, checkout: Source)
    requires s.reloads == map[] && FileOf(name) in s.files && IsRemovable(FileOf(name)) && name in s.modules
    ensures var t :=
      Next(Next(Next(Next(Next(s, Hook(0)), Pulled(0, checkout)), ListFiles(0)), RemoveOne(0, FileOf(name))), Abort(0));
      t.reloads == map[] && name in t.modules && FileOf(name) !in t.files && !InSync(t)
  {
    hide IsRemovable, IsFunctionEntry, FunctionNames, FileOf;
  }
}
