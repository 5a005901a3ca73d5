/** Hot reload in the Python runtime: the functions directory, the module cache and the consumer tasks. */
module PythonRuntime {
  import opened Collections
  import opened Consumers
  import opened RuntimeFiles
  import opened Text

  predicate HasDunder(s: string) {
    exists i :: 0 <= i < |s| - 1 && s[i] == '_' && s[i + 1] == '_'
  }

  predicate IsPython(entry: string) {
    HasSuffix(entry, ".py")
  }

  function Stem(entry: string): string
    requires IsPython(entry)
  {
    entry[..|entry| - 3]
  }

  /** Entries the sync copies and the listing reports. */
  predicate IsFunctionEntry(entry: string) {
    IsPython(entry) && !HasDunder(Stem(entry))
  }

  /** Entries the sync clears out of the runtime directory. */
  predicate IsRemovable(entry: string) {
    IsPython(entry) && entry != "__init__.py"
  }

  function FunctionNames(dir: Directory): set<string> {
    set entry | entry in dir && IsFunctionEntry(entry) :: Stem(entry)
  }

  function Kept(dir: Directory): Directory {
    map entry | entry in dir && !IsRemovable(entry) :: dir[entry]
  }

  function Copied(dir: Directory): Directory {
    map entry | entry in dir && IsFunctionEntry(entry) :: dir[entry]
  }

  function CopiedSoFar(dir: Directory, done: set<string>): Directory {
    map entry | entry in dir && entry in done && IsFunctionEntry(entry) :: dir[entry]
  }

  lemma CopiedGrows(dir: Directory, done: set<string>, entry: string)
    requires entry in dir
    ensures CopiedSoFar(dir, done + {entry})
         == if IsFunctionEntry(entry) then CopiedSoFar(dir, done)[entry := dir[entry]] else CopiedSoFar(dir, done)
  {
    hide HasSuffix, HasDunder;
  }

  lemma CopiedBounds(dir: Directory)
    ensures CopiedSoFar(dir, {}) == map[] && CopiedSoFar(dir, dir.Keys) == Copied(dir)
  {
  }

  /** The runtime directory after a sync. */
  function Synced(dir: Directory, source: Source): Directory {
    if source.Missing? then Kept(dir) else Kept(dir) + Copied(source.dir)
  }

  function FileOf(name: string): string {
    name + ".py"
  }

  /** Every cached module was executed from the file that is there now. */
  ghost predicate Coherent(modules: map<string, Module>, dir: Directory) {
    forall name :: name in modules ==> FileOf(name) in dir && modules[name] == Module(dir[FileOf(name)])
  }

  lemma InitIsNoFunction()
    ensures IsPython("__init__.py") && !IsFunctionEntry("__init__.py")
  {
    var stem := Stem("__init__.py");
    assert stem == "__init__";
    assert stem[0] == '_' && stem[1] == '_';
  }

  /** The names listed, without the predicates of the code: those of the Python files without a double underscore. */
  lemma ListedNames(dir: Directory, name: string)
    ensures name in FunctionNames(dir) <==>
      name + ".py" in dir && !exists a: string, b: string :: name == a + "__" + b
  {
    var entry := name + ".py";
    assert entry[..|entry| - 3] == name && entry[|entry| - 3..] == ".py";
    DunderIff(name);
    if other :| other in dir && IsFunctionEntry(other) && Stem(other) == name {
      assert other == other[..|other| - 3] + other[|other| - 3..];
    }
  }

  lemma DunderIff(s: string)
    ensures HasDunder(s) <==> exists a: string, b: string :: s == a + "__" + b
  {
    if HasDunder(s) {
      var i :| 0 <= i < |s| - 1 && s[i] == '_' && s[i + 1] == '_';
      assert s == s[..i] + "__" + s[i + 2..];
    }
    if a: string, b: string :| s == a + "__" + b {
      assert s[|a|] == '_' && s[|a| + 1] == '_';
    }
  }

  /**
   * The directory after a sync, without the predicates of the code: the package file and everything that is not Python
   * stay, and the Python files of the source without a double underscore come in.
   */
  lemma SyncedEntries(dir: Directory, source: Source, entry: string)
    ensures entry in Synced(dir, source) <==>
      || (entry in dir && (entry == "__init__.py" || !HasSuffix(entry, ".py")))
      || (source.Present? && entry in source.dir &&
          exists name :: entry == name + ".py" && name in FunctionNames(source.dir))
    ensures entry in Synced(dir, source) ==>
      if HasSuffix(entry, ".py") && entry != "__init__.py"
      then source.Present? && entry in source.dir && Synced(dir, source)[entry] == source.dir[entry]
      else entry in dir && Synced(dir, source)[entry] == dir[entry]
  {
    InitIsNoFunction();
    if source.Present? && entry in source.dir && IsFunctionEntry(entry) {
      assert entry == Stem(entry) + ".py";
    }
    if source.Present? {
      forall name | entry == name + ".py" && name in FunctionNames(source.dir)
        ensures IsFunctionEntry(entry)
      {
        assert entry[..|entry| - 3] == name;
        var other :| other in source.dir && IsFunctionEntry(other) && Stem(other) == name;
        assert other == Stem(other) + ".py";
      }
    }
  }

  /** After a sync the directory lists exactly the functions of the source, whatever was there before. */
  lemma SyncedListsSource(dir: Directory, source: Source)
    ensures FunctionNames(Synced(dir, source)) == if source.Missing? then {} else FunctionNames(source.dir)
  {
    InitIsNoFunction();
    var synced := Synced(dir, source);
    forall entry | entry in synced && IsFunctionEntry(entry)
      ensures source.Present? && entry in source.dir && synced[entry] == source.dir[entry]
    {
      assert entry != "__init__.py";
    }
    if source.Present? {
      forall entry | entry in source.dir && IsFunctionEntry(entry)
        ensures entry in synced
      {
      }
    }
  }

  class Runtime {
    var files: Directory
    var modules: map<string, Module>
    var moduleNames: set<string>
    var sysModules: map<string, Module>
    const consumers: Registry

    constructor (files: Directory)
      ensures Valid() && this.files == files && modules == map[] && fresh(consumers) && consumers.tasks == map[]
    {
      this.files := files;
      modules, moduleNames, sysModules := map[], {}, map[];
      consumers := new Registry();
    }

    /** The names on record are those of the cache, and the consumers are registered. */
    ghost predicate Valid()
      reads this, consumers
    {
      modules.Keys == moduleNames && consumers.Valid()
    }

    method SyncRuntimeFunctionsDir(source: Source)
      modifies this`files
      ensures files == Synced(old(files), source)
    {
      RemoveFunctionFiles();
      if source.Missing? {
        return;
      }
      CopyFunctionFiles(source.dir);
    }

    method CopyFunctionFiles(dir: Directory)
      modifies this`files
      ensures files == old(files) + Copied(dir)
    {
      var entries := dir.Keys;
      ghost var done: set<string> := {};
      CopiedBounds(dir);
      hide HasDunder, HasSuffix, CopiedSoFar, Copied;
      while entries != {}
        invariant done + entries == dir.Keys
        invariant files == old(files) + CopiedSoFar(dir, done)
        decreases entries
      {
        var entry :| entry in entries;
        entries := entries - {entry};
        CopiedGrows(dir, done, entry);
        done := done + {entry};
        if !IsPython(entry) {
          continue;
        }
        if HasDunder(Stem(entry)) {
          continue;
        }
        files := files[entry := dir[entry]];
      }
      assert done == dir.Keys;
    }

    method RemoveFunctionFiles()
      modifies this`files
      ensures files == Kept(old(files))
    {
      var entries := files.Keys;
      ghost var done: set<string> := {};
      while entries != {}
        invariant done + entries == old(files).Keys && done !! entries
        invariant files == map entry | entry in old(files) &&
          (entry in done ==> !IsRemovable(entry)) :: old(files)[entry]
        decreases entries
      {
        hide HasSuffix;
        var entry :| entry in entries;
        entries := entries - {entry};
        done := done + {entry};
        if !IsPython(entry) || entry == "__init__.py" {
          continue;
        }
        files := files - {entry};
      }
      assert done == old(files).Keys;
    }

    method ClearModuleCache()
      requires Valid()
      modifies this`modules, this`moduleNames, this`sysModules
      ensures Valid() && modules == map[] && moduleNames == {}
      ensures sysModules == old(sysModules) - old(moduleNames)
    {
      hide Registered;
      var names := moduleNames;
      ghost var popped: set<string> := {};
      while names != {}
        invariant names + popped == old(moduleNames) && moduleNames == old(moduleNames)
        invariant sysModules == old(sysModules) - popped
        decreases names
      {
        var name :| name in names;
        names := names - {name};
        MinusGrows(old(sysModules), popped, name);
        popped := popped + {name};
        sysModules := sysModules - {name};
      }
      assert popped == old(moduleNames);
      moduleNames := {};
      modules := map[];
    }

    method ListFunctions() returns (names: set<string>)
      ensures names == FunctionNames(files)
    {
      names := {};
      var entries := files.Keys;
      ghost var done: set<string> := {};
      while entries != {}
        invariant done + entries == files.Keys
        invariant names == set entry | entry in done && entry in files && IsFunctionEntry(entry) :: Stem(entry)
        decreases entries
      {
        var entry :| entry in entries;
        entries := entries - {entry};
        done := done + {entry};
        if !HasSuffix(entry, ".py") {
          continue;
        }
        var name := entry[..|entry| - 3];
        if HasDunder(name) {
          continue;
        }
        names := names + {name};
      }
      assert done == files.Keys;
    }

    /** Returns the cached module or executes the file; `raises` says whether the execution fails. */
    method LoadModule(name: string, raises: bool) returns (r: LoadResult)
      requires Valid()
      modifies this`modules, this`moduleNames, this`sysModules
      ensures Valid()
      ensures name in old(modules) ==>
        r == Loaded(old(modules)[name]) && modules == old(modules) && sysModules == old(sysModules)
      ensures name !in old(modules) && name + ".py" !in files ==>
        r == FileNotFound && modules == old(modules) && sysModules == old(sysModules)
      ensures name !in old(modules) && name + ".py" in files ==>
        var m := Module(files[name + ".py"]);
        && sysModules == old(sysModules)[name := m]
        && (raises ==> r == ExecutionFailed && modules == old(modules))
        && (!raises ==> r == Loaded(m) && modules == old(modules)[name := m])
      ensures Coherent(old(modules), files) ==> Coherent(modules, files)
      ensures Coherent(old(modules), files) && r.Loaded? ==> name + ".py" in files && r.m.text == files[name + ".py"]
    {
      if name in modules {
        return Loaded(modules[name]);
      }
      if FileOf(name) !in files {
        return FileNotFound;
      }
      var m := Module(files[FileOf(name)]);
      sysModules := sysModules[name := m];
      if raises {
        return ExecutionFailed;
      }
      modules := modules[name := m];
      moduleNames := moduleNames + {name};
      return Loaded(m);
    }

    /** Cancels the consumers of functions that are gone and starts one for each function that has none. */
    method ReconcileConsumers()
      requires Valid()
      modifies consumers
      ensures Valid()
      ensures consumers.tasks.Keys == FunctionNames(files)
      ensures forall name :: name in consumers.tasks && name in old(consumers.tasks) ==>
        consumers.tasks[name] == old(consumers.tasks)[name]
      ensures consumers.cancelled == old(consumers.cancelled) + DroppedTasks(old(consumers.tasks), FunctionNames(files))
    {
      var desired := ListFunctions();
      consumers.Reconcile(desired);
    }

    /** A hook refresh with no other reload in between. */
    method Refresh(source: Source)
      requires Valid()
      modifies this, consumers
      ensures Valid() && modules == map[]
      ensures files == Synced(old(files), source)
      ensures consumers.tasks.Keys == if source.Missing? then {} else FunctionNames(source.dir)
      ensures forall name :: name in consumers.tasks <==>
        source.Present? && name + ".py" in source.dir && !exists a: string, b: string :: name == a + "__" + b
      ensures forall name :: name in consumers.tasks && name in old(consumers.tasks) ==>
        consumers.tasks[name] == old(consumers.tasks)[name]
      ensures consumers.cancelled == old(consumers.cancelled) + DroppedTasks(old(consumers.tasks), consumers.tasks.Keys)
    {
      SyncRuntimeFunctionsDir(source);
      ClearModuleCache();
      SyncedListsSource(old(files), source);
      ReconcileConsumers();
      if source.Present? {
        forall name
          ensures name in FunctionNames(source.dir) <==>
            name + ".py" in source.dir && !exists a: string, b: string :: name == a + "__" + b
        {
          ListedNames(source.dir, name);
        }
      }
    }
  }
}
