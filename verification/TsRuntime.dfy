/**
 * Hot reload in the TypeScript runtime. The import cache of the JavaScript engine is never evicted; a reload makes it
 * harmless by moving to a new module version.
 */
module TsRuntime {
  import opened Consumers
  import opened RuntimeFiles
  import opened Text

  predicate IsNameChar(c: char) {
    'A' <= c <= 'Z' || 'a' <= c <= 'z' || '0' <= c <= '9' || c == '_' || c == '-'
  }

  /** The characters of the regular expression, written out. */
  lemma NameCharIff(c: char)
    ensures IsNameChar(c) <==>
      c in "ABCDEFGHIJKLMNOPQRSTUVWXYZ" || c in "abcdefghijklmnopqrstuvwxyz" || c in "0123456789" || c in "_-"
  {
    UpperCase(c);
    LowerCase(c);
    Digit(c);
  }

  lemma UpperCase(c: char)
    ensures c in "ABCDEFGHIJKLMNOPQRSTUVWXYZ" <==> 'A' <= c <= 'Z'
  {
  }

  lemma LowerCase(c: char)
    ensures c in "abcdefghijklmnopqrstuvwxyz" <==> 'a' <= c <= 'z'
  {
  }

  lemma Digit(c: char)
    ensures c in "0123456789" <==> '0' <= c <= '9'
  {
  }

  predicate IsName(name: string) {
    name != "" && forall i :: 0 <= i < |name| ==> IsNameChar(name[i])
  }

  /** The regular expression: one or more name characters, then ".ts". */
  predicate MatchesPattern(entry: string) {
    HasSuffix(entry, ".ts") && IsName(entry[..|entry| - 3])
  }

  predicate IsFunctionFile(entry: string) {
    if !MatchesPattern(entry) then false
    else if HasSuffix(entry, ".d.ts") then false
    else true
  }

  /** Node's base name of a path with one component, without the extension ".ts". */
  function Basename(entry: string): string {
    if HasSuffix(entry, ".ts") && entry != ".ts" then entry[..|entry| - 3] else entry
  }

  function FileOf(name: string): string {
    name + ".ts"
  }

  /** The check for declaration files never decides: the pattern already refuses the dot before "d". */
  lemma PatternRefusesDeclarations(entry: string)
    ensures IsFunctionFile(entry) <==> MatchesPattern(entry)
  {
    if HasSuffix(entry, ".d.ts") {
      assert entry[|entry| - 5] == entry[|entry| - 5..][0] == '.';
    }
  }

  /** A function file is a nonempty row of letters, digits, underscores and hyphens, and the extension. */
  lemma FunctionFileIff(name: string)
    ensures IsFunctionFile(name + ".ts") <==>
      name != "" && forall i :: 0 <= i < |name| ==>
        || name[i] in "ABCDEFGHIJKLMNOPQRSTUVWXYZ" || name[i] in "abcdefghijklmnopqrstuvwxyz"
        || name[i] in "0123456789" || name[i] in "_-"
  {
    ListingInvertsResolving(name, "");
    forall i | 0 <= i < |name| {
      NameCharIff(name[i]);
    }
    hide IsNameChar, IsFunctionFile;
  }

  /** The same of two names joined by a hyphen or an underscore. */
  lemma JoinedNames(a: string, b: string)
    requires IsName(a) && IsName(b)
    ensures IsFunctionFile(a + "-" + b + ".ts") && IsFunctionFile(a + "_" + b + ".ts")
  {
    ListingInvertsResolving(a + "-" + b, "");
    ListingInvertsResolving(a + "_" + b, "");
  }

  /** Listing a file and resolving the listed name are inverse to each other. */
  lemma ListingInvertsResolving(name: string, entry: string)
    ensures IsFunctionFile(FileOf(name)) <==> IsName(name)
    ensures name != "" ==> Basename(FileOf(name)) == name
    ensures IsFunctionFile(entry) ==> FileOf(Basename(entry)) == entry && IsName(Basename(entry))
  {
    var file := FileOf(name);
    assert file[..|file| - 3] == name && file[|file| - 3..] == ".ts";
    PatternRefusesDeclarations(file);
    if IsFunctionFile(entry) {
      assert entry == entry[..|entry| - 3] + entry[|entry| - 3..];
    }
  }

  function FunctionNames(dir: Directory): set<string> {
    set entry | entry in dir && IsFunctionFile(entry) :: Basename(entry)
  }

  /** The names listed are exactly the well-formed names that a load would find a file for. */
  lemma ListedMeansLoadable(dir: Directory, name: string)
    ensures name in FunctionNames(dir) <==> IsName(name) && FileOf(name) in dir
  {
    ListingInvertsResolving(name, "");
    if name in FunctionNames(dir) {
      var entry :| entry in dir && IsFunctionFile(entry) && Basename(entry) == name;
      ListingInvertsResolving(name, entry);
    }
  }

  function OthersIn(dir: Directory): Directory {
    map entry | entry in dir && !IsFunctionFile(entry) :: dir[entry]
  }

  function FunctionsIn(dir: Directory): Directory {
    map entry | entry in dir && IsFunctionFile(entry) :: dir[entry]
  }

  /** The runtime directory after a sync. */
  function Synced(dir: Directory, source: Source): Directory {
    if source.Missing? then OthersIn(dir) else OthersIn(dir) + FunctionsIn(source.dir)
  }

  /** The function files of the directory give way to those of the source; everything else stays. */
  lemma SyncedEntries(dir: Directory, source: Source, entry: string)
    ensures entry in Synced(dir, source) <==>
      if exists name: string :: IsName(name) && entry == name + ".ts"
      then source.Present? && entry in source.dir else entry in dir
    ensures entry in Synced(dir, source) ==>
      if exists name: string :: IsName(name) && entry == name + ".ts"
      then source.Present? && entry in source.dir && Synced(dir, source)[entry] == source.dir[entry]
      else entry in dir && Synced(dir, source)[entry] == dir[entry]
  {
    FunctionFilesAreNamed(entry);
    hide IsFunctionFile, IsName;
  }

  lemma FunctionFilesAreNamed(entry: string)
    ensures IsFunctionFile(entry) <==> exists name: string :: IsName(name) && entry == name + ".ts"
  {
    ListingInvertsResolving("", entry);
    if IsFunctionFile(entry) {
      assert entry == Basename(entry) + ".ts";
    }
    if name: string :| IsName(name) && entry == name + ".ts" {
      ListingInvertsResolving(name, entry);
    }
    hide IsFunctionFile, IsName;
  }

  lemma SyncedListsSource(dir: Directory, source: Source)
    ensures FunctionNames(Synced(dir, source)) == if source.Missing? then {} else FunctionNames(source.dir)
  {
  }

  /** What the engine keys an import by: the file of a name, and the version in the query of its URL. */
  type ImportKey = (string, nat)

  /** Imports never run ahead of the version, and the cached modules are the imports of the current version. */
  ghost predicate Versioned(modules: map<string, Module>, version: nat, imports: map<ImportKey, Module>) {
    && (forall key :: key in imports ==> key.1 <= version)
    && (forall name :: name in modules <==> (name, version) in imports)
    && (forall name :: name in modules ==> modules[name] == imports[(name, version)])
  }

  /** Every cached module was executed from the file that is there now. */
  ghost predicate Coherent(modules: map<string, Module>, dir: Directory) {
    forall name :: name in modules ==> FileOf(name) in dir && modules[name] == Module(dir[FileOf(name)])
  }

  class Runtime {
    var files: Directory
    var modules: map<string, Module>
    var moduleVersion: nat
    var imports: map<ImportKey, Module>
    const consumers: Registry

    constructor (files: Directory)
      ensures Valid() && this.files == files && modules == map[] && fresh(consumers) && consumers.tasks == map[]
    {
      this.files := files;
      modules, moduleVersion, imports := map[], 1, map[];
      consumers := new Registry();
    }

    ghost predicate Valid()
      reads this, consumers
    {
      Versioned(modules, moduleVersion, imports) && consumers.Valid()
    }

    method ClearModuleCache()
      requires Valid()
      modifies this`modules, this`moduleVersion
      ensures Valid() && modules == map[] && moduleVersion == old(moduleVersion) + 1
    {
      modules := map[];
      moduleVersion := moduleVersion + 1;
    }

    /** After a sync the cache agrees with the files, however stale modules and imports were before. */
    method SyncRuntimeFunctionsDir(source: Source)
      requires Valid()
      modifies this`files, this`modules, this`moduleVersion
      ensures Valid() && Coherent(modules, files)
      ensures files == Synced(old(files), source)
      ensures modules == map[] && moduleVersion == old(moduleVersion) + 1
    {
      RemoveFunctionFiles();
      if source.Present? {
        CopyFunctionFiles(source.dir);
      }
      ClearModuleCache();
    }

    method RemoveFunctionFiles()
      modifies this`files
      ensures files == OthersIn(old(files))
    {
      hide IsFunctionFile;
      var entries := files.Keys;
      ghost var done: set<string> := {};
      while entries != {}
        invariant done + entries == old(files).Keys && done !! entries
        invariant files == map entry | entry in old(files) &&
          (entry in done ==> !IsFunctionFile(entry)) :: old(files)[entry]
        decreases entries
      {
        var entry :| entry in entries;
        entries := entries - {entry};
        done := done + {entry};
        if !IsFunctionFile(entry) {
          continue;
        }
        files := files - {entry};
      }
      assert done == old(files).Keys;
    }

    method CopyFunctionFiles(dir: Directory)
      modifies this`files
      ensures files == old(files) + FunctionsIn(dir)
    {
      hide IsFunctionFile;
      var entries := dir.Keys;
      ghost var done: set<string> := {};
      while entries != {}
        invariant done + entries == dir.Keys
        invariant files == old(files) + map entry | entry in dir && entry in done && IsFunctionFile(entry) :: dir[entry]
        decreases entries
      {
        var entry :| entry in entries;
        entries := entries - {entry};
        done := done + {entry};
        if !IsFunctionFile(entry) {
          continue;
        }
        files := files[entry := dir[entry]];
      }
      assert done == dir.Keys;
    }

    method ListFunctions() returns (names: set<string>)
      ensures names == FunctionNames(files)
    {
      hide IsFunctionFile, Basename;
      names := {};
      var entries := files.Keys;
      ghost var done: set<string> := {};
      while entries != {}
        invariant done + entries == files.Keys
        invariant names == set entry | entry in done && entry in files && IsFunctionFile(entry) :: Basename(entry)
        decreases entries
      {
        var entry :| entry in entries;
        entries := entries - {entry};
        done := done + {entry};
        if !IsFunctionFile(entry) {
          continue;
        }
        names := names + {Basename(entry)};
      }
      assert done == files.Keys;
    }

    /** Returns the cached module or imports the file; `raises` says whether a first execution fails. */
    method LoadModule(name: string, raises: bool) returns (r: LoadResult)
      requires Valid()
      modifies this`modules, this`imports
      ensures Valid()
      ensures old(imports).Keys <= imports.Keys && forall key :: key in old(imports) ==>
        imports[key] == old(imports)[key]
      ensures r.Loaded? <==> name in old(modules) || (name + ".ts" in files && !raises)
      ensures r.FileNotFound? <==> name !in old(modules) && name + ".ts" !in files
      ensures modules == if r.Loaded? then old(modules)[name := r.m] else old(modules)
      ensures name in old(modules) ==> r.m == old(modules)[name]
      ensures Coherent(old(modules), files) ==> Coherent(modules, files)
      ensures Coherent(old(modules), files) && r.Loaded? ==> name + ".ts" in files && r.m.text == files[name + ".ts"]
    {
      assert FileOf(name) == name + ".ts";
      hide FileOf;
      if name in modules {
        return Loaded(modules[name]);
      }
      if FileOf(name) !in files {
        return FileNotFound;
      }
      var key: ImportKey := (name, moduleVersion);
      if key !in imports {
        if raises {
          return ExecutionFailed;
        }
        imports := imports[key := Module(files[FileOf(name)])];
      }
      modules := modules[name := imports[key]];
      return Loaded(imports[key]);
    }

    method ReconcileConsumers()
      requires Valid()
      modifies consumers
      ensures Valid()
      ensures consumers.tasks.Keys == FunctionNames(files)
      ensures forall name :: name in consumers.tasks && name in old(consumers.tasks) ==>
        consumers.tasks[name] == old(consumers.tasks)[name]
      ensures consumers.cancelled == old(consumers.cancelled) + DroppedTasks(old(consumers.tasks), FunctionNames(files))
    {
      var desired := ListFunctions();
      consumers.Reconcile(desired);
    }

    /** A hook refresh; refreshes follow one another, since one watcher handles the hooks in turn. */
    method Refresh(source: Source)
      requires Valid()
      modifies this, consumers
      ensures Valid() && Coherent(modules, files)
      ensures files == Synced(old(files), source)
      ensures consumers.tasks.Keys == if source.Missing? then {} else FunctionNames(source.dir)
      ensures forall name :: name in consumers.tasks <==>
        source.Present? && name + ".ts" in source.dir && IsFunctionFile(name + ".ts")
      ensures forall name :: name in consumers.tasks && name in old(consumers.tasks) ==>
        consumers.tasks[name] == old(consumers.tasks)[name]
      ensures consumers.cancelled == old(consumers.cancelled) + DroppedTasks(old(consumers.tasks), consumers.tasks.Keys)
    {
      SyncRuntimeFunctionsDir(source);
      SyncedListsSource(old(files), source);
      ReconcileConsumers();
      if source.Present? {
        forall name
          ensures name in FunctionNames(source.dir) <==> name + ".ts" in source.dir && IsFunctionFile(name + ".ts")
        {
          ListedMeansLoadable(source.dir, name);
          ListingInvertsResolving(name, "");
        }
      }
      hide IsFunctionFile, IsName, Basename;
    }
  }
}
