/**
 * The sync that gives every function file of a repository a row and a GET endpoint, and the portal handler that
 * creates functions. The database keeps its uniqueness constraints by construction: functions of a project are
 * keyed by name, endpoints by name and method.
 */
module RepoSync {
  import opened Options
  import opened RepoTree
  import opened Text

  datatype Row = Row(id: nat, lang: string, path: string)

  type EndpointKey = (string, string)

  /** `requested` records the functions that the operator was asked to create. */
  datatype Db = Db(
    functions: map<string, Row>, endpoints: map<EndpointKey, nat>, nextId: nat, requested: seq<(string, string)>)

  /** Ids are unique and endpoints refer to functions. */
  ghost predicate Valid(db: Db) {
    && (forall n :: n in db.functions ==> db.functions[n].id < db.nextId)
    && (forall m, n :: m in db.functions && n in db.functions && db.functions[m].id == db.functions[n].id ==> m == n)
    && (forall k :: k in db.endpoints ==> db.endpoints[k] < db.nextId)
  }

  // The lookups made before the walk

  /**
   * `paths` gives for every path in use the id of a row with that path; which one, if there are several, is up to the
   * listing.
   */
  ghost predicate IsIndex(paths: map<string, nat>, db: Db) {
    && (forall n :: n in db.functions ==> db.functions[n].path in paths)
    && (forall p :: p in paths ==>
      exists n :: n in db.functions && db.functions[n].path == p && db.functions[n].id == paths[p])
  }

  /** The functions that have an endpoint with method `meth` among `keys`. */
  function Holders(endpoints: map<EndpointKey, nat>, keys: set<EndpointKey>, meth: string): set<nat> {
    set k | k in endpoints && k in keys && k.1 == meth :: endpoints[k]
  }

  function Gets(db: Db): set<nat> {
    Holders(db.endpoints, db.endpoints.Keys, "GET")
  }

  lemma HoldersGrow(endpoints: map<EndpointKey, nat>, keys: set<EndpointKey>, key: EndpointKey, meth: string)
    requires key in endpoints
    ensures Holders(endpoints, keys + {key}, meth) ==
      Holders(endpoints, keys, meth) + if key.1 == meth then {endpoints[key]} else {}
  {
  }

  function EndpointName(project: string, name: string): string {
    "/" + project + "/" + name
  }

  function GetKey(project: string, name: string): EndpointKey {
    (EndpointName(project, name), "GET")
  }

  /** The parts of an endpoint name can be read back. */
  lemma EndpointReadsBack(project: string, name: string)
    ensures Split(EndpointName(project, name), '/') == [""] + Split(project, '/') + Split(name, '/')
    ensures '/' !in project && '/' !in name ==> Split(EndpointName(project, name), '/') == ["", project, name]
  {
    SplitBoth("", project, '/');
    SplitBoth("/" + project, name, '/');
    assert "" + "/" + project == "/" + project;
    if '/' !in project && '/' !in name {
      SplitWhole(project, '/');
      SplitWhole(name, '/');
    }
    hide Split;
  }

  // What the walk does at one file

  function EnsureEndpoint(gets: set<nat>, db: Db, project: string, name: string, id: nat): Db {
    if id in gets || GetKey(project, name) in db.endpoints then db
    else db.(endpoints := db.endpoints[GetKey(project, name) := id])
  }

  function AddRow(db: Db, name: string, lang: string, path: string): Db {
    db.(functions := db.functions[name := Row(db.nextId, lang, path)], nextId := db.nextId + 1)
  }

  function Request(db: Db, name: string, lang: string): Db {
    db.(requested := db.requested + [(name, lang)])
  }

  function SyncFile(paths: map<string, nat>, gets: set<nat>, db: Db, project: string, path: string): Db {
    var name := NameOf(path);
    if LangOf(path).None? then db
    else if path in paths then EnsureEndpoint(gets, db, project, name, paths[path])
    else if name in db.functions then db
    else
      var lang := LangOf(path).value;
      Request(EnsureEndpoint(gets, AddRow(db, name, lang, path), project, name, db.nextId), name, lang)
  }

  /** The effect of a walk over `files`, looked up in what was there before the walk. */
  function SyncFiles(paths: map<string, nat>, gets: set<nat>, db: Db, project: string, files: seq<string>): Db {
    if files == [] then db
    else SyncFile(paths, gets, SyncFiles(paths, gets, db, project, files[..|files| - 1]), project, files[|files| - 1])
  }

  lemma {:induction false} SyncInParts(
      paths: map<string, nat>, gets: set<nat>, db: Db, project: string, a: seq<string>, b: seq<string>)
    ensures SyncFiles(paths, gets, db, project, a + b) ==
      SyncFiles(paths, gets, SyncFiles(paths, gets, db, project, a), project, b)
  {
    if b == [] {
      assert a + b == a;
    } else {
      assert (a + b)[..|a + b| - 1] == a + b[..|b| - 1];
      SyncInParts(paths, gets, db, project, a, b[..|b| - 1]);
    }
  }

  /** Every endpoint that a walk adds is the GET endpoint of a function file that it visits. */
  lemma {:induction false} AddedEndpointIsGet(
      paths: map<string, nat>, gets: set<nat>, db: Db, project: string, files: seq<string>, key: EndpointKey)
    returns (path: string)
    requires key in SyncFiles(paths, gets, db, project, files).endpoints && key !in db.endpoints
    ensures path in files && LangOf(path).Some? && key == GetKey(project, NameOf(path))
  {
    hide NameOf, LangOf, GetKey;
    var before := files[..|files| - 1];
    if key in SyncFiles(paths, gets, db, project, before).endpoints {
      path := AddedEndpointIsGet(paths, gets, db, project, before, key);
    } else {
      path := files[|files| - 1];
    }
  }

  /** The key is that of the endpoint which a function file of the repository gets. */
  ghost predicate IsEndpointOfFile(project: string, files: seq<string>, key: EndpointKey) {
    key.1 == "GET" && exists path :: path in files && LangOf(path).Some? && key.0 == "/" + project + "/" + NameOf(path)
  }

  datatype Created = Created(row: Row) | UnknownLanguage | NameTaken

  class Portal {
    var db: Db
    const project: string

    constructor (db: Db, project: string)
      ensures this.db == db && this.project == project
    {
      this.db, this.project := db, project;
    }

    /** The insert fails when the project has a function of that name. */
    method InsertFunction(name: string, lang: string, path: string) returns (id: Option<nat>)
      modifies this
      ensures name in old(db).functions ==> id.None? && db == old(db)
      ensures name !in old(db).functions ==> id == Some(old(db).nextId) && db == AddRow(old(db), name, lang, path)
    {
      if name in db.functions {
        return None;
      }
      id := Some(db.nextId);
      db := AddRow(db, name, lang, path);
    }

    /** The insert fails, and is only logged, when the project has an endpoint of that name and method. */
    method InsertEndpoint(name: string, meth: string, id: nat)
      modifies this
      ensures db == if (name, meth) in old(db).endpoints then old(db)
                    else old(db).(endpoints := old(db).endpoints[(name, meth) := id])
    {
      if (name, meth) !in db.endpoints {
        db := db.(endpoints := db.endpoints[(name, meth) := id]);
      }
    }

    method IndexPaths() returns (paths: map<string, nat>)
      ensures IsIndex(paths, db)
    {
      paths := map[];
      var names := db.functions.Keys;
      while names != {}
        invariant names <= db.functions.Keys
        invariant forall n :: n in db.functions && n !in names ==> db.functions[n].path in paths
        invariant forall p :: p in paths ==>
          exists n :: n in db.functions && db.functions[n].path == p && db.functions[n].id == paths[p]
        decreases names
      {
        var name :| name in names;
        names := names - {name};
        paths := paths[db.functions[name].path := db.functions[name].id];
      }
    }

    /** The methods that are already defined for each function. */
    method IndexMethods() returns (methods: map<nat, set<string>>)
      ensures forall id :: id in methods && "GET" in methods[id] <==> id in Gets(db)
    {
      methods := map[];
      var keys := db.endpoints.Keys;
      ghost var done: set<EndpointKey> := {};
      while keys != {}
        invariant done + keys == db.endpoints.Keys
        invariant forall id, m :: id in methods && m in methods[id] <==> id in Holders(db.endpoints, done, m)
        decreases keys
      {
        var key :| key in keys;
        keys := keys - {key};
        forall m {
          HoldersGrow(db.endpoints, done, key, m);
        }
        hide Holders;
        done := done + {key};
        var id := db.endpoints[key];
        if id !in methods {
          methods := methods[id := {}];
        }
        methods := methods[id := methods[id] + {key.1}];
      }
      assert done == db.endpoints.Keys;
    }

    method SyncOne(paths: map<string, nat>, methods: map<nat, set<string>>, path: string)
      modifies this
      ensures db == SyncFile(paths, WithGet(methods), old(db), project, path)
    {
      var ext := Ext(path);
      var lang := ExtLang(ext);
      if lang.None? {
        return;
      }
      var name := TrimSuffix(Base(path), ext);
      var id;
      var createdFn := false;
      if path in paths {
        id := paths[path];
      } else {
        var inserted := InsertFunction(name, lang.value, path);
        if inserted.None? {
          return;
        }
        id := inserted.value;
        createdFn := true;
      }
      if id !in methods || "GET" !in methods[id] {
        InsertEndpoint(EndpointName(project, name), "GET", id);
      }
      if createdFn {
        db := Request(db, name, lang.value);
      }
    }

    method Walk(paths: map<string, nat>, methods: map<nat, set<string>>, path: string, node: Node)
      modifies this
      ensures db == SyncFiles(paths, WithGet(methods), old(db), project, Visit(path, node))
      decreases node
    {
      match node
      case Unreadable =>
      case File =>
        assert Visit(path, node)[..0] == [];
        SyncOne(paths, methods, TrimPrefix(path, "/"));
      case Dir(entries) =>
        for i := 0 to |entries|
          invariant db == SyncFiles(paths, WithGet(methods), old(db), project, FilesUpTo(path, node, i))
        {
          var entry := entries[i];
          var below := path + "/" + entry.name;
          SyncInParts(paths, WithGet(methods), old(db), project, FilesUpTo(path, node, i), Visit(below, entry.node));
          Walk(paths, methods, below, entry.node);
        }
    }

    /** The whole sync. `root` is what stands at "/functions" in the checked-out repository. */
    method SyncRepoFunctions(root: Node) returns (ghost paths: map<string, nat>)
      modifies this
      ensures IsIndex(paths, old(db))
      ensures db == SyncFiles(paths, Gets(old(db)), old(db), project, Visit("/functions", root))
      ensures forall key :: key in db.endpoints && key !in old(db).endpoints ==>
        IsEndpointOfFile(project, Visit("/functions", root), key)
    {
      var known := IndexPaths();
      var methods := IndexMethods();
      paths := known;
      assert WithGet(methods) == Gets(db);
      Walk(known, methods, "/functions", root);
      forall key | key in db.endpoints && key !in old(db).endpoints
        ensures IsEndpointOfFile(project, Visit("/functions", root), key)
      {
        var path := AddedEndpointIsGet(paths, Gets(old(db)), old(db), project, Visit("/functions", root), key);
      }
    }

    /** The handler that creates a function; the file it commits is the one at the path of the row. */
    method CreateFunction(name: string, lang: string) returns (r: Created)
      modifies this
      ensures LangExt(lang).None? ==> r == UnknownLanguage && db == old(db)
      ensures LangExt(lang).Some? && name in old(db).functions ==> r == NameTaken && db == old(db)
      ensures LangExt(lang).Some? && name !in old(db).functions ==>
        && r == Created(Row(old(db).nextId, lang, FunctionPath(lang, name)))
        && db == Request(EnsureEndpoint({}, AddRow(old(db), name, lang, r.row.path), project, name, r.row.id),
                         name, lang)
        && ("/" + project + "/" + name, "GET") in db.endpoints
    {
      var ext := LangExt(lang);
      if ext.None? {
        return UnknownLanguage;
      }
      var names := db.functions.Keys;
      while names != {}
        invariant names <= db.functions.Keys && db == old(db)
        invariant name in db.functions ==> name in names
        decreases names
      {
        var taken :| taken in names;
        if taken == name {
          return NameTaken;
        }
        names := names - {taken};
      }
      var path := "functions/" + lang + "/" + name + ext.value;
      var id := InsertFunction(name, lang, path);
      InsertEndpoint(EndpointName(project, name), "GET", id.value);
      db := Request(db, name, lang);
      r := Created(Row(id.value, lang, path));
    }
  }

  function WithGet(methods: map<nat, set<string>>): set<nat> {
    set id | id in methods && "GET" in methods[id]
  }
}
