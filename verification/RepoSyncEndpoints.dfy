/**
 * The endpoints that a sync of a repository with the database adds: which, for which files, and one at most for a
 * function.
 */
module RepoSyncEndpoints {
  import opened Options
  import opened RepoSync
  import opened RepoSyncRows
  import opened RepoTree

  /** The paths whose function has a GET endpoint before the sync. */
  function Served(paths: map<string, nat>, gets: set<nat>): set<string> {
    set p | p in paths && paths[p] in gets
  }

  /** The id that the sync works with at a path. */
  function IdAt(paths: map<string, nat>, db: Db, path: string): nat
    requires path in paths || NameOf(path) in db.functions
  {
    if path in paths then paths[path] else db.functions[NameOf(path)].id
  }

  lemma EndpointNamesDiffer(project: string, m: string, n: string)
    requires GetKey(project, m) == GetKey(project, n)
    ensures m == n
  {
    var prefix := "/" + project + "/";
    assert EndpointName(project, m)[|prefix|..] == m && EndpointName(project, n)[|prefix|..] == n;
  }

  /** The new files whose insert is refused: their name is taken, or an earlier new file has it. */
  function Refused(paths: map<string, nat>, db: Db, files: seq<string>): set<string> {
    set p | p in files && p !in paths &&
      (NameOf(p) in db.functions || FirstNamed(paths.Keys, files, NameOf(p)) != Some(p))
  }

  /** The files at which the sync does not ask for an endpoint. */
  function Passed(paths: map<string, nat>, gets: set<nat>, db: Db, files: seq<string>): set<string> {
    Served(paths, gets) + Refused(paths, db, files)
  }

  /**
   * The GET endpoint of a name after a sync: the one it had, or one for the first file of that name outside `passed`.
   */
  ghost predicate EndpointAsExpected(
      passed: set<string>, paths: map<string, nat>, db: Db, project: string, files: seq<string>, after: Db,
        name: string) {
    var key := GetKey(project, name);
    if key in db.endpoints then key in after.endpoints && after.endpoints[key] == db.endpoints[key]
    else
      match FirstNamed(passed, files, name)
      case None => key !in after.endpoints
      case Some(path) =>
        && (path in paths || (NameOf(path) in after.functions && after.functions[NameOf(path)].path == path))
        && key in after.endpoints && after.endpoints[key] == IdAt(paths, after, path)
  }

  lemma {:induction false} FirstNamedDependsOn(c: set<string>, d: set<string>, files: seq<string>, name: string)
    requires forall p :: p in files && LangOf(p).Some? ==> (p in c <==> p in d)
    ensures FirstNamed(c, files, name) == FirstNamed(d, files, name)
  {
    hide NameOf, LangOf;
    if files != [] {
      FirstNamedDependsOn(c, d, files[..|files| - 1], name);
    }
  }

  /** Whether a file is refused is decided by the files up to it. */
  lemma RefusedOfFewer(paths: map<string, nat>, db: Db, files: seq<string>, p: string)
    requires files != [] && p in files[..|files| - 1]
    ensures p in Refused(paths, db, files) <==> p in Refused(paths, db, files[..|files| - 1])
  {
    var before := files[..|files| - 1];
    var k := FirstNamedIsFirst(paths.Keys, before, NameOf(p));
    var l := FirstNamedIsFirst(paths.Keys, files, NameOf(p));
    hide NameOf, LangOf;
    var i :| 0 <= i < |before| && before[i] == p;
    assert files[i] == p;
  }

  /** At the last file the insert is refused exactly when its name is taken by then. */
  lemma LastIsRefused(paths: map<string, nat>, gets: set<nat>, db: Db, project: string, files: seq<string>)
    requires files != [] && IsWanted(paths.Keys, files[|files| - 1]) && files[|files| - 1] !in files[..|files| - 1]
    ensures files[|files| - 1] in Refused(paths, db, files)
       <==> NameOf(files[|files| - 1]) in SyncFiles(paths, gets, db, project, files[..|files| - 1]).functions
  {
    var before, last := files[..|files| - 1], files[|files| - 1];
    RowsAfterSync(paths, gets, db, project, before, NameOf(last));
    var k := FirstNamedIsFirst(paths.Keys, before, NameOf(last));
    hide NameOf, LangOf, SyncFiles;
  }

  /** A file that comes again changes nothing. */
  lemma SecondVisitIsIdle(
      paths: map<string, nat>, gets: set<nat>, db: Db, project: string, files: seq<string>, path: string)
    requires forall id :: id in gets ==> id < db.nextId
    requires path in files && LangOf(path).Some?
    ensures var so := SyncFiles(paths, gets, db, project, files); SyncFile(paths, gets, so, project, path) == so
  {
    var so := SyncFiles(paths, gets, db, project, files);
    var i :| 0 <= i < |files| && files[i] == path;
    if path in paths {
      KnownIsEnsured(paths, gets, db, project, files, i);
    } else {
      RowsAfterSync(paths, gets, db, project, files, NameOf(path));
      var k := FirstNamedIsFirst(paths.Keys, files, NameOf(path));
    }
    hide NameOf, LangOf, GetKey, SyncFiles;
  }

  lemma {:induction false} KnownIsEnsured(
      paths: map<string, nat>, gets: set<nat>, db: Db, project: string, files: seq<string>, i: nat)
    requires i < |files| && LangOf(files[i]).Some? && files[i] in paths
    ensures paths[files[i]] in gets ||
      GetKey(project, NameOf(files[i])) in SyncFiles(paths, gets, db, project, files).endpoints
  {
    var before, last := files[..|files| - 1], files[|files| - 1];
    if i < |before| {
      KnownIsEnsured(paths, gets, db, project, before, i);
      SyncFileGrows(paths, gets, SyncFiles(paths, gets, db, project, before), project, last);
    }
    hide NameOf, LangOf, GetKey;
  }

  /**
   * What every sync does to the GET endpoint of a name, inserts that are refused included: a free endpoint name is
   * taken exactly when some file of that name gets as far as asking, by the first such file.
   */
  lemma {:induction false} EndpointsAfterSync(
      paths: map<string, nat>, gets: set<nat>, db: Db, project: string, files: seq<string>, name: string)
    requires forall id :: id in gets ==> id < db.nextId
    ensures EndpointAsExpected(
      Passed(paths, gets, db, files), paths, db, project, files, SyncFiles(paths, gets, db, project, files), name)
  {
    if files != [] {
      var before, last := files[..|files| - 1], files[|files| - 1];
      var so := SyncFiles(paths, gets, db, project, before);
      EndpointsAfterSync(paths, gets, db, project, before, name);
      PassedOfFewer(paths, gets, db, files, name);
      if last in before && LangOf(last).Some? {
        SecondVisitIsIdle(paths, gets, db, project, before, last);
        RepeatedIsNotFirst(Passed(paths, gets, db, files), files, name);
      } else {
        SyncGrows(paths, gets, db, project, before);
        LastFileEndpoint(paths, gets, db, project, files, name);
      }
    }
  }

  lemma PassedOfFewer(paths: map<string, nat>, gets: set<nat>, db: Db, files: seq<string>, name: string)
    requires files != []
    ensures var before := files[..|files| - 1];
      FirstNamed(Passed(paths, gets, db, files), before, name) ==
        FirstNamed(Passed(paths, gets, db, before), before, name)
  {
    var before := files[..|files| - 1];
    forall p | p in before
      ensures p in Passed(paths, gets, db, files) <==> p in Passed(paths, gets, db, before)
    {
      RefusedOfFewer(paths, db, files, p);
    }
    hide Passed;
    FirstNamedDependsOn(Passed(paths, gets, db, files), Passed(paths, gets, db, before), before, name);
  }

  lemma RepeatedIsNotFirst(covered: set<string>, files: seq<string>, name: string)
    requires files != [] && files[|files| - 1] in files[..|files| - 1]
    ensures FirstNamed(covered, files, name) == FirstNamed(covered, files[..|files| - 1], name)
  {
    var k := FirstNamedIsFirst(covered, files[..|files| - 1], name);
    hide NameOf, IsWanted;
  }

  lemma LastFileEndpoint(
      paths: map<string, nat>, gets: set<nat>, db: Db, project: string, files: seq<string>, name: string)
    requires files != [] && forall id :: id in gets ==> id < db.nextId
    requires files[|files| - 1] in files[..|files| - 1] ==> LangOf(files[|files| - 1]).None?
    requires var before := files[..|files| - 1]; var so := SyncFiles(paths, gets, db, project, before);
      Grows(db, so) && EndpointAsExpected(Passed(paths, gets, db, files), paths, db, project, before, so, name)
    ensures EndpointAsExpected(
      Passed(paths, gets, db, files), paths, db, project, files, SyncFiles(paths, gets, db, project, files), name)
  {
    var last := files[|files| - 1];
    if IsWanted(paths.Keys, last) {
      LastIsRefused(paths, gets, db, project, files);
    }
    hide NameOf, LangOf, GetKey;
    if LangOf(last).Some? && GetKey(project, name) == GetKey(project, NameOf(last)) {
      EndpointNamesDiffer(project, name, NameOf(last));
    }
    hide Refused;
  }

  /** No insert is refused when the names of the new files are free and distinct. */
  lemma NothingRefused(paths: map<string, nat>, gets: set<nat>, db: Db, files: seq<string>, name: string)
    requires NamesAreFree(paths, db, files)
    ensures FirstNamed(Passed(paths, gets, db, files), files, name) == FirstNamed(Served(paths, gets), files, name)
  {
    forall p | p in files && LangOf(p).Some?
      ensures p !in Refused(paths, db, files)
    {
      var i :| 0 <= i < |files| && files[i] == p;
      var k := FirstNamedIsFirst(paths.Keys, files, NameOf(p));
    }
    hide NameOf, LangOf, Refused;
    FirstNamedDependsOn(Passed(paths, gets, db, files), Served(paths, gets), files, name);
  }

  lemma EndpointsWhenFree(
      paths: map<string, nat>, gets: set<nat>, db: Db, project: string, files: seq<string>, name: string)
    requires NamesAreFree(paths, db, files) && forall id :: id in gets ==> id < db.nextId
    ensures EndpointAsExpected(
      Served(paths, gets), paths, db, project, files, SyncFiles(paths, gets, db, project, files), name)
  {
    EndpointsAfterSync(paths, gets, db, project, files, name);
    NothingRefused(paths, gets, db, files, name);
    hide NameOf, LangOf, SyncFiles, GetKey, Passed, Served;
  }

  /**
   * At most one endpoint is added for a function, whatever inserts are refused, and none for a function that has a GET
   * endpoint; every endpoint added is a GET endpoint.
   */
  lemma EndpointsAddedOncePerFunction(
      paths: map<string, nat>, gets: set<nat>, db: Db, project: string, files: seq<string>, j: EndpointKey,
        k: EndpointKey)
    requires Valid(db) && IsIndex(paths, db) && gets == Gets(db)
    requires var after := SyncFiles(paths, gets, db, project, files);
      && j in after.endpoints && j !in db.endpoints && k in after.endpoints && k !in db.endpoints
      && after.endpoints[j] == after.endpoints[k]
    ensures j == k && j.1 == "GET" && SyncFiles(paths, gets, db, project, files).endpoints[j] !in gets
  {
    var p := AddedFor(paths, gets, db, project, files, j);
    var q := AddedFor(paths, gets, db, project, files, k);
    var after := SyncFiles(paths, gets, db, project, files);
    IndexIsOld(paths, db);
    SyncKeepsValid(paths, gets, db, project, files);
    SyncGrows(paths, gets, db, project, files);
    hide SyncFiles, NameOf, GetKey;
    IdTellsPath(paths, db, after, p, q);
    GetKeyIsGet(project, NameOf(p));
  }

  /** The file behind an added endpoint. */
  lemma AddedFor(
      paths: map<string, nat>, gets: set<nat>, db: Db, project: string, files: seq<string>, key: EndpointKey)
    returns (path: string)
    requires Valid(db) && IsIndex(paths, db) && gets == Gets(db)
    requires key in SyncFiles(paths, gets, db, project, files).endpoints && key !in db.endpoints
    ensures var after := SyncFiles(paths, gets, db, project, files);
      && key == GetKey(project, NameOf(path))
      && (path in paths || (NameOf(path) in after.functions && after.functions[NameOf(path)].path == path))
      && after.endpoints[key] == IdAt(paths, after, path) && after.endpoints[key] !in gets
  {
    IndexIsOld(paths, db);
    var asking := AddedEndpointIsGet(paths, gets, db, project, files, key);
    EndpointsAfterSync(paths, gets, db, project, files, NameOf(asking));
    var i := FirstNamedIsFirst(Passed(paths, gets, db, files), files, NameOf(asking));
    path := files[i];
    if path !in paths {
      RowsAfterSync(paths, gets, db, project, files, NameOf(path));
      NewIsNotInIndex(paths, gets, db, project, files, path);
    }
    hide SyncFiles, NameOf, GetKey, LangOf, Refused, Valid, IsIndex, Gets;
  }

  lemma NewIsNotInIndex(
      paths: map<string, nat>, gets: set<nat>, db: Db, project: string, files: seq<string>, path: string)
    requires IsIndex(paths, db) && path !in paths
    requires var after := SyncFiles(paths, gets, db, project, files);
      NameOf(path) in after.functions && after.functions[NameOf(path)].path == path
    ensures SyncFiles(paths, gets, db, project, files).functions[NameOf(path)].id >= db.nextId
  {
    RowsAfterSync(paths, gets, db, project, files, NameOf(path));
    var k := FirstNamedIsFirst(paths.Keys, files, NameOf(path));
    hide SyncFiles, NameOf;
  }

  /** An id stands for one path. */
  lemma IdTellsPath(paths: map<string, nat>, db: Db, after: Db, p: string, q: string)
    requires IsIndex(paths, db) && Grows(db, after) && Valid(after)
    requires p in paths || (NameOf(p) in after.functions && after.functions[NameOf(p)].path == p)
    requires q in paths || (NameOf(q) in after.functions && after.functions[NameOf(q)].path == q)
    requires IdAt(paths, after, p) == IdAt(paths, after, q)
    ensures p == q
  {
    var m := RowAt(paths, db, after, p);
    var n := RowAt(paths, db, after, q);
    assert m == n;
  }

  lemma RowAt(paths: map<string, nat>, db: Db, after: Db, p: string) returns (n: string)
    requires IsIndex(paths, db) && Grows(db, after)
    requires p in paths || (NameOf(p) in after.functions && after.functions[NameOf(p)].path == p)
    ensures n in after.functions && after.functions[n].path == p && after.functions[n].id == IdAt(paths, after, p)
  {
    n := NameOf(p);
    if p in paths {
      n :| n in db.functions && db.functions[n].path == p && db.functions[n].id == paths[p];
    }
  }

  lemma IndexIsOld(paths: map<string, nat>, db: Db)
    requires Valid(db) && IsIndex(paths, db)
    ensures forall p :: p in paths ==> paths[p] < db.nextId
    ensures forall id :: id in Gets(db) ==> id < db.nextId
  {
  }

  lemma GetKeyIsGet(project: string, name: string)
    ensures GetKey(project, name).1 == "GET"
  {
  }
}
