/**
 * Exactly when a sync leaves every function file with a row and a GET endpoint, and that a second sync adds nothing.
 */
module RepoSyncTheorems {
  import opened RepoSync
  import opened RepoSyncEndpoints
  import opened RepoSyncRows
  import opened RepoTree

  // Completeness

  /**
   * Every function file has a row, and the function it stands for has a GET endpoint; `index` looks rows up by path.
   */
  ghost predicate Complete(db: Db, index: map<string, nat>, files: seq<string>) {
    forall i :: 0 <= i < |files| && LangOf(files[i]).Some? ==> files[i] in index && index[files[i]] in Gets(db)
  }

  /** The endpoint names of the files that lack one are free, and their names differ from one another. */
  ghost predicate EndpointsAreFree(
      paths: map<string, nat>, gets: set<nat>, db: Db, project: string, files: seq<string>) {
    forall i :: 0 <= i < |files| && IsWanted(Served(paths, gets), files[i]) ==>
      && GetKey(project, NameOf(files[i])) !in db.endpoints
      && forall j :: 0 <= j < i && IsWanted(Served(paths, gets), files[j]) ==> NameOf(files[j]) != NameOf(files[i])
  }

  /** A later listing looks up what an earlier one did; rows are never removed in between. */
  ghost predicate Extends(paths: map<string, nat>, later: map<string, nat>) {
    forall p :: p in paths ==> p in later && later[p] == paths[p]
  }

  /**
   * Whichever way it is found, the id of a function file after the sync is the one a later listing gives for its path.
   */
  lemma LaterIndexFindsId(
      paths: map<string, nat>, gets: set<nat>, db: Db, project: string, files: seq<string>, later: map<string, nat>,
        path: string)
    requires var after := SyncFiles(paths, gets, db, project, files);
      && Valid(db) && IsIndex(paths, db) && IsIndex(later, after) && Extends(paths, later) && path in later
    ensures var after := SyncFiles(paths, gets, db, project, files);
      && (path in paths || NameOf(path) in after.functions) && later[path] == IdAt(paths, after, path)
  {
    var after := SyncFiles(paths, gets, db, project, files);
    if path !in paths {
      var n :| n in after.functions && after.functions[n].path == path && after.functions[n].id == later[path];
      RowsAfterSync(paths, gets, db, project, files, n);
      var k := FirstNamedIsFirst(paths.Keys, files, n);
    }
  }

  /** Two paths never share an id. */
  lemma IndexIsInjective(db: Db, index: map<string, nat>, p: string, q: string)
    requires Valid(db) && IsIndex(index, db) && p in index && q in index && index[p] == index[q]
    ensures p == q
  {
  }

  lemma FreeFileIsServed(
      paths: map<string, nat>, gets: set<nat>, db: Db, project: string, files: seq<string>, later: map<string, nat>,
        i: nat)
    requires Valid(db) && IsIndex(paths, db) && gets == Gets(db)
    requires NamesAreFree(paths, db, files) && EndpointsAreFree(paths, gets, db, project, files)
    requires IsIndex(later, SyncFiles(paths, gets, db, project, files)) && Extends(paths, later)
    requires i < |files| && LangOf(files[i]).Some?
    ensures files[i] in later && later[files[i]] in Gets(SyncFiles(paths, gets, db, project, files))
  {
    var after := SyncFiles(paths, gets, db, project, files);
    var name := NameOf(files[i]);
    SyncGrows(paths, gets, db, project, files);
    IndexIsOld(paths, db);
    if files[i] !in paths {
      FreeNameGetsRow(paths, gets, db, project, files, i);
    }
    LaterIndexFindsId(paths, gets, db, project, files, later, files[i]);
    EndpointsWhenFree(paths, gets, db, project, files, name);
    hide NameOf, LangOf, SyncFiles, GetKey, NamesAreFree, Valid, IsIndex;
    if files[i] in Served(paths, gets) {
      var k :| k in db.endpoints && k.1 == "GET" && db.endpoints[k] == paths[files[i]];
      assert k in after.endpoints;
    } else {
      var first := FirstNamedIsFirst(Served(paths, gets), files, name);
      assert first == i;
      GetKeyIsGet(project, name);
      assert GetKey(project, name) in after.endpoints;
    }
  }

  lemma ServedFileIsFree(
      paths: map<string, nat>, gets: set<nat>, db: Db, project: string, files: seq<string>, later: map<string, nat>,
        i: nat)
    requires Valid(db) && IsIndex(paths, db) && gets == Gets(db) && Distinct(files) && NamesAreFree(paths, db, files)
    requires IsIndex(later, SyncFiles(paths, gets, db, project, files)) && Extends(paths, later)
    requires i < |files| && IsWanted(Served(paths, gets), files[i])
    requires files[i] in later && later[files[i]] in Gets(SyncFiles(paths, gets, db, project, files))
    ensures GetKey(project, NameOf(files[i])) !in db.endpoints
    ensures forall j :: 0 <= j < i && IsWanted(Served(paths, gets), files[j]) ==> NameOf(files[j]) != NameOf(files[i])
  {
    var after := SyncFiles(paths, gets, db, project, files);
    SyncGrows(paths, gets, db, project, files);
    IndexIsOld(paths, db);
    SyncKeepsValid(paths, gets, db, project, files);
    var k: EndpointKey :| k in after.endpoints && k.1 == "GET" && after.endpoints[k] == later[files[i]];
    LateIdHasNoOldEndpoint(paths, gets, db, project, files, later, i, k);
    var asking := AddedEndpointIsGet(paths, gets, db, project, files, k);
    var n := NameOf(asking);
    EndpointsWhenFree(paths, gets, db, project, files, n);
    var first := FirstNamedIsFirst(Served(paths, gets), files, n);
    hide NameOf, LangOf, SyncFiles, GetKey, NamesAreFree;
    var q := files[first];
    assert q in later by {
      if q !in paths {
        var m := NameOf(q);
        assert after.functions[m].path in later;
        FreeNameGetsRow(paths, gets, db, project, files, first);
      }
    }
    LaterIndexFindsId(paths, gets, db, project, files, later, q);
    LaterIndexFindsId(paths, gets, db, project, files, later, files[i]);
    IndexIsInjective(after, later, q, files[i]);
    assert first == i;
  }

  lemma LateIdHasNoOldEndpoint(
      paths: map<string, nat>, gets: set<nat>, db: Db, project: string, files: seq<string>, later: map<string, nat>,
        i: nat, k: EndpointKey)
    requires Valid(db) && IsIndex(paths, db) && gets == Gets(db) && NamesAreFree(paths, db, files)
    requires IsIndex(later, SyncFiles(paths, gets, db, project, files)) && Extends(paths, later)
    requires i < |files| && IsWanted(Served(paths, gets), files[i]) && files[i] in later
    requires k.1 == "GET" && (k in db.endpoints ==> db.endpoints[k] == later[files[i]])
    ensures k !in db.endpoints
  {
    LaterIndexFindsId(paths, gets, db, project, files, later, files[i]);
    if files[i] !in paths {
      FreeNameGetsRow(paths, gets, db, project, files, i);
    }
    hide NameOf, LangOf, SyncFiles, GetKey, NamesAreFree;
  }

  /**
   * A sync leaves every function file with a row and a GET endpoint if and only if the names of the new files are free
   * and distinct, and so are the endpoint names of those that lack an endpoint.
   */
  lemma CompleteIffNamesFree(
      paths: map<string, nat>, gets: set<nat>, db: Db, project: string, files: seq<string>, later: map<string, nat>)
    requires Valid(db) && IsIndex(paths, db) && gets == Gets(db) && Distinct(files)
    requires IsIndex(later, SyncFiles(paths, gets, db, project, files)) && Extends(paths, later)
    ensures Complete(SyncFiles(paths, gets, db, project, files), later, files)
       <==> NamesAreFree(paths, db, files) && EndpointsAreFree(paths, gets, db, project, files)
  {
    var after := SyncFiles(paths, gets, db, project, files);
    AllRowsIffNamesFree(paths, gets, db, project, files);
    hide NameOf, LangOf, SyncFiles, NamesAreFree, Valid, Gets;
    if NamesAreFree(paths, db, files) && EndpointsAreFree(paths, gets, db, project, files) {
      forall i | 0 <= i < |files| && LangOf(files[i]).Some?
        ensures files[i] in later && later[files[i]] in Gets(after)
      {
        FreeFileIsServed(paths, gets, db, project, files, later, i);
      }
    }
    if Complete(after, later, files) {
      assert AllHaveRows(after, files);
      forall i | 0 <= i < |files| && IsWanted(Served(paths, gets), files[i])
        ensures GetKey(project, NameOf(files[i])) !in db.endpoints
        ensures forall j :: 0 <= j < i && IsWanted(Served(paths, gets), files[j]) ==>
          NameOf(files[j]) != NameOf(files[i])
      {
        ServedFileIsFree(paths, gets, db, project, files, later, i);
      }
    }
  }

  // A second sync

  /** What a walk leaves behind at a file: another walk finds nothing to do there. */
  ghost predicate Settled(paths: map<string, nat>, gets: set<nat>, after: Db, project: string, path: string) {
    LangOf(path).Some? ==>
      if path in paths then paths[path] in gets || GetKey(project, NameOf(path)) in after.endpoints
      else
        && NameOf(path) in after.functions
        && (after.functions[NameOf(path)].path == path ==> GetKey(project, NameOf(path)) in after.endpoints)
  }

  lemma SettledStays(paths: map<string, nat>, gets: set<nat>, a: Db, b: Db, project: string, path: string)
    requires Settled(paths, gets, a, project, path) && Grows(a, b)
    ensures Settled(paths, gets, b, project, path)
  {
  }

  lemma FileSettles(paths: map<string, nat>, gets: set<nat>, db: Db, project: string, path: string)
    requires LangOf(path).Some? && path !in paths && NameOf(path) in db.functions &&
      db.functions[NameOf(path)].path == path
      ==> GetKey(project, NameOf(path)) in db.endpoints
    requires forall id :: id in gets ==> id < db.nextId
    ensures Settled(paths, gets, SyncFile(paths, gets, db, project, path), project, path)
  {
  }

  lemma {:induction false} WalkSettles(
      paths: map<string, nat>, gets: set<nat>, db: Db, project: string, files: seq<string>, i: nat)
    requires Valid(db) && IsIndex(paths, db) && gets == Gets(db) && i < |files|
    ensures Settled(paths, gets, SyncFiles(paths, gets, db, project, files), project, files[i])
  {
    var before, last := files[..|files| - 1], files[|files| - 1];
    var so := SyncFiles(paths, gets, db, project, before);
    if i < |files| - 1 {
      WalkSettles(paths, gets, db, project, before, i);
      SyncFileGrows(paths, gets, so, project, last);
      SettledStays(paths, gets, so, SyncFile(paths, gets, so, project, last), project, files[i]);
    } else {
      IndexIsOld(paths, db);
      SyncGrows(paths, gets, db, project, before);
      if LangOf(last).Some? && last !in paths && NameOf(last) in so.functions &&
        so.functions[NameOf(last)].path == last {
        RowsAfterSync(paths, gets, db, project, before, NameOf(last));
        var k := FirstNamedIsFirst(paths.Keys, before, NameOf(last));
        WalkSettles(paths, gets, db, project, before, k);
      }
      FileSettles(paths, gets, so, project, last);
    }
  }

  /**
   * The listing of the second sync leads, at every file, to a function that has a GET endpoint or cannot get one any
   * more.
   */
  ghost predicate NothingToAsk(later: map<string, nat>, after: Db, project: string, files: seq<string>) {
    forall i :: 0 <= i < |files| && LangOf(files[i]).Some? && files[i] in later ==>
      later[files[i]] in Gets(after) || GetKey(project, NameOf(files[i])) in after.endpoints
  }

  /** At a file that the first walk settled, the second one changes nothing. */
  lemma NothingLeftAt(
      paths: map<string, nat>, gets: set<nat>, db: Db, project: string, files: seq<string>, later: map<string, nat>,
        i: nat)
    requires Valid(db) && IsIndex(paths, db) && gets == Gets(db) && i < |files|
    requires IsIndex(later, SyncFiles(paths, gets, db, project, files))
    requires NothingToAsk(later, SyncFiles(paths, gets, db, project, files), project, files)
    ensures var after := SyncFiles(paths, gets, db, project, files);
      SyncFile(later, Gets(after), after, project, files[i]) == after
  {
    var after := SyncFiles(paths, gets, db, project, files);
    WalkSettles(paths, gets, db, project, files, i);
    SyncGrows(paths, gets, db, project, files);
    IndexGrows(paths, db, later, after);
    hide NameOf, LangOf, GetKey, SyncFiles, Gets, Valid, IsIndex;
  }

  lemma IndexGrows(paths: map<string, nat>, db: Db, later: map<string, nat>, after: Db)
    requires IsIndex(paths, db) && IsIndex(later, after) && Grows(db, after)
    ensures forall p :: p in paths ==> p in later
  {
    forall p | p in paths
      ensures p in later
    {
      var n :| n in db.functions && db.functions[n].path == p && db.functions[n].id == paths[p];
      assert n in after.functions;
    }
  }

  lemma {:induction false} SecondWalk(
      paths: map<string, nat>, gets: set<nat>, db: Db, project: string, files: seq<string>, later: map<string, nat>,
        n: nat)
    requires Valid(db) && IsIndex(paths, db) && gets == Gets(db) && n <= |files|
    requires IsIndex(later, SyncFiles(paths, gets, db, project, files))
    requires NothingToAsk(later, SyncFiles(paths, gets, db, project, files), project, files)
    ensures var after := SyncFiles(paths, gets, db, project, files);
      SyncFiles(later, Gets(after), after, project, files[..n]) == after
  {
    hide Valid, IsIndex, Gets, SyncFile, NothingToAsk;
    if n > 0 {
      SecondWalk(paths, gets, db, project, files, later, n - 1);
      NothingLeftAt(paths, gets, db, project, files, later, n - 1);
      assert files[..n][..n - 1] == files[..n - 1];
    }
  }

  /**
   * A second sync of the same repository changes nothing, whatever the first one could and could not add, if and only
   * if its listing leaves nothing to ask for: the listing may lead to another row where several have one path.
   */
  lemma SecondSyncAddsNothingIff(
      paths: map<string, nat>, gets: set<nat>, db: Db, project: string, files: seq<string>, later: map<string, nat>)
    requires Valid(db) && IsIndex(paths, db) && gets == Gets(db)
    requires IsIndex(later, SyncFiles(paths, gets, db, project, files))
    ensures var after := SyncFiles(paths, gets, db, project, files);
      SyncFiles(later, Gets(after), after, project, files) == after <==> NothingToAsk(later, after, project, files)
  {
    var after := SyncFiles(paths, gets, db, project, files);
    if NothingToAsk(later, after, project, files) {
      SecondWalk(paths, gets, db, project, files, later, |files|);
      assert files[..|files|] == files;
    }
    IndexIsOld(paths, db);
    SyncKeepsValid(paths, gets, db, project, files);
    forall i | 0 <= i < |files|
      ensures Settled(later, Gets(after), SyncFiles(later, Gets(after), after, project, files), project, files[i])
    {
      WalkSettles(later, Gets(after), after, project, files, i);
    }
    hide SyncFiles, NameOf, LangOf, GetKey, Gets;
  }

  /** So it changes nothing when each path that several rows have is looked up as it was the first time. */
  lemma SecondSyncAddsNothing(
      paths: map<string, nat>, gets: set<nat>, db: Db, project: string, files: seq<string>, later: map<string, nat>)
    requires Valid(db) && IsIndex(paths, db) && gets == Gets(db)
    requires IsIndex(later, SyncFiles(paths, gets, db, project, files)) && Extends(paths, later)
    ensures var after := SyncFiles(paths, gets, db, project, files);
      SyncFiles(later, Gets(after), after, project, files) == after
  {
    var after := SyncFiles(paths, gets, db, project, files);
    SecondSyncAddsNothingIff(paths, gets, db, project, files, later);
    GetsGrow(paths, gets, db, project, files);
    forall i | 0 <= i < |files| && LangOf(files[i]).Some? && files[i] in later
      ensures later[files[i]] in Gets(after) || GetKey(project, NameOf(files[i])) in after.endpoints
    {
      WalkSettles(paths, gets, db, project, files, i);
      LaterIndexFindsId(paths, gets, db, project, files, later, files[i]);
      if files[i] !in paths {
        var n :| n in after.functions && after.functions[n].path == files[i] &&
          after.functions[n].id == later[files[i]];
        RowsAfterSync(paths, gets, db, project, files, n);
        var k := FirstNamedIsFirst(paths.Keys, files, n);
      }
    }
    hide SyncFiles, NameOf, LangOf, GetKey, Gets;
  }

  lemma GetsGrow(paths: map<string, nat>, gets: set<nat>, db: Db, project: string, files: seq<string>)
    ensures Gets(db) <= Gets(SyncFiles(paths, gets, db, project, files))
  {
    SyncGrows(paths, gets, db, project, files);
    hide SyncFiles;
  }

  // Whole repositories

  ghost predicate PathsAreUnique(db: Db) {
    forall m, n :: m in db.functions && n in db.functions && db.functions[m].path == db.functions[n].path ==> m == n
  }

  /** When no two rows share a path, every listing after the sync looks up what the one before it did. */
  lemma ListingsAgree(
      paths: map<string, nat>, gets: set<nat>, db: Db, project: string, files: seq<string>, later: map<string, nat>)
    requires IsIndex(paths, db) && PathsAreUnique(db) && IsIndex(later, SyncFiles(paths, gets, db, project, files))
    ensures Extends(paths, later) && PathsAreUnique(SyncFiles(paths, gets, db, project, files))
  {
    var after := SyncFiles(paths, gets, db, project, files);
    SyncGrows(paths, gets, db, project, files);
    forall m, n | m in after.functions && n in after.functions && after.functions[m].path == after.functions[n].path
      ensures m == n
    {
      if m !in db.functions {
        RowsAddedOncePerPath(paths, gets, db, project, files, m, n);
      } else if n !in db.functions {
        RowsAddedOncePerPath(paths, gets, db, project, files, n, m);
      }
    }
    hide SyncFiles;
  }

  /**
   * For a database without shared paths and a well-formed repository: the promise, exactly when it holds, and its
   * stability.
   */
  lemma SyncOfRepository(paths: map<string, nat>, db: Db, project: string, root: Node, later: map<string, nat>)
    requires Valid(db) && PathsAreUnique(db) && IsIndex(paths, db) && WellFormed(root)
    requires IsIndex(later, SyncFiles(paths, Gets(db), db, project, Visit("/functions", root)))
    ensures var files := Visit("/functions", root);
      var after := SyncFiles(paths, Gets(db), db, project, files);
      && (Complete(after, later, files) <==>
          NamesAreFree(paths, db, files) && EndpointsAreFree(paths, Gets(db), db, project, files))
      && SyncFiles(later, Gets(after), after, project, files) == after
  {
    var files := Visit("/functions", root);
    WalkVisitsOnce("/functions", root);
    ListingsAgree(paths, Gets(db), db, project, files, later);
    hide Valid, IsIndex, NamesAreFree, EndpointsAreFree, Complete, Distinct, Visit, Gets;
    CompleteIffNamesFree(paths, Gets(db), db, project, files, later);
    SecondSyncAddsNothing(paths, Gets(db), db, project, files, later);
  }
}
