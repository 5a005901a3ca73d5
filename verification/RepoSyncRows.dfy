/** The rows that a sync of a repository with the database adds, and exactly when every function file gets one. */
module RepoSyncRows {
  import opened Options
  import opened RepoSync
  import opened RepoTree

  /** Nothing that was there is changed or removed. */
  ghost predicate Grows(a: Db, b: Db) {
    && (forall n :: n in a.functions ==> n in b.functions && b.functions[n] == a.functions[n])
    && (forall k :: k in a.endpoints ==> k in b.endpoints && b.endpoints[k] == a.endpoints[k])
    && a.nextId <= b.nextId
  }

  lemma SyncFileGrows(paths: map<string, nat>, gets: set<nat>, db: Db, project: string, path: string)
    ensures Grows(db, SyncFile(paths, gets, db, project, path))
  {
  }

  lemma {:induction false} SyncGrows(
      paths: map<string, nat>, gets: set<nat>, db: Db, project: string, files: seq<string>)
    ensures Grows(db, SyncFiles(paths, gets, db, project, files))
  {
    hide SyncFile;
    if files != [] {
      var before := files[..|files| - 1];
      SyncGrows(paths, gets, db, project, before);
      SyncFileGrows(paths, gets, SyncFiles(paths, gets, db, project, before), project, files[|files| - 1]);
    }
  }

  lemma SyncFileKeepsValid(paths: map<string, nat>, gets: set<nat>, db: Db, project: string, path: string)
    requires Valid(db) && forall p :: p in paths ==> paths[p] < db.nextId
    ensures Valid(SyncFile(paths, gets, db, project, path))
  {
    hide NameOf, LangOf, GetKey;
  }

  lemma {:induction false} SyncKeepsValid(
      paths: map<string, nat>, gets: set<nat>, db: Db, project: string, files: seq<string>)
    requires Valid(db) && forall p :: p in paths ==> paths[p] < db.nextId
    ensures Valid(SyncFiles(paths, gets, db, project, files))
  {
    hide SyncFile, Valid;
    if files != [] {
      var before := files[..|files| - 1];
      SyncKeepsValid(paths, gets, db, project, before);
      SyncGrows(paths, gets, db, project, before);
      SyncFileKeepsValid(paths, gets, SyncFiles(paths, gets, db, project, before), project, files[|files| - 1]);
    }
  }

  // Rows

  /** A function file whose path is not among `covered`; for rows these are the paths that had one before the sync. */
  predicate IsWanted(covered: set<string>, path: string) {
    LangOf(path).Some? && path !in covered
  }

  /** The first wanted file of a name in the order of the walk. */
  function FirstNamed(covered: set<string>, files: seq<string>, name: string): Option<string> {
    if files == [] then None
    else
      var first := FirstNamed(covered, files[..|files| - 1], name);
      var last := files[|files| - 1];
      if first.Some? then first
      else if IsWanted(covered, last) && NameOf(last) == name then Some(last)
      else None
  }

  lemma {:induction false} FirstNamedIsFirst(covered: set<string>, files: seq<string>, name: string) returns (i: nat)
    ensures FirstNamed(covered, files, name).None? ==>
      i == |files| && forall j :: 0 <= j < |files| ==> !(IsWanted(covered, files[j]) && NameOf(files[j]) == name)
    ensures FirstNamed(covered, files, name).Some? ==>
      && i < |files| && FirstNamed(covered, files, name).value == files[i] && IsWanted(covered, files[i]) &&
        NameOf(files[i]) == name
      && forall j :: 0 <= j < i ==> !(IsWanted(covered, files[j]) && NameOf(files[j]) == name)
  {
    hide NameOf, IsWanted;
    if files == [] {
      i := 0;
    } else {
      var before := files[..|files| - 1];
      i := FirstNamedIsFirst(covered, before, name);
      if FirstNamed(covered, before, name).None? && FirstNamed(covered, files, name).None? {
        i := |files|;
      }
    }
  }

  /** The row of a name after a sync: the one it had, or one for the first new file of that name. */
  ghost predicate RowAsExpected(paths: map<string, nat>, db: Db, files: seq<string>, after: Db, name: string) {
    if name in db.functions then name in after.functions && after.functions[name] == db.functions[name]
    else
      match FirstNamed(paths.Keys, files, name)
      case None => name !in after.functions
      case Some(path) =>
        && name in after.functions && after.functions[name].path == path
        && Some(after.functions[name].lang) == LangOf(path) && after.functions[name].id >= db.nextId
  }

  lemma {:induction false} RowsAfterSync(
      paths: map<string, nat>, gets: set<nat>, db: Db, project: string, files: seq<string>, name: string)
    ensures RowAsExpected(paths, db, files, SyncFiles(paths, gets, db, project, files), name)
  {
    hide NameOf, LangOf, GetKey;
    if files != [] {
      var before := files[..|files| - 1];
      RowsAfterSync(paths, gets, db, project, before, name);
      SyncGrows(paths, gets, db, project, before);
    }
  }

  /** Every function file has a row with its path. */
  ghost predicate AllHaveRows(db: Db, files: seq<string>) {
    forall i :: 0 <= i < |files| && LangOf(files[i]).Some? ==> HasRow(db, files[i])
  }

  ghost predicate HasRow(db: Db, path: string) {
    exists n :: n in db.functions && db.functions[n].path == path
  }

  /** The names of the new files are free, and differ from one another. */
  ghost predicate NamesAreFree(paths: map<string, nat>, db: Db, files: seq<string>) {
    forall i :: 0 <= i < |files| && IsWanted(paths.Keys, files[i]) ==>
      && NameOf(files[i]) !in db.functions
      && forall j :: 0 <= j < i && IsWanted(paths.Keys, files[j]) ==> NameOf(files[j]) != NameOf(files[i])
  }

  lemma FreeNameGetsRow(paths: map<string, nat>, gets: set<nat>, db: Db, project: string, files: seq<string>, i: nat)
    requires NamesAreFree(paths, db, files) && i < |files| && IsWanted(paths.Keys, files[i])
    ensures var after := SyncFiles(paths, gets, db, project, files);
      && NameOf(files[i]) in after.functions && after.functions[NameOf(files[i])].path == files[i]
      && after.functions[NameOf(files[i])].id >= db.nextId
  {
    var name := NameOf(files[i]);
    RowsAfterSync(paths, gets, db, project, files, name);
    var k := FirstNamedIsFirst(paths.Keys, files, name);
    hide NameOf, LangOf, SyncFiles, IsWanted;
    assert k == i;
  }

  lemma RowMeansFreeName(paths: map<string, nat>, gets: set<nat>, db: Db, project: string, files: seq<string>, i: nat)
    requires IsIndex(paths, db) && Distinct(files) && i < |files| && IsWanted(paths.Keys, files[i])
    requires HasRow(SyncFiles(paths, gets, db, project, files), files[i])
    ensures NameOf(files[i]) !in db.functions
    ensures forall j :: 0 <= j < i && IsWanted(paths.Keys, files[j]) ==> NameOf(files[j]) != NameOf(files[i])
  {
    var after := SyncFiles(paths, gets, db, project, files);
    var n :| n in after.functions && after.functions[n].path == files[i];
    RowsAfterSync(paths, gets, db, project, files, n);
    var k := FirstNamedIsFirst(paths.Keys, files, n);
    hide NameOf, LangOf, SyncFiles;
    assert n !in db.functions;
    assert files[k] == files[i];
  }

  /** Every function file ends up with a row if and only if the names of the new ones are free and distinct. */
  lemma AllRowsIffNamesFree(paths: map<string, nat>, gets: set<nat>, db: Db, project: string, files: seq<string>)
    requires IsIndex(paths, db) && Distinct(files)
    ensures AllHaveRows(SyncFiles(paths, gets, db, project, files), files) <==> NamesAreFree(paths, db, files)
  {
    var after := SyncFiles(paths, gets, db, project, files);
    SyncGrows(paths, gets, db, project, files);
    hide NameOf, LangOf, SyncFiles;
    if NamesAreFree(paths, db, files) {
      forall i | 0 <= i < |files| && LangOf(files[i]).Some?
        ensures HasRow(after, files[i])
      {
        if files[i] in paths {
          var n :| n in db.functions && db.functions[n].path == files[i];
          assert n in after.functions;
        } else {
          FreeNameGetsRow(paths, gets, db, project, files, i);
        }
      }
    }
    if AllHaveRows(after, files) {
      forall i | 0 <= i < |files| && IsWanted(paths.Keys, files[i])
        ensures NameOf(files[i]) !in db.functions
        ensures forall j :: 0 <= j < i && IsWanted(paths.Keys, files[j]) ==> NameOf(files[j]) != NameOf(files[i])
      {
        RowMeansFreeName(paths, gets, db, project, files, i);
      }
    }
  }

  /** One row at most is added for a path that had none, and none for a path that had one. */
  lemma RowsAddedOncePerPath(
      paths: map<string, nat>, gets: set<nat>, db: Db, project: string, files: seq<string>, m: string, n: string)
    requires IsIndex(paths, db)
    requires var after := SyncFiles(paths, gets, db, project, files);
      && m in after.functions && m !in db.functions && n in after.functions
      && after.functions[m].path == after.functions[n].path
    ensures m == n
    ensures SyncFiles(paths, gets, db, project, files).functions[m].path in files
    ensures NameOf(SyncFiles(paths, gets, db, project, files).functions[m].path) == m
  {
    RowsAfterSync(paths, gets, db, project, files, m);
    RowsAfterSync(paths, gets, db, project, files, n);
    var i := FirstNamedIsFirst(paths.Keys, files, m);
    var j := FirstNamedIsFirst(paths.Keys, files, n);
  }
}
