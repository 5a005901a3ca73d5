/** What a sync asks of the operator, and how a sync and the handler that creates functions agree. */
module RepoSyncRequests {
  import opened RepoSync
  import opened RepoSyncRows
  import opened RepoSyncEndpoints
  import opened RepoTree

  // Requests

  /** `r` is the request for a row that `after` has and `db` has not. */
  ghost predicate IsForNewRow(db: Db, after: Db, r: (string, string)) {
    r.0 !in db.functions && r.0 in after.functions && after.functions[r.0].lang == r.1
  }

  /** The requests made since `db` are those for the rows added since, each once. */
  ghost predicate RequestsMatchRows(db: Db, after: Db) {
    && db.requested <= after.requested
    && (forall i :: |db.requested| <= i < |after.requested| ==> IsForNewRow(db, after, after.requested[i]))
    && (forall i, j :: |db.requested| <= i < j < |after.requested| ==> after.requested[i].0 != after.requested[j].0)
    && (forall n :: n in after.functions && n !in db.functions ==>
          (n, after.functions[n].lang) in after.requested[|db.requested|..])
  }

  lemma {:induction false} SyncRequestsNewRows(
      paths: map<string, nat>, gets: set<nat>, db: Db, project: string, files: seq<string>)
    ensures RequestsMatchRows(db, SyncFiles(paths, gets, db, project, files))
  {
    if files != [] {
      var before, last := files[..|files| - 1], files[|files| - 1];
      SyncRequestsNewRows(paths, gets, db, project, before);
      SyncGrows(paths, gets, db, project, before);
      FileRequestsNewRow(paths, gets, db, SyncFiles(paths, gets, db, project, before), project, last);
    }
  }

  lemma FileRequestsNewRow(paths: map<string, nat>, gets: set<nat>, db: Db, so: Db, project: string, path: string)
    requires RequestsMatchRows(db, so) && Grows(db, so)
    ensures RequestsMatchRows(db, SyncFile(paths, gets, so, project, path))
  {
    hide NameOf, LangOf, GetKey;
    var after := SyncFile(paths, gets, so, project, path);
    if after.requested != so.requested {
      var name, lang := NameOf(path), LangOf(path).value;
      assert name !in so.functions && after.functions == so.functions[name := Row(so.nextId, lang, path)];
      RequestAppends(db, so, after, name, lang);
    }
  }

  lemma RequestAppends(db: Db, so: Db, after: Db, name: string, lang: string)
    requires RequestsMatchRows(db, so) && Grows(db, so) && name !in so.functions
    requires after.requested == so.requested + [(name, lang)] && name in after.functions &&
      after.functions[name].lang == lang
    requires after.functions == so.functions[name := after.functions[name]]
    ensures RequestsMatchRows(db, after)
  {
    var old_, new_ := so.requested[|db.requested|..], after.requested[|db.requested|..];
    assert new_ == old_ + [(name, lang)];
    forall i, j | |db.requested| <= i < j < |after.requested|
      ensures after.requested[i].0 != after.requested[j].0
    {
      assert IsForNewRow(db, so, so.requested[i]);
    }
    forall i | |db.requested| <= i < |after.requested|
      ensures IsForNewRow(db, after, after.requested[i])
    {
      if i < |so.requested| {
        assert IsForNewRow(db, so, so.requested[i]);
      }
    }
  }

  // The handler and the sync

  /** The database after the handler has created a function. */
  function AfterCreate(db: Db, project: string, name: string, lang: string): Db
    requires LangExt(lang).Some?
  {
    Request(EnsureEndpoint({}, AddRow(db, name, lang, FunctionPath(lang, name)), project, name, db.nextId), name, lang)
  }

  /**
   * Creating a function through the handler does to the database what committing its file and syncing does, if and only
   * if its name has no slash: otherwise the row of the sync would bear only what follows the last slash.
   */
  lemma CreateIsCommitAndSync(paths: map<string, nat>, db: Db, project: string, name: string, lang: string)
    requires Valid(db) && IsIndex(paths, db) && LangExt(lang).Some?
    requires name !in db.functions && FunctionPath(lang, name) !in paths
    ensures SyncFile(paths, Gets(db), db, project, FunctionPath(lang, name)) == AfterCreate(db, project, name, lang)
       <==> '/' !in name
  {
    var path := FunctionPath(lang, name);
    PathRoundTrip(lang, name);
    IndexIsOld(paths, db);
    hide NameOf, LangOf, FunctionPath, GetKey, LangExt, Gets;
    if '/' in name {
      var synced := SyncFile(paths, Gets(db), db, project, path);
      assert synced.requested == db.requested || synced.requested == db.requested + [(NameOf(path), lang)];
      assert AfterCreate(db, project, name, lang).requested[|db.requested|] == (name, lang);
    }
  }

  /** A sync after the handler has nothing to do at the file of the new function. */
  lemma SyncFindsCreated(paths: map<string, nat>, db: Db, project: string, name: string, lang: string)
    requires Valid(db) && LangExt(lang).Some? && '/' !in name && name !in db.functions &&
      !HasRow(db, FunctionPath(lang, name))
    requires IsIndex(paths, AfterCreate(db, project, name, lang))
    ensures var after := AfterCreate(db, project, name, lang);
      SyncFile(paths, Gets(after), after, project, FunctionPath(lang, name)) == after
  {
    var path := FunctionPath(lang, name);
    var after := AfterCreate(db, project, name, lang);
    PathRoundTrip(lang, name);
    assert after.functions[name].path == path;
    assert GetKey(project, name) in after.endpoints;
    assert path in paths;
  }

  /**
   * Two files of one name in different languages cannot both be served: the second in the order of the walk gets no
   * row, since names are unique in a project.
   */
  lemma SameNameInTwoLanguages(db: Db, project: string, name: string, a: string, b: string)
    requires LangExt(a).Some? && LangExt(b).Some? && a != b && '/' !in name && db.functions == map[]
    ensures var files := [FunctionPath(a, name), FunctionPath(b, name)];
      !HasRow(SyncFiles(map[], Gets(db), db, project, files), FunctionPath(b, name))
  {
    var files := [FunctionPath(a, name), FunctionPath(b, name)];
    PathRoundTrip(a, name);
    PathRoundTrip(b, name);
    assert LangOf(files[0]) != LangOf(files[1]);
    assert NameOf(files[0]) == NameOf(files[1]) && IsWanted({}, files[0]);
    if HasRow(SyncFiles(map[], Gets(db), db, project, files), files[1]) {
      RowMeansFreeName(map[], Gets(db), db, project, files, 1);
    }
  }
}
