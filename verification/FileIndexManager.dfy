/** projectFileIndexManager: the object that owns snapshots, query sessions and index files. */
module FileIndexManager {
  import opened Collections
  import opened Text
  import opened Sorting
  import opened Aging
  import opened IndexFile
  import opened Ranking
  import opened FuzzyMatch
  import opened SearchResults
  import opened FileIndex
  import opened FileIndexStatus

  class Manager {
    const fuzzy: Fuzzy
    /** indexPath: the index file of a project, by the project's name. */
    const pathOf: string -> string
    var snapshots: map<string, Snapshot>
    var running: set<string>
    var lastErrors: map<string, string>
    var sessions: map<string, QuerySession>
    /** The index files, by path: the part of the disk the manager writes and reads. */
    var disk: map<string, string>
    ghost var files: Files

    ghost function View(): State
      reads this
    {
      State(snapshots, running, lastErrors, sessions, files)
    }

    ghost predicate Valid()
      reads this
    {
      WellKept(snapshots) && Describes(files, disk)
    }

    constructor (fuzzy: Fuzzy, baseDir: string, disk: map<string, string>)
      ensures Valid() && this.fuzzy == fuzzy
      ensures pathOf == INDEX_PATH(baseDir)
      ensures this.disk == disk && files == FilesOf(disk) && View() == State(map[], {}, map[], map[], files)
    {
      this.fuzzy, this.pathOf, this.disk := fuzzy, INDEX_PATH(baseDir), disk;
      snapshots, running, lastErrors, sessions, files := map[], {}, map[], map[], FilesOf(disk);
    }

    method ClearQuerySessions(projectID: string)
      modifies this`sessions
      ensures forall k :: k in sessions <==> k in old(sessions) && !HasPrefix(k, projectID + [NUL])
      ensures forall k :: k in sessions ==> sessions[k] == old(sessions)[k]
    {
      var prefix := projectID + [NUL];
      var left := sessions.Keys;
      while left != {}
        invariant left <= old(sessions).Keys
        invariant forall k :: k in sessions <==> k in old(sessions) && (k in left || !HasPrefix(k, prefix))
        invariant forall k :: k in sessions ==> sessions[k] == old(sessions)[k]
        decreases left
      {
        var key := AnyOf(left);
        left := left - {key};
        if HasPrefix(key, prefix) {
          sessions := sessions - {key};
        }
      }
    }

    /** Drop every session that has been idle for longer than its time to live. */
    method PruneQuerySessions(now: int)
      modifies this`sessions
      ensures forall k :: k in sessions <==>
        k in old(sessions) && now - old(sessions)[k].updatedAt <= 30_000_000_000
      ensures forall k :: k in sessions ==> sessions[k] == old(sessions)[k]
    {
      var left := sessions.Keys;
      while left != {}
        invariant left <= old(sessions).Keys
        invariant forall k :: k in sessions <==>
          k in old(sessions) && (k in left || now - old(sessions)[k].updatedAt <= QUERY_SESSION_TTL)
        invariant forall k :: k in sessions ==> sessions[k] == old(sessions)[k]
        decreases left
      {
        var key := AnyOf(left);
        left := left - {key};
        if now - sessions[key].updatedAt > QUERY_SESSION_TTL {
          sessions := sessions - {key};
        }
      }
    }

    /** The sessions that hold positions, with their ages, and how many positions they hold. */
    method MeasureSessions() returns (ages: seq<Age>, total: nat)
      ensures total == TotalIndexes(sessions)
      ensures Lists(ages, SessionAges(sessions))
    {
      ages, total := [], 0;
      var left := sessions.Keys;
      ghost var m := SessionAges(sessions);
      assert m - left == map[] && sessions - (sessions.Keys - left) == sessions;
      while left != {}
        invariant left <= sessions.Keys
        invariant total + TotalIndexes(sessions - (sessions.Keys - left)) == TotalIndexes(sessions)
        invariant Lists(ages, m - left)
        decreases left
      {
        hide SessionAges;
        hide TotalIndexes;
        var key := AnyOf(left);
        assert left == (left - {key}) + {key};
        left := left - {key};
        var session := sessions[key];
        SessionAgesAt(sessions, key, left);
        TotalLeft(sessions, key, left);
        if session.all || |session.indexes| == 0 {
          continue;
        }
        total := total + |session.indexes|;
        ListsOneMore(ages, m - (left + {key}), key, session.updatedAt);
        ages := ages + [Age(key, session.updatedAt)];
      }
      assert m - {} == m && sessions - (sessions.Keys - {}) == map[];
    }

    /** Forget the first of the listed sessions until the rest fit the budget. */
    method ForgetFirst(sorted: seq<Age>, size: nat) returns (ghost n: nat)
      requires size == TotalIndexes(sessions) && size > 500_000 && Lists(sorted, SessionAges(sessions))
      modifies this`sessions
      ensures 0 < n <= |sorted| && sessions == old(sessions) - KeysOf(sorted[..n])
      ensures TotalIndexes(sessions) <= 500_000 || n == |sorted|
      ensures TotalIndexes(old(sessions) - KeysOf(sorted[..n - 1])) > 500_000
    {
      hide Lists;
      hide KeysOf;
      hide SessionAges;
      hide TotalIndexes;
      ghost var s := sessions;
      NoneForgotten(sorted, s);
      assert sorted[..|sorted|] == sorted;
      AllForgotten(sorted, s);
      var i, total := 0, size;
      while i < |sorted|
        invariant 0 <= i <= |sorted| && sorted != []
        invariant total == TotalIndexes(sessions) && sessions == s - KeysOf(sorted[..i])
        invariant if i == 0 then total > 500_000 else TotalIndexes(s - KeysOf(sorted[..i - 1])) > 500_000
      {
        if total <= MAX_SESSION_CANDIDATES_IN_ALL {
          break;
        }
        var key := sorted[i].key;
        ForgetNext(sorted, s, sessions, i);
        total := total - |sessions[key].indexes|;
        sessions := sessions - {key};
        i := i + 1;
      }
      n := i;
    }

    /** Forget the oldest remembered positions until the rest fit the budget. */
    method PruneQuerySessionMemory()
      modifies this`sessions
      ensures TotalIndexes(sessions) <= 500_000
      ensures TotalIndexes(old(sessions)) <= 500_000 ==> sessions == old(sessions)
      ensures ForgetsOldest(old(sessions), sessions)
    {
      var ages, total := MeasureSessions();
      if total <= MAX_SESSION_CANDIDATES_IN_ALL {
        return;
      }
      var sorted := Sort(BY_AGE, ages);
      ListsSorted(ages, SessionAges(sessions));
      ghost var n := ForgetFirst(sorted, total);
      AllForgotten(sorted, old(sessions));
      assert n == |sorted| ==> sorted[..n] == sorted;
      OldestForgotten(sorted, old(sessions), sessions, n);
    }

    method Release(id: string)
      requires Valid() && id in snapshots
      modifies this`snapshots
      ensures Valid() && snapshots == old(snapshots)[id := Released(old(snapshots)[id])]
      ensures ReleasedFrom(old(snapshots), snapshots)
      ensures LoadedIdle(snapshots, running) == LoadedIdle(old(snapshots), running) - {id}
    {
      snapshots := snapshots[id := Released(snapshots[id])];
      ReleaseKeeps(old(snapshots), snapshots, running, id);
    }

    /** Release the snapshots that nobody used for a while, and list the other loaded ones. */
    method ReleaseIdle(now: int) returns (loaded: seq<Age>)
      requires Valid()
      modifies this`snapshots
      ensures Valid() && IdleReleased(old(snapshots), snapshots, running, now, {})
      ensures Lists(loaded, LoadedAges(old(snapshots), running, now))
    {
      loaded := [];
      var left := snapshots.Keys;
      ghost var s := snapshots;
      ghost var m := LoadedAges(s, running, now);
      assert m - left == map[];
      while left != {}
        invariant left <= s.Keys && Valid() && snapshots.Keys == s.Keys
        invariant IdleReleased(s, snapshots, running, now, left)
        invariant Lists(loaded, m - left)
        decreases left
      {
        hide LoadedAges;
        hide IdleReleased;
        hide Lists;
        var id := AnyOf(left);
        assert left == (left - {id}) + {id};
        left := left - {id};
        var snapshot := snapshots[id];
        NotYetReleased(s, snapshots, running, now, left, id);
        LoadedAgesAt(s, running, now, id, left);
        IdleReleasedNext(s, snapshots, if id !in running && Idle(snapshot, now) then
          snapshots[id := Released(snapshot)] else snapshots, running, now, left, id);
        if !snapshot.loaded {
          continue;
        }
        if id in running {
          continue;
        }
        if snapshot.lastUsedAt != 0 && now - snapshot.lastUsedAt > SNAPSHOT_IDLE_TTL {
          Release(id);
          continue;
        }
        ListsOneMore(loaded, m - (left + {id}), id, snapshot.lastUsedAt);
        loaded := loaded + [Age(snapshot.projectID, snapshot.lastUsedAt)];
      }
      assert m - {} == m;
    }

    /** Release the first of the listed snapshots. */
    method ReleaseFirst(sorted: seq<Age>, count: nat, ghost m: map<string, int>)
      requires Valid() && count <= |sorted| && Lists(sorted, m) && m.Keys <= snapshots.Keys && m.Keys !! running
      modifies this`snapshots
      ensures Valid() && ReleasedThese(old(snapshots), snapshots, KeysOf(sorted[..count]))
    {
      for i := 0 to count
        invariant Valid() && ReleasedThese(old(snapshots), snapshots, KeysOf(sorted[..i]))
      {
        var id := sorted[i].key;
        NextIsPresent(sorted, m, i);
        if id !in running {
          ghost var before := snapshots;
          Release(id);
          ReleasedOneMore(old(snapshots), before, snapshots, KeysOf(sorted[..i]), id);
        }
      }
    }

    /** Release idle snapshots, then the least recently used beyond three. */
    method PruneSnapshots(now: int)
      requires Valid()
      modifies this`snapshots
      ensures Valid() && PrunesSnapshots(old(snapshots), snapshots, running, now)
    {
      hide PrunesSnapshots;
      hide IdleReleased;
      hide ReleasedThese;
      hide KeysOf;
      hide Lists;
      ghost var s, m := snapshots, LoadedAges(snapshots, running, now);
      assert m.Keys <= s.Keys && m.Keys !! running;
      var loaded := ReleaseIdle(now);
      ghost var mid := snapshots;
      hide LoadedAges;
      AllGone(loaded, m);
      IdleKeepsKeys(s, mid, running, now);
      if |loaded| <= MAX_LOADED_SNAPSHOTS {
        PruneIsDone(s, mid, mid, running, now, {});
        return;
      }
      var sorted := Sort(BY_AGE, loaded);
      ListsSorted(loaded, m);
      var excess := |sorted| - MAX_LOADED_SNAPSHOTS;
      ReleaseFirst(sorted, excess, m);
      SoManyGone(sorted, m, excess);
      OldestGoFirst(sorted, m, excess);
      PruneIsDone(s, mid, snapshots, running, now, KeysOf(sorted[..excess]));
    }

    method LoadSnapshotMetadata(project: Project) returns (snap: Snapshot)
      requires Valid()
      ensures snap == if pathOf(project.name) in files.counts
        then UnloadedSnapshot(project, pathOf(project.name), Indexed, files.counts[pathOf(project.name)])
        else UnloadedSnapshot(project, pathOf(project.name), Missing, 0)
    {
      var path := pathOf(project.name);
      if path !in disk {
        return UnloadedSnapshot(project, path, Missing, 0);
      }
      var count := CountStreamed([disk[path]]);
      assert Flatten([disk[path]]) == disk[path] by { assert [disk[path]][..0] == []; }
      snap := UnloadedSnapshot(project, path, Indexed, count);
    }

    method LoadSnapshot(project: Project, now: int) returns (snap: Snapshot)
      requires Valid()
      ensures IsListing(snap.paths)
      ensures snap == if pathOf(project.name) in files.lists
        then LoadedSnapshot(project, pathOf(project.name), files.lists[pathOf(project.name)], now)
        else UnloadedSnapshot(project, pathOf(project.name), Missing, 0)
    {
      var path := pathOf(project.name);
      if path !in disk {
        return UnloadedSnapshot(project, path, Missing, 0);
      }
      var paths := ParseLines(disk[path]);
      var entries := BuildEntries(NAME, paths);
      snap := Snapshot(project.id, project.name, project.root, Indexed, |paths|, path, paths, entries, true, now);
    }

    /** The snapshot a status request shows: the one in memory, or the file's line count. */
    method StatusSnapshot(project: Project) returns (snap: Snapshot)
      requires Valid()
      modifies this`snapshots
      ensures Valid() && snapshots == old(snapshots)[project.id := snap]
      ensures Known(old(snapshots), files, project.id, pathOf(project.name)) ==>
        SnapshotAgrees(snap, files, pathOf(project.name))
      ensures if project.id in old(snapshots)
        then AsHeld(old(snapshots)[project.id], snap.status, snap.fileCount, snap.indexPath)
        else AsFile(files, pathOf(project.name), snap.status, snap.fileCount, snap.indexPath)
      ensures forall id :: Unread(old(snapshots), id) ==> Unread(snapshots, id)
    {
      if project.id in snapshots {
        snap := snapshots[project.id].(name := project.name, root := project.root);
        SameListAgrees(snap, snapshots[project.id], files, pathOf(project.name));
      } else {
        snap := LoadSnapshotMetadata(project);
      }
      PutKeeps(snapshots, project.id, snap);
      PutUnread(snapshots, project.id, snap);
      snapshots := snapshots[project.id := snap];
    }

    /** A snapshot held in memory, completed so that it can be searched. */
    method Refresh(held: Snapshot, project: Project, now: int) returns (snap: Snapshot)
      requires Valid() && IsListing(held.paths) && held.entries == Names(NAME, held.paths)
      requires held.projectID == project.id
      ensures snap.projectID == project.id && IsListing(snap.paths) && snap.entries == Names(NAME, snap.paths)
      ensures SnapshotAgrees(held, files, pathOf(project.name)) ==> Ready(snap, files, pathOf(project.name))
      ensures !held.loaded && held.paths == [] ==> ReadFrom(snap, files, pathOf(project.name))
    {
      snap := held;
      if !snap.loaded && |snap.paths| > 0 {
        if |snap.entries| != |snap.paths| {
          var entries := BuildEntries(NAME, snap.paths);
          snap := snap.(entries := entries);
        }
        snap := snap.(loaded := true);
      } else if !snap.loaded {
        snap := LoadSnapshot(project, now);
      } else if |snap.entries| != |snap.paths| {
        var entries := BuildEntries(NAME, snap.paths);
        snap := snap.(entries := entries);
      }
    }

    /** The snapshot in memory if loaded, otherwise read from its file. */
    method Obtain(project: Project, now: int) returns (snap: Snapshot)
      requires Valid()
      ensures snap.projectID == project.id && IsListing(snap.paths) && snap.entries == Names(NAME, snap.paths)
      ensures Known(snapshots, files, project.id, pathOf(project.name)) ==> Ready(snap, files, pathOf(project.name))
      ensures Unread(snapshots, project.id) ==> ReadFrom(snap, files, pathOf(project.name))
    {
      if project.id in snapshots {
        var held := snapshots[project.id].(name := project.name, root := project.root);
        SameListAgrees(held, snapshots[project.id], files, pathOf(project.name));
        snap := Refresh(held, project, now);
      } else {
        snap := LoadSnapshot(project, now);
      }
    }

    /** The snapshot a search uses, marked as used. */
    method SearchSnapshot(project: Project, now: int) returns (snap: Snapshot)
      requires Valid()
      modifies this`snapshots
      ensures Valid() && snapshots == old(snapshots)[project.id := snap]
      ensures IsListing(snap.paths) && snap.entries == Names(NAME, snap.paths)
      ensures Known(old(snapshots), files, project.id, pathOf(project.name)) ==>
        Ready(snap, files, pathOf(project.name))
      ensures Unread(old(snapshots), project.id) ==> ReadFrom(snap, files, pathOf(project.name))
      ensures snap.loaded ==> snap.lastUsedAt == now
    {
      snap := Obtain(project, now);
      ghost var found := snap;
      if snap.loaded {
        snap := snap.(lastUsedAt := now);
      }
      SameListAgrees(found, snap, files, pathOf(project.name));
      PutKeeps(snapshots, project.id, snap);
      snapshots := snapshots[project.id := snap];
    }

    /** The positions a search may restrict itself to: those of the session it continues. */
    method WorkingCandidates(projectID: string, entryCount: nat, req: Query, now: int,
        ghost paths: seq<string>) returns (c: Candidates)
      requires |paths| == entryCount
      modifies this`sessions
      ensures InRange(c, entryCount)
      ensures forall k :: k in sessions ==> k in old(sessions) && sessions[k] == old(sessions)[k]
      ensures var key := Key(projectID, req.sessionID);
        Extends(fuzzy, old(sessions), key, req.text)
        && (key in old(sessions) ==> SessionAgrees(fuzzy, old(sessions)[key], paths))
        ==> Covers(c, fuzzy.For(req.text), paths)
    {
      if req.sessionID == "" || req.text == "" {
        return Candidates(true, []);
      }
      var key := Key(projectID, req.sessionID);
      if key !in sessions {
        return Candidates(true, []);
      }
      var session := sessions[key];
      if now - session.updatedAt > QUERY_SESSION_TTL {
        sessions := sessions - {key};
        return Candidates(true, []);
      }
      if req.id == session.queryID + 1 && HasPrefix(fuzzy.Lower(req.text), fuzzy.Lower(session.query)) {
        if session.all {
          return Candidates(true, []);
        }
        var indexes: seq<int> := [];
        for k := 0 to |session.indexes|
          invariant InRange(Candidates(false, indexes), entryCount)
          invariant forall i :: i in indexes <==> i in session.indexes[..k] && 0 <= i < entryCount
        {
          if 0 <= session.indexes[k] < entryCount {
            indexes := indexes + [session.indexes[k]];
          }
        }
        c := Candidates(false, indexes);
        assert session.indexes[..|session.indexes|] == session.indexes;
        if SessionAgrees(fuzzy, session, paths) && fuzzy.MayExtend(session.query, req.text) {
          RememberedCovers(fuzzy, session, req.text, paths, c);
        }
        return;
      }
      c := Candidates(true, []);
    }

    /** Remember what this search hit, for the next one of the same session. */
    method StoreQuerySession(projectID: string, req: Query, c: Candidates, now: int)
      modifies this`sessions
      ensures req.sessionID == "" ==> sessions == old(sessions)
      ensures Stored(old(sessions), sessions, Key(projectID, req.sessionID), SessionFor(req.text, req.id, c, now))
      ensures req.sessionID != "" ==> TotalIndexes(sessions) <= 500_000
      ensures req.sessionID != "" ==>
        forall k :: k in sessions ==> now - sessions[k].updatedAt <= 30_000_000_000
    {
      if req.sessionID == "" {
        return;
      }
      var key := Key(projectID, req.sessionID);
      var session := QuerySession(req.text, req.id, false, [], now);
      if c.all || |c.indexes| > MAX_SESSION_CANDIDATES {
        session := session.(all := true);
      } else {
        session := session.(indexes := c.indexes);
      }
      sessions := sessions[key := session];
      PruneQuerySessions(now);
      PruneQuerySessionMemory();
    }

    /** One search over a list: the results, and what to remember for the next search. */
    method Run(query: string, paths: seq<string>, entries: seq<string>, c: Candidates, limit: nat)
        returns (results: seq<Result>, next: Candidates)
      requires entries == Names(NAME, paths) && InRange(c, |paths|) && IsListing(paths)
      requires Trimmed(query)
      ensures Covers(c, fuzzy.For(query), paths) ==> results == FullResults(fuzzy, query, paths, limit)
      ensures |results| <= limit
      ensures query == "" ==> next == Candidates(true, []) && results == FirstOf(NAME, paths, limit)
      ensures query != "" && Covers(c, fuzzy.For(query), paths) ==>
        next == Candidates(false, Indexes(FullRanking(fuzzy.For(query), paths)))
    {
      next := Candidates(true, []);
      if query == "" {
        results := FirstResults(NAME, paths, entries, limit);
        return;
      }
      TrimOfTrimmed(query);
      hide Trim;
      hide Covers;
      hide FullRanking;
      hide InRange;
      hide IsListing;
      var m := fuzzy.For(Trim(query));
      var ranked;
      ranked, next := Rank(m, paths, entries, c);
      forall k | 0 <= k < |ranked|
        ensures 0 <= ranked[k].index < |paths| && ranked[k].path == paths[ranked[k].index]
      {
        assert ranked[k] in ranked;
      }
      results := BestResults(NAME, paths, entries, ranked, limit);
    }

    /** The part of a search that follows once the project has a list. */
    method SearchList(project: Project, req: Query, snapshot: Snapshot, now: int)
        returns (results: seq<Result>, ghost session: QuerySession)
      requires Valid() && IsListing(snapshot.paths) && snapshot.entries == Names(NAME, snapshot.paths)
      requires Trimmed(req.text)
      modifies this`snapshots, this`sessions
      ensures Valid() && ReleasedFrom(old(snapshots), snapshots)
      ensures |LoadedIdle(snapshots, running)| <= 3
      ensures Stored(old(sessions), sessions, Key(project.id, req.sessionID), session) && session.query == req.text
      ensures RemembersRightly(fuzzy, old(sessions), project.id, req.sessionID, req.text, snapshot.paths) ==>
        SessionAgrees(fuzzy, session, snapshot.paths)
      ensures RemembersRightly(fuzzy, old(sessions), project.id, req.sessionID, req.text, snapshot.paths) ==>
        results == FullResults(fuzzy, req.text, snapshot.paths, req.limit)
      ensures req.text == "" ==> results == FirstOf(NAME, snapshot.paths, req.limit)
      ensures |results| <= req.limit
    {
      var c := WorkingCandidates(project.id, |snapshot.entries|, req, now, snapshot.paths);
      ghost var kept := sessions;
      var next;
      results, next := Run(req.text, snapshot.paths, snapshot.entries, c, req.limit);
      StoreQuerySession(project.id, req, next, now);
      session := SessionFor(req.text, req.id, next, now);
      StoredAfterDrop(old(sessions), kept, sessions, Key(project.id, req.sessionID), session);
      if RemembersRightly(fuzzy, old(sessions), project.id, req.sessionID, req.text, snapshot.paths) {
        StoredAgrees(fuzzy, req.text, req.id, snapshot.paths, next, now);
      }
      hide PrunesSnapshots;
      PruneSnapshots(now);
      PruneBounds(old(snapshots), snapshots, running, now);
    }

    /** The response from a snapshot: its list searched, or the reason why there is none. */
    method Respond(project: Project, req: Query, snapshot: Snapshot, now: int)
        returns (resp: Response, ghost session: QuerySession)
      requires Valid() && IsListing(snapshot.paths) && snapshot.entries == Names(NAME, snapshot.paths)
      requires Trimmed(req.text)
      modifies this`snapshots, this`sessions
      ensures Valid() && ReleasedFrom(old(snapshots), snapshots)
      ensures resp.indexed ==> |LoadedIdle(snapshots, running)| <= 3
      ensures Stored(old(sessions), sessions, Key(project.id, req.sessionID), session) && session.query == req.text
      ensures resp.indexed <==> snapshot.status == Indexed
      ensures !resp.indexed ==> session.all && resp.results == []
      ensures (resp.indexed
          && RemembersRightly(fuzzy, old(sessions), project.id, req.sessionID, req.text, snapshot.paths)) ==>
        SessionAgrees(fuzzy, session, snapshot.paths)
        && resp.results == FullResults(fuzzy, req.text, snapshot.paths, req.limit)
      ensures resp.indexed && req.text == "" ==> resp.results == FirstOf(NAME, snapshot.paths, req.limit)
      ensures resp.query == req.text && resp.sessionID == req.sessionID && resp.queryID == req.id
      ensures resp.fileCount == snapshot.fileCount && |resp.results| <= req.limit
      ensures resp.status == if project.id in running then Scanning else snapshot.status
      ensures resp.error == if !resp.indexed && project.id in lastErrors then lastErrors[project.id] else ""
    {
      var status := if project.id in running then Scanning else snapshot.status;
      if snapshot.status != Indexed {
        var errText := if project.id in lastErrors then lastErrors[project.id] else "";
        session := SessionFor(req.text, 0, Candidates(true, []), now);
        resp := Response(req.text, req.sessionID, req.id, status, false, snapshot.fileCount, [], errText);
      } else {
        var results;
        results, session := SearchList(project, req, snapshot, now);
        resp := Response(req.text, req.sessionID, req.id, status, true, snapshot.fileCount, results, "");
      }
    }

    /** search, for a request already trimmed and clamped. */
    method SearchProject(project: Project, req: Query, now: int) returns (resp: Response)
      requires Valid() && Trimmed(req.text)
      modifies this`snapshots, this`sessions
      ensures Valid()
      ensures SearchedRightly(fuzzy, pathOf, old(View()), View(), project, req, resp)
      ensures ListsFile(pathOf, old(View()), project, req, resp)
      ensures resp.indexed ==> |LoadedIdle(snapshots, running)| <= 3
      ensures Reports(pathOf, old(View()), project, resp) && |resp.results| <= req.limit
      ensures resp.query == req.text && resp.sessionID == req.sessionID && resp.queryID == req.id
    {
      ghost var s := View();
      var snapshot := SearchSnapshot(project, now);
      ghost var session;
      resp, session := Respond(project, req, snapshot, now);
      SearchIsRight(fuzzy, pathOf, s, View(), project, snapshot, session, req, resp);
    }

    /** search: answers from remembered candidates exactly what a scan of the whole list answers. */
    method Search(raw: Project, req: Request, now: int) returns (resp: Response)
      requires Valid()
      modifies this`snapshots, this`sessions
      ensures Valid()
      ensures SearchedRightly(fuzzy, pathOf, old(View()), View(), Normalize(raw), Clean(req), resp)
      ensures ListsFile(pathOf, old(View()), Normalize(raw), Clean(req), resp)
      ensures resp.indexed ==> |LoadedIdle(snapshots, running)| <= 3
      ensures Reports(pathOf, old(View()), Normalize(raw), resp)
      ensures |resp.results| <= Clean(req).limit == if req.limit <= 0 then 20 else Min(req.limit, 100)
      ensures resp.query == Trim(req.query) && resp.sessionID == Trim(req.sessionID) && resp.queryID == req.queryID
    {
      resp := SearchProject(Normalize(raw), Clean(req), now);
    }

    /** Mark a rebuild as running, unless one is. */
    method StartRebuild(raw: Project) returns (accepted: bool, alreadyRunning: bool)
      modifies this`running, this`lastErrors
      ensures accepted <==> Normalize(raw).id != ""
      ensures alreadyRunning <==> Normalize(raw).id != "" && Normalize(raw).id in old(running)
      ensures running == old(running) + if accepted then {Normalize(raw).id} else {}
      ensures lastErrors ==
        if accepted && !alreadyRunning then old(lastErrors) - {Normalize(raw).id} else old(lastErrors)
    {
      var project := Normalize(raw);
      if project.id == "" {
        return false, false;
      }
      if project.id in running {
        return true, true;
      }
      running := running + {project.id};
      lastErrors := lastErrors - {project.id};
      return true, false;
    }

    /** writeIndexFile, once the file system has accepted it. */
    method WriteIndexFile(path: string, paths: seq<string>) returns (ghost list: seq<string>, ghost count: nat)
      requires Valid() && IsListing(paths)
      modifies this`disk, this`files
      ensures Valid() && disk == old(disk)[path := Render(paths)]
      ensures files == Files(old(files).lists[path := list], old(files).counts[path := count])
      ensures Faithful(paths) ==> list == paths && count == |paths|
    {
      var content := Render(paths);
      list, count := PARSE(content), COUNT(content);
      if Faithful(paths) { Reread(paths); }
      DescribesAfterWrite(files, disk, PARSE, COUNT, path, content);
      disk := disk[path := content];
      files := Files(files.lists[path := list], files.counts[path := count]);
    }

    /** Put a scanned list on disk and in memory. */
    method PutList(project: Project, paths: seq<string>, now: int) returns (ghost list: seq<string>, ghost count: nat)
      requires Valid() && IsListing(paths)
      modifies this`snapshots, this`disk, this`files
      ensures Valid() && disk == old(disk)[pathOf(project.name) := Render(paths)]
      ensures snapshots == old(snapshots)[project.id := LoadedSnapshot(project, pathOf(project.name), paths, now)]
      ensures files == Files(old(files).lists[pathOf(project.name) := list],
        old(files).counts[pathOf(project.name) := count])
      ensures Faithful(paths) ==> list == paths
    {
      var path := pathOf(project.name);
      list, count := WriteIndexFile(path, paths);
      var entries := BuildEntries(NAME, paths);
      var snapshot :=
        Snapshot(project.id, project.name, project.root, Indexed, |paths|, path, paths, entries, true, now);
      PutKeeps(snapshots, project.id, snapshot);
      snapshots := snapshots[project.id := snapshot];
    }

    /** Make a scanned list the project's list, and forget what was found in the old one. */
    method Install(project: Project, paths: seq<string>, now: int)
      requires Valid() && IsListing(paths)
      modifies this`snapshots, this`sessions, this`lastErrors, this`disk, this`files
      ensures Valid()
      ensures Replaced(fuzzy, pathOf, old(View()), View(), disk, project, paths, now)
      ensures disk == old(disk)[pathOf(project.name) := Render(paths)]
    {
      ghost var list, count := PutList(project, paths, now);
      lastErrors := lastErrors - {project.id};
      ClearQuerySessions(project.id);
      RebuildIsRight(fuzzy, pathOf, old(View()), View(), project, paths, now, list, count);
    }

    /** The part of a rebuild that follows a scan. */
    method InstallScan(project: Project, scan: Scan, writes: bool, now: int) returns (done: bool)
      requires Valid()
      modifies this`snapshots, this`sessions, this`lastErrors, this`disk, this`files
      ensures Valid() && done == writes
      ensures !done ==> View() == old(View()) && disk == old(disk)
      ensures done ==> Replaced(fuzzy, pathOf, old(View()), View(), disk, project, ScannedList(scan), now)
    {
      var paths := NormalizePaths(scan.lines, scan.isFile);
      if !writes {
        return false;
      }
      Install(project, paths, now);
      done := true;
    }

    /** rebuildNow: scan, write the index file, replace the snapshot, forget the sessions. */
    method RebuildNow(raw: Project, scan: Option<Scan>, writes: bool, now: int) returns (done: bool)
      requires Valid()
      modifies this`snapshots, this`sessions, this`lastErrors, this`disk, this`files
      ensures Valid()
      ensures done <==> Trim(raw.id) != "" && Trim(raw.root) != "" && scan.Some? && writes
      ensures !done ==> View() == old(View()) && disk == old(disk)
      ensures done ==>
        Replaced(fuzzy, pathOf, old(View()), View(), disk, Normalize(raw), ScannedList(scan.value), now)
    {
      var project := Normalize(raw);
      if project.id == "" || project.root == "" || scan.None? {
        return false;
      }
      done := InstallScan(project, scan.value, writes, now);
    }

    /** A failed rebuild leaves its error, and a failed snapshot if there was none. */
    method RecordFailure(project: Project)
      requires Valid()
      modifies this`snapshots, this`lastErrors
      ensures Valid() && OnlyFailed(pathOf, old(View()), View(), project)
      ensures Finished(fuzzy, pathOf, old(View()), View(), project, None)
    {
      lastErrors := lastErrors[project.id := "rebuild failed"];
      if project.id !in snapshots {
        var snap := Snapshot(project.id, project.name, project.root, Failed, 0, pathOf(project.name), [], [], false, 0);
        PutKeeps(snapshots, project.id, snap);
        snapshots := snapshots[project.id := snap];
        FailedCoherent(fuzzy, pathOf, old(View()), View(), project);
      } else {
        SameFinished(fuzzy, pathOf, old(View()), View(), project);
      }
    }

    method RebuildOrRecord(raw: Project, scan: Option<Scan>, writes: bool, now: int) returns (done: bool)
      requires Valid()
      modifies this`snapshots, this`sessions, this`lastErrors, this`disk, this`files
      ensures Valid()
      ensures RebuildEnds(fuzzy, pathOf, old(View()), View(), old(disk), disk,
        Event.FinishRebuild(raw, scan, writes, now), done)
    {
      hide Replaced;
      hide OnlyFailed;
      hide Finished;
      hide WellKept;
      hide Describes;
      hide RebuildEnds;
      ghost var e := Event.FinishRebuild(raw, scan, writes, now);
      done := RebuildNow(raw, scan, writes, now);
      assert done <==> Rebuilds(e);
      if done {
        SucceededEnds(fuzzy, pathOf, old(View()), View(), old(disk), disk, e);
      } else {
        RecordFailure(Normalize(raw));
        FailedEnds(fuzzy, pathOf, old(View()), View(), disk, e);
      }
    }

    /** The tail of startRebuild: run the rebuild, record its error, forget the sessions. */
    method FinishRebuild(raw: Project, scan: Option<Scan>, writes: bool, now: int) returns (done: bool)
      requires Valid()
      modifies this`snapshots, this`sessions, this`lastErrors, this`disk, this`files, this`running
      ensures Valid()
      ensures RebuildEnds(fuzzy, pathOf, old(View()), View(), old(disk), disk,
        Event.FinishRebuild(raw, scan, writes, now), done)
      ensures running == old(running) - {Normalize(raw).id}
      ensures forall k :: k in sessions ==> !HasPrefix(k, Normalize(raw).id + [NUL])
    {
      hide RebuildEnds;
      hide WellKept;
      hide Describes;
      hide HasPrefix;
      hide Trim;
      var project := Normalize(raw);
      done := RebuildOrRecord(raw, scan, writes, now);
      ghost var t := View();
      running := running - {project.id};
      ClearQuerySessions(project.id);
      RebuildEndsAfterDrop(fuzzy, pathOf, old(View()), t, View(), old(disk), disk,
        Event.FinishRebuild(raw, scan, writes, now), done);
    }

    method Status(projects: seq<Project>, now: int) returns (out: seq<StatusEntry>, ghost shown: seq<StatusEntry>)
      requires Valid()
      modifies this`snapshots, this`sessions
      ensures Valid()
      ensures StaysCoherent(fuzzy, pathOf, old(View()), View(), projects)
      ensures DropsIdle(old(snapshots), snapshots, running, now) && FewerSessions(old(sessions), sessions)
      ensures InNameOrder(fuzzy, out) && multiset(out) == multiset(shown) && |shown| == |projects|
      ensures Each(ShownFor(fuzzy, pathOf, old(View()), lastErrors, projects), shown)
    {
      hide PrunesSnapshots;
      hide StaysCoherent;
      hide TellsSoFar;
      hide InNameOrder;
      hide WellKept;
      hide Describes;
      hide ShownFor;
      ghost var s := View();
      PruneQuerySessions(now);
      PruneSnapshots(now);
      PruneBounds(s.snapshots, snapshots, running, now);
      PrunedCoherent(fuzzy, pathOf, s, View(), projects);
      TellsAtFirst(pathOf, s, projects, snapshots);
      ghost var pruned := snapshots;
      var entries := StatusInOrder(projects, s);
      DropsIdleOn(s.snapshots, pruned, snapshots, running, now);
      shown := entries;
      StatusSorted(fuzzy, entries);
      out := Sort(BY_NAME(fuzzy), entries);
    }

    /** The entries of the projects, in the order asked for. */
    method StatusInOrder(projects: seq<Project>, ghost s: State) returns (entries: seq<StatusEntry>)
      requires Valid() && StaysCoherent(fuzzy, pathOf, s, View(), projects) && s.running == running
      requires TellsSoFar(pathOf, s, projects, 0, snapshots)
      modifies this`snapshots
      ensures Valid() && StaysCoherent(fuzzy, pathOf, s, View(), projects) && |entries| == |projects|
      ensures forall id :: Unread(old(snapshots), id) ==> Unread(snapshots, id)
      ensures Each(ShownFor(fuzzy, pathOf, s, lastErrors, projects), entries)
    {
      entries := [];
      ghost var shows := ShownFor(fuzzy, pathOf, s, lastErrors, projects);
      for i := 0 to |projects|
        invariant Valid() && |entries| == i && StaysCoherent(fuzzy, pathOf, s, View(), projects)
        invariant Each(shows, entries) && TellsSoFar(pathOf, s, projects, i, snapshots)
        invariant forall id :: Unread(old(snapshots), id) ==> Unread(snapshots, id)
      {
        var entry := StatusOf(Normalize(projects[i]), s, projects, i);
        EachOneMore(shows, entries, entry);
        entries := entries + [entry];
      }
    }

    /** The entry of one project in the status. */
    method StatusOf(project: Project, ghost s: State, ghost projects: seq<Project>, ghost i: nat)
        returns (entry: StatusEntry)
      requires Valid() && i < |projects| && project == Normalize(projects[i])
      requires StaysCoherent(fuzzy, pathOf, s, View(), projects) && s.running == running
      requires TellsSoFar(pathOf, s, projects, i, snapshots)
      modifies this`snapshots
      ensures Valid() && StaysCoherent(fuzzy, pathOf, s, View(), projects)
      ensures TellsSoFar(pathOf, s, projects, i + 1, snapshots)
      ensures forall id :: Unread(old(snapshots), id) ==> Unread(snapshots, id)
      ensures Shows(fuzzy, pathOf, s, lastErrors, projects, project, entry)
    {
      ghost var t := View();
      var snapshot := StatusSnapshot(project);
      TellsOneMore(pathOf, s, projects, i, t.snapshots, snapshot);
      ShownCoherent(fuzzy, pathOf, s, t, View(), projects, projects[i], snapshot);
      EntryShows(fuzzy, pathOf, s, t, lastErrors, projects, i, snapshot);
      hide StaysCoherent;
      hide TellsSoFar;
      hide Shows;
      hide WellKept;
      hide Describes;
      hide Normalize;
      var isRunning := project.id in running;
      entry := StatusEntry(project.id, project.name, project.root, if isRunning then Scanning else snapshot.status,
        snapshot.fileCount, snapshot.indexPath, isRunning,
        if project.id in lastErrors then lastErrors[project.id] else "");
    }
  }

  /** The first entries of the list, for the empty query. */
  method FirstResults(name: string -> string, paths: seq<string>, entries: seq<string>, limit: nat)
      returns (results: seq<Result>)
    requires entries == Names(name, paths)
    ensures results == FirstOf(name, paths, limit)
  {
    results := [];
    for i := 0 to |entries|
      invariant |results| == i <= limit
      invariant forall j :: 0 <= j < i ==> results[j] == Result(paths[j], name(paths[j]), 0)
    {
      if |results| >= limit {
        break;
      }
      results := results + [Result(paths[|results|], entries[i], 0)];
    }
  }

  /** The best entries of a ranking. */
  method BestResults(name: string -> string, paths: seq<string>, entries: seq<string>, ranked: seq<Item>, limit: nat)
      returns (results: seq<Result>)
    requires entries == Names(name, paths)
    requires forall k :: 0 <= k < |ranked| ==>
      0 <= ranked[k].index < |paths| && ranked[k].path == paths[ranked[k].index]
    ensures results == BestOf(name, ranked, limit)
  {
    results := [];
    for k := 0 to |ranked|
      invariant |results| == k <= limit
      invariant forall j :: 0 <= j < k ==> results[j] == Result(ranked[j].path, name(ranked[j].path), ranked[j].score)
    {
      if |results| >= limit {
        break;
      }
      results := results + [Result(paths[ranked[k].index], entries[ranked[k].index], ranked[k].score)];
    }
  }
}
