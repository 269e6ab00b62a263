/** The lists that whole runs of the file index are not right about: those that their files do
    not give back. */
module FileIndexLimits {
  import opened Collections
  import opened Text
  import opened Sorting
  import opened PathClean
  import opened IndexFile
  import opened FuzzyMatch
  import opened SearchResults
  import opened Ranking
  import opened FileIndex
  import opened FileIndexManager
  import opened FileIndexRuns

  /** A search that matches everything, with the highest limit. */
  const EVERYTHING := Request("", "", 0, MAX_LIMIT)

  /** A project is rebuilt, left alone until its list may leave memory, and searched. */
  function IdleRun(p: Project, scan: Scan, rebuilt: int, later: int): seq<Event> {
    [
      Event.StartRebuild(p),
      Event.FinishRebuild(p, Some(scan), true, rebuilt),
      Event.ShowStatus([], later),
      Event.Search(p, EVERYTHING, later)
    ]
  }

  lemma AfterThree(pathOf: string -> string, ref: Reference, a: Event, b: Event, c: Event)
    ensures ReferenceAfter(pathOf, ref, [a, b, c])
      == ReferenceStep(pathOf, ReferenceStep(pathOf, ReferenceStep(pathOf, ref, a), b), c)
  {
    var events := [a, b, c];
    assert events[..0] == [] && events[..3] == events;
    ReferenceAfterStep(pathOf, ref, events, 0);
    ReferenceAfterStep(pathOf, ref, events, 1);
    ReferenceAfterStep(pathOf, ref, events, 2);
  }

  lemma AfterRebuild(pathOf: string -> string, ref: Reference, e: Event)
    requires Rebuilds(e)
    ensures ReferenceStep(pathOf, ref, e)
      == Rewritten(ref, pathOf(Normalize(e.project).name), ScannedList(e.scan.value))
  {
    assert FinishedList(e) == Some(ScannedList(e.scan.value));
  }

  /** What the reference has of the project when the search comes. */
  lemma AfterIdleRun(pathOf: string -> string, ref: Reference, p: Project, scan: Scan, rebuilt: int, later: int)
    requires CanBeScanned(p)
    ensures ReferenceAfter(pathOf, ref, IdleRun(p, scan, rebuilt, later)[..3])
      == Rewritten(ref, pathOf(Normalize(p).name), ScannedList(scan))
  {
    var a, b := Event.StartRebuild(p), Event.FinishRebuild(p, Some(scan), true, rebuilt);
    var c := Event.ShowStatus([], later);
    assert IdleRun(p, scan, rebuilt, later)[..3] == [a, b, c];
    AfterThree(pathOf, ref, a, b, c);
    AfterRebuild(pathOf, ref, b);
  }

  /** What a search for everything can show of a list. */
  function Shown(paths: seq<string>): seq<string> {
    paths[..Min(MAX_LIMIT, |paths|)]
  }

  lemma FirstOfShown(a: seq<string>, b: seq<string>)
    ensures FirstOf(NAME, a, MAX_LIMIT) == FirstOf(NAME, b, MAX_LIMIT) <==> Shown(a) == Shown(b)
  {
    var x, y := FirstOf(NAME, a, MAX_LIMIT), FirstOf(NAME, b, MAX_LIMIT);
    assert |x| == |Shown(a)| && |y| == |Shown(b)|;
    if x == y {
      forall i | 0 <= i < |Shown(a)| ensures Shown(a)[i] == Shown(b)[i] {
        assert x[i].path == a[i] && y[i].path == b[i];
      }
    }
    if Shown(a) == Shown(b) {
      forall i | 0 <= i < |x| ensures x[i] == y[i] {
        assert Shown(a)[i] == a[i] && Shown(b)[i] == b[i];
      }
    }
  }

  /** Every path of the list survives writing and reading. */
  predicate Survives(paths: seq<string>) {
    forall p :: p in paths ==> Stable(p)
  }

  /** Of a list that can be shown whole, what its file gives back shows the same exactly when every
      path survives writing and reading. */
  lemma ShortListShown(paths: seq<string>)
    requires IsListing(paths) && |paths| < MAX_LIMIT
    ensures Shown(Parse(Render(paths))) == Shown(paths) <==> Survives(paths)
  {
    RoundTrip(paths);
    var read := Parse(Render(paths));
    assert Shown(paths) == paths;
    if Shown(read) == paths {
      assert Shown(read) == read;
    }
  }

  /** When what is shown of a file is what the reference shows of the list. */
  lemma FileShown(fuzzy: Fuzzy, list: seq<string>, results: seq<Result>)
    requires IsListing(list) && results == FirstOf(NAME, PARSE(Render(list)), MAX_LIMIT)
    ensures results == FullResults(fuzzy, "", list, MAX_LIMIT) <==> Shown(PARSE(Render(list))) == Shown(list)
    ensures |list| < MAX_LIMIT ==>
      (results == FullResults(fuzzy, "", list, MAX_LIMIT) <==> Survives(list))
  {
    FirstOfShown(PARSE(Render(list)), list);
    if |list| < MAX_LIMIT {
      ShortListShown(list);
    }
  }

  lemma EverythingIsClean()
    ensures Clean(EVERYTHING) == Query("", "", 0, MAX_LIMIT)
  {
    assert Trim("") == "";
  }

  /** Whether the answer to the search is that of the reference. */
  ghost predicate RightAfterIdle(pathOf: string -> string, fuzzy: Fuzzy, ref: Reference, p: Project, scan: Scan,
    rebuilt: int, later: int, resp: Response)
  {
    var lists := ReferenceAfter(pathOf, ref, IdleRun(p, scan, rebuilt, later)[..3]).lists;
    Answers(resp, fuzzy, Clean(EVERYTHING), LookUp(lists, pathOf(Normalize(p).name)))
  }

  lemma RightAfterIdleMeans(pathOf: string -> string, fuzzy: Fuzzy, ref: Reference, p: Project, scan: Scan,
      rebuilt: int, later: int, resp: Response)
    requires CanBeScanned(p)
    ensures RightAfterIdle(pathOf, fuzzy, ref, p, scan, rebuilt, later, resp)
      <==> resp.indexed && resp.results == FullResults(fuzzy, "", ScannedList(scan), MAX_LIMIT)
  {
    AfterIdleRun(pathOf, ref, p, scan, rebuilt, later);
    EverythingIsClean();
    FullResultsShowBest(fuzzy, "", ScannedList(scan), MAX_LIMIT);
  }

  method Begin(m: Manager, p: Project)
    requires m.Valid()
    modifies m
    ensures m.Valid()
  {
    var accepted, already := m.StartRebuild(p);
  }

  method Rebuild(m: Manager, p: Project, scan: Scan, now: int)
    requires m.Valid() && CanBeScanned(p)
    modifies m
    ensures m.Valid() && Normalize(p).id !in m.running
    ensures Installed(m.pathOf, m.snapshots, m.disk, Normalize(p), ScannedList(scan), now)
  {
    var done := m.FinishRebuild(p, Some(scan), true, now);
  }

  /** A list leaves memory once it was idle for long enough. */
  method Rest(m: Manager, ghost p: Project, ghost paths: seq<string>, ghost used: int, now: int)
    requires m.Valid() && p.id !in m.running && Installed(m.pathOf, m.snapshots, m.disk, p, paths, used)
    requires used != 0 && now - used > SNAPSHOT_IDLE_TTL
    modifies m
    ensures m.Valid() && Unread(m.snapshots, p.id)
    ensures ListFor(m.files, m.pathOf(p.name)) == Some(PARSE(Render(paths)))
  {
    assert Idle(m.snapshots[p.id], now);
    var entries, shown := m.Status([], now);
  }

  lemma FileListed(pathOf: string -> string, s: State, p: Project, req: Query, list: seq<string>, resp: Response)
    requires ListsFile(pathOf, s, p, req, resp) && Unread(s.snapshots, p.id)
    requires ListFor(s.disk, pathOf(p.name)) == Some(list) && req.text == "" && req.limit == MAX_LIMIT
    ensures resp.indexed && resp.results == FirstOf(NAME, list, MAX_LIMIT)
  {
  }

  /** What a search for everything shows when the list is not in memory. */
  method SearchFile(m: Manager, p: Project, req: Request, ghost list: seq<string>, now: int) returns (resp: Response)
    requires m.Valid() && Unread(m.snapshots, Normalize(p).id)
    requires Clean(req).text == "" && Clean(req).limit == MAX_LIMIT
    requires ListFor(m.files, m.pathOf(Normalize(p).name)) == Some(list)
    modifies m
    ensures m.Valid() && resp.indexed && resp.results == FirstOf(NAME, list, MAX_LIMIT)
  {
    ghost var s := m.View();
    resp := m.Search(p, req, now);
    FileListed(m.pathOf, s, Normalize(p), Clean(req), list, resp);
  }

  method RebuildAndRest(m: Manager, p: Project, scan: Scan, rebuilt: int, later: int)
    requires m.Valid() && CanBeScanned(p)
    requires rebuilt != 0 && later - rebuilt > SNAPSHOT_IDLE_TTL
    modifies m
    ensures m.Valid() && Unread(m.snapshots, Normalize(p).id)
    ensures ListFor(m.files, m.pathOf(Normalize(p).name)) == Some(PARSE(Render(ScannedList(scan))))
  {
    hide *;
    Begin(m, p);
    Rebuild(m, p, scan, rebuilt);
    Rest(m, Normalize(p), ScannedList(scan), rebuilt, later);
  }

  method SearchRested(m: Manager, p: Project, scan: Scan, req: Request, rebuilt: int, later: int)
      returns (resp: Response)
    requires m.Valid() && CanBeScanned(p) && Clean(req).text == "" && Clean(req).limit == MAX_LIMIT
    requires rebuilt != 0 && later - rebuilt > SNAPSHOT_IDLE_TTL
    modifies m
    ensures m.Valid() && resp.indexed
    ensures resp.results == FirstOf(NAME, PARSE(Render(ScannedList(scan))), MAX_LIMIT)
  {
    hide *;
    RebuildAndRest(m, p, scan, rebuilt, later);
    resp := SearchFile(m, p, req, PARSE(Render(ScannedList(scan))), later);
  }

  lemma IdleAnswer(pathOf: string -> string, fuzzy: Fuzzy, ref: Reference, p: Project, scan: Scan, rebuilt: int,
      later: int, resp: Response)
    requires CanBeScanned(p) && resp.indexed
    requires resp.results == FirstOf(NAME, PARSE(Render(ScannedList(scan))), MAX_LIMIT)
    ensures RightAfterIdle(pathOf, fuzzy, ref, p, scan, rebuilt, later, resp)
      <==> Shown(PARSE(Render(ScannedList(scan)))) == Shown(ScannedList(scan))
    ensures |ScannedList(scan)| < MAX_LIMIT ==>
      (RightAfterIdle(pathOf, fuzzy, ref, p, scan, rebuilt, later, resp)
      <==> Survives(ScannedList(scan)))
  {
    RightAfterIdleMeans(pathOf, fuzzy, ref, p, scan, rebuilt, later, resp);
    FileShown(fuzzy, ScannedList(scan), resp.results);
  }

  /** After any rebuild of any project, a search that comes when the list has left memory shows what
      the file is read as. The answer is the reference's exactly when that starts as the list does; for a
      list that can be shown whole, exactly when every path survives writing and reading. */
  method SearchAfterIdle(m: Manager, p: Project, scan: Scan, rebuilt: int, later: int, ghost ref: Reference)
      returns (resp: Response)
    requires m.Valid() && CanBeScanned(p)
    requires rebuilt != 0 && later - rebuilt > SNAPSHOT_IDLE_TTL
    modifies m
    ensures m.Valid() && resp.indexed
    ensures resp.results == FirstOf(NAME, PARSE(Render(ScannedList(scan))), MAX_LIMIT)
    ensures RightAfterIdle(m.pathOf, m.fuzzy, ref, p, scan, rebuilt, later, resp)
      <==> Shown(PARSE(Render(ScannedList(scan)))) == Shown(ScannedList(scan))
    ensures |ScannedList(scan)| < MAX_LIMIT ==>
      (RightAfterIdle(m.pathOf, m.fuzzy, ref, p, scan, rebuilt, later, resp)
      <==> Survives(ScannedList(scan)))
  {
    hide *;
    EverythingIsClean();
    resp := SearchRested(m, p, scan, EVERYTHING, rebuilt, later);
    IdleAnswer(m.pathOf, m.fuzzy, ref, p, scan, rebuilt, later, resp);
  }

  /** A session continued by a query that is no true extension of its own hides hits: a path that
      the query alone hits is not ranked. */
  lemma FalseExtensionLosesHits(fuzzy: Fuzzy, session: QuerySession, query: string, paths: seq<string>,
      c: Candidates, ranked: seq<Item>, i: int)
    requires IsListing(paths) && SessionAgrees(fuzzy, session, paths) && !session.all && !c.all
    requires forall k :: k in c.indexes <==> k in session.indexes && 0 <= k < |paths|
    requires RanksAllowed(ranked, c, fuzzy.For(query), paths)
    requires 0 <= i < |paths| && Hit(fuzzy.For(query), paths[i]) && !Hit(fuzzy.For(session.query), paths[i])
    ensures forall x :: x in ranked ==> x.index != i
    ensures ranked != FullRanking(fuzzy.For(query), paths)
  {
    assert i !in session.indexes;
    NotRanked(fuzzy.For(query), paths, c, ranked, i);
  }

  lemma NotRanked(m: Matcher, paths: seq<string>, c: Candidates, ranked: seq<Item>, i: int)
    requires IsListing(paths) && RanksAllowed(ranked, c, m, paths) && !Allows(c, i)
    requires 0 <= i < |paths| && Hit(m, paths[i])
    ensures forall x :: x in ranked ==> x.index != i
    ensures ranked != FullRanking(m, paths)
  {
    FullRankingElements(m, paths);
    var item := ItemAt(m, paths, i);
    assert IsHit(m, paths, item);
  }

  lemma PlainNameIsClean(name: string)
    requires name != "" && Trimmed(name) && '/' !in name && '\\' !in name && !IsDots(name)
    ensures CleanPath(name) == name
  {
    assert ReplaceChar(name, '\\', '/') == name;
    TrimOfTrimmed(name);
    SplitOfPart(name, '/');
    assert [name][1..] == [] && Resolve([name], []) == [] + [name];
  }

  /** A walk that meets a file with a line break in its path makes such a list. */
  lemma NewlineIsListed(scan: Scan, path: string)
    requires path in scan.lines && scan.isFile(path) && '\n' in path && CleanPath(path) == path
    ensures path in ScannedList(scan) && !Stable(path)
  {
    assert CleansTo(scan.lines, path);
  }

  lemma {:induction false} KeptLength(lines: seq<string>, clean: string -> string, keep: string -> bool)
    ensures |Kept(lines, clean, keep)| <= |lines|
  {
    if lines != [] {
      KeptLength(lines[..|lines| - 1], clean, keep);
    }
  }

  /** The shortest such walk: two files, one of them with a line break in its name. */
  lemma BrokenWalk(scan: Scan)
    requires scan.lines == ["a\nb", "c"] && scan.isFile("a\nb")
    ensures |ScannedList(scan)| < MAX_LIMIT && "a\nb" in ScannedList(scan) && !Stable("a\nb")
  {
    assert "a\nb"[1] == '\n';
    PlainNameIsClean("a\nb");
    NewlineIsListed(scan, "a\nb");
    KeptLength(scan.lines, CLEAN, scan.isFile);
    SortElements(PATH_LESS, Kept(scan.lines, CLEAN, scan.isFile));
  }
}
