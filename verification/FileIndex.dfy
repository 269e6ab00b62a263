/** The hub's project file index: path lists kept in memory or on disk, and searches that
    rescan only the previous hits when the query grows. */
module FileIndex {
  import opened Collections
  import opened Text
  import opened Sorting
  import opened Aging
  import opened IndexFile
  import opened Ranking
  import opened FuzzyMatch
  import opened SearchResults

  const DEFAULT_LIMIT := 20
  const MAX_LIMIT := 100
  const QUERY_SESSION_TTL := 30_000_000_000
  const SNAPSHOT_IDLE_TTL := 300_000_000_000
  const MAX_LOADED_SNAPSHOTS := 3
  const MAX_SESSION_CANDIDATES := 100_000
  const MAX_SESSION_CANDIDATES_IN_ALL := 500_000

  datatype Project = Project(id: string, name: string, root: string)

  datatype Status = Missing | Indexed | Scanning | Failed

  /** lastUsedAt is 0 for the zero time. */
  datatype Snapshot = Snapshot(projectID: string, name: string, root: string, status: Status, fileCount: nat,
    indexPath: string, paths: seq<string>, entries: seq<string>, loaded: bool, lastUsedAt: int)

  datatype QuerySession = QuerySession(query: string, queryID: int, all: bool, indexes: seq<int>, updatedAt: int)

  datatype Request = Request(query: string, sessionID: string, queryID: int, limit: int)

  /** A request after trimming and clamping. */
  datatype Query = Query(text: string, sessionID: string, id: int, limit: nat)

  datatype Response = Response(query: string, sessionID: string, queryID: int, status: Status, indexed: bool,
    fileCount: nat, results: seq<Result>, error: string)

  /** What git or the directory walk reports: lines, and which cleaned paths are files. */
  datatype Scan = Scan(lines: seq<string>, isFile: string -> bool)

  /** What the index files hold: per path the list it parses to and the lines it counts. */
  datatype Files = Files(lists: map<string, seq<string>>, counts: map<string, nat>)

  /** A list that comes back from its file as it went in. */
  predicate Faithful(paths: seq<string>) {
    |paths| <= 0x8000_0000 && forall x :: x in paths ==> Stable(x)
  }

  const PARSE: string -> seq<string> := content => Parse(content)
  const COUNT: string -> nat := content => CountLines(content)

  ghost predicate DescribesBy(files: Files, disk: map<string, string>, parse: string -> seq<string>,
    count: string -> nat)
  {
    && files.lists.Keys == disk.Keys && files.counts.Keys == disk.Keys
    && forall path {:trigger disk[path]} :: path in disk ==>
      files.lists[path] == parse(disk[path]) && files.counts[path] == count(disk[path])
  }

  /** files describes what is on disk. */
  ghost predicate Describes(files: Files, disk: map<string, string>) {
    DescribesBy(files, disk, PARSE, COUNT)
  }

  ghost function FilesOf(disk: map<string, string>): (files: Files)
    ensures Describes(files, disk)
  {
    Files(map path | path in disk :: Parse(disk[path]), map path | path in disk :: CountLines(disk[path]))
  }

  /** What a written list is read back as, and how many lines it counts. */
  lemma Reread(paths: seq<string>)
    requires IsListing(paths) && Faithful(paths)
    ensures Parse(Render(paths)) == paths && CountLines(Render(paths)) == |paths|
  {
    RoundTrip(paths);
    CountMatchesListing(paths);
  }

  /** Writing one file changes what is known of that file alone. */
  lemma DescribesAfterWrite(files: Files, disk: map<string, string>, parse: string -> seq<string>, count: string -> nat,
      path: string, content: string)
    requires DescribesBy(files, disk, parse, count)
    ensures DescribesBy(Files(files.lists[path := parse(content)], files.counts[path := count(content)]),
      disk[path := content], parse, count)
  {
  }

  datatype State = State(snapshots: map<string, Snapshot>, running: set<string>, lastErrors: map<string, string>,
    sessions: map<string, QuerySession>, disk: Files)

  function Normalize(p: Project): Project {
    Project(Trim(p.id), Trim(p.name), Trim(p.root))
  }

  function Released(s: Snapshot): Snapshot {
    s.(paths := [], entries := [], loaded := false, lastUsedAt := 0)
  }

  function SafeChar(c: char): char {
    if c in "\\/:*?\"<>|" then '_' else c
  }

  /** What of a project's name goes into the path of its index file. */
  function NamePart(name: string): string {
    if Trim(name) == "" then "project" else Trim(name)
  }

  predicate IsDots(part: string) {
    part == "." || part == ".."
  }

  function Safe(part: string): string {
    var safe := FoldAll(c => SafeChar(c), part);
    if IsDots(safe) then "_" else safe
  }

  /** fileIndexSafePathPart. */
  function SafePart(name: string): string {
    Safe(NamePart(name))
  }

  function IndexPath(base: string, name: string): string {
    base + "/db/ext/" + SafePart(name) + "/file-index.txt"
  }

  const INDEX_PATH: string -> (string -> string) := base => (name => IndexPath(base, name))

  /** An underscore, or what becomes one. */
  predicate Blotted(c: char) {
    c in "_\\/:*?\"<>|"
  }

  /** Character by character the same, but for what a path may not hold. */
  predicate Alike(a: string, b: string) {
    |a| == |b| && forall i :: 0 <= i < |a| ==> a[i] == b[i] || (Blotted(a[i]) && Blotted(b[i]))
  }

  /** A part whose file is that of the name "_". */
  predicate IsUnderscore(part: string) {
    part == "." || part == ".." || (|part| == 1 && Blotted(part[0]))
  }

  lemma SameSafeChar(c: char, d: char)
    ensures SafeChar(c) == SafeChar(d) <==> c == d || (Blotted(c) && Blotted(d))
  {
  }

  lemma SafeCharsAlike(a: string, b: string)
    ensures Alike(a, b) <==> FoldAll(c => SafeChar(c), a) == FoldAll(c => SafeChar(c), b)
  {
    var x, y := FoldAll(c => SafeChar(c), a), FoldAll(c => SafeChar(c), b);
    if |a| == |b| {
      forall i | 0 <= i < |a| ensures x[i] == y[i] <==> a[i] == b[i] || (Blotted(a[i]) && Blotted(b[i])) {
        SameSafeChar(a[i], b[i]);
      }
    }
  }

  lemma SafeUnderscore(part: string)
    ensures Safe(part) == "_" <==> IsUnderscore(part)
    ensures !IsDots(part) ==> Safe(part) == FoldAll(c => SafeChar(c), part)
  {
    var safe := FoldAll(c => SafeChar(c), part);
    assert IsDots(safe) <==> IsDots(part);
    assert safe == "_" <==> |part| == 1 && Blotted(part[0]);
  }

  lemma SafeAlike(a: string, b: string)
    ensures Safe(a) == Safe(b) <==> Alike(a, b) || (IsUnderscore(a) && IsUnderscore(b))
  {
    SafeUnderscore(a);
    SafeUnderscore(b);
    SafeCharsAlike(a, b);
  }

  /** When two names have the same file: their trimmed forms, or "project" for none, are alike or
      both come to "_". Such projects overwrite each other's lists, so whole runs are about projects
      whose files are apart. */
  lemma NamesShareFile(base: string, a: string, b: string)
    ensures var x := if Trim(a) == "" then "project" else Trim(a);
      var y := if Trim(b) == "" then "project" else Trim(b);
      IndexPath(base, a) == IndexPath(base, b) <==> Alike(x, y) || (IsUnderscore(x) && IsUnderscore(y))
  {
    SafeAlike(NamePart(a), NamePart(b));
    SamePath(base + "/db/ext/", SafePart(a), SafePart(b), "/file-index.txt");
  }

  lemma SamePath(front: string, a: string, b: string, back: string)
    ensures front + a + back == front + b + back <==> a == b
  {
    var x, y := front + a + back, front + b + back;
    if x == y {
      assert a == x[|front|..|x| - |back|];
      assert b == y[|front|..|y| - |back|];
    }
  }

  const NUL := '\U{0000}'

  /** The key of a query session. */
  function Key(projectID: string, sessionID: string): string {
    projectID + [NUL] + sessionID
  }

  /** Keys of different projects differ as long as project ids hold no NUL. */
  lemma KeysApart(a: string, b: string, s: string, t: string)
    requires NUL !in a && NUL !in b && Key(a, s) == Key(b, t)
    ensures a == b && s == t
  {
    var k := Key(a, s);
    assert k[|a|] == NUL && k[|b|] == NUL;
    assert forall i :: 0 <= i < |a| ==> k[i] in a;
    assert forall i :: 0 <= i < |b| ==> k[i] in b;
    assert a == k[..|a|] && s == k[|a| + 1..] && t == k[|b| + 1..];
  }

  function Limit(requested: int): nat {
    if requested <= 0 then DEFAULT_LIMIT else Min(requested, MAX_LIMIT)
  }

  function Clean(req: Request): (q: Query)
    ensures Trimmed(q.text)
  {
    Query(Trim(req.query), Trim(req.sessionID), req.queryID, Limit(req.limit))
  }

  /** What the reference answers from the bare list of paths, if there is one: the best hits. */
  ghost predicate Answers(resp: Response, fuzzy: Fuzzy, req: Query, list: Option<seq<string>>) {
    match list
    case None => !resp.indexed && resp.results == []
    case Some(paths) =>
      && resp.indexed && resp.results == FullResults(fuzzy, req.text, paths, req.limit)
      && ShowsBest(fuzzy, req.text, paths, req.limit, resp.results)
  }

  function Listing(files: Files, path: string): seq<string> {
    if path in files.lists then files.lists[path] else []
  }

  function ListFor(files: Files, path: string): Option<seq<string>> {
    if path in files.lists then Some(files.lists[path]) else None
  }

  /** A snapshot says what the project's file says. */
  ghost predicate SnapshotAgrees(snap: Snapshot, files: Files, path: string) {
    && (snap.loaded ==> snap.status == Indexed && snap.paths == Listing(files, path))
    && (!snap.loaded ==> snap.paths == [])
    && (snap.status == Indexed ==> path in files.lists && path in files.counts)
    && (snap.status == Indexed ==>
        snap.fileCount == |Listing(files, path)| || snap.fileCount == files.counts[path])
  }

  /** Display fields and use times do not matter. */
  lemma SameListAgrees(a: Snapshot, b: Snapshot, files: Files, path: string)
    requires a.status == b.status && a.loaded == b.loaded && a.paths == b.paths && a.fileCount == b.fileCount
    ensures SnapshotAgrees(a, files, path) == SnapshotAgrees(b, files, path)
  {
  }

  /** What is held of a project, if anything, agrees with its file. */
  ghost predicate Known(snapshots: map<string, Snapshot>, files: Files, id: string, path: string) {
    id in snapshots ==> SnapshotAgrees(snapshots[id], files, path)
  }

  /** A snapshot ready for a search: loaded, and indexed, exactly when there is a file. */
  ghost predicate Ready(snap: Snapshot, files: Files, path: string) {
    && SnapshotAgrees(snap, files, path)
    && (snap.loaded <==> path in files.lists)
    && (snap.status == Indexed <==> path in files.lists)
  }

  /** A snapshot with the list of the file, if there is one. */
  ghost predicate ReadFrom(snap: Snapshot, files: Files, path: string) {
    if path in files.lists then
      snap.status == Indexed && snap.paths == files.lists[path] && snap.fileCount == |snap.paths|
    else snap.status == Missing && snap.fileCount == 0
  }

  /** What a response says besides its results. */
  ghost predicate Reports(pathOf: string -> string, s: State, p: Project, resp: Response) {
    && (p.id in s.running ==> resp.status == Scanning)
    && (p.id !in s.running ==> (resp.indexed <==> resp.status == Indexed))
    && resp.error == (if !resp.indexed && p.id in s.lastErrors then s.lastErrors[p.id] else "")
    && (!resp.indexed ==> resp.results == [])
    && (Unread(s.snapshots, p.id) ==> AsRead(s, pathOf(p.name), p.id in s.running, resp))
  }

  ghost predicate AsRead(s: State, path: string, scanned: bool, resp: Response) {
    && (resp.indexed <==> path in s.disk.lists)
    && resp.fileCount == (if resp.indexed then |s.disk.lists[path]| else 0)
    && (!resp.indexed && !scanned ==> resp.status == Missing)
  }

  /** A remembered session holds exactly the positions that its query hits. */
  ghost predicate SessionAgrees(fuzzy: Fuzzy, session: QuerySession, paths: seq<string>) {
    session.all || forall i :: i in session.indexes <==> 0 <= i < |paths| && Hit(fuzzy.For(session.query), paths[i])
  }

  /** Everything remembered about a project fits the list its file holds. */
  ghost predicate Coherent(fuzzy: Fuzzy, pathOf: string -> string, s: State, p: Project) {
    var path := pathOf(p.name);
    && |Listing(s.disk, path)| <= 0x8000_0000
    && Known(s.snapshots, s.disk, p.id, path)
    && forall sid :: Key(p.id, sid) in s.sessions ==>
      SessionAgrees(fuzzy, s.sessions[Key(p.id, sid)], Listing(s.disk, path))
  }

  /** From s to t the project kept its file, and its memory at most shrank. */
  ghost predicate Keeps(pathOf: string -> string, s: State, t: State, p: Project) {
    var path := pathOf(p.name);
    && ListFor(t.disk, path) == ListFor(s.disk, path)
    && (path in t.disk.counts <==> path in s.disk.counts)
    && (path in s.disk.counts ==> t.disk.counts[path] == s.disk.counts[path])
    && (p.id in t.snapshots <==> p.id in s.snapshots)
    && (p.id in s.snapshots ==>
        t.snapshots[p.id] == s.snapshots[p.id] || t.snapshots[p.id] == Released(s.snapshots[p.id]))
    && forall sid :: Key(p.id, sid) in t.sessions ==>
      Key(p.id, sid) in s.sessions && t.sessions[Key(p.id, sid)] == s.sessions[Key(p.id, sid)]
  }

  lemma KeepsCoherent(fuzzy: Fuzzy, pathOf: string -> string, s: State, t: State, p: Project)
    requires Coherent(fuzzy, pathOf, s, p) && Keeps(pathOf, s, t, p)
    ensures Coherent(fuzzy, pathOf, t, p)
  {
    assert Listing(t.disk, pathOf(p.name)) == Listing(s.disk, pathOf(p.name));
  }

  ghost predicate FewerSessions(s: map<string, QuerySession>, t: map<string, QuerySession>) {
    forall k :: k in t ==> k in s && t[k] == s[k]
  }

  /** Some sessions are gone and some snapshots released; nothing else changed. */
  ghost predicate Pruned(s: State, t: State) {
    && t.disk == s.disk && t.running == s.running && t.lastErrors == s.lastErrors
    && FewerSessions(s.sessions, t.sessions) && ReleasedFrom(s.snapshots, t.snapshots)
  }

  ghost predicate ReleasedFrom(s: map<string, Snapshot>, t: map<string, Snapshot>) {
    && t.Keys == s.Keys
    && forall id :: id in s ==> t[id] == s[id] || t[id] == Released(s[id])
  }

  /** Candidates remembered for a shorter query cover the hits of a longer one. */
  lemma RememberedCovers(fuzzy: Fuzzy, session: QuerySession, query: string, paths: seq<string>, c: Candidates)
    requires SessionAgrees(fuzzy, session, paths) && !session.all
    requires fuzzy.Narrows(session.query, query)
    requires forall i :: i in c.indexes <==> i in session.indexes && 0 <= i < |paths|
    ensures Covers(c, fuzzy.For(query), paths)
  {
    forall i | 0 <= i < |paths| && Hit(fuzzy.For(query), paths[i]) ensures Allows(c, i) {
      ExtendedQueryNarrows(fuzzy, session.query, query, paths[i]);
    }
  }

  /** The positions kept after a ranking are exactly the hits, none cut off at 32 bits. */
  lemma RankedPositions(ranked: seq<Item>, m: Matcher, paths: seq<string>, i: int)
    requires |paths| <= 0x8000_0000
    requires forall x :: x in ranked <==> IsHit(m, paths, x)
    ensures i in Indexes(ranked) <==> 0 <= i < |paths| && Hit(m, paths[i])
  {
    var indexes := Indexes(ranked);
    if i in indexes {
      var k :| 0 <= k < |indexes| && indexes[k] == i;
      assert ranked[k] in ranked;
    }
    if 0 <= i < |paths| && Hit(m, paths[i]) {
      var item := ItemAt(m, paths, i);
      assert item in ranked;
      var k :| 0 <= k < |ranked| && ranked[k] == item;
      assert indexes[k] == i;
    }
  }

  lemma RankedAgrees(fuzzy: Fuzzy, query: string, paths: seq<string>, session: QuerySession)
    requires IsListing(paths) && |paths| <= 0x8000_0000
    requires session.query == query
    requires session.all || session.indexes == Indexes(FullRanking(fuzzy.For(query), paths))
    ensures SessionAgrees(fuzzy, session, paths)
  {
    var m := fuzzy.For(query);
    FullRankingElements(m, paths);
    if !session.all {
      forall i ensures i in session.indexes <==> 0 <= i < |paths| && Hit(m, paths[i]) {
        RankedPositions(FullRanking(m, paths), m, paths, i);
      }
    }
  }

  ghost function TotalIndexes(m: map<string, QuerySession>): nat {
    if m == map[] then 0
    else
      var k :| k in m;
      (if m[k].all then 0 else |m[k].indexes|) + TotalIndexes(m - {k})
  }

  function IndexCount(session: QuerySession): nat {
    if session.all then 0 else |session.indexes|
  }

  lemma {:induction false} TotalWithout(m: map<string, QuerySession>, k: string)
    requires k in m
    ensures TotalIndexes(m) == IndexCount(m[k]) + TotalIndexes(m - {k})
    decreases |m|
  {
    var l :| l in m && TotalIndexes(m) == IndexCount(m[l]) + TotalIndexes(m - {l});
    if l != k {
      TotalWithout(m - {l}, k);
      TotalWithout(m - {k}, l);
      assert m - {l} - {k} == m - {k} - {l};
    }
  }

  lemma {:induction false} NothingRemembered(m: map<string, QuerySession>)
    requires forall k :: k in m ==> IndexCount(m[k]) == 0
    ensures TotalIndexes(m) == 0
    decreases |m|
  {
    if m != map[] {
      var k :| k in m && TotalIndexes(m) == IndexCount(m[k]) + TotalIndexes(m - {k});
      NothingRemembered(m - {k});
    }
  }

  /** Loaded snapshots that no rebuild is using. */
  ghost function LoadedIdle(snapshots: map<string, Snapshot>, running: set<string>): set<string> {
    set id | id in snapshots && snapshots[id].loaded && id !in running
  }

  /** Snapshots sit under their own id, and hold listings with matching entries. */
  ghost predicate WellKept(snapshots: map<string, Snapshot>) {
    forall id :: id in snapshots ==> (snapshots[id].projectID == id
      && IsListing(snapshots[id].paths) && snapshots[id].entries == Names(NAME, snapshots[id].paths))
  }

  lemma PutKeeps(s: map<string, Snapshot>, id: string, snap: Snapshot)
    requires WellKept(s) && snap.projectID == id && IsListing(snap.paths) && snap.entries == Names(NAME, snap.paths)
    ensures WellKept(s[id := snap])
  {
  }

  lemma ReleaseKeeps(s: map<string, Snapshot>, t: map<string, Snapshot>, running: set<string>, id: string)
    requires WellKept(s) && id in s && t == s[id := Released(s[id])]
    ensures WellKept(t)
    ensures ReleasedFrom(s, t)
    ensures LoadedIdle(t, running) == LoadedIdle(s, running) - {id}
  {
  }

  /** A loaded snapshot that nobody has used for longer than its time to live. */
  predicate Idle(snap: Snapshot, now: int) {
    snap.loaded && snap.lastUsedAt != 0 && now - snap.lastUsedAt > SNAPSHOT_IDLE_TTL
  }

  /** Nothing of the project's list is in memory. */
  predicate Unread(snapshots: map<string, Snapshot>, id: string) {
    id in snapshots ==> !snapshots[id].loaded && snapshots[id].paths == []
  }

  /** From s to t every idle snapshot that no rebuild is using left memory. */
  ghost predicate DropsIdle(s: map<string, Snapshot>, t: map<string, Snapshot>, running: set<string>, now: int) {
    forall id :: id in s && id !in running && Idle(s[id], now) ==> Unread(t, id)
  }

  lemma PutUnread(s: map<string, Snapshot>, id: string, snap: Snapshot)
    requires Unread(s, id) ==> !snap.loaded && snap.paths == []
    ensures forall other :: Unread(s, other) ==> Unread(s[id := snap], other)
  {
  }

  lemma DropsIdleOn(s: map<string, Snapshot>, t: map<string, Snapshot>, u: map<string, Snapshot>,
      running: set<string>, now: int)
    requires DropsIdle(s, t, running, now)
    requires forall id :: Unread(t, id) && id in s ==> Unread(u, id)
    ensures DropsIdle(s, u, running, now)
  {
  }

  /** The sessions that hold positions, with the times they were last used. */
  ghost function SessionAges(sessions: map<string, QuerySession>): (ages: map<string, int>)
    ensures ages.Keys <= sessions.Keys
  {
    map k | k in sessions && IndexCount(sessions[k]) > 0 :: sessions[k].updatedAt
  }

  lemma SessionAgesAt(s: map<string, QuerySession>, k: string, left: set<string>)
    requires k in s && k !in left
    ensures var m := SessionAges(s);
      && (k in m <==> IndexCount(s[k]) > 0)
      && (k in m ==> m - left == (m - (left + {k}))[k := s[k].updatedAt])
      && (k !in m ==> m - left == m - (left + {k}))
  {
  }

  lemma TotalLeft(s: map<string, QuerySession>, k: string, left: set<string>)
    requires k in s && k !in left && left <= s.Keys
    ensures TotalIndexes(s - (s.Keys - (left + {k}))) == IndexCount(s[k]) + TotalIndexes(s - (s.Keys - left))
  {
    TotalWithout(s - (s.Keys - (left + {k})), k);
    assert s - (s.Keys - (left + {k})) - {k} == s - (s.Keys - left);
  }

  /** With every session that held positions gone, none are left. */
  lemma NoneLeft(m: map<string, QuerySession>)
    ensures TotalIndexes(m - SessionAges(m).Keys) == 0
  {
    NothingRemembered(m - SessionAges(m).Keys);
  }

  lemma ForgetNext(sorted: seq<Age>, s: map<string, QuerySession>, t: map<string, QuerySession>, i: nat)
    requires Lists(sorted, SessionAges(s)) && i < |sorted| && t == s - KeysOf(sorted[..i])
    ensures var k := sorted[i].key;
      && k in t && TotalIndexes(t) == |t[k].indexes| + TotalIndexes(t - {k})
      && t - {k} == s - KeysOf(sorted[..i + 1])
  {
    hide KeysOf;
    hide Lists;
    NextIsPresent(sorted, SessionAges(s), i);
    TotalWithout(t, sorted[i].key);
    hide TotalIndexes;
  }

  lemma NoneForgotten(sorted: seq<Age>, s: map<string, QuerySession>)
    ensures s - KeysOf(sorted[..0]) == s
  {
    assert sorted[..0] == [];
  }

  lemma AllForgotten(sorted: seq<Age>, s: map<string, QuerySession>)
    requires Lists(sorted, SessionAges(s))
    ensures TotalIndexes(s - KeysOf(sorted)) == 0
  {
    AllGone(sorted, SessionAges(s));
    NoneLeft(s);
  }

  /** From s to t sessions that hold positions were forgotten, oldest first, and no more of them
      than it takes to hold at most 500_000 positions. */
  ghost predicate ForgetsOldest(s: map<string, QuerySession>, t: map<string, QuerySession>) {
    && t.Keys <= s.Keys && (forall k :: k in t ==> t[k] == s[k])
    && s.Keys - t.Keys <= SessionAges(s).Keys && OldestGone(SessionAges(s), s.Keys - t.Keys)
    && (t != s ==> exists k :: LastForgotten(s, t, k))
  }

  /** The youngest session forgotten, which would have been too much. */
  ghost predicate LastForgotten(s: map<string, QuerySession>, t: map<string, QuerySession>, k: string) {
    && k in s && k !in t && TotalIndexes(t[k := s[k]]) > 500_000
    && forall l :: l in s && l !in t ==> s[l].updatedAt <= s[k].updatedAt
  }

  lemma OldestForgotten(sorted: seq<Age>, s: map<string, QuerySession>, t: map<string, QuerySession>, i: nat)
    requires Lists(sorted, SessionAges(s)) && SortedBy(BY_AGE, sorted) && i <= |sorted|
    requires t == s - KeysOf(sorted[..i])
    requires i > 0 ==> TotalIndexes(s - KeysOf(sorted[..i - 1])) > 500_000
    ensures ForgetsOldest(s, t)
  {
    hide TotalIndexes;
    hide KeysOf;
    hide Lists;
    hide SessionAges;
    SoManyGone(sorted, SessionAges(s), i);
    GoneFrom(s, t, SessionAges(s).Keys, KeysOf(sorted[..i]));
    OldestGoFirst(sorted, SessionAges(s), i);
    if i > 0 {
      LastOfPrefix(sorted, s, t, i);
      assert LastForgotten(s, t, sorted[i - 1].key);
    } else {
      assert |KeysOf(sorted[..i])| == 0;
    }
  }

  lemma GoneFrom(s: map<string, QuerySession>, t: map<string, QuerySession>, all: set<string>, gone: set<string>)
    requires gone <= all <= s.Keys && t == s - gone
    ensures s.Keys - t.Keys == gone && t.Keys <= s.Keys && forall k :: k in t ==> t[k] == s[k]
  {
  }

  lemma LastOfPrefix(sorted: seq<Age>, s: map<string, QuerySession>, t: map<string, QuerySession>, i: nat)
    requires Lists(sorted, SessionAges(s)) && SortedBy(BY_AGE, sorted) && 0 < i <= |sorted|
    requires t == s - KeysOf(sorted[..i])
    ensures var k := sorted[i - 1].key;
      && k in s && k !in t && t[k := s[k]] == s - KeysOf(sorted[..i - 1])
      && forall l :: l in s && l !in t ==> s[l].updatedAt <= s[k].updatedAt
  {
    hide KeysOf;
    hide Lists;
    var m, k := SessionAges(s), sorted[i - 1].key;
    NextIsPresent(sorted, m, i - 1);
    SoManyGone(sorted, m, i);
    forall l | l in s && l !in t ensures s[l].updatedAt <= s[k].updatedAt {
      assert l in KeysOf(sorted[..i]);
      if l != k {
        GoneIsOlder(sorted, m, i - 1, l, k);
      }
    }
  }

  /** The loaded snapshots that no rebuild is using and that were used in the last five minutes or
      never, with the times they were last used. */
  ghost function LoadedAges(snapshots: map<string, Snapshot>, running: set<string>, now: int): map<string, int> {
    map id | id in snapshots && snapshots[id].loaded && id !in running
      && (snapshots[id].lastUsedAt == 0 || now - snapshots[id].lastUsedAt <= 300_000_000_000)
      :: snapshots[id].lastUsedAt
  }

  /** From s to t, of the snapshots no rebuild is using, those idle for five minutes left memory,
      and of the rest the least recently used so that three are left; nothing else changed. */
  ghost predicate PrunesSnapshots(s: map<string, Snapshot>, t: map<string, Snapshot>, running: set<string>, now: int) {
    var m := LoadedAges(s, running, now);
    && ReleasedFrom(s, t) && (forall id :: id in s && (!s[id].loaded || id in running) ==> t[id] == s[id])
    && (forall id :: id in s && s[id].loaded && id !in running && id !in m ==> !t[id].loaded)
    && |LoadedIdle(t, running)| == Min(3, |m|)
    && forall k, l :: k in m && !t[k].loaded && l in m && t[l].loaded ==> m[k] <= m[l]
  }

  /** The part of a prune that has looked at all but the ids left. */
  ghost predicate IdleReleased(s: map<string, Snapshot>, t: map<string, Snapshot>, running: set<string>, now: int,
      left: set<string>)
  {
    t.Keys == s.Keys && forall id :: id in s ==>
      t[id] == if id !in left && id !in running && Idle(s[id], now) then Released(s[id]) else s[id]
  }

  ghost predicate ReleasedThese(s: map<string, Snapshot>, t: map<string, Snapshot>, gone: set<string>) {
    t.Keys == s.Keys && forall id :: id in s ==> t[id] == if id in gone then Released(s[id]) else s[id]
  }

  lemma IdleReleasedNext(s: map<string, Snapshot>, t: map<string, Snapshot>, u: map<string, Snapshot>,
      running: set<string>, now: int, left: set<string>, id: string)
    requires IdleReleased(s, t, running, now, left + {id}) && id in t && id !in left
    requires u == if id !in running && Idle(t[id], now) then t[id := Released(t[id])] else t
    ensures IdleReleased(s, u, running, now, left)
  {
  }

  lemma ReleasedOneMore(s: map<string, Snapshot>, t: map<string, Snapshot>, u: map<string, Snapshot>,
      gone: set<string>, id: string)
    requires ReleasedThese(s, t, gone) && id in s && id !in gone && u == t[id := Released(t[id])]
    ensures ReleasedThese(s, u, gone + {id})
  {
  }

  lemma IdleKeepsKeys(s: map<string, Snapshot>, t: map<string, Snapshot>, running: set<string>, now: int)
    requires IdleReleased(s, t, running, now, {})
    ensures t.Keys == s.Keys && ReleasedThese(t, t, {})
  {
  }

  lemma NotYetReleased(s: map<string, Snapshot>, t: map<string, Snapshot>, running: set<string>, now: int,
      left: set<string>, id: string)
    requires IdleReleased(s, t, running, now, left + {id}) && id in s
    ensures id in t && t[id] == s[id]
  {
  }

  lemma LoadedAgesAt(s: map<string, Snapshot>, running: set<string>, now: int, id: string, left: set<string>)
    requires id in s && id !in left
    ensures var m := LoadedAges(s, running, now);
      && (id in m <==> s[id].loaded && id !in running && !Idle(s[id], now))
      && (id in m ==> m - left == (m - (left + {id}))[id := s[id].lastUsedAt])
      && (id !in m ==> m - left == m - (left + {id}))
  {
  }

  lemma PruneLeaves(s: map<string, Snapshot>, mid: map<string, Snapshot>, t: map<string, Snapshot>,
      running: set<string>, now: int, gone: set<string>)
    requires IdleReleased(s, mid, running, now, {}) && ReleasedThese(mid, t, gone)
    requires gone <= LoadedAges(s, running, now).Keys
    ensures LoadedIdle(t, running) == LoadedAges(s, running, now).Keys - gone
    ensures ReleasedFrom(s, t) && forall id :: id in s && (!s[id].loaded || id in running) ==> t[id] == s[id]
  {
  }

  lemma PruneBounds(s: map<string, Snapshot>, t: map<string, Snapshot>, running: set<string>, now: int)
    requires PrunesSnapshots(s, t, running, now)
    ensures ReleasedFrom(s, t) && |LoadedIdle(t, running)| <= 3 && DropsIdle(s, t, running, now)
  {
  }

  lemma PruneIsDone(s: map<string, Snapshot>, mid: map<string, Snapshot>, t: map<string, Snapshot>,
      running: set<string>, now: int, gone: set<string>)
    requires IdleReleased(s, mid, running, now, {}) && ReleasedThese(mid, t, gone)
    requires var m := LoadedAges(s, running, now);
      gone <= m.Keys && OldestGone(m, gone) && |gone| == Max(0, |m| - 3)
    ensures PrunesSnapshots(s, t, running, now)
  {
    PruneLeaves(s, mid, t, running, now, gone);
    var m := LoadedAges(s, running, now);
    SetSizes(m.Keys, gone);
    forall id | id in s && s[id].loaded && id !in running && id !in m ensures !t[id].loaded {
      assert id !in LoadedIdle(t, running);
    }
    forall k, l | k in m && !t[k].loaded && l in m && t[l].loaded ensures m[k] <= m[l] {
      assert k !in LoadedIdle(t, running) && l in LoadedIdle(t, running);
    }
    hide LoadedAges;
  }

  function LoadedSnapshot(p: Project, path: string, paths: seq<string>, now: int): Snapshot {
    Snapshot(p.id, p.name, p.root, Indexed, |paths|, path, paths, Names(NAME, paths), true, now)
  }

  function UnloadedSnapshot(p: Project, path: string, status: Status, count: nat): Snapshot {
    Snapshot(p.id, p.name, p.root, status, count, path, [], [], false, 0)
  }

  /** What a search leaves behind under its session key. */
  function SessionFor(query: string, queryID: int, c: Candidates, now: int): QuerySession {
    if c.all || |c.indexes| > 100_000 then QuerySession(query, queryID, true, [], now)
    else QuerySession(query, queryID, false, c.indexes, now)
  }

  /** At most one session is new; the others were there before. */
  ghost predicate Stored(s: map<string, QuerySession>, t: map<string, QuerySession>, key: string, session: QuerySession)
  {
    forall k :: k in t ==> (k == key && t[k] == session) || (k in s && t[k] == s[k])
  }

  /** Only project id's snapshot was replaced, then snapshots were released. */
  ghost predicate Served(s: map<string, Snapshot>, t: map<string, Snapshot>, id: string, snap: Snapshot) {
    ReleasedFrom(s[id := snap], t)
  }

  /** Serving a project leaves what is known of every other project in place. */
  lemma ServingKeepsOthers(pathOf: string -> string, s: State, t: State, p: Project, snap: Snapshot,
      sid: string, session: QuerySession, q: Project)
    requires NUL !in p.id && NUL !in q.id && q.id != p.id
    requires t.disk == s.disk && Served(s.snapshots, t.snapshots, p.id, snap)
    requires Stored(s.sessions, t.sessions, Key(p.id, sid), session)
    ensures Keeps(pathOf, s, t, q)
  {
    forall x | Key(q.id, x) in t.sessions
      ensures Key(q.id, x) in s.sessions && t.sessions[Key(q.id, x)] == s.sessions[Key(q.id, x)]
    {
      if Key(q.id, x) == Key(p.id, sid) { KeysApart(q.id, p.id, x, sid); }
    }
  }

  /** Serving a project with a session that agrees leaves it coherent. */
  lemma ServingKeepsCoherent(fuzzy: Fuzzy, pathOf: string -> string, s: State, t: State, p: Project, snap: Snapshot,
      key: string, session: QuerySession)
    requires Coherent(fuzzy, pathOf, s, p)
    requires t.disk == s.disk && Served(s.snapshots, t.snapshots, p.id, snap)
    requires SnapshotAgrees(snap, s.disk, pathOf(p.name))
    requires Stored(s.sessions, t.sessions, key, session)
    requires SessionAgrees(fuzzy, session, Listing(s.disk, pathOf(p.name)))
    ensures Coherent(fuzzy, pathOf, t, p)
  {
  }

  lemma StoredAfterDrop(s: map<string, QuerySession>, t: map<string, QuerySession>, u: map<string, QuerySession>,
      key: string, session: QuerySession)
    requires forall k :: k in t ==> k in s && t[k] == s[k]
    requires Stored(t, u, key, session)
    ensures Stored(s, u, key, session)
  {
  }

  /** What a search over covering candidates remembers agrees with the list. */
  lemma StoredAgrees(fuzzy: Fuzzy, query: string, queryID: int, paths: seq<string>, next: Candidates, now: int)
    requires IsListing(paths) && |paths| <= 0x8000_0000
    requires next.all || next.indexes == Indexes(FullRanking(fuzzy.For(query), paths))
    ensures SessionAgrees(fuzzy, SessionFor(query, queryID, next, now), paths)
  {
    RankedAgrees(fuzzy, query, paths, SessionFor(query, queryID, next, now));
  }

  /** The session's query, if there is one, may be extended to this one. */
  ghost predicate Extends(fuzzy: Fuzzy, sessions: map<string, QuerySession>, key: string, query: string) {
    key in sessions ==> fuzzy.MayExtend(sessions[key].query, query)
  }

  ghost predicate RemembersRightly(fuzzy: Fuzzy, sessions: map<string, QuerySession>, id: string, sid: string,
    query: string, paths: seq<string>)
  {
    && |paths| <= 0x8000_0000 && Extends(fuzzy, sessions, Key(id, sid), query)
    && (Key(id, sid) in sessions ==> SessionAgrees(fuzzy, sessions[Key(id, sid)], paths))
  }

  /** The projects other than p kept their files, and their memory at most shrank. */
  ghost predicate KeepsOthers(pathOf: string -> string, s: State, t: State, p: Project) {
    NUL !in p.id ==> forall q: Project :: NUL !in q.id && q.id != p.id ==> Keeps(pathOf, s, t, q)
  }

  /** The sessions that are left are those of before, and perhaps one with this query. */
  ghost predicate Asks(s: map<string, QuerySession>, t: map<string, QuerySession>, key: string, query: string) {
    forall k :: k in t ==> (k == key && t[k].query == query) || (k in s && t[k] == s[k])
  }

  /** What one search does: it keeps every project coherent, and if its own was, and its query is
      no false extension, it answers what the reference answers. */
  ghost predicate SearchedRightly(fuzzy: Fuzzy, pathOf: string -> string, s: State, t: State, p: Project, req: Query,
    resp: Response)
  {
    && KeepsOthers(pathOf, s, t, p)
    && Asks(s.sessions, t.sessions, Key(p.id, req.sessionID), req.text)
    && (Coherent(fuzzy, pathOf, s, p) && Extends(fuzzy, s.sessions, Key(p.id, req.sessionID), req.text) ==>
      Coherent(fuzzy, pathOf, t, p) && Answers(resp, fuzzy, req, ListFor(s.disk, pathOf(p.name))))
  }

  /** What a search for nothing lists when no list is in memory: what the file holds. */
  ghost predicate ListsFile(pathOf: string -> string, s: State, p: Project, req: Query, resp: Response) {
    var path := pathOf(p.name);
    Unread(s.snapshots, p.id) && path in s.disk.lists && req.text == "" ==>
      resp.indexed && resp.results == FirstOf(NAME, s.disk.lists[path], req.limit)
  }

  lemma SearchIsRight(fuzzy: Fuzzy, pathOf: string -> string, s: State, t: State, p: Project, snap: Snapshot,
      session: QuerySession, req: Query, resp: Response)
    requires t.disk == s.disk && Served(s.snapshots, t.snapshots, p.id, snap)
    requires Stored(s.sessions, t.sessions, Key(p.id, req.sessionID), session)
    requires Known(s.snapshots, s.disk, p.id, pathOf(p.name)) ==> Ready(snap, s.disk, pathOf(p.name))
    requires (snap.status == Indexed
        && RemembersRightly(fuzzy, s.sessions, p.id, req.sessionID, req.text, snap.paths)) ==>
      (SessionAgrees(fuzzy, session, snap.paths)
      && resp.results == FullResults(fuzzy, req.text, snap.paths, req.limit))
    requires snap.status != Indexed ==> session.all && resp.results == []
    requires session.query == req.text && IsListing(snap.paths)
    requires resp.indexed <==> snap.status == Indexed
    ensures SearchedRightly(fuzzy, pathOf, s, t, p, req, resp)
  {
    if Coherent(fuzzy, pathOf, s, p) && Extends(fuzzy, s.sessions, Key(p.id, req.sessionID), req.text) {
      FullResultsShowBest(fuzzy, req.text, snap.paths, req.limit);
      ServingKeepsCoherent(fuzzy, pathOf, s, t, p, snap, Key(p.id, req.sessionID), session);
    }
    forall q: Project | NUL !in p.id && NUL !in q.id && q.id != p.id ensures Keeps(pathOf, s, t, q) {
      ServingKeepsOthers(pathOf, s, t, p, snap, req.sessionID, session, q);
    }
  }

  /** A fresh snapshot of what the file holds makes its project coherent again. */
  lemma RebuiltIsCoherent(fuzzy: Fuzzy, pathOf: string -> string, t: State, p: Project, paths: seq<string>, now: int)
    requires |paths| <= 0x8000_0000
    requires var path := pathOf(p.name);
      ListFor(t.disk, path) == Some(paths) && path in t.disk.counts
      && p.id in t.snapshots && t.snapshots[p.id] == LoadedSnapshot(p, path, paths, now)
    requires forall k :: k in t.sessions ==> !HasPrefix(k, p.id + [NUL])
    ensures Coherent(fuzzy, pathOf, t, p)
  {
    forall sid ensures Key(p.id, sid) !in t.sessions {
      assert Key(p.id, sid)[..|p.id + [NUL]|] == p.id + [NUL];
    }
  }

  /** From s to t project p was rebuilt with the given list; every other index file stayed. */
  ghost predicate RebuiltRightly(fuzzy: Fuzzy, pathOf: string -> string, s: State, t: State, p: Project,
    paths: seq<string>)
  {
    && (Faithful(paths) ==>
      Coherent(fuzzy, pathOf, t, p) && ListFor(t.disk, pathOf(p.name)) == Some(paths))
    && forall q: Project :: q.id != p.id && pathOf(q.name) != pathOf(p.name) ==> Keeps(pathOf, s, t, q)
  }

  /** The list is in memory as it was scanned, and on disk as it was rendered. */
  ghost predicate Installed(pathOf: string -> string, snapshots: map<string, Snapshot>, disk: map<string, string>,
      p: Project, paths: seq<string>, now: int)
  {
    var path := pathOf(p.name);
    && p.id in snapshots && snapshots[p.id] == LoadedSnapshot(p, path, paths, now)
    && path in disk && disk[path] == Render(paths)
  }

  /** A finished rebuild did all of this, and forgot the last error. */
  ghost predicate Replaced(fuzzy: Fuzzy, pathOf: string -> string, s: State, t: State, disk: map<string, string>,
      p: Project, paths: seq<string>, now: int)
  {
    && RebuiltRightly(fuzzy, pathOf, s, t, p, paths)
    && Installed(pathOf, t.snapshots, disk, p, paths, now) && FewerSessions(s.sessions, t.sessions)
    && t.lastErrors == s.lastErrors - {p.id}
    && t.snapshots == s.snapshots[p.id := LoadedSnapshot(p, pathOf(p.name), paths, now)]
  }

  /** A failed rebuild did no more than this: an error for the project, and a failed snapshot if there
      was none. */
  ghost predicate OnlyFailed(pathOf: string -> string, s: State, t: State, p: Project) {
    && t.disk == s.disk && t.lastErrors.Keys == s.lastErrors.Keys + {p.id}
    && (forall id :: id in s.lastErrors && id != p.id ==> t.lastErrors[id] == s.lastErrors[id])
    && t.snapshots == if p.id in s.snapshots then s.snapshots
      else s.snapshots[p.id := UnloadedSnapshot(p, pathOf(p.name), Failed, 0)]
  }

  lemma RebuildIsRight(fuzzy: Fuzzy, pathOf: string -> string, s: State, t: State, p: Project, paths: seq<string>,
      now: int, read: seq<string>, count: nat)
    requires t.snapshots == s.snapshots[p.id := LoadedSnapshot(p, pathOf(p.name), paths, now)]
    requires t.disk == Files(s.disk.lists[pathOf(p.name) := read], s.disk.counts[pathOf(p.name) := count])
    requires Faithful(paths) ==> read == paths
    requires forall k :: k in t.sessions ==>
      k in s.sessions && t.sessions[k] == s.sessions[k] && !HasPrefix(k, p.id + [NUL])
    ensures RebuiltRightly(fuzzy, pathOf, s, t, p, paths)
  {
    if Faithful(paths) {
      RebuiltIsCoherent(fuzzy, pathOf, t, p, paths, now);
    }
  }

  /** What an observer of the index can do, each as one step. */
  datatype Event =
    | Search(project: Project, req: Request, now: int)
    | StartRebuild(project: Project)
    | FinishRebuild(project: Project, scan: Option<Scan>, writes: bool, now: int)
    | ShowStatus(projects: seq<Project>, now: int)

  predicate CanBeScanned(p: Project) {
    Normalize(p).id != "" && Normalize(p).root != ""
  }

  /** Whether a finished rebuild wrote a new list. */
  predicate Rebuilds(e: Event) {
    e.FinishRebuild? && e.scan.Some? && e.writes && CanBeScanned(e.project)
  }

  function ScannedList(scan: Scan): (paths: seq<string>)
    ensures IsListing(paths)
  {
    Listed(scan.lines, scan.isFile)
  }

  /** What a run is measured by: the list last rebuilt for each index file, and the files that do
      not give theirs back. */
  datatype Reference = Reference(lists: map<string, seq<string>>, broken: set<string>)

  function Rewritten(ref: Reference, path: string, list: seq<string>): Reference {
    Reference(ref.lists[path := list], if Faithful(list) then ref.broken - {path} else ref.broken + {path})
  }

  /** The reference after one more event. */
  function ReferenceStep(pathOf: string -> string, ref: Reference, e: Event): Reference {
    var list := FinishedList(e);
    if list.Some? then Rewritten(ref, pathOf(Normalize(e.project).name), list.value) else ref
  }

  function ReferenceAfter(pathOf: string -> string, ref: Reference, events: seq<Event>): Reference {
    if events == [] then ref
    else ReferenceStep(pathOf, ReferenceAfter(pathOf, ref, events[..|events| - 1]), events[|events| - 1])
  }

  ghost predicate Mentions(e: Event, p: Project) {
    if e.ShowStatus? then exists q :: q in e.projects && Normalize(q) == p else Normalize(e.project) == p
  }

  ghost predicate Mentioned(events: seq<Event>, p: Project) {
    exists e :: e in events && Mentions(e, p)
  }

  /** Ids without NUL, and different projects on different index files. */
  ghost predicate Separated(pathOf: string -> string, events: seq<Event>) {
    && (forall p :: Mentioned(events, p) ==> NUL !in p.id)
    && (forall p, q :: Mentioned(events, p) && Mentioned(events, q) ==>
      (p.id == q.id <==> pathOf(p.name) == pathOf(q.name)))
  }

  /** Coherence depends on the id and the index file only. */
  lemma SameFileCoherent(fuzzy: Fuzzy, pathOf: string -> string, s: State, p: Project, q: Project)
    requires p.id == q.id && pathOf(p.name) == pathOf(q.name)
    ensures Coherent(fuzzy, pathOf, s, p) == Coherent(fuzzy, pathOf, s, q)
  {
  }

  /** Whoever is shown under q's id has q's index file. */
  ghost predicate ShownAlike(pathOf: string -> string, shown: seq<Project>, q: Project) {
    forall p :: p in shown && Normalize(p).id == q.id ==> pathOf(Normalize(p).name) == pathOf(q.name)
  }

  /** Every project whose id is used consistently stays coherent. */
  ghost predicate StaysCoherent(fuzzy: Fuzzy, pathOf: string -> string, s: State, t: State, shown: seq<Project>) {
    && t.disk == s.disk
    && forall q: Project ::
      (Coherent(fuzzy, pathOf, s, q) && ShownAlike(pathOf, shown, q) ==> Coherent(fuzzy, pathOf, t, q))
  }

  lemma PrunedCoherent(fuzzy: Fuzzy, pathOf: string -> string, s: State, t: State, shown: seq<Project>)
    requires Pruned(s, t)
    ensures StaysCoherent(fuzzy, pathOf, s, t, shown)
  {
    forall q: Project | Coherent(fuzzy, pathOf, s, q) ensures Coherent(fuzzy, pathOf, t, q) {
      KeepsCoherent(fuzzy, pathOf, s, t, q);
    }
  }

  lemma ShownCoherent(fuzzy: Fuzzy, pathOf: string -> string, s: State, t: State, u: State, shown: seq<Project>,
      raw: Project, snap: Snapshot)
    requires StaysCoherent(fuzzy, pathOf, s, t, shown) && raw in shown
    requires u == t.(snapshots := t.snapshots[Normalize(raw).id := snap])
    requires Known(t.snapshots, t.disk, Normalize(raw).id, pathOf(Normalize(raw).name)) ==>
      SnapshotAgrees(snap, t.disk, pathOf(Normalize(raw).name))
    ensures StaysCoherent(fuzzy, pathOf, s, u, shown)
  {
  }

  /** What a finished rebuild leaves, whether it succeeded or not. */
  ghost predicate Finished(fuzzy: Fuzzy, pathOf: string -> string, s: State, t: State, p: Project,
    list: Option<seq<string>>)
  {
    match list
    case Some(paths) => RebuiltRightly(fuzzy, pathOf, s, t, p, paths)
    case None =>
      t.disk == s.disk && forall q: Project :: Coherent(fuzzy, pathOf, s, q) ==> Coherent(fuzzy, pathOf, t, q)
  }

  /** Dropping sessions after the rebuild changes none of it. */
  lemma FinishedAfterDrop(fuzzy: Fuzzy, pathOf: string -> string, s: State, t: State, u: State, p: Project,
      list: Option<seq<string>>)
    requires Finished(fuzzy, pathOf, s, t, p, list)
    requires u.snapshots == t.snapshots && u.disk == t.disk
    requires forall k :: k in u.sessions ==> k in t.sessions && u.sessions[k] == t.sessions[k]
    ensures Finished(fuzzy, pathOf, s, u, p, list)
  {
    forall q: Project ensures Keeps(pathOf, t, u, q) { }
    forall q: Project | Coherent(fuzzy, pathOf, t, q) ensures Coherent(fuzzy, pathOf, u, q) {
      KeepsCoherent(fuzzy, pathOf, t, u, q);
    }
  }

  lemma ReplacedAfterDrop(fuzzy: Fuzzy, pathOf: string -> string, s: State, t: State, u: State,
      disk: map<string, string>, p: Project, paths: seq<string>, now: int)
    requires Replaced(fuzzy, pathOf, s, t, disk, p, paths, now)
    requires u.snapshots == t.snapshots && u.disk == t.disk && u.lastErrors == t.lastErrors
    requires forall k :: k in u.sessions ==> k in t.sessions && u.sessions[k] == t.sessions[k]
    ensures Replaced(fuzzy, pathOf, s, u, disk, p, paths, now)
  {
    FinishedAfterDrop(fuzzy, pathOf, s, t, u, p, Some(paths));
    hide RebuiltRightly;
    hide Installed;
  }

  lemma FailedAfterDrop(pathOf: string -> string, s: State, t: State, u: State, p: Project)
    requires OnlyFailed(pathOf, s, t, p)
    requires u.snapshots == t.snapshots && u.disk == t.disk && u.lastErrors == t.lastErrors
    ensures OnlyFailed(pathOf, s, u, p)
  {
  }

  /** The placeholder of a failed first rebuild claims nothing. */
  lemma FailedCoherent(fuzzy: Fuzzy, pathOf: string -> string, s: State, t: State, p: Project)
    requires p.id !in s.snapshots && t.disk == s.disk && t.sessions == s.sessions
    requires t.snapshots == s.snapshots[p.id := UnloadedSnapshot(p, pathOf(p.name), Failed, 0)]
    ensures Finished(fuzzy, pathOf, s, t, p, None)
  {
  }

  lemma ReplacedIsFinished(fuzzy: Fuzzy, pathOf: string -> string, s: State, t: State, disk: map<string, string>,
      p: Project, paths: seq<string>, now: int)
    requires Replaced(fuzzy, pathOf, s, t, disk, p, paths, now)
    ensures Finished(fuzzy, pathOf, s, t, p, Some(paths)) && FewerSessions(s.sessions, t.sessions)
  {
  }

  lemma SameFinished(fuzzy: Fuzzy, pathOf: string -> string, s: State, t: State, p: Project)
    requires t.snapshots == s.snapshots && t.disk == s.disk && t.sessions == s.sessions
    ensures Finished(fuzzy, pathOf, s, t, p, None)
  {
  }

  function FinishedList(e: Event): Option<seq<string>> {
    if Rebuilds(e) then Some(ScannedList(e.scan.value)) else None
  }

  /** How a rebuild ends: with the scanned list in place of the old one, or with nothing but its error. */
  ghost predicate RebuildEnds(fuzzy: Fuzzy, pathOf: string -> string, s: State, t: State, before: map<string, string>,
      after: map<string, string>, e: Event, done: bool)
  {
    && e.FinishRebuild? && (done <==> Rebuilds(e)) && FewerSessions(s.sessions, t.sessions)
    && Finished(fuzzy, pathOf, s, t, Normalize(e.project), FinishedList(e))
    && (done ==> Replaced(fuzzy, pathOf, s, t, after, Normalize(e.project), ScannedList(e.scan.value), e.now))
    && (!done ==> OnlyFailed(pathOf, s, t, Normalize(e.project)) && after == before)
  }

  lemma SucceededEnds(fuzzy: Fuzzy, pathOf: string -> string, s: State, t: State, before: map<string, string>,
      after: map<string, string>, e: Event)
    requires Rebuilds(e)
    requires Replaced(fuzzy, pathOf, s, t, after, Normalize(e.project), ScannedList(e.scan.value), e.now)
    ensures RebuildEnds(fuzzy, pathOf, s, t, before, after, e, true)
  {
    ReplacedIsFinished(fuzzy, pathOf, s, t, after, Normalize(e.project), ScannedList(e.scan.value), e.now);
    hide Replaced;
    hide Finished;
  }

  lemma FailedEnds(fuzzy: Fuzzy, pathOf: string -> string, s: State, t: State, disk: map<string, string>, e: Event)
    requires e.FinishRebuild? && !Rebuilds(e) && t.sessions == s.sessions
    requires Finished(fuzzy, pathOf, s, t, Normalize(e.project), None)
    requires OnlyFailed(pathOf, s, t, Normalize(e.project))
    ensures RebuildEnds(fuzzy, pathOf, s, t, disk, disk, e, false)
  {
    hide OnlyFailed;
    hide Finished;
  }

  /** Dropping sessions afterwards changes none of it. */
  lemma RebuildEndsAfterDrop(fuzzy: Fuzzy, pathOf: string -> string, s: State, t: State, u: State,
      before: map<string, string>, after: map<string, string>, e: Event, done: bool)
    requires RebuildEnds(fuzzy, pathOf, s, t, before, after, e, done)
    requires u.snapshots == t.snapshots && u.disk == t.disk && u.lastErrors == t.lastErrors
    requires forall k :: k in u.sessions ==> k in t.sessions && u.sessions[k] == t.sessions[k]
    ensures RebuildEnds(fuzzy, pathOf, s, u, before, after, e, done)
  {
    FinishedAfterDrop(fuzzy, pathOf, s, t, u, Normalize(e.project), FinishedList(e));
    if done {
      ReplacedAfterDrop(fuzzy, pathOf, s, t, u, after, Normalize(e.project), ScannedList(e.scan.value), e.now);
    } else {
      FailedAfterDrop(pathOf, s, t, u, Normalize(e.project));
    }
    hide Finished;
    hide Replaced;
    hide OnlyFailed;
  }
}
