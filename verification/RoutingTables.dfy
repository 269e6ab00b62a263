/** ProjectID, and when the ids of two hubs can be the same. */
module ProjectIds {
  import opened Text

  /** Hub ids as the registry keeps them: trimmed, and never empty. */
  predicate Proper(hub: string) {
    hub != "" && Trimmed(hub)
  }

  /** protocol.ProjectID. */
  function ProjectId(hub: string, name: string): string {
    var h, n := Trim(hub), Trim(name);
    if h == "" then n else if n == "" then h + ":" else h + ":" + n
  }

  lemma ProjectIdOfProper(hub: string, name: string)
    requires Proper(hub)
    ensures ProjectId(hub, name) == hub + ":" + Trim(name)
  {
    TrimOfTrimmed(hub);
    assert hub + ":" + "" == hub + ":";
  }

  lemma {:induction false} NotBlank(s: string)
    requires exists i :: 0 <= i < |s| && !IsSpace(s[i])
    ensures TrimLeft(s) != "" && !IsSpace(TrimLeft(s)[0])
  {
    if IsSpace(s[0]) {
      var i :| 0 <= i < |s| && !IsSpace(s[i]);
      assert s[1..][i - 1] == s[i];
      NotBlank(s[1..]);
    }
  }

  /** The registry's check for a blank project id never triggers. */
  lemma ProjectIdNotBlank(hub: string, name: string)
    requires Proper(hub)
    ensures Trim(ProjectId(hub, name)) != ""
  {
    ProjectIdOfProper(hub, name);
    var s := hub + ":" + Trim(name);
    assert s[|hub|] == ':';
    NotBlank(s);
    KeepsFirst(TrimLeft(s));
  }

  lemma {:induction false} KeepsFirst(l: string)
    requires l != "" && !IsSpace(l[0])
    ensures TrimRight(l) != ""
  {
    if IsSpace(l[|l| - 1]) {
      KeepsFirst(l[..|l| - 1]);
    }
  }

  /** The longer hub id continues the shorter one the way a project name does. */
  predicate Continues(a: string, b: string) {
    && |a| < |b| && b[..|a| + 1] == a + ":"
    && (|b| == |a| + 1 || !IsSpace(b[|a| + 1]))
  }

  predicate Overlap(a: string, b: string) {
    a == b || Continues(a, b) || Continues(b, a)
  }

  lemma SharedIdContinues(a: string, b: string, p: string, q: string)
    requires Proper(a) && Proper(b) && |a| < |b| && ProjectId(a, p) == ProjectId(b, q)
    ensures Continues(a, b)
  {
    ProjectIdOfProper(a, p);
    ProjectIdOfProper(b, q);
    var id := a + ":" + Trim(p);
    assert id == b + ":" + Trim(q);
    assert b[..|a| + 1] == id[..|a| + 1] == a + ":";
    if |b| > |a| + 1 {
      assert b[|a| + 1] == id[|a| + 1] == Trim(p)[0];
    }
  }

  lemma ProjectIdOfNone(hub: string)
    requires Proper(hub)
    ensures ProjectId(hub, "") == hub + ":"
  {
    TrimOfTrimmed(hub);
  }

  lemma RestTrimmed(a: string, b: string, p: string)
    requires Continues(a, b) && p == b[|a| + 1..] + ":"
    ensures Trim(p) == p && a + ":" + p == b + ":"
  {
    assert b == b[..|a| + 1] + b[|a| + 1..];
    assert a + ":" + p == (a + ":") + b[|a| + 1..] + ":";
    assert p[|p| - 1] == ':';
    TrimOfTrimmed(p);
  }

  lemma ContinuesShares(a: string, b: string, p: string)
    requires Proper(a) && Proper(b) && Continues(a, b) && p == b[|a| + 1..] + ":"
    ensures ProjectId(a, p) == ProjectId(b, "")
  {
    RestTrimmed(a, b, p);
    ProjectIdOfProper(a, p);
    ProjectIdOfNone(b);
  }

  lemma SharedIdOverlaps(a: string, b: string, p: string, q: string)
    requires Proper(a) && Proper(b) && ProjectId(a, p) == ProjectId(b, q)
    ensures Overlap(a, b)
  {
    if |a| < |b| {
      SharedIdContinues(a, b, p, q);
    } else if |b| < |a| {
      SharedIdContinues(b, a, q, p);
    } else {
      ProjectIdOfProper(a, p);
      ProjectIdOfProper(b, q);
      assert a == (a + ":" + Trim(p))[..|a|] == (b + ":" + Trim(q))[..|b|] == b;
    }
  }

  /** Two hubs can have a project id in common exactly when one hub id continues the other
      across a colon. */
  lemma IdsCollideIff(a: string, b: string)
    requires Proper(a) && Proper(b)
    ensures (exists p, q :: ProjectId(a, p) == ProjectId(b, q)) <==> Overlap(a, b)
  {
    forall p, q | ProjectId(a, p) == ProjectId(b, q) ensures Overlap(a, b) {
      SharedIdOverlaps(a, b, p, q);
    }
    if a == b {
      assert ProjectId(a, "") == ProjectId(b, "");
    } else if Continues(a, b) {
      ContinuesShares(a, b, b[|a| + 1..] + ":");
    } else if Continues(b, a) {
      ContinuesShares(b, a, a[|b| + 1..] + ":");
      assert ProjectId(a, "") == ProjectId(b, a[|b| + 1..] + ":");
    }
  }

  lemma ContinuingTakesColon(a: string, b: string)
    requires Continues(a, b)
    ensures ':' in b
  {
    assert b[|a|] == b[..|a| + 1][|a|];
  }

  /** Only hub ids with a colon in one of them overlap. */
  lemma OverlapTakesColon(a: string, b: string)
    requires Overlap(a, b) && a != b
    ensures ':' in a || ':' in b
  {
    if Continues(a, b) {
      ContinuingTakesColon(a, b);
    } else {
      ContinuingTakesColon(b, a);
    }
  }
}

/** The registry's three routing tables, and what its lock sections do to them. */
module RoutingTables {
  import opened Collections
  import opened Text
  import opened Sorting
  import opened ProjectIds

  datatype Project = Project(name: string, online: bool, detail: nat)

  datatype Snapshot = Snapshot(hubId: string, epoch: nat, projects: seq<Project>)

  /** hubs, hubPeers and projectToHub. A peer is known by the number of its connection. */
  datatype Tables = Tables(hubs: map<string, Snapshot>, peers: map<string, nat>, routes: map<string, string>)

  /** The id of a hub's project by its name, for which two names of the same key are the same. */
  datatype Naming = Naming(id: (string, string) -> string, key: string -> string)

  const NAMING := Naming(ProjectId, Trim)

  ghost predicate Consistently(n: Naming) {
    forall h, a, b :: n.key(a) == n.key(b) ==> n.id(h, a) == n.id(h, b)
  }

  lemma NamingConsistently()
    ensures Consistently(NAMING)
  {
  }

  const BY_NAME: (Project, Project) -> bool := (a: Project, b: Project) => Less(a.name, b.name)

  /** sort.Slice by name, which leaves the order of equal names open. */
  ghost predicate Arranged(before: seq<Project>, after: seq<Project>) {
    && multiset(before) == multiset(after)
    && forall i, j :: 0 <= i < j < |after| ==> !Less(after[j].name, after[i].name)
  }

  function Ids(n: Naming, hub: string, projects: seq<Project>): set<string> {
    set p | p in projects :: n.id(hub, p.name)
  }

  function Without(routes: map<string, string>, hub: string): map<string, string> {
    map i | i in routes && routes[i] != hub :: routes[i]
  }

  function WithAll(routes: map<string, string>, ids: set<string>, hub: string): map<string, string> {
    routes + map i | i in ids :: hub
  }

  function Reported(n: Naming, t: Tables, hub: string, peer: nat, epoch: nat, projects: seq<Project>): Tables {
    Tables(t.hubs[hub := Snapshot(hub, epoch, projects)], t.peers[hub := peer],
      WithAll(Without(t.routes, hub), Ids(n, hub, projects), hub))
  }

  /** The first project of the same name is replaced; a new one is appended. */
  function Put(key: string -> string, projects: seq<Project>, p: Project): seq<Project> {
    if projects == [] then [p]
    else if key(projects[0].name) == key(p.name) then [p] + projects[1..]
    else [projects[0]] + Put(key, projects[1..], p)
  }

  /** The project that Put replaces. */
  function FirstNamed(key: string -> string, projects: seq<Project>, p: Project): Option<Project> {
    if projects == [] then None
    else if key(projects[0].name) == key(p.name) then Some(projects[0])
    else FirstNamed(key, projects[1..], p)
  }

  function Updated(n: Naming, t: Tables, hub: string, p: Project, projects: seq<Project>): Tables
    requires hub in t.hubs
  {
    Tables(t.hubs[hub := t.hubs[hub].(projects := projects)], t.peers, t.routes[n.id(hub, p.name) := hub])
  }

  function Removed(t: Tables, hub: string): Tables {
    Tables(map h | h in t.hubs && h != hub :: t.hubs[h],
      map h | h in t.peers && h != hub :: t.peers[h],
      Without(t.routes, hub))
  }

  datatype Target = To(peer: nat) | NotFound | Offline

  function Resolved(t: Tables, projectId: string): Target {
    if projectId !in t.routes || t.routes[projectId] == "" then NotFound
    else if t.routes[projectId] !in t.peers then Offline
    else To(t.peers[t.routes[projectId]])
  }

  function ResolvedHub(t: Tables, hub: string): Target {
    if hub !in t.hubs || t.hubs[hub].hubId == "" then NotFound
    else if hub !in t.peers then Offline
    else To(t.peers[hub])
  }

  datatype UpdateReply = Stored(previous: Option<Project>) | NotInitialized | EpochMismatch

  lemma PutIds(n: Naming, hub: string, projects: seq<Project>, p: Project)
    requires Consistently(n)
    ensures Ids(n, hub, Put(n.key, projects, p)) == Ids(n, hub, projects) + {n.id(hub, p.name)}
  {
    if projects != [] {
      assert projects == [projects[0]] + projects[1..];
      if n.key(projects[0].name) != n.key(p.name) {
        PutIds(n, hub, projects[1..], p);
      }
      IdsCons(n, hub, projects[0], projects[1..]);
      IdsCons(n, hub, p, projects[1..]);
      IdsCons(n, hub, projects[0], Put(n.key, projects[1..], p));
    }
  }

  lemma IdsCons(n: Naming, hub: string, p: Project, rest: seq<Project>)
    ensures Ids(n, hub, [p] + rest) == {n.id(hub, p.name)} + Ids(n, hub, rest)
  {
    forall i ensures i in Ids(n, hub, [p] + rest) <==> i in {n.id(hub, p.name)} + Ids(n, hub, rest) {
      assert p in [p] + rest;
    }
  }

  lemma IdsSnoc(n: Naming, hub: string, projects: seq<Project>, k: nat)
    requires k < |projects|
    ensures Ids(n, hub, projects[..k + 1]) == Ids(n, hub, projects[..k]) + {n.id(hub, projects[k].name)}
  {
    var more, fewer := projects[..k + 1], projects[..k];
    assert more == fewer + [projects[k]];
    forall i ensures i in Ids(n, hub, more) <==> i in Ids(n, hub, fewer) + {n.id(hub, projects[k].name)} {
      assert projects[k] in more;
    }
  }

  lemma WithAllSnoc(routes: map<string, string>, ids: set<string>, id: string, hub: string)
    ensures WithAll(routes, ids + {id}, hub) == WithAll(routes, ids, hub)[id := hub]
  {
  }

  predicate NoneBlank(n: Naming, hub: string, projects: seq<Project>) {
    forall p :: p in projects ==> Trim(n.id(hub, p.name)) != ""
  }

  lemma NoProjectIdBlank(hub: string, projects: seq<Project>)
    requires Proper(hub)
    ensures NoneBlank(NAMING, hub, projects)
  {
    forall p | p in projects ensures Trim(ProjectId(hub, p.name)) != "" {
      ProjectIdNotBlank(hub, p.name);
    }
  }

  lemma ArrangedIds(n: Naming, hub: string, before: seq<Project>, after: seq<Project>)
    requires Arranged(before, after)
    ensures Ids(n, hub, after) == Ids(n, hub, before)
  {
    SameElements(before, after);
  }

  lemma {:induction false} PutAt(key: string -> string, projects: seq<Project>, p: Project, k: nat)
    requires k < |projects| && key(projects[k].name) == key(p.name)
    requires forall j :: 0 <= j < k ==> key(projects[j].name) != key(p.name)
    ensures Put(key, projects, p) == projects[k := p] && FirstNamed(key, projects, p) == Some(projects[k])
  {
    if k == 0 {
      assert projects[0 := p] == [p] + projects[1..];
    } else {
      PutAt(key, projects[1..], p, k - 1);
      assert projects[k := p] == [projects[0]] + projects[1..][k - 1 := p];
    }
  }

  lemma {:induction false} PutNew(key: string -> string, projects: seq<Project>, p: Project)
    requires forall j :: 0 <= j < |projects| ==> key(projects[j].name) != key(p.name)
    ensures Put(key, projects, p) == projects + [p] && FirstNamed(key, projects, p) == None
  {
    if projects != [] {
      PutNew(key, projects[1..], p);
      assert projects + [p] == [projects[0]] + (projects[1..] + [p]);
    }
  }

  /** The loop over hub.Projects: replace the first project of that name, or append it. */
  method PutIn(key: string -> string, projects: seq<Project>, p: Project)
      returns (after: seq<Project>, previous: Option<Project>)
    ensures after == Put(key, projects, p) && previous == FirstNamed(key, projects, p)
    ensures previous.None? <==> forall j :: 0 <= j < |projects| ==> key(projects[j].name) != key(p.name)
  {
    for k := 0 to |projects|
      invariant forall j :: 0 <= j < k ==> key(projects[j].name) != key(p.name)
    {
      if key(projects[k].name) == key(p.name) {
        PutAt(key, projects, p, k);
        return projects[k := p], Some(projects[k]);
      }
    }
    PutNew(key, projects, p);
    return projects + [p], None;
  }

  class Registry {
    var hubs: map<string, Snapshot>
    var hubPeers: map<string, nat>
    var projectToHub: map<string, string>

    ghost function View(): Tables
      reads this
    {
      Tables(hubs, hubPeers, projectToHub)
    }

    constructor ()
      ensures View() == Tables(map[], map[], map[])
    {
      hubs, hubPeers, projectToHub := map[], map[], map[];
    }

    /** for projectID, hubID := range projectToHub: delete the entries of one hub. */
    method DropRoutes(hub: string)
      modifies `projectToHub
      ensures projectToHub == Without(old(projectToHub), hub)
    {
      var all := projectToHub;
      var left := all.Keys;
      while left != {}
        invariant left <= all.Keys
        invariant projectToHub == map i | i in all && (i in left || all[i] != hub) :: all[i]
        decreases left
      {
        var i := AnyOf(left);
        left := left - {i};
        if all[i] == hub {
          projectToHub := projectToHub - {i};
        }
      }
    }

    /** The write section of a project report. */
    method StoreReport(peer: nat, hub: string, epoch: nat, projects: seq<Project>) returns (previous: seq<Project>)
      requires Proper(hub)
      modifies this
      ensures View() == Reported(NAMING, old(View()), hub, peer, epoch, projects)
      ensures previous == if hub in old(hubs) then old(hubs)[hub].projects else []
    {
      previous := if hub in hubs then hubs[hub].projects else [];
      hubPeers := hubPeers[hub := peer];
      DropRoutes(hub);
      NoProjectIdBlank(hub, projects);
      AddRoutes(NAMING, hub, projects);
      hubs := hubs[hub := Snapshot(hub, epoch, projects)];
    }

    /** for _, p := range payload.Projects: route each project to the hub. */
    method AddRoutes(n: Naming, hub: string, projects: seq<Project>)
      requires NoneBlank(n, hub, projects)
      modifies `projectToHub
      ensures projectToHub == WithAll(old(projectToHub), Ids(n, hub, projects), hub)
    {
      for k := 0 to |projects|
        invariant projectToHub == WithAll(old(projectToHub), Ids(n, hub, projects[..k]), hub)
      {
        var id := n.id(hub, projects[k].name);
        IdsSnoc(n, hub, projects, k);
        WithAllSnoc(old(projectToHub), Ids(n, hub, projects[..k]), id, hub);
        if Trim(id) != "" {
          projectToHub := projectToHub[id := hub];
        }
      }
      assert projects[..|projects|] == projects;
    }

    /** The lock section of a single project's update. */
    method StoreUpdate(hub: string, epoch: nat, p: Project) returns (r: UpdateReply, projects: seq<Project>)
      requires Proper(hub) && forall h :: h in hubs ==> hubs[h].hubId == h
      modifies this
      ensures r.NotInitialized? <==> hub !in old(hubs)
      ensures r.Stored? <==> hub in old(hubs) && old(hubs)[hub].epoch == epoch
      ensures !r.Stored? ==> View() == old(View())
      ensures r.Stored? ==> Arranged(Put(Trim, old(hubs)[hub].projects, p), projects)
      ensures r.Stored? ==> r.previous == FirstNamed(Trim, old(hubs)[hub].projects, p)
      ensures r.Stored? ==> View() == Updated(NAMING, old(View()), hub, p, projects)
    {
      projects := [];
      if hub !in hubs || hubs[hub].hubId == "" {
        return NotInitialized, [];
      }
      if hubs[hub].epoch != epoch {
        return EpochMismatch, [];
      }
      var previous;
      projects, previous := PutIn(Trim, hubs[hub].projects, p);
      ByNameWeakOrder();
      SortSorted(BY_NAME, projects);
      projects := Sort(BY_NAME, projects);
      hubs := hubs[hub := hubs[hub].(projects := projects)];
      var id := ProjectId(hub, p.name);
      ProjectIdNotBlank(hub, p.name);
      if Trim(id) != "" {
        projectToHub := projectToHub[id := hub];
      }
      r := Stored(previous);
    }

    /** unregisterHub: only the connection that owns the entry removes it. */
    method Unregister(peer: nat, hub: string) returns (gone: seq<Project>)
      modifies this
      ensures hub == "" || hub !in old(hubPeers) || old(hubPeers)[hub] != peer ==> View() == old(View()) && gone == []
      ensures hub != "" && hub in old(hubPeers) && old(hubPeers)[hub] == peer ==> View() == Removed(old(View()), hub)
      ensures hub != "" && hub in old(hubPeers) && old(hubPeers)[hub] == peer ==>
        gone == if hub in old(hubs) then old(hubs)[hub].projects else []
    {
      gone := [];
      if hub == "" || hub !in hubPeers || hubPeers[hub] != peer {
        return;
      }
      gone := if hub in hubs then hubs[hub].projects else [];
      hubPeers := hubPeers - {hub};
      hubs := hubs - {hub};
      DropRoutes(hub);
    }

    /** Where a client's project request goes. */
    method Resolve(projectId: string) returns (r: Target)
      ensures r == Resolved(View(), projectId)
    {
      var hub := if projectId in projectToHub then projectToHub[projectId] else "";
      if hub == "" {
        return NotFound;
      }
      if hub !in hubPeers {
        return Offline;
      }
      r := To(hubPeers[hub]);
    }

    /** Where a hub state or relay request goes. */
    method ResolveHub(hub: string) returns (r: Target)
      ensures r == ResolvedHub(View(), hub)
    {
      if hub !in hubs || hubs[hub].hubId == "" {
        return NotFound;
      }
      if hub !in hubPeers {
        return Offline;
      }
      r := To(hubPeers[hub]);
    }
  }

  lemma ByNameWeakOrder()
    ensures WeakOrder(BY_NAME)
  {
    LessIsStrictTotalOrder();
  }
}
