/** Hub connections over the routing tables. The handlers of one connection run one after the
    other; those of different connections interleave at the lock sections, so a report checks
    the epoch in one step and stores the tables in a later one. */
module RoutingRuns {
  import Runs
  import opened Collections
  import opened Text
  import opened ProjectIds
  import opened RoutingTables

  datatype Code = InvalidArgument | Forbidden | Conflict

  datatype Phase = Serving | Storing(projects: seq<Project>) | Gone

  /** A hub's connection after connect.init. */
  datatype Conn = Conn(hub: string, epoch: nat, seqs: map<string, int>, phase: Phase)

  datatype State = State(tables: Tables, conns: map<nat, Conn>, epochs: nat)

  datatype Report = Report(envelopeHub: string, payloadHub: string, epoch: nat, projects: seq<Project>)

  datatype Update = Update(envelopeHub: string, payloadHub: string, epoch: nat, number: int, project: Project,
    dated: bool)

  /** Connection numbers and epochs come from counters; a client takes an epoch too. The
      projects after a sort are part of the action, for the source leaves equal names in any order. */
  datatype Action =
    | Connect(hub: string) | ClientConnects
    | ReportArrives(c: nat, report: Report, sorted: seq<Project>) | ReportStored(c: nat)
    | UpdateArrives(c: nat, update: Update, arranged: seq<Project>)
    | Disconnect(c: nat)

  function Start(): State {
    State(Tables(map[], map[], map[]), map[], 0)
  }

  /** What both kinds of message are checked for first. */
  function WrongHub(conn: Conn, envelopeHub: string, payloadHub: string): Option<Code> {
    var hub := Trim(envelopeHub);
    if hub == "" then Some(InvalidArgument)
    else if hub != conn.hub then Some(Forbidden)
    else if Trim(payloadHub) != "" && Trim(payloadHub) != hub then Some(InvalidArgument)
    else None
  }

  /** The checks of a report before it looks at the tables. */
  function HeaderError(conn: Conn, r: Report): Option<Code> {
    if WrongHub(conn, r.envelopeHub, r.payloadHub).Some? then WrongHub(conn, r.envelopeHub, r.payloadHub)
    else if r.epoch != conn.epoch then Some(Conflict)
    else None
  }

  function ReportError(t: Tables, conn: Conn, r: Report): Option<Code> {
    if HeaderError(conn, r).Some? then HeaderError(conn, r)
    else if conn.hub in t.hubs && conn.epoch < t.hubs[conn.hub].epoch then Some(Conflict)
    else None
  }

  function LastSeq(conn: Conn, name: string): int {
    if name in conn.seqs then conn.seqs[name] else 0
  }

  /** The checks of an update before the lock section: all that its sender can see. */
  function MessageError(conn: Conn, u: Update): Option<Code> {
    if WrongHub(conn, u.envelopeHub, u.payloadHub).Some? then WrongHub(conn, u.envelopeHub, u.payloadHub)
    else if u.epoch != conn.epoch then Some(Conflict)
    else if u.number < 1 || Trim(u.project.name) == "" || !u.dated then Some(InvalidArgument)
    else if u.number <= LastSeq(conn, Trim(u.project.name)) then Some(Conflict)
    else None
  }

  function UpdateError(t: Tables, conn: Conn, u: Update): Option<Code> {
    if MessageError(conn, u).Some? then MessageError(conn, u)
    else if conn.hub !in t.hubs || t.hubs[conn.hub].epoch != conn.epoch then Some(Conflict)
    else None
  }

  predicate Ready(s: State, c: nat) {
    c in s.conns && s.conns[c].phase.Serving?
  }

  function AfterConnect(s: State, hub: string): State {
    State(s.tables, s.conns[|s.conns| := Conn(hub, s.epochs + 1, map[], Serving)], s.epochs + 1)
  }

  /** The checks of handleHubReportProjects, up to the write section. */
  function AfterReportArrives(s: State, c: nat, r: Report, sorted: seq<Project>): State
    requires c in s.conns
  {
    if ReportError(s.tables, s.conns[c], r).Some? then s
    else s.(conns := s.conns[c := s.conns[c].(seqs := map[], phase := Storing(sorted))])
  }

  function AfterReportStored(n: Naming, s: State, c: nat): State
    requires c in s.conns && s.conns[c].phase.Storing?
  {
    var conn := s.conns[c];
    s.(tables := Reported(n, s.tables, conn.hub, c, conn.epoch, conn.phase.projects),
      conns := s.conns[c := conn.(phase := Serving)])
  }

  function AfterUpdateArrives(n: Naming, s: State, c: nat, u: Update, arranged: seq<Project>): State
    requires c in s.conns
  {
    var conn := s.conns[c];
    if UpdateError(s.tables, conn, u).Some? then s
    else
      s.(tables := Updated(n, s.tables, conn.hub, u.project, arranged),
        conns := s.conns[c := conn.(seqs := conn.seqs[Trim(u.project.name) := u.number])])
  }

  function AfterDisconnect(s: State, c: nat): State
    requires c in s.conns
  {
    var conn := s.conns[c];
    var gone := s.conns[c := conn.(phase := Gone)];
    if conn.hub in s.tables.peers && s.tables.peers[conn.hub] == c then
      s.(tables := Removed(s.tables, conn.hub), conns := gone)
    else s.(conns := gone)
  }

  ghost predicate Step(n: Naming, s: State, a: Action, next: State) {
    match a
    case Connect(hub) => Proper(hub) && next == AfterConnect(s, hub)
    case ClientConnects => next == s.(epochs := s.epochs + 1)
    case ReportArrives(c, r, sorted) =>
      Ready(s, c) && Arranged(r.projects, sorted) && next == AfterReportArrives(s, c, r, sorted)
    case ReportStored(c) => c in s.conns && s.conns[c].phase.Storing? && next == AfterReportStored(n, s, c)
    case UpdateArrives(c, u, arranged) =>
      Ready(s, c) && ArrangedUpdate(n, s, c, u, arranged) && next == AfterUpdateArrives(n, s, c, u, arranged)
    case Disconnect(c) => Ready(s, c) && next == AfterDisconnect(s, c)
  }

  ghost predicate ArrangedUpdate(n: Naming, s: State, c: nat, u: Update, arranged: seq<Project>) {
    c in s.conns && s.conns[c].hub in s.tables.hubs ==>
      Arranged(Put(n.key, s.tables.hubs[s.conns[c].hub].projects, u.project), arranged)
  }

  /** hubPeers and hubs have the same keys. */
  ghost predicate TablesAgree(t: Tables) {
    t.hubs.Keys == t.peers.Keys && forall h {:trigger t.hubs[h]} :: h in t.hubs ==> t.hubs[h].hubId == h && h != ""
  }

  /** Every entry belongs to the live connection it names, and carries that connection's epoch. */
  ghost predicate Owned(s: State) {
    forall h {:trigger s.tables.peers[h]} :: h in s.tables.peers ==> OwnedBy(s, h, s.tables.peers[h])
  }

  ghost predicate OwnedBy(s: State, h: string, c: nat) {
    && c in s.conns && s.conns[c].hub == h && !s.conns[c].phase.Gone?
    && h in s.tables.hubs && s.tables.hubs[h].epoch == s.conns[c].epoch
  }

  /** No two connections have the same epoch. */
  ghost predicate EpochsApart(s: State) {
    && (forall c {:trigger s.conns[c]} :: c in s.conns ==>
      c < |s.conns| && s.conns[c].epoch <= s.epochs && Proper(s.conns[c].hub))
    && (forall c, d {:trigger s.conns[c], s.conns[d]} ::
      c in s.conns && d in s.conns && s.conns[c].epoch == s.conns[d].epoch ==> c == d)
  }

  /** Whatever is routed to a hub is a project of that hub's snapshot. */
  ghost predicate RoutesSound(n: Naming, t: Tables) {
    forall i {:trigger t.routes[i]} :: i in t.routes ==>
      t.routes[i] in t.hubs && i in Ids(n, t.routes[i], t.hubs[t.routes[i]].projects)
  }

  /** Every project of every snapshot is routed to its hub. */
  ghost predicate RoutesComplete(n: Naming, t: Tables) {
    forall h, i {:trigger i in Ids(n, h, t.hubs[h].projects)} :: h in t.hubs && i in Ids(n, h, t.hubs[h].projects) ==>
      i in t.routes && t.routes[i] == h
  }

  ghost predicate Consistent(n: Naming, s: State) {
    TablesAgree(s.tables) && Owned(s) && EpochsApart(s) && RoutesSound(n, s.tables)
  }

  /** No project id could belong to both hubs. */
  ghost predicate Apart(n: Naming, g: string, h: string) {
    forall p, q :: n.id(g, p) != n.id(h, q)
  }

  ghost predicate HubsApart(n: Naming, s: State) {
    forall c, d {:trigger s.conns[c].hub, s.conns[d].hub} ::
      c in s.conns && d in s.conns && s.conns[c].hub != s.conns[d].hub ==>
      Apart(n, s.conns[c].hub, s.conns[d].hub)
  }

  lemma ReportedSound(n: Naming, t: Tables, hub: string, peer: nat, epoch: nat, projects: seq<Project>)
    requires RoutesSound(n, t)
    ensures RoutesSound(n, Reported(n, t, hub, peer, epoch, projects))
  {
  }

  lemma UpdatedSound(n: Naming, t: Tables, hub: string, p: Project, arranged: seq<Project>)
    requires Consistently(n) && RoutesSound(n, t) && hub in t.hubs
    requires Arranged(Put(n.key, t.hubs[hub].projects, p), arranged)
    ensures RoutesSound(n, Updated(n, t, hub, p, arranged))
  {
    ArrangedIds(n, hub, Put(n.key, t.hubs[hub].projects, p), arranged);
    PutIds(n, hub, t.hubs[hub].projects, p);
  }

  lemma RemovedSound(n: Naming, t: Tables, hub: string)
    requires RoutesSound(n, t)
    ensures RoutesSound(n, Removed(t, hub))
  {
  }

  /** Every step keeps the routes sound. */
  lemma StepKeepsSound(n: Naming, s: State, a: Action, next: State)
    requires Consistently(n) && RoutesSound(n, s.tables) && Step(n, s, a, next)
    ensures RoutesSound(n, next.tables)
  {
    match a
    case ReportStored(c) =>
      ReportedSound(n, s.tables, s.conns[c].hub, c, s.conns[c].epoch, s.conns[c].phase.projects);
    case UpdateArrives(c, u, arranged) =>
      if next != s {
        UpdatedSound(n, s.tables, s.conns[c].hub, u.project, arranged);
      }
    case Disconnect(c) => RemovedSound(n, s.tables, s.conns[c].hub);
    case _ =>
  }

  lemma StepKeepsTables(n: Naming, s: State, a: Action, next: State)
    requires TablesAgree(s.tables) && EpochsApart(s) && Step(n, s, a, next)
    ensures TablesAgree(next.tables)
  {
    match a
    case ReportStored(c) =>
      assert Proper(s.conns[c].hub);
      assert next.tables.hubs.Keys == s.tables.hubs.Keys + {s.conns[c].hub} == next.tables.peers.Keys;
    case UpdateArrives(c, u, arranged) => UpdateKeepsTables(n, s, c, u, arranged);
    case Disconnect(c) => RemovedAgree(s.tables, s.conns[c].hub);
    case _ =>
  }

  lemma UpdateKeepsTables(n: Naming, s: State, c: nat, u: Update, arranged: seq<Project>)
    requires TablesAgree(s.tables) && c in s.conns
    ensures TablesAgree(AfterUpdateArrives(n, s, c, u, arranged).tables)
  {
    if UpdateError(s.tables, s.conns[c], u).None? {
      UpdatedAgree(n, s.tables, s.conns[c].hub, u.project, arranged);
    }
  }

  lemma UpdatedAgree(n: Naming, t: Tables, hub: string, p: Project, arranged: seq<Project>)
    requires TablesAgree(t) && hub in t.hubs
    ensures TablesAgree(Updated(n, t, hub, p, arranged))
  {
    assert Updated(n, t, hub, p, arranged).hubs.Keys == t.hubs.Keys;
  }

  lemma RemovedAgree(t: Tables, hub: string)
    requires TablesAgree(t)
    ensures TablesAgree(Removed(t, hub))
  {
  }

  /** The connections are the same, with the same hubs and epochs. */
  ghost predicate SameConns(s: State, next: State) {
    && next.conns.Keys == s.conns.Keys && next.epochs == s.epochs && |next.conns| == |s.conns|
    && forall c {:trigger next.conns[c]} :: c in next.conns ==>
      next.conns[c].hub == s.conns[c].hub && next.conns[c].epoch == s.conns[c].epoch
  }

  lemma OneConnChanges(s: State, next: State, c: nat, conn: Conn)
    requires c in s.conns && next.conns == s.conns[c := conn] && next.epochs == s.epochs
    requires conn.hub == s.conns[c].hub && conn.epoch == s.conns[c].epoch
    ensures SameConns(s, next)
  {
    assert next.conns.Keys == s.conns.Keys;
    assert |next.conns| == |next.conns.Keys|;
  }

  lemma StepChangesOneConn(n: Naming, s: State, a: Action, next: State)
    requires Step(n, s, a, next) && !a.Connect? && !a.ClientConnects?
    ensures SameConns(s, next)
  {
    var c := a.c;
    if next.conns != s.conns {
      OneConnChanges(s, next, c, next.conns[c]);
    }
  }

  lemma SameConnsApart(s: State, next: State)
    requires EpochsApart(s) && SameConns(s, next)
    ensures EpochsApart(next)
  {
    forall c, d | c in next.conns && d in next.conns && next.conns[c].epoch == next.conns[d].epoch ensures c == d {
      assert s.conns[c].epoch == s.conns[d].epoch;
    }
  }

  lemma ConnectApart(s: State, hub: string)
    requires EpochsApart(s) && Proper(hub)
    ensures EpochsApart(AfterConnect(s, hub))
  {
    assert |s.conns| !in s.conns;
  }

  lemma StepKeepsEpochs(n: Naming, s: State, a: Action, next: State)
    requires EpochsApart(s) && Step(n, s, a, next)
    ensures EpochsApart(next)
  {
    if a.Connect? {
      ConnectApart(s, a.hub);
    } else if !a.ClientConnects? {
      StepChangesOneConn(n, s, a, next);
      SameConnsApart(s, next);
    }
  }

  /** Owned as a fact about one hub, for steps that leave that hub's entries alone. */
  lemma OwnerStays(s: State, next: State, h: string, c: nat)
    requires OwnedBy(s, h, c) && c in next.conns
    requires next.conns[c].hub == s.conns[c].hub && next.conns[c].epoch == s.conns[c].epoch
    requires !next.conns[c].phase.Gone?
    requires h in next.tables.hubs && next.tables.hubs[h].epoch == s.tables.hubs[h].epoch
    ensures OwnedBy(next, h, c)
  {
  }

  lemma ConnectKeepsOwned(s: State, hub: string)
    requires Owned(s) && EpochsApart(s)
    ensures Owned(AfterConnect(s, hub))
  {
    var next := AfterConnect(s, hub);
    forall h | h in next.tables.peers ensures OwnedBy(next, h, next.tables.peers[h]) {
      assert OwnedBy(s, h, s.tables.peers[h]);
      assert |s.conns| !in s.conns;
      OwnerStays(s, next, h, s.tables.peers[h]);
    }
  }

  lemma ArrivesKeepsOwned(s: State, c: nat, r: Report, sorted: seq<Project>)
    requires Owned(s) && Ready(s, c)
    ensures Owned(AfterReportArrives(s, c, r, sorted))
  {
    var next := AfterReportArrives(s, c, r, sorted);
    forall h | h in next.tables.peers ensures OwnedBy(next, h, next.tables.peers[h]) {
      assert OwnedBy(s, h, s.tables.peers[h]);
      OwnerStays(s, next, h, s.tables.peers[h]);
    }
  }

  lemma StoredKeepsOwned(n: Naming, s: State, c: nat)
    requires Owned(s) && c in s.conns && s.conns[c].phase.Storing?
    ensures Owned(AfterReportStored(n, s, c))
  {
    var next := AfterReportStored(n, s, c);
    forall h | h in next.tables.peers ensures OwnedBy(next, h, next.tables.peers[h]) {
      if h != s.conns[c].hub {
        assert OwnedBy(s, h, s.tables.peers[h]);
        OwnerStays(s, next, h, s.tables.peers[h]);
      }
    }
  }

  lemma UpdateKeepsOwned(n: Naming, s: State, c: nat, u: Update, arranged: seq<Project>)
    requires Owned(s) && Ready(s, c)
    ensures Owned(AfterUpdateArrives(n, s, c, u, arranged))
  {
    if UpdateError(s.tables, s.conns[c], u).None? {
      var conn := s.conns[c].(seqs := s.conns[c].seqs[Trim(u.project.name) := u.number]);
      UpdatedKeepsOwned(n, s, c, u.project, arranged, conn);
    }
  }

  lemma UpdatedKeepsOwned(n: Naming, s: State, c: nat, p: Project, arranged: seq<Project>, conn: Conn)
    requires Owned(s) && c in s.conns && conn == s.conns[c].(seqs := conn.seqs) && conn.hub in s.tables.hubs
    ensures Owned(s.(tables := Updated(n, s.tables, conn.hub, p, arranged), conns := s.conns[c := conn]))
  {
    var next := s.(tables := Updated(n, s.tables, conn.hub, p, arranged), conns := s.conns[c := conn]);
    forall h | h in next.tables.peers ensures OwnedBy(next, h, next.tables.peers[h]) {
      assert OwnedBy(s, h, s.tables.peers[h]);
      OwnerStays(s, next, h, s.tables.peers[h]);
    }
  }

  lemma DisconnectKeepsOwned(s: State, c: nat)
    requires Owned(s) && c in s.conns
    ensures Owned(AfterDisconnect(s, c))
  {
    var next := AfterDisconnect(s, c);
    forall h | h in next.tables.peers ensures OwnedBy(next, h, next.tables.peers[h]) {
      assert h in s.tables.peers && OwnedBy(s, h, s.tables.peers[h]);
      OwnerStays(s, next, h, s.tables.peers[h]);
    }
  }

  lemma StepKeepsOwned(n: Naming, s: State, a: Action, next: State)
    requires Owned(s) && EpochsApart(s) && Step(n, s, a, next)
    ensures Owned(next)
  {
    match a
    case Connect(hub) => ConnectKeepsOwned(s, hub);
    case ClientConnects =>
      forall h | h in next.tables.peers ensures OwnedBy(next, h, next.tables.peers[h]) {
        assert OwnedBy(s, h, s.tables.peers[h]);
      }
    case ReportArrives(c, r, sorted) => ArrivesKeepsOwned(s, c, r, sorted);
    case ReportStored(c) => StoredKeepsOwned(n, s, c);
    case UpdateArrives(c, u, arranged) => UpdateKeepsOwned(n, s, c, u, arranged);
    case Disconnect(c) => DisconnectKeepsOwned(s, c);
  }

  /** What every step keeps. */
  lemma StepKeepsConsistent(n: Naming, s: State, a: Action, next: State)
    requires Consistently(n) && Consistent(n, s) && Step(n, s, a, next)
    ensures Consistent(n, next)
  {
    StepKeepsTables(n, s, a, next);
    StepKeepsOwned(n, s, a, next);
    StepKeepsEpochs(n, s, a, next);
    StepKeepsSound(n, s, a, next);
  }

  /** A run: the states it goes through, one more than the actions. */
  ghost predicate IsRun(n: Naming, actions: seq<Action>, states: seq<State>) {
    Runs.IsRun(StepsOf(n), actions, states) && states[0] == Start()
  }

  ghost function StepsOf(n: Naming): (State, Action, State) -> bool {
    (s, a, next) => Step(n, s, a, next)
  }

  lemma StepOfRun(n: Naming, actions: seq<Action>, states: seq<State>, i: nat)
    requires IsRun(n, actions, states) && i < |actions|
    ensures Step(n, states[i], actions[i], states[i + 1])
  {
    assert Runs.StepAt(StepsOf(n), actions, states, i);
  }

  lemma {:induction false} RunIsConsistent(n: Naming, actions: seq<Action>, states: seq<State>, k: nat)
    requires Consistently(n) && IsRun(n, actions, states) && k < |states|
    ensures Consistent(n, states[k])
  {
    if k > 0 {
      RunIsConsistent(n, actions, states, k - 1);
      StepOfRun(n, actions, states, k - 1);
      StepKeepsConsistent(n, states[k - 1], actions[k - 1], states[k]);
    }
  }

  lemma ReportedComplete(n: Naming, t: Tables, hub: string, peer: nat, epoch: nat, projects: seq<Project>)
    requires RoutesComplete(n, t) && forall h {:trigger t.hubs[h]} :: h in t.hubs && h != hub ==> Apart(n, hub, h)
    ensures RoutesComplete(n, Reported(n, t, hub, peer, epoch, projects))
  {
  }

  lemma UpdatedComplete(n: Naming, t: Tables, hub: string, p: Project, arranged: seq<Project>)
    requires Consistently(n) && hub in t.hubs && Arranged(Put(n.key, t.hubs[hub].projects, p), arranged)
    requires RoutesComplete(n, t) && forall h {:trigger t.hubs[h]} :: h in t.hubs && h != hub ==> Apart(n, hub, h)
    ensures RoutesComplete(n, Updated(n, t, hub, p, arranged))
  {
    ArrangedIds(n, hub, Put(n.key, t.hubs[hub].projects, p), arranged);
    PutIds(n, hub, t.hubs[hub].projects, p);
  }

  lemma RemovedComplete(n: Naming, t: Tables, hub: string)
    requires RoutesComplete(n, t)
    ensures RoutesComplete(n, Removed(t, hub))
  {
  }

  lemma OthersApart(n: Naming, s: State, c: nat)
    requires TablesAgree(s.tables) && Owned(s) && HubsApart(n, s) && c in s.conns
    ensures forall h {:trigger s.tables.hubs[h]} :: h in s.tables.hubs && h != s.conns[c].hub ==>
      Apart(n, s.conns[c].hub, h)
  {
    forall h | h in s.tables.hubs && h != s.conns[c].hub ensures Apart(n, s.conns[c].hub, h) {
      assert OwnedBy(s, h, s.tables.peers[h]);
      assert s.conns[s.tables.peers[h]].hub == h;
    }
  }

  lemma StepKeepsComplete(n: Naming, s: State, a: Action, next: State)
    requires Consistently(n) && Consistent(n, s) && Step(n, s, a, next)
    requires RoutesComplete(n, s.tables) && HubsApart(n, s)
    ensures RoutesComplete(n, next.tables)
  {
    match a
    case ReportStored(c) =>
      OthersApart(n, s, c);
      ReportedComplete(n, s.tables, s.conns[c].hub, c, s.conns[c].epoch, s.conns[c].phase.projects);
    case UpdateArrives(c, u, arranged) =>
      if next != s {
        OthersApart(n, s, c);
        UpdatedComplete(n, s.tables, s.conns[c].hub, u.project, arranged);
      }
    case Disconnect(c) => RemovedComplete(n, s.tables, s.conns[c].hub);
    case _ =>
  }

  lemma HubsApartBefore(n: Naming, s: State, a: Action, next: State)
    requires EpochsApart(s) && Step(n, s, a, next) && HubsApart(n, next)
    ensures HubsApart(n, s)
  {
    if !a.Connect? && !a.ClientConnects? {
      StepChangesOneConn(n, s, a, next);
    }
    forall c | c in s.conns ensures c in next.conns && next.conns[c].hub == s.conns[c].hub {
    }
    forall c, d | c in s.conns && d in s.conns && s.conns[c].hub != s.conns[d].hub
      ensures Apart(n, s.conns[c].hub, s.conns[d].hub)
    {
      assert next.conns[c].hub == s.conns[c].hub && next.conns[d].hub == s.conns[d].hub;
    }
  }

  /** In every run in which no two hubs can share a project id, projectToHub is exactly the map
      from the ids of all snapshot projects to their hubs. */
  lemma {:induction false} RunRoutesExactly(n: Naming, actions: seq<Action>, states: seq<State>, k: nat)
    requires Consistently(n) && IsRun(n, actions, states) && k < |states| && HubsApart(n, states[k])
    ensures RoutesSound(n, states[k].tables) && RoutesComplete(n, states[k].tables)
  {
    RunIsConsistent(n, actions, states, k);
    if k > 0 {
      RunIsConsistent(n, actions, states, k - 1);
      StepOfRun(n, actions, states, k - 1);
      HubsApartBefore(n, states[k - 1], actions[k - 1], states[k]);
      RunRoutesExactly(n, actions, states, k - 1);
      StepKeepsComplete(n, states[k - 1], actions[k - 1], states[k]);
    }
  }

  /** Hub ids that do not overlap, such as ids without a colon, keep all project ids apart. */
  lemma PlainHubsApart(s: State)
    requires EpochsApart(s)
    requires forall c, d {:trigger s.conns[c].hub, s.conns[d].hub} :: c in s.conns && d in s.conns ==>
      s.conns[c].hub == s.conns[d].hub || !Overlap(s.conns[c].hub, s.conns[d].hub)
    ensures HubsApart(NAMING, s)
  {
    forall c, d | c in s.conns && d in s.conns && s.conns[c].hub != s.conns[d].hub
      ensures Apart(NAMING, s.conns[c].hub, s.conns[d].hub)
    {
      IdsCollideIff(s.conns[c].hub, s.conns[d].hub);
    }
  }

  lemma ApartWithoutColons(s: State)
    requires EpochsApart(s)
    requires forall c {:trigger s.conns[c].hub} :: c in s.conns ==> ':' !in s.conns[c].hub
    ensures HubsApart(NAMING, s)
  {
    forall c, d | c in s.conns && d in s.conns && s.conns[c].hub != s.conns[d].hub
      ensures !Overlap(s.conns[c].hub, s.conns[d].hub)
    {
      if Overlap(s.conns[c].hub, s.conns[d].hub) {
        OverlapTakesColon(s.conns[c].hub, s.conns[d].hub);
      }
    }
    PlainHubsApart(s);
  }

  /** The registry itself, for hubs without a colon in their ids: its routes are exact in every run. */
  lemma RegistryRoutesExactly(actions: seq<Action>, states: seq<State>, k: nat)
    requires IsRun(NAMING, actions, states) && k < |states|
    requires forall c {:trigger states[k].conns[c].hub} :: c in states[k].conns ==> ':' !in states[k].conns[c].hub
    ensures RoutesSound(NAMING, states[k].tables) && RoutesComplete(NAMING, states[k].tables)
  {
    NamingConsistently();
    RunIsConsistent(NAMING, actions, states, k);
    ApartWithoutColons(states[k]);
    RunRoutesExactly(NAMING, actions, states, k);
  }

  /** No request ever finds its hub offline: it is not found, or it goes to the live connection
      whose latest report has the project. */
  lemma RequestsReachOwner(n: Naming, s: State, projectId: string)
    requires Consistent(n, s)
    ensures !Resolved(s.tables, projectId).Offline?
    ensures Resolved(s.tables, projectId).To? ==>
      exists h :: OwnedBy(s, h, Resolved(s.tables, projectId).peer) && projectId in Ids(n, h, s.tables.hubs[h].projects)
  {
    if projectId in s.tables.routes {
      var h := s.tables.routes[projectId];
      assert h in s.tables.hubs && s.tables.hubs[h].hubId == h;
      assert OwnedBy(s, h, s.tables.peers[h]);
    }
  }

  lemma HubRequestsReachOwner(n: Naming, s: State, hub: string)
    requires Consistent(n, s)
    ensures !ResolvedHub(s.tables, hub).Offline?
    ensures ResolvedHub(s.tables, hub).To? ==> OwnedBy(s, hub, ResolvedHub(s.tables, hub).peer)
  {
    if hub in s.tables.hubs {
      assert s.tables.hubs[hub].hubId == hub;
      assert OwnedBy(s, hub, s.tables.peers[hub]);
    }
  }

  /** Every project that some snapshot lists can be reached under its id. */
  lemma ListedProjectsReached(n: Naming, s: State, h: string, projectId: string)
    requires Consistent(n, s) && RoutesComplete(n, s.tables)
    requires h in s.tables.hubs && projectId in Ids(n, h, s.tables.hubs[h].projects)
    ensures h in s.tables.peers && Resolved(s.tables, projectId) == To(s.tables.peers[h])
  {
    assert s.tables.hubs[h].hubId == h;
    assert projectId in s.tables.routes;
  }

  /** An update that passes its first checks is accepted from the connection that owns the hub, and from no other. */
  lemma OnlyOwnerUpdates(n: Naming, s: State, c: nat, u: Update)
    requires Consistent(n, s) && c in s.conns
    ensures UpdateError(s.tables, s.conns[c], u).None? <==>
      (MessageError(s.conns[c], u).None? && s.conns[c].hub in s.tables.peers && s.tables.peers[s.conns[c].hub] == c)
  {
    OwnerHasEpoch(n, s, c);
  }

  /** The stored epoch is a connection's own exactly when the connection owns the hub. */
  lemma OwnerHasEpoch(n: Naming, s: State, c: nat)
    requires Consistent(n, s) && c in s.conns
    ensures var h := s.conns[c].hub;
      h in s.tables.hubs && s.tables.hubs[h].epoch == s.conns[c].epoch <==>
        h in s.tables.peers && s.tables.peers[h] == c
  {
    var h := s.conns[c].hub;
    if h in s.tables.peers {
      assert OwnedBy(s, h, s.tables.peers[h]);
      assert s.tables.hubs[h].epoch == s.conns[c].epoch <==> s.tables.peers[h] == c;
    }
  }

  /** A report that passes its first checks is refused exactly when a younger connection owns the
      hub. */
  lemma StaleReportsRefused(n: Naming, s: State, c: nat, r: Report)
    requires Consistent(n, s) && c in s.conns
    ensures ReportError(s.tables, s.conns[c], r).None? <==>
      HeaderError(s.conns[c], r).None? && !YoungerOwner(s, s.conns[c])
  {
    var h := s.conns[c].hub;
    if h in s.tables.peers {
      assert OwnedBy(s, h, s.tables.peers[h]);
    }
  }

  predicate YoungerOwner(s: State, conn: Conn) {
    && conn.hub in s.tables.peers && s.tables.peers[conn.hub] in s.conns
    && s.conns[s.tables.peers[conn.hub]].epoch > conn.epoch
  }

  /** The hub stays registered, under a smaller epoch. */
  ghost predicate EpochGoesBack(s: State, next: State) {
    exists h {:trigger next.tables.hubs[h]} ::
      h in s.tables.hubs && h in next.tables.hubs && next.tables.hubs[h].epoch < s.tables.hubs[h].epoch
  }

  /** The connection is about to store a report for a hub that has a younger epoch by now. */
  predicate Overtaken(s: State, c: nat) {
    && c in s.conns && s.conns[c].phase.Storing? && s.conns[c].hub in s.tables.hubs
    && s.tables.hubs[s.conns[c].hub].epoch > s.conns[c].epoch
  }

  lemma OtherStepsKeepEpochs(n: Naming, s: State, a: Action, next: State, h: string)
    requires Step(n, s, a, next) && !a.ReportStored? && h in s.tables.hubs && h in next.tables.hubs
    ensures next.tables.hubs[h].epoch == s.tables.hubs[h].epoch
  {
  }

  lemma StoringSetsEpoch(n: Naming, s: State, c: nat, next: State)
    requires Step(n, s, ReportStored(c), next)
    ensures EpochGoesBack(s, next) <==> Overtaken(s, c)
  {
    var h := s.conns[c].hub;
    assert next.tables.hubs[h].epoch == s.conns[c].epoch;
  }

  /** The one step that makes an epoch go back is storing a report that was overtaken. */
  lemma EpochGoesBackExactly(n: Naming, s: State, a: Action, next: State)
    requires Step(n, s, a, next)
    ensures EpochGoesBack(s, next) <==> a.ReportStored? && Overtaken(s, a.c)
  {
    if a.ReportStored? {
      StoringSetsEpoch(n, s, a.c, next);
    } else {
      forall h | h in s.tables.hubs && h in next.tables.hubs
        ensures next.tables.hubs[h].epoch == s.tables.hubs[h].epoch
      {
        OtherStepsKeepEpochs(n, s, a, next, h);
      }
    }
  }

  /** Connection d stores its report for the hub of c while c is between its check and its write. */
  predicate Overtakes(s: State, a: Action, c: nat) {
    && a.ReportStored? && a.c in s.conns && a.c != c && c in s.conns
    && s.conns[c].phase.Storing? && s.conns[a.c].hub == s.conns[c].hub
  }

  /** Some other connection stored its report for c's hub since c's check. */
  ghost predicate OvertakenSince(actions: seq<Action>, states: seq<State>, i: nat, c: nat)
    requires |states| == |actions| + 1 && i < |states|
  {
    exists k {:trigger actions[k]} ::
      0 <= k < i && Overtakes(states[k], actions[k], c) && StillStoring(actions, k, i, c)
  }

  predicate StillStoring(actions: seq<Action>, k: int, i: int, c: nat)
    requires 0 <= k && i <= |actions|
  {
    forall m {:trigger actions[m]} :: k < m < i ==> actions[m] != ReportStored(c)
  }

  /** Between a connection's check and its write, no other connection of its hub writes. */
  ghost predicate Undisturbed(actions: seq<Action>, states: seq<State>)
    requires |states| == |actions| + 1
  {
    forall i {:trigger actions[i]} :: 0 <= i < |actions| && actions[i].ReportStored? ==>
      !OvertakenSince(actions, states, i, actions[i].c)
  }

  lemma OvertakenStays(actions: seq<Action>, states: seq<State>, i: nat, c: nat)
    requires |states| == |actions| + 1 && i < |actions| && OvertakenSince(actions, states, i, c)
    requires actions[i] != ReportStored(c)
    ensures OvertakenSince(actions, states, i + 1, c)
  {
    var k :| 0 <= k < i && Overtakes(states[k], actions[k], c) && StillStoring(actions, k, i, c);
    assert StillStoring(actions, k, i + 1, c);
  }

  lemma JustOvertaken(actions: seq<Action>, states: seq<State>, i: nat, c: nat)
    requires |states| == |actions| + 1 && i < |actions| && Overtakes(states[i], actions[i], c)
    ensures OvertakenSince(actions, states, i + 1, c)
  {
    assert StillStoring(actions, i, i + 1, c);
  }

  lemma OvertakenStep(n: Naming, s: State, a: Action, next: State, c: nat)
    requires EpochsApart(s) && Step(n, s, a, next) && Overtaken(next, c)
    ensures Overtakes(s, a, c) || Overtaken(s, c)
    ensures a != ReportStored(c)
  {
  }

  lemma RunKeepsEpochsApart(n: Naming, actions: seq<Action>, states: seq<State>, k: nat)
    requires Consistently(n) && IsRun(n, actions, states) && k < |states|
    ensures EpochsApart(states[k])
  {
    RunIsConsistent(n, actions, states, k);
  }

  /** A connection found overtaken was overtaken by somebody since its check. */
  lemma {:induction false} OvertakenBySomebody(n: Naming, actions: seq<Action>, states: seq<State>, i: nat, c: nat)
    requires Consistently(n) && IsRun(n, actions, states) && i < |states| && Overtaken(states[i], c)
    ensures OvertakenSince(actions, states, i, c)
  {
    if i > 0 {
      RunKeepsEpochsApart(n, actions, states, i - 1);
      if Overtaken(states[i - 1], c) {
        OvertakenBySomebody(n, actions, states, i - 1, c);
      }
      OvertakenNext(n, actions, states, i - 1, c);
    }
  }

  lemma OvertakenNext(n: Naming, actions: seq<Action>, states: seq<State>, i: nat, c: nat)
    requires IsRun(n, actions, states) && i < |actions| && EpochsApart(states[i]) && Overtaken(states[i + 1], c)
    requires Overtaken(states[i], c) ==> OvertakenSince(actions, states, i, c)
    ensures OvertakenSince(actions, states, i + 1, c)
  {
    StepOfRun(n, actions, states, i);
    OvertakenStep(n, states[i], actions[i], states[i + 1], c);
    if Overtakes(states[i], actions[i], c) {
      JustOvertaken(actions, states, i, c);
    } else {
      OvertakenStays(actions, states, i, c);
    }
  }

  /** Epochs never go back in a run in which no connection writes between the check and the write
      of another connection of its hub. */
  lemma UndisturbedEpochsGrow(n: Naming, actions: seq<Action>, states: seq<State>, i: nat)
    requires Consistently(n) && IsRun(n, actions, states) && Undisturbed(actions, states) && i < |actions|
    ensures !EpochGoesBack(states[i], states[i + 1])
  {
    StepOfRun(n, actions, states, i);
    EpochGoesBackExactly(n, states[i], actions[i], states[i + 1]);
    if actions[i].ReportStored? {
      NotOvertaken(n, actions, states, i);
    }
  }

  lemma NotOvertaken(n: Naming, actions: seq<Action>, states: seq<State>, i: nat)
    requires Consistently(n) && IsRun(n, actions, states) && Undisturbed(actions, states) && i < |actions|
    requires actions[i].ReportStored?
    ensures !Overtaken(states[i], actions[i].c)
  {
    var c := actions[i].c;
    assert !OvertakenSince(actions, states, i, c);
    if Overtaken(states[i], c) {
      OvertakenBySomebody(n, actions, states, i, c);
    }
  }

  /** A step after which connection c no longer owns hub h. */
  predicate Takes(s: State, a: Action, h: string, c: nat) {
    (a.Disconnect? && a.c == c) || (a.ReportStored? && a.c != c && a.c in s.conns && s.conns[a.c].hub == h)
  }

  /** The owner of a hub stays its owner until it disconnects or another connection reports for
      the same hub; in particular no other connection's disconnect takes the hub away. */
  lemma {:induction false} OwnerStaysReachable(n: Naming, actions: seq<Action>, states: seq<State>, i: nat, k: nat,
      h: string, c: nat)
    requires Consistently(n) && IsRun(n, actions, states) && i <= k < |states|
    requires h in states[i].tables.peers && states[i].tables.peers[h] == c
    requires forall m {:trigger actions[m]} :: i <= m < k ==> !Takes(states[m], actions[m], h, c)
    ensures ResolvedHub(states[k].tables, h) == To(c) && OwnedBy(states[k], h, c)
    decreases k
  {
    RunIsConsistent(n, actions, states, k);
    if k > i {
      OwnerStaysReachable(n, actions, states, i, k - 1, h, c);
      RunIsConsistent(n, actions, states, k - 1);
      StepOfRun(n, actions, states, k - 1);
      assert !Takes(states[k - 1], actions[k - 1], h, c);
      OwnerStaysOneStep(n, states[k - 1], actions[k - 1], states[k], h, c);
    }
    assert OwnedBy(states[k], h, states[k].tables.peers[h]);
    assert states[k].tables.hubs[h].hubId == h;
  }

  lemma OwnerStaysOneStep(n: Naming, s: State, a: Action, next: State, h: string, c: nat)
    requires Step(n, s, a, next) && !Takes(s, a, h, c)
    requires h in s.tables.peers && s.tables.peers[h] == c
    ensures h in next.tables.peers && next.tables.peers[h] == c
  {
  }
}

/** Two runs that show what the tables do not promise. */
module RoutingLimits {
  import Runs
  import opened Text
  import opened Sorting
  import opened ProjectIds
  import opened RoutingTables
  import opened RoutingRuns

  lemma Extend(n: Naming, actions: seq<Action>, states: seq<State>, a: Action, next: State)
    returns (later: seq<Action>, reached: seq<State>)
    requires IsRun(n, actions, states) && Step(n, states[|actions|], a, next)
    ensures IsRun(n, later, reached) && reached[|later|] == next
  {
    later, reached := actions + [a], states + [next];
    Runs.RunPlus(StepsOf(n), actions, states, a, next);
  }

  ghost predicate EndsAt(n: Naming, actions: seq<Action>, states: seq<State>, s: State) {
    IsRun(n, actions, states) && states[|actions|] == s
  }

  ghost predicate Reachable(n: Naming, s: State) {
    exists actions, states :: EndsAt(n, actions, states, s)
  }

  lemma StartReachable(n: Naming)
    ensures Reachable(n, Start())
  {
    assert EndsAt(n, [], [Start()], Start());
  }

  lemma StepReachable(n: Naming, s: State, a: Action, next: State)
    requires Reachable(n, s) && Step(n, s, a, next)
    ensures Reachable(n, next)
  {
    var actions, states :| EndsAt(n, actions, states, s);
    var later, reached := Extend(n, actions, states, a, next);
    assert EndsAt(n, later, reached, next);
  }

  /** A hub connection and what it is about to store. */
  function Reporting(conn: Conn, projects: seq<Project>): Conn {
    conn.(seqs := map[], phase := Storing(projects))
  }

  /** A report for the connection's own hub and epoch passes as long as no later epoch is stored. */
  lemma OwnReportPasses(t: Tables, conn: Conn, projects: seq<Project>)
    requires Proper(conn.hub) && (conn.hub in t.hubs ==> t.hubs[conn.hub].epoch <= conn.epoch)
    ensures ReportError(t, conn, Report(conn.hub, "", conn.epoch, projects)).None?
  {
    var r := Report(conn.hub, "", conn.epoch, projects);
    OwnHubRight(conn);
    assert WrongHub(conn, r.envelopeHub, r.payloadHub).None?;
  }

  lemma OwnHubRight(conn: Conn)
    requires Proper(conn.hub)
    ensures WrongHub(conn, conn.hub, "").None?
  {
    var hub, none := conn.hub, "";
    assert Trim(hub) == hub by { TrimOfTrimmed(hub); }
    assert Trim(none) == none by { TrimOfTrimmed(none); }
  }

  /** Two connections of the given hubs, both about to store a report. */
  function BothStoring(a: string, p: seq<Project>, b: string, q: seq<Project>): State {
    State(Tables(map[], map[], map[]), map[0 := Conn(a, 1, map[], Storing(p)), 1 := Conn(b, 2, map[], Storing(q))], 2)
  }

  lemma BothStoringReachable(n: Naming, a: string, p: seq<Project>, b: string, q: seq<Project>)
    requires Proper(a) && Proper(b) && SortedBy(BY_NAME, p) && SortedBy(BY_NAME, q)
    ensures Reachable(n, BothStoring(a, p, b, q))
  {
    var none := Tables(map[], map[], map[]);
    var c, d := Conn(a, 1, map[], Serving), Conn(b, 2, map[], Serving);
    var s1 := State(none, map[0 := c], 1);
    var s2 := State(none, map[0 := c, 1 := d], 2);
    var s3 := State(none, map[0 := Reporting(c, p), 1 := d], 2);
    StartReachable(n);
    assert AfterConnect(Start(), a).conns == s1.conns;
    StepReachable(n, Start(), Connect(a), s1);
    assert |s1.conns| == 1;
    assert AfterConnect(s1, b).conns == s2.conns;
    StepReachable(n, s1, Connect(b), s2);
    OwnReportPasses(none, c, p);
    assert AfterReportArrives(s2, 0, Report(a, "", 1, p), p).conns == s3.conns;
    StepReachable(n, s2, ReportArrives(0, Report(a, "", 1, p), p), s3);
    OwnReportPasses(none, d, q);
    assert AfterReportArrives(s3, 1, Report(b, "", 2, q), q).conns == BothStoring(a, p, b, q).conns;
    StepReachable(n, s3, ReportArrives(1, Report(b, "", 2, q), q), BothStoring(a, p, b, q));
  }

  /** Two connections of one hub that are both between check and write: the younger may write
      first, and then the older makes the epoch go back. */
  lemma BothStoringLowersEpoch(n: Naming, s: State, older: nat, younger: nat) returns (mid: State, next: State)
    requires Reachable(n, s) && older in s.conns && younger in s.conns && older != younger
    requires s.conns[older].hub == s.conns[younger].hub && s.conns[older].epoch < s.conns[younger].epoch
    requires s.conns[older].phase.Storing? && s.conns[younger].phase.Storing?
    ensures Step(n, s, ReportStored(younger), mid) && Step(n, mid, ReportStored(older), next)
    ensures Reachable(n, next) && EpochGoesBack(mid, next)
  {
    mid := AfterReportStored(n, s, younger);
    StepReachable(n, s, ReportStored(younger), mid);
    next := AfterReportStored(n, mid, older);
    StepReachable(n, mid, ReportStored(older), next);
    var h := s.conns[older].hub;
    assert next.tables.hubs[h].epoch == s.conns[older].epoch && mid.tables.hubs[h].epoch == s.conns[younger].epoch;
  }

  /** The hub's snapshot goes from the projects q to the projects p, and its epoch back. */
  ghost predicate FallsBack(hub: string, p: seq<Project>, q: seq<Project>, mid: State, next: State) {
    && EpochGoesBack(mid, next) && hub in mid.tables.hubs && hub in next.tables.hubs
    && mid.tables.hubs[hub].projects == Sort(BY_NAME, q) && next.tables.hubs[hub].projects == Sort(BY_NAME, p)
  }

  /** For every hub id and any projects of two reports, some run makes the hub's epoch go back. */
  lemma EpochMayGoBack(n: Naming, hub: string, p: seq<Project>, q: seq<Project>)
    requires Proper(hub)
    ensures exists mid, next ::
      Reachable(n, mid) && Step(n, mid, ReportStored(0), next) && FallsBack(hub, p, q, mid, next)
  {
    ByNameWeakOrder();
    SortSorted(BY_NAME, p);
    SortSorted(BY_NAME, q);
    var both := BothStoring(hub, Sort(BY_NAME, p), hub, Sort(BY_NAME, q));
    BothStoringReachable(n, hub, Sort(BY_NAME, p), hub, Sort(BY_NAME, q));
    var mid, next := BothStoringLowersEpoch(n, both, 0, 1);
    StepReachable(n, both, ReportStored(1), mid);
    assert FallsBack(hub, p, q, mid, next);
  }

  /** For any two hub ids that overlap, the reports of the two hubs can leave a project that
      cannot be reached: together with PlainHubsApart, the routes are exact in every run exactly
      when the hub ids do not overlap. */
  lemma OverlappingHubsLoseRoutes(a: string, b: string)
    requires Proper(a) && Proper(b) && a != b && Overlap(a, b)
    ensures exists s :: Reachable(NAMING, s) && !RoutesComplete(NAMING, s.tables)
  {
    IdsCollideIff(a, b);
    var x, y :| ProjectId(a, x) == ProjectId(b, y);
    SharedIdLost(NAMING, a, b, x, y);
  }

  lemma SharedIdLost(n: Naming, a: string, b: string, x: string, y: string)
    requires Proper(a) && Proper(b) && a != b && n.id(a, x) == n.id(b, y)
    ensures exists s :: Reachable(n, s) && !RoutesComplete(n, s.tables)
  {
    var p, q := [Project(x, true, 0)], [Project(y, true, 0)];
    BothStoringReachable(n, a, p, b, q);
    var s0 := BothStoring(a, p, b, q);
    var s1 := AfterReportStored(n, s0, 0);
    StepReachable(n, s0, ReportStored(0), s1);
    var s2 := AfterReportStored(n, s1, 1);
    StepReachable(n, s1, ReportStored(1), s2);
    assert p[0] in p && n.id(a, p[0].name) in Ids(n, a, s2.tables.hubs[a].projects);
    assert q[0] in q && n.id(b, q[0].name) in Ids(n, b, s2.tables.hubs[b].projects);
  }
}
