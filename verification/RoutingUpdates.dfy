/** Which messages of a hub's connection are accepted, told from the run alone. */
module RoutingUpdates {
  import opened Collections
  import opened Text
  import opened RoutingTables
  import opened RoutingRuns

  /** The message names the connection's own hub, in its envelope and, if at all, in its payload. */
  predicate NamesOwnHub(conn: Conn, envelopeHub: string, payloadHub: string) {
    Trim(envelopeHub) == conn.hub && (Trim(payloadHub) == "" || Trim(payloadHub) == conn.hub)
  }

  lemma WrongHubExactly(conn: Conn, envelopeHub: string, payloadHub: string)
    requires conn.hub != ""
    ensures WrongHub(conn, envelopeHub, payloadHub).None? <==> NamesOwnHub(conn, envelopeHub, payloadHub)
    ensures WrongHub(conn, envelopeHub, payloadHub) == Some(Forbidden) <==>
      Trim(envelopeHub) != "" && Trim(envelopeHub) != conn.hub
    ensures WrongHub(conn, envelopeHub, payloadHub) != Some(Conflict)
  {
  }

  predicate OwnsHub(s: State, c: nat) {
    c in s.conns && s.conns[c].hub in s.tables.peers && s.tables.peers[s.conns[c].hub] == c
  }

  /** All that an update needs but for its place in the order of updates. */
  predicate WellSent(s: State, c: nat, u: Update) {
    && OwnsHub(s, c) && NamesOwnHub(s.conns[c], u.envelopeHub, u.payloadHub) && u.epoch == s.conns[c].epoch
    && u.number >= 1 && Trim(u.project.name) != "" && u.dated
  }

  predicate Accepts(s: State, c: nat, u: Update) {
    c in s.conns && UpdateError(s.tables, s.conns[c], u).None?
  }

  predicate AcceptsReport(s: State, c: nat, r: Report) {
    c in s.conns && ReportError(s.tables, s.conns[c], r).None?
  }

  /** What a connection remembers of its updates after a step, if it remembered last before. */
  function Remembers(s: State, a: Action, c: nat, name: string, last: int): int {
    match a
    case ReportArrives(d, r, _) => if d == c && AcceptsReport(s, c, r) then 0 else last
    case UpdateArrives(d, u, _) =>
      if d == c && Accepts(s, c, u) && Trim(u.project.name) == name then u.number else last
    case _ => last
  }

  /** The number of the update of that name that connection c had accepted last, of the first k steps
      and after its last report; 0 if there was none. */
  function LastNumber(actions: seq<Action>, states: seq<State>, k: nat, c: nat, name: string): int
    requires k <= |actions| <= |states|
  {
    if k == 0 then 0
    else Remembers(states[k - 1], actions[k - 1], c, name, LastNumber(actions, states, k - 1, c, name))
  }

  lemma NewConnRemembersNothing(n: Naming, s: State, a: Action, next: State, c: nat, name: string)
    requires Step(n, s, a, next) && c in next.conns && c !in s.conns
    ensures LastSeq(next.conns[c], name) == 0
  {
  }

  lemma NumberedSeq(conns: map<nat, Conn>, c: nat, key: string, number: int, d: nat, name: string)
    requires d in conns && c in conns
    ensures var next := conns[c := conns[c].(seqs := conns[c].seqs[key := number])];
      d in next
      && LastSeq(next[d], name) == if d == c && key == name then number else LastSeq(conns[d], name)
  {
  }

  lemma AfterUpdate(n: Naming, s: State, c: nat, u: Update, arranged: seq<Project>)
    requires c in s.conns
    ensures AfterUpdateArrives(n, s, c, u, arranged).conns ==
      if Accepts(s, c, u) then s.conns[c := s.conns[c].(seqs := s.conns[c].seqs[Trim(u.project.name) := u.number])]
      else s.conns
  {
  }

  lemma UpdateRemembered(s: State, n: Naming, c: nat, u: Update, arranged: seq<Project>, d: nat, name: string)
    requires d in s.conns && c in s.conns
    ensures var next := AfterUpdateArrives(n, s, c, u, arranged);
      d in next.conns && LastSeq(next.conns[d], name)
        == Remembers(s, UpdateArrives(c, u, arranged), d, name, LastSeq(s.conns[d], name))
  {
    hide UpdateError;
    hide Trim;
    AfterUpdate(n, s, c, u, arranged);
    NumberedSeq(s.conns, c, Trim(u.project.name), u.number, d, name);
  }

  lemma SeqStep(n: Naming, s: State, a: Action, next: State, c: nat, name: string)
    requires EpochsApart(s) && Step(n, s, a, next) && c in s.conns
    ensures c in next.conns && LastSeq(next.conns[c], name) == Remembers(s, a, c, name, LastSeq(s.conns[c], name))
  {
    if a.UpdateArrives? {
      UpdateRemembered(s, n, a.c, a.update, a.arranged, c, name);
    }
  }

  lemma {:induction false} NothingYet(n: Naming, actions: seq<Action>, states: seq<State>, k: nat, c: nat, name: string)
    requires Consistently(n) && IsRun(n, actions, states) && k < |states| && c !in states[k].conns
    ensures LastNumber(actions, states, k, c, name) == 0
  {
    if k > 0 {
      StepOfRun(n, actions, states, k - 1);
      ConnsStay(n, states[k - 1], actions[k - 1], states[k]);
      NothingYet(n, actions, states, k - 1, c, name);
    }
  }

  lemma ConnsStay(n: Naming, s: State, a: Action, next: State)
    requires Step(n, s, a, next)
    ensures s.conns.Keys <= next.conns.Keys
  {
  }

  lemma {:induction false} SeqsAreLast(n: Naming, actions: seq<Action>, states: seq<State>, k: nat, c: nat,
      name: string)
    requires Consistently(n) && IsRun(n, actions, states) && k < |states| && c in states[k].conns
    ensures LastSeq(states[k].conns[c], name) == LastNumber(actions, states, k, c, name)
  {
    if k > 0 {
      StepOfRun(n, actions, states, k - 1);
      RunKeepsEpochsApart(n, actions, states, k - 1);
      if c in states[k - 1].conns {
        SeqStep(n, states[k - 1], actions[k - 1], states[k], c, name);
        SeqsAreLast(n, actions, states, k - 1, c, name);
      } else {
        NewConnRemembersNothing(n, states[k - 1], actions[k - 1], states[k], c, name);
        NothingYet(n, actions, states, k - 1, c, name);
      }
    }
  }

  lemma AcceptsExactly(n: Naming, s: State, c: nat, u: Update)
    requires Consistent(n, s) && c in s.conns
    ensures Accepts(s, c, u) <==> WellSent(s, c, u) && u.number > LastSeq(s.conns[c], Trim(u.project.name))
  {
    OnlyOwnerUpdates(n, s, c, u);
    MessageExactly(s.conns[c], u);
  }

  lemma MessageExactly(conn: Conn, u: Update)
    requires conn.hub != ""
    ensures MessageError(conn, u).None? <==>
      NamesOwnHub(conn, u.envelopeHub, u.payloadHub) && u.epoch == conn.epoch && u.number >= 1
      && Trim(u.project.name) != "" && u.dated && u.number > LastSeq(conn, Trim(u.project.name))
  {
    WrongHubExactly(conn, u.envelopeHub, u.payloadHub);
  }

  /** In every run, an update is accepted exactly when its connection owns the hub, the message is
      about that hub and in form, and its number is greater than that of the last update of the
      project since the connection's last report. */
  lemma UpdatesInOrder(n: Naming, actions: seq<Action>, states: seq<State>, k: nat, c: nat, u: Update)
    requires Consistently(n) && IsRun(n, actions, states) && k < |states| && c in states[k].conns
    ensures Accepts(states[k], c, u) <==>
      WellSent(states[k], c, u) && u.number > LastNumber(actions, states, k, c, Trim(u.project.name))
  {
    RunIsConsistent(n, actions, states, k);
    AcceptsExactly(n, states[k], c, u);
    SeqsAreLast(n, actions, states, k, c, Trim(u.project.name));
  }

  /** A report is accepted exactly when it is about the connection's own hub and epoch, and no
      younger connection owns the hub. */
  lemma ReportsFromYoungest(n: Naming, actions: seq<Action>, states: seq<State>, k: nat, c: nat, r: Report)
    requires Consistently(n) && IsRun(n, actions, states) && k < |states| && c in states[k].conns
    ensures AcceptsReport(states[k], c, r) <==>
      NamesOwnHub(states[k].conns[c], r.envelopeHub, r.payloadHub) && r.epoch == states[k].conns[c].epoch
      && !YoungerOwner(states[k], states[k].conns[c])
  {
    RunIsConsistent(n, actions, states, k);
    StaleReportsRefused(n, states[k], c, r);
    WrongHubExactly(states[k].conns[c], r.envelopeHub, r.payloadHub);
  }

  /** Place j has the first project of that name. */
  ghost predicate FirstNamedAt(n: Naming, projects: seq<Project>, name: string, j: int) {
    && 0 <= j < |projects| && n.key(projects[j].name) == n.key(name)
    && forall i :: 0 <= i < j ==> n.key(projects[i].name) != n.key(name)
  }

  /** From before to after, the project took the place of the first of its name, or was added as the
      first of that name; the rest is as it was, and the list is in the order of names. */
  ghost predicate TookPlace(n: Naming, before: seq<Project>, after: seq<Project>, p: Project) {
    && (forall i, j :: 0 <= i < j < |after| ==> !Less(after[j].name, after[i].name))
    && (forall j :: FirstNamedAt(n, before, p.name, j) ==> multiset(after) == multiset(before[j := p]))
    && ((forall j :: 0 <= j < |before| ==> n.key(before[j].name) != n.key(p.name)) ==>
      multiset(after) == multiset(before) + multiset{p})
  }

  lemma ArrangedTookPlace(n: Naming, before: seq<Project>, after: seq<Project>, p: Project)
    requires Arranged(Put(n.key, before, p), after)
    ensures TookPlace(n, before, after, p)
  {
    forall j | FirstNamedAt(n, before, p.name, j) ensures multiset(after) == multiset(before[j := p]) {
      PutAt(n.key, before, p, j);
    }
    if forall j :: 0 <= j < |before| ==> n.key(before[j].name) != n.key(p.name) {
      PutNew(n.key, before, p);
    }
  }

  /** A refused update changes nothing; an accepted one puts its project in the hub's snapshot. */
  lemma AcceptedUpdateShows(n: Naming, actions: seq<Action>, states: seq<State>, k: nat)
    requires Consistently(n) && IsRun(n, actions, states) && k < |actions| && actions[k].UpdateArrives?
    ensures var s, t, c, u := states[k], states[k + 1], actions[k].c, actions[k].update;
      c in s.conns && if !Accepts(s, c, u) then t == s else
        && s.conns[c].hub in s.tables.hubs && s.conns[c].hub in t.tables.hubs
        && TookPlace(n, s.tables.hubs[s.conns[c].hub].projects, t.tables.hubs[s.conns[c].hub].projects, u.project)
  {
    var c, u := actions[k].c, actions[k].update;
    StepOfRun(n, actions, states, k);
    if Accepts(states[k], c, u) {
      var h := states[k].conns[c].hub;
      ArrangedTookPlace(n, states[k].tables.hubs[h].projects, actions[k].arranged, u.project);
    }
  }

  /** A connection that has disconnected is gone for good, and gone ones do nothing. */
  lemma GoneOneStep(n: Naming, s: State, a: Action, next: State, c: nat)
    requires EpochsApart(s) && Step(n, s, a, next) && c in s.conns
    ensures c in next.conns
    ensures a == Disconnect(c) || s.conns[c].phase.Gone? ==> next.conns[c].phase.Gone?
    ensures s.conns[c].phase.Gone? ==> !ActsFor(a, c)
  {
    match a
    case UpdateArrives(d, u, arranged) => UpdateLeavesPhase(n, s, d, u, arranged, c);
    case ReportArrives(d, r, sorted) =>
      if c != d {
        ReportLeavesOthers(s, d, r, sorted, c);
      }
    case _ =>
    hide UpdateError;
    hide ReportError;
    hide Trim;
  }

  lemma UpdateLeavesPhase(n: Naming, s: State, d: nat, u: Update, arranged: seq<Project>, c: nat)
    requires d in s.conns && c in s.conns
    ensures var next := AfterUpdateArrives(n, s, d, u, arranged);
      c in next.conns && next.conns[c].phase == s.conns[c].phase
  {
    AfterUpdate(n, s, d, u, arranged);
    hide UpdateError;
    hide Trim;
  }

  lemma ReportLeavesOthers(s: State, d: nat, r: Report, sorted: seq<Project>, c: nat)
    requires d in s.conns && c in s.conns && c != d
    ensures var next := AfterReportArrives(s, d, r, sorted);
      c in next.conns && next.conns[c] == s.conns[c]
  {
    hide ReportError;
  }

  predicate ActsFor(a: Action, c: nat) {
    match a
    case ReportArrives(d, _, _) => c == d
    case ReportStored(d) => c == d
    case UpdateArrives(d, _, _) => c == d
    case Disconnect(d) => c == d
    case _ => false
  }

  lemma {:induction false} StaysGone(n: Naming, actions: seq<Action>, states: seq<State>, j: nat, k: nat, c: nat)
    requires Consistently(n) && IsRun(n, actions, states) && j < k < |states| && actions[j] == Disconnect(c)
    ensures c in states[k].conns && states[k].conns[c].phase.Gone?
  {
    StepOfRun(n, actions, states, k - 1);
    RunKeepsEpochsApart(n, actions, states, k - 1);
    if j < k - 1 {
      StaysGone(n, actions, states, j, k - 1, c);
    }
    GoneOneStep(n, states[k - 1], actions[k - 1], states[k], c);
  }

  /** In every run, a connection that disconnected owns no hub from then on, and does nothing more. */
  lemma DisconnectedForGood(n: Naming, actions: seq<Action>, states: seq<State>, j: nat, k: nat, c: nat)
    requires Consistently(n) && IsRun(n, actions, states) && j < k < |states| && actions[j] == Disconnect(c)
    ensures forall hub :: hub in states[k].tables.peers ==> states[k].tables.peers[hub] != c
    ensures k < |actions| ==> !ActsFor(actions[k], c)
  {
    StaysGone(n, actions, states, j, k, c);
    RunIsConsistent(n, actions, states, k);
    forall hub | hub in states[k].tables.peers ensures states[k].tables.peers[hub] != c {
      assert OwnedBy(states[k], hub, states[k].tables.peers[hub]);
    }
    if k < |actions| {
      StepOfRun(n, actions, states, k);
      GoneOneStep(n, states[k], actions[k], states[k + 1], c);
    }
  }

  /** A connection that is not gone is ready for its next message, or is once its report is stored. */
  lemma ReadyOrStoring(n: Naming, s: State, c: nat)
    requires c in s.conns && !s.conns[c].phase.Gone?
    ensures Ready(s, c) || (exists next :: Step(n, s, ReportStored(c), next) && Ready(next, c))
  {
    if !Ready(s, c) {
      var next := AfterReportStored(n, s, c);
      assert Step(n, s, ReportStored(c), next) && Ready(next, c);
    }
  }
}
