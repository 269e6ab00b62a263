/** Whole runs of the file index against a reference that forgets everything but the lists. */
module FileIndexRuns {
  import opened Collections
  import opened FuzzyMatch
  import opened FileIndex
  import opened FileIndexManager

  function LookUp(lists: map<string, seq<string>>, path: string): Option<seq<string>> {
    if path in lists then Some(lists[path]) else None
  }

  /** Some search of the run asks that under the session key. */
  ghost predicate Asked(events: seq<Event>, key: string, query: string) {
    exists e :: e in events && e.Search? && Clean(e.req).text == query
      && Key(Normalize(e.project).id, Clean(e.req).sessionID) == key
  }

  /** No query of the project's sessions passes for an extension of another one without being one. */
  ghost predicate TrueExtensions(fuzzy: Fuzzy, events: seq<Event>, id: string) {
    forall sid, a, b :: Asked(events, Key(id, sid), a) && Asked(events, Key(id, sid), b) ==> fuzzy.MayExtend(a, b)
  }

  /** Where characters of the same lower case fold alike, that is so of every run. */
  lemma AlwaysTrueExtensions(fuzzy: Fuzzy, events: seq<Event>, id: string)
    requires FoldsLowerCase(fuzzy)
    ensures TrueExtensions(fuzzy, events, id)
  {
    MayExtendExactly(fuzzy);
  }

  /** What a session remembers was asked in the run. */
  ghost predicate AllAsked(sessions: map<string, QuerySession>, events: seq<Event>) {
    forall k :: k in sessions ==> Asked(events, k, sessions[k].query)
  }

  /** A project of the run whose queries extend truly and whose index file gives back what was last
      written to it. */
  ghost predicate Sound(fuzzy: Fuzzy, pathOf: string -> string, events: seq<Event>, ref: Reference, p: Project) {
    Mentioned(events, p) && pathOf(p.name) !in ref.broken && TrueExtensions(fuzzy, events, p.id)
  }

  /** Such projects are coherent, and their files hold the lists of the reference. */
  ghost predicate SoundInStep(fuzzy: Fuzzy, pathOf: string -> string, s: State, events: seq<Event>, ref: Reference) {
    forall p :: Sound(fuzzy, pathOf, events, ref, p) ==>
      Coherent(fuzzy, pathOf, s, p) && ListFor(s.disk, pathOf(p.name)) == LookUp(ref.lists, pathOf(p.name))
  }

  ghost predicate InStep(fuzzy: Fuzzy, pathOf: string -> string, s: State, events: seq<Event>, ref: Reference) {
    AllAsked(s.sessions, events) && SoundInStep(fuzzy, pathOf, s, events, ref)
  }

  lemma MentionedHere(events: seq<Event>, i: nat, p: Project)
    requires i < |events| && Mentions(events[i], p)
    ensures Mentioned(events, p)
  {
    assert events[i] in events;
  }

  /** An empty memory is coherent with any files of bounded length. */
  lemma FreshIsCoherent(fuzzy: Fuzzy, pathOf: string -> string, files: Files, p: Project)
    requires |Listing(files, pathOf(p.name))| <= 0x8000_0000
    ensures Coherent(fuzzy, pathOf, State(map[], {}, map[], map[], files), p)
  {
  }

  lemma TrulyExtends(fuzzy: Fuzzy, s: State, events: seq<Event>, id: string, req: Query)
    requires AllAsked(s.sessions, events) && TrueExtensions(fuzzy, events, id)
    requires Asked(events, Key(id, req.sessionID), req.text)
    ensures Extends(fuzzy, s.sessions, Key(id, req.sessionID), req.text)
  {
  }

  lemma AfterSearch(fuzzy: Fuzzy, pathOf: string -> string, s: State, t: State, events: seq<Event>, ref: Reference,
      p: Project, req: Query, resp: Response)
    requires Separated(pathOf, events) && InStep(fuzzy, pathOf, s, events, ref) && Mentioned(events, p)
    requires SearchedRightly(fuzzy, pathOf, s, t, p, req, resp) && t.disk == s.disk
    requires Asked(events, Key(p.id, req.sessionID), req.text)
    ensures InStep(fuzzy, pathOf, t, events, ref)
  {
    AskedAfter(s.sessions, t.sessions, events, Key(p.id, req.sessionID), req.text);
    forall q | Sound(fuzzy, pathOf, events, ref, q) ensures Coherent(fuzzy, pathOf, t, q) {
      SearchedCoherent(fuzzy, pathOf, s, t, events, ref, p, req, resp, q);
    }
  }

  lemma AskedAfter(s: map<string, QuerySession>, t: map<string, QuerySession>, events: seq<Event>, key: string,
      query: string)
    requires AllAsked(s, events) && Asks(s, t, key, query) && Asked(events, key, query)
    ensures AllAsked(t, events)
  {
  }

  lemma SearchedCoherent(fuzzy: Fuzzy, pathOf: string -> string, s: State, t: State, events: seq<Event>, ref: Reference,
      p: Project, req: Query, resp: Response, q: Project)
    requires Separated(pathOf, events) && InStep(fuzzy, pathOf, s, events, ref) && Mentioned(events, p)
    requires SearchedRightly(fuzzy, pathOf, s, t, p, req, resp)
    requires Asked(events, Key(p.id, req.sessionID), req.text)
    requires Sound(fuzzy, pathOf, events, ref, q)
    ensures Coherent(fuzzy, pathOf, t, q)
  {
    if q.id == p.id {
      TrulyExtends(fuzzy, s, events, p.id, req);
      SameFileCoherent(fuzzy, pathOf, s, p, q);
      SameFileCoherent(fuzzy, pathOf, t, p, q);
    } else {
      KeepsCoherent(fuzzy, pathOf, s, t, q);
    }
  }

  lemma FewerAsked(s: map<string, QuerySession>, t: map<string, QuerySession>, events: seq<Event>)
    requires AllAsked(s, events) && FewerSessions(s, t)
    ensures AllAsked(t, events)
  {
  }

  /** After a rebuild of p a project is in step, if the new reference trusts its file. */
  lemma RebuiltInStep(fuzzy: Fuzzy, pathOf: string -> string, s: State, t: State, events: seq<Event>, ref: Reference,
      p: Project, paths: seq<string>, q: Project)
    requires Separated(pathOf, events) && InStep(fuzzy, pathOf, s, events, ref) && Mentioned(events, p)
    requires RebuiltRightly(fuzzy, pathOf, s, t, p, paths)
    requires Sound(fuzzy, pathOf, events, Rewritten(ref, pathOf(p.name), paths), q)
    ensures Coherent(fuzzy, pathOf, t, q)
    ensures ListFor(t.disk, pathOf(q.name)) == LookUp(ref.lists[pathOf(p.name) := paths], pathOf(q.name))
  {
    if q.id == p.id {
      SameFileCoherent(fuzzy, pathOf, t, p, q);
    } else {
      assert Sound(fuzzy, pathOf, events, ref, q);
      KeepsCoherent(fuzzy, pathOf, s, t, q);
    }
  }

  lemma AfterFinish(fuzzy: Fuzzy, pathOf: string -> string, s: State, t: State, events: seq<Event>, ref: Reference,
      p: Project, list: Option<seq<string>>)
    requires Separated(pathOf, events) && InStep(fuzzy, pathOf, s, events, ref) && Mentioned(events, p)
    requires Finished(fuzzy, pathOf, s, t, p, list) && FewerSessions(s.sessions, t.sessions)
    ensures InStep(fuzzy, pathOf, t, events, if list.Some? then Rewritten(ref, pathOf(p.name), list.value) else ref)
  {
    FewerAsked(s.sessions, t.sessions, events);
    if list.Some? {
      forall q | Sound(fuzzy, pathOf, events, Rewritten(ref, pathOf(p.name), list.value), q)
        ensures Coherent(fuzzy, pathOf, t, q)
        ensures ListFor(t.disk, pathOf(q.name)) == LookUp(ref.lists[pathOf(p.name) := list.value], pathOf(q.name))
      {
        RebuiltInStep(fuzzy, pathOf, s, t, events, ref, p, list.value, q);
      }
    }
  }

  lemma AfterStatus(fuzzy: Fuzzy, pathOf: string -> string, s: State, t: State, events: seq<Event>, ref: Reference,
      i: nat)
    requires Separated(pathOf, events) && InStep(fuzzy, pathOf, s, events, ref)
    requires i < |events| && events[i].ShowStatus?
    requires StaysCoherent(fuzzy, pathOf, s, t, events[i].projects) && FewerSessions(s.sessions, t.sessions)
    ensures InStep(fuzzy, pathOf, t, events, ref)
  {
    forall q | Sound(fuzzy, pathOf, events, ref, q) ensures Coherent(fuzzy, pathOf, t, q) {
      forall p | p in events[i].projects && Normalize(p).id == q.id
        ensures pathOf(Normalize(p).name) == pathOf(q.name)
      {
        MentionedHere(events, i, Normalize(p));
      }
      assert ShownAlike(pathOf, events[i].projects, q);
    }
  }

  lemma AfterStart(fuzzy: Fuzzy, pathOf: string -> string, s: State, t: State, events: seq<Event>, ref: Reference)
    requires InStep(fuzzy, pathOf, s, events, ref)
    requires t.snapshots == s.snapshots && t.sessions == s.sessions && t.disk == s.disk
    ensures InStep(fuzzy, pathOf, t, events, ref)
  {
    forall q | Sound(fuzzy, pathOf, events, ref, q) ensures Coherent(fuzzy, pathOf, t, q) {
      KeepsCoherent(fuzzy, pathOf, s, t, q);
    }
  }

  lemma ReferenceAfterStep(pathOf: string -> string, ref: Reference, events: seq<Event>, i: nat)
    requires i < |events|
    ensures ReferenceAfter(pathOf, ref, events[..i + 1])
      == ReferenceStep(pathOf, ReferenceAfter(pathOf, ref, events[..i]), events[i])
  {
    assert events[..i + 1][..i] == events[..i];
  }

  /** A search of a sound project answers what the reference answers from the lists of the moment. */
  ghost predicate AnswersFrom(pathOf: string -> string, fuzzy: Fuzzy, events: seq<Event>, ref: Reference, e: Event,
    answer: Option<Response>)
  {
    e.Search? ==>
      var path := pathOf(Normalize(e.project).name);
      answer.Some?
      && (path !in ref.broken && TrueExtensions(fuzzy, events, Normalize(e.project).id) ==>
        Answers(answer.value, fuzzy, Clean(e.req), LookUp(ref.lists, path)))
  }

  method RunSearch(m: Manager, ghost events: seq<Event>, ghost i: nat, project: Project, req: Request, now: int,
      ghost ref: Reference) returns (resp: Response)
    requires m.Valid() && Separated(m.pathOf, events) && i < |events| && events[i] == Search(project, req, now)
    requires InStep(m.fuzzy, m.pathOf, m.View(), events, ref)
    modifies m
    ensures m.Valid() && InStep(m.fuzzy, m.pathOf, m.View(), events, ref)
    ensures AnswersFrom(m.pathOf, m.fuzzy, events, ref, events[i], Some(resp))
  {
    ghost var s := m.View();
    resp := m.Search(project, req, now);
    MentionedHere(events, i, Normalize(project));
    AskedHere(events, i);
    AfterSearch(m.fuzzy, m.pathOf, s, m.View(), events, ref, Normalize(project), Clean(req), resp);
    AnswerIsRight(m.fuzzy, m.pathOf, s, m.View(), events, ref, events[i], resp);
  }

  lemma AskedHere(events: seq<Event>, i: nat)
    requires i < |events| && events[i].Search?
    ensures Asked(events, Key(Normalize(events[i].project).id, Clean(events[i].req).sessionID),
      Clean(events[i].req).text)
  {
    assert events[i] in events;
  }

  lemma AnswerIsRight(fuzzy: Fuzzy, pathOf: string -> string, s: State, t: State, events: seq<Event>, ref: Reference,
      e: Event, resp: Response)
    requires e.Search? && InStep(fuzzy, pathOf, s, events, ref) && Mentioned(events, Normalize(e.project))
    requires Asked(events, Key(Normalize(e.project).id, Clean(e.req).sessionID), Clean(e.req).text)
    requires SearchedRightly(fuzzy, pathOf, s, t, Normalize(e.project), Clean(e.req), resp)
    ensures AnswersFrom(pathOf, fuzzy, events, ref, e, Some(resp))
  {
    var p := Normalize(e.project);
    if pathOf(p.name) !in ref.broken && TrueExtensions(fuzzy, events, p.id) {
      assert Sound(fuzzy, pathOf, events, ref, p);
      TrulyExtends(fuzzy, s, events, p.id, Clean(e.req));
    }
  }

  method RunFinish(m: Manager, ghost events: seq<Event>, ghost i: nat, e: Event, ghost ref: Reference)
    requires m.Valid() && Separated(m.pathOf, events)
    requires i < |events| && events[i] == e && e.FinishRebuild?
    requires InStep(m.fuzzy, m.pathOf, m.View(), events, ref)
    modifies m
    ensures m.Valid() && InStep(m.fuzzy, m.pathOf, m.View(), events, ReferenceStep(m.pathOf, ref, e))
  {
    ghost var s := m.View();
    var done := m.FinishRebuild(e.project, e.scan, e.writes, e.now);
    MentionedHere(events, i, Normalize(e.project));
    AfterFinish(m.fuzzy, m.pathOf, s, m.View(), events, ref, Normalize(e.project), FinishedList(e));
  }

  method RunStart(m: Manager, ghost events: seq<Event>, project: Project, ghost ref: Reference)
    requires m.Valid() && InStep(m.fuzzy, m.pathOf, m.View(), events, ref)
    modifies m
    ensures m.Valid() && InStep(m.fuzzy, m.pathOf, m.View(), events, ref)
  {
    ghost var s := m.View();
    var accepted, already := m.StartRebuild(project);
    AfterStart(m.fuzzy, m.pathOf, s, m.View(), events, ref);
  }

  method RunStatus(m: Manager, ghost events: seq<Event>, ghost i: nat, projects: seq<Project>, now: int,
      ghost ref: Reference)
    requires m.Valid() && Separated(m.pathOf, events) && InStep(m.fuzzy, m.pathOf, m.View(), events, ref)
    requires i < |events| && events[i] == ShowStatus(projects, now)
    modifies m
    ensures m.Valid() && InStep(m.fuzzy, m.pathOf, m.View(), events, ref)
  {
    ghost var s := m.View();
    var entries, shown := m.Status(projects, now);
    AfterStatus(m.fuzzy, m.pathOf, s, m.View(), events, ref, i);
  }

  method RunEvent(m: Manager, ghost events: seq<Event>, ghost i: nat, e: Event, ghost ref: Reference)
      returns (answer: Option<Response>)
    requires m.Valid() && Separated(m.pathOf, events) && i < |events| && events[i] == e
    requires InStep(m.fuzzy, m.pathOf, m.View(), events, ref)
    modifies m
    ensures m.Valid() && InStep(m.fuzzy, m.pathOf, m.View(), events, ReferenceStep(m.pathOf, ref, e))
    ensures AnswersFrom(m.pathOf, m.fuzzy, events, ref, e, answer)
  {
    answer := None;
    if e.FinishRebuild? {
      RunFinish(m, events, i, e, ref);
      return;
    }
    assert ReferenceStep(m.pathOf, ref, e) == ref;
    if e.Search? {
      var resp := RunSearch(m, events, i, e.project, e.req, e.now, ref);
      answer := Some(resp);
    } else if e.StartRebuild? {
      RunStart(m, events, e.project, ref);
    } else {
      RunStatus(m, events, i, e.projects, e.now, ref);
    }
  }

  /** What the answer of event j has to be: that of the reference, from the lists of the moment. */
  ghost function RightAnswer(pathOf: string -> string, fuzzy: Fuzzy, ref: Reference, events: seq<Event>):
    (int, Option<Response>) -> bool
  {
    (j: int, answer: Option<Response>) =>
      0 <= j < |events|
      && AnswersFrom(pathOf, fuzzy, events, ReferenceAfter(pathOf, ref, events[..j]), events[j], answer)
  }

  /** Every search of every run answers what the reference answers: the full ranking, cut to
      the limit, of the list last rebuilt, if the index file gives that list back and the queries
      of the project extend truly. Nothing a run remembers, drops, releases or reloads on the way
      shows in an answer. */
  method Replay(m: Manager, events: seq<Event>) returns (answers: seq<Option<Response>>)
    requires m.Valid() && Separated(m.pathOf, events)
    requires InStep(m.fuzzy, m.pathOf, m.View(), events, Reference(m.files.lists, {}))
    modifies m
    ensures m.Valid() && |answers| == |events|
    ensures Each(RightAnswer(m.pathOf, m.fuzzy, Reference(old(m.files).lists, {}), events), answers)
  {
    answers := [];
    ghost var ref := Reference(m.files.lists, {});
    ghost var current := ref;
    ghost var right := RightAnswer(m.pathOf, m.fuzzy, ref, events);
    for i := 0 to |events|
      invariant m.Valid() && |answers| == i
      invariant current == ReferenceAfter(m.pathOf, ref, events[..i])
      invariant InStep(m.fuzzy, m.pathOf, m.View(), events, current)
      invariant Each(right, answers)
    {
      var answer := RunEvent(m, events, i, events[i], current);
      ReferenceAfterStep(m.pathOf, ref, events, i);
      EachOneMore(right, answers, answer);
      current := ReferenceStep(m.pathOf, current, events[i]);
      answers := answers + [answer];
    }
  }

  ghost predicate Bounded(files: Files) {
    forall path :: path in files.lists ==> |files.lists[path]| <= 0x8000_0000
  }

  /** A manager that has just been made is in step with the files it finds. */
  lemma FreshIsInStep(fuzzy: Fuzzy, pathOf: string -> string, files: Files, events: seq<Event>)
    requires Bounded(files)
    ensures InStep(fuzzy, pathOf, State(map[], {}, map[], map[], files), events, Reference(files.lists, {}))
  {
    forall p | Mentioned(events, p) ensures Coherent(fuzzy, pathOf, State(map[], {}, map[], map[], files), p) {
      FreshIsCoherent(fuzzy, pathOf, files, p);
    }
  }

  /** Whole runs from the start: a new manager over any files of bounded lists. */
  method RunFromStart(fuzzy: Fuzzy, baseDir: string, disk: map<string, string>, events: seq<Event>)
      returns (m: Manager, answers: seq<Option<Response>>)
    requires Separated(INDEX_PATH(baseDir), events) && Bounded(FilesOf(disk))
    ensures fresh(m) && m.Valid() && |answers| == |events|
    ensures Each(RightAnswer(INDEX_PATH(baseDir), fuzzy, Reference(FilesOf(disk).lists, {}), events), answers)
  {
    m := new Manager(fuzzy, baseDir, disk);
    FreshIsInStep(fuzzy, INDEX_PATH(baseDir), m.files, events);
    answers := Replay(m, events);
  }
}
