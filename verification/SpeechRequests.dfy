/** What each request, timer and event of speech does to the streams, told without the tables'
    own operations: which stream is whose after it, and what becomes of the others. */
module SpeechRequests {
  import Runs
  import opened Collections
  import opened SpeechTables
  import opened SpeechRuns

  predicate ActiveFor(s: State, c: nat, id: nat) {
    id in s.tables.streams && s.tables.streams[id] == c
  }

  predicate ClosingFor(s: State, c: nat, id: nat) {
    id in s.tables.closing && s.tables.closing[id] == c
  }

  predicate At(s: State, c: nat, p: Phase) {
    c in s.phases && s.phases[c] == p
  }

  /** Streams start and end as active ones of their connection by these steps alone. */
  predicate StartsActive(s: State, a: Action, c: nat, id: nat) {
    a == Start(c) && id == s.issued + 1
  }

  predicate EndsActive(s: State, a: Action, c: nat, id: nat) {
    || a in {Start(c), Disconnect(c), Cancel(c, id), IdleFires(id), EventEnds(id, false)}
    || (a == Clean(c) && (At(s, c, StartFailed(id)) || At(s, c, WriteFailed(id))))
    || (a == FinishDetaches(c) && At(s, c, Found(id)))
  }

  predicate StartsClosing(s: State, a: Action, c: nat, id: nat) {
    a == FinishRegisters(c) && At(s, c, Detached(id))
  }

  predicate EndsClosing(s: State, a: Action, c: nat, id: nat) {
    || a in {Start(c), LeaveClosing(c), Cancel(c, id), ClosingFires(id), EventEnds(id, true)}
    || (a == Clean(c) && At(s, c, DrainFailed(id)))
    || (a == Arm(c, true) && At(s, c, Drained(id)))
  }

  /** Who has the stream after a step, active or closing, follows from that. */
  predicate Told(s: State, a: Action, next: State, c: nat, id: nat) {
    && (ActiveFor(next, c, id) <==> StartsActive(s, a, c, id) || (ActiveFor(s, c, id) && !EndsActive(s, a, c, id)))
    && (ClosingFor(next, c, id) <==>
      StartsClosing(s, a, c, id) || (ClosingFor(s, c, id) && !EndsClosing(s, a, c, id)))
  }

  /** Entering leaves a connection with its new stream alone, and the others as they were. */
  lemma EnterExactly(t: Tables, c: nat, id: nat, d: nat, k: nat)
    requires Good(t) && id !in t.streams && id !in t.closing
    ensures var u := Enter(t, c, id);
      && (k in u.streams && u.streams[k] == d <==> if d == c then k == id else k in t.streams && t.streams[k] == d)
      && (k in u.closing && u.closing[k] == d <==> d != c && k in t.closing && t.closing[k] == d)
  {
    DetachActiveKeepsGood(t, c);
  }

  lemma StartTold(s: State, a: Action, next: State, c: nat, id: nat)
    requires Inv(s) && Next(s, a) == Some(next) && a.Start?
    ensures Told(s, a, next, c, id)
  {
    assert s.issued + 1 !in s.owner;
    EnterExactly(s.tables, a.c, s.issued + 1, c, id);
    hide Enter;
  }

  lemma CleanTold(s: State, a: Action, next: State, c: nat, id: nat)
    requires Good(s.tables) && Owners(s.tables, s.issued, s.owner) && Next(s, a) == Some(next)
    requires a.Clean? && a.c in s.phases && Placed(s, a.c, s.phases[a.c])
    ensures Told(s, a, next, c, id)
  {
  }

  lemma FinishDetachesTold(s: State, a: Action, next: State, c: nat, id: nat)
    requires Good(s.tables) && Owners(s.tables, s.issued, s.owner) && Next(s, a) == Some(next)
    requires a.FinishDetaches? && a.c in s.phases && Placed(s, a.c, s.phases[a.c])
    ensures Told(s, a, next, c, id)
  {
  }

  lemma FinishRegistersTold(s: State, a: Action, next: State, c: nat, id: nat)
    requires Good(s.tables) && Owners(s.tables, s.issued, s.owner) && Next(s, a) == Some(next)
    requires a.FinishRegisters? && a.c in s.phases && Placed(s, a.c, s.phases[a.c])
    ensures Told(s, a, next, c, id)
  {
  }

  lemma ArmTold(s: State, a: Action, next: State, c: nat, id: nat)
    requires Good(s.tables) && Owners(s.tables, s.issued, s.owner) && Next(s, a) == Some(next)
    requires a.Arm? && a.c in s.phases && Placed(s, a.c, s.phases[a.c])
    ensures Told(s, a, next, c, id)
  {
  }

  lemma CancelTold(s: State, a: Action, next: State, c: nat, id: nat)
    requires Good(s.tables) && Owners(s.tables, s.issued, s.owner) && Next(s, a) == Some(next)
    requires a.Cancel? && a.c in s.phases && Placed(s, a.c, s.phases[a.c])
    ensures Told(s, a, next, c, id)
  {
  }

  lemma LeaveTold(s: State, a: Action, next: State, c: nat, id: nat)
    requires Good(s.tables) && Owners(s.tables, s.issued, s.owner) && Next(s, a) == Some(next)
    requires (a.Disconnect? || a.LeaveClosing?) && a.c in s.phases && Placed(s, a.c, s.phases[a.c])
    ensures Told(s, a, next, c, id)
  {
  }

  lemma OutsideTold(s: State, a: Action, next: State, c: nat, id: nat)
    requires Inv(s) && Next(s, a) == Some(next) && (a.IdleFires? || a.ClosingFires? || a.EventEnds?)
    ensures Told(s, a, next, c, id)
  {
  }

  lemma UntouchedTold(s: State, a: Action, next: State, c: nat, id: nat)
    requires next.tables == s.tables && next.issued == s.issued
    requires a.Connect? || a.Release? || a.ProviderStarts? || a.Attach? || a.Chunk? || a.AudioWritten? || a.Finish?
      || a.ProviderFinishes?
    ensures Told(s, a, next, c, id)
  {
  }

  lemma StepTold(s: State, a: Action, next: State, c: nat, id: nat)
    requires Inv(s) && Next(s, a) == Some(next)
    ensures Told(s, a, next, c, id)
  {
    hide Told;
    match a
    case Start(_) => StartTold(s, a, next, c, id);
    case Clean(_) => CleanTold(s, a, next, c, id);
    case FinishDetaches(_) => FinishDetachesTold(s, a, next, c, id);
    case FinishRegisters(_) => FinishRegistersTold(s, a, next, c, id);
    case Arm(_, _) => ArmTold(s, a, next, c, id);
    case Cancel(_, _) => CancelTold(s, a, next, c, id);
    case Disconnect(_) => LeaveTold(s, a, next, c, id);
    case LeaveClosing(_) => LeaveTold(s, a, next, c, id);
    case IdleFires(_) => OutsideTold(s, a, next, c, id);
    case ClosingFires(_) => OutsideTold(s, a, next, c, id);
    case EventEnds(_, _) => OutsideTold(s, a, next, c, id);
    case Connect(_) => UntouchedTold(s, a, next, c, id);
    case Release(_) => UntouchedTold(s, a, next, c, id);
    case _ =>
      LoopLeavesTables(s, a.c, a, next);
      UntouchedTold(s, a, next, c, id);
  }

  const STEPS: (State, Action, State) -> bool := (s: State, a: Action, t: State) => Next(s, a) == Some(t)

  /** A run with the states it goes through. */
  ghost predicate Trace(actions: seq<Action>, states: seq<State>) {
    Runs.IsRun(STEPS, actions, states) && states[0] == Init()
  }

  lemma StepOfTrace(actions: seq<Action>, states: seq<State>, k: nat)
    requires Trace(actions, states) && k < |actions|
    ensures Next(states[k], actions[k]) == Some(states[k + 1])
  {
    assert Runs.StepAt(STEPS, actions, states, k);
  }

  lemma {:induction false} TraceKeepsInv(actions: seq<Action>, states: seq<State>, k: nat)
    requires Trace(actions, states) && k < |states|
    ensures Inv(states[k])
  {
    if k > 0 {
      TraceKeepsInv(actions, states, k - 1);
      StepOfTrace(actions, states, k - 1);
      StepKeepsInv(states[k - 1], actions[k - 1], states[k]);
    }
  }

  lemma StepOfTraceTold(actions: seq<Action>, states: seq<State>, i: nat, c: nat, id: nat)
    requires Trace(actions, states) && i < |actions|
    ensures Told(states[i], actions[i], states[i + 1], c, id)
  {
    StepOfTrace(actions, states, i);
    TraceKeepsInv(actions, states, i);
    StepTold(states[i], actions[i], states[i + 1], c, id);
  }

  /** In every run, a connection's stream is active exactly from the start that issued it until the
      connection's next start, its end, a cancel of the stream, a failed start or write of it, its
      idle timer, an event that ends it, or its finish. */
  lemma ActiveSince(actions: seq<Action>, states: seq<State>, k: nat, c: nat, id: nat)
    requires Trace(actions, states) && k < |states|
    ensures ActiveFor(states[k], c, id) <==>
      Runs.Since((s, a) => StartsActive(s, a, c, id), (s, a) => EndsActive(s, a, c, id), actions, states, k)
  {
    forall i: nat | i < k ensures Told(states[i], actions[i], states[i + 1], c, id) {
      StepOfTraceTold(actions, states, i, c, id);
    }
    Runs.HoldsSince((s: State) => ActiveFor(s, c, id), (s, a) => StartsActive(s, a, c, id),
      (s, a) => EndsActive(s, a, c, id), actions, states, k);
  }

  /** And it is closing exactly from its finish until the connection's next start, its end, a cancel
      of the stream, its closing timer, an event that ends it, or a drain that failed or had no time. */
  lemma ClosingSince(actions: seq<Action>, states: seq<State>, k: nat, c: nat, id: nat)
    requires Trace(actions, states) && k < |states|
    ensures ClosingFor(states[k], c, id) <==>
      Runs.Since((s, a) => StartsClosing(s, a, c, id), (s, a) => EndsClosing(s, a, c, id), actions, states, k)
  {
    forall i: nat | i < k ensures Told(states[i], actions[i], states[i + 1], c, id) {
      StepOfTraceTold(actions, states, i, c, id);
    }
    Runs.HoldsSince((s: State) => ClosingFor(s, c, id), (s, a) => StartsClosing(s, a, c, id),
      (s, a) => EndsClosing(s, a, c, id), actions, states, k);
  }

  lemma StartHolds(s: State, a: Action, next: State, c: nat, id: nat)
    requires Inv(s) && Next(s, a) == Some(next) && a.Start?
    ensures ActiveFor(s, c, id) && !ActiveFor(next, c, id) ==> id in next.held
    ensures ClosingFor(s, c, id) && !ClosingFor(next, c, id) ==> id in next.held
  {
    StartTold(s, a, next, c, id);
    hide Enter;
    if ActiveFor(s, c, id) && c == a.c {
      assert id in ActiveOf(s.tables, c);
    }
    if ClosingFor(s, c, id) && c == a.c {
      assert id in ClosingOf(s.tables, c);
    }
  }

  lemma EndHolds(s: State, a: Action, next: State, c: nat, id: nat)
    requires Owners(s.tables, s.issued, s.owner) && Next(s, a) == Some(next) && !a.Start? && !a.FinishDetaches?
    requires (ActiveFor(s, c, id) && EndsActive(s, a, c, id)) || (ClosingFor(s, c, id) && EndsClosing(s, a, c, id))
    requires ActiveFor(s, c, id) ==> c in s.tables.connActive && s.tables.connActive[c] == id
    ensures id in next.held
  {
    assert a.EventEnds? || a.IdleFires? ==> s.owner[id] == c;
  }

  /** A stream that leaves the maps is held by whoever took it out, unless it is being finished. */
  lemma TakenOutIsHeld(s: State, a: Action, next: State, c: nat, id: nat)
    requires Inv(s) && Next(s, a) == Some(next) && (ActiveFor(s, c, id) || ClosingFor(s, c, id))
    requires !ActiveFor(next, c, id) && !ClosingFor(next, c, id)
    ensures id in next.held || (a == FinishDetaches(c) && At(s, c, Found(id)) && At(next, c, Detached(id)))
  {
    StepTold(s, a, next, c, id);
    if a.Start? {
      StartHolds(s, a, next, c, id);
    } else if !a.FinishDetaches? {
      EndHolds(s, a, next, c, id);
    }
    hide Enter;
    hide Detach;
  }

  /** What is held stays so until it is cancelled, and what is cancelled stays so. */
  lemma HeldUntilReleased(s: State, a: Action, next: State, id: nat)
    requires Next(s, a) == Some(next)
    ensures id in s.held ==> if a == Release(id) then id in next.cancelled && id !in next.held else id in next.held
    ensures id in next.cancelled <==>
      || id in s.cancelled || (a == Release(id) && id in s.held)
      || (a.ProviderStarts? && !a.ok && At(s, a.c, Starting(id))) || (a.Clean? && At(s, a.c, Discarding(id)))
  {
  }

  /** The provider of a stream is attached exactly when the stream is still active by then. */
  lemma AttachedExactly(s: State, a: Action, next: State, id: nat)
    requires Next(s, a) == Some(next)
    ensures id in next.attached <==>
      id in s.attached || (a.Attach? && At(s, a.c, Started(id)) && ActiveFor(s, a.c, id))
  {
  }

  /** What becomes of a request that names a stream: audio and a finish go on exactly when the
      stream is the connection's own active one and its provider was attached. */
  lemma RequestsGoOnExactly(s: State, c: nat, id: nat, chunk: State, finish: State)
    requires Next(s, Chunk(c, id)) == Some(chunk) && Next(s, Finish(c, id)) == Some(finish)
    ensures ActiveFor(s, c, id) && id in s.attached ==>
      At(chunk, c, Writing(id)) && At(finish, c, Found(id))
    ensures !(ActiveFor(s, c, id) && id in s.attached) ==> At(chunk, c, Idle) && At(finish, c, Idle)
    ensures chunk.tables == s.tables && finish.tables == s.tables
  {
  }

  /** Once a connection is gone, all its streams are cancelled or held by somebody who will. */
  lemma NothingLeftBehind(actions: seq<Action>, states: seq<State>, k: nat, c: nat, id: nat)
    requires Trace(actions, states) && k < |states| && At(states[k], c, Gone)
    requires id in states[k].owner && states[k].owner[id] == c
    ensures id in states[k].held || id in states[k].cancelled
  {
    var s := states[k];
    TraceKeepsInv(actions, states, k);
    GoneHasNone(s, c);
    assert Kept(s, id) && !Has(s, c, id);
  }

  function Then(s: Option<State>, a: Action): Option<State> {
    if s.Some? then Next(s.value, a) else None
  }

  /** A session of speech goes through: the stream is opened, */
  lemma Opens(s: State, c: nat)
    requires Inv(s) && At(s, c, Idle)
    ensures var end, id := Then(Then(Then(Some(s), Start(c)), ProviderStarts(c, true)), Attach(c)), s.issued + 1;
      end.Some? && At(end.value, c, Idle) && ActiveFor(end.value, c, id) && id in end.value.attached
  {
  }

  /** every piece of audio is written and leaves everything as it was, */
  lemma Speaks(s: State, c: nat, id: nat)
    requires At(s, c, Idle) && ActiveFor(s, c, id) && id in s.attached
    ensures Then(Then(Some(s), Chunk(c, id)), AudioWritten(c, true)) == Some(s)
  {
    assert s.phases[c := Writing(id)][c := Idle] == s.phases;
  }

  /** and a finish makes it a closing one with its timer. */
  lemma Finishes(s: State, c: nat, id: nat)
    requires Inv(s) && At(s, c, Idle) && ActiveFor(s, c, id) && id in s.attached
    ensures var detached := Then(Then(Some(s), Finish(c, id)), FinishDetaches(c));
      var end := Then(Then(Then(detached, FinishRegisters(c)), ProviderFinishes(c, true)), Arm(c, false));
      && detached.Some? && !ActiveFor(detached.value, c, id)
      && end.Some? && At(end.value, c, Idle) && ClosingFor(end.value, c, id) && id in end.value.armed
  {
    Closes(Then(Then(Some(s), Finish(c, id)), FinishDetaches(c)).value, c, id);
  }

  lemma Closes(s: State, c: nat, id: nat)
    requires At(s, c, Detached(id))
    ensures var end := Then(Then(Then(Some(s), FinishRegisters(c)), ProviderFinishes(c, true)), Arm(c, false));
      end.Some? && At(end.value, c, Idle) && ClosingFor(end.value, c, id) && id in end.value.armed
  {
  }

  /** Where the provider fails, the stream ends up in nobody's name: it is cancelled or held. */
  lemma FailuresEndStream(s: State, c: nat, id: nat)
    requires Inv(s)
    ensures At(s, c, Starting(id)) ==>
      var end := Then(Then(Some(s), ProviderStarts(c, false)), Clean(c));
      end.Some? && At(end.value, c, Idle) && !ActiveFor(end.value, c, id) && id in end.value.cancelled
    ensures At(s, c, Writing(id)) ==>
      var end := Then(Then(Some(s), AudioWritten(c, false)), Clean(c));
      end.Some? && At(end.value, c, Idle) && !ActiveFor(end.value, c, id)
    ensures At(s, c, Draining(id)) ==>
      var end := Then(Then(Some(s), ProviderFinishes(c, false)), Clean(c));
      end.Some? && At(end.value, c, Idle) && !ClosingFor(end.value, c, id) && id in end.value.held
  {
  }

  /** A timer that was started can fire, and ends the stream it is for; so can an event of the stream. */
  lemma TimersEndStreams(s: State, c: nat, id: nat)
    requires Inv(s)
    ensures ActiveFor(s, c, id) && id in s.attached ==>
      EndsIn(Next(s, IdleFires(id)), c, id) && EndsIn(Next(s, EventEnds(id, false)), c, id)
    ensures ClosingFor(s, c, id) && id in s.armed ==>
      EndsIn(Next(s, ClosingFires(id)), c, id) && EndsIn(Next(s, EventEnds(id, true)), c, id)
  {
    hide EndsIn;
    if ActiveFor(s, c, id) {
      ActiveEnds(s, c, id);
    }
    if ClosingFor(s, c, id) {
      ClosingEnds(s, c, id);
    }
  }

  lemma ActiveEnds(s: State, c: nat, id: nat)
    requires Good(s.tables) && Owners(s.tables, s.issued, s.owner) && ActiveFor(s, c, id)
    ensures EndsIn(Some(Detaching(s, c, id)), c, id) && id in s.owner && s.owner[id] == c
  {
  }

  lemma ClosingEnds(s: State, c: nat, id: nat)
    requires Good(s.tables) && Owners(s.tables, s.issued, s.owner) && ClosingFor(s, c, id)
    ensures EndsIn(Some(DetachingClosing(s, id)), c, id) && id in s.owner
  {
  }

  predicate EndsIn(next: Option<State>, c: nat, id: nat) {
    && next.Some? && id in next.value.held
    && !ActiveFor(next.value, c, id) && !ClosingFor(next.value, c, id)
  }
}
