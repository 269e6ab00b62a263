/** What the answer of a forward says of the run: each kind of answer has its own cause, and a
    response that was taken reaches its caller. */
module ForwardingAnswers {
  import Runs
  import opened Collections
  import opened PendingMap
  import opened Forwarding

  const STEPS: (State, Action, State) -> bool := (s: State, a: Action, t: State) => Next(s, a) == Some(t)

  /** A run with the states it goes through. */
  ghost predicate Trace(actions: seq<Action>, states: seq<State>) {
    Runs.IsRun(STEPS, actions, states) && states[0] == Start()
  }

  lemma StepOfTrace(actions: seq<Action>, states: seq<State>, k: nat)
    requires Trace(actions, states) && k < |actions|
    ensures Next(states[k], actions[k]) == Some(states[k + 1])
  {
    assert Runs.StepAt(STEPS, actions, states, k);
  }

  lemma {:induction false} TraceKeepsInv(actions: seq<Action>, states: seq<State>, k: nat)
    requires Trace(actions, states) && k < |states|
    ensures Inv(states[k])
  {
    if k > 0 {
      TraceKeepsInv(actions, states, k - 1);
      StepOfTrace(actions, states, k - 1);
      StepKeeps(states[k - 1], actions[k - 1], states[k]);
    }
  }

  /** What brings a forward to a peer that answer: the hub's disconnect or its response, while the
      forward is pending there; 1024 others before it; its own timeout or failed write. */
  predicate Causes(s: State, a: Action, id: nat, peer: nat, answer: Answer) {
    match answer
    case HubGone => a == DropAll(peer) && id in Pending(s, peer)
    case FromHub(m) => a == Respond(peer, id, m) && id in Pending(s, peer)
    case Busy => a == Register(id) && |Pending(s, peer)| >= 1024
    case TimedOut => a == Timeout(id)
    case WriteFailed => a == Write(id, false)
  }

  ghost predicate Caused(actions: seq<Action>, states: seq<State>, k: nat, id: nat, peer: nat, answer: Answer)
    requires k < |states| && |states| == |actions| + 1
  {
    exists j {:trigger actions[j]} :: 0 <= j < k && Causes(states[j], actions[j], id, peer, answer)
  }

  /** The answers a forward has, and those it is about to have, all have their causes. */
  ghost predicate Backed(f: Forward, caused: Answer -> bool) {
    && (forall x {:trigger x in f.answers} :: x in f.answers ==> caused(x))
    && (f.phase.GivingUp? ==> caused(f.phase.answer))
    && (f.resolver.Sending? && !f.resolver.byCaller ==> caused(FromHub(f.resolver.message)))
    && (f.phase.Registered? || f.phase.Waiting? ==>
      && (f.message.Some? ==> caused(FromHub(f.message.value)))
      && (f.resolver.Closing? ==> f.message.Some?)
      && (f.closed && f.message.None? ==> caused(HubGone)))
  }

  ghost predicate Grows(s: State, a: Action, id: nat, peer: nat, caused: Answer -> bool, later: Answer -> bool) {
    forall x :: caused(x) || Causes(s, a, id, peer, x) ==> later(x)
  }

  lemma OwnStepBacked(s: State, id: nat, f: Forward, a: Action, next: State, caused: Answer -> bool,
      later: Answer -> bool)
    requires Sound(id, f, id in Pending(s, f.peer), s.arrived) && NextOf(s, id, f, a) == Some(next)
    requires a.id == id
    requires Backed(f, caused) && Grows(s, a, id, f.peer, caused, later)
    ensures id in next.forwards && Backed(next.forwards[id], later)
  {
    assert forall x :: caused(x) ==> later(x);
    match a
    case Register(_) => assert |Pending(s, f.peer)| >= MAX_PENDING ==> Causes(s, a, id, f.peer, Busy);
    case Write(_, ok) => assert !ok ==> Causes(s, a, id, f.peer, WriteFailed);
    case Timeout(_) => assert Causes(s, a, id, f.peer, TimedOut);
    case _ =>
  }

  lemma RespondedBacked(s: State, peer: nat, id: nat, m: Envelope, f: Forward, caused: Answer -> bool,
      later: Answer -> bool)
    requires Backed(f, caused) && Grows(s, Respond(peer, id, m), id, f.peer, caused, later)
    requires f.peer == peer && id in Pending(s, peer) && Sound(id, f, true, s.arrived)
    ensures Backed(f.(resolver := Sending(m, false)), later)
  {
    assert Causes(s, Respond(peer, id, m), id, peer, FromHub(m));
  }

  lemma DroppedBacked(s: State, peer: nat, id: nat, f: Forward, caused: Answer -> bool, later: Answer -> bool)
    requires Backed(f, caused) && Grows(s, DropAll(peer), id, f.peer, caused, later)
    requires f.peer == peer && id in Pending(s, peer) && Sound(id, f, true, s.arrived)
    ensures Backed(f.(closed := true), later)
  {
    assert Causes(s, DropAll(peer), id, peer, HubGone);
  }

  lemma StaysBacked(f: Forward, caused: Answer -> bool, later: Answer -> bool)
    requires Backed(f, caused) && forall x :: caused(x) ==> later(x)
    ensures Backed(f, later)
  {
  }

  /** One step, seen from a forward that is there already. */
  lemma StepBacked(s: State, a: Action, next: State, id: nat, caused: Answer -> bool, later: Answer -> bool)
    requires Inv(s) && Next(s, a) == Some(next) && id in s.forwards
    requires Backed(s.forwards[id], caused) && Grows(s, a, id, s.forwards[id].peer, caused, later)
    ensures id in next.forwards && next.forwards[id].peer == s.forwards[id].peer && Backed(next.forwards[id], later)
  {
    var f := s.forwards[id];
    assert Sound(id, f, id in Pending(s, f.peer), s.arrived);
    assert forall x :: caused(x) ==> later(x);
    StaysBacked(f, caused, later);
    if a.Begin? {
    } else if a.Respond? {
      if a.id == id && id in Pending(s, a.peer) {
        PendingHasCaller(s, a.peer, id);
        RespondedBacked(s, a.peer, id, a.message, f, caused, later);
      }
    } else if a.DropAll? {
      if id in Pending(s, a.peer) {
        PendingHasCaller(s, a.peer, id);
        DroppedBacked(s, a.peer, id, f, caused, later);
      }
    } else {
      StepOfChanges(s, a.id, s.forwards[a.id], a, next);
      if a.id == id {
        OwnStepBacked(s, id, f, a, next, caused, later);
        StepOfSound(s, id, a, next);
      }
    }
  }

  ghost function CausedBy(actions: seq<Action>, states: seq<State>, k: nat, id: nat, peer: nat): Answer -> bool
    requires k < |states| && |states| == |actions| + 1
  {
    x => Caused(actions, states, k, id, peer, x)
  }

  lemma CausesGrow(actions: seq<Action>, states: seq<State>, k: nat, id: nat, peer: nat)
    requires |states| == |actions| + 1 && k < |actions|
    ensures Grows(states[k], actions[k], id, peer, CausedBy(actions, states, k, id, peer),
      CausedBy(actions, states, k + 1, id, peer))
  {
  }

  lemma {:induction false} TraceBacked(actions: seq<Action>, states: seq<State>, k: nat, id: nat)
    requires Trace(actions, states) && k < |states| && id in states[k].forwards
    ensures Backed(states[k].forwards[id], CausedBy(actions, states, k, id, states[k].forwards[id].peer))
  {
    if k > 0 {
      TraceKeepsInv(actions, states, k - 1);
      StepOfTrace(actions, states, k - 1);
      if id in states[k - 1].forwards {
        var peer := states[k - 1].forwards[id].peer;
        TraceBacked(actions, states, k - 1, id);
        CausesGrow(actions, states, k - 1, id, peer);
        StepBacked(states[k - 1], actions[k - 1], states[k], id, CausedBy(actions, states, k - 1, id, peer),
          CausedBy(actions, states, k, id, peer));
      } else {
        NewForward(states[k - 1], actions[k - 1], states[k], id);
      }
    }
  }

  lemma NewForward(s: State, a: Action, next: State, id: nat)
    requires Next(s, a) == Some(next) && id !in s.forwards && id in next.forwards
    ensures next.forwards[id] == Forward(next.forwards[id].peer, Numbered, Nobody, None, false, [])
  {
  }

  /** In every run, each answer came about as it says: "hub disconnected" because the hub's
      connection dropped the forward while it was pending there, a hub's message because that hub
      sent it for the forward while it was pending there, "busy" because 1024 forwards were
      pending at its registration, a timeout or a failed write because of its own. */
  lemma AnswersHaveCauses(actions: seq<Action>, states: seq<State>, k: nat, id: nat, answer: Answer)
    requires Trace(actions, states) && k < |states| && id in states[k].forwards
    requires answer in states[k].forwards[id].answers
    ensures Caused(actions, states, k, id, states[k].forwards[id].peer, answer)
  {
    TraceBacked(actions, states, k, id);
    var caused := CausedBy(actions, states, k, id, states[k].forwards[id].peer);
    assert caused(answer);
  }

  /** The forward whose entry a response took: the message is on its way to the caller, or it is
      the caller's answer, or the caller stopped waiting for it. */
  ghost predicate Told(f: Forward, m: Envelope) {
    && !f.phase.Numbered?
    && (f.phase.Registered? || f.phase.Waiting? ==>
      (f.resolver == Sending(m, false) && f.message.None? && !f.closed) || f.message == Some(m))
    && (f.phase.GivingUp? ==> f.phase.answer in {TimedOut, WriteFailed})
    && (f.phase.Returned? ==> f.answers in {[FromHub(m)], [TimedOut], [WriteFailed]})
  }

  /** It is told, and pending nowhere any more. */
  ghost predicate TakenFor(s: State, id: nat, m: Envelope) {
    && id in s.forwards && Told(s.forwards[id], m)
    && forall p {:trigger Pending(s, p)} :: id !in Pending(s, p)
  }

  lemma ResponseTakes(s: State, peer: nat, id: nat, m: Envelope)
    requires Inv(s) && id in Pending(s, peer)
    ensures TakenFor(RespondNext(s, peer, id, m), id, m)
  {
    PendingHasCaller(s, peer, id);
    assert Sound(id, s.forwards[id], true, s.arrived);
    forall p | id in Pending(s, p) ensures p == peer {
      PendingHasCaller(s, p, id);
    }
  }

  lemma OwnStepTold(s: State, id: nat, f: Forward, a: Action, next: State, m: Envelope)
    requires Sound(id, f, false, s.arrived) && id !in Pending(s, f.peer) && NextOf(s, id, f, a) == Some(next)
    requires Told(f, m) && a.id == id
    ensures id in next.forwards && Told(next.forwards[id], m)
    ensures a.Receive? ==> next.forwards[id].answers == [FromHub(m)]
    ensures id !in Pending(next, f.peer)
  {
    assert !f.phase.Returned? ==> f.answers == [];
    assert forall x: Answer {:trigger [x]} :: [] + [x] == [x];
  }

  lemma StepTakenFor(s: State, a: Action, next: State, id: nat, m: Envelope)
    requires Inv(s) && Next(s, a) == Some(next) && TakenFor(s, id, m)
    ensures TakenFor(next, id, m)
    ensures a == Receive(id) ==> next.forwards[id].answers == [FromHub(m)]
  {
    var f := s.forwards[id];
    assert Sound(id, f, id in Pending(s, f.peer), s.arrived);
    if !a.Begin? && !a.Respond? && !a.DropAll? {
      StepOfChanges(s, a.id, s.forwards[a.id], a, next);
      if a.id == id {
        OwnStepTold(s, id, f, a, next, m);
        OwnMapsOnly(s, id, f, a, next);
      }
    }
  }

  lemma OwnMapsOnly(s: State, id: nat, f: Forward, a: Action, next: State)
    requires NextOf(s, id, f, a) == Some(next)
    ensures forall p {:trigger Pending(next, p)} :: p != f.peer ==> Pending(next, p) == Pending(s, p)
  {
  }

  lemma {:induction false} StaysTakenFor(actions: seq<Action>, states: seq<State>, j: nat, k: nat, id: nat, m: Envelope)
    requires Trace(actions, states) && j <= k < |states| && TakenFor(states[j], id, m)
    ensures TakenFor(states[k], id, m)
  {
    if j < k {
      StaysTakenFor(actions, states, j, k - 1, id, m);
      TraceKeepsInv(actions, states, k - 1);
      StepOfTrace(actions, states, k - 1);
      StepTakenFor(states[k - 1], actions[k - 1], states[k], id, m);
    }
  }

  /** In every run in which a hub's response took the forward's entry, the caller's answer is that
      response, unless the caller stopped waiting: it is whenever the caller receives, and whenever
      it returned without a timeout or failed write of its own. */
  lemma ResponseReachesCaller(actions: seq<Action>, states: seq<State>, j: nat, k: nat, id: nat, m: Envelope)
    requires Trace(actions, states) && j < k < |states| && actions[j].Respond?
    requires Causes(states[j], actions[j], id, actions[j].peer, FromHub(m))
    ensures id in states[k].forwards
    ensures states[k].forwards[id].phase.Returned? ==>
      states[k].forwards[id].answers in {[FromHub(m)], [TimedOut], [WriteFailed]}
    ensures actions[k - 1] == Receive(id) ==> states[k].forwards[id].answers == [FromHub(m)]
    ensures states[k].forwards[id].phase.Returned? && Timeout(id) !in actions[..k] && Write(id, false) !in actions[..k]
      ==> states[k].forwards[id].answers == [FromHub(m)]
  {
    TraceKeepsInv(actions, states, j);
    StepOfTrace(actions, states, j);
    ResponseTakes(states[j], actions[j].peer, id, m);
    StaysTakenFor(actions, states, j + 1, k, id, m);
    TraceKeepsInv(actions, states, k - 1);
    StepOfTrace(actions, states, k - 1);
    if actions[k - 1] == Receive(id) {
      if j + 1 == k {
        assert false;
      } else {
        StaysTakenFor(actions, states, j + 1, k - 1, id, m);
        StepTakenFor(states[k - 1], actions[k - 1], states[k], id, m);
      }
    }
    OwnCauses(actions, states, k, id);
  }

  lemma OwnCauses(actions: seq<Action>, states: seq<State>, k: nat, id: nat)
    requires Trace(actions, states) && k < |states| && id in states[k].forwards
    ensures TimedOut in states[k].forwards[id].answers ==> Timeout(id) in actions[..k]
    ensures WriteFailed in states[k].forwards[id].answers ==> Write(id, false) in actions[..k]
  {
    var f := states[k].forwards[id];
    if TimedOut in f.answers {
      AnswersHaveCauses(actions, states, k, id, TimedOut);
    }
    if WriteFailed in f.answers {
      AnswersHaveCauses(actions, states, k, id, WriteFailed);
    }
  }

  /** The actions are possible in turn, and the caller then has returned with that answer. */
  ghost predicate LeadsTo(s: State, actions: seq<Action>, id: nat, answer: Answer) {
    && Run(s, actions).Some? && id in Run(s, actions).value.forwards
    && Run(s, actions).value.forwards[id].answers == [answer]
    && Run(s, actions).value.forwards[id].phase.Returned?
  }

  lemma Then(s: State, first: seq<Action>, t: State, a: Action, u: State)
    requires Run(s, first) == Some(t) && Next(t, a) == Some(u)
    ensures Run(s, first + [a]) == Some(u)
  {
    Runs.AfterOneMore(Next, s, first, a);
  }

  lemma Two(s: State, a: Action, t: State, b: Action, u: State)
    requires Next(s, a) == Some(t) && Next(t, b) == Some(u)
    ensures Run(s, [a, b]) == Some(u)
  {
    Then(s, [], s, a, t);
    assert [] + [a] == [a] && [a] + [b] == [a, b];
    Then(s, [a], t, b, u);
  }

  /** A caller that waits and is pending gets the hub's response when it comes, "hub disconnected"
      when the connection drops, and a timeout when its time is up. */
  lemma WaitingIsAnswered(s: State, id: nat, m: Envelope)
    requires Inv(s) && id in s.forwards && s.forwards[id].phase.Waiting? && id in Pending(s, s.forwards[id].peer)
    ensures LeadsTo(s, [Respond(s.forwards[id].peer, id, m), Send(id), Close(id), Receive(id)], id, FromHub(m))
    ensures LeadsTo(s, [DropAll(s.forwards[id].peer), Receive(id)], id, HubGone)
    ensures LeadsTo(s, [Timeout(id), TakeBack(id), Send(id), Close(id), Return(id)], id, TimedOut)
  {
    var f := s.forwards[id];
    assert Sound(id, f, true, s.arrived);
    assert f.answers == [] && forall x: Answer {:trigger [x]} :: [] + [x] == [x];
    ResponseAnswers(s, id, f, m);
    DropAnswers(s, id, f);
    TimeoutAnswers(s, id, f);
  }

  lemma ResponseAnswers(s: State, id: nat, f: Forward, m: Envelope)
    requires id in s.forwards && s.forwards[id] == f && f.phase.Waiting? && id in Pending(s, f.peer)
    requires f.answers == [] && f.message.None? && !f.closed && f.resolver.Nobody?
    ensures LeadsTo(s, [Respond(f.peer, id, m), Send(id), Close(id), Receive(id)], id, FromHub(m))
  {
    var a, b, c, d := Respond(f.peer, id, m), Send(id), Close(id), Receive(id);
    var s1 := Next(s, a).value;
    var s2 := Next(s1, b).value;
    var s3 := Next(s2, c).value;
    var s4 := Next(s3, d).value;
    Two(s, a, s1, b, s2);
    Then(s, [a, b], s2, c, s3);
    assert [a, b] + [c] == [a, b, c] && [a, b, c] + [d] == [a, b, c, d];
    Then(s, [a, b, c], s3, d, s4);
    assert s4.forwards[id].answers == [] + [FromHub(m)];
  }

  lemma DropAnswers(s: State, id: nat, f: Forward)
    requires id in s.forwards && s.forwards[id] == f && f.phase.Waiting? && id in Pending(s, f.peer)
    requires f.answers == [] && f.message.None?
    ensures LeadsTo(s, [DropAll(f.peer), Receive(id)], id, HubGone)
  {
    var s1 := Next(s, DropAll(f.peer)).value;
    var s2 := Next(s1, Receive(id)).value;
    Two(s, DropAll(f.peer), s1, Receive(id), s2);
    assert s2.forwards[id].answers == [] + [HubGone];
  }

  lemma TimeoutAnswers(s: State, id: nat, f: Forward)
    requires id in s.forwards && s.forwards[id] == f && f.phase.Waiting? && id in Pending(s, f.peer)
    requires f.answers == [] && f.message.None? && !f.closed && f.resolver.Nobody?
    ensures LeadsTo(s, [Timeout(id), TakeBack(id), Send(id), Close(id), Return(id)], id, TimedOut)
  {
    var a, b, c, d, e := Timeout(id), TakeBack(id), Send(id), Close(id), Return(id);
    var s1 := Next(s, a).value;
    var s2 := Next(s1, b).value;
    var s3 := Next(s2, c).value;
    var s4 := Next(s3, d).value;
    var s5 := Next(s4, e).value;
    Two(s, a, s1, b, s2);
    assert [a, b] + [c] == [a, b, c] && [a, b, c] + [d] == [a, b, c, d] && [a, b, c, d] + [e] == [a, b, c, d, e];
    Then(s, [a, b], s2, c, s3);
    Then(s, [a, b, c], s3, d, s4);
    Then(s, [a, b, c, d], s4, e, s5);
    assert s5.forwards[id].answers == [] + [TimedOut];
  }

  /** Registering is refused exactly when 1024 forwards are pending at the peer; otherwise the
      forward becomes pending, and a failed write is what its caller is told. */
  lemma RegisteringOrBusy(s: State, id: nat)
    requires Inv(s) && id in s.forwards && s.forwards[id].phase.Numbered?
    ensures |Pending(s, s.forwards[id].peer)| >= 1024 ==> LeadsTo(s, [Register(id)], id, Busy)
    ensures |Pending(s, s.forwards[id].peer)| < 1024 ==>
      Next(s, Register(id)).Some? && id in Pending(Next(s, Register(id)).value, s.forwards[id].peer)
      && LeadsTo(s, [Register(id), Write(id, false), TakeBack(id), Send(id), Close(id), Return(id)], id, WriteFailed)
  {
    var f := s.forwards[id];
    assert Sound(id, f, id in Pending(s, f.peer), s.arrived);
    var s1 := Next(s, Register(id)).value;
    Then(s, [], s, Register(id), s1);
    assert [] + [Register(id)] == [Register(id)];
    if |Pending(s, f.peer)| >= 1024 {
      assert s1.forwards[id].answers == [] + [Busy];
    } else {
      FailedWriteAnswers(s, s1, id, f);
    }
  }

  lemma FailedWriteAnswers(s: State, s1: State, id: nat, f: Forward)
    requires id in s.forwards && s.forwards[id] == f && Next(s, Register(id)) == Some(s1)
    requires f.phase.Numbered? && |Pending(s, f.peer)| < 1024
    requires f.answers == [] && f.message.None? && !f.closed && f.resolver.Nobody?
    ensures id in Pending(s1, f.peer)
    ensures LeadsTo(s, [Register(id), Write(id, false), TakeBack(id), Send(id), Close(id), Return(id)], id, WriteFailed)
  {
    var a, b, c, d, e := Register(id), Write(id, false), TakeBack(id), Send(id), Close(id);
    var s2 := Next(s1, b).value;
    var s3 := Next(s2, c).value;
    var s4 := Next(s3, d).value;
    var s5 := Next(s4, e).value;
    var s6 := Next(s5, Return(id)).value;
    Two(s, a, s1, b, s2);
    assert [a, b] + [c] == [a, b, c] && [a, b, c] + [d] == [a, b, c, d] && [a, b, c, d] + [e] == [a, b, c, d, e];
    assert [a, b, c, d, e] + [Return(id)] == [a, b, c, d, e, Return(id)];
    Then(s, [a, b], s2, c, s3);
    Then(s, [a, b, c], s3, d, s4);
    Then(s, [a, b, c, d], s4, e, s5);
    Then(s, [a, b, c, d, e], s5, Return(id), s6);
    assert s6.forwards[id].answers == [] + [WriteFailed];
  }

  /** How far a caller is from returning. */
  function Distance(f: Forward): nat {
    match f.phase
    case Numbered => 9
    case Registered => 8
    case Waiting => 7
    case GivingUp(_, resolved) =>
      if !resolved then 6 else if f.resolver.Sending? then 3 else if f.resolver.Closing? then 2 else 1
    case Returned => 0
  }

  /** What a caller can do on its own: register and write, time out, take its entry back, send to
      itself and close, and return. */
  function OwnMove(id: nat, f: Forward): Action {
    match f.phase
    case Numbered => Register(id)
    case Registered => Write(id, true)
    case Waiting => Timeout(id)
    case GivingUp(_, resolved) =>
      if !resolved then TakeBack(id)
      else if f.resolver.Nobody? || !f.resolver.byCaller then Return(id)
      else if f.resolver.Sending? then Send(id)
      else Close(id)
    case Returned => Return(id)
  }

  lemma OwnMoveNears(s: State, id: nat)
    requires id in s.forwards && !s.forwards[id].phase.Returned?
    ensures var next := Next(s, OwnMove(id, s.forwards[id]));
      next.Some? && id in next.value.forwards
      && Distance(next.value.forwards[id]) < Distance(s.forwards[id])
  {
  }

  /** The moves are the caller's own. */
  predicate OwnMoves(id: nat, actions: seq<Action>) {
    forall a :: a in actions ==> a in {Register(id), Write(id, true), Timeout(id), TakeBack(id), Send(id), Close(id),
      Return(id)}
  }

  /** Wherever a run has got to, every caller that has not returned can do so with an answer, by
      moves of its own: nothing anybody else does or leaves undone keeps it waiting for ever. */
  lemma {:induction false} EveryCallerReturns(s: State, id: nat) returns (actions: seq<Action>)
    requires Inv(s) && id in s.forwards
    ensures OwnMoves(id, actions) && Run(s, actions).Some?
    ensures var end := Run(s, actions).value;
      id in end.forwards && end.forwards[id].phase.Returned? && |end.forwards[id].answers| == 1
    decreases Distance(s.forwards[id])
  {
    if s.forwards[id].phase.Returned? {
      assert Sound(id, s.forwards[id], id in Pending(s, s.forwards[id].peer), s.arrived);
      actions := [];
    } else {
      var a := OwnMove(id, s.forwards[id]);
      OwnMoveNears(s, id);
      var next := Next(s, a).value;
      StepKeeps(s, a, next);
      var rest := EveryCallerReturns(next, id);
      actions := [a] + rest;
      assert actions[0] == a && actions[1..] == rest;
    }
  }
}
