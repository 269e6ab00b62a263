/** The pending map of a peer connection: one channel for every request forwarded to it. */
module PendingMap {
  import opened Collections
  import opened Sorting

  const MAX_PENDING := 1024

  /** An envelope, of which forwarding looks at nothing. */
  datatype Envelope = Envelope(text: string)

  /** A channel of capacity one. Sending to a full channel would block, and sending to a closed
      one or closing it again would panic. */
  class Channel {
    var message: Option<Envelope>
    var closed: bool

    constructor ()
      ensures message.None? && !closed
    {
      message, closed := None, false;
    }

    method Send(m: Envelope)
      requires message.None? && !closed
      modifies this
      ensures message == Some(m) && !closed
    {
      message := Some(m);
    }

    method Close()
      requires !closed
      modifies this
      ensures closed && message == old(message)
    {
      closed := true;
    }
  }

  class PeerConn {
    var pending: map<nat, Channel>

    ghost function Channels(): set<Channel>
      reads this
    {
      set id | id in pending :: pending[id]
    }

    /** Whoever waits for a pending request has a channel of its own, still open and empty. */
    ghost predicate Valid()
      reads this, Channels()
    {
      && (forall id {:trigger pending[id]} :: id in pending ==> pending[id].message.None? && !pending[id].closed)
      && (forall i, j {:trigger pending[i], pending[j]} ::
        i in pending && j in pending && pending[i] == pending[j] ==> i == j)
      && |pending| <= MAX_PENDING
    }

    constructor ()
      ensures Valid() && pending == map[]
    {
      pending := map[];
    }

    /** registerPending: no channel when the backlog is full. */
    method RegisterPending(id: nat) returns (ch: Option<Channel>)
      requires Valid()
      modifies this
      ensures Valid()
      ensures ch.None? <==> |old(pending)| >= MAX_PENDING
      ensures ch.None? ==> pending == old(pending)
      ensures ch.Some? ==> fresh(ch.value) && pending == old(pending)[id := ch.value]
    {
      if |pending| >= MAX_PENDING {
        return None;
      }
      var c := new Channel();
      assert |pending[id := c]| <= |pending| + 1 by {
        assert pending[id := c].Keys == pending.Keys + {id};
        assert |pending[id := c].Keys| <= |pending.Keys| + 1;
      }
      pending := pending[id := c];
      ch := Some(c);
    }

    /** resolvePending: whoever takes the entry out of the map delivers, and nobody else does. */
    method ResolvePending(id: nat, m: Envelope) returns (ok: bool)
      requires Valid()
      modifies this, Channels()
      ensures Valid()
      ensures ok <==> id in old(pending)
      ensures pending == old(pending) - {id}
      ensures ok ==> old(pending)[id].message == Some(m) && old(pending)[id].closed
    {
      if id !in pending {
        assert pending - {id} == pending;
        return false;
      }
      var c := pending[id];
      pending := pending - {id};
      assert pending.Keys <= old(pending.Keys);
      SubsetSize(pending.Keys, old(pending.Keys));
      c.Send(m);
      c.Close();
      ok := true;
    }

    /** dropAllPending: close every channel without an answer. */
    method DropAllPending()
      requires Valid()
      modifies this, Channels()
      ensures Valid() && pending == map[]
      ensures forall id {:trigger old(pending)[id]} :: id in old(pending) ==>
        old(pending)[id].closed && old(pending)[id].message.None?
    {
      ghost var all := pending;
      var left := pending.Keys;
      while left != {}
        invariant left <= all.Keys && pending == map id | id in left :: all[id]
        invariant forall id {:trigger all[id]} :: id in all ==>
          all[id].message.None? && (all[id].closed <==> id !in left)
        decreases left
      {
        var id := AnyOf(left);
        left := left - {id};
        var c := pending[id];
        pending := pending - {id};
        c.Close();
      }
    }
  }
}

/** Requests forwarded to hubs, over all peers: every step is one access to a pending map, a
    channel or a connection. */
module Forwarding {
  import Runs
  import opened Collections
  import opened PendingMap

  datatype Answer = FromHub(message: Envelope) | Busy | WriteFailed | TimedOut | HubGone

  /** The caller of one forward: it has its id; its channel is registered; it waits; it stopped
      waiting and has, or has not yet, taken its entry out of the map; it returned. */
  datatype Phase = Numbered | Registered | Waiting | GivingUp(answer: Answer, resolved: bool) | Returned

  /** Who took the entry out of the map and still has to send and close. */
  datatype Resolver = Nobody | Sending(message: Envelope, byCaller: bool) | Closing(byCaller: bool)

  datatype Forward = Forward(peer: nat, phase: Phase, resolver: Resolver, message: Option<Envelope>, closed: bool,
    answers: seq<Answer>)

  datatype Arrival = Arrival(peer: nat, id: nat, message: Envelope)

  /** The keys of each peer's pending map, the forwards by their id, and every response that
      ever arrived from a hub. */
  datatype State = State(numbers: nat, pending: map<nat, set<nat>>, forwards: map<nat, Forward>, arrived: set<Arrival>)

  datatype Action =
    | Begin(peer: nat) | Register(id: nat) | Write(id: nat, ok: bool)
    | Respond(peer: nat, id: nat, message: Envelope) | Send(id: nat) | Close(id: nat)
    | Receive(id: nat) | Timeout(id: nat) | TakeBack(id: nat) | Return(id: nat) | DropAll(peer: nat)

  const BLANK := Envelope("")

  function Start(): State {
    State(0, map[], map[], {})
  }

  function Pending(s: State, peer: nat): set<nat> {
    if peer in s.pending then s.pending[peer] else {}
  }

  function Put(s: State, id: nat, f: Forward): State {
    s.(forwards := s.forwards[id := f])
  }

  function Take(s: State, peer: nat, id: nat): State {
    s.(pending := s.pending[peer := Pending(s, peer) - {id}])
  }

  function Finish(f: Forward, a: Answer): Forward {
    f.(phase := Returned, answers := f.answers + [a])
  }

  /** A step of the forward with this id, which is f. */
  function NextOf(s: State, id: nat, f: Forward, a: Action): Option<State> {
    match a
    case Register(_) =>
      if !f.phase.Numbered? then None
      else if |Pending(s, f.peer)| >= MAX_PENDING then Some(Put(s, id, Finish(f, Busy)))
      else Some(Put(s.(pending := s.pending[f.peer := Pending(s, f.peer) + {id}]), id, f.(phase := Registered)))
    case Write(_, ok) =>
      if !f.phase.Registered? then None
      else Some(Put(s, id, f.(phase := if ok then Waiting else GivingUp(WriteFailed, false))))
    case Send(_) =>
      if !f.resolver.Sending? then None
      else Some(Put(s, id, f.(message := Some(f.resolver.message), resolver := Closing(f.resolver.byCaller))))
    case Close(_) =>
      if !f.resolver.Closing? then None else Some(Put(s, id, f.(closed := true, resolver := Nobody)))
    case Receive(_) =>
      if !f.phase.Waiting? then None
      else if f.message.Some? then Some(Put(s, id, Finish(f.(message := None), FromHub(f.message.value))))
      else if f.closed then Some(Put(s, id, Finish(f, HubGone)))
      else None
    case Timeout(_) =>
      if !f.phase.Waiting? then None else Some(Put(s, id, f.(phase := GivingUp(TimedOut, false))))
    case TakeBack(_) =>
      if !f.phase.GivingUp? || f.phase.resolved then None
      else if id in Pending(s, f.peer) then
        Some(Put(Take(s, f.peer, id), id,
          f.(phase := GivingUp(f.phase.answer, true), resolver := Sending(BLANK, true))))
      else Some(Put(s, id, f.(phase := GivingUp(f.phase.answer, true))))
    case Return(_) =>
      if !f.phase.GivingUp? || !f.phase.resolved then None
      else if !f.resolver.Nobody? && f.resolver.byCaller then None
      else Some(Put(s, id, Finish(f, f.phase.answer)))
    case _ => None
  }

  /** The hub's answer is matched with the pending map of the connection it came in on. */
  function RespondNext(s: State, peer: nat, id: nat, m: Envelope): State {
    var heard := s.(arrived := s.arrived + {Arrival(peer, id, m)});
    if id in Pending(s, peer) && id in s.forwards then
      Put(Take(heard, peer, id), id, s.forwards[id].(resolver := Sending(m, false)))
    else heard
  }

  function DropAllNext(s: State, peer: nat): State {
    s.(pending := s.pending[peer := {}],
      forwards := map id | id in s.forwards ::
        if id in Pending(s, peer) then s.forwards[id].(closed := true) else s.forwards[id])
  }

  function Next(s: State, a: Action): Option<State> {
    match a
    case Begin(peer) =>
      var id := s.numbers + 1;
      Some(s.(numbers := id, forwards := s.forwards[id := Forward(peer, Numbered, Nobody, None, false, [])]))
    case Respond(peer, id, m) => Some(RespondNext(s, peer, id, m))
    case DropAll(peer) => Some(DropAllNext(s, peer))
    case _ => if a.id in s.forwards then NextOf(s, a.id, s.forwards[a.id], a) else None
  }

  /** What holds of one forward. */
  ghost predicate Sound(id: nat, f: Forward, here: bool, arrived: set<Arrival>) {
    && Answered(f)
    && Entered(f, here)
    && Delivering(f)
    && FromItsHub(id, f, arrived)
  }

  /** Exactly one answer once the caller has returned, none before. */
  ghost predicate Answered(f: Forward) {
    |f.answers| == if f.phase.Returned? then 1 else 0
  }

  /** Whether the entry is still in the map, and that nobody waits for a channel that neither
      is in the map nor is being delivered to nor is closed. */
  ghost predicate Entered(f: Forward, here: bool) {
    && (here ==> f.message.None? && !f.closed && f.resolver.Nobody?)
    && (f.phase.Numbered? || f.phase.Returned? || (f.phase.GivingUp? && f.phase.resolved) ==> !here)
    && (f.phase.Numbered? ==> f.message.None? && !f.closed && f.resolver.Nobody?)
    && (f.phase.Registered? || f.phase.Waiting? || (f.phase.GivingUp? && !f.phase.resolved) ==>
      here || !f.resolver.Nobody? || f.closed)
  }

  /** A send finds the channel open and empty, a close finds it open. */
  ghost predicate Delivering(f: Forward) {
    && (f.resolver.Sending? ==> f.message.None? && !f.closed)
    && (f.resolver.Closing? ==> !f.closed)
    && (f.phase.GivingUp? ==> f.phase.answer.WriteFailed? || f.phase.answer.TimedOut?)
    && (!f.resolver.Nobody? && f.resolver.byCaller ==> f.phase.GivingUp? && f.phase.resolved)
  }

  ghost predicate FromItsHub(id: nat, f: Forward, arrived: set<Arrival>) {
    && (f.resolver.Sending? && !f.resolver.byCaller ==> Arrival(f.peer, id, f.resolver.message) in arrived)
    && (f.message.Some? && (f.phase.Registered? || f.phase.Waiting?) ==>
      Arrival(f.peer, id, f.message.value) in arrived)
    && (forall a {:trigger a in f.answers} :: a in f.answers && a.FromHub? ==>
      Arrival(f.peer, id, a.message) in arrived)
  }

  ghost predicate AllSound(s: State) {
    forall id {:trigger s.forwards[id]} :: id in s.forwards ==>
      Sound(id, s.forwards[id], id in Pending(s, s.forwards[id].peer), s.arrived)
  }

  /** No pending map outgrows its bound, and an entry is in the map of its own peer only. */
  ghost predicate MapsSound(s: State) {
    && (forall id {:trigger id in s.forwards} :: id in s.forwards ==> id <= s.numbers)
    && (forall p {:trigger s.pending[p]} :: p in s.pending ==> |s.pending[p]| <= MAX_PENDING)
    && (forall p, id {:trigger id in s.pending[p]} :: p in s.pending && id in s.pending[p] ==>
      id in s.forwards && s.forwards[id].peer == p)
  }

  ghost predicate Inv(s: State) {
    MapsSound(s) && AllSound(s)
  }

  /** What is left is for the forward that steps; the others stay as they were. */
  lemma OthersSound(s: State, next: State, id: nat, f: Forward)
    requires AllSound(s) && next.forwards == s.forwards[id := f] && s.arrived <= next.arrived
    requires Sound(id, f, id in Pending(next, f.peer), next.arrived)
    requires forall k, p {:trigger k in Pending(next, p)} :: k != id ==> (k in Pending(next, p) <==> k in Pending(s, p))
    ensures AllSound(next)
  {
    forall k | k in next.forwards
      ensures Sound(k, next.forwards[k], k in Pending(next, next.forwards[k].peer), next.arrived)
    {
      if k != id {
        assert Sound(k, s.forwards[k], k in Pending(s, s.forwards[k].peer), s.arrived);
        StaysFromItsHub(k, s.forwards[k], s.arrived, next.arrived);
      }
    }
  }

  lemma StaysFromItsHub(id: nat, f: Forward, arrived: set<Arrival>, later: set<Arrival>)
    requires FromItsHub(id, f, arrived) && arrived <= later
    ensures FromItsHub(id, f, later)
  {
  }

  lemma FinishSound(id: nat, f: Forward, a: Answer, arrived: set<Arrival>)
    requires Sound(id, f, false, arrived) && !f.phase.Returned?
    requires !f.resolver.Nobody? ==> !f.resolver.byCaller
    requires a.FromHub? ==> Arrival(f.peer, id, a.message) in arrived
    ensures Sound(id, Finish(f, a), false, arrived)
  {
    assert f.answers == [];
  }

  /** The forward's own part of a step that is not about the maps. */
  lemma OwnStepSound(s: State, id: nat, f: Forward, a: Action, next: State, here: bool)
    requires Sound(id, f, here, s.arrived) && here == (id in Pending(s, f.peer))
    requires NextOf(s, id, f, a) == Some(next) && (a.Write? || a.Send? || a.Close? || a.Timeout?)
    ensures Sound(id, next.forwards[id], here, s.arrived)
  {
  }

  lemma ReceiveSound(s: State, id: nat, f: Forward, next: State)
    requires Sound(id, f, id in Pending(s, f.peer), s.arrived) && NextOf(s, id, f, Receive(id)) == Some(next)
    ensures Sound(id, next.forwards[id], id in Pending(s, f.peer), s.arrived)
  {
    var g := f.(message := None);
    if f.message.Some? {
      assert Sound(id, g, false, s.arrived);
      FinishSound(id, g, FromHub(f.message.value), s.arrived);
    } else {
      FinishSound(id, f, HubGone, s.arrived);
    }
  }

  lemma RegisterSound(s: State, id: nat, f: Forward, next: State)
    requires Sound(id, f, id in Pending(s, f.peer), s.arrived) && NextOf(s, id, f, Register(id)) == Some(next)
    ensures Sound(id, next.forwards[id], id in Pending(next, f.peer), s.arrived)
  {
    if |Pending(s, f.peer)| >= MAX_PENDING {
      FinishSound(id, f, Busy, s.arrived);
    }
  }

  lemma GivingUpSound(s: State, id: nat, f: Forward, a: Action, next: State)
    requires Sound(id, f, id in Pending(s, f.peer), s.arrived) && NextOf(s, id, f, a) == Some(next)
    requires a.TakeBack? || a.Return?
    ensures Sound(id, next.forwards[id], id in Pending(next, f.peer), s.arrived)
  {
    if a.Return? {
      FinishSound(id, f, f.phase.answer, s.arrived);
    }
  }

  lemma StepOfSound(s: State, id: nat, a: Action, next: State)
    requires AllSound(s) && id in s.forwards && NextOf(s, id, s.forwards[id], a) == Some(next)
    ensures Sound(id, next.forwards[id], id in Pending(next, s.forwards[id].peer), s.arrived)
    ensures next.forwards[id].peer == s.forwards[id].peer
  {
    var f := s.forwards[id];
    assert Sound(id, f, id in Pending(s, f.peer), s.arrived);
    match a
    case Register(_) => RegisterSound(s, id, f, next);
    case Receive(_) => ReceiveSound(s, id, f, next);
    case TakeBack(_) => GivingUpSound(s, id, f, a, next);
    case Return(_) => GivingUpSound(s, id, f, a, next);
    case _ => OwnStepSound(s, id, f, a, next, id in Pending(s, f.peer));
  }

  /** What a step of one forward changes. */
  lemma StepOfChanges(s: State, id: nat, f: Forward, a: Action, next: State)
    requires NextOf(s, id, f, a) == Some(next)
    ensures id in next.forwards && next.forwards == s.forwards[id := next.forwards[id]] && next.arrived == s.arrived
    ensures forall k, p {:trigger k in Pending(next, p)} :: k != id ==> (k in Pending(next, p) <==> k in Pending(s, p))
  {
  }

  lemma StepOfKeeps(s: State, id: nat, a: Action, next: State)
    requires AllSound(s) && id in s.forwards && NextOf(s, id, s.forwards[id], a) == Some(next)
    ensures AllSound(next)
  {
    StepOfSound(s, id, a, next);
    StepOfChanges(s, id, s.forwards[id], a, next);
    OthersSound(s, next, id, next.forwards[id]);
  }

  lemma RespondSound(id: nat, f: Forward, m: Envelope, arrived: set<Arrival>, later: set<Arrival>)
    requires Sound(id, f, true, arrived) && later == arrived + {Arrival(f.peer, id, m)}
    ensures Sound(id, f.(resolver := Sending(m, false)), false, later)
  {
  }

  lemma RespondKeeps(s: State, peer: nat, id: nat, m: Envelope)
    requires Inv(s)
    ensures AllSound(RespondNext(s, peer, id, m))
  {
    var next := RespondNext(s, peer, id, m);
    if id in Pending(s, peer) && id in s.forwards {
      var f := s.forwards[id];
      assert f.peer == peer && Sound(id, f, true, s.arrived);
      RespondSound(id, f, m, s.arrived, next.arrived);
      OthersSound(s, next, id, next.forwards[id]);
    } else {
      forall k | k in next.forwards
        ensures Sound(k, next.forwards[k], k in Pending(next, next.forwards[k].peer), next.arrived)
      {
        StaysFromItsHub(k, s.forwards[k], s.arrived, next.arrived);
      }
    }
  }

  lemma DropSound(id: nat, f: Forward, arrived: set<Arrival>)
    requires Sound(id, f, true, arrived)
    ensures Sound(id, f.(closed := true), false, arrived)
  {
  }

  lemma DropAllKeeps(s: State, peer: nat)
    requires Inv(s)
    ensures AllSound(DropAllNext(s, peer))
  {
    var next := DropAllNext(s, peer);
    forall k | k in next.forwards
      ensures Sound(k, next.forwards[k], k in Pending(next, next.forwards[k].peer), next.arrived)
    {
      var f := s.forwards[k];
      assert Sound(k, f, k in Pending(s, f.peer), s.arrived);
      if k in Pending(s, peer) {
        assert f.peer == peer;
        DropSound(k, f, s.arrived);
      }
    }
  }

  lemma BeginKeeps(s: State, peer: nat, next: State)
    requires Inv(s) && Next(s, Begin(peer)) == Some(next)
    ensures AllSound(next)
  {
    OthersSound(s, next, next.numbers, next.forwards[next.numbers]);
  }

  lemma StepOfMaps(s: State, id: nat, a: Action, next: State)
    requires MapsSound(s) && id in s.forwards && NextOf(s, id, s.forwards[id], a) == Some(next)
    ensures MapsSound(next)
  {
    var f := s.forwards[id];
    if a.Register? {
      RegisterMaps(s, id, f, next);
    } else {
      LeavingMaps(s, id, f, a, next);
    }
  }

  lemma RegisterMaps(s: State, id: nat, f: Forward, next: State)
    requires MapsSound(s) && id in s.forwards && f == s.forwards[id] && NextOf(s, id, f, Register(id)) == Some(next)
    ensures MapsSound(next)
  {
  }

  lemma LeavingMaps(s: State, id: nat, f: Forward, a: Action, next: State)
    requires MapsSound(s) && id in s.forwards && f == s.forwards[id] && NextOf(s, id, f, a) == Some(next)
    requires !a.Register?
    ensures MapsSound(next)
  {
    SubsetSize(Pending(s, f.peer) - {id}, Pending(s, f.peer));
  }

  lemma RestMaps(s: State, a: Action, next: State)
    requires MapsSound(s) && Next(s, a) == Some(next) && (a.Begin? || a.Respond? || a.DropAll?)
    ensures MapsSound(next)
  {
    if a.Respond? {
      SubsetSize(Pending(s, a.peer) - {a.id}, Pending(s, a.peer));
    }
  }

  /** Every step keeps the invariant. */
  lemma StepKeeps(s: State, a: Action, next: State)
    requires Inv(s) && Next(s, a) == Some(next)
    ensures Inv(next)
  {
    match a
    case Begin(peer) =>
      BeginKeeps(s, peer, next);
      RestMaps(s, a, next);
    case Respond(peer, id, m) =>
      RespondKeeps(s, peer, id, m);
      RestMaps(s, a, next);
    case DropAll(peer) =>
      DropAllKeeps(s, peer);
      RestMaps(s, a, next);
    case _ =>
      StepOfKeeps(s, a.id, a, next);
      StepOfMaps(s, a.id, a, next);
  }

  function Run(s: State, actions: seq<Action>): Option<State> {
    Runs.After(Next, s, actions)
  }

  lemma {:induction false} RunKeeps(s: State, actions: seq<Action>, end: State)
    requires Inv(s) && Run(s, actions) == Some(end)
    ensures Inv(end)
    decreases |actions|
  {
    if actions != [] {
      StepKeeps(s, actions[0], Next(s, actions[0]).value);
      RunKeeps(Next(s, actions[0]).value, actions[1..], end);
    }
  }

  /** What the caller of a forward, and the hub's connection, can rely on. */
  ghost predicate Promised(s: State, id: nat)
    requires id in s.forwards
  {
    var f := s.forwards[id];
    && (f.phase.Returned? ==> |f.answers| == 1 && (forall p {:trigger Pending(s, p)} :: id !in Pending(s, p)))
    && (!f.phase.Returned? ==> f.answers == [])
    && (forall a {:trigger a in f.answers} :: a in f.answers && a.FromHub? ==>
      Arrival(f.peer, id, a.message) in s.arrived)
    && (f.phase.Waiting? ==> id in Pending(s, f.peer) || !f.resolver.Nobody? || f.closed)
    && (f.resolver.Sending? ==> f.message.None? && !f.closed)
    && (f.resolver.Closing? ==> !f.closed)
  }

  /** In every run of registrations, responses, timeouts, write failures and disconnects: every
      forward that has returned got exactly one answer and is in no pending map; a hub's answer
      is one its own peer sent with its id; nobody waits for a channel nothing will happen to;
      no channel is sent to or closed twice; and no pending map has more than 1024 entries. */
  lemma RunAnswers(actions: seq<Action>, end: State)
    requires Run(Start(), actions) == Some(end)
    ensures forall id :: id in end.forwards ==> Promised(end, id)
    ensures forall p :: |Pending(end, p)| <= MAX_PENDING
    ensures forall p, id :: id in Pending(end, p) ==>
      id in end.forwards && !end.forwards[id].closed && end.forwards[id].message.None?
  {
    RunKeeps(Start(), actions, end);
    forall id | id in end.forwards ensures Promised(end, id) {
      assert Sound(id, end.forwards[id], id in Pending(end, end.forwards[id].peer), end.arrived);
      PromiseHeld(end, id);
    }
    forall p, id | id in Pending(end, p)
      ensures id in end.forwards && !end.forwards[id].closed && end.forwards[id].message.None?
    {
      assert id in end.pending[p];
      assert Sound(id, end.forwards[id], true, end.arrived);
    }
  }

  lemma PromiseHeld(s: State, id: nat)
    requires MapsSound(s) && id in s.forwards
    requires Sound(id, s.forwards[id], id in Pending(s, s.forwards[id].peer), s.arrived)
    ensures Promised(s, id)
  {
    forall p | id in Pending(s, p) ensures p == s.forwards[id].peer {
      assert id in s.pending[p];
    }
  }

  /** A response whose id is not pending on its own connection changes no forward: late answers,
      repeated answers and answers of another hub reach nobody. */
  lemma LateResponsesReachNobody(s: State, peer: nat, id: nat, m: Envelope)
    requires Inv(s) && (id in s.forwards ==> s.forwards[id].peer != peer || s.forwards[id].phase.Returned?)
    ensures RespondNext(s, peer, id, m).forwards == s.forwards && RespondNext(s, peer, id, m).pending == s.pending
  {
    if id in Pending(s, peer) {
      PendingHasCaller(s, peer, id);
    }
  }

  lemma PendingHasCaller(s: State, peer: nat, id: nat)
    requires Inv(s) && id in Pending(s, peer)
    ensures id in s.forwards && s.forwards[id].peer == peer && !s.forwards[id].phase.Returned?
  {
    assert id in s.pending[peer];
    assert Sound(id, s.forwards[id], true, s.arrived);
  }

  lemma {:induction false} AnswersStay(s: State, actions: seq<Action>, end: State, id: nat)
    requires Inv(s) && Run(s, actions) == Some(end) && id in s.forwards && s.forwards[id].phase.Returned?
    ensures id in end.forwards && end.forwards[id].phase.Returned? && end.forwards[id].answers == s.forwards[id].answers
    decreases |actions|
  {
    if actions != [] {
      var next := Next(s, actions[0]).value;
      StepKeeps(s, actions[0], next);
      AnswerStays(s, actions[0], next, id);
      AnswersStay(next, actions[1..], end, id);
    }
  }

  lemma AnswerStays(s: State, a: Action, next: State, id: nat)
    requires Inv(s) && Next(s, a) == Some(next) && id in s.forwards && s.forwards[id].phase.Returned?
    ensures id in next.forwards && next.forwards[id].phase.Returned?
    ensures next.forwards[id].answers == s.forwards[id].answers
  {
  }
}
