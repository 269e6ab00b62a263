/** speechService's tables, as values and as the object whose lock sections update them. */
module SpeechTables {
  import opened Collections
  import opened Sorting

  /** streams and closingStreams by stream id, each with its connection, and connActive. */
  datatype Tables = Tables(streams: map<nat, nat>, closing: map<nat, nat>, connActive: map<nat, nat>)

  /** detachStreamLocked finds the stream for this connection. */
  predicate Detaches(t: Tables, c: nat, id: nat) {
    id in t.streams && t.streams[id] == c
  }

  function Detach(t: Tables, c: nat, id: nat): Tables {
    if !Detaches(t, c, id) then t
    else
      t.(streams := t.streams - {id},
        connActive := if c in t.connActive && t.connActive[c] == id then t.connActive - {c} else t.connActive)
  }

  function DetachClosing(t: Tables, id: nat): Tables {
    t.(closing := t.closing - {id})
  }

  function ActiveOf(t: Tables, c: nat): set<nat> {
    if c in t.connActive && Detaches(t, c, t.connActive[c]) then {t.connActive[c]} else {}
  }

  function ClosingOf(t: Tables, c: nat): set<nat> {
    set id | id in t.closing && t.closing[id] == c
  }

  /** detachActiveStream. */
  function DetachActive(t: Tables, c: nat): Tables {
    if c in t.connActive then Detach(t, c, t.connActive[c]) else t
  }

  function DropClosing(t: Tables, c: nat): Tables {
    t.(closing := map id | id in t.closing && t.closing[id] != c :: t.closing[id])
  }

  /** handleStart's lock section. */
  function Enter(t: Tables, c: nat, id: nat): Tables {
    var u := DropClosing(DetachActive(t, c), c);
    u.(streams := u.streams[id := c], connActive := u.connActive[c := id])
  }

  /** detachOwnedStream finds the stream, active or closing. */
  predicate Owns(t: Tables, c: nat, id: nat) {
    Detaches(t, c, id) || (id in t.closing && t.closing[id] == c)
  }

  function DetachOwned(t: Tables, c: nat, id: nat): Tables {
    if Detaches(t, c, id) then Detach(t, c, id)
    else if id in t.closing && t.closing[id] == c then DetachClosing(t, id)
    else t
  }

  /** Active and closing streams are apart, connActive is the inverse of the active streams,
      and a connection has at most one stream in both maps together. */
  ghost predicate Good(t: Tables) {
    && (forall id {:trigger t.streams[id]} :: id in t.streams ==>
      id !in t.closing && t.streams[id] in t.connActive && t.connActive[t.streams[id]] == id
      && ClosingOf(t, t.streams[id]) == {})
    && (forall c {:trigger t.connActive[c]} :: c in t.connActive ==> Detaches(t, c, t.connActive[c]))
    && (forall i, j {:trigger t.closing[i], t.closing[j]} ::
      i in t.closing && j in t.closing && t.closing[i] == t.closing[j] ==> i == j)
  }

  lemma DetachKeepsGood(t: Tables, c: nat, id: nat)
    requires Good(t)
    ensures Good(Detach(t, c, id))
    ensures Detaches(t, c, id) ==> c !in Detach(t, c, id).connActive && ClosingOf(t, c) == {}
  {
    assert ClosingOf(Detach(t, c, id), c) == ClosingOf(t, c);
  }

  lemma DetachClosingKeepsGood(t: Tables, id: nat)
    requires Good(t)
    ensures Good(DetachClosing(t, id))
  {
    var u := DetachClosing(t, id);
    forall c ensures ClosingOf(u, c) <= ClosingOf(t, c) {
    }
  }

  lemma DropClosingKeepsGood(t: Tables, c: nat)
    requires Good(t)
    ensures Good(DropClosing(t, c)) && ClosingOf(DropClosing(t, c), c) == {}
  {
    forall d ensures ClosingOf(DropClosing(t, c), d) <= ClosingOf(t, d) {
    }
  }

  lemma DetachActiveKeepsGood(t: Tables, c: nat)
    requires Good(t)
    ensures Good(DetachActive(t, c)) && c !in DetachActive(t, c).connActive
    ensures DetachActive(t, c).closing == t.closing
    ensures forall id {:trigger id in DetachActive(t, c).streams} :: id in DetachActive(t, c).streams <==>
      id in t.streams && t.streams[id] != c
  {
    if c in t.connActive {
      DetachKeepsGood(t, c, t.connActive[c]);
    }
  }

  lemma EnterKeepsGood(t: Tables, c: nat, id: nat)
    requires Good(t) && id !in t.streams && id !in t.closing
    ensures Good(Enter(t, c, id))
  {
    var u := DetachActive(t, c);
    DetachActiveKeepsGood(t, c);
    DropClosingKeepsGood(u, c);
    var v, w := DropClosing(u, c), Enter(t, c, id);
    forall d ensures ClosingOf(w, d) == ClosingOf(v, d) {
    }
  }

  /** A stream between the maps comes back as closing. */
  lemma RegisterClosingKeepsGood(t: Tables, c: nat, id: nat)
    requires Good(t) && id !in t.streams && c !in t.connActive && ClosingOf(t, c) == {}
    ensures Good(t.(closing := t.closing[id := c]))
  {
    var u := t.(closing := t.closing[id := c]);
    forall d | d != c ensures ClosingOf(u, d) <= ClosingOf(t, d) {
    }
    forall i | i in t.closing ensures t.closing[i] != c {
      assert i !in ClosingOf(t, c);
    }
  }

  /** One stream, with what the timers need to know. */
  class ActiveStream {
    const connectionID: nat
    const streamID: nat
    var attached: bool
    var idleTimer: bool
    var closingTimer: bool

    constructor (connectionID: nat, streamID: nat)
      ensures this.connectionID == connectionID && this.streamID == streamID
      ensures !attached && !idleTimer && !closingTimer
    {
      this.connectionID, this.streamID := connectionID, streamID;
      attached, idleTimer, closingTimer := false, false, false;
    }
  }

  class SpeechService {
    var streams: map<nat, ActiveStream>
    var closingStreams: map<nat, ActiveStream>
    var connActive: map<nat, nat>

    ghost function Objects(): set<ActiveStream>
      reads this
    {
      (set id | id in streams :: streams[id]) + (set id | id in closingStreams :: closingStreams[id])
    }

    ghost predicate Valid()
      reads this
    {
      && (forall id {:trigger streams[id]} :: id in streams ==> streams[id].streamID == id)
      && (forall id {:trigger closingStreams[id]} :: id in closingStreams ==> closingStreams[id].streamID == id)
    }

    ghost function View(): Tables
      reads this
    {
      Tables(map id | id in streams :: streams[id].connectionID,
        map id | id in closingStreams :: closingStreams[id].connectionID,
        connActive)
    }

    constructor ()
      ensures Valid() && View() == Tables(map[], map[], map[])
    {
      streams, closingStreams, connActive := map[], map[], map[];
    }

    /** detachStreamLocked. */
    method DetachStream(c: nat, id: nat) returns (found: Option<ActiveStream>)
      requires Valid()
      modifies this, Objects()
      ensures Valid() && View() == Detach(old(View()), c, id)
      ensures closingStreams == old(closingStreams) && Objects() <= old(Objects())
      ensures found.Some? <==> Detaches(old(View()), c, id)
      ensures found.Some? ==> found.value == old(streams)[id] && !found.value.idleTimer
    {
      if id !in streams || streams[id].connectionID != c {
        return None;
      }
      var stream := streams[id];
      if c in connActive && connActive[c] == id {
        connActive := connActive - {c};
      }
      streams := streams - {id};
      stream.idleTimer := false;
      found := Some(stream);
    }

    /** detachClosingStreamLocked. */
    method DetachClosingStream(id: nat) returns (found: Option<ActiveStream>)
      requires Valid()
      modifies this, Objects()
      ensures Valid() && View() == DetachClosing(old(View()), id)
      ensures streams == old(streams) && closingStreams == old(closingStreams) - {id}
      ensures found.Some? <==> id in old(closingStreams)
      ensures found.Some? ==> found.value == old(closingStreams)[id] && !found.value.closingTimer
    {
      if id !in closingStreams {
        assert closingStreams - {id} == closingStreams;
        return None;
      }
      var stream := closingStreams[id];
      closingStreams := closingStreams - {id};
      stream.closingTimer := false;
      found := Some(stream);
    }

    /** detachClosingStreamsForConnection, also part of handleStart's section. */
    method DetachClosingStreams(c: nat) returns (found: set<nat>)
      requires Valid()
      modifies this, Objects()
      ensures Valid() && View() == DropClosing(old(View()), c) && found == ClosingOf(old(View()), c)
      ensures streams == old(streams)
    {
      found := {};
      ghost var all := closingStreams;
      var left := closingStreams.Keys;
      while left != {}
        invariant left <= all.Keys && streams == old(streams) && connActive == old(connActive) && Valid()
        invariant closingStreams == map id | id in all && (id in left || all[id].connectionID != c) :: all[id]
        invariant found == set id | id in all && id !in left && all[id].connectionID == c
        decreases left
      {
        var id := AnyOf(left);
        left := left - {id};
        if closingStreams[id].connectionID == c {
          var stream := closingStreams[id];
          closingStreams := closingStreams - {id};
          stream.closingTimer := false;
          found := found + {id};
        }
      }
    }

    /** detachActiveStream, also part of handleStart's section. */
    method LeaveActive(c: nat) returns (gone: set<nat>)
      requires Valid()
      modifies this, Objects()
      ensures Valid() && View() == DetachActive(old(View()), c) && gone == ActiveOf(old(View()), c)
      ensures Objects() <= old(Objects()) && closingStreams == old(closingStreams)
    {
      gone := {};
      if c in connActive {
        var id := connActive[c];
        var found := DetachStream(c, id);
        if found.Some? {
          gone := {id};
        }
      }
    }

    /** handleStart's section: whatever the connection still had is taken out. */
    method EnterStream(c: nat, id: nat) returns (gone: set<nat>)
      requires Valid()
      modifies this, Objects()
      ensures Valid() && View() == Enter(old(View()), c, id)
      ensures gone == ActiveOf(old(View()), c) + ClosingOf(old(View()), c)
    {
      gone := LeaveActive(c);
      var more := DetachClosingStreams(c);
      gone := gone + more;
      var stream := new ActiveStream(c, id);
      streams := streams[id := stream];
      connActive := connActive[c := id];
    }

    /** attachProviderStream. */
    method Attach(c: nat, id: nat) returns (ok: bool)
      requires Valid()
      modifies Objects()
      ensures Valid() && View() == old(View()) && (ok <==> Detaches(View(), c, id))
      ensures ok ==> streams[id].attached && streams[id].idleTimer
    {
      if id !in streams || streams[id].connectionID != c {
        return false;
      }
      streams[id].attached := true;
      streams[id].idleTimer := true;
      ok := true;
    }

    /** registerClosingStream. */
    method RegisterClosing(stream: ActiveStream)
      requires Valid()
      modifies this, stream
      ensures Valid() && View() == old(View()).(closing := old(View()).closing[stream.streamID := stream.connectionID])
    {
      stream.idleTimer := false;
      closingStreams := closingStreams[stream.streamID := stream];
    }

    /** detachOwnedStream. */
    method DetachOwnedStream(c: nat, id: nat) returns (found: Option<ActiveStream>)
      requires Valid()
      modifies this, Objects()
      ensures Valid() && View() == DetachOwned(old(View()), c, id)
      ensures found.Some? <==> Owns(old(View()), c, id)
      ensures found.Some? ==>
        found.value == if Detaches(old(View()), c, id) then old(streams)[id] else old(closingStreams)[id]
    {
      found := DetachStream(c, id);
      if found.Some? {
        return;
      }
      if id !in closingStreams || closingStreams[id].connectionID != c {
        return None;
      }
      found := DetachClosingStream(id);
    }
  }
}

/** Speech over whole runs: the requests of one connection are handled one after the other,
    timers and provider events come at any time, and every step is one lock section or one
    thing done outside the lock. */
module SpeechRuns {
  import Runs
  import opened Collections
  import opened SpeechTables

  /** Where the read loop of a connection is. Detached is finish between its two sections;
      Leaving is after the read loop, between the two halves of cancelConnection. */
  datatype Phase =
    | Idle
    | Starting(id: nat) | StartFailed(id: nat) | Started(id: nat) | Discarding(id: nat)
    | Writing(id: nat) | WriteFailed(id: nat)
    | Found(id: nat) | Detached(id: nat) | Draining(id: nat) | DrainFailed(id: nat) | Drained(id: nat)
    | Leaving | Gone

  /** owner is the connection a stream was issued to; attached are the streams that got a
      provider and an idle timer; armed those whose closing timer was started; held those that
      somebody took out of the maps and is about to cancel. */
  datatype State = State(tables: Tables, issued: nat, owner: map<nat, nat>, phases: map<nat, Phase>,
    attached: set<nat>, armed: set<nat>, held: set<nat>, cancelled: set<nat>)

  datatype Action =
    | Connect(c: nat) | Start(c: nat) | ProviderStarts(c: nat, ok: bool) | Attach(c: nat) | Clean(c: nat)
    | Chunk(c: nat, id: nat) | AudioWritten(c: nat, ok: bool)
    | Finish(c: nat, id: nat) | FinishDetaches(c: nat) | FinishRegisters(c: nat) | ProviderFinishes(c: nat, ok: bool)
    | Arm(c: nat, now: bool) | Cancel(c: nat, id: nat) | Disconnect(c: nat) | LeaveClosing(c: nat)
    | IdleFires(id: nat) | ClosingFires(id: nat) | EventEnds(id: nat, closing: bool) | Release(id: nat)

  function Init(): State {
    State(Tables(map[], map[], map[]), 0, map[], map[], {}, {}, {}, {})
  }

  /** Streams leave the maps: whoever took them out holds them. */
  function TakeOut(s: State, t: Tables, ids: set<nat>): State {
    s.(tables := t, held := s.held + ids)
  }

  function Turn(s: State, c: nat, p: Phase): State {
    s.(phases := s.phases[c := p])
  }

  function Detaching(s: State, c: nat, id: nat): State {
    TakeOut(s, Detach(s.tables, c, id), if Detaches(s.tables, c, id) then {id} else {})
  }

  function DetachingClosing(s: State, id: nat): State {
    TakeOut(s, DetachClosing(s.tables, id), if id in s.tables.closing then {id} else {})
  }

  predicate Usable(s: State, c: nat, id: nat) {
    Detaches(s.tables, c, id) && id in s.attached
  }

  /** A step of the read loop of connection c, which is at p. */
  function LoopNext(s: State, c: nat, p: Phase, a: Action): Option<State> {
    match a
    case Start(_) =>
      if !p.Idle? then None
      else
        var id := s.issued + 1;
        var t := TakeOut(s, Enter(s.tables, c, id), ActiveOf(s.tables, c) + ClosingOf(s.tables, c));
        Some(Turn(t.(issued := id, owner := s.owner[id := c]), c, Starting(id)))
    case ProviderStarts(_, ok) =>
      if !p.Starting? then None
      else if ok then Some(Turn(s, c, Started(p.id)))
      else Some(Turn(s.(cancelled := s.cancelled + {p.id}), c, StartFailed(p.id)))
    case Attach(_) =>
      if !p.Started? then None
      else if Detaches(s.tables, c, p.id) then Some(Turn(s.(attached := s.attached + {p.id}), c, Idle))
      else Some(Turn(s, c, Discarding(p.id)))
    case Clean(_) =>
      if p.StartFailed? || p.WriteFailed? then Some(Turn(Detaching(s, c, p.id), c, Idle))
      else if p.Discarding? then Some(Turn(s.(cancelled := s.cancelled + {p.id}), c, Idle))
      else if p.DrainFailed? then
        Some(Turn(TakeOut(s, DetachClosing(s.tables, p.id), {p.id}), c, Idle))
      else None
    case Chunk(_, id) =>
      if !p.Idle? then None else Some(Turn(s, c, if Usable(s, c, id) then Writing(id) else Idle))
    case AudioWritten(_, ok) =>
      if !p.Writing? then None else Some(Turn(s, c, if ok then Idle else WriteFailed(p.id)))
    case Finish(_, id) =>
      if !p.Idle? then None else Some(Turn(s, c, if Usable(s, c, id) then Found(id) else Idle))
    case FinishDetaches(_) =>
      if !p.Found? then None
      else if Detaches(s.tables, c, p.id) then Some(Turn(s.(tables := Detach(s.tables, c, p.id)), c, Detached(p.id)))
      else Some(Turn(s, c, Idle))
    case FinishRegisters(_) =>
      if !p.Detached? then None
      else Some(Turn(s.(tables := s.tables.(closing := s.tables.closing[p.id := c])), c, Draining(p.id)))
    case ProviderFinishes(_, ok) =>
      if !p.Draining? then None else Some(Turn(s, c, if ok then Drained(p.id) else DrainFailed(p.id)))
    case Arm(_, now) =>
      if !p.Drained? then None
      else if now then Some(Turn(DetachingClosing(s, p.id), c, Idle))
      else Some(Turn(if p.id in s.tables.closing then s.(armed := s.armed + {p.id}) else s, c, Idle))
    case Cancel(_, id) =>
      if !p.Idle? then None
      else Some(Turn(TakeOut(s, DetachOwned(s.tables, c, id), if Owns(s.tables, c, id) then {id} else {}), c, Idle))
    case Disconnect(_) =>
      if !p.Idle? then None
      else Some(Turn(TakeOut(s, DetachActive(s.tables, c), ActiveOf(s.tables, c)), c, Leaving))
    case LeaveClosing(_) =>
      if !p.Leaving? then None
      else Some(Turn(TakeOut(s, DropClosing(s.tables, c), ClosingOf(s.tables, c)), c, Gone))
    case _ => None
  }

  /** A timer may have been stopped too late, and an event may have looked the stream up long
      before it ends it, so both may come at any time after they became possible. */
  function Next(s: State, a: Action): Option<State> {
    match a
    case Connect(c) => if c in s.phases then None else Some(Turn(s, c, Idle))
    case IdleFires(id) =>
      if id !in s.attached || id !in s.owner then None else Some(Detaching(s, s.owner[id], id))
    case ClosingFires(id) => if id !in s.armed then None else Some(DetachingClosing(s, id))
    case EventEnds(id, closing) =>
      if id !in s.owner then None
      else Some(if closing then DetachingClosing(s, id) else Detaching(s, s.owner[id], id))
    case Release(id) =>
      if id !in s.held then None else Some(s.(held := s.held - {id}, cancelled := s.cancelled + {id}))
    case _ => if a.c in s.phases then LoopNext(s, a.c, s.phases[a.c], a) else None
  }

  /** The maps name each stream's own connection, and streams are issued once. */
  ghost predicate Owners(t: Tables, issued: nat, owner: map<nat, nat>) {
    && (forall id {:trigger id in t.streams} :: id in t.streams ==> id in owner && owner[id] == t.streams[id])
    && (forall id {:trigger id in t.closing} :: id in t.closing ==> id in owner && owner[id] == t.closing[id])
    && (forall id {:trigger id in owner} :: id in owner <==> 1 <= id <= issued)
  }

  /** The connection has nothing in either map. */
  ghost predicate Empty(t: Tables, c: nat) {
    c !in t.connActive && ClosingOf(t, c) == {}
  }

  /** What the place of a connection's read loop says about the tables. */
  ghost predicate Placed(s: State, c: nat, p: Phase) {
    && (!p.Idle? && !p.Leaving? && !p.Gone? ==> p.id in s.owner && s.owner[p.id] == c)
    && (p.Detached? ==> Empty(s.tables, c))
    && (p.Detached? ==> p.id !in s.tables.streams && p.id !in s.tables.closing)
    && (p.StartFailed? ==> p.id in s.cancelled)
    && (p.Leaving? ==> c !in s.tables.connActive)
    && (p.Gone? ==> Empty(s.tables, c))
  }

  ghost predicate AllPlaced(s: State) {
    forall c {:trigger s.phases[c]} :: c in s.phases ==> Placed(s, c, s.phases[c])
  }

  /** Whether an issued stream is in a map, held by somebody who will cancel it, or cancelled. */
  ghost predicate Kept(s: State, id: nat) {
    || id in s.tables.streams || id in s.tables.closing || id in s.held || id in s.cancelled
    || (id in s.owner && s.owner[id] in s.phases && s.phases[s.owner[id]] == Detached(id))
  }

  ghost predicate AllKept(s: State) {
    forall id {:trigger id in s.owner} :: id in s.owner ==> Kept(s, id)
  }

  ghost predicate Inv(s: State) {
    Good(s.tables) && Owners(s.tables, s.issued, s.owner) && AllPlaced(s) && AllKept(s)
  }

  /** Nothing enters the maps. */
  ghost predicate Shrinks(t: Tables, u: Tables) {
    && (forall id {:trigger id in u.streams} :: id in u.streams ==> id in t.streams && t.streams[id] == u.streams[id])
    && (forall id {:trigger id in u.closing} :: id in u.closing ==> id in t.closing && t.closing[id] == u.closing[id])
    && u.connActive.Keys <= t.connActive.Keys
  }

  lemma ShrinkingKeepsPlaced(s: State, next: State, c: nat, p: Phase)
    requires Placed(s, c, p) && Shrinks(s.tables, next.tables) && next.owner == s.owner && s.cancelled <= next.cancelled
    ensures Placed(next, c, p)
  {
    assert ClosingOf(next.tables, c) <= ClosingOf(s.tables, c);
  }

  /** A step that takes streams out, and moves at most one read loop on to an ordinary place. */
  lemma ShrinkingKeepsInv(s: State, next: State, c: nat)
    requires Inv(s) && Good(next.tables) && Shrinks(s.tables, next.tables)
    requires next.owner == s.owner && next.issued == s.issued && s.cancelled <= next.cancelled
    requires s.held <= next.held + next.cancelled
    requires forall id :: (id in s.tables.streams || id in s.tables.closing) ==>
      id in next.tables.streams || id in next.tables.closing || id in next.held || id in next.cancelled
    requires next.phases == s.phases ||
      (c in next.phases && next.phases == s.phases[c := next.phases[c]] && (c in s.phases ==> !s.phases[c].Detached?)
      && Placed(next, c, next.phases[c]))
    ensures Inv(next)
  {
    forall d | d in next.phases ensures Placed(next, d, next.phases[d]) {
      if next.phases == s.phases || d != c {
        ShrinkingKeepsPlaced(s, next, d, s.phases[d]);
      }
    }
    forall id | id in next.owner ensures Kept(next, id) {
      assert Kept(s, id);
    }
  }

  /** How taking streams out of the tables shrinks them. */
  lemma DetachShrinks(t: Tables, c: nat, id: nat)
    requires Good(t)
    ensures Shrinks(t, Detach(t, c, id)) && Good(Detach(t, c, id))
    ensures forall k :: k != id ==> (k in Detach(t, c, id).streams <==> k in t.streams)
    ensures Detaches(t, c, id) ==> Empty(Detach(t, c, id), c) && id !in Detach(t, c, id).streams && id !in t.closing
  {
    DetachKeepsGood(t, c, id);
    assert ClosingOf(Detach(t, c, id), c) == ClosingOf(t, c);
  }

  lemma DetachingKeepsInv(s: State, c: nat, id: nat, next: State, d: nat, p: Phase)
    requires Inv(s) && p.Idle?
    requires next == Detaching(s, c, id) ||
      (next == Turn(Detaching(s, c, id), d, p) && (d in s.phases ==> !s.phases[d].Detached?))
    ensures Inv(next)
  {
    DetachShrinks(s.tables, c, id);
    ShrinkingKeepsInv(s, next, d);
  }

  lemma DetachingClosingKeepsInv(s: State, id: nat, next: State, d: nat, p: Phase)
    requires Inv(s) && p.Idle?
    requires next == DetachingClosing(s, id) ||
      (next == Turn(DetachingClosing(s, id), d, p) && (d in s.phases ==> !s.phases[d].Detached?))
    ensures Inv(next)
  {
    DetachClosingKeepsGood(s.tables, id);
    ShrinkingKeepsInv(s, next, d);
  }

  /** The stream a start enters is new. */
  lemma StartKeepsInv(s: State, c: nat, next: State)
    requires Inv(s) && c in s.phases && s.phases[c].Idle? && Next(s, Start(c)) == Some(next)
    ensures Inv(next)
  {
    StartEnters(s, c);
    StartOwners(s, c, s.issued + 1);
    StartPlaces(s, c, next);
    StartKeeps(s, c, next);
    hide Good;
    hide Owners;
    hide Placed;
    hide Kept;
    hide Enter;
  }

  lemma StartKeeps(s: State, c: nat, next: State)
    requires Inv(s) && c in s.phases && s.phases[c].Idle? && Next(s, Start(c)) == Some(next)
    ensures forall k :: k in next.owner ==> Kept(next, k)
  {
    forall k | k in next.owner ensures Kept(next, k) {
      if k != s.issued + 1 {
        StartKeepsKept(s, c, next, k);
      }
    }
  }

  lemma StartPlaces(s: State, c: nat, next: State)
    requires Inv(s) && c in s.phases && s.phases[c].Idle? && Next(s, Start(c)) == Some(next)
    ensures forall d :: d in next.phases ==> Placed(next, d, next.phases[d])
  {
    EnterKeepsGood(s.tables, c, s.issued + 1);
    forall d | d in next.phases ensures Placed(next, d, next.phases[d]) {
      if d != c {
        StartKeepsPlaced(s, c, next, d, s.phases[d]);
      }
    }
  }

  lemma StartEnters(s: State, c: nat)
    requires Good(s.tables) && Owners(s.tables, s.issued, s.owner)
    ensures Good(Enter(s.tables, c, s.issued + 1))
  {
    assert s.issued + 1 !in s.owner;
    EnterKeepsGood(s.tables, c, s.issued + 1);
  }

  lemma StartOwners(s: State, c: nat, id: nat)
    requires Good(s.tables) && Owners(s.tables, s.issued, s.owner) && id == s.issued + 1
    ensures Owners(Enter(s.tables, c, id), id, s.owner[id := c])
  {
    DetachActiveKeepsGood(s.tables, c);
  }

  lemma StartKeepsPlaced(s: State, c: nat, next: State, d: nat, p: Phase)
    requires Inv(s) && c in s.phases && Next(s, Start(c)) == Some(next) && Placed(s, d, p) && d != c
    ensures Placed(next, d, p)
  {
    DetachActiveKeepsGood(s.tables, c);
    assert ClosingOf(next.tables, d) <= ClosingOf(s.tables, d);
  }

  lemma StartKeepsKept(s: State, c: nat, next: State, k: nat)
    requires Inv(s) && c in s.phases && Next(s, Start(c)) == Some(next) && k in s.owner && Kept(s, k)
    requires k != s.issued + 1
    ensures Kept(next, k)
  {
    DetachActiveKeepsGood(s.tables, c);
    if k in s.tables.streams && s.tables.streams[k] == c {
      assert k in ActiveOf(s.tables, c);
    } else if k in s.tables.closing && s.tables.closing[k] == c {
      assert k in ClosingOf(s.tables, c);
    }
  }

  lemma FinishDetachesKeepsInv(s: State, c: nat, next: State)
    requires Inv(s) && c in s.phases && Next(s, FinishDetaches(c)) == Some(next)
    ensures Inv(next)
  {
    var id := s.phases[c].id;
    if Detaches(s.tables, c, id) {
      DetachShrinks(s.tables, c, id);
      assert id in s.tables.streams;
      forall d | d in next.phases ensures Placed(next, d, next.phases[d]) {
        if d != c {
          ShrinkingKeepsPlaced(s, next, d, s.phases[d]);
        }
      }
      forall k | k in next.owner ensures Kept(next, k) {
        assert Kept(s, k);
      }
    } else {
      ShrinkingKeepsInv(s, next, c);
    }
  }

  lemma FinishRegistersKeepsInv(s: State, c: nat, next: State)
    requires Inv(s) && c in s.phases && Next(s, FinishRegisters(c)) == Some(next)
    ensures Inv(next)
  {
    var id := s.phases[c].id;
    assert Placed(s, c, s.phases[c]);
    RegisterClosingKeepsGood(s.tables, c, id);
    forall d | d in next.phases ensures Placed(next, d, next.phases[d]) {
      if d != c {
        assert Placed(s, d, s.phases[d]);
        assert ClosingOf(next.tables, d) == ClosingOf(s.tables, d);
      }
    }
    forall k | k in next.owner ensures Kept(next, k) {
      assert Kept(s, k);
    }
  }

  lemma CancelKeepsInv(s: State, c: nat, id: nat, next: State)
    requires Inv(s) && c in s.phases && Next(s, Cancel(c, id)) == Some(next)
    ensures Inv(next)
  {
    DetachShrinks(s.tables, c, id);
    DetachClosingKeepsGood(s.tables, id);
    ShrinkingKeepsInv(s, next, c);
  }

  lemma DisconnectKeepsInv(s: State, c: nat, next: State)
    requires Inv(s) && c in s.phases && Next(s, Disconnect(c)) == Some(next)
    ensures Inv(next)
  {
    DetachActiveKeepsGood(s.tables, c);
    if c in s.tables.connActive {
      DetachShrinks(s.tables, c, s.tables.connActive[c]);
    }
    ShrinkingKeepsInv(s, next, c);
  }

  lemma LeaveClosingKeepsInv(s: State, c: nat, next: State)
    requires Inv(s) && c in s.phases && Next(s, LeaveClosing(c)) == Some(next)
    ensures Inv(next)
  {
    assert Placed(s, c, s.phases[c]);
    DropClosingKeepsGood(s.tables, c);
    ShrinkingKeepsInv(s, next, c);
  }

  lemma CleanKeepsInv(s: State, c: nat, next: State)
    requires Inv(s) && c in s.phases && Next(s, Clean(c)) == Some(next)
    ensures Inv(next)
  {
    var p := s.phases[c];
    if p.DrainFailed? {
      DetachClosingKeepsGood(s.tables, p.id);
      ShrinkingKeepsInv(s, next, c);
    } else if p.Discarding? {
      ShrinkingKeepsInv(s, next, c);
    } else {
      DetachingKeepsInv(s, c, p.id, next, c, Idle);
    }
  }

  lemma ArmKeepsInv(s: State, c: nat, now: bool, next: State)
    requires Inv(s) && c in s.phases && Next(s, Arm(c, now)) == Some(next)
    ensures Inv(next)
  {
    if now {
      DetachingClosingKeepsInv(s, s.phases[c].id, next, c, Idle);
    } else {
      ShrinkingKeepsInv(s, next, c);
    }
  }

  /** The read loop's steps that leave the tables alone. */
  lemma LoopKeepsInv(s: State, c: nat, a: Action, next: State)
    requires Inv(s) && c in s.phases && LoopNext(s, c, s.phases[c], a) == Some(next)
    requires a.ProviderStarts? || a.Attach? || a.Chunk? || a.AudioWritten? || a.Finish? || a.ProviderFinishes?
    ensures Inv(next)
  {
    LoopLeavesTables(s, c, a, next);
    ShrinksItself(s.tables);
    ShrinkingKeepsInv(s, next, c);
  }

  lemma ShrinksItself(t: Tables)
    ensures Shrinks(t, t)
  {
  }

  lemma LoopLeavesTables(s: State, c: nat, a: Action, next: State)
    requires c in s.phases && LoopNext(s, c, s.phases[c], a) == Some(next)
    requires a.ProviderStarts? || a.Attach? || a.Chunk? || a.AudioWritten? || a.Finish? || a.ProviderFinishes?
    ensures next.tables == s.tables && next.owner == s.owner && next.issued == s.issued && next.held == s.held
    ensures s.cancelled <= next.cancelled && c in next.phases && next.phases == s.phases[c := next.phases[c]]
    ensures !s.phases[c].Detached? && !next.phases[c].Detached? && !next.phases[c].Leaving? && !next.phases[c].Gone?
    ensures next.phases[c].StartFailed? ==> next.phases[c].id in next.cancelled
  {
  }

  lemma OutsideKeepsInv(s: State, a: Action, next: State)
    requires Inv(s) && Next(s, a) == Some(next) && (a.IdleFires? || a.ClosingFires? || a.EventEnds?)
    ensures Inv(next)
  {
    if a.IdleFires? || (a.EventEnds? && !a.closing) {
      DetachingKeepsInv(s, s.owner[a.id], a.id, next, 0, Idle);
    } else {
      DetachingClosingKeepsInv(s, a.id, next, 0, Idle);
    }
  }

  lemma RestKeepsInv(s: State, a: Action, next: State)
    requires Inv(s) && Next(s, a) == Some(next) && (a.Connect? || a.Release?)
    ensures Inv(next)
  {
    ShrinkingKeepsInv(s, next, if a.Connect? then a.c else 0);
  }

  /** Every step keeps the invariant. */
  lemma StepKeepsInv(s: State, a: Action, next: State)
    requires Inv(s) && Next(s, a) == Some(next)
    ensures Inv(next)
  {
    match a
    case Start(c) => StartKeepsInv(s, c, next);
    case Clean(c) => CleanKeepsInv(s, c, next);
    case FinishDetaches(c) => FinishDetachesKeepsInv(s, c, next);
    case FinishRegisters(c) => FinishRegistersKeepsInv(s, c, next);
    case Arm(c, now) => ArmKeepsInv(s, c, now, next);
    case Cancel(c, id) => CancelKeepsInv(s, c, id, next);
    case Disconnect(c) => DisconnectKeepsInv(s, c, next);
    case LeaveClosing(c) => LeaveClosingKeepsInv(s, c, next);
    case IdleFires(_) => OutsideKeepsInv(s, a, next);
    case ClosingFires(_) => OutsideKeepsInv(s, a, next);
    case EventEnds(_, _) => OutsideKeepsInv(s, a, next);
    case Connect(_) => RestKeepsInv(s, a, next);
    case Release(_) => RestKeepsInv(s, a, next);
    case _ => LoopKeepsInv(s, a.c, a, next);
  }

  function Run(s: State, actions: seq<Action>): Option<State> {
    Runs.After(Next, s, actions)
  }

  lemma {:induction false} RunKeepsInv(s: State, actions: seq<Action>, end: State)
    requires Inv(s) && Run(s, actions) == Some(end)
    ensures Inv(end)
    decreases |actions|
  {
    if actions != [] {
      StepKeepsInv(s, actions[0], Next(s, actions[0]).value);
      RunKeepsInv(Next(s, actions[0]).value, actions[1..], end);
    }
  }

  /** The connection has this stream: active, closing, or between the two while it finishes. */
  predicate Has(s: State, c: nat, id: nat) {
    || Detaches(s.tables, c, id)
    || (id in s.tables.closing && s.tables.closing[id] == c)
    || (c in s.phases && s.phases[c] == Detached(id))
  }

  lemma HasOne(s: State, c: nat, i: nat, j: nat)
    requires Inv(s) && Has(s, c, i) && Has(s, c, j)
    ensures i == j
  {
    assert c in s.phases ==> Placed(s, c, s.phases[c]);
    if i in s.tables.closing && s.tables.closing[i] == c {
      assert i in ClosingOf(s.tables, c);
    }
    if j in s.tables.closing && s.tables.closing[j] == c {
      assert j in ClosingOf(s.tables, c);
    }
  }

  /** In every run, with timers and provider events at any time: no stream is both active and
      closing, connActive is exactly the inverse of the active streams, a connection has at most
      one stream, every issued stream is in a map, in somebody's hands, or cancelled, and a
      connection that is gone has none. */
  lemma RunOwnership(actions: seq<Action>, end: State)
    requires Run(Init(), actions) == Some(end)
    ensures end.tables.streams.Keys !! end.tables.closing.Keys
    ensures forall c, id :: (c in end.tables.connActive && end.tables.connActive[c] == id) <==>
      Detaches(end.tables, c, id)
    ensures forall c, i, j :: Has(end, c, i) && Has(end, c, j) ==> i == j
    ensures forall id :: 1 <= id <= end.issued ==> Kept(end, id)
    ensures forall c, id :: c in end.phases && end.phases[c].Gone? ==> !Has(end, c, id)
  {
    RunKeepsInv(Init(), actions, end);
    forall c, id
      ensures (c in end.tables.connActive && end.tables.connActive[c] == id) <==> Detaches(end.tables, c, id)
    {
    }
    forall c, i, j | Has(end, c, i) && Has(end, c, j) ensures i == j {
      HasOne(end, c, i, j);
    }
    forall id | 1 <= id <= end.issued ensures Kept(end, id) {
      assert id in end.owner;
    }
    forall c, id | c in end.phases && end.phases[c].Gone? ensures !Has(end, c, id) {
      GoneHasNone(end, c);
    }
  }

  /** Once a connection is gone, it has none of its streams, and none is ever registered again. */
  lemma {:induction false} GoneStays(s: State, actions: seq<Action>, end: State, c: nat)
    requires Inv(s) && Run(s, actions) == Some(end) && c in s.phases && s.phases[c].Gone?
    ensures c in end.phases && end.phases[c].Gone?
    ensures forall id :: !Has(end, c, id)
    decreases |actions|
  {
    if actions == [] {
      GoneHasNone(s, c);
    } else {
      var next := Next(s, actions[0]).value;
      StepKeepsInv(s, actions[0], next);
      GoneStaysOneStep(s, actions[0], next, c);
      GoneStays(next, actions[1..], end, c);
    }
  }

  lemma GoneHasNone(s: State, c: nat)
    requires Inv(s) && c in s.phases && s.phases[c].Gone?
    ensures forall id :: !Has(s, c, id)
  {
    assert Placed(s, c, s.phases[c]);
    forall id ensures !Has(s, c, id) {
      assert id in s.tables.closing && s.tables.closing[id] == c ==> id in ClosingOf(s.tables, c);
    }
  }

  lemma GoneStaysOneStep(s: State, a: Action, next: State, c: nat)
    requires Next(s, a) == Some(next) && c in s.phases && s.phases[c].Gone?
    ensures c in next.phases && next.phases[c].Gone?
  {
  }

  /** Timers and events of one stream, however stale, touch no other stream and no read loop; an
      idle timer leaves a stream alone that is not active, a closing timer one that is not closing. */
  lemma TimersTouchTheirOwn(s: State, a: Action, next: State, k: nat)
    requires Inv(s) && Next(s, a) == Some(next) && (a.IdleFires? || a.ClosingFires? || a.EventEnds?)
    ensures next.phases == s.phases && next.cancelled == s.cancelled
    ensures k != a.id ==> (k in next.tables.streams <==> k in s.tables.streams)
    ensures k != a.id ==> (k in next.tables.closing <==> k in s.tables.closing) && (k in next.held <==> k in s.held)
    ensures k != a.id && k in s.tables.streams ==>
      s.tables.streams[k] in next.tables.connActive && next.tables.connActive[s.tables.streams[k]] == k
    ensures a.IdleFires? && a.id !in s.tables.streams ==> next == s
    ensures a.ClosingFires? && a.id !in s.tables.closing ==> next == s
  {
    if a.IdleFires? || (a.EventEnds? && !a.closing) {
      DetachingTouches(s, s.owner[a.id], a.id, k);
    } else {
      ClosingTouches(s, a.id, k);
    }
  }

  lemma DetachingTouches(s: State, c: nat, id: nat, k: nat)
    requires Good(s.tables)
    ensures var next := Detaching(s, c, id);
      && next.tables.closing == s.tables.closing && (id !in s.tables.streams ==> next == s)
      && (k != id ==> (k in next.tables.streams <==> k in s.tables.streams) && (k in next.held <==> k in s.held))
      && (k != id && k in s.tables.streams ==>
        s.tables.streams[k] in next.tables.connActive && next.tables.connActive[s.tables.streams[k]] == k)
  {
    assert s.held + {} == s.held;
  }

  lemma ClosingTouches(s: State, id: nat, k: nat)
    requires Good(s.tables)
    ensures var next := DetachingClosing(s, id);
      && next.tables.streams == s.tables.streams && next.tables.connActive == s.tables.connActive
      && (id !in s.tables.closing ==> next == s)
      && (k != id ==> (k in next.tables.closing <==> k in s.tables.closing) && (k in next.held <==> k in s.held))
      && (k in s.tables.streams ==>
        s.tables.streams[k] in s.tables.connActive && s.tables.connActive[s.tables.streams[k]] == k)
  {
    assert s.held + {} == s.held;
    assert id !in s.tables.closing ==> s.tables.closing - {id} == s.tables.closing;
  }

  /** Once out of both maps, and not between finish's two sections, a stream never comes back. */
  ghost predicate Out(s: State, id: nat) {
    && id in s.owner && id !in s.tables.streams && id !in s.tables.closing
    && forall c {:trigger s.phases[c]} :: c in s.phases ==> s.phases[c] != Detached(id)
  }

  lemma OutStaysOneStep(s: State, a: Action, next: State, id: nat)
    requires Inv(s) && Next(s, a) == Some(next) && Out(s, id)
    ensures Out(next, id)
  {
    assert id <= s.issued;
    EntersOnly(s, a, next);
    forall c | c in next.phases ensures next.phases[c] != Detached(id) {
      OnlyActiveDetach(s, a, next, c, id);
    }
  }

  /** What a step puts into the maps: a start its new stream, a finish the stream it detached. */
  lemma EntersOnly(s: State, a: Action, next: State)
    requires Good(s.tables) && Next(s, a) == Some(next)
    ensures s.owner.Keys <= next.owner.Keys
    ensures forall k {:trigger k in next.tables.streams} :: k in next.tables.streams ==>
      k in s.tables.streams || (a.Start? && k == s.issued + 1)
    ensures forall k {:trigger k in next.tables.closing} :: k in next.tables.closing ==>
      k in s.tables.closing || (a.FinishRegisters? && a.c in s.phases && s.phases[a.c] == Detached(k))
  {
    if a.Start? {
      DetachActiveKeepsGood(s.tables, a.c);
    }
  }

  lemma OnlyActiveDetach(s: State, a: Action, next: State, c: nat, id: nat)
    requires Next(s, a) == Some(next) && c in next.phases && id !in s.tables.streams
    requires c in s.phases ==> s.phases[c] != Detached(id)
    ensures next.phases[c] != Detached(id)
  {
  }

  lemma {:induction false} OutStays(s: State, actions: seq<Action>, end: State, id: nat)
    requires Inv(s) && Run(s, actions) == Some(end) && Out(s, id)
    ensures Out(end, id)
    decreases |actions|
  {
    if actions != [] {
      var next := Next(s, actions[0]).value;
      StepKeepsInv(s, actions[0], next);
      OutStaysOneStep(s, actions[0], next, id);
      OutStays(next, actions[1..], end, id);
    }
  }
}
