/** When a client of the relay can be done with its stream, whatever the hub does. */
module RelayClients {
  import Runs
  import opened Collections
  import opened Frame
  import opened RelayStream

  /** One action of the stream's handler, in a tunnel that stays as it is. */
  function Goes(env: Env): (Stream, ClientAction) -> Option<Stream> {
    (s: Stream, a: ClientAction) =>
      match ClientAct(env, s, a)
      case None => None
      case Some(step) => Some(s.(client := step.client, req := step.req, resp := step.resp))
  }

  /** A reader has something to read or to see: a frame that ends the response, a closed stream, or
      a closed tunnel. */
  ghost predicate HasEnd(env: Env, p: Response) {
    p.closed || env.closed || exists i :: 0 <= i < |p.queue| && Terminal(p.queue[i])
  }

  /** A reader that finds none of these waits for the hub, and so does one with an empty queue. */
  ghost predicate WaitsForHub(env: Env, s: Stream) {
    s.client.Reading? && s.resp.queue == [] && !s.resp.closed && !env.closed
  }

  function Remaining(s: Stream): nat {
    match s.client
    case Reading => |s.resp.queue| + 3
    case Closing => 1
    case Ended => 0
    case _ => 2
  }

  /** What the handler can do without anybody's help. */
  function Move(env: Env, s: Stream): ClientAction {
    match s.client
    case Opening => WriteOpen(false)
    case Sending => BodyFails(false)
    case Waiting => GiveUp
    case Reading =>
      if s.resp.closed then SeeClosed else if env.closed then SeeTunnelClosed
      else Take(if s.resp.queue == [] then 0 else |s.resp.queue[0].payload|)
    case _ => CloseStream(true)
  }

  lemma MoveNears(env: Env, s: Stream)
    requires !s.client.Ended? && (s.client.Reading? ==> HasEnd(env, s.resp))
    ensures var next := Goes(env)(s, Move(env, s));
      next.Some? && Remaining(next.value) < Remaining(s)
      && (next.value.client.Reading? ==> HasEnd(env, next.value.resp))
  {
    if s.client.Reading? && !s.resp.closed && !env.closed {
      var i :| 0 <= i < |s.resp.queue| && Terminal(s.resp.queue[i]);
      var next := Goes(env)(s, Move(env, s)).value;
      assert i > 0 ==> s.resp.queue[1..][i - 1] == s.resp.queue[i];
    }
  }

  /** A handler that is not reading, or that has an end to its response, can be done with the stream
      by itself. */
  lemma {:induction false} ClientEnds(env: Env, s: Stream) returns (actions: seq<ClientAction>)
    requires s.client.Reading? ==> HasEnd(env, s.resp)
    ensures Runs.After(Goes(env), s, actions).Some? && Runs.After(Goes(env), s, actions).value.client.Ended?
    decreases Remaining(s)
  {
    if s.client.Ended? {
      actions := [];
    } else {
      var a := Move(env, s);
      MoveNears(env, s);
      var rest := ClientEnds(env, Goes(env)(s, a).value);
      actions := [a] + rest;
      assert actions[0] == a && actions[1..] == rest;
    }
  }

  /** The handler has no action exactly when it is done or waits for the hub. */
  lemma StuckExactly(env: Env, s: Stream)
    ensures (forall a :: ClientAct(env, s, a).None?) <==> s.client.Ended? || WaitsForHub(env, s)
  {
    if !s.client.Ended? && !WaitsForHub(env, s) {
      var a := Move(env, s);
      assert ClientAct(env, s, a).Some?;
    }
  }

  /** What a frame from the queue does to a reader: data is received, as far as the connection takes
      it; Close and Error end the stream, and only Close as the hub meant it to. */
  lemma TakenExactly(env: Env, s: Stream, written: nat)
    requires s.client.Reading? && s.resp.queue != []
    ensures var f, next := s.resp.queue[0], Goes(env)(s, Take(written));
      && next.Some? && next.value.resp.queue == s.resp.queue[1..]
      && next.value.resp.received
        == s.resp.received + (if f.kind == DATA then f.payload[..Min(written, |f.payload|)] else [])
      && (next.value.resp.closed <==> s.resp.closed || f.kind != DATA)
      && (next.value.resp.sawClose <==> s.resp.sawClose || f.kind == CLOSE)
      && (next.value.client.Reading? <==> if f.kind == DATA then written >= |f.payload| else f.kind != CLOSE)
  {
  }

  /** What is left of a stream that its handler has closed: it is marked and out of the table, and
      the router can get rid of whatever still comes for it. */
  lemma ClosingFreesRouter(env: Env, s: Stream, ok: bool, f: Frame)
    requires s.client.Closing?
    ensures var end := Goes(env)(s, CloseStream(ok));
      && end.Some? && end.value.client.Ended? && end.value.resp.closed && !end.value.resp.registered
      && Enqueue(env, Ended, end.value.resp, f, false).Some?
  {
  }

  /** The next piece of a body or an answer is any one of 1 to 32768 bytes of what is left, and goes
      out as one data frame. */
  lemma PiecesExactly(env: Env, s: Stream, n: nat)
    ensures ClientAct(env, s, WriteChunk(n, true)).Some? <==>
      s.client.Sending? && 1 <= n <= 32_768 && s.req.sent + n <= |s.req.body|
    ensures ClientAct(env, s, WriteChunk(n, true)).Some? ==>
      ClientAct(env, s, WriteChunk(n, true)).value.out
        == [Frame(DATA, 0, s.id, [], s.req.body[s.req.sent..s.req.sent + n])]
    ensures HubAct(s, WriteData(n, true)).Some? <==>
      s.handler.Responding? && 1 <= n <= 32_768 && s.resp.produced + n <= |s.resp.content|
    ensures HubAct(s, WriteData(n, true)).Some? ==>
      HubAct(s, WriteData(n, true)).value.out
        == [Frame(DATA, 0, s.id, [], s.resp.content[s.resp.produced..s.resp.produced + n])]
  {
  }

  /** The target is handed the bytes of a data frame that it accepts, as long as the body is open, and
      nothing else. */
  lemma AcceptedExactly(h: Handler, r: Request, f: Frame, accepted: nat)
    ensures HubInput(h, r, f, accepted).1.delivered ==
      r.delivered + if f.kind == DATA && r.writer.Writable? then f.payload[..Min(accepted, |f.payload|)] else []
  {
    assert f.payload[..|f.payload|] == f.payload && r.delivered + [] == r.delivered;
  }

  /** A closed tunnel clears its streams: such a stream is out of the table, its handler can be done,
      and the router can drop whatever still comes for it. */
  lemma ClearingFreesAll(env: Env, s: Stream, f: Frame)
    ensures var cleared := s.(resp := Cleared(s.resp));
      && !cleared.resp.registered && HasEnd(env, cleared.resp)
      && Enqueue(env, cleared.client, cleared.resp, f, false).Some?
  {
  }

  /** What the other end is told when an end of a stream is done, if it can still be written to: the
      hub's handler says Close after the whole answer and Error when it failed before, and the registry's
      says Close. */
  lemma EndsAreTold(env: Env, s: Stream)
    ensures s.handler.Requesting? ==>
      && HubAct(s, InvalidRequest(true)).Some? && HubAct(s, InvalidRequest(true)).value.out == [Plain(s.id, ERROR)]
      && HubAct(s, RequestFails(true)).Some? && HubAct(s, RequestFails(true)).value.out == [Plain(s.id, ERROR)]
    ensures s.handler.Responding? ==>
      HubAct(s, ReadFails(true)).Some? && HubAct(s, ReadFails(true)).value.out == [Plain(s.id, ERROR)]
    ensures s.handler.Responding? && s.resp.produced == |s.resp.content| ==>
      HubAct(s, WriteClose(true)).Some? && HubAct(s, WriteClose(true)).value.out == [Plain(s.id, CLOSE)]
    ensures s.client.Closing? ==>
      ClientAct(env, s, CloseStream(true)).Some?
      && ClientAct(env, s, CloseStream(true)).value.out == [Plain(s.id, CLOSE)]
    ensures s.client.Sending? ==>
      ClientAct(env, s, BodyFails(true)).Some? && ClientAct(env, s, BodyFails(true)).value.out == [Plain(s.id, CLOSE)]
  {
  }
}
