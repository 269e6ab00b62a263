/** When a request's body ends well and when it breaks off, and that a request and its answer can
    always get through whole. */
module TunnelDelivery {
  import Runs
  import opened Collections
  import opened Frame
  import opened RelayStream
  import opened RelayStreamSafety
  import opened Tunnel
  import opened TunnelSafety
  import opened TunnelPaths

  const STEPS: (State, Action, State) -> bool := (st: State, a: Action, next: State) => Next(st, a) == Some(next)

  /** A run with the states it goes through. */
  ghost predicate Trace(actions: seq<Action>, states: seq<State>) {
    Runs.IsRun(STEPS, actions, states) && states[0] == Start()
  }

  lemma StepOfTrace(actions: seq<Action>, states: seq<State>, k: nat)
    requires Trace(actions, states) && k < |actions|
    ensures Next(states[k], actions[k]) == Some(states[k + 1])
  {
    assert Runs.StepAt(STEPS, actions, states, k);
  }

  /** The next message to the hub is this frame of the stream, whose body writer is open. */
  predicate Reads(st: State, id: u32, f: Frame) {
    && st.up != [] && Decode(st.up[0]) == Ok(f) && f.stream == id
    && id in st.streams && st.streams[id].req.writer.Writable?
  }

  /** What breaks a body off: the target accepts less than it is given, or the stream ends at either
      end, while the body is still open. */
  ghost predicate Breaks(st: State, a: Action, id: u32) {
    match a
    case HubReads(accepted) =>
      exists f :: Reads(st, id, f)
        && (f.kind == CLOSE || f.kind == ERROR || (f.kind == DATA && accepted < |f.payload|))
    case ByHub(i, work) =>
      i == id && id in st.streams && st.streams[id].req.writer.Writable? && (work.CloseBody? || work.InvalidRequest?)
    case _ => false
  }

  /** What ends a body well: the target accepts the data that is marked as the last. */
  ghost predicate Ends(st: State, a: Action, id: u32) {
    a.HubReads? && exists f :: Reads(st, id, f) && f.kind == DATA && IsHalfClose(f) && a.accepted >= |f.payload|
  }

  predicate Open(r: Request) {
    r.writer.Writable? ==> r.pipe.Flowing?
  }

  /** What a step needs to know of the stream. */
  ghost predicate Regular(st: State, id: u32) {
    && id in st.streams && id as int <= st.issued && Open(st.streams[id].req)
    && (st.streams[id].handler.Idle? ==> st.streams[id].req.pipe.Flowing?)
  }

  lemma IsRegular(st: State, id: u32)
    requires TunnelInv(st) && id in st.streams && Open(st.streams[id].req)
    ensures Regular(st, id)
  {
    assert Local(Inv, st, id);
  }

  /** A pipe ends as the step says, and otherwise stays as it was. */
  ghost predicate PipeAfter(st: State, a: Action, id: u32, r: Request)
    requires id in st.streams
  {
    var before := st.streams[id].req;
    && Open(r)
    && (r.pipe.Broken? <==> before.pipe.Broken? || Breaks(st, a, id))
    && (r.pipe.CleanEnd? <==> before.pipe.CleanEnd? || Ends(st, a, id))
  }

  lemma InputPipe(st: State, accepted: nat, f: Frame, id: u32)
    requires st.up != [] && Decode(st.up[0]) == Ok(f) && f.stream == id && id in st.streams
    requires Open(st.streams[id].req)
    requires st.streams[id].handler.Idle? ==> st.streams[id].req.pipe.Flowing?
    ensures PipeAfter(st, HubReads(accepted), id,
      HubInput(st.streams[id].handler, st.streams[id].req, f, accepted).1)
  {
    if st.streams[id].req.writer.Writable? {
      assert Reads(st, id, f);
    }
  }

  lemma HubPipe(st: State, id: u32, w: HubAction)
    requires id in st.streams && Open(st.streams[id].req) && HubAct(st.streams[id], w).Some?
    ensures PipeAfter(st, ByHub(id, w), id, HubAct(st.streams[id], w).value.req)
  {
  }

  lemma SamePipe(st: State, a: Action, id: u32, r: Request)
    requires id in st.streams && Open(st.streams[id].req)
    requires r.pipe == st.streams[id].req.pipe && r.writer == st.streams[id].req.writer
    requires !Breaks(st, a, id) && !Ends(st, a, id)
    ensures PipeAfter(st, a, id, r)
  {
  }

  /** The streams that a message is not for keep their pipes. */
  lemma OthersReadNothing(st: State, accepted: nat, id: u32, f: Frame)
    requires st.up != [] && Decode(st.up[0]) == Ok(f) && f.stream != id
    ensures !Breaks(st, HubReads(accepted), id) && !Ends(st, HubReads(accepted), id)
  {
  }

  lemma ClientKeepsPipe(env: Env, s: Stream, a: ClientAction)
    ensures ClientAct(env, s, a).Some? ==>
      ClientAct(env, s, a).value.req.pipe == s.req.pipe && ClientAct(env, s, a).value.req.writer == s.req.writer
  {
  }

  lemma ReadPipe(st: State, accepted: nat, next: State, id: u32)
    requires HubReadsNext(st, accepted) == Some(next) && Regular(st, id)
    ensures id in next.streams && PipeAfter(st, HubReads(accepted), id, next.streams[id].req)
  {
    var f := Decode(st.up[0]).value;
    if f.stream == id {
      InputPipe(st, accepted, f, id);
    } else {
      OthersReadNothing(st, accepted, id, f);
      SamePipe(st, HubReads(accepted), id, next.streams[id].req);
    }
  }

  lemma OtherSteps(st: State, a: Action, next: State, id: u32)
    requires Next(st, a) == Some(next) && Regular(st, id) && !a.HubReads? && !(a.ByHub? && a.id == id)
    ensures id in next.streams
    ensures next.streams[id].req.pipe == st.streams[id].req.pipe
    ensures next.streams[id].req.writer == st.streams[id].req.writer
  {
    if a.ByClient? {
      ClientKeepsPipe(st.env, st.streams[a.id], a.act);
    }
  }

  /** One step, and the pipe of one stream. */
  lemma StepPipe(st: State, a: Action, next: State, id: u32)
    requires Next(st, a) == Some(next) && Regular(st, id)
    ensures id in next.streams && PipeAfter(st, a, id, next.streams[id].req)
  {
    if a.HubReads? {
      ReadPipe(st, a.accepted, next, id);
    } else if a.ByHub? && a.id == id {
      HubPipe(st, id, a.work);
    } else {
      OtherSteps(st, a, next, id);
      SamePipe(st, a, id, next.streams[id].req);
    }
  }

  lemma {:induction false} TraceKeepsInv(actions: seq<Action>, states: seq<State>, k: nat)
    requires Trace(actions, states) && k < |states|
    ensures TunnelInv(states[k])
  {
    if k > 0 {
      TraceKeepsInv(actions, states, k - 1);
      StepOfTrace(actions, states, k - 1);
      StepKeeps(states[k - 1], actions[k - 1], states[k]);
    }
  }

  ghost predicate Broke(actions: seq<Action>, states: seq<State>, k: nat, id: u32)
    requires |states| == |actions| + 1 && k < |states|
  {
    exists j {:trigger actions[j]} :: 0 <= j < k && Breaks(states[j], actions[j], id)
  }

  ghost predicate Ended(actions: seq<Action>, states: seq<State>, k: nat, id: u32)
    requires |states| == |actions| + 1 && k < |states|
  {
    exists j {:trigger actions[j]} :: 0 <= j < k && Ends(states[j], actions[j], id)
  }

  lemma NewPipe(st: State, a: Action, next: State, id: u32)
    requires Next(st, a) == Some(next) && id !in st.streams && id in next.streams
    ensures next.streams[id].req.pipe.Flowing? && next.streams[id].req.writer.Absent?
  {
  }

  lemma NoStreamYet(st: State, a: Action, id: u32)
    ensures id !in st.streams ==> !Breaks(st, a, id) && !Ends(st, a, id)
  {
  }

  /** One step of a run, and the pipe of one stream. */
  lemma TracePipe(actions: seq<Action>, states: seq<State>, k: nat, id: u32)
    requires Trace(actions, states) && k < |actions|
    ensures id in states[k].streams && Open(states[k].streams[id].req) ==>
      id in states[k + 1].streams && PipeAfter(states[k], actions[k], id, states[k + 1].streams[id].req)
    ensures id !in states[k].streams && id in states[k + 1].streams ==>
      states[k + 1].streams[id].req.pipe.Flowing? && states[k + 1].streams[id].req.writer.Absent?
  {
    TraceKeepsInv(actions, states, k);
    StepOfTrace(actions, states, k);
    if id in states[k].streams {
      if Open(states[k].streams[id].req) {
        IsRegular(states[k], id);
        StepPipe(states[k], actions[k], states[k + 1], id);
      }
    } else if id in states[k + 1].streams {
      NewPipe(states[k], actions[k], states[k + 1], id);
    }
  }

  /** In every run, a body is broken off exactly when something broke it off, and ended cleanly exactly
      when its last data were accepted. */
  lemma {:induction false} BodiesEndAsTheyShould(actions: seq<Action>, states: seq<State>, k: nat, id: u32)
    requires Trace(actions, states) && k < |states|
    ensures id in states[k].streams ==> Open(states[k].streams[id].req)
    ensures id in states[k].streams ==> (states[k].streams[id].req.pipe.Broken? <==> Broke(actions, states, k, id))
    ensures id in states[k].streams ==> (states[k].streams[id].req.pipe.CleanEnd? <==> Ended(actions, states, k, id))
    ensures id !in states[k].streams ==> !Broke(actions, states, k, id) && !Ended(actions, states, k, id)
  {
    if k > 0 {
      var st, a, next := states[k - 1], actions[k - 1], states[k];
      BodiesEndAsTheyShould(actions, states, k - 1, id);
      TracePipe(actions, states, k - 1, id);
      NoStreamYet(st, a, id);
      OneMore(actions, states, k, id);
    }
  }

  lemma OneMore(actions: seq<Action>, states: seq<State>, k: nat, id: u32)
    requires |states| == |actions| + 1 && 0 < k < |states|
    ensures Broke(actions, states, k, id) <==>
      Broke(actions, states, k - 1, id) || Breaks(states[k - 1], actions[k - 1], id)
    ensures Ended(actions, states, k, id) <==>
      Ended(actions, states, k - 1, id) || Ends(states[k - 1], actions[k - 1], id)
  {
    assert actions[k - 1] == actions[k - 1];
  }

  const OPENED := Frame(OPEN, 0, 1, [1], [])
  const LAST := Frame(DATA, HALF_CLOSE, 1, [], [])
  const CLOSED := Frame(CLOSE, 0, 1, [], [])

  /** A request of which the first k bytes were sent, and are with the target. */
  function Handed(body: seq<byte>, k: nat): Request
    requires k <= |body|
  {
    Request(true, body, k, Writable, body[..k], Flowing)
  }

  /** The whole body is with the target, which knows that it is. */
  function HandedAll(body: seq<byte>): Request {
    Request(true, body, |body|, Shut, body, CleanEnd)
  }

  function NotAnswered(content: seq<byte>): Response {
    Answer(content, 0, 0, [], [], false)
  }

  function SendingAt(body: seq<byte>, content: seq<byte>, k: nat): State
    requires k <= |body|
  {
    State(OPEN_TUNNEL, 1, Only(Sending, Requesting, Handed(body, k), NotAnswered(content)), [], [], None)
  }

  /** The client announces a request with a body, and the hub starts on it. */
  lemma Announced(body: seq<byte>, content: seq<byte>)
    ensures Reaches(SendingAt(body, content, 0))
  {
    DecodeEncode(OPENED);
    var r, p := Request(true, body, 0, Absent, [], Flowing), NotAnswered(content);
    var s1 := State(OPEN_TUNNEL, 1, Only(Opening, Idle, r, p), [], [], None);
    var s2 := State(OPEN_TUNNEL, 1, Only(Sending, Idle, r, p), [Message(OPENED)], [], None);
    StartReached();
    ReachOn(Start(), OpenStream(true, body, content), s1);
    var sent := ClientNext(s1, 1, WriteOpen(true)).value;
    assert sent.streams == s2.streams && sent.up == s2.up;
    ReachOn(s1, ByClient(1, WriteOpen(true)), s2);
    assert Decode(s2.up[0]) == Ok(OPENED) && body[..0] == [];
    var read := HubReadsNext(s2, 0).value;
    assert read.streams == SendingAt(body, content, 0).streams && read.up == [];
    ReachOn(s2, HubReads(0), SendingAt(body, content, 0));
  }

  /** One more byte of the body is sent, and accepted by the target. */
  lemma HandByte(body: seq<byte>, content: seq<byte>, k: nat)
    requires k < |body| && Reaches(SendingAt(body, content, k))
    ensures Reaches(SendingAt(body, content, k + 1))
  {
    var b, st := body[k], SendingAt(body, content, k);
    DecodeEncode(ByteFrame(b));
    assert body[k..k + 1] == [b] && body[..k] + [b] == body[..k + 1];
    var sent := st.(streams := Only(Sending, Requesting, Handed(body, k).(sent := k + 1), NotAnswered(content)),
      up := [Message(ByteFrame(b))]);
    var next := ClientNext(st, 1, WriteChunk(1, true)).value;
    assert next.streams == sent.streams && next.up == sent.up;
    ReachOn(st, ByClient(1, WriteChunk(1, true)), sent);
    assert Decode(sent.up[0]) == Ok(ByteFrame(b)) && !IsHalfClose(ByteFrame(b));
    var read := HubReadsNext(sent, 1).value;
    assert read.streams == SendingAt(body, content, k + 1).streams && read.up == [];
    ReachOn(sent, HubReads(1), SendingAt(body, content, k + 1));
  }

  lemma {:induction false} HandBytes(body: seq<byte>, content: seq<byte>, k: nat)
    requires k <= |body|
    ensures Reaches(SendingAt(body, content, k))
  {
    if k == 0 {
      Announced(body, content);
    } else {
      HandBytes(body, content, k - 1);
      HandByte(body, content, k - 1);
    }
  }

  /** The end of the body is marked, and reaches the target. */
  lemma HandEnd(body: seq<byte>, content: seq<byte>)
    ensures Reaches(Asked(HandedAll(body), content))
  {
    HandBytes(body, content, |body|);
    DecodeEncode(LAST);
    var st := SendingAt(body, content, |body|);
    var sent := st.(streams := Only(Waiting, Requesting, Handed(body, |body|), NotAnswered(content)),
      up := [Message(LAST)]);
    var next := ClientNext(st, 1, WriteEnd(true)).value;
    assert next.streams == sent.streams && next.up == sent.up;
    ReachOn(st, ByClient(1, WriteEnd(true)), sent);
    assert Decode(sent.up[0]) == Ok(LAST) && IsHalfClose(LAST) && body[..|body|] + [] == body;
    var read := HubReadsNext(sent, 0).value;
    assert read.streams == Asked(HandedAll(body), content).streams && read.up == [];
    ReachOn(sent, HubReads(0), Asked(HandedAll(body), content));
  }

  /** The body was handed over whole and ended well, and the client has the whole answer and knows it. */
  predicate Whole(s: Stream, body: seq<byte>, content: seq<byte>) {
    && s.req.body == body && s.req.delivered == body && s.req.pipe.CleanEnd?
    && s.resp.content == content && s.resp.received == content && s.resp.sawClose
  }

  /** The router has the frame that ends the answer. */
  function Ending(r: Request, content: seq<byte>): State {
    State(OPEN_TUNNEL, 1, Only(Reading, Finished, r, Answer(content, |content|, 0, [], content, false)), [], [],
      Some(CLOSED))
  }

  /** The hub marks the end of the answer. */
  lemma CloseSent(r: Request, content: seq<byte>)
    requires Reaches(AtByte(r, content, |content|))
    ensures Reaches(Ending(r, content))
  {
    DecodeEncode(CLOSED);
    assert content[..|content|] == content;
    var st, s2 := AtByte(r, content, |content|), Ending(r, content);
    var s1 := s2.(down := [Message(CLOSED)], held := None);
    var sent := HubNext(st, 1, WriteClose(true)).value;
    assert sent.streams == s1.streams && sent.down == s1.down;
    ReachOn(st, ByHub(1, WriteClose(true)), s1);
    assert LookupNext(s1).value.down == [];
    ReachOn(s1, Lookup, s2);
  }

  /** The client reads it. */
  lemma CloseArrives(r: Request, content: seq<byte>) returns (end: State)
    requires Reaches(Ending(r, content))
    ensures Reaches(end) && 1 in end.streams && end.streams[1].req == r
    ensures end.streams[1].resp.content == content && end.streams[1].resp.received == content
    ensures end.streams[1].resp.sawClose
  {
    var p, st := Answer(content, |content|, 0, [], content, false), Ending(r, content);
    var next := st.(streams := Only(Reading, Finished, r, p.(queue := [CLOSED], registered := false)), held := None);
    assert p.queue + [CLOSED] == [CLOSED];
    assert RouteNext(st, true).value.streams == next.streams;
    ReachOn(st, Route(true), next);
    end := ClientNext(next, 1, Take(0)).value;
    ReachOn(next, ByClient(1, Take(0)), end);
  }

  /** For every body and every answer there is a run in which both get through whole. */
  lemma EverythingGetsThrough(body: seq<byte>, content: seq<byte>)
    ensures exists end :: Reaches(end) && 1 in end.streams && Whole(end.streams[1], body, content)
  {
    HandEnd(body, content);
    ReachByte(HandedAll(body), content, |content|);
    CloseSent(HandedAll(body), content);
    var end := CloseArrives(HandedAll(body), content);
  }
}
