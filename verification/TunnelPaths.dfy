/** Runs of a tunnel with one stream: an answer on its way to the client, byte by byte, whatever
    was sent of the request before. */
module TunnelPaths {
  import Runs
  import opened Collections
  import opened Frame
  import opened RelayStream
  import opened Tunnel

  const ANSWERED := Frame(HEADERS, 0, 1, [], [])

  const OPEN_TUNNEL := Env(true, false, false)

  /** The frame of one byte of the answer. */
  function ByteFrame(b: byte): Frame {
    Frame(DATA, 0, 1, [], [b])
  }

  /** The only stream, with its request so far. */
  function Only(client: Client, handler: Handler, r: Request, resp: Response): map<u32, Stream> {
    map[1 := Stream(1, client, handler, r, resp)]
  }

  function Answer(content: seq<byte>, produced: nat, headers: nat, queue: seq<Frame>, received: seq<byte>, lost: bool):
    Response
  {
    Response(content, produced, true, false, headers, queue, received, false, lost)
  }

  function Message(f: Frame): seq<byte>
    requires Fits(f)
  {
    Encode(f).value
  }

  /** The client is reading the answer, of which the hub has sent the first bytes. */
  function ReadingAt(env: Env, r: Request, resp: Response, down: seq<seq<byte>>, held: Option<Frame>): State {
    State(env, 1, Only(Reading, Responding, r, resp), [], down, held)
  }

  /** The client has received the first k bytes, and nothing more was sent. */
  function AtByte(r: Request, content: seq<byte>, k: nat): State
    requires k <= |content|
  {
    ReadingAt(OPEN_TUNNEL, r, Answer(content, k, 0, [], content[..k], false), [], None)
  }

  ghost predicate Reaches(st: State) {
    exists actions :: Run(Start(), actions) == Some(st)
  }

  lemma StartReached()
    ensures Reaches(Start())
  {
    assert Run(Start(), []) == Some(Start());
  }

  lemma ReachOn(st: State, a: Action, next: State)
    requires Reaches(st) && Next(st, a) == Some(next)
    ensures Reaches(next)
  {
    var actions :| Run(Start(), actions) == Some(st);
    Runs.AfterOneMore(Next, Start(), actions, a);
    assert Run(Start(), actions + [a]) == Some(next);
  }

  /** The request is with the target, and the client waits. */
  function Asked(r: Request, content: seq<byte>): State {
    State(OPEN_TUNNEL, 1, Only(Waiting, Requesting, r, Answer(content, 0, 0, [], [], false)), [], [], None)
  }

  /** The headers of the answer reach the client. */
  lemma Headers(r: Request, content: seq<byte>)
    requires Reaches(Asked(r, content))
    ensures Reaches(AtByte(r, content, 0))
  {
    DecodeEncode(ANSWERED);
    var clean := Answer(content, 0, 0, [], [], false);
    var s0 := Asked(r, content);
    var s1 := s0.(streams := Only(Waiting, Responding, r, clean), down := [Message(ANSWERED)]);
    var sent := HubNext(s0, 1, WriteHeaders(true)).value;
    assert sent.streams == s1.streams && sent.down == s1.down;
    ReachOn(s0, ByHub(1, WriteHeaders(true)), s1);
    var s2 := s1.(down := [], held := Some(ANSWERED));
    assert LookupNext(s1).value.down == [];
    ReachOn(s1, Lookup, s2);
    HeadersTaken(r, content, s2);
  }

  lemma HeadersTaken(r: Request, content: seq<byte>, s2: State)
    requires Reaches(s2)
    requires s2 ==
      State(OPEN_TUNNEL, 1, Only(Waiting, Responding, r, Answer(content, 0, 0, [], [], false)), [], [], Some(ANSWERED))
    ensures Reaches(AtByte(r, content, 0))
  {
    var s3 := s2.(streams := Only(Waiting, Responding, r, Answer(content, 0, 1, [], [], false)), held := None);
    assert RouteNext(s2, true).value.streams == s3.streams;
    ReachOn(s2, Route(true), s3);
    assert content[..0] == [];
    assert ClientNext(s3, 1, TakeHeaders(true)).value.streams == AtByte(r, content, 0).streams;
    ReachOn(s3, ByClient(1, TakeHeaders(true)), AtByte(r, content, 0));
  }

  /** The hub sends the next byte. */
  lemma SendByte(env: Env, r: Request, content: seq<byte>, k: nat, received: seq<byte>, down: seq<seq<byte>>)
    requires k < |content| && Reaches(ReadingAt(env, r, Answer(content, k, 0, [], received, false), down, None))
    ensures Reaches(ReadingAt(env, r, Answer(content, k + 1, 0, [], received, false),
      down + [Message(ByteFrame(content[k]))], None))
  {
    var st := ReadingAt(env, r, Answer(content, k, 0, [], received, false), down, None);
    var sentBytes := down + [Message(ByteFrame(content[k]))];
    var next := ReadingAt(env, r, Answer(content, k + 1, 0, [], received, false), sentBytes, None);
    assert content[k..k + 1] == [content[k]];
    var sent := HubNext(st, 1, WriteData(1, true)).value;
    assert sent.streams == next.streams && sent.down == next.down;
    ReachOn(st, ByHub(1, WriteData(1, true)), next);
  }

  /** The router takes the byte under way off the tunnel. */
  lemma HoldByte(env: Env, r: Request, p: Response, b: byte, rest: seq<seq<byte>>)
    requires env.loopRunning && p.registered
    requires Reaches(ReadingAt(env, r, p, [Message(ByteFrame(b))] + rest, None))
    ensures Reaches(ReadingAt(env, r, p, rest, Some(ByteFrame(b))))
  {
    var st := ReadingAt(env, r, p, [Message(ByteFrame(b))] + rest, None);
    DecodeEncode(ByteFrame(b));
    assert st.down[0] == Message(ByteFrame(b)) && st.down[1..] == rest;
    ReachOn(st, Lookup, ReadingAt(env, r, p, rest, Some(ByteFrame(b))));
  }

  /** The router delivers the byte, and the client reads it. */
  lemma ReadByte(env: Env, r: Request, p: Response, b: byte, down: seq<seq<byte>>)
    requires p.queue == [] && Reaches(ReadingAt(env, r, p, down, Some(ByteFrame(b))))
    ensures Reaches(ReadingAt(env, r, p.(received := p.received + [b]), down, None))
  {
    var st := ReadingAt(env, r, p, down, Some(ByteFrame(b)));
    var queued := ReadingAt(env, r, p.(queue := [ByteFrame(b)]), down, None);
    assert p.queue + [ByteFrame(b)] == [ByteFrame(b)];
    assert RouteNext(st, true).value.streams == queued.streams;
    ReachOn(st, Route(true), queued);
    var read := ReadingAt(env, r, p.(received := p.received + [b]), down, None);
    assert [ByteFrame(b)][1..] == [];
    assert ClientNext(queued, 1, Take(1)).value.streams == read.streams;
    ReachOn(queued, ByClient(1, Take(1)), read);
  }

  lemma {:induction false} ReachByte(r: Request, content: seq<byte>, k: nat)
    requires k <= |content| && Reaches(Asked(r, content))
    ensures Reaches(AtByte(r, content, k))
  {
    if k == 0 {
      Headers(r, content);
    } else {
      var b, before, received := content[k - 1], Answer(content, k, 0, [], content[..k - 1], false), content[..k - 1];
      ReachByte(r, content, k - 1);
      SendByte(OPEN_TUNNEL, r, content, k - 1, received, []);
      assert [] + [Message(ByteFrame(b))] == [Message(ByteFrame(b))] + [];
      HoldByte(OPEN_TUNNEL, r, before, b, []);
      ReadByte(OPEN_TUNNEL, r, before, b, []);
      assert content[..k - 1] + [b] == content[..k];
    }
  }
}
