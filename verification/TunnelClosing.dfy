/** Runs in which the tunnel is closed from outside in the middle of an answer, and exactly which
    answers such a run can scramble. */
module TunnelClosedFromOutside {
  import opened Collections
  import opened Subsequences
  import opened Frame
  import opened RelayStream
  import opened Tunnel
  import opened TunnelLosses
  import opened TunnelPaths

  const OPENED := Frame(OPEN, 0, 1, [0], [])

  const CLOSED_TUNNEL := Env(true, true, true)

  /** A request without a body. */
  const NOTHING := Request(false, [], 0, Absent, [], Flowing)

  /** The client's request reaches the hub. */
  lemma Ask(content: seq<byte>)
    ensures Reaches(Asked(NOTHING, content))
  {
    DecodeEncode(OPENED);
    var clean := Answer(content, 0, 0, [], [], false);
    var s1 := State(OPEN_TUNNEL, 1, Only(Opening, Idle, NOTHING, clean), [], [], None);
    var s2 := State(OPEN_TUNNEL, 1, Only(Waiting, Idle, NOTHING, clean), [Message(OPENED)], [], None);
    StartReached();
    ReachOn(Start(), OpenStream(false, [], content), s1);
    var sent := ClientNext(s1, 1, WriteOpen(true)).value;
    assert sent.streams == s2.streams && sent.up == s2.up;
    ReachOn(s1, ByClient(1, WriteOpen(true)), s2);
    assert Decode(s2.up[0]) == Ok(OPENED);
    var read := HubReadsNext(s2, 0).value;
    assert read.streams == Asked(NOTHING, content).streams && read.up == [];
    ReachOn(s2, HubReads(0), Asked(NOTHING, content));
  }

  /** The router gives up on the byte, for the tunnel is closed. */
  lemma LoseByte(r: Request, p: Response, b: byte, down: seq<seq<byte>>)
    requires Reaches(ReadingAt(CLOSED_TUNNEL, r, p, down, Some(ByteFrame(b))))
    ensures Reaches(ReadingAt(CLOSED_TUNNEL, r, p.(lost := true), down, None))
  {
    var st := ReadingAt(CLOSED_TUNNEL, r, p, down, Some(ByteFrame(b)));
    var next := ReadingAt(CLOSED_TUNNEL, r, p.(lost := true), down, None);
    assert RouteNext(st, false).value.streams == next.streams;
    ReachOn(st, Route(false), next);
  }

  /** The client has received the bytes before k and the byte after it. */
  function Skipped(content: seq<byte>, k: nat): State
    requires k + 1 < |content|
  {
    ReadingAt(CLOSED_TUNNEL, NOTHING, Answer(content, k + 2, 0, [], content[..k] + [content[k + 1]], true), [], None)
  }

  /** Between the closed flag and the clearing of the table, the router may give up on one frame
      and still deliver the next. */
  lemma SkipByte(content: seq<byte>, k: nat)
    requires k + 1 < |content|
    ensures Reaches(Skipped(content, k))
  {
    var first, second := Message(ByteFrame(content[k])), Message(ByteFrame(content[k + 1]));
    var received := content[..k];
    Ask(content);
    ReachByte(NOTHING, content, k);
    SendByte(OPEN_TUNNEL, NOTHING, content, k, received, []);
    assert [] + [first] == [first];
    SendByte(OPEN_TUNNEL, NOTHING, content, k + 1, received, [first]);
    assert [first] + [second] == [first] + ([second] + []);
    var sent := Answer(content, k + 2, 0, [], received, false);
    ReachOn(ReadingAt(OPEN_TUNNEL, NOTHING, sent, [first] + [second], None), CloseFlag,
      ReadingAt(CLOSED_TUNNEL, NOTHING, sent, [first] + [second], None));
    HoldByte(CLOSED_TUNNEL, NOTHING, sent, content[k], [second] + []);
    LoseByte(NOTHING, sent, content[k], [second] + []);
    HoldByte(CLOSED_TUNNEL, NOTHING, sent.(lost := true), content[k + 1], []);
    ReadByte(CLOSED_TUNNEL, NOTHING, sent.(lost := true), content[k + 1], []);
  }

  /** A client of this answer received something that is no prefix of it. */
  ghost predicate Scrambled(st: State, id: u32, content: seq<byte>) {
    && id in st.streams && st.streams[id].resp.content == content
    && !(st.streams[id].resp.received <= content)
  }

  predicate DifferentNeighbours(content: seq<byte>, k: int) {
    0 <= k < |content| - 1 && content[k] != content[k + 1]
  }

  /** An answer whose neighbouring bytes are all the same cannot be scrambled. */
  lemma EqualBytesArrive(actions: seq<Action>, end: State, id: u32)
    requires Run(Start(), actions) == Some(end) && id in end.streams
    requires forall k :: !DifferentNeighbours(end.streams[id].resp.content, k)
    ensures end.streams[id].resp.received <= end.streams[id].resp.content
  {
    var content := end.streams[id].resp.content;
    ReceivedIsDrawn(actions, end, id);
    forall i, j | 0 <= i < |content| && 0 <= j < |content| ensures content[i] == content[j] {
      forall k | 0 <= k < |content| - 1 ensures content[k] == content[k + 1] {
        assert !DifferentNeighbours(content, k);
      }
      EqualNeighbours(content, if i < j then i else j, if i < j then j else i);
    }
    SubsequenceOfEqual(end.streams[id].resp.received, content);
  }

  lemma DifferentBytesSkipped(content: seq<byte>, k: nat)
    requires DifferentNeighbours(content, k)
    ensures Reaches(Skipped(content, k)) && Scrambled(Skipped(content, k), 1, content)
  {
    SkipByte(content, k);
    var received := Skipped(content, k).streams[1].resp.received;
    assert received[k] == content[k + 1];
  }

  /** Some run scrambles an answer exactly when two of its neighbouring bytes differ; that run closes
      the tunnel from outside, for no other run loses bytes. */
  lemma ScrambledExactly(content: seq<byte>)
    ensures (exists st, id :: Reaches(st) && Scrambled(st, id, content))
      <==> exists k :: DifferentNeighbours(content, k)
  {
    forall st, id | Reaches(st) && Scrambled(st, id, content) ensures exists k :: DifferentNeighbours(content, k) {
      var actions :| Run(Start(), actions) == Some(st);
      if forall k :: !DifferentNeighbours(content, k) {
        EqualBytesArrive(actions, st, id);
      }
    }
    forall k: nat | DifferentNeighbours(content, k)
      ensures Reaches(Skipped(content, k)) && Scrambled(Skipped(content, k), 1, content)
    {
      DifferentBytesSkipped(content, k);
    }
  }
}
