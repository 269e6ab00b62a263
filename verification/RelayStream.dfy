/** One HTTP stream of the port relay, at both ends of the tunnel. Every action is one step
    between the ends' locks and channels; the tunnel in between is given as the frames of this
    stream that are under way: up towards the hub, transit towards the registry. */
module RelayStream {
  import opened Collections
  import opened Frame

  const CHUNK := 32 * 1024
  const QUEUE_SIZE := 32

  /** The registry's handler of the client's request. */
  datatype Client = Opening | Sending | Waiting | Reading | Closing | Ended
  /** The hub's goroutine that asks the target. */
  datatype Handler = Idle | Requesting | Responding | Finished
  /** The hub's table entry: none, with an open body writer, or with the writer gone. */
  datatype Writer = Absent | Writable | Shut
  datatype Pipe = Flowing | CleanEnd | Broken

  /** The registry's end of the tunnel: its read loop, its closed flag, and whether anybody
      but the read loop itself raised that flag. */
  datatype Env = Env(loopRunning: bool, closed: bool, external: bool)

  /** The request direction: the client's whole body, how much of it was sent, and what the
      target's request was handed. */
  datatype Request = Request(hasBody: bool, body: seq<byte>, sent: nat, writer: Writer, delivered: seq<byte>,
    pipe: Pipe)

  /** The response direction: the target's whole answer, how much of it was sent, the registry's
      table entry and channels, and what the client received. lost marks that the router dropped
      response bytes while the client was still after them. */
  datatype Response = Response(content: seq<byte>, produced: nat, registered: bool, closed: bool, headers: nat,
    queue: seq<Frame>, received: seq<byte>, sawClose: bool, lost: bool)

  datatype Stream = Stream(id: u32, client: Client, handler: Handler, req: Request, resp: Response)

  datatype ClientAction =
    | WriteOpen(ok: bool) | WriteChunk(n: nat, ok: bool) | WriteEnd(ok: bool) | BodyFails(ok: bool)
    | TakeHeaders(valid: bool) | DropFrame | GiveUp
    | Take(written: nat) | SeeClosed | SeeTunnelClosed | CloseStream(ok: bool)

  datatype HubAction =
    | InvalidRequest(ok: bool) | RequestFails(ok: bool) | WriteHeaders(ok: bool)
    | WriteData(n: nat, ok: bool) | ReadFails(ok: bool) | WriteClose(ok: bool) | CloseBody

  datatype ClientStep = ClientStep(client: Client, req: Request, resp: Response, out: seq<Frame>)
  datatype HubStep = HubStep(handler: Handler, req: Request, resp: Response, out: seq<Frame>)

  /** Stands for the JSON request metadata, of which only HasBody matters here. */
  function MetaFor(hasBody: bool): seq<byte> {
    if hasBody then [1] else [0]
  }

  predicate IsHalfClose(f: Frame) {
    f.flags as int / HALF_CLOSE as int % 2 == 1
  }

  /** Up to and including reading the response. */
  predicate Live(c: Client) {
    c.Opening? || c.Sending? || c.Waiting? || c.Reading?
  }

  function Plain(id: u32, kind: byte): Frame {
    Frame(kind, 0, id, [], [])
  }

  function When(ok: bool, f: Frame): seq<Frame> {
    if ok then [f] else []
  }

  /** nextData and the loop around it: one frame from the queue, of whose payload the client's
      connection accepts the first bytes. */
  function TakeFrame(p: Response, written: nat): (Client, Response)
    requires p.queue != []
  {
    var f := p.queue[0];
    var rest := p.queue[1..];
    if f.kind == DATA then
      if written < |f.payload| then (Closing, p.(queue := rest, received := p.received + f.payload[..written]))
      else (Reading, p.(queue := rest, received := p.received + f.payload))
    else if f.kind == CLOSE then (Closing, p.(queue := rest, closed := true, sawClose := true))
    else (Reading, p.(queue := rest, closed := true))
  }

  /** The registry's handler: openStream, sendRequestBody, waitHeaders, nextData and Close,
      with the frames each step writes to the tunnel. */
  function ClientAct(env: Env, s: Stream, a: ClientAction): Option<ClientStep> {
    var c, r, p := s.client, s.req, s.resp;
    match a
    case WriteOpen(ok) =>
      if !c.Opening? then None
      else if ok then
        Some(ClientStep(if r.hasBody then Sending else Waiting, r, p, [Frame(OPEN, 0, s.id, MetaFor(r.hasBody), [])]))
      else Some(ClientStep(Ended, r, p.(registered := false), []))
    case WriteChunk(n, ok) =>
      if !c.Sending? || n == 0 || n > CHUNK || r.sent + n > |r.body| then None
      else if ok then
        Some(ClientStep(Sending, r.(sent := r.sent + n), p, [Frame(DATA, 0, s.id, [], r.body[r.sent..r.sent + n])]))
      else Some(ClientStep(Closing, r, p, []))
    case WriteEnd(ok) =>
      if !c.Sending? || r.sent != |r.body| then None
      else Some(ClientStep(if ok then Waiting else Closing, r, p, When(ok, Frame(DATA, HALF_CLOSE, s.id, [], []))))
    case BodyFails(ok) =>
      if !c.Sending? then None else Some(ClientStep(Closing, r, p, When(ok, Plain(s.id, CLOSE))))
    case TakeHeaders(valid) =>
      if !c.Waiting? || p.headers == 0 then None
      else Some(ClientStep(if valid then Reading else Closing, r, p.(headers := p.headers - 1), []))
    case DropFrame =>
      if !c.Waiting? || p.queue == [] then None
      else Some(ClientStep(Closing, r, p.(queue := p.queue[1..]), []))
    case GiveUp =>
      if !c.Waiting? then None else Some(ClientStep(Closing, r, p, []))
    case Take(written) =>
      if !c.Reading? || p.queue == [] then None
      else
        var (next, q) := TakeFrame(p, written);
        Some(ClientStep(next, r, q, []))
    case SeeClosed =>
      if !c.Reading? || !p.closed then None else Some(ClientStep(Closing, r, p, []))
    case SeeTunnelClosed =>
      if !c.Reading? || !env.closed then None else Some(ClientStep(Closing, r, p, []))
    case CloseStream(ok) =>
      if !c.Closing? then None
      else Some(ClientStep(Ended, r, p.(closed := true, registered := false), When(ok, Plain(s.id, CLOSE))))
  }

  /** closeStream at the hub. */
  function CloseEntry(r: Request): Request {
    r.(writer := Absent, pipe := if r.writer.Writable? then Broken else r.pipe)
  }

  /** writeHTTPBody: the target accepts the first accepted bytes of the chunk. */
  function WriteBody(r: Request, f: Frame, accepted: nat): Request {
    if accepted < |f.payload| then r.(delivered := r.delivered + f.payload[..accepted], pipe := Broken, writer := Shut)
    else if IsHalfClose(f) then r.(delivered := r.delivered + f.payload, pipe := CleanEnd, writer := Shut)
    else r.(delivered := r.delivered + f.payload)
  }

  /** The hub's read loop takes one frame: handleOpen, handleData or closeStream. */
  function HubInput(h: Handler, r: Request, f: Frame, accepted: nat): (Handler, Request) {
    if f.kind == OPEN && h.Idle? then (Requesting, if f.meta == MetaFor(true) then r.(writer := Writable) else r)
    else if f.kind == DATA && r.writer.Writable? then (h, WriteBody(r, f, accepted))
    else if f.kind == CLOSE || f.kind == ERROR then (h, CloseEntry(r))
    else (h, r)
  }

  /** handleHTTP: the hub's goroutine that asks the target and sends back what it answers. */
  function HubAct(s: Stream, a: HubAction): Option<HubStep> {
    var h, r, p := s.handler, s.req, s.resp;
    match a
    case InvalidRequest(ok) =>
      if !h.Requesting? then None else Some(HubStep(Finished, CloseEntry(r), p, When(ok, Plain(s.id, ERROR))))
    case RequestFails(ok) =>
      if !h.Requesting? then None else Some(HubStep(Finished, r, p, When(ok, Plain(s.id, ERROR))))
    case WriteHeaders(ok) =>
      if !h.Requesting? then None
      else Some(HubStep(if ok then Responding else Finished, r, p, When(ok, Plain(s.id, HEADERS))))
    case WriteData(n, ok) =>
      if !h.Responding? || n == 0 || n > CHUNK || p.produced + n > |p.content| then None
      else if ok then
        Some(HubStep(Responding, r, p.(produced := p.produced + n),
          [Frame(DATA, 0, s.id, [], p.content[p.produced..p.produced + n])]))
      else Some(HubStep(Finished, r, p, []))
    case ReadFails(ok) =>
      if !h.Responding? then None else Some(HubStep(Finished, r, p, When(ok, Plain(s.id, ERROR))))
    case WriteClose(ok) =>
      if !h.Responding? || p.produced != |p.content| then None
      else Some(HubStep(Finished, r, p, When(ok, Plain(s.id, CLOSE))))
    case CloseBody =>
      if !h.Finished? || !r.hasBody then None else Some(HubStep(Finished, CloseEntry(r), p, []))
  }

  predicate Terminal(f: Frame) {
    f.kind == CLOSE || f.kind == ERROR
  }

  /** route, once the stream was found: put the frame in its channel, or give up on it because
      the stream or the tunnel is closed. A full channel makes it wait. */
  function Enqueue(env: Env, c: Client, p: Response, f: Frame, accept: bool): Option<Response> {
    if !accept && !p.closed && !env.closed then None
    else if f.kind == HEADERS then
      if accept && p.headers >= 1 then None
      else Some(if accept then p.(headers := p.headers + 1) else p)
    else if f.kind == DATA then
      if accept && |p.queue| >= QUEUE_SIZE then None
      else Some(if accept then p.(queue := p.queue + [f]) else Dropped(c, p, f))
    else if Terminal(f) then
      if accept && |p.queue| >= QUEUE_SIZE then None
      else if accept then Some(p.(queue := p.queue + [f], registered := false))
      else Some(p.(registered := false, closed := true))
    else Some(p)
  }

  /** The router drops a frame of this stream. */
  function Dropped(c: Client, p: Response, f: Frame): Response {
    if f.kind == DATA && Live(c) then p.(lost := true) else p
  }

  /** registryTunnel.Close reaches this stream's table entry. */
  function Cleared(p: Response): Response {
    p.(registered := false, closed := true)
  }

  /** A fresh stream, registered but not yet announced to the hub. */
  function NewStream(id: u32, hasBody: bool, body: seq<byte>, content: seq<byte>): Stream {
    Stream(id, Opening, Idle, Request(hasBody, body, 0, Absent, [], Flowing),
      Response(content, 0, true, false, 0, [], [], false, false))
  }
}

/** What one stream keeps, whatever its ends do. */
module RelayStreamSafety {
  import opened Collections
  import opened Frame
  import opened RelayStream

  function Payloads(frames: seq<Frame>): seq<byte> {
    if frames == [] then []
    else
      var last := frames[|frames| - 1];
      Payloads(frames[..|frames| - 1]) + if last.kind == DATA then last.payload else []
  }

  lemma {:induction false} PayloadsConcat(a: seq<Frame>, b: seq<Frame>)
    ensures Payloads(a + b) == Payloads(a) + Payloads(b)
  {
    if b == [] {
      assert a + b == a;
    } else {
      var n := |b| - 1;
      assert (a + b)[..|a + b| - 1] == a + b[..n];
      PayloadsConcat(a, b[..n]);
    }
  }

  lemma PayloadsOne(f: Frame)
    ensures Payloads([f]) == if f.kind == DATA then f.payload else []
  {
    assert [f][..0] == [];
  }

  lemma PayloadsSnoc(frames: seq<Frame>, f: Frame)
    ensures Payloads(frames + [f]) == Payloads(frames) + if f.kind == DATA then f.payload else []
  {
    PayloadsConcat(frames, [f]);
    PayloadsOne(f);
  }

  lemma Associative<T>(a: seq<T>, b: seq<T>, c: seq<T>)
    ensures (a + b) + c == a + (b + c)
  {
  }

  lemma NextSlice<T>(s: seq<T>, k: nat, n: nat)
    requires k + n <= |s|
    ensures s[..k] + s[k..k + n] == s[..k + n]
  {
  }

  lemma PayloadsHead(frames: seq<Frame>)
    requires frames != []
    ensures Payloads(frames) == (if frames[0].kind == DATA then frames[0].payload else []) + Payloads(frames[1..])
  {
    assert frames == [frames[0]] + frames[1..];
    PayloadsConcat([frames[0]], frames[1..]);
    PayloadsOne(frames[0]);
  }

  lemma {:induction false} PayloadsNone(frames: seq<Frame>)
    requires forall i :: 0 <= i < |frames| ==> frames[i].kind != DATA
    ensures Payloads(frames) == []
  {
    if frames != [] {
      PayloadsNone(frames[..|frames| - 1]);
    }
  }

  /** The frames on their way to the hub: at most a leading Open, and nothing of the body
      after its end was marked. */
  ghost predicate UpShape(c: Client, h: Handler, r: Request, up: seq<Frame>) {
    && (forall i :: 0 <= i < |up| ==> up[i].kind == OPEN || up[i].kind == DATA || up[i].kind == CLOSE)
    && (forall i :: 0 <= i < |up| && up[i].kind == OPEN ==> i == 0 && h.Idle? && up[i].meta == MetaFor(r.hasBody))
    && (forall i :: 0 <= i < |up| && up[i].kind == DATA && IsHalfClose(up[i]) ==>
      r.sent == |r.body| && !c.Sending? && up[i].payload == [])
    && (forall i, j :: 0 <= i < j < |up| && up[i].kind == DATA && IsHalfClose(up[i]) ==> up[j].kind != DATA)
  }

  /** What the target is handed is a prefix of what this client sends, and the end of the body
      is signalled only after all of it. */
  ghost predicate RequestInv(c: Client, h: Handler, r: Request, up: seq<Frame>) {
    && UpShape(c, h, r, up)
    && r.sent <= |r.body| && r.delivered <= r.body
    && (r.pipe.CleanEnd? ==> r.delivered == r.body)
    && (c.Opening? ==> up == [] && h.Idle?)
    && (h.Idle? ==> r.delivered == [] && r.writer.Absent? && r.pipe.Flowing?)
    && (h.Idle? && up != [] ==> up[0].kind == OPEN && Payloads(up) == r.body[..r.sent])
    && (h.Idle? && up == [] ==> r.sent == 0 && (c.Opening? || c.Ended?))
    && (r.writer.Writable? ==> r.delivered + Payloads(up) == r.body[..r.sent])
  }

  /** The frames on their way back, and those already queued: whatever ends the response comes last. */
  ghost predicate DownShape(h: Handler, p: Response, transit: seq<Frame>) {
    && (forall i :: 0 <= i < |transit| && Terminal(transit[i]) ==> i == |transit| - 1 && h.Finished?)
    && (forall i :: 0 <= i < |transit| && transit[i].kind == CLOSE ==> p.produced == |p.content|)
    && (forall i :: 0 <= i < |p.queue| ==> p.queue[i].kind == DATA || Terminal(p.queue[i]))
    && (forall i :: 0 <= i < |p.queue| && Terminal(p.queue[i]) ==>
      i == |p.queue| - 1 && transit == [] && h.Finished?)
    && (forall i :: 0 <= i < |p.queue| && p.queue[i].kind == CLOSE ==> p.produced == |p.content|)
  }

  /** What the client has, what is queued for it and what is under way. */
  ghost function OnTheWay(p: Response, transit: seq<Frame>): seq<byte> {
    p.received + Payloads(p.queue) + Payloads(transit)
  }

  /** Unless the router dropped some of it, that is together what the hub has sent. */
  ghost predicate InOrder(live: bool, p: Response, way: seq<byte>) {
    && p.produced <= |p.content|
    && (!p.lost && live ==> way == p.content[..p.produced])
    && (!p.lost ==> p.received <= p.content)
    && (!p.lost && p.sawClose ==> p.received == p.content)
  }

  /** How far each end can be. */
  ghost predicate InStep(env: Env, c: Client, h: Handler, p: Response, transit: seq<Frame>, held: bool) {
    && (h.Idle? || h.Requesting? ==> p.produced == 0 && transit == [])
    && (held ==> transit != [] && env.loopRunning)
    && (p.lost ==> env.external)
    && (p.sawClose ==> !Live(c)) && (c.Ended? ==> !p.registered)
    && |p.queue| <= QUEUE_SIZE && p.headers <= 1
    && (c.Opening? || c.Sending? || c.Waiting? ==> p.received == [])
    && (Live(c) && env.loopRunning && !env.external && (p.closed || !p.registered) ==> (transit == [] && h.Finished?))
  }

  ghost predicate ResponseInv(env: Env, c: Client, h: Handler, p: Response, transit: seq<Frame>, held: bool) {
    && DownShape(h, p, transit)
    && InStep(env, c, h, p, transit, held)
    && InOrder(Live(c), p, OnTheWay(p, transit))
  }

  /** The read loop raises the flag only when it has stopped. */
  ghost predicate EnvInv(env: Env) {
    env.closed && !env.external ==> !env.loopRunning
  }

  ghost predicate Inv(env: Env, s: Stream, up: seq<Frame>, transit: seq<Frame>, held: bool) {
    && RequestInv(s.client, s.handler, s.req, up)
    && ResponseInv(env, s.client, s.handler, s.resp, transit, held)
  }

  lemma NewStreamInv(env: Env, id: u32, hasBody: bool, body: seq<byte>, content: seq<byte>)
    ensures Inv(env, NewStream(id, hasBody, body, content), [], [], false)
  {
  }

  /** A step of the client that writes nothing. */
  lemma RequestSilent(c: Client, d: Client, h: Handler, r: Request, up: seq<Frame>)
    requires RequestInv(c, h, r, up)
    requires !d.Opening? && (d.Sending? ==> c.Sending?)
    requires c.Opening? || c.Ended? ==> d.Ended?
    ensures RequestInv(d, h, r, up)
  {
  }

  lemma RequestOpens(d: Client, h: Handler, r: Request, f: Frame)
    requires RequestInv(Opening, h, r, []) && (d.Sending? || d.Waiting?)
    requires f.kind == OPEN && f.meta == MetaFor(r.hasBody)
    ensures RequestInv(d, h, r, [f])
  {
    PayloadsOne(f);
  }

  lemma RequestCloses(c: Client, h: Handler, r: Request, up: seq<Frame>, f: Frame)
    requires RequestInv(c, h, r, up) && f.kind == CLOSE && !c.Opening?
    requires h.Idle? ==> up != []
    ensures RequestInv(c, h, r, up + [f])
  {
    PayloadsConcat(up, [f]);
    PayloadsOne(f);
    assert Payloads(up + [f]) == Payloads(up);
    UpCloses(c, h, r, up, f);
  }

  lemma UpCloses(c: Client, h: Handler, r: Request, up: seq<Frame>, f: Frame)
    requires UpShape(c, h, r, up) && f.kind == CLOSE
    ensures UpShape(c, h, r, up + [f])
  {
  }

  lemma UpGrows(h: Handler, r: Request, n: nat, up: seq<Frame>, f: Frame)
    requires UpShape(Sending, h, r, up) && f.kind == DATA && f.flags == 0
    ensures UpShape(Sending, h, r.(sent := r.sent + n), up + [f])
  {
    var all := up + [f];
    assert forall i :: 0 <= i < |up| ==> all[i] == up[i];
    assert forall i :: 0 <= i < |all| && all[i].kind == DATA ==> !IsHalfClose(all[i]);
  }

  lemma RequestGrows(h: Handler, r: Request, up: seq<Frame>, n: nat, f: Frame)
    requires RequestInv(Sending, h, r, up) && r.sent + n <= |r.body|
    requires f.kind == DATA && f.flags == 0 && f.payload == r.body[r.sent..r.sent + n]
    ensures RequestInv(Sending, h, r.(sent := r.sent + n), up + [f])
  {
    UpGrows(h, r, n, up, f);
    PayloadsSnoc(up, f);
    NextSlice(r.body, r.sent, n);
    Associative(r.delivered, Payloads(up), f.payload);
  }

  lemma RequestEnds(h: Handler, r: Request, up: seq<Frame>, f: Frame)
    requires RequestInv(Sending, h, r, up) && r.sent == |r.body|
    requires f.kind == DATA && f.payload == []
    ensures RequestInv(Waiting, h, r, up + [f])
  {
    PayloadsConcat(up, [f]);
    PayloadsOne(f);
    assert forall i :: 0 <= i < |up| ==> (up + [f])[i] == up[i];
  }

  lemma ClientSaysNothing(env: Env, s: Stream, a: ClientAction, step: ClientStep)
    requires ClientAct(env, s, a) == Some(step) && step.out == []
    ensures step.req == s.req && !step.client.Opening? && (step.client.Sending? ==> s.client.Sending?)
    ensures s.client.Opening? || s.client.Ended? ==> step.client.Ended?
  {
  }

  /** What the client writes, and what it becomes when it writes. */
  lemma ClientSays(env: Env, s: Stream, a: ClientAction, step: ClientStep)
    requires ClientAct(env, s, a) == Some(step) && step.out != []
    ensures |step.out| == 1
    ensures a.WriteOpen? || a.WriteChunk? || a.WriteEnd? || (step.out[0].kind == CLOSE && step.req == s.req)
    ensures !a.WriteOpen? ==> !s.client.Opening? && !s.client.Ended? && !step.client.Opening?
    ensures step.client.Sending? ==> s.client.Sending? || s.client.Opening?
  {
  }

  lemma ClientWritesBody(env: Env, s: Stream, a: ClientAction, up: seq<Frame>, step: ClientStep)
    requires RequestInv(s.client, s.handler, s.req, up) && ClientAct(env, s, a) == Some(step) && step.out != []
    requires a.WriteOpen? || a.WriteChunk? || a.WriteEnd?
    ensures RequestInv(step.client, s.handler, step.req, up + step.out)
  {
    if a.WriteOpen? {
      assert up + step.out == step.out;
      RequestOpens(step.client, s.handler, s.req, step.out[0]);
    } else if a.WriteChunk? {
      RequestGrows(s.handler, s.req, up, a.n, step.out[0]);
    } else {
      RequestEnds(s.handler, s.req, up, step.out[0]);
    }
  }

  /** The client's steps keep the request direction. */
  lemma ClientKeepsRequest(env: Env, s: Stream, a: ClientAction, up: seq<Frame>, step: ClientStep)
    requires RequestInv(s.client, s.handler, s.req, up) && ClientAct(env, s, a) == Some(step)
    ensures RequestInv(step.client, s.handler, step.req, up + step.out)
  {
    if step.out == [] {
      assert up + step.out == up;
      ClientSaysNothing(env, s, a, step);
      RequestSilent(s.client, step.client, s.handler, s.req, up);
    } else if a.WriteOpen? || a.WriteChunk? || a.WriteEnd? {
      ClientWritesBody(env, s, a, up, step);
    } else {
      ClientSays(env, s, a, step);
      assert step.out == [step.out[0]];
      RequestSilent(s.client, step.client, s.handler, s.req, up);
      RequestCloses(step.client, s.handler, s.req, up, step.out[0]);
    }
  }

  /** A step of the client that reads nothing from the queue. */
  lemma ResponseSilent(env: Env, c: Client, d: Client, h: Handler, p: Response, q: Response, transit: seq<Frame>,
      held: bool)
    requires ResponseInv(env, c, h, p, transit, held)
    requires q == p.(registered := q.registered, closed := q.closed, headers := q.headers)
    requires Live(d) ==> Live(c) && q.registered == p.registered && q.closed == p.closed
    requires d.Opening? || d.Sending? || d.Waiting? ==> c.Opening? || c.Sending? || c.Waiting?
    requires (d.Ended? ==> !q.registered) && q.headers <= 1
    ensures ResponseInv(env, d, h, q, transit, held)
  {
    assert OnTheWay(q, transit) == OnTheWay(p, transit);
  }

  lemma QueueRest(h: Handler, p: Response, transit: seq<Frame>)
    requires DownShape(h, p, transit) && p.queue != []
    ensures DownShape(h, p.(queue := p.queue[1..]), transit)
    ensures Terminal(p.queue[0]) ==> p.queue[1..] == [] && transit == [] && h.Finished?
    ensures p.queue[0].kind == CLOSE ==> p.produced == |p.content|
    ensures p.queue[0].kind == DATA || Terminal(p.queue[0])
  {
    assert forall i :: 0 <= i < |p.queue| - 1 ==> p.queue[1..][i] == p.queue[i + 1];
  }

  /** The bytes of a data frame move from the queue to the client. */
  lemma ReadingKeepsOrder(p: Response, q: Response, transit: seq<Frame>)
    requires p.queue != [] && p.queue[0].kind == DATA
    requires q == p.(queue := p.queue[1..], received := p.received + p.queue[0].payload)
    ensures OnTheWay(q, transit) == OnTheWay(p, transit)
    ensures p.produced <= |p.content| && OnTheWay(p, transit) == p.content[..p.produced] ==> q.received <= p.content
  {
    PayloadsHead(p.queue);
    var rest := Payloads(p.queue[1..]) + Payloads(transit);
    assert OnTheWay(p, transit) == p.received + p.queue[0].payload + rest;
    assert OnTheWay(q, transit) == p.received + p.queue[0].payload + rest;
    if p.produced <= |p.content| && OnTheWay(p, transit) == p.content[..p.produced] {
      assert q.received == p.content[..|q.received|];
    }
  }

  /** The client takes a data frame. */
  lemma ResponseReadData(env: Env, h: Handler, p: Response, written: nat, transit: seq<Frame>, held: bool)
    requires ResponseInv(env, Reading, h, p, transit, held) && p.queue != [] && p.queue[0].kind == DATA
    ensures ResponseInv(env, TakeFrame(p, written).0, h, TakeFrame(p, written).1, transit, held)
  {
    var q := TakeFrame(p, written).1;
    QueueRest(h, p, transit);
    ReadingKeepsOrder(p, p.(queue := p.queue[1..], received := p.received + p.queue[0].payload), transit);
    assert DownShape(h, q, transit);
  }

  /** The client takes the frame that ends the response. */
  lemma ResponseReadEnd(env: Env, h: Handler, p: Response, written: nat, transit: seq<Frame>, held: bool)
    requires ResponseInv(env, Reading, h, p, transit, held) && p.queue != [] && p.queue[0].kind != DATA
    ensures ResponseInv(env, TakeFrame(p, written).0, h, TakeFrame(p, written).1, transit, held)
  {
    var q := TakeFrame(p, written).1;
    QueueRest(h, p, transit);
    PayloadsHead(p.queue);
    assert OnTheWay(p, transit) == p.received && OnTheWay(q, transit) == p.received;
    assert DownShape(h, q, transit);
  }

  /** The client's steps keep the response direction. */
  lemma ClientKeepsResponse(env: Env, s: Stream, a: ClientAction, transit: seq<Frame>, held: bool, step: ClientStep)
    requires ResponseInv(env, s.client, s.handler, s.resp, transit, held) && ClientAct(env, s, a) == Some(step)
    ensures ResponseInv(env, step.client, s.handler, step.resp, transit, held)
  {
    if a.Take? {
      if s.resp.queue[0].kind == DATA {
        ResponseReadData(env, s.handler, s.resp, a.written, transit, held);
      } else {
        ResponseReadEnd(env, s.handler, s.resp, a.written, transit, held);
      }
    } else if a.DropFrame? {
      QueueRest(s.handler, s.resp, transit);
    } else {
      ResponseSilent(env, s.client, step.client, s.handler, s.resp, step.resp, transit, held);
    }
  }

  lemma UpRest(c: Client, h: Handler, g: Handler, r: Request, q: Request, up: seq<Frame>)
    requires UpShape(c, h, r, up) && up != []
    requires q.sent == r.sent && q.body == r.body && q.hasBody == r.hasBody
    ensures UpShape(c, g, q, up[1..]) && forall i :: 0 <= i < |up| - 1 ==> up[1..][i].kind != OPEN
  {
    assert forall i :: 0 <= i < |up| - 1 ==> up[1..][i] == up[i + 1];
  }

  lemma HubOpens(c: Client, r: Request, up: seq<Frame>)
    requires RequestInv(c, Idle, r, up) && up != []
    ensures RequestInv(c, Requesting, if up[0].meta == MetaFor(true) then r.(writer := Writable) else r, up[1..])
  {
    PayloadsHead(up);
    UpRest(c, Idle, Requesting, r, r.(writer := Writable), up);
    UpRest(c, Idle, Requesting, r, r, up);
  }

  lemma HubTakesData(c: Client, h: Handler, r: Request, up: seq<Frame>, accepted: nat)
    requires RequestInv(c, h, r, up) && up != [] && up[0].kind == DATA && r.writer.Writable?
    ensures RequestInv(c, h, WriteBody(r, up[0], accepted), up[1..])
  {
    var f, q := up[0], WriteBody(r, up[0], accepted);
    PayloadsHead(up);
    UpRest(c, h, h, r, q, up);
    var rest := Payloads(up[1..]);
    assert r.delivered + f.payload + rest == r.body[..r.sent];
    assert r.delivered + f.payload == r.body[..|r.delivered| + |f.payload|];
    if IsHalfClose(f) {
      PayloadsNone(up[1..]);
    }
  }

  lemma HubSkips(c: Client, h: Handler, r: Request, up: seq<Frame>, q: Request)
    requires RequestInv(c, h, r, up) && up != [] && !h.Idle?
    requires !r.writer.Writable? || up[0].kind != DATA
    requires q == r || q == CloseEntry(r)
    ensures RequestInv(c, h, q, up[1..])
  {
    PayloadsHead(up);
    UpRest(c, h, h, r, q, up);
  }

  /** The hub's read loop keeps the request direction: it takes the first frame under way. */
  lemma HubInputKeepsRequest(c: Client, h: Handler, r: Request, up: seq<Frame>, accepted: nat)
    requires RequestInv(c, h, r, up) && up != []
    ensures RequestInv(c, HubInput(h, r, up[0], accepted).0, HubInput(h, r, up[0], accepted).1, up[1..])
  {
    if h.Idle? {
      HubOpens(c, r, up);
    } else if up[0].kind == DATA && r.writer.Writable? {
      HubTakesData(c, h, r, up, accepted);
    } else {
      HubSkips(c, h, r, up, HubInput(h, r, up[0], accepted).1);
    }
  }

  lemma HandlerStarts(env: Env, c: Client, h: Handler, p: Response, transit: seq<Frame>, held: bool)
    requires ResponseInv(env, c, Idle, p, transit, held)
    ensures ResponseInv(env, c, Requesting, p, transit, held)
  {
  }

  /** The hub's handler keeps the request direction. */
  lemma HubKeepsRequest(s: Stream, a: HubAction, up: seq<Frame>, step: HubStep)
    requires RequestInv(s.client, s.handler, s.req, up) && HubAct(s, a) == Some(step)
    ensures RequestInv(s.client, step.handler, step.req, up)
  {
  }

  /** The handler writes a frame that is not data. */
  lemma ResponseMarks(env: Env, c: Client, h: Handler, g: Handler, p: Response, f: Frame, transit: seq<Frame>,
      held: bool)
    requires ResponseInv(env, c, h, p, transit, held) && (h.Requesting? || h.Responding?)
    requires f.kind != DATA && (f.kind == CLOSE ==> p.produced == |p.content|)
    requires g.Responding? || g.Finished?
    requires Terminal(f) ==> g.Finished?
    ensures ResponseInv(env, c, g, p, transit + [f], held)
  {
    PayloadsConcat(transit, [f]);
    PayloadsOne(f);
    assert OnTheWay(p, transit + [f]) == OnTheWay(p, transit);
    assert forall i :: 0 <= i < |transit| ==> (transit + [f])[i] == transit[i];
  }

  lemma DownGrows(p: Response, n: nat, transit: seq<Frame>, f: Frame)
    requires DownShape(Responding, p, transit) && f.kind == DATA
    ensures DownShape(Responding, p.(produced := p.produced + n), transit + [f])
  {
    var all := transit + [f];
    assert forall i :: 0 <= i < |transit| ==> all[i] == transit[i];
    assert forall i :: 0 <= i < |all| ==> !Terminal(all[i]);
  }

  lemma SendingKeepsOrder(live: bool, p: Response, q: Response, n: nat, transit: seq<Frame>, f: Frame)
    requires p.produced + n <= |p.content| && q == p.(produced := p.produced + n)
    requires f.kind == DATA && f.payload == p.content[p.produced..q.produced]
    requires InOrder(live, p, OnTheWay(p, transit))
    ensures InOrder(live, q, OnTheWay(q, transit + [f]))
  {
    PayloadsSnoc(transit, f);
    Associative(p.received + Payloads(p.queue), Payloads(transit), f.payload);
    NextSlice(p.content, p.produced, n);
  }

  /** The handler writes the next piece of the answer. */
  lemma ResponseGrows(env: Env, c: Client, p: Response, n: nat, f: Frame, transit: seq<Frame>, held: bool)
    requires ResponseInv(env, c, Responding, p, transit, held) && p.produced + n <= |p.content|
    requires f.kind == DATA && f.payload == p.content[p.produced..p.produced + n]
    ensures ResponseInv(env, c, Responding, p.(produced := p.produced + n), transit + [f], held)
  {
    DownGrows(p, n, transit, f);
    SendingKeepsOrder(Live(c), p, p.(produced := p.produced + n), n, transit, f);
  }

  lemma ResponseStops(env: Env, c: Client, h: Handler, p: Response, transit: seq<Frame>, held: bool)
    requires ResponseInv(env, c, h, p, transit, held)
    ensures ResponseInv(env, c, Finished, p, transit, held)
  {
  }

  /** A frame the hub's handler writes that is not data. */
  lemma HubSays(s: Stream, a: HubAction, step: HubStep)
    requires HubAct(s, a) == Some(step)
    ensures step.out == [] ==> step.resp == s.resp && step.handler.Finished?
    ensures step.out != [] ==> |step.out| == 1 && (s.handler.Requesting? || s.handler.Responding?)
    ensures step.out != [] && !a.WriteData? ==>
      step.resp == s.resp && step.out[0].kind != DATA && (step.handler.Responding? || step.handler.Finished?)
    ensures step.out != [] && step.out[0].kind == CLOSE ==> s.resp.produced == |s.resp.content|
    ensures step.out != [] && Terminal(step.out[0]) ==> step.handler.Finished?
  {
  }

  /** The hub's handler keeps the response direction. */
  lemma HubKeepsResponse(env: Env, s: Stream, a: HubAction, transit: seq<Frame>, held: bool, step: HubStep)
    requires ResponseInv(env, s.client, s.handler, s.resp, transit, held) && HubAct(s, a) == Some(step)
    ensures ResponseInv(env, s.client, step.handler, step.resp, transit + step.out, held)
  {
    if a.WriteData? && step.out != [] {
      ResponseGrows(env, s.client, s.resp, a.n, step.out[0], transit, held);
    } else {
      HubSays(s, a, step);
      if step.out == [] {
        assert transit + step.out == transit;
        ResponseStops(env, s.client, s.handler, s.resp, transit, held);
      } else {
        assert step.out == [step.out[0]];
        ResponseMarks(env, s.client, s.handler, step.handler, s.resp, step.out[0], transit, held);
      }
    }
  }

  /** The router puts a frame in the stream's queue. */
  lemma QueuedKeeps(env: Env, c: Client, h: Handler, p: Response, q: Response, transit: seq<Frame>, held: bool)
    requires ResponseInv(env, c, h, p, transit, held) && transit != [] && transit[0].kind in {DATA, CLOSE, ERROR}
    requires |p.queue| < QUEUE_SIZE
    requires q ==
      p.(queue := p.queue + [transit[0]], registered := if Terminal(transit[0]) then false else p.registered)
    ensures ResponseInv(env, c, h, q, transit[1..], false)
  {
    DownQueued(h, p, q, transit);
    QueuingKeepsOrder(p, q, transit);
  }

  lemma QueuingKeepsOrder(p: Response, q: Response, transit: seq<Frame>)
    requires transit != [] && q.queue == p.queue + [transit[0]] && q.received == p.received
    ensures OnTheWay(q, transit[1..]) == OnTheWay(p, transit)
  {
    var bytes := if transit[0].kind == DATA then transit[0].payload else [];
    PayloadsSnoc(p.queue, transit[0]);
    PayloadsHead(transit);
    Shift(p.received, Payloads(p.queue), bytes, Payloads(transit[1..]));
  }

  lemma Shift<T>(a: seq<T>, b: seq<T>, c: seq<T>, d: seq<T>)
    ensures (a + (b + c)) + d == (a + b) + (c + d)
  {
  }

  lemma DownQueued(h: Handler, p: Response, q: Response, transit: seq<Frame>)
    requires DownShape(h, p, transit) && transit != [] && transit[0].kind in {DATA, CLOSE, ERROR}
    requires q.queue == p.queue + [transit[0]] && q.produced == p.produced && q.content == p.content
    ensures DownShape(h, q, transit[1..])
    ensures Terminal(transit[0]) ==> transit[1..] == [] && h.Finished?
  {
    DownRest(h, p, transit);
    assert forall i :: 0 <= i < |p.queue| ==> q.queue[i] == p.queue[i] && !Terminal(p.queue[i]);
  }

  lemma DownRest(h: Handler, p: Response, transit: seq<Frame>)
    requires DownShape(h, p, transit) && transit != []
    ensures DownShape(h, p, transit[1..])
    ensures Terminal(transit[0]) ==> transit[1..] == [] && h.Finished?
  {
    assert forall i :: 0 <= i < |transit| - 1 ==> transit[1..][i] == transit[i + 1];
  }

  /** The router gives up on a frame, or passes on one that is not for the queue. */
  lemma UnqueuedKeeps(env: Env, c: Client, h: Handler, p: Response, q: Response, transit: seq<Frame>, held: bool)
    requires ResponseInv(env, c, h, p, transit, held) && transit != []
    requires q == p.(registered := q.registered, closed := q.closed, headers := q.headers, lost := q.lost)
    requires transit[0].kind == DATA && Live(c) ==> q.lost
    requires q.lost ==> p.lost || (env.external && transit[0].kind == DATA && Live(c))
    requires (q.registered == p.registered && q.closed == p.closed) || (Terminal(transit[0]) && !q.registered)
    requires q.headers <= 1
    requires p.lost ==> q.lost
    ensures ResponseInv(env, c, h, q, transit[1..], false)
  {
    DownRest(h, p, transit);
    PayloadsHead(transit);
    if transit[0].kind != DATA {
      assert OnTheWay(q, transit[1..]) == OnTheWay(p, transit);
    }
  }

  /** A step of the router with the frame it holds: it delivers the frame, or it drops response
      bytes only when the tunnel was closed by somebody else. */
  lemma EnqueueKeeps(env: Env, c: Client, h: Handler, p: Response, transit: seq<Frame>, accept: bool, q: Response)
    requires EnvInv(env) && ResponseInv(env, c, h, p, transit, true)
    requires Enqueue(env, c, p, transit[0], accept) == Some(q)
    ensures ResponseInv(env, c, h, q, transit[1..], false)
  {
    var f := transit[0];
    if accept && (f.kind == DATA || Terminal(f)) {
      QueuedKeeps(env, c, h, p, q, transit, true);
    } else {
      UnqueuedKeeps(env, c, h, p, q, transit, true);
    }
  }

  /** A frame for a stream that is no longer in the table. */
  lemma UnroutedKeeps(env: Env, c: Client, h: Handler, p: Response, transit: seq<Frame>)
    requires ResponseInv(env, c, h, p, transit, false) && transit != [] && env.loopRunning && !p.registered
    ensures ResponseInv(env, c, h, Dropped(c, p, transit[0]), transit[1..], false)
  {
    UnqueuedKeeps(env, c, h, p, Dropped(c, p, transit[0]), transit, false);
  }

  /** The router takes the first frame under way off the tunnel. */
  lemma HoldingKeeps(env: Env, c: Client, h: Handler, p: Response, transit: seq<Frame>)
    requires ResponseInv(env, c, h, p, transit, false) && env.loopRunning && transit != []
    ensures ResponseInv(env, c, h, p, transit, true)
  {
  }

  /** The read loop stops, somebody raises the closed flag, or the table is cleared. */
  lemma ClosingKeeps(env: Env, later: Env, c: Client, h: Handler, p: Response, transit: seq<Frame>, held: bool)
    requires ResponseInv(env, c, h, p, transit, held)
    requires (later.loopRunning ==> env.loopRunning) && (held ==> later.loopRunning)
    requires env.external ==> later.external
    ensures ResponseInv(later, c, h, p, transit, held)
  {
  }

  lemma ClearedKeeps(env: Env, c: Client, h: Handler, p: Response, transit: seq<Frame>, held: bool)
    requires EnvInv(env) && env.closed && ResponseInv(env, c, h, p, transit, held)
    ensures ResponseInv(env, c, h, Cleared(p), transit, held)
  {
    assert OnTheWay(Cleared(p), transit) == OnTheWay(p, transit);
  }
}
