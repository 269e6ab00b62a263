/** The port relay tunnel: any number of HTTP streams sharing one connection. Each step is one
    access to a lock, a channel or the connection, at either end; the two wires carry encoded
    frames in order. */
module Tunnel {
  import Runs
  import opened Collections
  import opened Frame
  import opened RelayStream

  /** up and down are the two directions of the connection; held is the frame the registry's
      router has read and looked up, but not yet put in a stream's channel. */
  datatype State = State(env: Env, issued: nat, streams: map<u32, Stream>, up: seq<seq<byte>>, down: seq<seq<byte>>,
    held: Option<Frame>)

  /** Clear is registryTunnel.Close reaching one stream: the source empties its table first and
      then marks the streams one by one, so a marked stream can do all an unmarked one can. */
  datatype Action =
    | OpenStream(hasBody: bool, body: seq<byte>, content: seq<byte>)
    | ByClient(id: u32, act: ClientAction) | ByHub(id: u32, work: HubAction)
    | HubReads(accepted: nat) | Lookup | Route(accept: bool)
    | LoopEnds | CloseFlag | Clear(id: u32)

  function Start(): State {
    State(Env(true, false, false), 0, map[], [], [], None)
  }

  /** writeFrame. Frames too large for the codec count among the failed writes of the streams. */
  function Send(wire: seq<seq<byte>>, out: seq<Frame>): seq<seq<byte>> {
    if out == [] || Encode(out[0]).Err? then wire else wire + [Encode(out[0]).value]
  }

  function Open(st: State, hasBody: bool, body: seq<byte>, content: seq<byte>): Option<State> {
    if st.issued + 1 >= 0x1_0000_0000 then None
    else
      var id := (st.issued + 1) as u32;
      Some(st.(issued := st.issued + 1, streams := st.streams[id := NewStream(id, hasBody, body, content)]))
  }

  function ClientNext(st: State, id: u32, a: ClientAction): Option<State> {
    if id !in st.streams then None
    else
      var s := st.streams[id];
      match ClientAct(st.env, s, a)
      case None => None
      case Some(step) =>
        Some(st.(streams := st.streams[id := s.(client := step.client, req := step.req, resp := step.resp)],
          up := Send(st.up, step.out)))
  }

  function HubNext(st: State, id: u32, a: HubAction): Option<State> {
    if id !in st.streams then None
    else
      var s := st.streams[id];
      match HubAct(s, a)
      case None => None
      case Some(step) =>
        Some(st.(streams := st.streams[id := s.(handler := step.handler, req := step.req, resp := step.resp)],
          down := Send(st.down, step.out)))
  }

  /** The hub's readLoop. */
  function HubReadsNext(st: State, accepted: nat): Option<State> {
    if st.up == [] then None
    else
      match Decode(st.up[0])
      case Err(_) => None
      case Ok(f) =>
        if f.stream !in st.streams then Some(st.(up := st.up[1..]))
        else
          var s := st.streams[f.stream];
          var (h, r) := HubInput(s.handler, s.req, f, accepted);
          Some(st.(streams := st.streams[f.stream := s.(handler := h, req := r)], up := st.up[1..]))
  }

  /** The registry's readLoop and the first half of route. */
  function LookupNext(st: State): Option<State> {
    if !st.env.loopRunning || st.held.Some? || st.down == [] then None
    else
      match Decode(st.down[0])
      case Err(_) => None
      case Ok(f) =>
        if f.stream !in st.streams then Some(st.(down := st.down[1..]))
        else
          var s := st.streams[f.stream];
          if s.resp.registered then Some(st.(down := st.down[1..], held := Some(f)))
          else
            Some(st.(down := st.down[1..], streams := st.streams[f.stream := s.(resp := Dropped(s.client, s.resp, f))]))
  }

  /** The second half of route. */
  function RouteNext(st: State, accept: bool): Option<State> {
    if st.held.None? || st.held.value.stream !in st.streams then None
    else
      var f := st.held.value;
      var s := st.streams[f.stream];
      match Enqueue(st.env, s.client, s.resp, f, accept)
      case None => None
      case Some(p) => Some(st.(held := None, streams := st.streams[f.stream := s.(resp := p)]))
  }

  function ClearNext(st: State, id: u32): Option<State> {
    if !st.env.closed || id !in st.streams then None
    else
      var s := st.streams[id];
      Some(st.(streams := st.streams[id := s.(resp := Cleared(s.resp))]))
  }

  /** LoopEnds is the read loop returning; CloseFlag is the start of registryTunnel.Close, by the
      read loop once it has returned or by anybody else. */
  function Next(st: State, a: Action): Option<State> {
    match a
    case OpenStream(hasBody, body, content) => Open(st, hasBody, body, content)
    case ByClient(id, act) => ClientNext(st, id, act)
    case ByHub(id, work) => HubNext(st, id, work)
    case HubReads(accepted) => HubReadsNext(st, accepted)
    case Lookup => LookupNext(st)
    case Route(accept) => RouteNext(st, accept)
    case LoopEnds => if st.held.Some? then None else Some(st.(env := st.env.(loopRunning := false)))
    case CloseFlag =>
      Some(st.(env := st.env.(closed := true, external := st.env.external || st.env.loopRunning)))
    case Clear(id) => ClearNext(st, id)
  }

  /** A run: every action must be possible when its turn comes. */
  function Run(st: State, actions: seq<Action>): Option<State> {
    Runs.After(Next, st, actions)
  }
}

module TunnelSafety {
  import opened Collections
  import opened Frame
  import opened RelayStream
  import opened RelayStreamSafety
  import opened Tunnel

  function Part(id: u32, message: seq<byte>): seq<Frame> {
    match Decode(message)
    case Err(_) => []
    case Ok(f) => if f.stream == id then [f] else []
  }

  /** All the parts of a wire, in order. */
  function Parts(part: seq<byte> -> seq<Frame>, wire: seq<seq<byte>>): seq<Frame> {
    if wire == [] then [] else Parts(part, wire[..|wire| - 1]) + part(wire[|wire| - 1])
  }

  lemma PartsSnoc(part: seq<byte> -> seq<Frame>, wire: seq<seq<byte>>, message: seq<byte>)
    ensures Parts(part, wire + [message]) == Parts(part, wire) + part(message)
  {
    assert (wire + [message])[..|wire|] == wire;
  }

  lemma {:induction false} PartsHead(part: seq<byte> -> seq<Frame>, wire: seq<seq<byte>>)
    requires wire != []
    ensures Parts(part, wire) == part(wire[0]) + Parts(part, wire[1..])
  {
    var n := |wire| - 1;
    if n == 0 {
      assert wire == [] + [wire[0]] && wire[1..] == [];
      PartsSnoc(part, [], wire[0]);
    } else {
      var front, last := wire[..n], wire[n];
      PartsHead(part, front);
      PartsSnoc(part, front, last);
      PartsSnoc(part, front[1..], last);
      assert wire == front + [last] && wire[1..] == front[1..] + [last] && wire[0] == front[0];
      Associative(part(front[0]), Parts(part, front[1..]), part(last));
    }
  }

  lemma {:induction false} PartsNone(part: seq<byte> -> seq<Frame>, wire: seq<seq<byte>>)
    requires forall i :: 0 <= i < |wire| ==> part(wire[i]) == []
    ensures Parts(part, wire) == []
  {
    if wire != [] {
      PartsNone(part, wire[..|wire| - 1]);
    }
  }

  /** The frames of one stream among the messages of a wire. */
  function Lane(id: u32, wire: seq<seq<byte>>): seq<Frame> {
    Parts(m => Part(id, m), wire)
  }

  lemma LaneSnoc(id: u32, wire: seq<seq<byte>>, message: seq<byte>)
    ensures Lane(id, wire + [message]) == Lane(id, wire) + Part(id, message)
  {
    PartsSnoc(m => Part(id, m), wire, message);
  }

  lemma LaneHead(id: u32, wire: seq<seq<byte>>)
    requires wire != []
    ensures Lane(id, wire) == Part(id, wire[0]) + Lane(id, wire[1..])
  {
    PartsHead(m => Part(id, m), wire);
  }

  function HeldPart(id: u32, held: Option<Frame>): seq<Frame> {
    if held.Some? && held.value.stream == id then [held.value] else []
  }

  function Transit(id: u32, held: Option<Frame>, down: seq<seq<byte>>): seq<Frame> {
    HeldPart(id, held) + Lane(id, down)
  }

  predicate Holding(id: u32, held: Option<Frame>) {
    held.Some? && held.value.stream == id
  }

  /** Every message is the encoding of a frame of a stream that was opened. */
  ghost predicate Known(issued: nat, wire: seq<seq<byte>>) {
    forall i :: 0 <= i < |wire| ==> Decode(wire[i]).Ok? && Decode(wire[i]).value.stream as int <= issued
  }

  lemma LaneUnknown(id: u32, issued: nat, wire: seq<seq<byte>>)
    requires Known(issued, wire) && id as int > issued
    ensures Lane(id, wire) == []
  {
    PartsNone(m => Part(id, m), wire);
  }

  type LocalInv = (Env, Stream, seq<Frame>, seq<Frame>, bool) -> bool

  /** An invariant of a single stream, read off the state of the tunnel. */
  ghost predicate Local(inv: LocalInv, st: State, id: u32)
    requires id in st.streams
  {
    inv(st.env, st.streams[id], Lane(id, st.up), Transit(id, st.held, st.down), Holding(id, st.held))
  }

  ghost predicate AllLocal(inv: LocalInv, st: State) {
    forall id {:trigger st.streams[id]} :: id in st.streams ==> Local(inv, st, id)
  }

  ghost predicate WiresInv(st: State) {
    && EnvInv(st.env)
    && (st.held.Some? ==> st.env.loopRunning && st.held.value.stream as int <= st.issued)
    && (forall id {:trigger st.streams[id]} :: id in st.streams ==>
      st.streams[id].id == id && 1 <= id as int <= st.issued)
    && Known(st.issued, st.up) && Known(st.issued, st.down)
  }

  ghost predicate TunnelInv(st: State) {
    WiresInv(st) && AllLocal(Inv, st)
  }

  function AfterClient(s: Stream, step: ClientStep): Stream {
    s.(client := step.client, req := step.req, resp := step.resp)
  }

  function AfterHub(s: Stream, step: HubStep): Stream {
    s.(handler := step.handler, req := step.req, resp := step.resp)
  }

  function AfterInput(s: Stream, f: Frame, accepted: nat): Stream {
    var (h, r) := HubInput(s.handler, s.req, f, accepted);
    s.(handler := h, req := r)
  }

  ghost predicate HoldsOfNew(inv: LocalInv) {
    forall env, id, hasBody, body, content :: inv(env, NewStream(id, hasBody, body, content), [], [], false)
  }

  ghost predicate ClientKeepsIt(inv: LocalInv) {
    forall env, s, a, up, transit, held :: inv(env, s, up, transit, held) && ClientAct(env, s, a).Some? ==>
      inv(env, AfterClient(s, ClientAct(env, s, a).value), up + ClientAct(env, s, a).value.out, transit, held)
  }

  ghost predicate HubKeepsIt(inv: LocalInv) {
    forall env, s, a, up, transit, held :: inv(env, s, up, transit, held) && HubAct(s, a).Some? ==>
      inv(env, AfterHub(s, HubAct(s, a).value), up, transit + HubAct(s, a).value.out, held)
  }

  ghost predicate HubInputKeepsIt(inv: LocalInv) {
    forall env, s, f, accepted, rest, transit, held
        {:trigger inv(env, s, [f] + rest, transit, held), AfterInput(s, f, accepted)} ::
      inv(env, s, [f] + rest, transit, held) ==> inv(env, AfterInput(s, f, accepted), rest, transit, held)
  }

  ghost predicate Looked(inv: LocalInv, env: Env, s: Stream, up: seq<Frame>, f: Frame, rest: seq<Frame>) {
    if s.resp.registered then inv(env, s, up, [f] + rest, true)
    else inv(env, s.(resp := Dropped(s.client, s.resp, f)), up, rest, false)
  }

  ghost predicate LookupKeepsIt(inv: LocalInv) {
    forall env: Env, s: Stream, up, f, rest {:trigger inv(env, s, up, [f] + rest, false)} ::
      inv(env, s, up, [f] + rest, false) && env.loopRunning ==> Looked(inv, env, s, up, f, rest)
  }

  ghost predicate RouteKeepsIt(inv: LocalInv) {
    forall env, s: Stream, up, f, rest, accept
      {:trigger inv(env, s, up, [f] + rest, true), Enqueue(env, s.client, s.resp, f, accept)} ::
      EnvInv(env) && inv(env, s, up, [f] + rest, true) && Enqueue(env, s.client, s.resp, f, accept).Some? ==>
        inv(env, s.(resp := Enqueue(env, s.client, s.resp, f, accept).value), up, rest, false)
  }

  predicate Later(env: Env, later: Env, held: bool) {
    (later.loopRunning ==> env.loopRunning) && (held ==> later.loopRunning) && (env.external ==> later.external)
  }

  ghost predicate ClosingKeepsIt(inv: LocalInv) {
    forall env, later, s, up, transit, held :: inv(env, s, up, transit, held) && Later(env, later, held) ==>
      inv(later, s, up, transit, held)
  }

  ghost predicate ClearingKeepsIt(inv: LocalInv) {
    forall env: Env, s: Stream, up, transit, held :: EnvInv(env) && env.closed && inv(env, s, up, transit, held) ==>
      inv(env, s.(resp := Cleared(s.resp)), up, transit, held)
  }

  ghost predicate KeptByStreams(inv: LocalInv) {
    && HoldsOfNew(inv) && ClientKeepsIt(inv) && HubKeepsIt(inv) && HubInputKeepsIt(inv)
    && LookupKeepsIt(inv) && RouteKeepsIt(inv) && ClosingKeepsIt(inv) && ClearingKeepsIt(inv)
  }

  /** What a user of the tunnel sees of one stream. */
  ghost predicate Safe(env: Env, s: Stream) {
    && s.req.delivered <= s.req.body
    && (s.req.pipe.CleanEnd? ==> s.req.delivered == s.req.body)
    && (!s.resp.lost ==> s.resp.received <= s.resp.content)
    && (!s.resp.lost && s.resp.sawClose ==> s.resp.received == s.resp.content)
    && (s.resp.lost ==> env.external)
    && (s.client.Ended? ==> !s.resp.registered)
    && |s.resp.queue| <= 32 && s.resp.headers <= 1
  }

  /** Frames of at most one chunk and little metadata always fit. */
  predicate Own(id: u32, out: seq<Frame>) {
    out == [] || (|out| == 1 && out[0].stream == id && Fits(out[0]))
  }

  lemma SendLane(id: u32, owner: u32, wire: seq<seq<byte>>, out: seq<Frame>)
    requires Own(owner, out)
    ensures Lane(id, Send(wire, out)) == Lane(id, wire) + if id == owner then out else []
  {
    if out == [] {
    } else {
      DecodeEncode(out[0]);
      LaneSnoc(id, wire, Encode(out[0]).value);
    }
  }

  lemma SendLanes(owner: u32, wire: seq<seq<byte>>, out: seq<Frame>, after: seq<seq<byte>>)
    requires Own(owner, out) && after == Send(wire, out)
    ensures Lane(owner, after) == Lane(owner, wire) + out
    ensures forall k :: k != owner ==> Lane(k, after) == Lane(k, wire)
  {
    forall k: u32 ensures Lane(k, after) == Lane(k, wire) + if k == owner then out else [] {
      SendLane(k, owner, wire, out);
    }
  }

  lemma SendKnown(issued: nat, owner: u32, wire: seq<seq<byte>>, out: seq<Frame>)
    requires Own(owner, out) && Known(issued, wire) && owner as int <= issued
    ensures Known(issued, Send(wire, out))
  {
    if out != [] {
      DecodeEncode(out[0]);
    }
  }

  lemma ClientOwns(env: Env, s: Stream, a: ClientAction, step: ClientStep)
    requires ClientAct(env, s, a) == Some(step)
    ensures Own(s.id, step.out)
  {
  }

  lemma HubOwns(s: Stream, a: HubAction, step: HubStep)
    requires HubAct(s, a) == Some(step)
    ensures Own(s.id, step.out)
  {
  }

  /** The wires hold the same frames of stream k before and after. */
  ghost predicate SameLanes(st: State, next: State, k: u32) {
    && Lane(k, next.up) == Lane(k, st.up)
    && Transit(k, next.held, next.down) == Transit(k, st.held, st.down)
    && Holding(k, next.held) == Holding(k, st.held)
  }

  /** A step of one stream leaves every other stream as it was. */
  lemma OneStreamSteps(inv: LocalInv, st: State, next: State, id: u32)
    requires AllLocal(inv, st) && next.env == st.env
    requires id in next.streams && next.streams == st.streams[id := next.streams[id]]
    requires Local(inv, next, id) && forall k :: k != id ==> SameLanes(st, next, k)
    ensures AllLocal(inv, next)
  {
    forall k | k in next.streams
      ensures Local(inv, next, k)
    {
      if k != id {
        assert SameLanes(st, next, k) && Local(inv, st, k) && next.streams[k] == st.streams[k];
      }
    }
  }

  lemma OpenWires(st: State, hasBody: bool, body: seq<byte>, content: seq<byte>, next: State)
    requires WiresInv(st) && Open(st, hasBody, body, content) == Some(next)
    ensures WiresInv(next) && next.issued < 0x1_0000_0000
    ensures Lane(next.issued as u32, next.up) == [] && Transit(next.issued as u32, next.held, next.down) == []
    ensures !Holding(next.issued as u32, next.held)
    ensures forall k :: SameLanes(st, next, k)
  {
    LaneUnknown(next.issued as u32, st.issued, st.up);
    LaneUnknown(next.issued as u32, st.issued, st.down);
    assert next.streams.Keys == st.streams.Keys + {next.issued as u32};
  }

  lemma OpenKeeps(inv: LocalInv, st: State, hasBody: bool, body: seq<byte>, content: seq<byte>, next: State)
    requires WiresInv(st) && AllLocal(inv, st) && Open(st, hasBody, body, content) == Some(next)
    requires HoldsOfNew(inv)
    ensures WiresInv(next) && AllLocal(inv, next)
  {
    OpenWires(st, hasBody, body, content, next);
    assert Local(inv, next, next.issued as u32);
    OneStreamSteps(inv, st, next, next.issued as u32);
  }

  lemma ClientWires(st: State, id: u32, a: ClientAction, step: ClientStep, next: State)
    requires WiresInv(st) && id in st.streams && ClientAct(st.env, st.streams[id], a) == Some(step)
    requires ClientNext(st, id, a) == Some(next)
    ensures WiresInv(next) && Lane(id, next.up) == Lane(id, st.up) + step.out
    ensures forall k :: k != id ==> SameLanes(st, next, k)
  {
    ClientOwns(st.env, st.streams[id], a, step);
    SendKnown(st.issued, id, st.up, step.out);
    SendLanes(id, st.up, step.out, next.up);
  }

  lemma ClientKeeps(inv: LocalInv, st: State, id: u32, a: ClientAction, next: State)
    requires WiresInv(st) && AllLocal(inv, st) && ClientNext(st, id, a) == Some(next)
    requires ClientKeepsIt(inv)
    ensures WiresInv(next) && AllLocal(inv, next)
  {
    var step := ClientAct(st.env, st.streams[id], a).value;
    ClientWires(st, id, a, step, next);
    assert Local(inv, st, id) && next.streams[id] == AfterClient(st.streams[id], step);
    assert Local(inv, next, id);
    OneStreamSteps(inv, st, next, id);
  }

  lemma HubWires(st: State, id: u32, a: HubAction, step: HubStep, next: State)
    requires WiresInv(st) && id in st.streams && HubAct(st.streams[id], a) == Some(step)
    requires HubNext(st, id, a) == Some(next)
    ensures WiresInv(next) && Transit(id, next.held, next.down) == Transit(id, st.held, st.down) + step.out
    ensures forall k :: k != id ==> SameLanes(st, next, k)
  {
    HubOwns(st.streams[id], a, step);
    SendKnown(st.issued, id, st.down, step.out);
    SendLanes(id, st.down, step.out, next.down);
    Associative(HeldPart(id, st.held), Lane(id, st.down), step.out);
  }

  lemma HubKeeps(inv: LocalInv, st: State, id: u32, a: HubAction, next: State)
    requires WiresInv(st) && AllLocal(inv, st) && HubNext(st, id, a) == Some(next)
    requires HubKeepsIt(inv)
    ensures WiresInv(next) && AllLocal(inv, next)
  {
    var step := HubAct(st.streams[id], a).value;
    HubWires(st, id, a, step, next);
    assert Local(inv, st, id) && next.streams[id] == AfterHub(st.streams[id], step);
    assert Local(inv, next, id);
    OneStreamSteps(inv, st, next, id);
  }

  lemma KnownRest(issued: nat, wire: seq<seq<byte>>)
    requires Known(issued, wire) && wire != []
    ensures Known(issued, wire[1..])
  {
    assert forall i :: 0 <= i < |wire| - 1 ==> wire[1..][i] == wire[i + 1];
  }

  lemma LaneTaken(wire: seq<seq<byte>>, f: Frame)
    requires wire != [] && Decode(wire[0]) == Ok(f)
    ensures Lane(f.stream, wire) == [f] + Lane(f.stream, wire[1..])
    ensures forall k :: k != f.stream ==> Lane(k, wire) == Lane(k, wire[1..])
  {
    forall k: u32 ensures Lane(k, wire) == Part(k, wire[0]) + Lane(k, wire[1..]) {
      LaneHead(k, wire);
    }
  }

  lemma HubReadsWires(st: State, accepted: nat, f: Frame, next: State)
    requires WiresInv(st) && HubReadsNext(st, accepted) == Some(next) && Decode(st.up[0]) == Ok(f)
    ensures WiresInv(next) && Lane(f.stream, st.up) == [f] + Lane(f.stream, next.up)
    ensures forall k :: k != f.stream ==> SameLanes(st, next, k)
  {
    KnownRest(st.issued, st.up);
    LaneTaken(st.up, f);
  }

  lemma HubReadsKeeps(inv: LocalInv, st: State, accepted: nat, next: State)
    requires WiresInv(st) && AllLocal(inv, st) && HubReadsNext(st, accepted) == Some(next)
    requires HubInputKeepsIt(inv)
    ensures WiresInv(next) && AllLocal(inv, next)
  {
    var f := Decode(st.up[0]).value;
    HubReadsWires(st, accepted, f, next);
    if f.stream in st.streams {
      assert Local(inv, st, f.stream) && next.streams[f.stream] == AfterInput(st.streams[f.stream], f, accepted);
      assert Local(inv, next, f.stream);
      OneStreamSteps(inv, st, next, f.stream);
    } else {
      NoStreamSteps(inv, st, next, f.stream);
    }
  }

  /** A message for no stream is thrown away. */
  lemma NoStreamSteps(inv: LocalInv, st: State, next: State, id: u32)
    requires AllLocal(inv, st) && next.env == st.env
    requires id !in st.streams && next.streams == st.streams && forall k :: k != id ==> SameLanes(st, next, k)
    ensures AllLocal(inv, next)
  {
    forall k | k in next.streams
      ensures Local(inv, next, k)
    {
      assert SameLanes(st, next, k) && Local(inv, st, k);
    }
  }

  lemma LookupWires(st: State, f: Frame, next: State)
    requires WiresInv(st) && LookupNext(st) == Some(next) && Decode(st.down[0]) == Ok(f)
    ensures WiresInv(next) && forall k :: k != f.stream ==> SameLanes(st, next, k)
    ensures Transit(f.stream, st.held, st.down) == [f] + Lane(f.stream, next.down) && !Holding(f.stream, st.held)
    ensures Transit(f.stream, next.held, next.down) ==
      (if Holding(f.stream, next.held) then [f] else []) + Lane(f.stream, next.down)
  {
    KnownRest(st.issued, st.down);
    LaneTaken(st.down, f);
  }

  lemma LookupKeeps(inv: LocalInv, st: State, next: State)
    requires WiresInv(st) && AllLocal(inv, st) && LookupNext(st) == Some(next)
    requires LookupKeepsIt(inv)
    ensures WiresInv(next) && AllLocal(inv, next)
  {
    var f := Decode(st.down[0]).value;
    LookupWires(st, f, next);
    if f.stream in st.streams {
      assert Local(inv, st, f.stream);
      assert [] + Lane(f.stream, next.down) == Lane(f.stream, next.down);
      assert Local(inv, next, f.stream);
      OneStreamSteps(inv, st, next, f.stream);
    } else {
      NoStreamSteps(inv, st, next, f.stream);
    }
  }

  lemma RouteWires(st: State, accept: bool, f: Frame, next: State)
    requires WiresInv(st) && RouteNext(st, accept) == Some(next) && st.held == Some(f)
    ensures WiresInv(next) && forall k :: k != f.stream ==> SameLanes(st, next, k)
    ensures Transit(f.stream, st.held, st.down) == [f] + Lane(f.stream, st.down)
    ensures Transit(f.stream, next.held, next.down) == Lane(f.stream, st.down)
  {
  }

  lemma RouteKeeps(inv: LocalInv, st: State, accept: bool, next: State)
    requires WiresInv(st) && AllLocal(inv, st) && RouteNext(st, accept) == Some(next)
    requires RouteKeepsIt(inv)
    ensures WiresInv(next) && AllLocal(inv, next)
  {
    var f := st.held.value;
    RouteWires(st, accept, f, next);
    assert Local(inv, st, f.stream);
    assert Local(inv, next, f.stream);
    OneStreamSteps(inv, st, next, f.stream);
  }

  lemma EnvKeeps(inv: LocalInv, st: State, a: Action, next: State)
    requires WiresInv(st) && AllLocal(inv, st) && Next(st, a) == Some(next) && (a.LoopEnds? || a.CloseFlag?)
    requires ClosingKeepsIt(inv)
    ensures WiresInv(next) && AllLocal(inv, next)
  {
    forall k | k in next.streams
      ensures Local(inv, next, k)
    {
      assert Local(inv, st, k) && Later(st.env, next.env, Holding(k, st.held));
    }
  }

  lemma ClearKeeps(inv: LocalInv, st: State, id: u32, next: State)
    requires WiresInv(st) && AllLocal(inv, st) && ClearNext(st, id) == Some(next)
    requires ClearingKeepsIt(inv)
    ensures WiresInv(next) && AllLocal(inv, next)
  {
    assert Local(inv, st, id);
    assert Local(inv, next, id);
    OneStreamSteps(inv, st, next, id);
  }

  /** What every single stream keeps in each of its own steps, the whole tunnel keeps. */
  lemma StepKeepsIt(inv: LocalInv, st: State, a: Action, next: State)
    requires WiresInv(st) && AllLocal(inv, st) && KeptByStreams(inv) && Next(st, a) == Some(next)
    ensures WiresInv(next) && AllLocal(inv, next)
  {
    match a
    case OpenStream(hasBody, body, content) => OpenKeeps(inv, st, hasBody, body, content, next);
    case ByClient(id, act) => ClientKeeps(inv, st, id, act, next);
    case ByHub(id, work) => HubKeeps(inv, st, id, work, next);
    case HubReads(accepted) => HubReadsKeeps(inv, st, accepted, next);
    case Lookup => LookupKeeps(inv, st, next);
    case Route(accept) => RouteKeeps(inv, st, accept, next);
    case LoopEnds => EnvKeeps(inv, st, a, next);
    case CloseFlag => EnvKeeps(inv, st, a, next);
    case Clear(id) => ClearKeeps(inv, st, id, next);
  }

  lemma InvOfNew()
    ensures HoldsOfNew(Inv)
  {
    forall env, id, hasBody, body, content ensures Inv(env, NewStream(id, hasBody, body, content), [], [], false) {
      NewStreamInv(env, id, hasBody, body, content);
    }
  }

  lemma InvKeptByClient()
    ensures ClientKeepsIt(Inv)
  {
    forall env, s, a, up, transit, held | Inv(env, s, up, transit, held) && ClientAct(env, s, a).Some?
      ensures Inv(env, AfterClient(s, ClientAct(env, s, a).value), up + ClientAct(env, s, a).value.out, transit, held)
    {
      ClientKeepsRequest(env, s, a, up, ClientAct(env, s, a).value);
      ClientKeepsResponse(env, s, a, transit, held, ClientAct(env, s, a).value);
    }
  }

  lemma InvKeptByHub()
    ensures HubKeepsIt(Inv)
  {
    forall env, s, a, up, transit, held | Inv(env, s, up, transit, held) && HubAct(s, a).Some?
      ensures Inv(env, AfterHub(s, HubAct(s, a).value), up, transit + HubAct(s, a).value.out, held)
    {
      HubKeepsRequest(s, a, up, HubAct(s, a).value);
      HubKeepsResponse(env, s, a, transit, held, HubAct(s, a).value);
    }
  }

  lemma InvKeptByInput()
    ensures HubInputKeepsIt(Inv)
  {
    forall env, s, f, accepted, rest, transit, held | Inv(env, s, [f] + rest, transit, held)
      ensures Inv(env, AfterInput(s, f, accepted), rest, transit, held)
    {
      InputKeepsInv(env, s, f, accepted, rest, transit, held);
    }
  }

  /** The hub's read loop starts the handler, or leaves the response direction alone. */
  lemma InputKeepsInv(env: Env, s: Stream, f: Frame, accepted: nat, rest: seq<Frame>, transit: seq<Frame>, held: bool)
    requires Inv(env, s, [f] + rest, transit, held)
    ensures Inv(env, AfterInput(s, f, accepted), rest, transit, held)
  {
    assert ([f] + rest)[1..] == rest;
    HubInputKeepsRequest(s.client, s.handler, s.req, [f] + rest, accepted);
    if s.handler.Idle? && f.kind == OPEN {
      HandlerStarts(env, s.client, s.handler, s.resp, transit, held);
    }
  }

  lemma InvKeptByLookup()
    ensures LookupKeepsIt(Inv)
  {
    forall env: Env, s: Stream, up, f, rest | Inv(env, s, up, [f] + rest, false) && env.loopRunning
      ensures Looked(Inv, env, s, up, f, rest)
    {
      var transit := [f] + rest;
      assert transit[1..] == rest;
      if s.resp.registered {
        HoldingKeeps(env, s.client, s.handler, s.resp, transit);
      } else {
        UnroutedKeeps(env, s.client, s.handler, s.resp, transit);
      }
    }
  }

  lemma InvKeptByRoute()
    ensures RouteKeepsIt(Inv)
  {
    forall env, s, up, f, rest, accept |
      EnvInv(env) && Inv(env, s, up, [f] + rest, true) && Enqueue(env, s.client, s.resp, f, accept).Some?
      ensures Inv(env, s.(resp := Enqueue(env, s.client, s.resp, f, accept).value), up, rest, false)
    {
      assert ([f] + rest)[1..] == rest;
      EnqueueKeeps(env, s.client, s.handler, s.resp, [f] + rest, accept,
        Enqueue(env, s.client, s.resp, f, accept).value);
    }
  }

  lemma InvKeptByClosing()
    ensures ClosingKeepsIt(Inv) && ClearingKeepsIt(Inv)
  {
    forall env, later, s, up, transit, held | Inv(env, s, up, transit, held) && Later(env, later, held)
      ensures Inv(later, s, up, transit, held)
    {
      ClosingKeeps(env, later, s.client, s.handler, s.resp, transit, held);
    }
    forall env: Env, s, up, transit, held | EnvInv(env) && env.closed && Inv(env, s, up, transit, held)
      ensures Inv(env, s.(resp := Cleared(s.resp)), up, transit, held)
    {
      ClearedKeeps(env, s.client, s.handler, s.resp, transit, held);
    }
  }

  /** Every step keeps the invariant. */
  lemma StepKeeps(st: State, a: Action, next: State)
    requires TunnelInv(st) && Next(st, a) == Some(next)
    ensures TunnelInv(next)
  {
    InvOfNew();
    InvKeptByClient();
    InvKeptByHub();
    InvKeptByInput();
    InvKeptByLookup();
    InvKeptByRoute();
    InvKeptByClosing();
    StepKeepsIt(Inv, st, a, next);
  }

  lemma {:induction false} RunKeeps(st: State, actions: seq<Action>, end: State)
    requires TunnelInv(st) && Run(st, actions) == Some(end)
    ensures TunnelInv(end)
    decreases |actions|
  {
    if actions != [] {
      var next := Next(st, actions[0]).value;
      StepKeeps(st, actions[0], next);
      RunKeeps(next, actions[1..], end);
    }
  }

  lemma InvIsSafe(env: Env, s: Stream, up: seq<Frame>, transit: seq<Frame>, held: bool)
    requires Inv(env, s, up, transit, held)
    ensures Safe(env, s)
  {
  }

  /** In every run, whatever the streams, the hub and the router do and in whatever order:
      the target is handed a prefix of its own client's body, and all of it when the body ends
      cleanly; the client receives a prefix of its own target's answer, and all of it once it
      read the hub's own Close; only a tunnel closed from outside its read loop can lose bytes. */
  lemma RunIsSafe(actions: seq<Action>, end: State, id: u32)
    requires Run(Start(), actions) == Some(end) && id in end.streams
    ensures Safe(end.env, end.streams[id])
  {
    RunKeeps(Start(), actions, end);
    assert Local(Inv, end, id);
    InvIsSafe(end.env, end.streams[id], Lane(id, end.up), Transit(id, end.held, end.down), Holding(id, end.held));
  }

  /** A stream never takes over the body or the answer of another. */
  ghost predicate SameBodies(st: State, next: State) {
    && st.issued <= next.issued
    && forall id :: id in st.streams ==> (
        && id in next.streams
        && next.streams[id].req.body == st.streams[id].req.body
        && next.streams[id].resp.content == st.streams[id].resp.content)
  }

  predicate SameTexts(s: Stream, r: Request, p: Response) {
    r.body == s.req.body && p.content == s.resp.content
  }

  lemma ClientKeepsTexts(env: Env, s: Stream, a: ClientAction)
    ensures ClientAct(env, s, a).Some? ==> SameTexts(s, ClientAct(env, s, a).value.req, ClientAct(env, s, a).value.resp)
  {
  }

  lemma HubKeepsTexts(s: Stream, w: HubAction)
    ensures HubAct(s, w).Some? ==> SameTexts(s, HubAct(s, w).value.req, HubAct(s, w).value.resp)
  {
  }

  lemma HubReadsKeepsTexts(st: State, accepted: nat, next: State)
    requires HubReadsNext(st, accepted) == Some(next)
    ensures SameBodies(st, next)
  {
  }

  lemma LookupKeepsTexts(st: State, next: State)
    requires LookupNext(st) == Some(next)
    ensures SameBodies(st, next)
  {
  }

  lemma RouteKeepsTexts(st: State, accept: bool, next: State)
    requires RouteNext(st, accept) == Some(next)
    ensures SameBodies(st, next)
  {
  }

  lemma StepKeepsBodies(st: State, a: Action, next: State)
    requires WiresInv(st) && Next(st, a) == Some(next)
    ensures SameBodies(st, next)
  {
    if a.ByClient? {
      ClientKeepsTexts(st.env, st.streams[a.id], a.act);
    } else if a.ByHub? {
      HubKeepsTexts(st.streams[a.id], a.work);
    } else if a.HubReads? {
      HubReadsKeepsTexts(st, a.accepted, next);
    } else if a.Lookup? {
      LookupKeepsTexts(st, next);
    } else if a.Route? {
      RouteKeepsTexts(st, a.accept, next);
    }
  }

  lemma {:induction false} RunKeepsBodies(st: State, actions: seq<Action>, end: State)
    requires TunnelInv(st) && Run(st, actions) == Some(end)
    ensures SameBodies(st, end)
    decreases |actions|
  {
    if actions != [] {
      var next := Next(st, actions[0]).value;
      StepKeepsBodies(st, actions[0], next);
      StepKeeps(st, actions[0], next);
      RunKeepsBodies(next, actions[1..], end);
    }
  }
}
