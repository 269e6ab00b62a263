/** What a client can receive at worst: its target's answer with parts left out. */
module TunnelLosses {
  import opened Collections
  import opened Subsequences
  import opened Frame
  import opened RelayStream
  import opened RelayStreamSafety
  import opened Tunnel
  import opened TunnelSafety

  /** All that was received, is queued or is under way is what the hub sent, with parts left out. */
  ghost predicate Drawn(env: Env, s: Stream, up: seq<Frame>, transit: seq<Frame>, held: bool) {
    DrawnFrom(s.resp, OnTheWay(s.resp, transit))
  }

  ghost predicate DrawnFrom(p: Response, way: seq<byte>) {
    p.produced <= |p.content| && Subsequence(way, p.content[..p.produced])
  }

  lemma StillDrawn(p: Response, way: seq<byte>, q: Response, less: seq<byte>)
    requires DrawnFrom(p, way) && q.produced == p.produced && q.content == p.content && Subsequence(less, way)
    ensures DrawnFrom(q, less)
  {
    SubsequenceTransitive(less, way, p.content[..p.produced]);
  }

  /** Taking a frame off the queue, and giving its first bytes to the client. */
  lemma TakingDraws(p: Response, q: Response, taken: seq<byte>, transit: seq<Frame>)
    requires p.queue != [] && q.queue == p.queue[1..] && q.received == p.received + taken
    requires taken <= if p.queue[0].kind == DATA then p.queue[0].payload else []
    ensures Subsequence(OnTheWay(q, transit), OnTheWay(p, transit))
  {
    var whole := if p.queue[0].kind == DATA then p.queue[0].payload else [];
    var rest := Payloads(q.queue) + Payloads(transit);
    PayloadsHead(p.queue);
    assert OnTheWay(q, transit) == (p.received + taken) + rest;
    assert OnTheWay(p, transit) == (p.received + taken) + whole[|taken|..] + rest;
    SubsequenceWithout(p.received + taken, whole[|taken|..], rest);
  }

  /** The client's steps change its queue by taking the first frame at most. */
  lemma ClientTakes(env: Env, s: Stream, a: ClientAction, step: ClientStep) returns (taken: seq<byte>)
    requires ClientAct(env, s, a) == Some(step)
    ensures step.resp.produced == s.resp.produced && step.resp.content == s.resp.content
    ensures step.resp.queue == s.resp.queue ==> step.resp.received == s.resp.received
    ensures step.resp.queue != s.resp.queue ==>
      s.resp.queue != [] && step.resp.queue == s.resp.queue[1..] && step.resp.received == s.resp.received + taken
    ensures s.resp.queue != [] ==> taken <= if s.resp.queue[0].kind == DATA then s.resp.queue[0].payload else []
  {
    var p := s.resp;
    taken := [];
    if a.Take? && p.queue[0].kind == DATA {
      taken := if a.written < |p.queue[0].payload| then p.queue[0].payload[..a.written] else p.queue[0].payload;
    }
    assert p.received + [] == p.received;
  }

  lemma ClientDraws(env: Env, s: Stream, a: ClientAction, transit: seq<Frame>, step: ClientStep)
    requires ClientAct(env, s, a) == Some(step)
    ensures step.resp.produced == s.resp.produced && step.resp.content == s.resp.content
    ensures Subsequence(OnTheWay(step.resp, transit), OnTheWay(s.resp, transit))
  {
    var taken := ClientTakes(env, s, a, step);
    if step.resp.queue == s.resp.queue {
      SubsequenceOfItself(OnTheWay(s.resp, transit));
    } else {
      TakingDraws(s.resp, step.resp, taken, transit);
    }
  }

  /** The hub adds what it sends to both sides. */
  lemma SendingDraws(p: Response, q: Response, n: nat, transit: seq<Frame>, f: Frame)
    requires p.produced + n <= |p.content| && q == p.(produced := p.produced + n)
    requires f.kind == DATA && f.payload == p.content[p.produced..q.produced]
    requires DrawnFrom(p, OnTheWay(p, transit))
    ensures DrawnFrom(q, OnTheWay(q, transit + [f]))
  {
    PayloadsSnoc(transit, f);
    Associative(p.received + Payloads(p.queue), Payloads(transit), f.payload);
    NextSlice(p.content, p.produced, n);
    SubsequenceOfItself(f.payload);
    SubsequenceConcat(OnTheWay(p, transit), p.content[..p.produced], f.payload, f.payload);
  }

  lemma MarkingDraws(p: Response, transit: seq<Frame>, f: Frame)
    requires f.kind != DATA
    ensures OnTheWay(p, transit + [f]) == OnTheWay(p, transit)
  {
    PayloadsSnoc(transit, f);
  }

  lemma HubDraws(s: Stream, a: HubAction, transit: seq<Frame>, step: HubStep)
    requires HubAct(s, a) == Some(step) && DrawnFrom(s.resp, OnTheWay(s.resp, transit))
    ensures DrawnFrom(step.resp, OnTheWay(step.resp, transit + step.out))
  {
    HubSays(s, a, step);
    if step.out == [] {
      assert transit + step.out == transit;
    } else if a.WriteData? {
      SendingDraws(s.resp, step.resp, a.n, transit, step.out[0]);
    } else {
      assert step.out == [step.out[0]];
      MarkingDraws(s.resp, transit, step.out[0]);
    }
  }

  /** Losing the first frame under way. */
  lemma DroppingDraws(p: Response, q: Response, f: Frame, rest: seq<Frame>)
    requires q.queue == p.queue && q.received == p.received
    ensures Subsequence(OnTheWay(q, rest), OnTheWay(p, [f] + rest))
  {
    var bytes := if f.kind == DATA then f.payload else [];
    var front := p.received + Payloads(p.queue);
    PayloadsHead([f] + rest);
    assert ([f] + rest)[1..] == rest;
    assert OnTheWay(p, [f] + rest) == front + bytes + Payloads(rest);
    SubsequenceWithout(front, bytes, Payloads(rest));
  }

  lemma QueuingDraws(p: Response, q: Response, f: Frame, rest: seq<Frame>)
    requires q.queue == p.queue + [f] && q.received == p.received
    ensures Subsequence(OnTheWay(q, rest), OnTheWay(p, [f] + rest))
  {
    assert ([f] + rest)[0] == f && ([f] + rest)[1..] == rest;
    QueuingKeepsOrder(p, q, [f] + rest);
    SubsequenceOfItself(OnTheWay(p, [f] + rest));
  }

  lemma EnqueueAdds(env: Env, c: Client, p: Response, f: Frame, accept: bool, q: Response)
    requires Enqueue(env, c, p, f, accept) == Some(q)
    ensures q.produced == p.produced && q.content == p.content && q.received == p.received
    ensures q.queue == p.queue || q.queue == p.queue + [f]
  {
  }

  lemma RouteDraws(env: Env, c: Client, p: Response, f: Frame, rest: seq<Frame>, accept: bool, q: Response)
    requires Enqueue(env, c, p, f, accept) == Some(q) && DrawnFrom(p, OnTheWay(p, [f] + rest))
    ensures DrawnFrom(q, OnTheWay(q, rest))
  {
    EnqueueAdds(env, c, p, f, accept, q);
    AddingDraws(p, f, rest, q);
  }

  lemma AddingDraws(p: Response, f: Frame, rest: seq<Frame>, q: Response)
    requires DrawnFrom(p, OnTheWay(p, [f] + rest))
    requires q.produced == p.produced && q.content == p.content && q.received == p.received
    requires q.queue == p.queue || q.queue == p.queue + [f]
    ensures DrawnFrom(q, OnTheWay(q, rest))
  {
    if q.queue == p.queue {
      DroppingDraws(p, q, f, rest);
    } else {
      QueuingDraws(p, q, f, rest);
    }
    StillDrawn(p, OnTheWay(p, [f] + rest), q, OnTheWay(q, rest));
  }

  lemma DrawnOfNew()
    ensures HoldsOfNew(Drawn)
  {
  }

  lemma DrawnKeptByClient()
    ensures ClientKeepsIt(Drawn)
  {
    forall env, s, a, up, transit, held | Drawn(env, s, up, transit, held) && ClientAct(env, s, a).Some?
      ensures Drawn(env, AfterClient(s, ClientAct(env, s, a).value), up + ClientAct(env, s, a).value.out, transit, held)
    {
      var step := ClientAct(env, s, a).value;
      ClientDraws(env, s, a, transit, step);
      StillDrawn(s.resp, OnTheWay(s.resp, transit), step.resp, OnTheWay(step.resp, transit));
    }
  }

  lemma DrawnKeptByHub()
    ensures HubKeepsIt(Drawn)
  {
    forall env, s, a, up, transit, held | Drawn(env, s, up, transit, held) && HubAct(s, a).Some?
      ensures Drawn(env, AfterHub(s, HubAct(s, a).value), up, transit + HubAct(s, a).value.out, held)
    {
      HubDraws(s, a, transit, HubAct(s, a).value);
    }
  }

  lemma DrawnKeptByInput()
    ensures HubInputKeepsIt(Drawn)
  {
    forall env, s, f, accepted, rest, transit, held | Drawn(env, s, [f] + rest, transit, held)
      ensures Drawn(env, AfterInput(s, f, accepted), rest, transit, held)
    {
      assert AfterInput(s, f, accepted).resp == s.resp;
    }
  }

  lemma DrawnKeptByLookup()
    ensures LookupKeepsIt(Drawn)
  {
    forall env: Env, s: Stream, up, f, rest | Drawn(env, s, up, [f] + rest, false) && env.loopRunning
      ensures Looked(Drawn, env, s, up, f, rest)
    {
      if !s.resp.registered {
        var q := Dropped(s.client, s.resp, f);
        DroppingDraws(s.resp, q, f, rest);
        StillDrawn(s.resp, OnTheWay(s.resp, [f] + rest), q, OnTheWay(q, rest));
      }
    }
  }

  lemma DrawnKeptByRoute()
    ensures RouteKeepsIt(Drawn)
  {
    forall env, s, up, f, rest, accept |
      EnvInv(env) && Drawn(env, s, up, [f] + rest, true) && Enqueue(env, s.client, s.resp, f, accept).Some?
      ensures Drawn(env, s.(resp := Enqueue(env, s.client, s.resp, f, accept).value), up, rest, false)
    {
      RouteDraws(env, s.client, s.resp, f, rest, accept, Enqueue(env, s.client, s.resp, f, accept).value);
    }
  }

  lemma DrawnKeptByClosing()
    ensures ClosingKeepsIt(Drawn) && ClearingKeepsIt(Drawn)
  {
    forall env: Env, s: Stream, up, transit, held | Drawn(env, s, up, transit, held)
      ensures Drawn(env, s.(resp := Cleared(s.resp)), up, transit, held)
    {
      assert OnTheWay(Cleared(s.resp), transit) == OnTheWay(s.resp, transit);
    }
  }

  lemma {:induction false} RunDraws(st: State, actions: seq<Action>, end: State)
    requires WiresInv(st) && AllLocal(Drawn, st) && KeptByStreams(Drawn) && Run(st, actions) == Some(end)
    ensures AllLocal(Drawn, end)
    decreases |actions|
  {
    if actions != [] {
      var next := Next(st, actions[0]).value;
      StepKeepsIt(Drawn, st, actions[0], next);
      RunDraws(next, actions[1..], end);
    }
  }

  /** In every run, even when the tunnel is closed from outside, a client receives its own target's
      answer with parts left out: nothing is added, doubled or reordered. */
  lemma ReceivedIsDrawn(actions: seq<Action>, end: State, id: u32)
    requires Run(Start(), actions) == Some(end) && id in end.streams
    ensures Subsequence(end.streams[id].resp.received, end.streams[id].resp.content)
  {
    DrawnOfNew();
    DrawnKeptByClient();
    DrawnKeptByHub();
    DrawnKeptByInput();
    DrawnKeptByLookup();
    DrawnKeptByRoute();
    DrawnKeptByClosing();
    RunDraws(Start(), actions, end);
    assert Local(Drawn, end, id);
    ReceivedOf(end.streams[id].resp, Transit(id, end.held, end.down));
  }

  lemma ReceivedOf(p: Response, transit: seq<Frame>)
    requires DrawnFrom(p, OnTheWay(p, transit))
    ensures Subsequence(p.received, p.content)
  {
    assert OnTheWay(p, transit) == p.received + (Payloads(p.queue) + Payloads(transit));
    SubsequencePrefix(p.received, OnTheWay(p, transit), p.content[..p.produced]);
    SubsequenceOfItself(p.content[..p.produced]);
    SubsequenceConcat(p.received, p.content[..p.produced], [], p.content[p.produced..]);
    assert p.received + [] == p.received && p.content[..p.produced] + p.content[p.produced..] == p.content;
  }
}
