/** What one source can get out of the relay's bound on failed access codes. */
module GuardSources {
  import opened Runs
  import LoginBuckets
  import opened LoginGuard

  /** One call between resets, with the failures of one source counted, in which the source is
      neither dropped nor evicted. */
  ghost predicate SourceStep(source: string, p: Point, call: Call, next: Point) {
    && (source in p.guard.sources ==> source in next.guard.sources)
    && match call
      case Succeed(s) => next == p.(guard := p.guard.(sources := p.guard.sources - {s}))
      case Fail(s, now) =>
        exists kept :: MadeRoom(Pruned(p.guard.sources, now), s, kept)
          && (source in p.guard.sources ==> source in kept)
          && next.guard == Judged(p.guard, kept, s, now).0
          && next.passed == p.passed + if s == source && Judged(p.guard, kept, s, now).1.LetThrough? then 1 else 0
  }

  ghost function StepOf(source: string): (Point, Call, Point) -> bool {
    (p, call, next) => SourceStep(source, p, call, next)
  }

  /** Failures within a window, and no success of the source. */
  function WithoutSuccess(source: string, since: int, until: int): Call -> bool {
    (c: Call) => if c.Fail? then since <= c.now <= until else c.source != source
  }

  function SourceSane(source: string): Point -> bool {
    (p: Point) => source in p.guard.sources ==>
      Sane(p.guard.sources[source]) && p.guard.sources[source].capacity == SOURCE_BURST
  }

  /** The failures of the source that may still be let through. */
  function LeftOf(source: string, since: int, until: int): Point -> int
    requires since <= until
  {
    (p: Point) =>
      if source in p.guard.sources then Potential(p.guard.sources[source], since, until)
      else SOURCE_BURST + LoginBuckets.Intervals(since, until)
  }

  lemma NewLevelPays(now: int, since: int, until: int)
    requires since <= now <= until
    ensures Potential(Fresh(SOURCE_BURST, now), since, until) <= SOURCE_BURST + LoginBuckets.Intervals(since, until)
  {
    LoginBuckets.IntervalsMonotone(since, now, until);
  }

  /** A failure of the source pays out of its own bucket. */
  lemma OwnFailurePays(source: string, p: Point, now: int, next: Point, since: int, until: int)
    requires SourceStep(source, p, Fail(source, now), next) && SourceSane(source)(p) && since <= now <= until
    ensures SourceSane(source)(next)
    ensures next.passed - p.passed <= LeftOf(source, since, until)(p) - LeftOf(source, since, until)(next)
  {
    var kept :| MadeRoom(Pruned(p.guard.sources, now), source, kept)
      && (source in p.guard.sources ==> source in kept)
      && next.guard == Judged(p.guard, kept, source, now).0
      && next.passed == p.passed + if Judged(p.guard, kept, source, now).1.LetThrough? then 1 else 0;
    NewLevelPays(now, since, until);
    ConsumePotential(OwnLevel(kept, source, now), now, since, until);
  }

  lemma OthersStay(source: string, p: Point, call: Call, next: Point)
    requires SourceStep(source, p, call, next) && call.source != source
    ensures next.passed == p.passed && (source in next.guard.sources <==> source in p.guard.sources)
    ensures source in p.guard.sources ==> next.guard.sources[source] == p.guard.sources[source]
  {
  }

  lemma SourcePays(source: string, since: int, until: int)
    requires since <= until
    ensures Pays(StepOf(source), WithoutSuccess(source, since, until), SourceSane(source), PASSED,
      LeftOf(source, since, until))
  {
    forall p, call, next
      | StepOf(source)(p, call, next) && WithoutSuccess(source, since, until)(call) && SourceSane(source)(p)
      ensures SourceSane(source)(next)
      ensures PASSED(next) - PASSED(p) <= LeftOf(source, since, until)(p) - LeftOf(source, since, until)(next)
    {
      if call.source == source {
        OwnFailurePays(source, p, call.now, next, since, until);
      } else {
        OthersStay(source, p, call, next);
      }
    }
  }

  lemma NothingLeft(source: string, p: Point, since: int, until: int)
    requires since <= until
    ensures LeftOf(source, since, until)(p) >= 0 || !SourceSane(source)(p)
  {
  }

  /** Between resets and in any window, at most 6 failures and one for every 30 seconds are let
      through of a source that does not succeed and stays in the table; if it was not in the table
      at first, at most 5 and as many. */
  lemma SourceBound(source: string, calls: seq<Call>, points: seq<Point>, since: int, until: int)
    requires IsRun(StepOf(source), calls, points) && Only(WithoutSuccess(source, since, until), calls)
    requires since <= until && SourceSane(source)(points[0])
    ensures points[|calls|].passed - points[0].passed <= 6 + (until - since) / LoginBuckets.REFILL
    ensures source !in points[0].guard.sources ==>
      points[|calls|].passed - points[0].passed <= 5 + (until - since) / LoginBuckets.REFILL
  {
    SourcePays(source, since, until);
    RunPays(StepOf(source), WithoutSuccess(source, since, until), SourceSane(source), PASSED,
      LeftOf(source, since, until), calls, points, |calls|);
    NothingLeft(source, points[|calls|], since, until);
  }

  /** A guard with one source, both of whose buckets have that much. */
  function With(source: string, own: nat, all: nat, used: int): Guard {
    Guard(0, Level(all, 20, 1, used), map[source := Level(own, 5, 1, used)])
  }

  /** One failure more of the source, that both buckets allow. */
  lemma OneMore(window: Call -> bool, source: string, p: Point, q: Point, now: int) returns (next: Point)
    requires Leads(StepOf(source), window, p, q) && window(Fail(source, now))
    requires var sources := q.guard.sources;
      source in sources && now - sources[source].lastActivity <= SOURCE_TTL && Consume(sources[source], now).1
    requires Consume(q.guard.global, now).1
    ensures Leads(StepOf(source), window, p, next) && next.passed == q.passed + 1
    ensures next.guard == Judged(q.guard, Pruned(q.guard.sources, now), source, now).0
  {
    var kept := Pruned(q.guard.sources, now);
    next := Point(Judged(q.guard, kept, source, now).0, q.passed + 1);
    assert MadeRoom(kept, source, kept);
    LeadsOn(StepOf(source), window, p, q, Fail(source, now), next);
  }

  /** All the tokens of the source, one failure after the other. */
  lemma {:induction false} Drained(window: Call -> bool, source: string, p: Point, q: Point, own: nat, all: nat,
      used: int, now: int)
    returns (r: Point)
    requires Leads(StepOf(source), window, p, q) && window(Fail(source, now))
    requires q.guard == With(source, own, all, used) && own <= 5 && own < all <= 20
    requires 1 <= now < 1 + LoginBuckets.REFILL && now - used <= SOURCE_TTL
    ensures Leads(StepOf(source), window, p, r) && r.passed == q.passed + own
    ensures r.guard == With(source, 0, all - own, if own == 0 then used else now)
    decreases own
  {
    r := q;
    if own > 0 {
      NotDue(q.guard.sources[source], now);
      NotDue(q.guard.global, now);
      r := OneMore(window, source, p, q, now);
      assert r.guard == With(source, own - 1, all - 1, now) by {
        assert q.guard.sources[source := Level(own - 1, 5, 1, now)] == map[source := Level(own - 1, 5, 1, now)];
      }
      r := Drained(window, source, p, r, own - 1, all - 1, now, now);
    }
  }

  ghost predicate PassesMostOfOne(source: string, p: Point, since: int, q: Point) {
    && SourceSane(source)(p) && Leads(StepOf(source), WithoutSuccess(source, since, since + 1), p, q)
    && q.passed == p.passed + 6
  }

  /** The bound is exact. */
  lemma SourceBoundExact(source: string)
    ensures exists p, since, q :: PassesMostOfOne(source, p, since, q)
  {
    var since := LoginBuckets.REFILL;
    var w := WithoutSuccess(source, since, since + 1);
    var p := Point(With(source, 5, 20, 1), 0);
    LeadsNowhere(StepOf(source), w, p);
    var five := Drained(w, source, p, p, 5, 20, 1, since);
    var six := OneMore(w, source, p, five, since + 1);
    assert PassesMostOfOne(source, p, since, six);
  }
}
