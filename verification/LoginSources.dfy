/** What one source can get out of the login limiter. */
module LoginSources {
  import opened Runs
  import opened LoginBuckets
  import opened LoginLimiter

  /** One call, with the attempts of one source counted, in which the source is not evicted. */
  ghost predicate SourceStep(source: string, p: Point, call: Call, next: Point) {
    && (source in p.limiter.sources ==> source in next.limiter.sources)
    && match call
      case Attempt(s, now) =>
        exists kept :: MadeRoom(p.limiter.sources, s, kept)
          && next.limiter == Judged(p.limiter, kept, s, now).0
          && next.granted == p.granted + if s == source && Judged(p.limiter, kept, s, now).1.Granted? then 1 else 0
      case Succeed(s) =>
        next == p.(limiter := p.limiter.(sources := p.limiter.sources - {s}))
  }

  ghost function StepOf(source: string): (Point, Call, Point) -> bool {
    (p, call, next) => SourceStep(source, p, call, next)
  }

  /** Attempts within a window, and no success of the source. */
  function WithoutSuccess(source: string, since: int, until: int): Call -> bool {
    (c: Call) => if c.Attempt? then since <= c.now <= until else c.source != source
  }

  function SourceFilled(source: string): Point -> bool {
    (p: Point) => source in p.limiter.sources ==>
      Filled(p.limiter.sources[source]) && p.limiter.sources[source].capacity == SOURCE_BURST
  }

  /** The attempts that the source may still be granted. */
  function LeftOf(source: string, since: int, until: int): Point -> int
    requires since <= until
  {
    (p: Point) =>
      if source in p.limiter.sources then Potential(p.limiter.sources[source], since, until)
      else SOURCE_BURST + Intervals(since, until)
  }

  lemma OwnBucketPays(b: Bucket, now: int, since: int, until: int)
    requires Filled(b) && since <= now <= until
    ensures Potential(Refill(b, now).(lastUsed := now), since, until) <= Potential(b, since, until)
    ensures Refill(b, now).tokens > 0 ==>
      Potential(Refill(b, now).(tokens := Refill(b, now).tokens - 1, lastUsed := now), since, until)
        <= Potential(b, since, until) - 1
  {
    RefillPotential(b, now, since, until);
    if Refill(b, now).tokens > 0 {
      TakePotential(b, now, since, until);
    }
  }

  lemma NewBucketPays(now: int, since: int, until: int)
    requires since <= now <= until
    ensures Potential(NewBucket(SOURCE_BURST, now), since, until) <= SOURCE_BURST + Intervals(since, until)
  {
    IntervalsMonotone(since, now, until);
  }

  /** An attempt of the source pays out of its own bucket. */
  lemma OwnAttemptPays(source: string, p: Point, now: int, next: Point, since: int, until: int)
    requires SourceStep(source, p, Attempt(source, now), next) && SourceFilled(source)(p) && since <= now <= until
    ensures SourceFilled(source)(next)
    ensures next.granted - p.granted <= LeftOf(source, since, until)(p) - LeftOf(source, since, until)(next)
  {
    var kept :| MadeRoom(p.limiter.sources, source, kept)
      && next.limiter == Judged(p.limiter, kept, source, now).0
      && next.granted == p.granted + if Judged(p.limiter, kept, source, now).1.Granted? then 1 else 0;
    assert source in kept <==> source in p.limiter.sources;
    var b := if source in kept then kept[source] else NewBucket(SOURCE_BURST, now);
    NewBucketPays(now, since, until);
    OwnBucketPays(b, now, since, until);
  }

  lemma OthersStay(source: string, p: Point, call: Call, next: Point)
    requires SourceStep(source, p, call, next) && call.source != source
    ensures next.granted == p.granted && (source in next.limiter.sources <==> source in p.limiter.sources)
    ensures source in p.limiter.sources ==> next.limiter.sources[source] == p.limiter.sources[source]
  {
  }

  lemma SourcePays(source: string, since: int, until: int)
    requires since <= until
    ensures Pays(StepOf(source), WithoutSuccess(source, since, until), SourceFilled(source), GRANTED,
      LeftOf(source, since, until))
  {
    forall p, call, next
      | StepOf(source)(p, call, next) && WithoutSuccess(source, since, until)(call) && SourceFilled(source)(p)
      ensures SourceFilled(source)(next)
      ensures GRANTED(next) - GRANTED(p) <= LeftOf(source, since, until)(p) - LeftOf(source, since, until)(next)
    {
      if call.source == source {
        OwnAttemptPays(source, p, call.now, next, since, until);
      } else {
        OthersStay(source, p, call, next);
      }
    }
  }

  /** In any window a source that does not log in and is not evicted is granted at most 7 attempts
      and one for every 30 seconds; if it was not in the table at first, at most 5 and as many. */
  lemma SourceBound(source: string, calls: seq<Call>, points: seq<Point>, since: int, until: int)
    requires IsRun(StepOf(source), calls, points) && Only(WithoutSuccess(source, since, until), calls)
    requires since <= until && Valid(points[0].limiter)
    ensures points[|calls|].granted - points[0].granted <= 7 + (until - since) / REFILL
    ensures source !in points[0].limiter.sources ==>
      points[|calls|].granted - points[0].granted <= 5 + (until - since) / REFILL
  {
    SourcePays(source, since, until);
    RunPays(StepOf(source), WithoutSuccess(source, since, until), SourceFilled(source), GRANTED,
      LeftOf(source, since, until), calls, points, |calls|);
    NothingLeft(source, points[|calls|], since, until);
  }

  lemma NothingLeft(source: string, p: Point, since: int, until: int)
    requires since <= until
    ensures LeftOf(source, since, until)(p) >= 0 || !SourceFilled(source)(p)
  {
  }

  /** The limiter after n attempts of the source at one reading, the first of which makes room. */
  function Repeated(l: Limiter, kept: map<string, Bucket>, source: string, now: int, n: nat): Limiter {
    if n == 0 then l
    else if n == 1 then Judged(l, kept, source, now).0
    else
      var before := Repeated(l, kept, source, now, n - 1);
      Judged(before, before.sources, source, now).0
  }

  /** What the next attempt after these gets. */
  function NextVerdict(l: Limiter, kept: map<string, Bucket>, source: string, now: int, n: nat): Verdict {
    var before := Repeated(l, kept, source, now, n);
    Judged(before, if n == 0 then kept else before.sources, source, now).1
  }

  lemma {:induction false} TokensGo(l: Limiter, kept: map<string, Bucket>, source: string, now: int, n: nat)
    requires Valid(l) && MadeRoom(l.sources, source, kept) && source !in l.sources
    requires n <= 5 <= Refill(l.global, now).tokens
    ensures n > 0 ==> source in Repeated(l, kept, source, now, n).sources
    ensures n > 0 ==> Repeated(l, kept, source, now, n).sources[source] == Bucket(5 - n, 5, now, now)
    ensures Refill(Repeated(l, kept, source, now, n).global, now).tokens >= Refill(l.global, now).tokens - n
    ensures n < 5 ==> NextVerdict(l, kept, source, now, n).Granted?
  {
    if n > 0 {
      TokensGo(l, kept, source, now, n - 1);
      var before := Repeated(l, kept, source, now, n - 1);
      OneTokenGoes(before, if n == 1 then kept else before.sources, source, now, 6 - n);
      AnotherGranted(Repeated(l, kept, source, now, n), source, now, 5 - n);
    } else {
      OneTokenGoes(l, kept, source, now, 5);
    }
    hide Judged;
  }

  /** An attempt takes one of the source's tokens and one of the shared ones. */
  lemma OneTokenGoes(l: Limiter, kept: map<string, Bucket>, source: string, now: int, own: nat)
    requires 0 < own <= 5 && Refill(l.global, now).tokens > 0
    requires if source in kept then kept[source] == Bucket(own, 5, now, now) else own == 5
    ensures var (next, verdict) := Judged(l, kept, source, now);
      && verdict.Granted? && next.sources == kept[source := Bucket(own - 1, 5, now, now)]
      && Refill(next.global, now).tokens >= Refill(l.global, now).tokens - 1
  {
  }

  lemma AnotherGranted(l: Limiter, source: string, now: int, own: nat)
    requires source in l.sources && l.sources[source] == Bucket(own, 5, now, now) && own <= 5
    ensures own > 0 && Refill(l.global, now).tokens > 0 ==> Judged(l, l.sources, source, now).1.Granted?
  {
  }

  /** A new source gets five attempts at one reading, if there are as many for all sources, and is
      denied the sixth: for 30 seconds, if there are more for all. */
  lemma SixthDenied(l: Limiter, kept: map<string, Bucket>, source: string, now: int)
    requires Valid(l) && MadeRoom(l.sources, source, kept) && source !in l.sources
    requires Refill(l.global, now).tokens >= 5
    ensures forall n :: 0 <= n < 5 ==> NextVerdict(l, kept, source, now, n).Granted?
    ensures NextVerdict(l, kept, source, now, 5).Denied?
    ensures Refill(l.global, now).tokens > 5 ==> NextVerdict(l, kept, source, now, 5) == Denied(30_000_000_000)
  {
    forall n | 0 <= n < 5 ensures NextVerdict(l, kept, source, now, n).Granted? {
      TokensGo(l, kept, source, now, n);
    }
    TokensGo(l, kept, source, now, 5);
  }

  /** One attempt of the source that both buckets allow. */
  lemma OneMore(window: Call -> bool, source: string, p: Point, q: Point, now: int) returns (next: Point)
    requires Leads(StepOf(source), window, p, q) && window(Attempt(source, now)) && source in q.limiter.sources
    requires Refill(q.limiter.sources[source], now).tokens > 0 && Refill(q.limiter.global, now).tokens > 0
    ensures Leads(StepOf(source), window, p, next) && next.granted == q.granted + 1
    ensures next.limiter == Judged(q.limiter, q.limiter.sources, source, now).0
  {
    var l := q.limiter;
    next := Point(Judged(l, l.sources, source, now).0, q.granted + 1);
    assert MadeRoom(l.sources, source, l.sources);
    LeadsOn(StepOf(source), window, p, q, Attempt(source, now), next);
  }

  /** A limiter with one source, both of whose buckets have that much. */
  function With(source: string, own: nat, all: nat, last: int, used: int): Limiter {
    Limiter(map[source := Bucket(own, 5, last, used)], Bucket(all, 20, last, 1))
  }

  /** Two readings at which the buckets of an old limiter give out the most. */
  lemma GivesOut(source: string, own: nat, all: nat, last: int, used: int, now: int)
    requires 0 < own <= 5 && own < all <= 20 && last <= now < last + REFILL
    ensures Judged(With(source, own, all, last, used), With(source, own, all, last, used).sources, source, now)
      == (With(source, own - 1, all - 1, last, now), Granted)
  {
    var l := With(source, own, all, last, used);
    assert l.sources[source := Bucket(own - 1, 5, last, now)] == With(source, own - 1, all - 1, last, now).sources;
  }

  /** All the tokens of the source, one attempt after the other. */
  lemma {:induction false} Drained(window: Call -> bool, source: string, p: Point, q: Point, own: nat, all: nat,
      last: int, used: int, now: int)
    returns (r: Point)
    requires Leads(StepOf(source), window, p, q) && window(Attempt(source, now))
    requires q.limiter == With(source, own, all, last, used)
    requires 0 < own <= 5 && own < all <= 20 && last <= now < last + REFILL
    ensures Leads(StepOf(source), window, p, r) && r.granted == q.granted + own
    ensures r.limiter == With(source, 0, all - own, last, now)
    decreases own
  {
    GivesOut(source, own, all, last, used, now);
    NotDue(q.limiter.sources[source], now);
    NotDue(q.limiter.global, now);
    r := OneMore(window, source, p, q, now);
    if own > 1 {
      r := Drained(window, source, p, r, own - 1, all - 1, last, now, now);
    }
  }

  ghost predicate GrantsMostOfOne(source: string, p: Point, since: int, q: Point) {
    && Valid(p.limiter) && Leads(StepOf(source), WithoutSuccess(source, since, since + 1), p, q)
    && q.granted == p.granted + 7
  }

  /** The bound is exact. */
  lemma SourceBoundExact(source: string)
    ensures exists p, since, q :: GrantsMostOfOne(source, p, since, q)
  {
    var since := 2 * REFILL;
    var w := WithoutSuccess(source, since, since + 1);
    var p := Point(With(source, 5, 20, 1, 1), 0);
    LeadsNowhere(StepOf(source), w, p);
    var one := OneMore(w, source, p, p, since);
    assert one.limiter == With(source, 4, 19, 1, since) by {
      assert p.limiter.sources[source := Bucket(4, 5, 1, since)] == With(source, 4, 19, 1, since).sources;
    }
    var two := OneMore(w, source, p, one, since);
    assert two.limiter == With(source, 4, 19, 1 + REFILL, since) by {
      assert one.limiter.sources[source := Bucket(4, 5, 1 + REFILL, since)]
        == With(source, 4, 19, 1 + REFILL, since).sources;
    }
    var six := Drained(w, source, p, two, 4, 19, 1 + REFILL, since, since);
    var seven := OneMore(w, source, p, six, since + 1);
    assert GrantsMostOfOne(source, p, since, seven);
  }
}
