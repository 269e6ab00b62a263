/** The token buckets that bound login attempts. Times and durations are nanoseconds; time 0 is
    Go's zero time, and every clock reading is later. */
module LoginBuckets {
  import opened Collections

  const SECOND := 1_000_000_000
  const REFILL := 30 * SECOND

  datatype Bucket = Bucket(tokens: nat, capacity: nat, lastRefill: int, lastUsed: int)

  function NewBucket(capacity: nat, now: int): Bucket {
    Bucket(capacity, capacity, now, now)
  }

  predicate Filled(b: Bucket) {
    b.tokens <= b.capacity
  }

  /** loginBucket.refill: a full bucket keeps its old lastRefill. */
  function Refill(b: Bucket, now: int): (r: Bucket)
    ensures Filled(b) ==> Filled(r)
  {
    if now <= b.lastRefill || b.tokens >= b.capacity then b
    else
      var count := (now - b.lastRefill) / REFILL;
      if count < 1 then b
      else b.(tokens := Min(b.capacity, b.tokens + count) as nat, lastRefill := b.lastRefill + count * REFILL)
  }

  /** loginBucket.retryAfter. */
  function RetryAfter(b: Bucket, now: int): int {
    if b.tokens > 0 then 0
    else
      var retry := REFILL - (now - b.lastRefill);
      if retry <= 0 then SECOND else retry
  }

  /** A source unlike any with a shorter name. */
  function Stranger(n: nat): string {
    seq(n, i => 'x')
  }

  /** The bound on what is left to grant until time until, for calls no earlier than since:
      the tokens there are and the refills to come, but no more than a full bucket, the
      intervals of the window and a started one; a full bucket may refill once more at once. */
  function Potential(b: Bucket, since: int, until: int): int
    requires since <= until
  {
    Min(b.tokens + Intervals(b.lastRefill, until),
      b.capacity + 1 + Intervals(since, until) + if b.tokens == b.capacity then 1 else 0)
  }

  function Intervals(start: int, end: int): (n: nat)
    ensures start <= end ==> n == (end - start) / REFILL
  {
    if start <= end then (end - start) / REFILL else 0
  }

  lemma IntervalsMonotone(a: int, b: int, end: int)
    requires a <= b
    ensures Intervals(b, end) <= Intervals(a, end)
  {
    if b <= end {
      DivMonotone(end - b, end - a);
    }
  }

  lemma DivMonotone(x: nat, y: nat)
    requires x <= y
    ensures x / REFILL <= y / REFILL
  {
  }

  lemma IntervalsSplit(last: int, count: nat, end: int)
    requires last + count * REFILL <= end
    ensures Intervals(last, end) == count + Intervals(last + count * REFILL, end)
  {
    DivShift(end - last, count);
  }

  lemma DivShift(x: nat, count: nat)
    requires count * REFILL <= x
    ensures x / REFILL == count + (x - count * REFILL) / REFILL
  {
    var q, r := x / REFILL, x % REFILL;
    assert x - count * REFILL == (q - count) * REFILL + r;
  }

  /** After a refill the next one is due within one interval, unless the bucket is full. */
  lemma RefillFresh(b: Bucket, now: int)
    requires Filled(b)
    ensures var r := Refill(b, now); r.tokens < r.capacity ==> now - r.lastRefill < REFILL
    ensures Refill(b, now) != b ==> Refill(b, now).lastRefill <= now < Refill(b, now).lastRefill + REFILL
  {
  }

  lemma RecentIntervals(last: int, now: int, since: int, until: int)
    requires since <= now <= until && now - last < REFILL
    ensures Intervals(last, until) <= Intervals(since, until) + 1
  {
    IntervalsMonotone(now - REFILL, last, until);
    IntervalsSplit(now - REFILL, 1, until);
    IntervalsMonotone(since, now, until);
  }

  lemma RefillPotential(b: Bucket, now: int, since: int, until: int)
    requires Filled(b) && since <= now <= until
    ensures Potential(Refill(b, now), since, until) <= Potential(b, since, until)
  {
    var r := Refill(b, now);
    if r != b {
      var count := (now - b.lastRefill) / REFILL;
      IntervalsSplit(b.lastRefill, count, until);
      RefillFresh(b, now);
      RecentIntervals(r.lastRefill, now, since, until);
    }
  }

  /** Taking a token right after a refill lowers the potential by one. */
  lemma TakePotential(b: Bucket, now: int, since: int, until: int)
    requires Filled(b) && since <= now <= until && Refill(b, now).tokens > 0
    ensures var r := Refill(b, now);
      Potential(r.(tokens := r.tokens - 1), since, until) <= Potential(r, since, until) - 1
  {
    var r := Refill(b, now);
    if r.tokens < r.capacity {
      RefillFresh(b, now);
      RecentIntervals(r.lastRefill, now, since, until);
    }
  }

  /** An empty bucket has a token again exactly from lastRefill plus one interval on. */
  lemma EmptyUntil(b: Bucket, t: int)
    requires b.tokens == 0 < b.capacity
    ensures Refill(b, t).tokens > 0 <==> t >= b.lastRefill + REFILL
  {
  }

  lemma RetryAfterExact(b: Bucket, now: int)
    requires Filled(b) && Refill(b, now).tokens == 0 < b.capacity
    ensures now + RetryAfter(Refill(b, now), now) == Refill(b, now).lastRefill + REFILL
  {
    RefillFresh(b, now);
  }
}

/** loginLimiter: a bucket for every source, and one for all of them. */
module LoginLimiter {
  import opened Runs
  import opened Collections
  import opened Sorting
  import opened LoginBuckets

  const SOURCE_BURST := 5
  const GLOBAL_BURST := 20
  const MAX_SOURCES := 2048

  datatype Limiter = Limiter(sources: map<string, Bucket>, global: Bucket)

  ghost predicate Valid(l: Limiter) {
    && Filled(l.global) && l.global.capacity == GLOBAL_BURST
    && (forall s {:trigger l.sources[s]} :: s in l.sources ==>
      Filled(l.sources[s]) && l.sources[s].capacity == SOURCE_BURST && l.sources[s].lastUsed > 0)
    && |l.sources| <= MAX_SOURCES
  }

  /** Some source that was used no later than any other. */
  ghost predicate Oldest(sources: map<string, Bucket>, key: string) {
    key in sources && forall s {:trigger sources[s]} :: s in sources ==> sources[key].lastUsed <= sources[s].lastUsed
  }

  /** What is left of the sources when a new one needs room. */
  ghost predicate MadeRoom(sources: map<string, Bucket>, source: string, kept: map<string, Bucket>) {
    if source in sources || |sources| < MAX_SOURCES then kept == sources
    else exists key :: Oldest(sources, key) && kept == sources - {key}
  }

  datatype Verdict = Granted | Denied(retry: int)

  function SourceBucket(kept: map<string, Bucket>, source: string, now: int): Bucket {
    Refill(if source in kept then kept[source] else NewBucket(SOURCE_BURST, now), now).(lastUsed := now)
  }

  function Judged(l: Limiter, kept: map<string, Bucket>, source: string, now: int): (Limiter, Verdict) {
    var global := Refill(l.global, now);
    var bucket := SourceBucket(kept, source, now);
    if bucket.tokens == 0 || global.tokens == 0 then
      (Limiter(kept[source := bucket], global), Denied(Max(RetryAfter(bucket, now), RetryAfter(global, now))))
    else
      (Limiter(kept[source := bucket.(tokens := bucket.tokens - 1)], global.(tokens := global.tokens - 1)), Granted)
  }

  /** The table after an attempt: the source is in it, used now; the others are as they were, but
      that one gives way to a new source when there are 2048, one used no later than any other. */
  ghost predicate TableAfter(before: map<string, Bucket>, after: map<string, Bucket>, source: string, now: int) {
    && source in after && after[source].lastUsed == now && after.Keys <= before.Keys + {source}
    && (forall s :: s in before && s in after && s != source ==> after[s] == before[s])
    && (forall s :: s in before && s !in after ==> GivesWay(before, source, s))
    && |after| == if source in before then |before| else Min(|before| + 1, 2048)
  }

  ghost predicate GivesWay(before: map<string, Bucket>, source: string, s: string) {
    && s in before && source !in before && |before| == 2048
    && forall t :: t in before ==> before[s].lastUsed <= before[t].lastUsed
  }

  lemma StoredKeys(kept: map<string, Bucket>, source: string, b: Bucket)
    ensures kept[source := b].Keys == kept.Keys + {source}
    ensures |kept[source := b]| == if source in kept then |kept| else |kept| + 1
  {
    var after := kept[source := b];
    assert |after| == |after.Keys| && |kept| == |kept.Keys|;
    assert source in kept ==> after.Keys == kept.Keys;
  }

  lemma StoredLeaves(sources: map<string, Bucket>, source: string, b: Bucket, now: int)
    requires b.lastUsed == now && |sources| <= MAX_SOURCES && (source in sources || |sources| < MAX_SOURCES)
    ensures TableAfter(sources, sources[source := b], source, now)
  {
    StoredKeys(sources, source, b);
  }

  lemma EvictedLeaves(sources: map<string, Bucket>, key: string, source: string, b: Bucket, now: int)
    requires b.lastUsed == now && |sources| == MAX_SOURCES && source !in sources && Oldest(sources, key)
    ensures TableAfter(sources, (sources - {key})[source := b], source, now)
  {
    var kept := sources - {key};
    StoredKeys(kept, source, b);
    assert kept.Keys == sources.Keys - {key} && |kept| == |kept.Keys| && |sources| == |sources.Keys|;
    assert GivesWay(sources, source, key);
  }

  lemma AttemptLeaves(l: Limiter, kept: map<string, Bucket>, source: string, now: int)
    requires MadeRoom(l.sources, source, kept) && |l.sources| <= MAX_SOURCES
    ensures TableAfter(l.sources, Judged(l, kept, source, now).0.sources, source, now)
  {
    hide TableAfter;
    var after := Judged(l, kept, source, now).0.sources;
    var b := after[source];
    assert after == kept[source := b] && b.lastUsed == now;
    hide Judged;
    if source in l.sources || |l.sources| < MAX_SOURCES {
      StoredLeaves(l.sources, source, b, now);
    } else {
      var key :| Oldest(l.sources, key) && kept == l.sources - {key};
      EvictedLeaves(l.sources, key, source, b, now);
    }
  }

  class LoginLimiter {
    var sources: map<string, Bucket>
    var global: Bucket

    ghost function View(): Limiter
      reads this
    {
      Limiter(sources, global)
    }

    constructor (now: int)
      ensures View() == Limiter(map[], NewBucket(GLOBAL_BURST, now)) && Valid(View())
    {
      sources, global := map[], NewBucket(GLOBAL_BURST, now);
    }

    /** removeOldestSourceLocked, over the sources in any order. */
    method RemoveOldestSource()
      requires Valid(View()) && sources != map[]
      modifies `sources
      ensures exists key :: Oldest(old(sources), key) && sources == old(sources) - {key}
    {
      var oldestKey, oldest := "", 0;
      var left := sources.Keys;
      while left != {}
        invariant sources == old(sources) && left <= sources.Keys
        invariant left != sources.Keys ==>
          oldestKey in sources && oldestKey !in left && oldest == sources[oldestKey].lastUsed
        invariant left == sources.Keys ==> oldest == 0
        invariant forall s {:trigger sources[s]} :: s in sources && s !in left ==> oldest <= sources[s].lastUsed
        decreases left
      {
        var key := AnyOf(left);
        left := left - {key};
        if oldest == 0 || sources[key].lastUsed < oldest {
          oldestKey := key;
          oldest := sources[key].lastUsed;
        }
      }
      assert Oldest(sources, oldestKey);
      sources := sources - {oldestKey};
    }

    method Allow(source: string, now: int) returns (v: Verdict, ghost kept: map<string, Bucket>)
      requires Valid(View()) && now > 0
      modifies this
      ensures Valid(View()) && MadeRoom(old(sources), source, kept)
      ensures (View(), v) == Judged(old(View()), kept, source, now)
      ensures TableAfter(old(sources), sources, source, now)
    {
      hide TableAfter;
      hide Oldest;
      global := Refill(global, now);
      var bucket;
      if source in sources {
        bucket := sources[source];
        kept := sources;
      } else {
        if |sources| >= MAX_SOURCES {
          RemoveOldestSource();
        }
        bucket := NewBucket(SOURCE_BURST, now);
        kept := sources;
      }
      JudgedValid(old(View()), kept, source, now);
      AttemptLeaves(old(View()), kept, source, now);
      bucket := Refill(bucket, now).(lastUsed := now);
      if bucket.tokens == 0 || global.tokens == 0 {
        sources := sources[source := bucket];
        var retry := RetryAfter(bucket, now);
        var globalRetry := RetryAfter(global, now);
        if globalRetry > retry {
          retry := globalRetry;
        }
        return Denied(retry), kept;
      }
      bucket := bucket.(tokens := bucket.tokens - 1);
      global := global.(tokens := global.tokens - 1);
      sources := sources[source := bucket];
      v := Granted;
    }

    method Success(source: string)
      modifies `sources
      ensures sources == old(sources) - {source}
    {
      sources := sources - {source};
    }
  }

  lemma KeptSize(sources: map<string, Bucket>, source: string, kept: map<string, Bucket>, b: Bucket)
    requires MadeRoom(sources, source, kept) && |sources| <= MAX_SOURCES
    ensures |kept[source := b]| <= MAX_SOURCES
  {
    assert kept[source := b].Keys == kept.Keys + {source};
    if source in sources {
      assert kept.Keys + {source} == kept.Keys;
    } else if |sources| >= MAX_SOURCES {
      var key :| Oldest(sources, key) && kept == sources - {key};
      assert kept.Keys == sources.Keys - {key};
    }
  }

  /** Storing a bucket for the source keeps the limiter valid. */
  lemma KeptValid(l: Limiter, source: string, kept: map<string, Bucket>, now: int, b: Bucket, global: Bucket)
    requires Valid(l) && MadeRoom(l.sources, source, kept) && now > 0
    requires Filled(b) && b.capacity == SOURCE_BURST && b.lastUsed > 0 && Filled(global)
    requires global.capacity == GLOBAL_BURST
    ensures Valid(Limiter(kept[source := b], global))
  {
    KeptSize(l.sources, source, kept, b);
    forall s | s in kept ensures s in l.sources && kept[s] == l.sources[s] {
    }
    var next := kept[source := b];
    forall s | s in next ensures Filled(next[s]) && next[s].capacity == SOURCE_BURST && next[s].lastUsed > 0 {
      assert s != source ==> next[s] == l.sources[s];
    }
  }

  lemma JudgedValid(l: Limiter, kept: map<string, Bucket>, source: string, now: int)
    requires Valid(l) && MadeRoom(l.sources, source, kept) && now > 0
    ensures Valid(Judged(l, kept, source, now).0)
  {
    var global, b := Refill(l.global, now), SourceBucket(kept, source, now);
    assert source in kept ==> source in l.sources && kept[source] == l.sources[source];
    if b.tokens == 0 || global.tokens == 0 {
      KeptValid(l, source, kept, now, b, global);
    } else {
      KeptValid(l, source, kept, now, b.(tokens := b.tokens - 1), global.(tokens := global.tokens - 1));
    }
  }

  /** One call: a login attempt, or a login that succeeded. */
  datatype Call = Attempt(source: string, now: int) | Succeed(source: string)

  /** A run of calls: the limiter and the number of attempts granted so far. */
  datatype Point = Point(limiter: Limiter, granted: nat)

  ghost predicate Step(p: Point, call: Call, next: Point) {
    match call
    case Attempt(source, now) =>
      exists kept :: MadeRoom(p.limiter.sources, source, kept)
        && next.limiter == Judged(p.limiter, kept, source, now).0
        && next.granted == p.granted + if Judged(p.limiter, kept, source, now).1.Granted? then 1 else 0
    case Succeed(source) =>
      next == p.(limiter := p.limiter.(sources := p.limiter.sources - {source}))
  }

  /** Attempts within a window, and successes at any time. */
  function Within(since: int, until: int): Call -> bool {
    (c: Call) => c.Attempt? ==> since <= c.now <= until
  }

  lemma StepPotential(p: Point, call: Call, next: Point, since: int, until: int)
    requires Step(p, call, next) && Filled(p.limiter.global) && since <= until
    requires call.Attempt? ==> since <= call.now <= until
    ensures Filled(next.limiter.global) && next.limiter.global.capacity == p.limiter.global.capacity
    ensures next.granted - p.granted <=
      Potential(p.limiter.global, since, until) - Potential(next.limiter.global, since, until)
  {
    if call.Attempt? {
      RefillPotential(p.limiter.global, call.now, since, until);
      if Refill(p.limiter.global, call.now).tokens > 0 {
        TakePotential(p.limiter.global, call.now, since, until);
      }
    }
  }

  const GRANTED: Point -> int := (p: Point) => p.granted
  const GLOBAL_FILLED: Point -> bool :=
    (p: Point) => Filled(p.limiter.global) && p.limiter.global.capacity == GLOBAL_BURST

  function LeftIn(since: int, until: int): Point -> int
    requires since <= until
  {
    (p: Point) => Potential(p.limiter.global, since, until)
  }

  lemma StepsPay(since: int, until: int)
    requires since <= until
    ensures Pays(Step, Within(since, until), GLOBAL_FILLED, GRANTED, LeftIn(since, until))
  {
    forall p, call, next | Step(p, call, next) && Within(since, until)(call) && GLOBAL_FILLED(p)
      ensures GLOBAL_FILLED(next)
      ensures GRANTED(next) - GRANTED(p) <= LeftIn(since, until)(p) - LeftIn(since, until)(next)
    {
      StepPotential(p, call, next, since, until);
    }
  }

  /** In any window, however the clock readings of concurrent calls are ordered, and whatever
      sources call, succeed or are evicted: at most 22 grants and one for every 30 seconds. */
  lemma WindowBound(calls: seq<Call>, points: seq<Point>, since: int, until: int)
    requires IsRun(Step, calls, points) && Only(Within(since, until), calls)
    requires since <= until && Valid(points[0].limiter)
    ensures points[|calls|].granted - points[0].granted <= 22 + (until - since) / REFILL
  {
    StepsPay(since, until);
    RunPays(Step, Within(since, until), GLOBAL_FILLED, GRANTED, LeftIn(since, until), calls, points, |calls|);
  }

  ghost predicate StrangersFrom(l: Limiter, n: nat) {
    |l.sources| <= n < MAX_SOURCES && forall s :: s in l.sources ==> |s| < n
  }

  lemma StrangerGranted(p: Point, now: int, n: nat) returns (next: Point)
    requires StrangersFrom(p.limiter, n) && Refill(p.limiter.global, now).tokens > 0
    ensures Step(p, Attempt(Stranger(n), now), next) && next.granted == p.granted + 1
    ensures next.limiter.global == Refill(p.limiter.global, now).(tokens := Refill(p.limiter.global, now).tokens - 1)
    ensures n + 1 < MAX_SOURCES ==> StrangersFrom(next.limiter, n + 1)
  {
    var l, s := p.limiter, Stranger(n);
    assert s !in l.sources && MadeRoom(l.sources, s, l.sources);
    next := Point(Judged(l, l.sources, s, now).0, p.granted + 1);
    assert next.limiter.sources.Keys == l.sources.Keys + {s};
  }

  lemma NotDue(b: Bucket, now: int)
    requires b.lastRefill <= now < b.lastRefill + REFILL
    ensures Refill(b, now) == b
  {
  }

  /** n strangers in a row, all at one time, take n tokens of a bucket that is not due. */
  lemma {:induction false} Burst(allowed: Call -> bool, p: Point, q: Point, now: int, first: nat, n: nat)
    returns (r: Point)
    requires Leads(Step, allowed, p, q) && forall s :: allowed(Attempt(s, now))
    requires StrangersFrom(q.limiter, first) && first + n < MAX_SOURCES && n <= q.limiter.global.tokens
    requires q.limiter.global.lastRefill <= now < q.limiter.global.lastRefill + REFILL
    ensures Leads(Step, allowed, p, r) && r.granted == q.granted + n && StrangersFrom(r.limiter, first + n)
    ensures r.limiter.global == q.limiter.global.(tokens := q.limiter.global.tokens - n)
    decreases n
  {
    if n == 0 {
      r := q;
    } else {
      NotDue(q.limiter.global, now);
      var one := StrangerGranted(q, now, first);
      LeadsOn(Step, allowed, p, q, Attempt(Stranger(first), now), one);
      r := Burst(allowed, p, one, now, first + 1, n - 1);
    }
  }

  /** The full bucket of an old limiter gives one token, refills, gives all the others, and the
      next refill is due. */
  lemma FullTwice(window: Call -> bool, since: int) returns (p: Point, q: Point)
    requires since == 2 * REFILL && forall s :: window(Attempt(s, since)) && window(Attempt(s, since + 1))
    ensures Valid(p.limiter) && p.granted == 0 && Leads(Step, window, p, q) && q.granted == 21
    ensures q.limiter.global == Bucket(0, 20, 1 + REFILL, 1) && StrangersFrom(q.limiter, 21)
  {
    p := Point(Limiter(map[], NewBucket(GLOBAL_BURST, 1)), 0);
    FullBucketRefills();
    LeadsNowhere(Step, window, p);
    var one := StrangerGranted(p, since, 0);
    LeadsOn(Step, window, p, p, Attempt(Stranger(0), since), one);
    var two := StrangerGranted(one, since, 1);
    assert two.limiter.global == Bucket(19, 20, 1 + REFILL, 1);
    LeadsOn(Step, window, p, one, Attempt(Stranger(1), since), two);
    q := Burst(window, p, two, since, 2, 19);
  }

  /** Within one nanosecond 22 logins are granted. */
  ghost predicate GrantsMost(p: Point, since: int, q: Point) {
    Valid(p.limiter) && Leads(Step, Within(since, since + 1), p, q) && q.granted == p.granted + 22
  }

  /** The bound is exact. */
  lemma WindowBoundExact()
    ensures exists p, since, q :: GrantsMost(p, since, q)
  {
    var since := 2 * REFILL;
    var p, empty := FullTwice(Within(since, since + 1), since);
    FullBucketRefills();
    var last := StrangerGranted(empty, since + 1, 21);
    LeadsOn(Step, Within(since, since + 1), p, empty, Attempt(Stranger(21), since + 1), last);
    assert GrantsMost(p, since, last);
  }

  /** A full bucket keeps its old lastRefill, so it is full again after the next refill. */
  lemma FullBucketRefills()
    ensures Refill(NewBucket(20, 1), 2 * REFILL) == Bucket(20, 20, 1, 1)
    ensures Refill(Bucket(19, 20, 1, 1), 2 * REFILL) == Bucket(20, 20, 1 + REFILL, 1)
    ensures Refill(Bucket(0, 20, 1 + REFILL, 1), 2 * REFILL + 1) == Bucket(1, 20, 1 + 2 * REFILL, 1)
  {
  }

  /** The caller's source was denied and nobody else calls: it is denied until now + retry,
      and granted from then on. */
  lemma DenialExact(l: Limiter, kept: map<string, Bucket>, source: string, now: int, t: int)
    requires Valid(l) && MadeRoom(l.sources, source, kept) && now <= t
    requires Judged(l, kept, source, now).1.Denied?
    ensures var (after, v) := Judged(l, kept, source, now);
      MadeRoom(after.sources, source, after.sources)
      && (Judged(after, after.sources, source, t).1.Granted? <==> t >= now + v.retry)
  {
    var (after, v) := Judged(l, kept, source, now);
    BucketExact(l.global, now, t);
    var b := if source in kept then kept[source] else NewBucket(SOURCE_BURST, now);
    BucketExact(b, now, t);
    assert Refill(after.sources[source], t).tokens == Refill(Refill(b, now), t).tokens;
  }

  /** A bucket refilled at now has a token at t exactly when now plus its retry has come. */
  lemma BucketExact(b: Bucket, now: int, t: int)
    requires Filled(b) && b.capacity > 0 && now <= t
    ensures Refill(Refill(b, now), t).tokens > 0 <==> t >= now + RetryAfter(Refill(b, now), now)
  {
    if Refill(b, now).tokens == 0 {
      RetryAfterExact(b, now);
      EmptyUntil(Refill(b, now), t);
    }
  }

  /** The seconds of the Retry-After header. */
  function RetrySeconds(retry: int): int
    requires retry >= 0
  {
    (retry + SECOND - 1) / SECOND
  }

  /** The header's value (section 10.2.3 of RFC 9110) is the least whole number of seconds after
      which the source is granted: never too early, and never a second too late. */
  lemma RetrySecondsExact(l: Limiter, kept: map<string, Bucket>, source: string, now: int, seconds: nat)
    requires Valid(l) && MadeRoom(l.sources, source, kept) && Judged(l, kept, source, now).1.Denied?
    ensures Judged(l, kept, source, now).1.retry >= 0
    ensures var (after, v) := Judged(l, kept, source, now);
      Judged(after, after.sources, source, now + seconds * SECOND).1.Granted? <==> seconds >= RetrySeconds(v.retry)
  {
    DenialExact(l, kept, source, now, now + seconds * SECOND);
    var v := Judged(l, kept, source, now).1;
    CeilIsLeast(v.retry, seconds);
  }

  lemma CeilIsLeast(retry: int, seconds: nat)
    requires retry >= 0
    ensures seconds * SECOND >= retry <==> seconds >= RetrySeconds(retry)
  {
  }
}
