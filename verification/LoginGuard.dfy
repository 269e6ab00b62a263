/** The relay's bound on failed access codes. Its buckets advance lastRefill even when full,
    and both the source's and the global bucket are charged for every failure. */
module LoginGuard {
  import opened Collections
  import opened Runs
  import opened Sorting
  import opened LoginBuckets

  const SOURCE_BURST := 5
  const GENERATION_BURST := 20
  const MAX_SOURCES := 4096
  const SOURCE_TTL := 3600 * SECOND

  /** A relayLoginBucket's fields. Capacity 0 is a bucket never set up. */
  datatype Level = Level(tokens: nat, capacity: nat, lastRefill: int, lastActivity: int)

  const UNSET := Level(0, 0, 0, 0)

  function Fresh(capacity: nat, now: int): Level {
    Level(capacity, capacity, now, now)
  }

  predicate Sane(l: Level) {
    l.tokens <= l.capacity
  }

  /** The refill in consumeRelayLoginToken. */
  function Advance(l: Level, now: int): (r: Level)
    ensures Sane(l) ==> Sane(r)
  {
    if now <= l.lastRefill || now - l.lastRefill < REFILL then l
    else
      var n := (now - l.lastRefill) / REFILL;
      l.(tokens := Min(l.capacity, l.tokens + n) as nat, lastRefill := l.lastRefill + n * REFILL)
  }

  function SetUp(l: Level, now: int): Level {
    if l.capacity == 0 then Fresh(GENERATION_BURST, now) else l
  }

  /** consumeRelayLoginToken: the bucket after, and the retry, 0 when a token was taken. */
  function Consume(l: Level, now: int): (Level, bool, int) {
    var r := Advance(SetUp(l, now), now).(lastActivity := now);
    if r.tokens > 0 then (r.(tokens := r.tokens - 1), true, 0)
    else
      var retry := REFILL - (now - r.lastRefill);
      (r, false, if retry <= 0 then REFILL else retry)
  }

  datatype Guard = Guard(generation: int, global: Level, sources: map<string, Level>)

  /** recordFailure's limited flag, and its retry. */
  datatype Outcome = LetThrough | Limited(retry: int)

  function WithGeneration(g: Guard, generation: int, now: int): Guard {
    if generation == g.generation then g else Guard(generation, Fresh(GENERATION_BURST, now), map[])
  }

  function Pruned(sources: map<string, Level>, now: int): map<string, Level> {
    map s | s in sources && now - sources[s].lastActivity <= SOURCE_TTL :: sources[s]
  }

  /** evictOldestSource takes the least recently active source; the empty source, when there
      is one, may spoil the search, for its key reads as no choice yet. */
  ghost predicate Evicted(sources: map<string, Level>, key: string) {
    && key in sources
    && ("" !in sources ==> forall s {:trigger sources[s]} :: s in sources ==>
      sources[key].lastActivity <= sources[s].lastActivity)
  }

  ghost predicate MadeRoom(sources: map<string, Level>, source: string, kept: map<string, Level>) {
    if source in sources || |sources| < MAX_SOURCES then kept == sources
    else exists key :: Evicted(sources, key) && kept == sources - {key}
  }

  /** The bucket a failure of the source is charged to. */
  function OwnLevel(kept: map<string, Level>, source: string, now: int): Level {
    if source in kept then kept[source] else Fresh(SOURCE_BURST, now)
  }

  function OutcomeOf(ownReady: bool, ownRetry: int, globalReady: bool, globalRetry: int): Outcome {
    if ownReady && globalReady then LetThrough else Limited(if globalRetry > ownRetry then globalRetry else ownRetry)
  }

  function Judged(g: Guard, kept: map<string, Level>, source: string, now: int): (Guard, Outcome) {
    var (own, ownReady, ownRetry) := Consume(OwnLevel(kept, source, now), now);
    var (global, globalReady, globalRetry) := Consume(g.global, now);
    (Guard(g.generation, global, kept[source := own]), OutcomeOf(ownReady, ownRetry, globalReady, globalRetry))
  }

  /** The sources that were active within the last hour. */
  ghost function Live(sources: map<string, Level>, now: int): set<string> {
    set s | s in sources && now - sources[s].lastActivity <= 3_600_000_000_000
  }

  /** The table after a failure: the source is in it, active now; sources idle for more than an hour
      are gone; the others are as they were, but that one gives way to a new source when there are
      4096: a least recently active one, unless the empty source is among them. */
  ghost predicate TableAfter(before: map<string, Level>, after: map<string, Level>, source: string, now: int) {
    var live := Live(before, now);
    && source in after && after[source].lastActivity == now && after.Keys <= live + {source}
    && (forall s :: s in live && s in after && s != source ==> after[s] == before[s])
    && (forall s :: s in live && s !in after ==> GivesWay(before, live, source, s))
    && |after| == if source in live then |live| else Min(|live| + 1, 4096)
  }

  ghost predicate GivesWay(before: map<string, Level>, live: set<string>, source: string, s: string) {
    && s in before && source !in live && |live| == 4096
    && ("" !in live ==> forall t :: t in live && t in before ==> before[s].lastActivity <= before[t].lastActivity)
  }

  lemma StoredKeys(kept: map<string, Level>, source: string, l: Level)
    ensures kept[source := l].Keys == kept.Keys + {source}
    ensures |kept[source := l]| == if source in kept then |kept| else |kept| + 1
  {
    var after := kept[source := l];
    assert |after| == |after.Keys| && |kept| == |kept.Keys|;
    assert source in kept ==> after.Keys == kept.Keys;
  }

  lemma StoredLeaves(sources: map<string, Level>, source: string, l: Level, now: int)
    requires l.lastActivity == now && |Pruned(sources, now)| <= MAX_SOURCES
    requires source in Pruned(sources, now) || |Pruned(sources, now)| < MAX_SOURCES
    ensures TableAfter(sources, Pruned(sources, now)[source := l], source, now)
  {
    StoredKeys(Pruned(sources, now), source, l);
    LiveArePruned(sources, now);
  }

  lemma EvictedLeaves(sources: map<string, Level>, key: string, source: string, l: Level, now: int)
    requires var left := Pruned(sources, now);
      |left| == MAX_SOURCES && source !in left && Evicted(left, key)
    requires l.lastActivity == now
    ensures TableAfter(sources, (Pruned(sources, now) - {key})[source := l], source, now)
  {
    var left := Pruned(sources, now);
    StoredKeys(left - {key}, source, l);
    OneFewer(left, key);
    LiveArePruned(sources, now);
    EvictedGivesWay(sources, now, source, key);
    hide GivesWay;
  }

  lemma LiveArePruned(sources: map<string, Level>, now: int)
    ensures Live(sources, now) == Pruned(sources, now).Keys && |Live(sources, now)| == |Pruned(sources, now)|
  {
    var left := Pruned(sources, now);
    assert |left| == |left.Keys|;
  }

  lemma FailureLeaves(g: Guard, kept: map<string, Level>, source: string, now: int)
    requires MadeRoom(Pruned(g.sources, now), source, kept) && |g.sources| <= MAX_SOURCES
    ensures TableAfter(g.sources, Judged(g, kept, source, now).0.sources, source, now)
  {
    hide TableAfter;
    var left, after := Pruned(g.sources, now), Judged(g, kept, source, now).0.sources;
    SmallerMap(left, g.sources);
    var l := after[source];
    assert after == kept[source := l] && l.lastActivity == now;
    hide Judged;
    if source in left || |left| < MAX_SOURCES {
      StoredLeaves(g.sources, source, l, now);
    } else {
      var key :| Evicted(left, key) && kept == left - {key};
      EvictedLeaves(g.sources, key, source, l, now);
    }
  }

  lemma EvictedGivesWay(sources: map<string, Level>, now: int, source: string, key: string)
    requires Evicted(Pruned(sources, now), key) && source !in Pruned(sources, now) && |Live(sources, now)| == 4096
    ensures GivesWay(sources, Live(sources, now), source, key)
  {
    var left := Pruned(sources, now);
    if "" !in left {
      forall t | t in left ensures sources[key].lastActivity <= sources[t].lastActivity {
        assert left[key].lastActivity <= left[t].lastActivity;
      }
    }
  }

  /** A bucket that the guard's map points to. */
  class Bucket {
    var tokens: nat
    var capacity: nat
    var lastRefill: int
    var lastActivity: int

    ghost function View(): Level
      reads this
    {
      Level(tokens, capacity, lastRefill, lastActivity)
    }

    constructor (l: Level)
      ensures View() == l
    {
      tokens, capacity, lastRefill, lastActivity := l.tokens, l.capacity, l.lastRefill, l.lastActivity;
    }

    method Assign(l: Level)
      modifies this
      ensures View() == l
    {
      tokens, capacity, lastRefill, lastActivity := l.tokens, l.capacity, l.lastRefill, l.lastActivity;
    }

    method ConsumeToken(now: int) returns (ready: bool, retry: int)
      modifies this
      ensures (View(), ready, retry) == Consume(old(View()), now)
    {
      if capacity == 0 {
        Assign(Fresh(GENERATION_BURST, now));
      }
      if now > lastRefill {
        var intervals := (now - lastRefill) / REFILL;
        if intervals > 0 {
          tokens := if tokens + intervals < capacity then tokens + intervals else capacity;
          lastRefill := lastRefill + intervals * REFILL;
        }
      }
      lastActivity := now;
      if tokens > 0 {
        tokens := tokens - 1;
        return true, 0;
      }
      retry := REFILL - (now - lastRefill);
      if retry <= 0 {
        retry := REFILL;
      }
      ready := false;
    }
  }

  class LoginGuard {
    var generation: int
    const global: Bucket
    var sources: map<string, Bucket>

    ghost function Buckets(): set<Bucket>
      reads this
    {
      {global} + set s | s in sources :: sources[s]
    }

    /** No two sources share a bucket, nor any with the global one. */
    ghost predicate Valid()
      reads this
    {
      && (forall s {:trigger sources[s]} :: s in sources ==> sources[s] != global)
      && (forall s, t {:trigger sources[s], sources[t]} ::
        s in sources && t in sources && sources[s] == sources[t] ==> s == t)
      && |sources| <= MAX_SOURCES
    }

    ghost function Levels(): map<string, Level>
      reads this, Buckets()
    {
      map s | s in sources :: sources[s].View()
    }

    ghost function View(): Guard
      reads this, Buckets()
    {
      Guard(generation, global.View(), Levels())
    }

    constructor ()
      ensures Valid() && View() == Guard(0, UNSET, map[]) && fresh(global)
    {
      generation, sources := 0, map[];
      global := new Bucket(UNSET);
    }

    method Reset(generation: int, now: int)
      requires Valid()
      modifies this, global
      ensures Valid() && View() == Guard(generation, Fresh(GENERATION_BURST, now), map[]) && sources == map[]
    {
      this.generation := generation;
      global.Assign(Fresh(GENERATION_BURST, now));
      sources := map[];
    }

    /** pruneSources. */
    method Prune(now: int)
      requires Valid()
      modifies `sources
      ensures Valid() && Levels() == Pruned(old(Levels()), now) && Buckets() <= old(Buckets())
    {
      var left := sources.Keys;
      ghost var all := sources;
      while left != {}
        invariant left <= sources.Keys <= all.Keys
        invariant forall s {:trigger sources[s]} :: s in sources ==> sources[s] == all[s]
        invariant forall s {:trigger all[s]} :: s in all ==>
          (s in sources <==> s in left || now - all[s].lastActivity <= SOURCE_TTL)
        decreases left
      {
        var s := AnyOf(left);
        left := left - {s};
        if now - sources[s].lastActivity > SOURCE_TTL {
          sources := sources - {s};
        }
      }
      SmallerMap(sources, all);
      assert forall s {:trigger sources[s]} :: s in sources ==> s in all && sources[s] == all[s];
    }

    /** The search in evictOldestSource, over the sources in any order. */
    method OldestSource() returns (oldestSource: string)
      requires Valid() && sources != map[]
      ensures Evicted(Levels(), oldestSource)
    {
      oldestSource := "";
      var oldestActivity := 0;
      var left := sources.Keys;
      while left != {}
        invariant left <= sources.Keys
        invariant left != sources.Keys ==> oldestSource in sources && oldestSource !in left
        invariant left != sources.Keys ==> oldestActivity == sources[oldestSource].lastActivity
        invariant left == sources.Keys ==> oldestSource == ""
        invariant "" !in sources ==>
          forall s {:trigger sources[s]} :: s in sources && s !in left ==> oldestActivity <= sources[s].lastActivity
        decreases left
      {
        var s := AnyOf(left);
        left := left - {s};
        if oldestSource == "" || sources[s].lastActivity < oldestActivity {
          oldestSource := s;
          oldestActivity := sources[s].lastActivity;
        }
      }
    }

    /** evictOldestSource. */
    method EvictOldest()
      requires Valid()
      modifies `sources
      ensures Valid() && sources.Keys <= old(sources.Keys) && |sources| < MAX_SOURCES
      ensures forall s {:trigger sources[s]} :: s in sources ==> sources[s] == old(sources)[s]
      ensures if |old(sources)| < MAX_SOURCES then sources == old(sources)
              else exists key :: Evicted(old(Levels()), key) && sources == old(sources) - {key}
    {
      if |sources| < MAX_SOURCES {
        return;
      }
      var oldestSource := OldestSource();
      ghost var all := sources;
      sources := sources - {oldestSource};
      OneFewer(all, oldestSource);
    }

    method MakeRoom(source: string) returns (ghost kept: map<string, Level>)
      requires Valid() && source !in sources
      modifies `sources
      ensures Valid() && MadeRoom(old(Levels()), source, kept) && kept == Levels()
      ensures source !in sources && |sources| < MAX_SOURCES && Buckets() <= old(Buckets())
    {
      ghost var before := Levels();
      assert before.Keys == sources.Keys && |before| == |before.Keys| && |sources| == |sources.Keys|;
      EvictOldest();
      kept := Levels();
    }

    /** A source without a bucket gets one. */
    method NewSource(source: string, now: int) returns (ghost kept: map<string, Level>)
      requires Valid() && source !in sources
      modifies `sources
      ensures Valid() && MadeRoom(old(Levels()), source, kept)
      ensures source in sources && fresh(sources[source]) && (Buckets() - {sources[source]}) <= old(Buckets())
      ensures source !in kept && Levels() == kept[source := Fresh(SOURCE_BURST, now)]
    {
      kept := MakeRoom(source);
      AddSource(source, now);
    }

    method AddSource(source: string, now: int)
      requires Valid() && source !in sources && |sources| < MAX_SOURCES
      modifies `sources
      ensures Valid() && source in sources && fresh(sources[source])
      ensures Buckets() - {sources[source]} <= old(Buckets())
      ensures Levels() == old(Levels())[source := Fresh(SOURCE_BURST, now)]
    {
      var bucket := new Bucket(Fresh(SOURCE_BURST, now));
      sources := sources[source := bucket];
    }

    method ChargeSource(source: string, now: int, ghost kept: map<string, Level>, ghost level: Level)
      returns (ready: bool, retry: int, ghost after: Level)
      requires Valid() && source in sources && Levels() == kept[source := level]
      modifies sources[source]
      ensures Levels() == kept[source := after] && global.View() == old(global.View())
      ensures (after, ready, retry) == Consume(level, now)
    {
      assert Levels()[source] == level;
      ready, retry := sources[source].ConsumeToken(now);
      after := sources[source].View();
    }

    /** Find or make the source's bucket, and charge it. */
    method ChargeOwn(source: string, now: int) returns (ready: bool, retry: int, ghost kept: map<string, Level>)
      requires Valid()
      modifies `sources, Buckets() - {global}
      ensures Valid() && MadeRoom(old(Levels()), source, kept) && global.View() == old(global.View())
      ensures Levels() == kept[source := Consume(OwnLevel(kept, source, now), now).0]
      ensures ready == Consume(OwnLevel(kept, source, now), now).1
      ensures retry == Consume(OwnLevel(kept, source, now), now).2
    {
      kept := FindSource(source, now);
      ghost var after;
      ready, retry, after := ChargeSource(source, now, kept, OwnLevel(kept, source, now));
    }

    /** The source's bucket is there, or is made. */
    method FindSource(source: string, now: int) returns (ghost kept: map<string, Level>)
      requires Valid()
      modifies `sources
      ensures Valid() && MadeRoom(old(Levels()), source, kept)
      ensures source in sources && (fresh(sources[source]) || sources[source] in old(Buckets()) - {global})
      ensures Levels() == kept[source := OwnLevel(kept, source, now)]
    {
      kept := Levels();
      if source !in sources {
        kept := NewSource(source, now);
      }
    }

    method ChargeGlobal(now: int) returns (ready: bool, retry: int)
      requires Valid()
      modifies global
      ensures (global.View(), ready, retry) == Consume(old(global.View()), now) && Levels() == old(Levels())
    {
      ready, retry := global.ConsumeToken(now);
    }

    /** recordFailure, once stale sources are gone. */
    method Charge(source: string, now: int) returns (o: Outcome, ghost kept: map<string, Level>)
      requires Valid()
      modifies `sources, Buckets()
      ensures Valid() && MadeRoom(old(Levels()), source, kept)
      ensures (View(), o) == Judged(old(View()), kept, source, now)
    {
      var sourceReady, sourceRetry;
      sourceReady, sourceRetry, kept := ChargeOwn(source, now);
      var globalReady, globalRetry := ChargeGlobal(now);
      o := OutcomeOf(sourceReady, sourceRetry, globalReady, globalRetry);
    }

    /** recordFailure. */
    method RecordFailure(source: string, generation: int, now: int) returns (o: Outcome, ghost kept: map<string, Level>)
      requires Valid()
      modifies this, Buckets()
      ensures Valid() && MadeRoom(Pruned(WithGeneration(old(View()), generation, now).sources, now), source, kept)
      ensures (View(), o) == Judged(WithGeneration(old(View()), generation, now), kept, source, now)
      ensures this.generation == generation
      ensures generation != old(this.generation) ==> global.View() == Level(19, 20, now, now)
      ensures TableAfter(if generation == old(this.generation) then old(Levels()) else map[], Levels(), source, now)
    {
      if generation != this.generation {
        Reset(generation, now);
      }
      ghost var g := View();
      assert |g.sources| == |g.sources.Keys| && g.sources.Keys == sources.Keys;
      Prune(now);
      o, kept := Charge(source, now);
      FailureLeaves(g, kept, source, now);
    }

    method RecordSuccess(source: string)
      requires Valid()
      modifies `sources
      ensures Valid() && sources == old(sources) - {source}
    {
      sources := sources - {source};
      SmallerMap(sources, old(sources));
    }
  }

  lemma OneFewer<V>(m: map<string, V>, key: string)
    requires key in m
    ensures |m - {key}| == |m| - 1 && (m - {key}).Keys == m.Keys - {key}
  {
    assert |m - {key}| == |(m - {key}).Keys| && |m| == |m.Keys|;
  }

  /** The failures still to be let through until time until, for calls no earlier than since. */
  function Potential(l: Level, since: int, until: int): int
    requires since <= until
  {
    Min(l.tokens + Intervals(l.lastRefill, until), l.capacity + 1 + Intervals(since, until))
  }

  lemma AdvancedFresh(l: Level, now: int)
    ensures now - Advance(l, now).lastRefill < REFILL
  {
  }

  lemma AdvancePotential(l: Level, now: int, since: int, until: int)
    requires Sane(l) && since <= now <= until
    ensures Potential(Advance(l, now), since, until) <= Potential(l, since, until)
    ensures Advance(l, now).tokens + Intervals(Advance(l, now).lastRefill, until)
      <= l.capacity + 1 + Intervals(since, until)
  {
    var r := Advance(l, now);
    AdvancedFresh(l, now);
    RecentIntervals(r.lastRefill, now, since, until);
    if r != l {
      IntervalsSplit(l.lastRefill, (now - l.lastRefill) / REFILL, until);
    }
  }

  /** A bucket's charge lowers the potential by one exactly when it is ready. */
  lemma ConsumePotential(l: Level, now: int, since: int, until: int)
    requires Sane(l) && l.capacity > 0 && since <= now <= until
    ensures var (r, ready, _) := Consume(l, now);
      Sane(r) && r.capacity == l.capacity
      && Potential(r, since, until) <= Potential(l, since, until) - if ready then 1 else 0
  {
    AdvancePotential(l, now, since, until);
  }

  /** Calls between two resets: failures under the guard's generation, and successes. */
  datatype Call = Succeed(source: string) | Fail(source: string, now: int)

  /** The guard, and the number of failures let through so far. */
  datatype Point = Point(guard: Guard, passed: nat)

  ghost predicate Step(p: Point, call: Call, next: Point) {
    match call
    case Succeed(source) => next == p.(guard := p.guard.(sources := p.guard.sources - {source}))
    case Fail(source, now) =>
      exists kept :: MadeRoom(Pruned(p.guard.sources, now), source, kept)
        && next.guard == Judged(p.guard, kept, source, now).0
        && next.passed == p.passed + if Judged(p.guard, kept, source, now).1.LetThrough? then 1 else 0
  }

  /** Failures within a window, and successes at any time. */
  function Within(since: int, until: int): Call -> bool {
    (c: Call) => c.Fail? ==> since <= c.now <= until
  }

  /** The global bucket as every generation starts it, or not yet set up. */
  predicate Global(l: Level) {
    Sane(l) && (l.capacity == GENERATION_BURST || l.capacity == 0)
  }

  /** What is still to be let through: a bucket not yet set up is a full one. */
  function Left(l: Level, since: int, until: int): int
    requires since <= until
  {
    if l.capacity == 0 then GENERATION_BURST + 1 + Intervals(since, until) else Potential(l, since, until)
  }

  lemma ConsumeLeft(l: Level, now: int, since: int, until: int)
    requires Global(l) && since <= now <= until
    ensures var (r, ready, _) := Consume(l, now);
      Global(r) && Left(r, since, until) <= Left(l, since, until) - if ready then 1 else 0
  {
    ConsumePotential(SetUp(l, now), now, since, until);
    IntervalsMonotone(since, now, until);
  }

  lemma StepLeft(p: Point, call: Call, next: Point, since: int, until: int)
    requires Step(p, call, next) && Global(p.guard.global) && since <= until
    requires call.Fail? ==> since <= call.now <= until
    ensures Global(next.guard.global)
    ensures next.passed - p.passed <= Left(p.guard.global, since, until) - Left(next.guard.global, since, until)
  {
    if call.Fail? {
      ConsumeLeft(p.guard.global, call.now, since, until);
    }
  }

  const PASSED: Point -> int := (p: Point) => p.passed
  const GLOBAL_SANE: Point -> bool := (p: Point) => Global(p.guard.global)

  function LeftIn(since: int, until: int): Point -> int
    requires since <= until
  {
    (p: Point) => Left(p.guard.global, since, until)
  }

  lemma StepsPay(since: int, until: int)
    requires since <= until
    ensures Pays(Step, Within(since, until), GLOBAL_SANE, PASSED, LeftIn(since, until))
  {
    forall p, call, next | Step(p, call, next) && Within(since, until)(call) && GLOBAL_SANE(p)
      ensures GLOBAL_SANE(next)
      ensures PASSED(next) - PASSED(p) <= LeftIn(since, until)(p) - LeftIn(since, until)(next)
    {
      StepLeft(p, call, next, since, until);
    }
  }

  /** Between resets, at most 21 failures and one for every 30 seconds are let through, whatever
      the sources and however they succeed, go stale or are evicted. */
  lemma WindowBound(calls: seq<Call>, points: seq<Point>, since: int, until: int)
    requires IsRun(Step, calls, points) && Only(Within(since, until), calls)
    requires since <= until && Global(points[0].guard.global)
    ensures points[|calls|].passed - points[0].passed <= 21 + (until - since) / REFILL
  {
    StepsPay(since, until);
    RunPays(Step, Within(since, until), GLOBAL_SANE, PASSED, LeftIn(since, until), calls, points, |calls|);
  }

  ghost predicate StrangersFrom(g: Guard, n: nat) {
    |g.sources| <= n < MAX_SOURCES && forall s :: s in g.sources ==> |s| < n
  }

  lemma StrangerPasses(p: Point, now: int, n: nat) returns (next: Point)
    requires StrangersFrom(p.guard, n) && Consume(p.guard.global, now).1
    ensures Step(p, Fail(Stranger(n), now), next) && next.passed == p.passed + 1
    ensures next.guard.global == Consume(p.guard.global, now).0
    ensures Stranger(n) in next.guard.sources
    ensures next.guard.sources[Stranger(n)] == Consume(Fresh(SOURCE_BURST, now), now).0
    ensures n + 1 < MAX_SOURCES ==> StrangersFrom(next.guard, n + 1)
  {
    var kept, s := Pruned(p.guard.sources, now), Stranger(n);
    SmallerMap(kept, p.guard.sources);
    assert s !in kept && MadeRoom(kept, s, kept);
    next := Point(Judged(p.guard, kept, s, now).0, p.passed + 1);
    assert next.guard.sources.Keys == kept.Keys + {s};
  }

  /** A bucket that is not due only loses a token. */
  lemma NotDue(l: Level, now: int)
    requires l.capacity > 0 && l.tokens > 0 && l.lastRefill <= now < l.lastRefill + REFILL
    ensures Consume(l, now) == (l.(tokens := l.tokens - 1, lastActivity := now), true, 0)
  {
  }

  /** n strangers in a row, all at one time, use up n tokens of a bucket that is not due. */
  lemma {:induction false} Burst(allowed: Call -> bool, p: Point, q: Point, now: int, first: nat, n: nat)
    returns (r: Point)
    requires Leads(Step, allowed, p, q) && forall s :: allowed(Fail(s, now))
    requires StrangersFrom(q.guard, first) && first + n < MAX_SOURCES && q.guard.global.capacity > 0
    requires n <= q.guard.global.tokens
    requires q.guard.global.lastRefill <= now < q.guard.global.lastRefill + REFILL
    ensures Leads(Step, allowed, p, r) && r.passed == q.passed + n && StrangersFrom(r.guard, first + n)
    ensures r.guard.global ==
      q.guard.global.(tokens := q.guard.global.tokens - n, lastActivity := r.guard.global.lastActivity)
    decreases n
  {
    if n == 0 {
      r := q;
    } else {
      NotDue(q.guard.global, now);
      var one := StrangerPasses(q, now, first);
      LeadsOn(Step, allowed, p, q, Fail(Stranger(first), now), one);
      r := Burst(allowed, p, one, now, first + 1, n - 1);
    }
  }

  /** The first refill of an emptied bucket. */
  lemma FirstRefill(activity: int)
    ensures Consume(Level(0, GENERATION_BURST, 1, activity), REFILL + 1).1
  {
  }

  /** Within one nanosecond 21 failures are let through. */
  ghost predicate PassesMost(p: Point, since: int, q: Point) {
    Global(p.guard.global) && Leads(Step, Within(since, since + 1), p, q) && q.passed == p.passed + 21
  }

  /** The bound is exact. */
  lemma WindowBoundExact()
    ensures exists p, since, q :: PassesMost(p, since, q)
  {
    var p, since := Point(Guard(0, Fresh(GENERATION_BURST, 1), map[]), 0), REFILL;
    var window := Within(since, since + 1);
    LeadsNowhere(Step, window, p);
    var empty := Burst(window, p, p, since, 0, GENERATION_BURST);
    FirstRefill(empty.guard.global.lastActivity);
    var last := StrangerPasses(empty, since + 1, GENERATION_BURST);
    LeadsOn(Step, window, p, empty, Fail(Stranger(GENERATION_BURST), since + 1), last);
    assert PassesMost(p, since, last);
  }

  /** Both buckets when the failure is charged. */
  function Charged(g: Guard, kept: map<string, Level>, source: string, now: int): (Level, Level) {
    (Advance(SetUp(OwnLevel(kept, source, now), now), now), Advance(SetUp(g.global, now), now))
  }

  /** One bucket is empty while the other gives away its last token, and is due later. */
  predicate PromisesTooMuch(a: Level, b: Level) {
    || (a.tokens == 0 && b.tokens == 1 && a.lastRefill < b.lastRefill)
    || (b.tokens == 0 && a.tokens == 1 && b.lastRefill < a.lastRefill)
  }

  lemma EmptyRetry(l: Level, now: int)
    requires Sane(l) && Advance(SetUp(l, now), now).tokens == 0
    ensures now + Consume(l, now).2 == Advance(SetUp(l, now), now).lastRefill + REFILL
  {
    AdvancedFresh(SetUp(l, now), now);
  }

  /** A charged bucket is ready again at t if it kept a token or its refill has come. */
  lemma ReadyAgain(l: Level, now: int, t: int)
    requires Sane(l) && now <= t
    ensures var a := Advance(SetUp(l, now), now);
      Consume(Consume(l, now).0, t).1 <==> a.tokens > 1 || t >= a.lastRefill + REFILL
  {
    var a := Advance(SetUp(l, now), now);
    var r := Consume(l, now).0;
    assert r.tokens == if a.tokens > 0 then a.tokens - 1 else 0;
    assert r.lastRefill == a.lastRefill && r.capacity > 0 && SetUp(r, t) == r;
  }

  /** After a limited failure with retry r, and no call in between, the source is limited before
      now + r; at now + r it is let through exactly when the failed call did not use up the last
      token of a bucket that is due later. */
  lemma RetryExact(g: Guard, kept: map<string, Level>, source: string, now: int, t: int)
    requires Sane(OwnLevel(kept, source, now)) && Global(g.global) && Judged(g, kept, source, now).1.Limited?
    requires now <= t <= now + SOURCE_TTL
    ensures var (after, o) := Judged(g, kept, source, now);
      var again := Judged(after, Pruned(after.sources, t), source, t).1;
      var (a, b) := Charged(g, kept, source, now);
      (t < now + o.retry ==> again.Limited?)
      && (t == now + o.retry ==> (again.LetThrough? <==> !PromisesTooMuch(a, b)))
  {
    var own := OwnLevel(kept, source, now);
    var (after, o) := Judged(g, kept, source, now);
    var (a, b) := Charged(g, kept, source, now);
    ReadyAgain(own, now, t);
    ReadyAgain(g.global, now, t);
    assert OwnLevel(Pruned(after.sources, t), source, t) == Consume(own, now).0;
    LimitedRetry(g, kept, source, now);
  }

  /** The retry is that of the empty bucket, or of the later of two empty ones. */
  lemma LimitedRetry(g: Guard, kept: map<string, Level>, source: string, now: int)
    requires Sane(OwnLevel(kept, source, now)) && Global(g.global) && Judged(g, kept, source, now).1.Limited?
    ensures var (a, b) := Charged(g, kept, source, now);
      now + Judged(g, kept, source, now).1.retry ==
        REFILL + if b.tokens > 0 then a.lastRefill
        else if a.tokens > 0 then b.lastRefill
        else Max(a.lastRefill, b.lastRefill)
  {
    var (a, b) := Charged(g, kept, source, now);
    if a.tokens == 0 {
      EmptyRetry(OwnLevel(kept, source, now), now);
      AdvancedFresh(SetUp(OwnLevel(kept, source, now), now), now);
    }
    if b.tokens == 0 {
      EmptyRetry(g.global, now);
      AdvancedFresh(SetUp(g.global, now), now);
    }
  }

  /** A client that fails now, waits exactly as long as it was told and fails again is limited
      both times. Its bucket is in the table, so neither call needs to make room. */
  ghost predicate LimitedAgain(g: Guard, source: string, now: int) {
    var kept := Pruned(g.sources, now);
    var (after, o) := Judged(g, kept, source, now);
    && source in kept && o.Limited? && source in Pruned(after.sources, now + o.retry)
    && Judged(after, Pruned(after.sources, now + o.retry), source, now + o.retry).1.Limited?
  }

  /** A failure that is let through while neither bucket is due, for a source with a bucket. */
  lemma FailsOnce(p: Point, s: string, own: Level, global: Level, now: int) returns (next: Point)
    requires s in p.guard.sources && p.guard.sources[s] == own && p.guard.global == global
    requires own.lastActivity <= now && now - own.lastActivity <= SOURCE_TTL
    requires own.capacity > 0 && own.tokens > 0 && own.lastRefill <= now < own.lastRefill + REFILL
    requires global.capacity > 0 && global.tokens > 0 && global.lastRefill <= now < global.lastRefill + REFILL
    ensures Step(p, Fail(s, now), next) && s in next.guard.sources
    ensures next.guard.sources[s] == own.(tokens := own.tokens - 1, lastActivity := now)
    ensures next.guard.global == global.(tokens := global.tokens - 1, lastActivity := now)
  {
    var kept := Pruned(p.guard.sources, now);
    NotDue(own, now);
    NotDue(global, now);
    assert s in kept && MadeRoom(kept, s, kept);
    next := Point(Judged(p.guard, kept, s, now).0, p.passed + 1);
  }

  /** n failures in a row of one source with a bucket, all at one time. */
  lemma {:induction false} FailsTimes(allowed: Call -> bool, p: Point, q: Point, s: string, own: Level, global: Level,
    now: int, n: nat) returns (r: Point)
    requires Leads(Step, allowed, p, q) && allowed(Fail(s, now))
    requires s in q.guard.sources && q.guard.sources[s] == own && q.guard.global == global
    requires own.lastActivity == now && own.capacity > 0 && own.tokens >= n
    requires own.lastRefill <= now < own.lastRefill + REFILL
    requires global.lastActivity == now && global.capacity > 0 && global.tokens >= n
    requires global.lastRefill <= now < global.lastRefill + REFILL
    ensures Leads(Step, allowed, p, r) && s in r.guard.sources
    ensures r.guard.sources[s] == own.(tokens := own.tokens - n)
    ensures r.guard.global == global.(tokens := global.tokens - n)
    decreases n
  {
    if n == 0 {
      r := q;
    } else {
      var one := FailsOnce(q, s, own, global, now);
      LeadsOn(Step, allowed, p, q, Fail(s, now), one);
      r := FailsTimes(allowed, p, one, s, one.guard.sources[s], one.guard.global, now, n - 1);
    }
  }

  /** A guard nobody has called yet. */
  const UNCALLED := Point(Guard(0, UNSET, map[]), 0)

  /** Sixteen strangers fail in the first second, all let through. */
  lemma SixteenStrangers(allowed: Call -> bool) returns (q: Point)
    requires forall s :: allowed(Fail(s, SECOND))
    ensures Leads(Step, allowed, UNCALLED, q) && StrangersFrom(q.guard, 16)
    ensures q.guard.global == Level(4, GENERATION_BURST, SECOND, q.guard.global.lastActivity)
  {
    LeadsNowhere(Step, allowed, UNCALLED);
    NotDue(Fresh(GENERATION_BURST, SECOND), SECOND);
    var one := StrangerPasses(UNCALLED, SECOND, 0);
    LeadsOn(Step, allowed, UNCALLED, UNCALLED, Fail(Stranger(0), SECOND), one);
    q := Burst(allowed, UNCALLED, one, SECOND, 1, 15);
  }

  /** One more source fails four times in the next second: that leaves it one token, and the
      global bucket none. */
  lemma FourFailures(allowed: Call -> bool, p: Point, s: string) returns (q: Point)
    requires Leads(Step, allowed, UNCALLED, p) && allowed(Fail(s, 2 * SECOND))
    requires StrangersFrom(p.guard, 16) && s == Stranger(16)
    requires p.guard.global == Level(4, GENERATION_BURST, SECOND, p.guard.global.lastActivity)
    ensures Leads(Step, allowed, UNCALLED, q) && s in q.guard.sources
    ensures q.guard.sources[s] == Level(1, SOURCE_BURST, 2 * SECOND, 2 * SECOND)
    ensures q.guard.global == Level(0, GENERATION_BURST, SECOND, 2 * SECOND)
  {
    var now := 2 * SECOND;
    NotDue(p.guard.global, now);
    var one := StrangerPasses(p, now, 16);
    NotDue(Fresh(SOURCE_BURST, now), now);
    LeadsOn(Step, allowed, UNCALLED, p, Fail(s, now), one);
    q := FailsTimes(allowed, UNCALLED, one, s, one.guard.sources[s], one.guard.global, now, 3);
  }

  /** A run of failures within two seconds, after which a client is limited, waits exactly the 28
      seconds it is told, and is limited again. */
  lemma RetryTooEarly()
    ensures exists q, s :: Leads(Step, Within(SECOND, 2 * SECOND), UNCALLED, q) && LimitedAgain(q.guard, s, 3 * SECOND)
  {
    var window, s := Within(SECOND, 2 * SECOND), Stranger(16);
    var p := SixteenStrangers(window);
    var q := FourFailures(window, p, s);
    LastTokenGone(q.guard, s);
  }

  lemma LastTokenGone(g: Guard, s: string)
    requires s in g.sources && g.sources[s] == Level(1, SOURCE_BURST, 2 * SECOND, 2 * SECOND)
    requires g.global == Level(0, GENERATION_BURST, SECOND, 2 * SECOND)
    ensures LimitedAgain(g, s, 3 * SECOND)
  {
    var kept := Pruned(g.sources, 3 * SECOND);
    LimitedRetry(g, kept, s, 3 * SECOND);
    RetryExact(g, kept, s, 3 * SECOND, SECOND + REFILL);
  }
}
