/** What a search shows of a list, and what that means for whoever reads it. */
module SearchResults {
  import opened Collections
  import opened Text
  import opened Sorting
  import opened IndexFile
  import opened Ranking
  import opened FuzzyMatch

  datatype Result = Result(path: string, name: string, score: int)

  function FirstOf(name: string -> string, paths: seq<string>, limit: nat): seq<Result> {
    seq(Min(limit, |paths|), i requires 0 <= i < |paths| => Result(paths[i], name(paths[i]), 0))
  }

  function BestOf(name: string -> string, ranked: seq<Item>, limit: nat): seq<Result> {
    seq(Min(limit, |ranked|), i requires 0 <= i < |ranked| =>
      Result(ranked[i].path, name(ranked[i].path), ranked[i].score))
  }

  /** The reference: results of a search that looks at every path of the list. */
  function FullResults(fuzzy: Fuzzy, query: string, paths: seq<string>, limit: nat): seq<Result> {
    if query == "" then FirstOf(NAME, paths, limit)
    else BestOf(NAME, FullRanking(fuzzy.For(query), paths), limit)
  }

  /** Whether a path is among the hits; the empty query hits every path. */
  predicate Wanted(fuzzy: Fuzzy, query: string, path: string) {
    query == "" || fuzzy.Matches(query, BaseName(path)) || fuzzy.Matches(query, path)
  }

  function ScoreOf(fuzzy: Fuzzy, query: string, path: string): int {
    if query == "" then 0 else Score(fuzzy.For(query), path)
  }

  /** The higher score first, and paths of the same score in the order of strings. */
  predicate Before(score: int, path: string, otherScore: int, otherPath: string) {
    score > otherScore || (score == otherScore && Less(path, otherPath))
  }

  ghost predicate BestFirst(results: seq<Result>) {
    forall i, j :: 0 <= i < j < |results| ==>
      Before(results[i].score, results[i].path, results[j].score, results[j].path)
  }

  ghost predicate Shown(results: seq<Result>, path: string) {
    exists r :: r in results && r.path == path
  }

  /** A result is a hit of the list with its name and its score. */
  ghost predicate TrueHit(fuzzy: Fuzzy, query: string, paths: seq<string>, r: Result) {
    && r.path in paths && Wanted(fuzzy, query, r.path)
    && r.name == BaseName(r.path) && r.score == ScoreOf(fuzzy, query, r.path)
  }

  /** Hits in order, as many as may be shown, and none left out that belongs before one of them. */
  ghost predicate ShowsBest(fuzzy: Fuzzy, query: string, paths: seq<string>, limit: nat, results: seq<Result>) {
    && |results| <= limit && BestFirst(results)
    && (forall r :: r in results ==> TrueHit(fuzzy, query, paths, r))
    && (forall p :: p in paths && Wanted(fuzzy, query, p) && !Shown(results, p) ==>
      |results| == limit && forall r :: r in results ==> Before(r.score, r.path, ScoreOf(fuzzy, query, p), p))
  }

  lemma HitMeans(fuzzy: Fuzzy, query: string, path: string)
    ensures Hit(fuzzy.For(query), path) <==> fuzzy.Matches(query, BaseName(path)) || fuzzy.Matches(query, path)
  {
    var m := fuzzy.For(query);
    assert m.name(path) == BaseName(path);
    assert m.hit(BaseName(path)) == fuzzy.Matches(query, BaseName(path)) && m.hit(path) == fuzzy.Matches(query, path);
  }

  lemma FirstShowsBest(fuzzy: Fuzzy, paths: seq<string>, limit: nat)
    requires IsListing(paths)
    ensures ShowsBest(fuzzy, "", paths, limit, FirstOf(NAME, paths, limit))
  {
    var results := FirstOf(NAME, paths, limit);
    forall i, j | 0 <= i < j < |results|
      ensures Before(results[i].score, results[i].path, results[j].score, results[j].path)
    {
      assert PATH_LESS(paths[i], paths[j]);
    }
    forall r | r in results ensures TrueHit(fuzzy, "", paths, r) {
      var i :| 0 <= i < |results| && results[i] == r;
      assert r.path == paths[i];
    }
    forall p | p in paths && !Shown(results, p)
      ensures |results| == limit && forall r :: r in results ==> Before(r.score, r.path, ScoreOf(fuzzy, "", p), p)
    {
      forall r | r in results ensures Before(r.score, r.path, ScoreOf(fuzzy, "", p), p) {
        UnshownFollows(paths, limit, p, r);
      }
      var k := UnshownIsLate(paths, limit, p);
    }
  }

  lemma FirstShown(paths: seq<string>, limit: nat)
    ensures forall i :: 0 <= i < limit && i < |paths| ==> Shown(FirstOf(NAME, paths, limit), paths[i])
  {
    var results := FirstOf(NAME, paths, limit);
    forall i | 0 <= i < limit && i < |paths| ensures Shown(results, paths[i]) {
      assert results[i] in results && results[i].path == paths[i];
    }
  }

  lemma UnshownIsLate(paths: seq<string>, limit: nat, p: string) returns (k: nat)
    requires p in paths && !Shown(FirstOf(NAME, paths, limit), p)
    ensures k < |paths| && paths[k] == p && |FirstOf(NAME, paths, limit)| == limit <= k
  {
    FirstShown(paths, limit);
    k :| 0 <= k < |paths| && paths[k] == p;
  }

  lemma UnshownFollows(paths: seq<string>, limit: nat, p: string, r: Result)
    requires IsListing(paths) && p in paths && !Shown(FirstOf(NAME, paths, limit), p)
    requires r in FirstOf(NAME, paths, limit)
    ensures r.score == 0 && Less(r.path, p)
  {
    var results := FirstOf(NAME, paths, limit);
    var k := UnshownIsLate(paths, limit, p);
    var i :| 0 <= i < |results| && results[i] == r;
    assert PATH_LESS(paths[i], paths[k]);
  }

  lemma RankedShowBest(fuzzy: Fuzzy, query: string, paths: seq<string>, limit: nat)
    requires IsListing(paths) && query != ""
    ensures ShowsBest(fuzzy, query, paths, limit, BestOf(NAME, FullRanking(fuzzy.For(query), paths), limit))
  {
    var m := fuzzy.For(query);
    var ranked := FullRanking(m, paths);
    var results := BestOf(NAME, ranked, limit);
    FullRankingElements(m, paths);
    forall i, j | 0 <= i < j < |results|
      ensures Before(results[i].score, results[i].path, results[j].score, results[j].path)
    {
      assert ITEM_LESS(ranked[i], ranked[j]);
    }
    forall r | r in results ensures TrueHit(fuzzy, query, paths, r) {
      var i :| 0 <= i < |results| && results[i] == r;
      RankedIsHit(fuzzy, query, paths, ranked[i]);
    }
    forall p | p in paths && Wanted(fuzzy, query, p) && !Shown(results, p)
      ensures |results| == limit && forall r :: r in results ==> Before(r.score, r.path, ScoreOf(fuzzy, query, p), p)
    {
      var k := WantedIsRanked(fuzzy, query, paths, p);
      LeftOutFollows(ranked, limit, k);
    }
  }

  lemma RankedIsHit(fuzzy: Fuzzy, query: string, paths: seq<string>, x: Item)
    requires query != "" && IsHit(fuzzy.For(query), paths, x)
    ensures TrueHit(fuzzy, query, paths, Result(x.path, NAME(x.path), x.score))
  {
    HitMeans(fuzzy, query, x.path);
    assert x.path == paths[x.index] && x.path in paths;
    assert x.score == Score(fuzzy.For(query), x.path) == ScoreOf(fuzzy, query, x.path);
    assert NAME(x.path) == BaseName(x.path);
  }

  lemma BestShown(ranked: seq<Item>, limit: nat)
    ensures forall i :: 0 <= i < limit && i < |ranked| ==> Shown(BestOf(NAME, ranked, limit), ranked[i].path)
  {
    var results := BestOf(NAME, ranked, limit);
    forall i | 0 <= i < limit && i < |ranked| ensures Shown(results, ranked[i].path) {
      assert results[i] in results && results[i].path == ranked[i].path;
    }
  }

  /** What a ranking has past the limit comes after all that is shown. */
  lemma LeftOutFollows(ranked: seq<Item>, limit: nat, k: nat)
    requires StrictlySorted(ITEM_LESS, ranked) && k < |ranked|
    requires !Shown(BestOf(NAME, ranked, limit), ranked[k].path)
    ensures |BestOf(NAME, ranked, limit)| == limit
    ensures forall r :: r in BestOf(NAME, ranked, limit) ==> Before(r.score, r.path, ranked[k].score, ranked[k].path)
  {
    var results := BestOf(NAME, ranked, limit);
    BestShown(ranked, limit);
    assert limit <= k;
    forall r | r in results ensures Before(r.score, r.path, ranked[k].score, ranked[k].path) {
      var i :| 0 <= i < |results| && results[i] == r;
      assert ITEM_LESS(ranked[i], ranked[k]);
    }
  }

  lemma WantedIsRanked(fuzzy: Fuzzy, query: string, paths: seq<string>, p: string) returns (k: nat)
    requires IsListing(paths) && query != "" && p in paths && Wanted(fuzzy, query, p)
    ensures var ranked := FullRanking(fuzzy.For(query), paths);
      k < |ranked| && ranked[k].path == p && ranked[k].score == ScoreOf(fuzzy, query, p)
  {
    var m := fuzzy.For(query);
    var ranked := FullRanking(m, paths);
    FullRankingElements(m, paths);
    HitMeans(fuzzy, query, p);
    var at :| 0 <= at < |paths| && paths[at] == p;
    var x := ItemAt(m, paths, at);
    assert IsHit(m, paths, x);
    k :| 0 <= k < |ranked| && ranked[k] == x;
  }

  /** The reference shows the best hits, best first. */
  lemma FullResultsShowBest(fuzzy: Fuzzy, query: string, paths: seq<string>, limit: nat)
    requires IsListing(paths)
    ensures ShowsBest(fuzzy, query, paths, limit, FullResults(fuzzy, query, paths, limit))
  {
    if query == "" {
      FirstShowsBest(fuzzy, paths, limit);
    } else {
      RankedShowBest(fuzzy, query, paths, limit);
    }
  }

  /** What a match of a text is worth beyond its base: more if the query starts the text, less if it
      is somewhere in it, in lower case. */
  ghost predicate Worth(fuzzy: Fuzzy, query: string, text: string, bonus: int) {
    var t, q := fuzzy.Lower(text), fuzzy.Lower(query);
    && (bonus == 100_000 <==> q <= t)
    && (bonus == 50_000 <==> !(q <= t) && exists i :: 0 <= i <= |t| && q <= t[i..])
    && (bonus == 0 <==> forall i :: 0 <= i <= |t| ==> !(q <= t[i..]))
  }

  lemma BonusWorth(fuzzy: Fuzzy, query: string, text: string)
    ensures Worth(fuzzy, query, text, fuzzy.Bonus(query, text))
  {
    var t, q := fuzzy.Lower(text), fuzzy.Lower(query);
    ContainsExactly(t, q);
    assert t[0..] == t;
  }

  /** The score of a hit: the best of two million and more for its name, one million and more for
      its path, and never below zero. */
  lemma ScoreExactly(fuzzy: Fuzzy, query: string, path: string, byName: int, byPath: int)
    requires query != "" && Wanted(fuzzy, query, path)
    requires Worth(fuzzy, query, BaseName(path), byName) && Worth(fuzzy, query, path, byPath)
    ensures var name, s := BaseName(path), ScoreOf(fuzzy, query, path);
      && s >= 0
      && (fuzzy.Matches(query, name) ==> s >= 2_000_000 + fuzzy.score(query, name) + byName)
      && (fuzzy.Matches(query, path) ==> s >= 1_000_000 + fuzzy.score(query, path) + byPath)
      && (s == 0 || (fuzzy.Matches(query, name) && s == 2_000_000 + fuzzy.score(query, name) + byName)
        || (fuzzy.Matches(query, path) && s == 1_000_000 + fuzzy.score(query, path) + byPath))
  {
    BonusWorth(fuzzy, query, BaseName(path));
    BonusWorth(fuzzy, query, path);
    WorthUnique(fuzzy, query, BaseName(path), byName, fuzzy.Bonus(query, BaseName(path)));
    WorthUnique(fuzzy, query, path, byPath, fuzzy.Bonus(query, path));
    ScoreParts(fuzzy, query, path);
  }

  lemma WorthUnique(fuzzy: Fuzzy, query: string, text: string, a: int, b: int)
    requires Worth(fuzzy, query, text, a) && Worth(fuzzy, query, text, b)
    ensures a == b
  {
    var t := fuzzy.Lower(text);
    assert t[0..] == t;
  }

  lemma ScoreIs(m: Matcher, path: string)
    ensures var n, s := m.name(path), Score(m, path);
      && s >= 0
      && (m.hit(n) ==> s >= TextScore(m, 2_000_000, n))
      && (m.hit(path) ==> s >= TextScore(m, 1_000_000, path))
      && (s == 0 || (m.hit(n) && s == TextScore(m, 2_000_000, n))
        || (m.hit(path) && s == TextScore(m, 1_000_000, path)))
  {
  }

  lemma ScoreIsOf(fuzzy: Fuzzy, query: string, path: string)
    requires query != ""
    ensures ScoreOf(fuzzy, query, path) == Score(fuzzy.For(query), path)
    ensures fuzzy.For(query).name(path) == BaseName(path)
  {
  }

  lemma Valued(fuzzy: Fuzzy, query: string, base: int, text: string)
    ensures TextScore(fuzzy.For(query), base, text) == base + fuzzy.score(query, text) + fuzzy.Bonus(query, text)
    ensures fuzzy.For(query).hit(text) == fuzzy.Matches(query, text)
    ensures 0 <= fuzzy.Bonus(query, text) <= 100_000
  {
  }

  lemma ScoreParts(fuzzy: Fuzzy, query: string, path: string)
    requires query != "" && Wanted(fuzzy, query, path)
    ensures var n, s := BaseName(path), ScoreOf(fuzzy, query, path);
      && s >= 0
      && (fuzzy.Matches(query, n) ==> s >= 2_000_000 + fuzzy.score(query, n) + fuzzy.Bonus(query, n))
      && (fuzzy.Matches(query, path) ==> s >= 1_000_000 + fuzzy.score(query, path) + fuzzy.Bonus(query, path))
      && (s == 0 || (fuzzy.Matches(query, n) && s == 2_000_000 + fuzzy.score(query, n) + fuzzy.Bonus(query, n))
        || (fuzzy.Matches(query, path) && s == 1_000_000 + fuzzy.score(query, path) + fuzzy.Bonus(query, path)))
  {
    hide *;
    ScoreIsOf(fuzzy, query, path);
    ScoreIs(fuzzy.For(query), path);
    Valued(fuzzy, query, 2_000_000, BaseName(path));
    Valued(fuzzy, query, 1_000_000, path);
  }

  /** A path whose name matches comes before one of which only the rest does, unless the library
      scores that one better by 900,000. */
  lemma NamesComeFirst(fuzzy: Fuzzy, query: string, p: string, q: string)
    requires query != "" && fuzzy.Matches(query, BaseName(p))
    requires Wanted(fuzzy, query, q) && !fuzzy.Matches(query, BaseName(q))
    requires fuzzy.score(query, BaseName(p)) > -2_000_000
    requires fuzzy.score(query, BaseName(p)) + 900_000 > fuzzy.score(query, q)
    ensures ScoreOf(fuzzy, query, p) > ScoreOf(fuzzy, query, q)
  {
    hide *;
    NameWanted(fuzzy, query, p);
    ScoreParts(fuzzy, query, p);
    ScoreParts(fuzzy, query, q);
    Valued(fuzzy, query, 0, BaseName(p));
    Valued(fuzzy, query, 0, q);
  }

  lemma NameWanted(fuzzy: Fuzzy, query: string, p: string)
    requires fuzzy.Matches(query, BaseName(p))
    ensures Wanted(fuzzy, query, p)
  {
  }
}
