/** Ranking a listing for one query, from all its entries or from remembered candidates.
    The query is bound into a Matcher; FuzzyMatch says what the file index binds. */
module Ranking {
  import opened Collections
  import opened Text
  import opened Sorting
  import opened IndexFile

  /** One query: the name shown for a path, which texts it matches, and what a match earns. */
  datatype Matcher = Matcher(name: string -> string, hit: string -> bool, score: string -> int, bonus: string -> nat)

  datatype Match = Match(index: nat, score: int)

  datatype Candidates = Candidates(all: bool, indexes: seq<int>)

  datatype Item = Item(index: int, path: string, score: int)

  const NAME_BASE := 2_000_000
  const PATH_BASE := 1_000_000

  const ITEM_LESS: (Item, Item) -> bool :=
    (a: Item, b: Item) => if a.score != b.score then a.score > b.score else Less(a.path, b.path)

  function Names(name: string -> string, paths: seq<string>): (names: seq<string>)
    ensures |names| == |paths|
    ensures forall i :: 0 <= i < |paths| ==> names[i] == name(paths[i])
  {
    seq(|paths|, i requires 0 <= i < |paths| => name(paths[i]))
  }

  /** buildProjectFileIndexEntries. */
  method BuildEntries(name: string -> string, paths: seq<string>) returns (entries: seq<string>)
    ensures entries == Names(name, paths)
  {
    entries := [];
    for i := 0 to |paths|
      invariant entries == Names(name, paths)[..i]
    {
      entries := entries + [name(paths[i])];
    }
  }

  function TextScore(m: Matcher, base: int, text: string): int {
    base + m.score(text) + m.bonus(text)
  }

  /** An entry is found through its name or through its whole path. */
  predicate Hit(m: Matcher, path: string) {
    m.hit(m.name(path)) || m.hit(path)
  }

  function Score(m: Matcher, path: string): int {
    var byName := if m.hit(m.name(path)) then Max(0, TextScore(m, NAME_BASE, m.name(path))) else 0;
    if m.hit(path) then Max(byName, TextScore(m, PATH_BASE, path)) else byName
  }

  function ItemAt(m: Matcher, paths: seq<string>, i: nat): Item
    requires i < |paths|
  {
    Item(i, paths[i], Score(m, paths[i]))
  }

  /** x is the item of a hit of the listing. */
  ghost predicate IsHit(m: Matcher, paths: seq<string>, x: Item) {
    0 <= x.index < |paths| && Hit(m, paths[x.index]) && x == ItemAt(m, paths, x.index)
  }

  function AllItems(m: Matcher, paths: seq<string>, n: nat): seq<Item>
    requires n <= |paths|
  {
    if n == 0 then []
    else AllItems(m, paths, n - 1) + if Hit(m, paths[n - 1]) then [ItemAt(m, paths, n - 1)] else []
  }

  lemma {:induction false} AllItemsElements(m: Matcher, paths: seq<string>, n: nat)
    requires n <= |paths|
    ensures NoRepeats(AllItems(m, paths, n))
    ensures forall x :: x in AllItems(m, paths, n) <==> IsHit(m, paths, x) && x.index < n
  {
    if n > 0 {
      AllItemsElements(m, paths, n - 1);
    }
  }

  /** The reference: every entry that hits, best score first, ties by path. */
  function FullRanking(m: Matcher, paths: seq<string>): seq<Item> {
    Sort(ITEM_LESS, AllItems(m, paths, |paths|))
  }

  /** The positions a candidate set allows. */
  ghost predicate Allows(c: Candidates, i: int) {
    c.all || i in c.indexes
  }

  /** No hit of the listing is left out of the candidates. */
  ghost predicate Covers(c: Candidates, m: Matcher, paths: seq<string>) {
    forall i :: 0 <= i < |paths| && Hit(m, paths[i]) ==> Allows(c, i)
  }

  /** ranked holds exactly the allowed hits, in order. */
  ghost predicate RanksAllowed(ranked: seq<Item>, c: Candidates, m: Matcher, paths: seq<string>) {
    && StrictlySorted(ITEM_LESS, ranked)
    && forall x :: x in ranked <==> IsHit(m, paths, x) && Allows(c, x.index)
  }

  /** The items of a listing are totally ordered: no path occurs twice. */
  lemma ItemOrder(m: Matcher, paths: seq<string>, items: set<Item>)
    requires IsListing(paths)
    requires forall x :: x in items ==> IsHit(m, paths, x)
    ensures TotalOn(ITEM_LESS, items)
  {
    LessIsStrictTotalOrder();
    forall x, y | x in items && y in items && x != y ensures ITEM_LESS(x, y) || ITEM_LESS(y, x) {
      assert x.index != y.index;
      assert PATH_LESS(paths[x.index], paths[y.index]) || PATH_LESS(paths[y.index], paths[x.index]);
    }
  }

  lemma FullRankingElements(m: Matcher, paths: seq<string>)
    requires IsListing(paths)
    ensures StrictlySorted(ITEM_LESS, FullRanking(m, paths))
    ensures forall x :: x in FullRanking(m, paths) <==> IsHit(m, paths, x)
  {
    var items := AllItems(m, paths, |paths|);
    AllItemsElements(m, paths, |paths|);
    ItemOrder(m, paths, Elements(items));
    SortStrictlySorted(ITEM_LESS, items);
    SortElements(ITEM_LESS, items);
  }

  /** Ranking covering candidates gives the same list as ranking everything. */
  lemma CoveringRankingIsFull(ranked: seq<Item>, c: Candidates, m: Matcher, paths: seq<string>)
    requires IsListing(paths) && Covers(c, m, paths) && RanksAllowed(ranked, c, m, paths)
    ensures ranked == FullRanking(m, paths)
  {
    FullRankingElements(m, paths);
    LessIsStrictTotalOrder();
    StrictlySortedUnique(ITEM_LESS, ranked, FullRanking(m, paths));
  }

  /** Conversion to a 32-bit signed integer. */
  function Int32(i: int): int {
    (i + 0x8000_0000) % 0x1_0000_0000 - 0x8000_0000
  }

  ghost predicate InRange(c: Candidates, count: nat) {
    forall k :: 0 <= k < |c.indexes| ==> 0 <= c.indexes[k] < count
  }

  /** projectFileIndexEntrySource: the entry behind a source position. */
  function EntryIndex(c: Candidates, i: nat): int
    requires c.all || i < |c.indexes|
  {
    if c.all then i else c.indexes[i]
  }

  /** The texts the fuzzy library is given: all of them, or those of the candidates. */
  function Source(texts: seq<string>, c: Candidates): (source: seq<string>)
    requires InRange(c, |texts|)
    ensures |source| == if c.all then |texts| else |c.indexes|
    ensures forall i :: 0 <= i < |source| ==>
      0 <= EntryIndex(c, i) < |texts| && source[i] == texts[EntryIndex(c, i)]
  {
    if c.all then texts else seq(|c.indexes|, i requires 0 <= i < |c.indexes| => texts[c.indexes[i]])
  }

  /** fuzzy.FindFromNoSort: the matching texts of the source, in source order. */
  method FindFromNoSort(m: Matcher, source: seq<string>) returns (matches: seq<Match>)
    ensures forall k :: 0 <= k < |matches| ==> (matches[k].index < |source|
      && m.hit(source[matches[k].index]) && matches[k].score == m.score(source[matches[k].index]))
    ensures forall i :: 0 <= i < |source| && m.hit(source[i]) ==> Match(i, m.score(source[i])) in matches
  {
    matches := [];
    for i := 0 to |source|
      invariant forall k :: 0 <= k < |matches| ==> (matches[k].index < i
        && m.hit(source[matches[k].index]) && matches[k].score == m.score(source[matches[k].index]))
      invariant forall j :: 0 <= j < i && m.hit(source[j]) ==> Match(j, m.score(source[j])) in matches
    {
      if m.hit(source[i]) {
        matches := matches + [Match(i, m.score(source[i]))];
      }
    }
  }

  /** The allowed positions whose text the query matches. */
  ghost predicate Found(m: Matcher, texts: seq<string>, c: Candidates, i: int) {
    0 <= i < |texts| && Allows(c, i) && m.hit(texts[i])
  }

  function At(scores: map<int, int>, i: int): int {
    if i in scores then scores[i] else 0
  }

  ghost function Raised(m: Matcher, base: int, texts: seq<string>, c: Candidates, prior: map<int, int>, i: int): int {
    if Found(m, texts, c, i) then Max(At(prior, i), TextScore(m, base, texts[i])) else At(prior, i)
  }

  /** One pass over the names or over the paths: raise the score of each found entry. */
  method RaiseScores(m: Matcher, base: int, texts: seq<string>, c: Candidates, prior: map<int, int>)
    returns (scores: map<int, int>)
    requires InRange(c, |texts|)
    ensures forall i :: i in scores <==> i in prior || Found(m, texts, c, i)
    ensures forall i :: i in scores ==> scores[i] == Raised(m, base, texts, c, prior, i)
  {
    scores := prior;
    ghost var done: set<int> := {};
    var matches := FindFromNoSort(m, Source(texts, c));
    for k := 0 to |matches|
      invariant scores.Keys == prior.Keys + done
      invariant forall i :: i in done ==> Found(m, texts, c, i)
      invariant forall i :: i in done ==> scores[i] == Max(At(prior, i), TextScore(m, base, texts[i]))
      invariant forall i :: i in prior && i !in done ==> scores[i] == prior[i]
      invariant forall j :: 0 <= j < k ==> EntryIndex(c, matches[j].index) in done
    {
      var index := EntryIndex(c, matches[k].index);
      var score := base + matches[k].score + m.bonus(texts[index]);
      assert At(scores, index) == if index in done then scores[index] else At(prior, index);
      scores := scores[index := Max(At(scores, index), score)];
      done := done + {index};
    }
    forall i | Found(m, texts, c, i) ensures i in done {
      var at := if c.all then i else var j :| 0 <= j < |c.indexes| && c.indexes[j] == i; j;
      assert Source(texts, c)[at] == texts[i];
      var k :| 0 <= k < |matches| && matches[k] == Match(at, m.score(texts[i]));
      assert EntryIndex(c, matches[k].index) == i;
    }
  }

  ghost predicate Collected(paths: seq<string>, scores: map<int, int>, keys: set<int>, items: seq<Item>)
    requires forall i :: i in scores ==> 0 <= i < |paths|
  {
    forall x :: x in items <==>
      (x.index in keys && x.index in scores && x == Item(x.index, paths[x.index], scores[x.index]))
  }

  /** The scored entries as items, in whatever order the map gives them. */
  method Collect(paths: seq<string>, scores: map<int, int>) returns (items: seq<Item>)
    requires forall i :: i in scores ==> 0 <= i < |paths|
    ensures NoRepeats(items)
    ensures Collected(paths, scores, scores.Keys, items)
  {
    items := [];
    var left: set<int> := scores.Keys;
    while left != {}
      invariant left <= scores.Keys
      invariant NoRepeats(items)
      invariant Collected(paths, scores, scores.Keys - left, items)
      decreases left
    {
      var index := AnyOf(left);
      left := left - {index};
      items := items + [Item(index, paths[index], scores[index])];
    }
  }

  /** rankProjectFileIndexEntries: rank the candidates, and remember which of them hit. */
  method Rank(m: Matcher, paths: seq<string>, entries: seq<string>, c: Candidates)
    returns (ranked: seq<Item>, next: Candidates)
    requires entries == Names(m.name, paths) && InRange(c, |paths|) && IsListing(paths)
    ensures RanksAllowed(ranked, c, m, paths)
    ensures next == Candidates(false, Indexes(ranked))
    ensures Covers(c, m, paths) ==> ranked == FullRanking(m, paths)
  {
    var named := RaiseScores(m, NAME_BASE, entries, c, map[]);
    var scores := RaiseScores(m, PATH_BASE, paths, c, named);
    var items := Collect(paths, scores);
    ScoredItems(m, paths, entries, c, named, scores, items);
    ranked := Sort(ITEM_LESS, items);
    SortedItems(items, c, m, paths);
    var indexes := CollectIndexes(ranked);
    next := Candidates(false, indexes);
  }

  method CollectIndexes(ranked: seq<Item>) returns (indexes: seq<int>)
    ensures indexes == Indexes(ranked)
  {
    indexes := [];
    for k := 0 to |ranked|
      invariant indexes == Indexes(ranked)[..k]
    {
      indexes := indexes + [Int32(ranked[k].index)];
    }
  }

  function Indexes(ranked: seq<Item>): (indexes: seq<int>)
    ensures |indexes| == |ranked|
    ensures forall k :: 0 <= k < |ranked| ==> indexes[k] == Int32(ranked[k].index)
  {
    seq(|ranked|, k requires 0 <= k < |ranked| => Int32(ranked[k].index))
  }

  /** The two passes leave each allowed hit with its score, and nothing else. */
  lemma ScoredItems(m: Matcher, paths: seq<string>, entries: seq<string>, c: Candidates,
      named: map<int, int>, scores: map<int, int>, items: seq<Item>)
    requires entries == Names(m.name, paths)
    requires forall i :: i in named <==> Found(m, entries, c, i)
    requires forall i :: i in named ==> named[i] == Raised(m, NAME_BASE, entries, c, map[], i)
    requires forall i :: i in scores <==> i in named || Found(m, paths, c, i)
    requires forall i :: i in scores ==> scores[i] == Raised(m, PATH_BASE, paths, c, named, i)
    requires forall i :: i in scores ==> 0 <= i < |paths|
    requires Collected(paths, scores, scores.Keys, items)
    ensures forall x :: x in items <==> IsHit(m, paths, x) && Allows(c, x.index)
  {
    forall i ensures i in scores <==> 0 <= i < |paths| && Allows(c, i) && Hit(m, paths[i]) {
      if 0 <= i < |paths| { assert entries[i] == m.name(paths[i]); }
    }
    forall i | i in scores ensures scores[i] == Score(m, paths[i]) {
      assert entries[i] == m.name(paths[i]);
    }
  }

  lemma SortedItems(items: seq<Item>, c: Candidates, m: Matcher, paths: seq<string>)
    requires IsListing(paths) && NoRepeats(items)
    requires forall x :: x in items <==> IsHit(m, paths, x) && Allows(c, x.index)
    ensures RanksAllowed(Sort(ITEM_LESS, items), c, m, paths)
    ensures Covers(c, m, paths) ==> Sort(ITEM_LESS, items) == FullRanking(m, paths)
  {
    SortElements(ITEM_LESS, items);
    ItemOrder(m, paths, Elements(items));
    SortStrictlySorted(ITEM_LESS, items);
    if Covers(c, m, paths) {
      CoveringRankingIsFull(Sort(ITEM_LESS, items), c, m, paths);
    }
  }
}

/** The matcher the file index uses. */
module FuzzyMatch {
  import opened Subsequences
  import opened Text
  import opened Ranking

  const NAME: string -> string := p => BaseName(p)

  /** What the index needs to know of its libraries: lower-casing maps characters one by one; a
      fuzzy match is a subsequence of the folded text, and its score a function of query and text.
      Any two foldings and any score function will do. Folding is not lower-casing: U+0130 has the
      lower case of "I" but folds with nothing. */
  datatype Fuzzy = Fuzzy(lower: char -> char, fold: char -> char, score: (string, string) -> int) {
    function Lower(s: string): string {
      FoldAll(lower, s)
    }

    function Fold(s: string): string {
      FoldAll(fold, s)
    }

    predicate Matches(query: string, text: string) {
      Subsequence(Fold(query), Fold(text))
    }

    /** What matches the query matches the shorter one. */
    predicate Narrows(shorter: string, query: string) {
      Subsequence(Fold(shorter), Fold(query))
    }

    /** The index takes a query for an extension by its lower case, and is right about that. */
    predicate MayExtend(shorter: string, query: string) {
      HasPrefix(Lower(query), Lower(shorter)) ==> Narrows(shorter, query)
    }

    function Bonus(query: string, text: string): nat {
      if HasPrefix(Lower(text), Lower(query)) then 100_000
      else if Contains(Lower(text), Lower(query)) then 50_000
      else 0
    }

    function For(query: string): Matcher {
      Matcher(NAME, t => Matches(query, t), t => score(query, t), t => Bonus(query, t))
    }
  }

  /** projectFileIndexBaseName: what follows the last slash. */
  function BaseName(path: string): (name: string)
    ensures '/' !in name
    ensures |name| <= |path| && path[|path| - |name|..] == name
    ensures |name| < |path| ==> path[|path| - |name| - 1] == '/'
  {
    if path == "" || path[|path| - 1] == '/' then ""
    else BaseName(path[..|path| - 1]) + [path[|path| - 1]]
  }

  /** A query that matches the name matches the path as well. */
  lemma NameMatchIsPathMatch(fuzzy: Fuzzy, query: string, path: string)
    requires fuzzy.Matches(query, BaseName(path))
    ensures fuzzy.Matches(query, path)
  {
    var name := BaseName(path);
    var front := path[..|path| - |name|];
    SubsequenceOfSuffix(fuzzy.Fold(query), fuzzy.Fold(name), fuzzy.Fold(front));
    assert path == front + name;
    assert fuzzy.Fold(path) == fuzzy.Fold(front) + fuzzy.Fold(name);
  }

  lemma ExtendedQueryMatches(fuzzy: Fuzzy, shorter: string, query: string, text: string)
    requires fuzzy.Narrows(shorter, query) && fuzzy.Matches(query, text)
    ensures fuzzy.Matches(shorter, text)
  {
    SubsequenceTransitive(fuzzy.Fold(shorter), fuzzy.Fold(query), fuzzy.Fold(text));
  }

  /** A query only loses hits against a shorter one exactly when the folded shorter one is a
      subsequence of it: otherwise a text that spells the query is a hit of the query alone. */
  lemma NarrowsExactly(fuzzy: Fuzzy, shorter: string, query: string)
    ensures fuzzy.Narrows(shorter, query) <==> forall text :: fuzzy.Matches(query, text) ==>
      fuzzy.Matches(shorter, text)
  {
    if fuzzy.Narrows(shorter, query) {
      forall text | fuzzy.Matches(query, text) ensures fuzzy.Matches(shorter, text) {
        ExtendedQueryMatches(fuzzy, shorter, query, text);
      }
    } else {
      SubsequenceOfItself(fuzzy.Fold(query));
      assert fuzzy.Matches(query, query) && !fuzzy.Matches(shorter, query);
    }
  }

  /** Characters of the same lower case fold alike. */
  ghost predicate FoldsLowerCase(fuzzy: Fuzzy) {
    forall a, b {:trigger fuzzy.lower(a), fuzzy.lower(b)} :: fuzzy.lower(a) == fuzzy.lower(b) ==>
      fuzzy.fold(a) == fuzzy.fold(b)
  }

  /** All extensions are recognised rightly exactly when characters of the same lower case fold
      alike. */
  lemma MayExtendExactly(fuzzy: Fuzzy)
    ensures FoldsLowerCase(fuzzy) <==> forall shorter, query :: fuzzy.MayExtend(shorter, query)
  {
    if FoldsLowerCase(fuzzy) {
      forall shorter, query ensures fuzzy.MayExtend(shorter, query) {
        if HasPrefix(fuzzy.Lower(query), fuzzy.Lower(shorter)) {
          ExtensionNarrows(fuzzy, shorter, query);
        }
      }
    }
    forall a, b | fuzzy.lower(a) == fuzzy.lower(b) && fuzzy.fold(a) != fuzzy.fold(b)
      ensures !fuzzy.MayExtend([a], [b])
    {
      OneCharacterApart(fuzzy, a, b);
    }
  }

  lemma ExtensionNarrows(fuzzy: Fuzzy, shorter: string, query: string)
    requires FoldsLowerCase(fuzzy) && HasPrefix(fuzzy.Lower(query), fuzzy.Lower(shorter))
    ensures fuzzy.Narrows(shorter, query)
  {
    var n := |shorter|;
    forall i | 0 <= i < n ensures fuzzy.fold(shorter[i]) == fuzzy.fold(query[i]) {
      assert fuzzy.Lower(query)[..n][i] == fuzzy.Lower(shorter)[i];
      assert fuzzy.lower(query[i]) == fuzzy.lower(shorter[i]);
    }
    assert fuzzy.Fold(shorter) == fuzzy.Fold(query)[..n];
    SubsequenceOfItself(fuzzy.Fold(query));
    SubsequencePrefix(fuzzy.Fold(shorter), fuzzy.Fold(query), fuzzy.Fold(query));
  }

  lemma OneCharacterApart(fuzzy: Fuzzy, a: char, b: char)
    requires fuzzy.lower(a) == fuzzy.lower(b) && fuzzy.fold(a) != fuzzy.fold(b)
    ensures !fuzzy.MayExtend([a], [b])
  {
    assert fuzzy.Lower([a]) == [fuzzy.lower(a)] == fuzzy.Lower([b]);
    assert fuzzy.Fold([a]) == [fuzzy.fold(a)] && fuzzy.Fold([b]) == [fuzzy.fold(b)];
    SubsequenceOfOne(fuzzy.Fold([a]), fuzzy.Fold([b]));
  }

  lemma SubsequenceOfOne(q: string, t: string)
    requires |q| == 1 && |t| == 1
    ensures Subsequence(q, t) ==> q == t
  {
    if Subsequence(q, t) {
      var at := SubsequenceEmbeds(q, t);
      assert q[0] == t[0];
    }
  }

  /** Extending a query can only lose hits, never win one. */
  lemma ExtendedQueryNarrows(fuzzy: Fuzzy, shorter: string, query: string, path: string)
    requires fuzzy.Narrows(shorter, query)
    requires Hit(fuzzy.For(query), path)
    ensures Hit(fuzzy.For(shorter), path)
  {
    var name := fuzzy.For(query).name(path);
    assert name == fuzzy.For(shorter).name(path);
    if fuzzy.For(query).hit(name) {
      ExtendedQueryMatches(fuzzy, shorter, query, name);
    } else {
      ExtendedQueryMatches(fuzzy, shorter, query, path);
    }
  }
}
