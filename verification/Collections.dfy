/** Optional values, the smaller and the larger of two numbers, the sizes of parts of sets and
    maps, and facts about every element of a sequence. */
module Collections {
  datatype Option<T> = None | Some(value: T)

  function Min(a: int, b: int): int {
    if a < b then a else b
  }

  function Max(a: int, b: int): int {
    if a > b then a else b
  }

  lemma SubsetSize<T>(a: set<T>, b: set<T>)
    requires a <= b
    ensures |a| <= |b|
  {
    assert b == a + (b - a);
  }

  lemma SetSizes<T>(a: set<T>, b: set<T>)
    requires b <= a
    ensures |a - b| == |a| - |b|
  {
    assert a == (a - b) + b;
  }

  lemma SmallerMap<K, V>(a: map<K, V>, b: map<K, V>)
    requires a.Keys <= b.Keys
    ensures |a| <= |b|
  {
    SubsetSize(a.Keys, b.Keys);
    assert |a| == |a.Keys| && |b| == |b.Keys|;
  }

  /** Something holds of every element at its index. */
  ghost predicate Each<T>(holds: (int, T) -> bool, s: seq<T>) {
    forall i :: 0 <= i < |s| ==> holds(i, s[i])
  }

  lemma EachOneMore<T>(holds: (int, T) -> bool, s: seq<T>, x: T)
    requires Each(holds, s) && holds(|s|, x)
    ensures Each(holds, s + [x])
  {
  }
}
