/** Keys in the order in which they were last touched, and what is kept when the first of them go. */
module Aging {
  import opened Sorting

  /** A key of a map with the time it was last touched. */
  datatype Age = Age(key: string, at: int)

  const BY_AGE: (Age, Age) -> bool := (a: Age, b: Age) => a.at < b.at

  lemma AgeOrder()
    ensures WeakOrder(BY_AGE)
  {
  }

  ghost function KeysOf(ages: seq<Age>): set<string> {
    set a | a in ages :: a.key
  }

  /** ages lists every key of m once, with its time. */
  ghost predicate Lists(ages: seq<Age>, m: map<string, int>) {
    NoRepeats(ages) && forall a :: a in ages <==> a.key in m && a.at == m[a.key]
  }

  /** What is gone is no younger than what is left. */
  ghost predicate OldestGone(m: map<string, int>, gone: set<string>) {
    forall k, l :: k in m && k in gone && l in m && l !in gone ==> m[k] <= m[l]
  }

  /** Oldest first, and otherwise the same list. */
  lemma ListsSorted(ages: seq<Age>, m: map<string, int>)
    requires Lists(ages, m)
    ensures Lists(Sort(BY_AGE, ages), m) && SortedBy(BY_AGE, Sort(BY_AGE, ages))
  {
    AgeOrder();
    SortSorted(BY_AGE, ages);
    SortElements(BY_AGE, ages);
    SortNoRepeats(BY_AGE, ages);
  }

  /** One more key, at the end of the list. */
  lemma ListsOneMore(ages: seq<Age>, m: map<string, int>, key: string, at: int)
    requires Lists(ages, m) && key !in m
    ensures Lists(ages + [Age(key, at)], m[key := at])
  {
    var all := ages + [Age(key, at)];
    assert Age(key, at) !in ages;
    assert all[|ages|] == Age(key, at);
    forall a ensures a in all <==> a in ages || a == Age(key, at) {
    }
  }

  /** Two entries of the list never share a key. */
  lemma NextIsPresent(sorted: seq<Age>, m: map<string, int>, i: nat)
    requires Lists(sorted, m) && i < |sorted|
    ensures sorted[i].key in m && sorted[i].key !in KeysOf(sorted[..i])
    ensures KeysOf(sorted[..i + 1]) == KeysOf(sorted[..i]) + {sorted[i].key}
  {
    assert sorted[i] in sorted;
    assert sorted[..i + 1] == sorted[..i] + [sorted[i]];
    forall a | a in sorted[..i] ensures a.key != sorted[i].key {
      var x :| 0 <= x < i && sorted[x] == a;
      assert a in sorted;
    }
  }

  /** The first i entries are i keys of the map. */
  lemma {:induction false} SoManyGone(sorted: seq<Age>, m: map<string, int>, i: nat)
    requires Lists(sorted, m) && i <= |sorted|
    ensures KeysOf(sorted[..i]) <= m.Keys && |KeysOf(sorted[..i])| == i
  {
    if i == 0 {
      assert sorted[..0] == [];
    } else {
      SoManyGone(sorted, m, i - 1);
      NextIsPresent(sorted, m, i - 1);
    }
  }

  lemma AllGone(sorted: seq<Age>, m: map<string, int>)
    requires Lists(sorted, m)
    ensures KeysOf(sorted) == m.Keys && |sorted| == |m|
  {
    SoManyGone(sorted, m, |sorted|);
    assert sorted[..|sorted|] == sorted;
    forall k | k in m ensures k in KeysOf(sorted) {
      assert Age(k, m[k]) in sorted;
    }
  }

  lemma OldestGoFirst(sorted: seq<Age>, m: map<string, int>, i: nat)
    requires Lists(sorted, m) && SortedBy(BY_AGE, sorted) && i <= |sorted|
    ensures OldestGone(m, KeysOf(sorted[..i]))
  {
    forall k, l | k in m && k in KeysOf(sorted[..i]) && l in m && l !in KeysOf(sorted[..i]) ensures m[k] <= m[l] {
      GoneIsOlder(sorted, m, i, k, l);
    }
  }

  lemma GoneIsOlder(sorted: seq<Age>, m: map<string, int>, i: nat, k: string, l: string)
    requires Lists(sorted, m) && SortedBy(BY_AGE, sorted) && i <= |sorted|
    requires k in KeysOf(sorted[..i]) && l in m && l !in KeysOf(sorted[..i])
    ensures k in m && m[k] <= m[l]
  {
    var a :| a in sorted[..i] && a.key == k;
    var x :| 0 <= x < i && sorted[x] == a;
    assert a in sorted;
    var b := Age(l, m[l]);
    assert b in sorted;
    var y :| 0 <= y < |sorted| && sorted[y] == b;
    assert forall z :: 0 <= z < i ==> sorted[z] in sorted[..i];
    assert x < y;
    assert !BY_AGE(b, a);
  }
}
