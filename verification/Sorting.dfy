/** sort.Slice and sort.Strings as a function, and the fact the rest of the project leans
    on: under an order that is total on the elements, the sorted list of a set is unique. */
module Sorting {

  /** Strict, and decides between any two different elements of s. */
  ghost predicate TotalOn<T(!new)>(less: (T, T) -> bool, s: set<T>) {
    && (forall x :: !less(x, x))
    && (forall x, y, z :: less(x, y) && less(y, z) ==> less(x, z))
    && (forall x, y :: x in s && y in s && x != y ==> less(x, y) || less(y, x))
  }

  ghost predicate StrictlySorted<T(!new)>(less: (T, T) -> bool, s: seq<T>) {
    forall i, j :: 0 <= i < j < |s| ==> less(s[i], s[j])
  }

  /** Nothing later in s belongs before anything earlier. */
  ghost predicate SortedBy<T(!new)>(less: (T, T) -> bool, s: seq<T>) {
    forall i, j :: 0 <= i < j < |s| ==> !less(s[j], s[i])
  }

  ghost predicate NoRepeats<T(!new)>(s: seq<T>) {
    forall i, j :: 0 <= i < j < |s| ==> s[i] != s[j]
  }

  ghost function Elements<T>(s: seq<T>): set<T> {
    set x | x in s
  }

  /** The next key of a Go map iteration: any of those left. */
  method AnyOf<T(==)>(s: set<T>) returns (x: T)
    requires s != {}
    ensures x in s
  {
    x :| x in s;
  }

  function Insert<T>(less: (T, T) -> bool, x: T, s: seq<T>): (r: seq<T>)
    ensures multiset(r) == multiset(s) + multiset{x}
    ensures |r| == |s| + 1
  {
    if s == [] then [x]
    else if less(s[0], x) then
      assert s == [s[0]] + s[1..];
      [s[0]] + Insert(less, x, s[1..])
    else
      [x] + s
  }

  function Sort<T>(less: (T, T) -> bool, s: seq<T>): (r: seq<T>)
    ensures multiset(r) == multiset(s)
    ensures |r| == |s|
  {
    if s == [] then []
    else
      assert s == [s[0]] + s[1..];
      Insert(less, s[0], Sort(less, s[1..]))
  }

  lemma SameElements<T>(r: seq<T>, s: seq<T>)
    requires multiset(r) == multiset(s)
    ensures forall x :: x in r <==> x in s
  {
    forall x ensures x in r <==> x in s {
      assert x in r <==> x in multiset(r);
      assert x in s <==> x in multiset(s);
    }
  }

  lemma InsertElements<T>(less: (T, T) -> bool, x: T, s: seq<T>)
    ensures forall y :: y in Insert(less, x, s) <==> y == x || y in s
  {
    var r := Insert(less, x, s);
    forall y ensures y in r <==> y == x || y in s {
      assert y in r <==> y in multiset(r);
      assert y in s <==> y in multiset(s);
    }
  }

  lemma SortElements<T>(less: (T, T) -> bool, s: seq<T>)
    ensures forall y :: y in Sort(less, s) <==> y in s
  {
    SameElements(Sort(less, s), s);
  }

  lemma {:induction false} InsertStrictlySorted<T(!new)>(less: (T, T) -> bool, x: T, s: seq<T>)
    requires TotalOn(less, Elements(s) + {x}) && StrictlySorted(less, s) && x !in s
    ensures StrictlySorted(less, Insert(less, x, s))
  {
    if s != [] {
      if less(s[0], x) {
        InsertStrictlySorted(less, x, s[1..]);
        InsertElements(less, x, s[1..]);
        var r := Insert(less, x, s[1..]);
        forall j | 0 <= j < |r| ensures less(s[0], r[j]) {
          assert r[j] in r;
        }
      } else {
        assert s[0] in s && less(x, s[0]);
        forall j | 0 <= j < |s| ensures less(x, s[j]) { }
      }
    }
  }

  /** Sorting distinct elements leaves each strictly before the next. */
  lemma {:induction false} SortStrictlySorted<T(!new)>(less: (T, T) -> bool, s: seq<T>)
    requires TotalOn(less, Elements(s)) && NoRepeats(s)
    ensures StrictlySorted(less, Sort(less, s))
  {
    if s != [] {
      SortStrictlySorted(less, s[1..]);
      SortElements(less, s[1..]);
      var r := Sort(less, s[1..]);
      assert s[0] !in s[1..];
      assert Elements(r) + {s[0]} == Elements(s);
      InsertStrictlySorted(less, s[0], r);
    }
  }

  ghost predicate WeakOrder<T(!new)>(less: (T, T) -> bool) {
    && (forall x, y :: less(x, y) ==> !less(y, x))
    && (forall x, y, z :: !less(y, x) && !less(z, y) ==> !less(z, x))
  }

  lemma {:induction false} InsertSorted<T(!new)>(less: (T, T) -> bool, x: T, s: seq<T>)
    requires WeakOrder(less) && SortedBy(less, s)
    ensures SortedBy(less, Insert(less, x, s))
  {
    if s != [] {
      if less(s[0], x) {
        InsertSorted(less, x, s[1..]);
        InsertElements(less, x, s[1..]);
        var r := Insert(less, x, s[1..]);
        forall j | 0 <= j < |r| ensures !less(r[j], s[0]) {
          assert r[j] in r;
        }
      }
    }
  }

  /** Sorting by a key with ties still leaves nothing out of place. */
  lemma {:induction false} SortSorted<T(!new)>(less: (T, T) -> bool, s: seq<T>)
    requires WeakOrder(less)
    ensures SortedBy(less, Sort(less, s))
  {
    if s != [] {
      SortSorted(less, s[1..]);
      InsertSorted(less, s[0], Sort(less, s[1..]));
    }
  }

  lemma {:induction false} InsertNoRepeats<T(!new)>(less: (T, T) -> bool, x: T, s: seq<T>)
    requires NoRepeats(s) && x !in s
    ensures NoRepeats(Insert(less, x, s))
  {
    if s != [] && less(s[0], x) {
      InsertNoRepeats(less, x, s[1..]);
      InsertElements(less, x, s[1..]);
      var r := Insert(less, x, s[1..]);
      forall j | 0 <= j < |r| ensures s[0] != r[j] {
        assert r[j] in r;
      }
    }
  }

  lemma {:induction false} SortNoRepeats<T(!new)>(less: (T, T) -> bool, s: seq<T>)
    requires NoRepeats(s)
    ensures NoRepeats(Sort(less, s))
  {
    if s != [] {
      SortNoRepeats(less, s[1..]);
      SortElements(less, s[1..]);
      InsertNoRepeats(less, s[0], Sort(less, s[1..]));
    }
  }

  /** Two strictly sorted lists of the same elements are the same list. */
  lemma {:induction false} StrictlySortedUnique<T(!new)>(less: (T, T) -> bool, r: seq<T>, s: seq<T>)
    requires forall x :: !less(x, x)
    requires forall x, y, z :: less(x, y) && less(y, z) ==> less(x, z)
    requires StrictlySorted(less, r) && StrictlySorted(less, s)
    requires forall x :: x in r <==> x in s
    ensures r == s
  {
    assert r != [] ==> r[0] in s;
    assert s != [] ==> s[0] in r;
    if r != [] && s != [] {
      assert r[0] == s[0];
      forall x ensures x in r[1..] <==> x in s[1..] {
        if x in r[1..] { assert less(r[0], x) && x in s; }
        if x in s[1..] { assert less(s[0], x) && x in r; }
      }
      StrictlySortedUnique(less, r[1..], s[1..]);
      assert r == [r[0]] + r[1..] && s == [s[0]] + s[1..];
    }
  }
}
