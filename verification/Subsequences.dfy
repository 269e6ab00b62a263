/** Subsequences: the test behind fuzzy matching, and what is left of a stream that lost parts. */
module Subsequences {

  /** q can be read off t from left to right, skipping elements of t. */
  predicate Subsequence<T(==)>(q: seq<T>, t: seq<T>) {
    if q == [] then true
    else if t == [] then false
    else if q[0] == t[0] then Subsequence(q[1..], t[1..])
    else Subsequence(q, t[1..])
  }

  /** The reference reading of a subsequence: increasing positions carrying the elements of q. */
  ghost predicate EmbedsAt<T>(q: seq<T>, t: seq<T>, at: seq<nat>) {
    && |at| == |q|
    && (forall k :: 0 <= k < |q| ==> at[k] < |t| && t[at[k]] == q[k])
    && (forall k, l :: 0 <= k < l < |q| ==> at[k] < at[l])
  }

  function Shifted(at: seq<nat>, n: nat): (r: seq<nat>)
    ensures |r| == |at| && forall k :: 0 <= k < |at| ==> r[k] == at[k] + n
  {
    seq(|at|, k requires 0 <= k < |at| => at[k] + n)
  }

  lemma EmbedsBehind<T>(q: seq<T>, front: seq<T>, t: seq<T>, at: seq<nat>)
    requires EmbedsAt(q, t, at)
    ensures EmbedsAt(q, front + t, Shifted(at, |front|))
  {
  }

  lemma EmbedsFirst<T>(x: T, q: seq<T>, t: seq<T>, at: seq<nat>)
    requires EmbedsAt(q, t, at)
    ensures EmbedsAt([x] + q, [x] + t, [0] + Shifted(at, 1))
  {
  }

  lemma {:induction false} SubsequenceEmbeds<T>(q: seq<T>, t: seq<T>) returns (at: seq<nat>)
    requires Subsequence(q, t)
    ensures EmbedsAt(q, t, at)
  {
    if q == [] {
      at := [];
    } else {
      assert q == [q[0]] + q[1..] && t == [t[0]] + t[1..];
      if q[0] == t[0] {
        var rest := SubsequenceEmbeds(q[1..], t[1..]);
        EmbedsFirst(q[0], q[1..], t[1..], rest);
        at := [0] + Shifted(rest, 1);
      } else {
        var rest := SubsequenceEmbeds(q, t[1..]);
        EmbedsBehind(q, [t[0]], t[1..], rest);
        at := Shifted(rest, 1);
      }
    }
  }

  lemma {:induction false} EmbeddingIsSubsequence<T>(q: seq<T>, t: seq<T>, at: seq<nat>)
    requires EmbedsAt(q, t, at)
    ensures Subsequence(q, t)
    decreases |t|
  {
    if q != [] {
      assert at[0] < |t|;
      if q[0] == t[0] {
        var rest := seq(|q| - 1, k requires 0 <= k < |q| - 1 => assert at[0] < at[k + 1]; (at[k + 1] - 1) as nat);
        EmbeddingIsSubsequence(q[1..], t[1..], rest);
      } else {
        assert forall k :: 0 < k < |q| ==> at[0] < at[k];
        var rest := seq(|q|, k requires 0 <= k < |q| => (at[k] - 1) as nat);
        EmbeddingIsSubsequence(q, t[1..], rest);
      }
    }
  }

  /** A prefix of a subsequence is a subsequence. */
  lemma SubsequencePrefix<T>(p: seq<T>, q: seq<T>, t: seq<T>)
    requires p <= q && Subsequence(q, t)
    ensures Subsequence(p, t)
  {
    var at := SubsequenceEmbeds(q, t);
    EmbeddingIsSubsequence(p, t, at[..|p|]);
  }

  /** Widening the whole on the left keeps its subsequences. */
  lemma SubsequenceOfSuffix<T>(q: seq<T>, t: seq<T>, front: seq<T>)
    requires Subsequence(q, t)
    ensures Subsequence(q, front + t)
  {
    var at := SubsequenceEmbeds(q, t);
    EmbedsBehind(q, front, t, at);
    EmbeddingIsSubsequence(q, front + t, Shifted(at, |front|));
  }

  lemma SubsequenceOfItself<T>(t: seq<T>)
    ensures Subsequence(t, t)
  {
    EmbeddingIsSubsequence(t, t, seq(|t|, k requires 0 <= k < |t| => k));
  }

  lemma SubsequenceTransitive<T>(a: seq<T>, b: seq<T>, c: seq<T>)
    requires Subsequence(a, b) && Subsequence(b, c)
    ensures Subsequence(a, c)
  {
    var at := SubsequenceEmbeds(a, b);
    var bt := SubsequenceEmbeds(b, c);
    EmbeddingIsSubsequence(a, c, seq(|a|, k requires 0 <= k < |a| => bt[at[k]]));
  }

  lemma {:induction false} SubsequenceConcat<T>(a: seq<T>, s: seq<T>, b: seq<T>, t: seq<T>)
    requires Subsequence(a, s) && Subsequence(b, t)
    ensures Subsequence(a + b, s + t)
  {
    if a == [] {
      assert a + b == b;
      SubsequenceOfSuffix(b, t, s);
    } else {
      assert (s + t)[1..] == s[1..] + t;
      if a[0] == s[0] {
        assert (a + b)[1..] == a[1..] + b;
        SubsequenceConcat(a[1..], s[1..], b, t);
      } else {
        SubsequenceConcat(a, s[1..], b, t);
      }
    }
  }

  /** Leaving out a part in the middle. */
  lemma SubsequenceWithout<T>(a: seq<T>, part: seq<T>, rest: seq<T>)
    ensures Subsequence(a + rest, a + part + rest)
  {
    SubsequenceOfItself(a);
    SubsequenceOfItself(rest);
    SubsequenceOfSuffix(rest, rest, part);
    SubsequenceConcat(a, a, rest, part + rest);
    assert a + (part + rest) == a + part + rest;
  }

  /** A subsequence of a sequence of equal elements is a prefix of it. */
  lemma SubsequenceOfEqual<T>(q: seq<T>, t: seq<T>)
    requires Subsequence(q, t) && forall i, j :: 0 <= i < |t| && 0 <= j < |t| ==> t[i] == t[j]
    ensures q <= t
  {
    var at := SubsequenceEmbeds(q, t);
    if q != [] {
      LastPosition(at, |q| - 1);
      assert forall k :: 0 <= k < |q| ==> q[k] == t[at[k]] == t[k];
    }
  }

  lemma {:induction false} LastPosition(at: seq<nat>, k: nat)
    requires k < |at| && forall i, j :: 0 <= i < j < |at| ==> at[i] < at[j]
    ensures at[k] >= k
  {
    if k > 0 {
      LastPosition(at, k - 1);
    }
  }

  /** A sequence without two different neighbours has only equal elements. */
  lemma {:induction false} EqualNeighbours<T>(t: seq<T>, i: nat, j: nat)
    requires i <= j < |t| && forall k :: 0 <= k < |t| - 1 ==> t[k] == t[k + 1]
    ensures t[i] == t[j]
  {
    if i < j {
      EqualNeighbours(t, i, j - 1);
    }
  }
}
