/** The window of request ids a connection has used: a ring buffer and a set. */
module RequestWindow {

  function Last(ids: seq<int>, n: nat): seq<int> {
    if |ids| <= n then ids else ids[|ids| - n..]
  }

  ghost predicate Distinct(ids: seq<int>) {
    forall i, j :: 0 <= i < j < |ids| ==> ids[i] != ids[j]
  }

  class RequestIdWindow {
    const capacity: nat
    var ring: seq<int>
    var next: nat
    var known: set<int>

    ghost predicate Valid()
      reads this
    {
      && capacity > 0 && |ring| <= capacity
      && (if |ring| < capacity then next == 0 else next < capacity)
      && Distinct(ring)
      && known == Members(ring)
    }

    /** The ids in the ring, oldest first. */
    ghost function Recent(): seq<int>
      requires Valid()
      reads this
    {
      ring[next..] + ring[..next]
    }

    constructor (capacity: int)
      ensures Valid() && Recent() == [] && this.capacity == if capacity <= 0 then 1 else capacity
    {
      this.capacity := if capacity <= 0 then 1 else capacity;
      ring, next, known := [], 0, {};
    }

    /** Add: whether the id is a duplicate; if not, it takes the place of the oldest id. */
    method Add(id: int) returns (duplicate: bool)
      requires Valid()
      modifies this
      ensures Valid()
      ensures duplicate <==> id in old(Recent())
      ensures Recent() == if duplicate then old(Recent()) else Last(old(Recent()) + [id], capacity)
    {
      ghost var before := Recent();
      assert forall x :: x in before <==> x in ring;
      if id in known {
        return true;
      }
      if |ring| < capacity {
        ring := ring + [id];
        known := known + {id};
        assert Recent() == before + [id];
        return false;
      }
      ReplaceOldest(id);
      duplicate := false;
    }

    /** The ring is full: overwrite its oldest slot. */
    method ReplaceOldest(id: int)
      requires Valid() && |ring| == capacity && id !in ring
      modifies this
      ensures Valid() && Recent() == Last(old(Recent()) + [id], capacity)
    {
      ghost var before := ring;
      known := known - {ring[next]};
      ring := ring[next := id];
      next := (next + 1) % capacity;
      known := known + {id};
      ReplacedMembers(before, old(next), id);
      ReplacedRecent(before, old(next), id, next);
    }

    method Len() returns (n: nat)
      requires Valid()
      ensures n == |Recent()|
    {
      n := |known|;
      SetSize(ring);
    }
  }

  lemma {:induction false} SetSize(ids: seq<int>)
    requires Distinct(ids)
    ensures |Members(ids)| == |ids|
  {
    if ids != [] {
      var n := |ids| - 1;
      SetSize(ids[..n]);
      assert Members(ids) == Members(ids[..n]) + {ids[n]};
    }
  }

  function Members(ids: seq<int>): set<int> {
    set id | id in ids
  }

  /** Overwriting one slot of a ring without repeats. */
  lemma ReplacedMembers(ring: seq<int>, at: nat, id: int)
    requires at < |ring| && Distinct(ring) && id !in ring
    ensures Members(ring[at := id]) == Members(ring) - {ring[at]} + {id}
  {
    var after := ring[at := id];
    forall x ensures x in after <==> x == id || (x in ring && x != ring[at]) {
      if x in ring && x != ring[at] {
        var i :| 0 <= i < |ring| && ring[i] == x;
        assert after[i] == x;
      }
      assert after[at] == id;
    }
  }

  /** The slot overwritten is the oldest, and the next one is the oldest after it. */
  lemma ReplacedRecent(ring: seq<int>, at: nat, id: int, next: nat)
    requires at < |ring| && next == (at + 1) % |ring|
    ensures ring[at := id][next..] + ring[at := id][..next] == Last(ring[at..] + ring[..at] + [id], |ring|)
  {
    var after := ring[at := id];
    assert Last(ring[at..] + ring[..at] + [id], |ring|) == ring[at + 1..] + ring[..at] + [id];
    if at + 1 < |ring| {
      assert next == at + 1;
      assert after[..next] == ring[..at] + [id];
    } else {
      assert next == 0;
      assert after == ring[..at] + [id];
    }
  }

  /** The reference: every id that was accepted, in order, without a bound. An id is accepted
      unless it is among the last capacity of them. */
  function Accepted(ids: seq<int>, capacity: nat): seq<int> {
    if ids == [] then []
    else
      var before := Accepted(ids[..|ids| - 1], capacity);
      if ids[|ids| - 1] in Last(before, capacity) then before else before + [ids[|ids| - 1]]
  }

  lemma LastOfLast(all: seq<int>, id: int, capacity: nat)
    requires capacity > 0
    ensures Last(Last(all, capacity) + [id], capacity) == Last(all + [id], capacity)
  {
  }

  /** The last capacity ids accepted. */
  function Window(ids: seq<int>, capacity: nat): seq<int> {
    Last(Accepted(ids, capacity), capacity)
  }

  lemma WindowSlides(ids: seq<int>, k: nat, capacity: nat)
    requires capacity > 0 && k < |ids|
    ensures Window(ids[..k + 1], capacity) ==
      if ids[k] in Window(ids[..k], capacity) then Window(ids[..k], capacity)
      else Last(Window(ids[..k], capacity) + [ids[k]], capacity)
  {
    assert ids[..k + 1][..k] == ids[..k];
    LastOfLast(Accepted(ids[..k], capacity), ids[k], capacity);
  }

  /** Which ids were reported as duplicates, given the window after any prefix of the ids. */
  ghost predicate Reported(ids: seq<int>, duplicates: seq<bool>, window: seq<int> -> seq<int>) {
    |duplicates| <= |ids| && forall k :: 0 <= k < |duplicates| ==> (duplicates[k] <==> ids[k] in window(ids[..k]))
  }

  lemma ReportedOneMore(ids: seq<int>, duplicates: seq<bool>, window: seq<int> -> seq<int>, d: bool)
    requires Reported(ids, duplicates, window) && |duplicates| < |ids|
    requires d <==> ids[|duplicates|] in window(ids[..|duplicates|])
    ensures Reported(ids, duplicates + [d], window)
  {
  }

  /** Over any calls of Add, the window's contents are the last min(n, capacity) of the n ids
      accepted so far, in order, and an id is reported a duplicate exactly when it is among them. */
  method AddAll(ids: seq<int>, capacity: int) returns (duplicates: seq<bool>, w: RequestIdWindow)
    ensures |duplicates| == |ids| && w.Valid() && w.Recent() == Window(ids, w.capacity)
    ensures var c := w.capacity; Reported(ids, duplicates, prefix => Window(prefix, c))
  {
    w := new RequestIdWindow(capacity);
    ghost var c := w.capacity;
    ghost var window := prefix => Window(prefix, c);
    duplicates := [];
    for k := 0 to |ids|
      invariant w.Valid() && fresh(w) && |duplicates| == k
      invariant w.Recent() == Window(ids[..k], w.capacity)
      invariant Reported(ids, duplicates, window)
    {
      WindowSlides(ids, k, w.capacity);
      var d := w.Add(ids[k]);
      ReportedOneMore(ids, duplicates, window, d);
      duplicates := duplicates + [d];
    }
    assert ids[..|ids|] == ids;
  }

  /** No id occurs twice among the last capacity accepted ones. */
  lemma {:induction false} WindowDistinct(ids: seq<int>, capacity: nat)
    requires capacity > 0
    ensures Distinct(Window(ids, capacity))
  {
    if ids != [] {
      var before := Accepted(ids[..|ids| - 1], capacity);
      WindowDistinct(ids[..|ids| - 1], capacity);
      LastOfLast(before, ids[|ids| - 1], capacity);
    }
  }

  /** A repeated id is refused as long as fewer than capacity ids were accepted after it. */
  lemma RepeatRefused(ids: seq<int>, capacity: nat, k: nat)
    requires capacity > 0 && k < |Accepted(ids, capacity)|
    ensures |Accepted(ids, capacity)| - k <= capacity ==>
      Accepted(ids + [Accepted(ids, capacity)[k]], capacity) == Accepted(ids, capacity)
  {
    var all := Accepted(ids, capacity);
    var id := all[k];
    assert (ids + [id])[..|ids|] == ids;
    if |all| - k <= capacity {
      var w := Last(all, capacity);
      assert w[k - (|all| - |w|)] == id;
    }
  }
}
