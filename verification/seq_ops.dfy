/**
  The array surgery the editor performs with JavaScript's `filter`, `findIndex` and `splice`:
  removing and inserting at a position, moving one element (remove, then insert), and the
  normalisation `splice` applies to its start argument.
 */
module SeqOps {

  /** `arr.splice(i, 1)` for an index inside the array: the element at `i` is dropped. */
  function RemoveAt<T>(s: seq<T>, i: nat): (r: seq<T>)
    requires i < |s|
    ensures |r| == |s| - 1
    ensures forall k :: 0 <= k < i ==> r[k] == s[k]
    ensures forall k :: i <= k < |r| ==> r[k] == s[k + 1]
  {
    s[..i] + s[i + 1..]
  }

  /** `arr.splice(i, 0, x)` for a position inside the array or at its end. */
  function InsertAt<T>(s: seq<T>, i: nat, x: T): (r: seq<T>)
    requires i <= |s|
    ensures |r| == |s| + 1
    ensures r[i] == x
    ensures forall k :: 0 <= k < i ==> r[k] == s[k]
    ensures forall k :: i < k < |r| ==> r[k] == s[k - 1]
  {
    s[..i] + [x] + s[i..]
  }

  /**
    The position `splice(start, ...)` actually uses on an array of length `len`: a negative start
    counts back from the end (and stops at 0), a start past the end means the end.
   */
  function SpliceStart(start: int, len: nat): (r: nat)
    ensures r <= len
    ensures 0 <= start <= len ==> r == start
    ensures start > len ==> r == len
    ensures start < 0 && len + start >= 0 ==> r == len + start
    ensures start < 0 && len + start < 0 ==> r == 0
  {
    if start < 0 then (if len + start < 0 then 0 else len + start)
    else if start > len then len
    else start
  }

  /**
    `copy.splice(start, 1)` on a copy: on a non-empty sequence any start below its length drops
    the element at the normalised start (a start below -|s| drops the first); a start at or past
    the end, or an empty sequence, removes nothing.
   */
  function SpliceRemove<T>(s: seq<T>, start: int): (r: seq<T>)
    ensures 0 < |s| && start < |s| ==> r == RemoveAt(s, SpliceStart(start, |s|))
    ensures |s| == 0 || start >= |s| ==> r == s
  {
    var k := SpliceStart(start, |s|);
    if k < |s| then RemoveAt(s, k) else s
  }

  /**
    Splice-move: take the element at `from` out and put it back so that it ends up at index
    `to` of the result (both indices of the original, equally long, sequence).
   */
  function SpliceMove<T>(s: seq<T>, from: nat, to: nat): (r: seq<T>)
    requires from < |s| && to < |s|
    ensures |r| == |s|
    ensures r[to] == s[from]
  {
    InsertAt(RemoveAt(s, from), to, s[from])
  }

  /** Where the element at index `k` ends up after moving the element at `from` to `to`. */
  function MovedIndex(k: nat, from: nat, to: nat): nat
  {
    if k == from then to
    else if from < k && k <= to then k - 1
    else if to <= k && k < from then k + 1
    else k
  }

  /** Every element, moved or not, is found at its `MovedIndex` after a splice-move. */
  lemma SpliceMoveAt<T>(s: seq<T>, from: nat, to: nat, k: nat)
    requires from < |s| && to < |s| && k < |s|
    ensures MovedIndex(k, from, to) < |s|
    ensures SpliceMove(s, from, to)[MovedIndex(k, from, to)] == s[k]
  {
    var rest := RemoveAt(s, from);
    if k != from {
      // position of s[k] in `rest`, then in the result
      var j := if k < from then k else k - 1;
      assert rest[j] == s[k];
    }
  }

  /** The elements that did not move keep their relative order: the inverse of `MovedIndex`. */
  lemma SpliceMoveFrom<T>(s: seq<T>, from: nat, to: nat, i: nat)
    requires from < |s| && to < |s| && i < |s|
    ensures SpliceMove(s, from, to)[i] ==
      if i == to then s[from]
      else if from < to && from <= i < to then s[i + 1]
      else if to < from && to < i <= from then s[i - 1]
      else s[i]
  {
  }

  lemma RemoveAtMultiset<T>(s: seq<T>, i: nat)
    requires i < |s|
    ensures multiset(RemoveAt(s, i)) + multiset{s[i]} == multiset(s)
  {
    assert s == s[..i] + [s[i]] + s[i + 1..];
  }

  lemma InsertAtMultiset<T>(s: seq<T>, i: nat, x: T)
    requires i <= |s|
    ensures multiset(InsertAt(s, i, x)) == multiset(s) + multiset{x}
  {
    assert s == s[..i] + s[i..];
  }

  /** A splice-move is a permutation: it neither loses nor duplicates an element. */
  lemma SpliceMovePermutes<T>(s: seq<T>, from: nat, to: nat)
    requires from < |s| && to < |s|
    ensures multiset(SpliceMove(s, from, to)) == multiset(s)
  {
    RemoveAtMultiset(s, from);
    InsertAtMultiset(RemoveAt(s, from), to, s[from]);
  }

  /** `arr.filter(keep)`. */
  function Filter<T>(s: seq<T>, keep: T -> bool): (r: seq<T>)
    ensures |r| <= |s|
    ensures forall x :: x in r ==> x in s && keep(x)
  {
    if s == [] then [] else (if keep(s[0]) then [s[0]] else []) + Filter(s[1..], keep)
  }

  /** Filtering keeps exactly the kept elements. */
  lemma {:induction false} FilterMembership<T>(s: seq<T>, keep: T -> bool, x: T)
    ensures x in Filter(s, keep) <==> x in s && keep(x)
  {
    if s != [] {
      FilterMembership(s[1..], keep, x);
      assert s == [s[0]] + s[1..];
    }
  }

  /** Filtering distributes over concatenation: the kept elements stay in their original order. */
  lemma {:induction false} FilterAppend<T>(a: seq<T>, b: seq<T>, keep: T -> bool)
    ensures Filter(a + b, keep) == Filter(a, keep) + Filter(b, keep)
  {
    if a == [] {
      assert a + b == b;
    } else {
      assert (a + b)[1..] == a[1..] + b;
      FilterAppend(a[1..], b, keep);
    }
  }

  /** A filter that rejects nothing is the identity. */
  lemma {:induction false} FilterKeepsAll<T>(s: seq<T>, keep: T -> bool)
    requires forall k :: 0 <= k < |s| ==> keep(s[k])
    ensures Filter(s, keep) == s
  {
    if s != [] {
      FilterKeepsAll(s[1..], keep);
    }
  }

  /** A filter that rejects some element drops at least one. */
  lemma {:induction false} FilterDrops<T>(s: seq<T>, keep: T -> bool, i: nat)
    requires i < |s| && !keep(s[i])
    ensures |Filter(s, keep)| < |s|
  {
    if i > 0 {
      FilterDrops(s[1..], keep, i - 1);
    }
  }

  /** `arr.findIndex(p)`: the first index satisfying `p`, or -1. */
  function FindIndex<T>(s: seq<T>, p: T -> bool): (r: int)
    ensures -1 <= r < |s|
    ensures r == -1 <==> forall k :: 0 <= k < |s| ==> !p(s[k])
    ensures r >= 0 ==> p(s[r]) && forall k :: 0 <= k < r ==> !p(s[k])
  {
    if s == [] then -1
    else if p(s[0]) then 0
    else var r := FindIndex(s[1..], p); if r == -1 then -1 else r + 1
  }

  /** Two sequences whose elements agree on `p` position by position have the same first match. */
  lemma {:induction false} FindIndexAgrees<T>(s: seq<T>, t: seq<T>, p: T -> bool)
    requires |s| == |t| && forall k :: 0 <= k < |s| ==> p(s[k]) == p(t[k])
    ensures FindIndex(s, p) == FindIndex(t, p)
  {
    if s != [] && !p(s[0]) {
      FindIndexAgrees(s[1..], t[1..], p);
    }
  }
}
