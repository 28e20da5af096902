/** Ascending sorts: `slice::sort_by(partial_cmp)` on a copy of the f64 values and
    `sort_unstable` on indices, both as one in-place insertion sort ordered by a key. */
module Sorting {

  /** Ascending by `key`. */
  ghost predicate SortedBy<T>(s: seq<T>, key: T -> real)
  {
    forall i, j :: 0 <= i < j < |s| ==> key(s[i]) <= key(s[j])
  }

  /** The key of an f64 value is the value itself. */
  function Identity(x: real): real { x }

  /** The key of an index is its position. */
  function IndexKey(i: nat): real { i as real }

  /** Sorts `a` in place, ascending by `key`; the result is a permutation of the input. */
  method SortBy<T>(a: array<T>, key: T -> real)
    modifies a
    ensures SortedBy(a[..], key)
    ensures multiset(a[..]) == multiset(old(a[..]))
  {
    if a.Length == 0 {
      return;
    }
    var i := 1;
    while i < a.Length
      invariant 1 <= i <= a.Length
      invariant SortedBy(a[..i], key)
      invariant multiset(a[..]) == multiset(old(a[..]))
    {
      Insert(a, i, key);
      i := i + 1;
    }
    assert a[..a.Length] == a[..];
  }

  /** Moves `a[i]` left into the sorted prefix `a[..i]`, so that `a[..i + 1]` is sorted. */
  method Insert<T>(a: array<T>, i: nat, key: T -> real)
    requires 0 < i < a.Length
    requires SortedBy(a[..i], key)
    modifies a
    ensures SortedBy(a[..i + 1], key)
    ensures multiset(a[..]) == multiset(old(a[..]))
  {
    var j := i;
    while j > 0 && key(a[j - 1]) > key(a[j])
      invariant 0 <= j <= i
      invariant forall k, l :: 0 <= k < l <= i && k != j && l != j ==> key(a[k]) <= key(a[l])
      invariant forall l :: j < l <= i ==> key(a[j]) < key(a[l])
      invariant multiset(a[..]) == multiset(old(a[..]))
    {
      Swap(a, j - 1, j);
      j := j - 1;
    }
  }

  /** Exchanges two neighbouring elements. */
  method Swap<T>(a: array<T>, i: nat, j: nat)
    requires i < j < a.Length
    modifies a
    ensures a[i] == old(a[j]) && a[j] == old(a[i])
    ensures forall k :: 0 <= k < a.Length && k != i && k != j ==> a[k] == old(a[k])
    ensures multiset(a[..]) == multiset(old(a[..]))
  {
    a[i], a[j] := a[j], a[i];
  }

  /** The sorted copy of a slice of values, as a function: insertion into a sorted list. */
  function SortedCopy(s: seq<real>): (r: seq<real>)
    ensures |r| == |s| && multiset(r) == multiset(s) && SortedBy(r, Identity)
  {
    if |s| == 0 then []
    else
      assert s == s[..|s| - 1] + [s[|s| - 1]];
      InsertSorted(SortedCopy(s[..|s| - 1]), s[|s| - 1])
  }

  function InsertSorted(s: seq<real>, x: real): (r: seq<real>)
    requires SortedBy(s, Identity)
    ensures |r| == |s| + 1 && multiset(r) == multiset(s) + multiset{x} && SortedBy(r, Identity)
  {
    if |s| == 0 then [x]
    else if x <= s[0] then [x] + s
    else
      SortedTail(s);
      var t := InsertSorted(s[1..], x);
      InsertBehindHead(s, x, t);
      [s[0]] + t
  }

  /** Putting the head of `s` in front of `x` inserted into the rest of `s`. */
  lemma InsertBehindHead(s: seq<real>, x: real, t: seq<real>)
    requires |s| > 0 && SortedBy(s, Identity) && s[0] < x
    requires SortedBy(t, Identity) && multiset(t) == multiset(s[1..]) + multiset{x}
    ensures multiset([s[0]] + t) == multiset(s) + multiset{x} && SortedBy([s[0]] + t, Identity)
  {
    assert s == [s[0]] + s[1..];
    forall k | 0 <= k < |t| ensures s[0] <= t[k] {
      assert t[k] in multiset(t);
      if t[k] != x {
        assert t[k] in multiset(s[1..]);
        var j :| 0 <= j < |s[1..]| && s[1..][j] == t[k];
        assert Identity(s[0]) <= Identity(s[j + 1]);
      }
    }
    var r := [s[0]] + t;
    forall i, j | 0 <= i < j < |r| ensures Identity(r[i]) <= Identity(r[j]) {
      if i > 0 {
        assert Identity(t[i - 1]) <= Identity(t[j - 1]);
      }
    }
  }

  /** The head of an ascending sequence is its least element. */
  lemma HeadIsLeast(a: seq<real>, x: real)
    requires SortedBy(a, Identity) && x in a
    ensures a[0] <= x
  {
    var k :| 0 <= k < |a| && a[k] == x;
    if k > 0 {
      assert Identity(a[0]) <= Identity(a[k]);
    }
  }

  lemma SortedTail(a: seq<real>)
    requires |a| > 0 && SortedBy(a, Identity)
    ensures SortedBy(a[1..], Identity)
  {
    forall i, j | 0 <= i < j < |a| - 1
      ensures Identity(a[1..][i]) <= Identity(a[1..][j])
    {
      assert a[1..][i] == a[i + 1] && a[1..][j] == a[j + 1];
    }
  }

  /** Removing equal heads leaves equal multisets. */
  lemma TailMultiset(a: seq<real>, b: seq<real>)
    requires |a| > 0 && |b| > 0 && a[0] == b[0] && multiset(a) == multiset(b)
    ensures multiset(a[1..]) == multiset(b[1..])
  {
    assert a == [a[0]] + a[1..] && b == [b[0]] + b[1..];
    assert multiset(a) == multiset{a[0]} + multiset(a[1..]);
    assert multiset(b) == multiset{b[0]} + multiset(b[1..]);
    assert multiset(a[1..]) == multiset(a) - multiset{a[0]};
    assert multiset(b[1..]) == multiset(b) - multiset{b[0]};
  }

  /** Two ascending orderings of the same values coincide: a sorted copy is unique. */
  lemma {:induction false} SortedUnique(a: seq<real>, b: seq<real>)
    requires SortedBy(a, Identity) && SortedBy(b, Identity)
    requires multiset(a) == multiset(b)
    ensures a == b
  {
    assert |a| == |multiset(a)| == |multiset(b)| == |b|;
    if |a| > 0 {
      SameHeads(a, b);
      TailMultiset(a, b);
      SortedTail(a);
      SortedTail(b);
      SortedUnique(a[1..], b[1..]);
      HeadAndTail(a, b);
    }
  }

  /** Two ascending orderings of the same values start with the same least value. */
  lemma SameHeads(a: seq<real>, b: seq<real>)
    requires |a| > 0 && |b| > 0 && SortedBy(a, Identity) && SortedBy(b, Identity)
    requires multiset(a) == multiset(b)
    ensures a[0] == b[0]
  {
    assert a[0] in multiset(b) && b[0] in multiset(a);
    HeadIsLeast(a, b[0]);
    HeadIsLeast(b, a[0]);
  }

  lemma HeadAndTail(a: seq<real>, b: seq<real>)
    requires |a| > 0 && |b| > 0 && a[0] == b[0] && a[1..] == b[1..]
    ensures a == b
  {
    assert a == [a[0]] + a[1..] && b == [b[0]] + b[1..];
  }

  /** A sequence that never steps down is ascending. */
  lemma AdjacentSorted(s: seq<real>)
    requires forall i :: 0 < i < |s| ==> s[i - 1] <= s[i]
    ensures SortedBy(s, Identity)
  {
    forall i, j | 0 <= i < j < |s| ensures Identity(s[i]) <= Identity(s[j]) {
      ChainUp(s, i, j);
    }
  }

  lemma {:induction false} ChainUp(s: seq<real>, i: nat, j: nat)
    requires forall k :: 0 < k < |s| ==> s[k - 1] <= s[k]
    requires i <= j < |s|
    ensures s[i] <= s[j]
    decreases j - i
  {
    if i < j {
      ChainUp(s, i + 1, j);
    }
  }
}
