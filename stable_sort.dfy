/**
 * Python's `list.sort(key=..., reverse=True)`: a stable sort on a key, largest key first,
 * elements with equal keys keeping their original relative order. An ascending sort
 * (`reverse=False`) is the same sort on the negated key.
 */
module StableSort {
  import Seqs

  /** Keys never increase from left to right. */
  predicate SortedDesc<T>(s: seq<T>, key: T -> real) {
    forall i, j :: 0 <= i < j < |s| ==> key(s[i]) >= key(s[j])
  }

  /** The elements of `s` whose key is exactly `v`, in their order in `s`. */
  function WithKey<T>(s: seq<T>, key: T -> real, v: real): (r: seq<T>)
    ensures |r| <= |s|
    decreases |s|
  {
    if s == [] then []
    else WithKey(s[..|s| - 1], key, v) + (if key(s[|s| - 1]) == v then [s[|s| - 1]] else [])
  }

  /**
   * Places `x` into the descending sequence `s` after every element whose key is at
   * least `x`'s, scanning from the right as the in-place sort does.
   */
  function Insert<T>(s: seq<T>, x: T, key: T -> real): (r: seq<T>)
    ensures |r| == |s| + 1
    decreases |s|
  {
    if s == [] then [x]
    else if key(s[|s| - 1]) >= key(x) then s + [x]
    else Insert(s[..|s| - 1], x, key) + [s[|s| - 1]]
  }

  /** Insertion sort of `s`, taking the elements in their original order. */
  function Sort<T>(s: seq<T>, key: T -> real): (r: seq<T>)
    ensures |r| == |s|
    decreases |s|
  {
    if s == [] then [] else Insert(Sort(s[..|s| - 1], key), s[|s| - 1], key)
  }

  lemma {:induction false} InsertPermutes<T>(s: seq<T>, x: T, key: T -> real)
    ensures multiset(Insert(s, x, key)) == multiset(s) + multiset{x}
    decreases |s|
  {
    if s != [] && key(s[|s| - 1]) < key(x) {
      var s' := s[..|s| - 1];
      InsertPermutes(s', x, key);
      assert s == s' + [s[|s| - 1]];
    }
  }

  lemma {:induction false} InsertSorted<T>(s: seq<T>, x: T, key: T -> real)
    requires SortedDesc(s, key)
    ensures SortedDesc(Insert(s, x, key), key)
    ensures Insert(s, x, key) != [] && s != [] ==>
      Insert(s, x, key)[|s|] == x || Insert(s, x, key)[|s|] == s[|s| - 1]
    decreases |s|
  {
    if s != [] && key(s[|s| - 1]) < key(x) {
      var s' := s[..|s| - 1];
      InsertSorted(s', x, key);
      var r' := Insert(s', x, key);
      // the last element of r' is x or the last of s', both at least the key of s's last
      assert key(r'[|r'| - 1]) >= key(s[|s| - 1]);
    }
  }

  lemma {:induction false} InsertKeepsKeyOrder<T>(s: seq<T>, x: T, key: T -> real, v: real)
    ensures WithKey(Insert(s, x, key), key, v) == WithKey(s, key, v) + (if key(x) == v then [x] else [])
    decreases |s|
  {
    if s == [] {
      assert Insert(s, x, key) == [x];
      assert [x][..0] == [];
    } else if key(s[|s| - 1]) >= key(x) {
      assert (s + [x])[..|s|] == s;
    } else {
      var s' := s[..|s| - 1];
      var last := s[|s| - 1];
      InsertKeepsKeyOrder(s', x, key, v);
      var r' := Insert(s', x, key);
      assert (r' + [last])[..|r'|] == r';
      // every element skipped by the scan has a smaller key than x, so at most one of
      // `last` and `x` has key v and their relative order does not matter
      assert key(last) == v ==> key(x) != v;
    }
  }

  /** The sort is a permutation of its input. */
  lemma {:induction false} SortPermutes<T>(s: seq<T>, key: T -> real)
    ensures multiset(Sort(s, key)) == multiset(s)
    decreases |s|
  {
    if s != [] {
      var s' := s[..|s| - 1];
      SortPermutes(s', key);
      InsertPermutes(Sort(s', key), s[|s| - 1], key);
      assert s == s' + [s[|s| - 1]];
    }
  }

  /** The sort puts larger keys first. */
  lemma {:induction false} SortIsSorted<T>(s: seq<T>, key: T -> real)
    ensures SortedDesc(Sort(s, key), key)
    decreases |s|
  {
    if s != [] {
      SortIsSorted(s[..|s| - 1], key);
      InsertSorted(Sort(s[..|s| - 1], key), s[|s| - 1], key);
    }
  }

  /** Stability: for every key value, the elements with that key keep their original order. */
  lemma {:induction false} SortIsStable<T>(s: seq<T>, key: T -> real, v: real)
    ensures WithKey(Sort(s, key), key, v) == WithKey(s, key, v)
    decreases |s|
  {
    if s != [] {
      var s' := s[..|s| - 1];
      var last := s[|s| - 1];
      SortIsStable(s', key, v);
      SortIsSorted(s', key);
      InsertKeepsKeyOrder(Sort(s', key), last, key, v);
      assert s == s' + [last];
    }
  }

  /**
   * Truncating the sorted sequence to its first `n` elements keeps the best: every element
   * of the input either survives the cut or has a key no larger than any survivor's.
   */
  lemma {:induction false} SortPrefixDominates<T>(s: seq<T>, key: T -> real, n: nat, x: T)
    requires x in s
    ensures var top := Sort(s, key)[..if n < |s| then n else |s|];
      x in top || forall t :: t in top ==> key(t) >= key(x)
  {
    var sorted := Sort(s, key);
    SortPermutes(s, key);
    SortIsSorted(s, key);
    assert x in multiset(sorted);
    var m :| 0 <= m < |sorted| && sorted[m] == x;
    var top := sorted[..if n < |s| then n else |s|];
    if m >= |top| {
      forall t | t in top ensures key(t) >= key(x) {
        var k :| 0 <= k < |top| && top[k] == t;
        assert sorted[k] == t;
      }
    }
  }

  /** One step of the right-to-left scan of the in-place sort. */
  lemma InsertScanStep<T>(s: seq<T>, j: nat, x: T, key: T -> real)
    requires 0 < j <= |s| && key(s[j - 1]) < key(x)
    ensures Insert(s[..j], x, key) + s[j..] == Insert(s[..j - 1], x, key) + s[j - 1..]
  {
    assert s[..j][..j - 1] == s[..j - 1];
    assert s[j - 1..] == [s[j - 1]] + s[j..];
  }

  /** Elements after `j` whose keys are all below `key(x)` stay after `x`. */
  lemma {:induction false} InsertPastSmaller<T>(s: seq<T>, j: nat, x: T, key: T -> real)
    requires j <= |s| && forall k :: j <= k < |s| ==> key(s[k]) < key(x)
    ensures Insert(s, x, key) == Insert(s[..j], x, key) + s[j..]
    decreases |s| - j
  {
    if j < |s| {
      InsertPastSmaller(s, j + 1, x, key);
      InsertScanStep(s, j + 1, x, key);
    } else {
      assert s[..j] == s && s[j..] == [];
    }
  }

  /** Where the scan stops, `x` goes right after the scanned prefix. */
  lemma InsertScanStop<T>(s: seq<T>, j: nat, x: T, key: T -> real)
    requires j <= |s| && (j == 0 || key(s[j - 1]) >= key(x))
    ensures Insert(s[..j], x, key) == s[..j] + [x]
  {
  }

  /**
   * One pass of the in-place sort: `a[..i]` is already sorted; shifts the smaller-keyed
   * tail right by one and drops `a[i]` into the gap.
   */
  method InsertInPlace<T>(a: array<T>, i: nat, key: T -> real)
    requires i < a.Length
    modifies a
    ensures a[..i + 1] == Insert(old(a[..i]), old(a[i]), key)
    ensures forall k :: i < k < a.Length ==> a[k] == old(a[k])
  {
    ghost var sorted := a[..i];
    var x := a[i];
    var j := ShiftSmaller(a, i, x, key);
    InsertPastSmaller(sorted, j, x, key);
    InsertScanStop(sorted, j, x, key);
    a[j] := x;
    ghost var r := Insert(sorted, x, key);
    assert r == sorted[..j] + [x] + sorted[j..];
    forall k | 0 <= k <= i
      ensures a[k] == r[k]
    {
      if k > j {
        assert r[k] == sorted[k - 1];
      }
    }
  }

  /**
   * Shifts right by one, from `a[i - 1]` down, every element whose key is below `key(x)`,
   * and returns the gap left where `x` belongs.
   */
  method ShiftSmaller<T>(a: array<T>, i: nat, x: T, key: T -> real) returns (j: nat)
    requires i < a.Length
    modifies a
    ensures j <= i && (j == 0 || key(old(a[j - 1])) >= key(x))
    ensures forall k :: 0 <= k < j ==> a[k] == old(a[k])
    ensures forall k :: j < k <= i ==> a[k] == old(a[k - 1])
    ensures forall k :: i < k < a.Length ==> a[k] == old(a[k])
    ensures forall k :: j <= k < i ==> key(old(a[k])) < key(x)
  {
    ghost var sorted := a[..i];
    j := i;
    while j > 0 && key(a[j - 1]) < key(x)
      invariant 0 <= j <= i
      invariant forall k :: 0 <= k < j ==> a[k] == sorted[k]
      invariant forall k :: j < k <= i ==> a[k] == sorted[k - 1]
      invariant forall k :: i < k < a.Length ==> a[k] == old(a[k])
      invariant forall k :: j <= k < i ==> key(sorted[k]) < key(x)
    {
      assert a[j - 1] == sorted[j - 1];
      a[j] := a[j - 1];
      j := j - 1;
    }
  }

  /** Sorts `a` in place, as `list.sort(key=key, reverse=True)` does. */
  method SortDescending<T>(a: array<T>, key: T -> real)
    modifies a
    ensures a[..] == Sort(old(a[..]), key)
  {
    ghost var original := a[..];
    var i := 0;
    while i < a.Length
      invariant 0 <= i <= a.Length
      invariant a[..i] == Sort(original[..i], key)
      invariant forall k :: i <= k < a.Length ==> a[k] == original[k]
    {
      InsertInPlace(a, i, key);
      assert original[..i + 1] == original[..i] + [original[i]];
      i := i + 1;
    }
    assert original[..a.Length] == original;
  }
}
