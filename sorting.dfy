// Stable sorting by a "must come before" relation, as JavaScript's
// `Array.prototype.sort` does with a consistent comparator: a comparator
// `cmp` corresponds to `less(x, y) == (cmp(y, x) > 0)`, that is, `x` is moved
// in front of `y` exactly when the comparator says `y` belongs after `x`.
// A stable sort's result is determined by the order alone, so insertion sort
// describes it.

module Sorting {

  /** No element is strictly before an element to its left. */
  predicate Sorted<T>(s: seq<T>, less: (T, T) -> bool)
  {
    forall i, j :: 0 <= i < j < |s| ==> !less(s[j], s[i])
  }

  /** `less` is asymmetric and its complement is transitive: the relation a
      consistent comparator induces. */
  ghost predicate StrictWeakOrder<T(!new)>(less: (T, T) -> bool)
  {
    && (forall x, y :: less(x, y) ==> !less(y, x))
    && (forall x, y, z :: !less(x, y) && !less(y, z) ==> !less(x, z))
  }

  /** Neither element must precede the other. */
  predicate Equivalent<T>(x: T, y: T, less: (T, T) -> bool)
  {
    !less(x, y) && !less(y, x)
  }

  /** Inserts `x` behind `s` and moves it left past every element at the end
      that it must precede. */
  function Insert<T>(s: seq<T>, x: T, less: (T, T) -> bool): (r: seq<T>)
    ensures |r| == |s| + 1
    ensures multiset(r) == multiset(s) + multiset{x}
    decreases |s|
  {
    if s == [] || !less(x, s[|s| - 1]) then s + [x]
    else
      assert s == s[..|s| - 1] + [s[|s| - 1]];
      Insert(s[..|s| - 1], x, less) + [s[|s| - 1]]
  }

  /** Insertion sort: each element in turn is inserted into the sorted prefix. */
  function Sort<T>(s: seq<T>, less: (T, T) -> bool): (r: seq<T>)
    ensures |r| == |s|
    ensures multiset(r) == multiset(s)
    decreases |s|
  {
    if s == [] then []
    else
      assert s == s[..|s| - 1] + [s[|s| - 1]];
      Insert(Sort(s[..|s| - 1], less), s[|s| - 1], less)
  }

  lemma {:induction false} InsertSorted<T(!new)>(s: seq<T>, x: T, less: (T, T) -> bool)
    requires StrictWeakOrder(less) && Sorted(s, less)
    ensures Sorted(Insert(s, x, less), less)
    decreases |s|
  {
    if s == [] || !less(x, s[|s| - 1]) {
      var r := s + [x];
      forall i, j | 0 <= i < j < |r| ensures !less(r[j], r[i]) {
        if j == |s| && i < |s| - 1 {
          assert !less(x, s[|s| - 1]) && !less(s[|s| - 1], s[i]);
        }
      }
    } else {
      var init, last := s[..|s| - 1], s[|s| - 1];
      assert Sorted(init, less);
      InsertSorted(init, x, less);
      var t := Insert(init, x, less);
      var r := t + [last];
      forall i, j | 0 <= i < j < |r| ensures !less(r[j], r[i]) {
        if j == |t| {
          assert r[i] in multiset(init) + multiset{x} by {
            assert r[i] in multiset(t);
          }
          if r[i] != x {
            assert r[i] in init;
          }
        }
      }
    }
  }

  /** The sort's result is sorted. */
  lemma {:induction false} SortSorted<T(!new)>(s: seq<T>, less: (T, T) -> bool)
    requires StrictWeakOrder(less)
    ensures Sorted(Sort(s, less), less)
    decreases |s|
  {
    if s != [] {
      SortSorted(s[..|s| - 1], less);
      InsertSorted(Sort(s[..|s| - 1], less), s[|s| - 1], less);
    }
  }

  /** In a sorted sequence no element after a cut must precede one before it. */
  lemma SortedSplit<T>(s: seq<T>, n: nat, less: (T, T) -> bool)
    requires Sorted(s, less) && n <= |s|
    ensures forall x, y :: x in s[..n] && y in s[n..] ==> !less(y, x)
  {
    forall x, y | x in s[..n] && y in s[n..] ensures !less(y, x) {
      var i :| 0 <= i < n && s[..n][i] == x;
      var j :| 0 <= j < |s| - n && s[n..][j] == y;
      assert s[i] == x && s[n + j] == y;
    }
  }

  /** The elements of `s` equivalent to `v`, in their order in `s`. */
  function Equivalents<T>(s: seq<T>, v: T, less: (T, T) -> bool): (r: seq<T>)
    ensures |r| <= |s|
    ensures forall k :: 0 <= k < |r| ==> Equivalent(r[k], v, less) && r[k] in s
    decreases |s|
  {
    if s == [] then []
    else
      var last := s[|s| - 1];
      Equivalents(s[..|s| - 1], v, less) + (if Equivalent(last, v, less) then [last] else [])
  }

  lemma EquivalentsAppend<T>(s: seq<T>, x: T, v: T, less: (T, T) -> bool)
    ensures Equivalents(s + [x], v, less)
         == Equivalents(s, v, less) + (if Equivalent(x, v, less) then [x] else [])
  {
    assert (s + [x])[..|s|] == s;
  }

  /** A prefix keeps a prefix of each group of equivalent elements. */
  lemma {:induction false} EquivalentsOfPrefix<T>(p: seq<T>, s: seq<T>, v: T, less: (T, T) -> bool)
    requires p <= s
    ensures Equivalents(p, v, less) <= Equivalents(s, v, less)
    decreases |s|
  {
    if |p| < |s| {
      var init := s[..|s| - 1];
      assert p <= init;
      EquivalentsOfPrefix(p, init, v, less);
    } else {
      assert p == s;
    }
  }

  lemma {:induction false} InsertStable<T(!new)>(s: seq<T>, x: T, v: T, less: (T, T) -> bool)
    requires StrictWeakOrder(less)
    ensures Equivalents(Insert(s, x, less), v, less)
         == Equivalents(s, v, less) + (if Equivalent(x, v, less) then [x] else [])
    decreases |s|
  {
    if s == [] || !less(x, s[|s| - 1]) {
      EquivalentsAppend(s, x, v, less);
    } else {
      var init, last := s[..|s| - 1], s[|s| - 1];
      InsertStable(init, x, v, less);
      EquivalentsAppend(Insert(init, x, less), last, v, less);
      assert s == init + [last];
      EquivalentsAppend(init, last, v, less);
    }
  }

  /** Stability: elements that are equivalent keep their relative order. */
  lemma {:induction false} SortStable<T(!new)>(s: seq<T>, v: T, less: (T, T) -> bool)
    requires StrictWeakOrder(less)
    ensures Equivalents(Sort(s, less), v, less) == Equivalents(s, v, less)
    decreases |s|
  {
    if s != [] {
      var init, last := s[..|s| - 1], s[|s| - 1];
      SortStable(init, v, less);
      InsertStable(Sort(init, less), last, v, less);
      assert s == init + [last];
      EquivalentsAppend(init, last, v, less);
    }
  }

  /** Inserting into `s` moves `x` past a tail of elements it must precede. */
  lemma {:induction false} InsertPastTail<T>(s: seq<T>, j: nat, x: T, less: (T, T) -> bool)
    requires j <= |s|
    requires forall k :: j <= k < |s| ==> less(x, s[k])
    ensures Insert(s, x, less) == Insert(s[..j], x, less) + s[j..]
    decreases |s|
  {
    if j < |s| {
      var init, last := s[..|s| - 1], s[|s| - 1];
      assert less(x, last);
      assert Insert(s, x, less) == Insert(init, x, less) + [last];
      assert forall k :: j <= k < |init| ==> less(x, init[k]) by {
        forall k | j <= k < |init| ensures less(x, init[k]) {
          assert init[k] == s[k];
        }
      }
      InsertPastTail(init, j, x, less);
      assert init[..j] == s[..j];
      assert init[j..] + [last] == s[j..];
    } else {
      assert s[..j] == s;
    }
  }

  lemma SortOfLonger<T>(s: seq<T>, i: nat, less: (T, T) -> bool)
    requires i < |s|
    ensures Sort(s[..i + 1], less) == Insert(Sort(s[..i], less), s[i], less)
  {
    assert s[..i + 1][..i] == s[..i];
  }

  /** Where insertion puts `x`: behind the elements it need not precede and
      in front of the tail of elements it must precede. */
  lemma InsertStopsAt<T>(s: seq<T>, j: nat, x: T, less: (T, T) -> bool)
    requires j <= |s|
    requires forall k :: j <= k < |s| ==> less(x, s[k])
    requires j == 0 || !less(x, s[j - 1])
    ensures Insert(s, x, less) == s[..j] + [x] + s[j..]
  {
    InsertPastTail(s, j, x, less);
    if j > 0 {
      assert s[..j][j - 1] == s[j - 1];
    }
  }

  /** The effect of `InsertInPlace` on the array's contents, stated on
      sequences: shifting `before[j..i]` right and putting `before[i]` at `j`
      inserts it into `before[..i]`. */
  lemma ShiftIsInsert<T>(before: seq<T>, after: seq<T>, i: nat, j: nat, less: (T, T) -> bool)
    requires |after| == |before| && j <= i < |before|
    requires forall k :: j <= k < i ==> less(before[i], before[k])
    requires j == 0 || !less(before[i], before[j - 1])
    requires forall k :: 0 <= k < j ==> after[k] == before[k]
    requires after[j] == before[i]
    requires forall k :: j < k <= i ==> after[k] == before[k - 1]
    ensures after[..i + 1] == Insert(before[..i], before[i], less)
  {
    var sorted := before[..i];
    InsertStopsAt(sorted, j, before[i], less);
    var inserted := sorted[..j] + [before[i]] + sorted[j..];
    assert forall k :: 0 <= k <= i ==> after[k] == inserted[k];
    assert after[..i + 1] == inserted;
  }

  /** Moves `a[i]` left past the elements of `a[..i]` at their end that it
      must precede, shifting those one place to the right; `j` is where it
      lands. */
  method InsertInPlace<T>(a: array<T>, i: nat, less: (T, T) -> bool) returns (j: nat)
    requires i < a.Length
    modifies a
    ensures j <= i
    ensures forall k :: j <= k < i ==> less(old(a[i]), old(a[k]))
    ensures j == 0 || !less(old(a[i]), old(a[j - 1]))
    ensures forall k :: 0 <= k < j ==> a[k] == old(a[k])
    ensures a[j] == old(a[i])
    ensures forall k :: j < k <= i ==> a[k] == old(a[k - 1])
    ensures forall k :: i < k < a.Length ==> a[k] == old(a[k])
  {
    var x := a[i];
    j := i;
    while j > 0 && less(x, a[j - 1])
      invariant 0 <= j <= i
      invariant forall k :: 0 <= k < j ==> a[k] == old(a[k])
      invariant forall k :: j < k <= i ==> a[k] == old(a[k - 1])
      invariant forall k :: i < k < a.Length ==> a[k] == old(a[k])
      invariant forall k :: j <= k < i ==> less(x, old(a[k]))
    {
      a[j] := a[j - 1];
      j := j - 1;
    }
    a[j] := x;
  }

  /** Sorts `a` in place by insertion. */
  method SortInPlace<T>(a: array<T>, less: (T, T) -> bool)
    modifies a
    ensures a[..] == Sort(old(a[..]), less)
  {
    ghost var original := a[..];
    var i := 0;
    while i < a.Length
      invariant 0 <= i <= a.Length
      invariant a[..i] == Sort(original[..i], less)
      invariant forall k :: i <= k < a.Length ==> a[k] == original[k]
    {
      ghost var before := a[..];
      var j := InsertInPlace(a, i, less);
      ShiftIsInsert(before, a[..], i, j, less);
      SortOfLonger(original, i, less);
      i := i + 1;
    }
    assert a[..] == a[..a.Length];
    assert original == original[..a.Length];
  }
}
