/**
 * The stable sort that JavaScript's `Array.prototype.sort` performs (stable since
 * ES2019), written as an insertion sort over a comparator `le`: `le(a, b)` holds when
 * the comparator returns a number `<= 0` for `(a, b)`, so `a` may stay before `b`.
 * The same sort stands for the `ORDER BY` clauses of the storage layer, where rows
 * that compare equal keep their stored order.
 */
module Sorting {

  /** `le` orders every pair and is transitive: what a consistent comparator provides. */
  ghost predicate TotalPreorder<T(!new)>(le: (T, T) -> bool)
  {
    && (forall a, b :: le(a, b) || le(b, a))
    && (forall a, b, c :: le(a, b) && le(b, c) ==> le(a, c))
  }

  ghost predicate SortedBy<T>(s: seq<T>, le: (T, T) -> bool)
  {
    forall i, j :: 0 <= i < j < |s| ==> le(s[i], s[j])
  }

  /** `s` reversed: what `ORDER BY createdAt DESC` returns for rows stored in creation order. */
  function Reverse<T>(s: seq<T>): (r: seq<T>)
    ensures |r| == |s|
    ensures multiset(r) == multiset(s)
    ensures forall i :: 0 <= i < |s| ==> r[i] == s[|s| - 1 - i]
  {
    if s == [] then []
    else
      assert s == [s[0]] + s[1..];
      Reverse(s[1..]) + [s[0]]
  }

  /**
   * Inserts `x` into `s` from the right: `x` moves left past every element that must
   * come after it and stops behind the first one it may follow.
   */
  function Insert<T>(s: seq<T>, x: T, le: (T, T) -> bool): (r: seq<T>)
    ensures |r| == |s| + 1
    decreases |s|
  {
    if s == [] || le(s[|s| - 1], x) then s + [x]
    else
      assert s == s[..|s| - 1] + [s[|s| - 1]];
      Insert(s[..|s| - 1], x, le) + [s[|s| - 1]]
  }

  function InsertionSort<T>(s: seq<T>, le: (T, T) -> bool): (r: seq<T>)
    ensures |r| == |s|
    decreases |s|
  {
    if s == [] then []
    else
      assert s == s[..|s| - 1] + [s[|s| - 1]];
      Insert(InsertionSort(s[..|s| - 1], le), s[|s| - 1], le)
  }

  /** Inserting adds exactly the one element. */
  lemma {:induction false} InsertPermutes<T>(s: seq<T>, x: T, le: (T, T) -> bool)
    ensures multiset(Insert(s, x, le)) == multiset(s) + multiset{x}
    decreases |s|
  {
    if s != [] && !le(s[|s| - 1], x) {
      InsertPermutes(s[..|s| - 1], x, le);
      assert s == s[..|s| - 1] + [s[|s| - 1]];
    }
  }

  /** The sort is a permutation of its input. */
  lemma {:induction false} InsertionSortPermutes<T>(s: seq<T>, le: (T, T) -> bool)
    ensures multiset(InsertionSort(s, le)) == multiset(s)
    decreases |s|
  {
    if s != [] {
      InsertionSortPermutes(s[..|s| - 1], le);
      InsertPermutes(InsertionSort(s[..|s| - 1], le), s[|s| - 1], le);
      assert s == s[..|s| - 1] + [s[|s| - 1]];
    }
  }

  /** The elements of `s` equivalent to `y` under `le` (each orders before the other), in order. */
  function Equivalents<T>(s: seq<T>, y: T, le: (T, T) -> bool): seq<T>
    decreases |s|
  {
    if s == [] then []
    else
      var x := s[|s| - 1];
      Equivalents(s[..|s| - 1], y, le) + (if le(x, y) && le(y, x) then [x] else [])
  }

  lemma {:induction false} EquivalentsAppend<T>(s: seq<T>, x: T, y: T, le: (T, T) -> bool)
    ensures Equivalents(s + [x], y, le) == Equivalents(s, y, le) + (if le(x, y) && le(y, x) then [x] else [])
  {
    assert (s + [x])[..|s|] == s;
  }

  lemma {:induction false} InsertKeepsSorted<T(!new)>(s: seq<T>, x: T, le: (T, T) -> bool)
    requires TotalPreorder(le)
    requires SortedBy(s, le)
    ensures SortedBy(Insert(s, x, le), le)
    decreases |s|
  {
    if s == [] || le(s[|s| - 1], x) {
    } else {
      var init, last := s[..|s| - 1], s[|s| - 1];
      InsertKeepsSorted(init, x, le);
      var r := Insert(init, x, le);
      InsertPermutes(init, x, le);
      assert le(x, last);
      forall e | e in multiset(r) ensures le(e, last) {
        if e == x {
        } else {
          assert e in multiset(init);
          var k :| 0 <= k < |init| && init[k] == e;
          assert le(s[k], s[|s| - 1]);
        }
      }
      forall i, j | 0 <= i < j < |r| + 1 ensures le((r + [last])[i], (r + [last])[j]) {
        if j == |r| {
          assert r[i] in multiset(r);
        }
      }
    }
  }

  /** The sort yields a sequence ordered by `le`. */
  lemma {:induction false} InsertionSortSorted<T(!new)>(s: seq<T>, le: (T, T) -> bool)
    requires TotalPreorder(le)
    ensures SortedBy(InsertionSort(s, le), le)
    decreases |s|
  {
    if s != [] {
      InsertionSortSorted(s[..|s| - 1], le);
      InsertKeepsSorted(InsertionSort(s[..|s| - 1], le), s[|s| - 1], le);
    }
  }

  lemma {:induction false} InsertStable<T(!new)>(s: seq<T>, x: T, y: T, le: (T, T) -> bool)
    requires TotalPreorder(le)
    ensures Equivalents(Insert(s, x, le), y, le) == Equivalents(s, y, le) + (if le(x, y) && le(y, x) then [x] else [])
    decreases |s|
  {
    if s == [] || le(s[|s| - 1], x) {
      EquivalentsAppend(s, x, y, le);
    } else {
      var init, last := s[..|s| - 1], s[|s| - 1];
      InsertStable(init, x, y, le);
      EquivalentsAppend(Insert(init, x, le), last, y, le);
      // x and last are never both equivalent to y: that would force le(last, x).
      assert !(le(x, y) && le(y, x) && le(last, y) && le(y, last));
    }
  }

  /** Stability: elements that compare equal keep their relative order. */
  lemma {:induction false} InsertionSortStable<T(!new)>(s: seq<T>, y: T, le: (T, T) -> bool)
    requires TotalPreorder(le)
    ensures Equivalents(InsertionSort(s, le), y, le) == Equivalents(s, y, le)
    decreases |s|
  {
    if s != [] {
      var init, last := s[..|s| - 1], s[|s| - 1];
      InsertionSortStable(init, y, le);
      InsertStable(InsertionSort(init, le), last, y, le);
    }
  }

  /** An input that is already in order comes back unchanged. */
  lemma {:induction false} InsertionSortOfSorted<T>(s: seq<T>, le: (T, T) -> bool)
    requires SortedBy(s, le)
    ensures InsertionSort(s, le) == s
    decreases |s|
  {
    if s != [] {
      var init := s[..|s| - 1];
      assert SortedBy(init, le);
      InsertionSortOfSorted(init, le);
      assert s == init + [s[|s| - 1]];
      if |init| > 0 {
        assert le(init[|init| - 1], s[|s| - 1]);
      }
    }
  }

  /** Sorting twice gives what sorting once gives. */
  lemma InsertionSortIdempotent<T(!new)>(s: seq<T>, le: (T, T) -> bool)
    requires TotalPreorder(le)
    ensures InsertionSort(InsertionSort(s, le), le) == InsertionSort(s, le)
  {
    InsertionSortSorted(s, le);
    InsertionSortOfSorted(InsertionSort(s, le), le);
  }

  /**
   * Where `x` lands: behind the prefix `s[..j]` whose last element it may follow, in
   * front of the suffix `s[j..]` of elements that must come after it.
   */
  lemma {:induction false} InsertAt<T>(s: seq<T>, x: T, le: (T, T) -> bool, j: int)
    requires 0 <= j <= |s|
    requires j > 0 ==> le(s[j - 1], x)
    requires forall k :: j <= k < |s| ==> !le(s[k], x)
    ensures Insert(s, x, le) == s[..j] + [x] + s[j..]
    decreases |s|
  {
    if j == |s| {
      assert s[..j] == s;
    } else {
      var init := s[..|s| - 1];
      InsertPastLast(s, x, le);
      assert forall k :: j <= k < |init| ==> init[k] == s[k];
      InsertAt(init, x, le, j);
      SplitLast(s, x, j);
    }
  }

  /** When `x` may not follow the last element, it is inserted into the rest. */
  lemma InsertPastLast<T>(s: seq<T>, x: T, le: (T, T) -> bool)
    requires s != [] && !le(s[|s| - 1], x)
    ensures Insert(s, x, le) == Insert(s[..|s| - 1], x, le) + [s[|s| - 1]]
  {
  }

  lemma SplitLast<T>(s: seq<T>, x: T, j: int)
    requires 0 <= j < |s|
    ensures s[..|s| - 1][..j] + [x] + s[..|s| - 1][j..] + [s[|s| - 1]] == s[..j] + [x] + s[j..]
  {
    var init := s[..|s| - 1];
    assert init[..j] == s[..j];
    assert init[j..] + [s[|s| - 1]] == s[j..];
  }

  /** The first element of `s` equivalent to `y` heads the list of its equivalents. */
  lemma {:induction false} EquivalentsHead<T>(s: seq<T>, y: T, le: (T, T) -> bool, k: int)
    requires 0 <= k < |s| && le(s[k], y) && le(y, s[k])
    requires forall i :: 0 <= i < k ==> !(le(s[i], y) && le(y, s[i]))
    ensures |Equivalents(s, y, le)| > 0 && Equivalents(s, y, le)[0] == s[k]
    decreases |s|
  {
    var init := s[..|s| - 1];
    if k < |s| - 1 {
      EquivalentsHead(init, y, le, k);
    } else {
      EquivalentsNone(init, y, le);
    }
  }

  lemma {:induction false} EquivalentsNone<T>(s: seq<T>, y: T, le: (T, T) -> bool)
    requires forall i :: 0 <= i < |s| ==> !(le(s[i], y) && le(y, s[i]))
    ensures Equivalents(s, y, le) == []
    decreases |s|
  {
    if s != [] {
      EquivalentsNone(s[..|s| - 1], y, le);
    }
  }

  /**
   * `Array.prototype.sort` in place: each element in turn is shifted left past the
   * sorted elements it may not follow, which leaves the array as `InsertionSort` of
   * its old contents.
   */
  method SortInPlace<T>(a: array<T>, le: (T, T) -> bool)
    modifies a
    ensures a[..] == InsertionSort(old(a[..]), le)
  {
    ghost var input := a[..];
    var i := 0;
    while i < a.Length
      invariant 0 <= i <= a.Length
      invariant a[..] == InsertionSort(input[..i], le) + input[i..]
    {
      InsertNext(a, i, le);
      SortStep(input, i, le);
      i := i + 1;
    }
    assert input[..a.Length] == input;
  }

  /** Sorting one more element of `s` inserts it into the sorted prefix, and the rest follows unchanged. */
  lemma SortStep<T>(s: seq<T>, i: int, le: (T, T) -> bool)
    requires 0 <= i < |s|
    ensures var done := InsertionSort(s[..i], le) + s[i..];
      Insert(done[..i], done[i], le) + done[i + 1..] == InsertionSort(s[..i + 1], le) + s[i + 1..]
  {
    var done := InsertionSort(s[..i], le) + s[i..];
    assert done[..i] == InsertionSort(s[..i], le);
    assert done[i] == s[i];
    assert done[i + 1..] == s[i + 1..];
    assert s[..i + 1][..i] == s[..i];
  }

  /** Inserts `a[i]` into the sorted prefix `a[..i]`, leaving the rest of the array alone. */
  method InsertNext<T>(a: array<T>, i: int, le: (T, T) -> bool)
    requires 0 <= i < a.Length
    modifies a
    ensures a[..] == Insert(old(a[..])[..i], old(a[..])[i], le) + old(a[..])[i + 1..]
  {
    ghost var sorted := a[..i];
    ghost var rest := a[i + 1..];
    var x := a[i];
    var j := i;
    while j > 0 && !le(a[j - 1], x)
      invariant 0 <= j <= i
      invariant forall k :: 0 <= k < j ==> a[k] == sorted[k]
      invariant forall k :: j < k <= i ==> a[k] == sorted[k - 1]
      invariant forall k :: i < k < a.Length ==> a[k] == rest[k - i - 1]
      invariant forall k :: j <= k < i ==> !le(sorted[k], x)
    {
      a[j] := a[j - 1];
      j := j - 1;
    }
    a[j] := x;
    assert a[..i + 1] == Insert(sorted, x, le) by {
      InsertAt(sorted, x, le, j);
      SpliceEq(a[..i + 1], sorted, x, j);
    }
    assert a[i + 1..] == rest;
    assert a[..] == a[..i + 1] + a[i + 1..];
  }

  /** A sequence that holds `s[..j]`, then `x`, then `s[j..]`, pointwise, is that concatenation. */
  lemma SpliceEq<T>(r: seq<T>, s: seq<T>, x: T, j: int)
    requires 0 <= j <= |s| && |r| == |s| + 1
    requires forall k :: 0 <= k < j ==> r[k] == s[k]
    requires r[j] == x
    requires forall k :: j < k <= |s| ==> r[k] == s[k - 1]
    ensures r == s[..j] + [x] + s[j..]
  {
  }
}
