/** List idioms of the backend: comprehensions with an `if`, Python slicing
    with possibly negative bounds, `for i in range(0, len(xs), size)` batching
    and `extend`-style concatenation. */
module Seqs {

  /** `xs` is obtained from `ys` by deleting elements: relative order is kept. */
  predicate IsSubsequence<T(==)>(xs: seq<T>, ys: seq<T>)
    decreases |ys|
  {
    if |xs| == 0 then true
    else if |ys| == 0 then false
    else if xs[|xs| - 1] == ys[|ys| - 1] then IsSubsequence(xs[..|xs| - 1], ys[..|ys| - 1])
    else IsSubsequence(xs, ys[..|ys| - 1])
  }

  /** `[x for x in s if keep(x)]`: exactly the elements that pass, each as
      often as it occurs in `s`, in their order in `s`. */
  function Filter<T(==,!new)>(keep: T -> bool, s: seq<T>): (r: seq<T>)
    ensures |r| <= |s|
    ensures forall k :: 0 <= k < |r| ==> keep(r[k])
    ensures forall x :: multiset(r)[x] == if keep(x) then multiset(s)[x] else 0
    ensures IsSubsequence(r, s)
    decreases |s|
  {
    if |s| == 0 then []
    else
      var last := s[|s| - 1];
      var rest := Filter(keep, s[..|s| - 1]);
      assert s == s[..|s| - 1] + [last];
      if keep(last) then
        var r := rest + [last];
        assert r[..|r| - 1] == rest;
        r
      else rest
  }

  /** The filter keeps every element that passes. */
  lemma FilterKeepsPassing<T(!new)>(keep: T -> bool, s: seq<T>, k: nat)
    requires k < |s| && keep(s[k])
    ensures s[k] in Filter(keep, s)
  {
    assert s[k] in multiset(s);
  }

  /** One more element at the end: the filter grows by it exactly when it passes. */
  lemma FilterSnoc<T(!new)>(keep: T -> bool, s: seq<T>, x: T)
    ensures Filter(keep, s + [x]) == Filter(keep, s) + (if keep(x) then [x] else [])
  {
    assert (s + [x])[..|s|] == s;
  }

  /** The filter is empty exactly when no element passes. */
  lemma {:induction false} FilterEmptyIffNonePass<T(!new)>(keep: T -> bool, s: seq<T>)
    ensures Filter(keep, s) == [] <==> forall k :: 0 <= k < |s| ==> !keep(s[k])
    decreases |s|
  {
    if exists k :: 0 <= k < |s| && keep(s[k]) {
      var k :| 0 <= k < |s| && keep(s[k]);
      FilterKeepsPassing(keep, s, k);
    } else if |s| > 0 {
      FilterEmptyIffNonePass(keep, s[..|s| - 1]);
      assert forall k :: 0 <= k < |s| - 1 ==> s[..|s| - 1][k] == s[k];
    }
  }

  /** The elements that pass and those that do not together are all of `s`. */
  lemma {:induction false} FilterSplitsLength<T(!new)>(keep: T -> bool, s: seq<T>)
    ensures |Filter(keep, s)| + |Filter(x => !keep(x), s)| == |s|
    decreases |s|
  {
    if |s| > 0 { FilterSplitsLength(keep, s[..|s| - 1]); }
  }

  /** Python's normalisation of a slice bound against a length `n`. */
  function SliceBound(i: int, n: nat): (b: nat)
    ensures b <= n
    ensures 0 <= i <= n ==> b == i
  {
    if i < 0 then (if n + i < 0 then 0 else n + i)
    else if i > n then n
    else i
  }

  /** Python's `s[start:stop]` for any integers `start` and `stop`. */
  function PySlice<T>(s: seq<T>, start: int, stop: int): seq<T> {
    var a := SliceBound(start, |s|);
    var b := SliceBound(stop, |s|);
    if a < b then s[a..b] else []
  }

  /** Every sequence is a subsequence of itself. */
  lemma {:induction false} SubsequenceOfItself<T>(s: seq<T>)
    ensures IsSubsequence(s, s)
    decreases |s|
  {
    if |s| > 0 { SubsequenceOfItself(s[..|s| - 1]); }
  }

  /** `s[start:start+width]` is a contiguous run of `s`, so it keeps the
      relative order, and it holds at most `width` elements when `width` is
      not negative. From a start within `s` it is the run from there of
      `width` elements, or up to the end when fewer are left. */
  lemma PySliceWindow<T>(s: seq<T>, start: int, width: int)
    ensures var w := PySlice(s, start, start + width);
      && (exists a, b :: 0 <= a <= b <= |s| && w == s[a..b])
      && (width >= 0 ==> |w| <= width)
      && (0 <= start <= |s| && width >= 0 ==>
            w == s[start..if start + width <= |s| then start + width else |s|])
  {
    var a := SliceBound(start, |s|);
    var b := SliceBound(start + width, |s|);
    if a < b {
      assert PySlice(s, start, start + width) == s[a..b];
    } else {
      assert PySlice(s, start, start + width) == s[a..a];
    }
  }

  /** The consecutive slices `s[i:i+size]` for `i` in `range(from, len(s), size)`. */
  function BatchesFrom<T>(s: seq<T>, size: nat, from: nat): seq<seq<T>>
    requires size > 0
    decreases |s| - from
  {
    if from >= |s| then []
    else [s[from..if from + size <= |s| then from + size else |s|]] + BatchesFrom(s, size, from + size)
  }

  function Batches<T>(s: seq<T>, size: nat): seq<seq<T>>
    requires size > 0
  {
    BatchesFrom(s, size, 0)
  }

  /** `extend`-ing an empty list with every part in turn. */
  function Flatten<T>(parts: seq<seq<T>>): seq<T>
    decreases |parts|
  {
    if |parts| == 0 then [] else parts[0] + Flatten(parts[1..])
  }

  lemma {:induction false} FlattenAppend<T>(a: seq<seq<T>>, b: seq<seq<T>>)
    ensures Flatten(a + b) == Flatten(a) + Flatten(b)
    decreases |a|
  {
    if |a| == 0 {
      assert a + b == b;
    } else {
      assert (a + b)[1..] == a[1..] + b;
      FlattenAppend(a[1..], b);
      assert Flatten(a + b) == a[0] + Flatten(a[1..] + b);
    }
  }

  /** The batches cover the input exactly, in order, without overlap. */
  lemma {:induction false} BatchesCover<T>(s: seq<T>, size: nat, from: nat)
    requires size > 0 && from <= |s|
    ensures Flatten(BatchesFrom(s, size, from)) == s[from..]
    decreases |s| - from
  {
    if from < |s| {
      var stop := if from + size <= |s| then from + size else |s|;
      if stop < |s| {
        BatchesCover(s, size, stop);
      }
      assert s[from..] == s[from..stop] + s[stop..];
    }
  }

  /** Every batch is non-empty and holds at most `size` elements; all of them
      but the last hold exactly `size`. */
  lemma {:induction false} BatchSizes<T>(s: seq<T>, size: nat, from: nat)
    requires size > 0
    ensures forall k :: 0 <= k < |BatchesFrom(s, size, from)| ==>
      0 < |BatchesFrom(s, size, from)[k]| <= size
    ensures forall k :: 0 <= k < |BatchesFrom(s, size, from)| - 1 ==>
      |BatchesFrom(s, size, from)[k]| == size
    decreases |s| - from
  {
    if from < |s| {
      BatchSizes(s, size, from + size);
    }
  }

  /** There are `ceil((len(s) - from) / size)` batches: the fewest batches
      of `size` that hold what is left. */
  lemma {:induction false} BatchCount<T>(s: seq<T>, size: nat, from: nat)
    requires size > 0 && from <= |s|
    ensures |s| - from <= |BatchesFrom(s, size, from)| * size < |s| - from + size
    decreases |s| - from
  {
    if from < |s| {
      var k := |BatchesFrom(s, size, from)|;
      if from + size <= |s| {
        BatchCount(s, size, from + size);
        assert k == |BatchesFrom(s, size, from + size)| + 1;
        assert k * size == (k - 1) * size + size;
      } else {
        assert BatchesFrom(s, size, from + size) == [];
        assert k == 1;
      }
    }
  }
}
