/**
 * Sequence operations that stand for the pandas idioms the callbacks use:
 * a boolean-mask selection (`df[mask]`), `.iloc[0]` on a selection,
 * `Series.unique()` and Python's `range`.
 */
module Seqs {
  import opened Outcomes

  /** The elements of `s` for which `p` holds, in their order in `s`. */
  function Filter<T(!new)>(s: seq<T>, p: T -> bool): (r: seq<T>)
    ensures |r| <= |s|
    ensures forall x :: x in r <==> x in s && p(x)
  {
    if s == [] then []
    else (if p(s[0]) then [s[0]] else []) + Filter(s[1..], p)
  }

  /** Selection keeps every matching element as often as it occurs, and no other. */
  lemma {:induction false} FilterCount<T(!new)>(s: seq<T>, p: T -> bool, x: T)
    ensures multiset(Filter(s, p))[x] == if p(x) then multiset(s)[x] else 0
  {
    if s != [] {
      FilterCount(s[1..], p, x);
      assert s == [s[0]] + s[1..];
    }
  }

  /** Selection distributes over concatenation, so it keeps the order of the table. */
  lemma {:induction false} FilterConcat<T(!new)>(a: seq<T>, b: seq<T>, p: T -> bool)
    ensures Filter(a + b, p) == Filter(a, p) + Filter(b, p)
  {
    if a == [] {
      assert a + b == b;
    } else {
      assert (a + b)[1..] == a[1..] + b;
      FilterConcat(a[1..], b, p);
    }
  }

  /** Selecting with `p` and then with `q` is selecting once with their conjunction. */
  lemma {:induction false} FilterFilter<T(!new)>(s: seq<T>, p: T -> bool, q: T -> bool, pq: T -> bool)
    requires forall x :: pq(x) == (p(x) && q(x))
    ensures Filter(Filter(s, p), q) == Filter(s, pq)
  {
    if s != [] {
      FilterFilter(s[1..], p, q, pq);
      if p(s[0]) {
        assert Filter(s, p) == [s[0]] + Filter(s[1..], p);
        assert Filter(s, p)[1..] == Filter(s[1..], p);
      } else {
        assert Filter(s, p) == Filter(s[1..], p);
      }
    }
  }

  /** The first element of `s` satisfying `p`, as `.iloc[0]` on a selection (None when the selection is empty). */
  function First<T(!new)>(s: seq<T>, p: T -> bool): (r: Option<T>)
    ensures r.None? <==> forall x :: x in s ==> !p(x)
    ensures r.Some? ==> r.value in s && p(r.value)
  {
    var f := Filter(s, p);
    if f == [] then None else assert f[0] in f; Some(f[0])
  }

  /** `First` is the element at the lowest matching index. */
  lemma {:induction false} FirstIsEarliest<T(!new)>(s: seq<T>, p: T -> bool, i: nat)
    requires i < |s| && p(s[i])
    requires forall j :: 0 <= j < i ==> !p(s[j])
    ensures First(s, p) == Some(s[i])
  {
    if i > 0 {
      FirstIsEarliest(s[1..], p, i - 1);
      assert Filter(s, p) == Filter(s[1..], p);
    }
  }

  /** No element occurs twice. */
  ghost predicate NoDuplicates<T>(s: seq<T>) {
    forall i, j :: 0 <= i < j < |s| ==> s[i] != s[j]
  }

  /**
   * The distinct elements of `s` in the order of their first occurrence,
   * as `Series.unique()` returns them.
   */
  function Unique<T(!new,==)>(s: seq<T>): (r: seq<T>)
    ensures forall x :: x in r <==> x in s
    ensures NoDuplicates(r)
    ensures |r| <= |s|
  {
    if s == [] then []
    else
      var init := s[..|s| - 1];
      var last := s[|s| - 1];
      assert s == init + [last];
      if last in init then Unique(init) else Unique(init) + [last]
  }

  /** The index where `x` first occurs in `s`. */
  ghost function FirstIndex<T>(s: seq<T>, x: T): (i: nat)
    requires x in s
    ensures i < |s| && s[i] == x
    ensures forall j :: 0 <= j < i ==> s[j] != x
  {
    if s[0] == x then 0 else 1 + FirstIndex(s[1..], x)
  }

  lemma {:induction false} FirstIndexInPrefix<T>(s: seq<T>, n: nat, x: T)
    requires n <= |s| && x in s[..n]
    ensures x in s && FirstIndex(s, x) == FirstIndex(s[..n], x)
  {
    assert s[..n][0] == s[0];
    if s[0] != x {
      assert s[..n][1..] == s[1..][..n - 1];
      FirstIndexInPrefix(s[1..], n - 1, x);
    }
  }

  /** `Unique` lists the distinct elements in order of first occurrence. */
  lemma {:induction false} UniqueFirstOccurrenceOrder<T(!new)>(s: seq<T>)
    ensures forall i, j :: 0 <= i < j < |Unique(s)| ==>
      FirstIndex(s, Unique(s)[i]) < FirstIndex(s, Unique(s)[j])
  {
    if s != [] {
      var init := s[..|s| - 1];
      var last := s[|s| - 1];
      assert s == init + [last];
      var u := Unique(init);
      UniqueFirstOccurrenceOrder(init);
      forall x | x in u ensures x in s && FirstIndex(s, x) == FirstIndex(init, x) {
        FirstIndexInPrefix(s, |s| - 1, x);
      }
      if last !in init {
        assert FirstIndex(s, last) == |s| - 1;
        assert Unique(s) == u + [last];
        forall i, j | 0 <= i < j < |Unique(s)|
          ensures FirstIndex(s, Unique(s)[i]) < FirstIndex(s, Unique(s)[j])
        {
          assert Unique(s)[i] == u[i];
          if j < |u| {
            assert Unique(s)[j] == u[j];
          }
        }
      }
    }
  }

  /** A subsequence of the distinct elements keeps any order the input was in. */
  lemma {:induction false} UniqueKeepsOrder<T(!new)>(s: seq<T>, leq: (T, T) -> bool)
    requires forall i, j :: 0 <= i < j < |s| ==> leq(s[i], s[j])
    ensures forall i, j :: 0 <= i < j < |Unique(s)| ==> leq(Unique(s)[i], Unique(s)[j])
  {
    if s != [] {
      var init := s[..|s| - 1];
      var last := s[|s| - 1];
      assert s == init + [last];
      UniqueKeepsOrder(init, leq);
      var u := Unique(init);
      if last !in init {
        forall i, j | 0 <= i < j < |Unique(s)|
          ensures leq(Unique(s)[i], Unique(s)[j])
        {
          assert Unique(s)[i] == u[i];
          if j < |u| {
            assert Unique(s)[j] == u[j];
          } else {
            assert u[i] in u;
            var k :| 0 <= k < |init| && init[k] == u[i];
            assert s[k] == u[i];
          }
        }
      }
    }
  }

  /** Python's `range(start, stop, step)` for a positive step. */
  function Range(start: int, stop: int, step: int): (r: seq<int>)
    requires step > 0
    decreases stop - start
  {
    if start >= stop then [] else [start] + Range(start + step, stop, step)
  }

  /** The k-th value of a range is `start + k * step`, and every value is below `stop`. */
  lemma {:induction false} RangeAt(start: int, stop: int, step: int, k: nat)
    requires step > 0 && k < |Range(start, stop, step)|
    ensures Range(start, stop, step)[k] == start + k * step < stop
    decreases stop - start
  {
    if k > 0 {
      RangeAt(start + step, stop, step, k - 1);
      assert (k - 1) * step + step == k * step;
    }
  }

  /** A range has n values when `stop` lies in the n-th step after `start`, that is `ceil((stop - start) / step)` values. */
  lemma {:induction false} RangeLength(start: int, stop: int, step: int, n: nat)
    requires step > 0
    requires start + (n - 1) * step < stop <= start + n * step
    ensures |Range(start, stop, step)| == n
    decreases n
  {
    if n > 0 {
      RangeLength(start + step, stop, step, n - 1);
      assert start + step + (n - 2) * step == start + (n - 1) * step;
      assert start + step + (n - 1) * step == start + n * step;
    }
  }
}
