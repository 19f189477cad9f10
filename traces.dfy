/** Sequences built by nested loops, and the projections used to state which
    calls a loop makes and in what order. */
module Traces {

  /** `f(0) + f(1) + ... + f(n - 1)`: what a loop over range(n) appends. */
  function FlatMap<T>(n: nat, f: nat -> seq<T>): seq<T>
    decreases n
  {
    if n == 0 then [] else FlatMap(n - 1, f) + f(n - 1)
  }

  /** The elements of s that satisfy keep, in their original order. */
  function Filter<T>(s: seq<T>, keep: T -> bool): (r: seq<T>)
    ensures |r| <= |s|
    decreases |s|
  {
    if s == [] then []
    else Filter(s[..|s| - 1], keep) + (if keep(s[|s| - 1]) then [s[|s| - 1]] else [])
  }

  /** Position of element `col` of row `row` when rows of `width` are laid end to end. */
  function Cell(row: nat, col: nat, width: nat): nat { row * width + col }

  lemma {:induction false} FilterAppend<T>(a: seq<T>, b: seq<T>, keep: T -> bool)
    ensures Filter(a + b, keep) == Filter(a, keep) + Filter(b, keep)
    decreases |b|
  {
    if b == [] {
      assert a + b == a;
    } else {
      assert (a + b)[..|a + b| - 1] == a + b[..|b| - 1];
      FilterAppend(a, b[..|b| - 1], keep);
    }
  }

  /** Filtering distributes over the pieces a loop appends. */
  lemma {:induction false} FilterFlatMap<T>(n: nat, f: nat -> seq<T>, keep: T -> bool)
    ensures Filter(FlatMap(n, f), keep) == FlatMap(n, j => Filter(f(j), keep))
  {
    if n > 0 {
      FilterFlatMap(n - 1, f, keep);
      FilterAppend(FlatMap(n - 1, f), f(n - 1), keep);
    }
  }

  /** A sequence none of whose elements is kept filters to nothing. */
  lemma {:induction false} FilterNone<T>(s: seq<T>, keep: T -> bool)
    requires forall i :: 0 <= i < |s| ==> !keep(s[i])
    ensures Filter(s, keep) == []
    decreases |s|
  {
    if s != [] {
      var init := s[..|s| - 1];
      assert forall i :: 0 <= i < |init| ==> init[i] == s[i];
      FilterNone(init, keep);
    }
  }

  /** A sequence all of whose elements are kept filters to itself. */
  lemma {:induction false} FilterAll<T>(s: seq<T>, keep: T -> bool)
    requires forall i :: 0 <= i < |s| ==> keep(s[i])
    ensures Filter(s, keep) == s
    decreases |s|
  {
    if s != [] {
      var init := s[..|s| - 1];
      assert forall i :: 0 <= i < |init| ==> init[i] == s[i];
      FilterAll(init, keep);
      assert s == init + [s[|s| - 1]];
    }
  }

  lemma {:induction false} FlatMapExt<T>(n: nat, f: nat -> seq<T>, g: nat -> seq<T>)
    requires forall j: nat :: j < n ==> f(j) == g(j)
    ensures FlatMap(n, f) == FlatMap(n, g)
  {
    if n > 0 {
      FlatMapExt(n - 1, f, g);
    }
  }

  /** Rows of pieces that are all empty add nothing. */
  lemma {:induction false} FlatMapEmpty<T>(n: nat, f: nat -> seq<T>)
    requires forall j: nat :: j < n ==> f(j) == []
    ensures FlatMap(n, f) == []
  {
    if n > 0 {
      FlatMapEmpty(n - 1, f);
    }
  }

  /** Pieces of equal width: the result is laid out row by row. */
  lemma {:induction false} FlatMapRows<T>(n: nat, f: nat -> seq<T>, width: nat)
    requires forall j: nat :: j < n ==> |f(j)| == width
    ensures |FlatMap(n, f)| == n * width
    ensures forall row: nat, col: nat :: row < n && col < width ==>
              Cell(row, col, width) < n * width && FlatMap(n, f)[Cell(row, col, width)] == f(row)[col]
  {
    if n > 0 {
      FlatMapRows(n - 1, f, width);
      assert (n - 1) * width + width == n * width;
      forall row: nat, col: nat | row < n && col < width
        ensures Cell(row, col, width) < n * width && FlatMap(n, f)[Cell(row, col, width)] == f(row)[col]
      {
        if row < n - 1 {
          assert row * width + col < (n - 1) * width by { RowBound(row, col, n - 1, width); }
        } else {
          assert Cell(row, col, width) == (n - 1) * width + col;
        }
      }
    }
  }

  lemma RowBound(row: nat, col: nat, n: nat, width: nat)
    requires row < n && col < width
    ensures row * width + col < n * width
  {
    assert (row + 1) * width <= n * width by {
      assert n * width == (row + 1) * width + (n - row - 1) * width;
    }
  }

  /** Every element of a loop's result comes from one of its iterations. */
  lemma {:induction false} FlatMapMember<T>(n: nat, f: nat -> seq<T>, x: T)
    requires x in FlatMap(n, f)
    ensures exists j: nat :: j < n && x in f(j)
  {
    if x !in f(n - 1) {
      FlatMapMember(n - 1, f, x);
    }
  }
}
