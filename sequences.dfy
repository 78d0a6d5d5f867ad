/** Row-major flattening of nested sequences and its inverse, the split into equal rows. */
module Sequences {

  /** Concatenation of all rows, in order (numpy's row-major `ravel` of one axis). */
  function Flatten<T>(xss: seq<seq<T>>): seq<T>
  {
    if xss == [] then [] else xss[0] + Flatten(xss[1..])
  }

  /** Every row has exactly `n` elements. */
  predicate RowsOf<T>(xss: seq<seq<T>>, n: nat)
  {
    forall i :: 0 <= i < |xss| ==> |xss[i]| == n
  }

  lemma {:induction false} FlattenLength<T>(xss: seq<seq<T>>, n: nat)
    requires RowsOf(xss, n)
    ensures |Flatten(xss)| == |xss| * n
  {
    if xss != [] {
      FlattenLength(xss[1..], n);
    }
  }

  /** Cuts `xs` (of length `k * n`) into `k` consecutive rows of `n` elements each. */
  function Split<T>(xs: seq<T>, k: nat, n: nat): (rows: seq<seq<T>>)
    requires |xs| == k * n
    ensures |rows| == k && RowsOf(rows, n)
    ensures Flatten(rows) == xs
    decreases k
  {
    if k == 0 then []
    else
      assert |xs| == (k - 1) * n + n;
      [xs[..n]] + Split(xs[n..], k - 1, n)
  }

  /** Splitting a flattened sequence of equal rows gives the rows back. */
  lemma {:induction false} SplitFlatten<T>(xss: seq<seq<T>>, n: nat)
    requires RowsOf(xss, n)
    ensures |Flatten(xss)| == |xss| * n
    ensures Split(Flatten(xss), |xss|, n) == xss
  {
    FlattenLength(xss, n);
    if xss != [] {
      var tail := xss[1..];
      SplitFlatten(tail, n);
      var flat := Flatten(xss);
      assert flat == xss[0] + Flatten(tail);
      assert flat[..n] == xss[0];
      assert flat[n..] == Flatten(tail);
    }
  }

  /** A cut into rows is exactly determined by its concatenation. */
  lemma SplitUnique<T>(xs: seq<T>, k: nat, n: nat, rows: seq<seq<T>>)
    requires |rows| == k && RowsOf(rows, n) && Flatten(rows) == xs
    ensures |xs| == k * n
    ensures Split(xs, k, n) == rows
  {
    SplitFlatten(rows, n);
  }

  /** Applies `f` to every element, keeping the order. */
  function Map<A, B>(f: A -> B, xs: seq<A>): (ys: seq<B>)
    ensures |ys| == |xs| && forall i :: 0 <= i < |xs| ==> ys[i] == f(xs[i])
  {
    seq(|xs|, i requires 0 <= i < |xs| => f(xs[i]))
  }

  /** Mapping element-wise commutes with flattening, when `rowMap` maps each row by `f`. */
  lemma {:induction false} MapFlatten<A, B>(f: A -> B, rowMap: seq<A> -> seq<B>, xss: seq<seq<A>>)
    requires forall xs :: rowMap(xs) == Map(f, xs)
    ensures Map(f, Flatten(xss)) == Flatten(Map(rowMap, xss))
  {
    if xss != [] {
      MapFlatten(f, rowMap, xss[1..]);
      assert Map(rowMap, xss)[1..] == Map(rowMap, xss[1..]);
      assert Map(f, xss[0] + Flatten(xss[1..])) == Map(f, xss[0]) + Map(f, Flatten(xss[1..]));
    }
  }
}
