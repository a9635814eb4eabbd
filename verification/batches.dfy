/** Batches of feature vectors (the 2-D float tensors of the program), modelled
    with exact reals, and the whole-batch maximum that the overlay writes. */
module Batches {

  /** An ordered batch of rows; row `i` is the feature vector of sample `i`. */
  type Batch = seq<seq<real>>

  datatype Option<T> = None | Some(value: T)

  /** Every row of `x` has `width` entries (a rectangular N x width tensor). */
  predicate IsMatrix(x: Batch, width: nat)
  {
    forall i :: 0 <= i < |x| ==> |x[i]| == width
  }

  /** The rows of a 2-D array, as a value. */
  function Rows(a: array2<real>): (r: Batch)
    reads a
    ensures |r| == a.Length0 && IsMatrix(r, a.Length1)
    ensures forall i, j :: 0 <= i < a.Length0 && 0 <= j < a.Length1 ==> r[i][j] == a[i, j]
  {
    seq(a.Length0, i requires 0 <= i < a.Length0 reads a =>
      seq(a.Length1, j requires 0 <= j < a.Length1 reads a => a[i, j]))
  }

  function Max(a: real, b: real): (r: real)
    ensures r >= a && r >= b && (r == a || r == b)
  {
    if a < b then b else a
  }

  /** The largest of the first `n` entries of a row. */
  function RowMax(v: seq<real>, n: nat): (r: real)
    requires 0 < n <= |v|
  {
    if n == 1 then v[0] else Max(RowMax(v, n - 1), v[n - 1])
  }

  /** `RowMax` bounds the first `n` entries and is one of them. */
  lemma {:induction false} RowMaxIsMax(v: seq<real>, n: nat)
    requires 0 < n <= |v|
    ensures forall j :: 0 <= j < n ==> v[j] <= RowMax(v, n)
    ensures exists j :: 0 <= j < n && v[j] == RowMax(v, n)
  {
    if n > 1 {
      RowMaxIsMax(v, n - 1);
      if RowMax(v, n - 1) < v[n - 1] {
        assert v[n - 1] == RowMax(v, n);
      } else {
        var j :| 0 <= j < n - 1 && v[j] == RowMax(v, n - 1);
        assert v[j] == RowMax(v, n);
      }
    } else {
      assert v[0] == RowMax(v, n);
    }
  }

  /** The largest entry of the first `n` rows. */
  function PrefixMax(x: Batch, n: nat): (r: real)
    requires 0 < n <= |x| && forall i :: 0 <= i < |x| ==> |x[i]| > 0
  {
    if n == 1 then RowMax(x[0], |x[0]|) else Max(PrefixMax(x, n - 1), RowMax(x[n - 1], |x[n - 1]|))
  }

  /** `x.max()`: the single largest entry of the whole batch (not per row). */
  function BatchMax(x: Batch): (m: real)
    requires |x| > 0 && forall i :: 0 <= i < |x| ==> |x[i]| > 0
  {
    PrefixMax(x, |x|)
  }

  /** `PrefixMax` bounds every entry of the first `n` rows and is one of them. */
  lemma {:induction false} PrefixMaxIsMax(x: Batch, n: nat)
    requires 0 < n <= |x| && forall i :: 0 <= i < |x| ==> |x[i]| > 0
    ensures forall i, j :: 0 <= i < n && 0 <= j < |x[i]| ==> x[i][j] <= PrefixMax(x, n)
    ensures exists i, j :: 0 <= i < n && 0 <= j < |x[i]| && x[i][j] == PrefixMax(x, n)
  {
    var last := RowMax(x[n - 1], |x[n - 1]|);
    RowMaxIsMax(x[n - 1], |x[n - 1]|);
    var j :| 0 <= j < |x[n - 1]| && x[n - 1][j] == last;
    if n > 1 {
      PrefixMaxIsMax(x, n - 1);
      if PrefixMax(x, n - 1) < last {
        assert x[n - 1][j] == PrefixMax(x, n);
      } else {
        var i', j' :| 0 <= i' < n - 1 && 0 <= j' < |x[i']| && x[i'][j'] == PrefixMax(x, n - 1);
        assert x[i'][j'] == PrefixMax(x, n);
      }
    } else {
      assert x[0][j] == PrefixMax(x, n);
    }
  }

  /** `BatchMax` bounds every entry of the batch and is one of them. */
  lemma BatchMaxIsMax(x: Batch)
    requires |x| > 0 && forall i :: 0 <= i < |x| ==> |x[i]| > 0
    ensures forall i, j :: 0 <= i < |x| && 0 <= j < |x[i]| ==> x[i][j] <= BatchMax(x)
    ensures exists i, j :: 0 <= i < |x| && 0 <= j < |x[i]| && x[i][j] == BatchMax(x)
  {
    PrefixMaxIsMax(x, |x|);
  }

  /** An attained upper bound of the batch is its maximum. */
  lemma BatchMaxUnique(x: Batch, u: real, i: nat, j: nat)
    requires |x| > 0 && forall k :: 0 <= k < |x| ==> |x[k]| > 0
    requires forall p, q :: 0 <= p < |x| && 0 <= q < |x[p]| ==> x[p][q] <= u
    requires i < |x| && j < |x[i]| && x[i][j] == u
    ensures BatchMax(x) == u
  {
    BatchMaxIsMax(x);
  }
}
