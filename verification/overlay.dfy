/** The label overlay of Forward-Forward training: the first `LabelSlots`
    features of every sample are cleared and the sample's label slot receives
    the batch's global maximum. */
module Overlay {
  import opened Batches

  /** Width of the reserved label region at the start of every feature vector. */
  const LabelSlots := 10

  /** A batch the overlay accepts: at least one sample, each at least
      `LabelSlots` wide. */
  predicate OverlayableBatch(x: Batch)
  {
    |x| > 0 && forall i :: 0 <= i < |x| ==> |x[i]| >= LabelSlots
  }

  /** One label per sample, each naming a label slot. */
  predicate ValidLabels(y: seq<int>, n: nat)
  {
    |y| == n && forall i :: 0 <= i < n ==> 0 <= y[i] < LabelSlots
  }

  /** One overlaid row: the label region cleared, slot `slot` set to `m`,
      the other features kept. */
  function OverlayRow(v: seq<real>, slot: int, m: real): (r: seq<real>)
    ensures |r| == |v|
  {
    seq(|v|, j requires 0 <= j < |v| =>
      if j == slot then m else if j < LabelSlots then 0.0 else v[j])
  }

  /** Every row of `x` overlaid with its own label and the common value `m`. */
  function OverlayRows(x: Batch, y: seq<int>, m: real): (r: Batch)
    requires |y| == |x|
    ensures |r| == |x| && forall i :: 0 <= i < |x| ==> |r[i]| == |x[i]|
    ensures forall i :: 0 <= i < |x| ==> r[i] == OverlayRow(x[i], y[i], m)
  {
    if x == [] then []
    else OverlayRows(x[..|x| - 1], y[..|y| - 1], m) + [OverlayRow(x[|x| - 1], y[|y| - 1], m)]
  }

  /** The value `overlay_y_on_x(x, y)` denotes: every row overlaid with the
      maximum of the whole batch. */
  function Overlaid(x: Batch, y: seq<int>): (r: Batch)
    requires OverlayableBatch(x) && |y| == |x|
    ensures |r| == |x| && forall i :: 0 <= i < |x| ==> |r[i]| == |x[i]|
  {
    OverlayRows(x, y, BatchMax(x))
  }

  /** The overlay keeps the shape, clears the label region except the label
      slot, puts the global maximum in that slot and keeps every other feature. */
  lemma OverlaidAt(x: Batch, y: seq<int>, i: nat, j: nat)
    requires OverlayableBatch(x) && ValidLabels(y, |x|)
    requires i < |x| && j < |x[i]|
    ensures |Overlaid(x, y)| == |x| && |Overlaid(x, y)[i]| == |x[i]|
    ensures j == y[i] ==> Overlaid(x, y)[i][j] == BatchMax(x)
    ensures j != y[i] && j < LabelSlots ==> Overlaid(x, y)[i][j] == 0.0
    ensures j >= LabelSlots ==> Overlaid(x, y)[i][j] == x[i][j]
    ensures Overlaid(x, y)[i][j] <= Max(BatchMax(x), 0.0)
  {
    BatchMaxIsMax(x);
  }

  /** Within the label region, a slot is non-zero exactly when it is the
      sample's label slot and the batch maximum is non-zero. */
  lemma OverlayOneHot(x: Batch, y: seq<int>, i: nat, j: nat)
    requires OverlayableBatch(x) && ValidLabels(y, |x|)
    requires i < |x| && j < LabelSlots
    ensures Overlaid(x, y)[i][j] != 0.0 <==> j == y[i] && BatchMax(x) != 0.0
  {
    OverlaidAt(x, y, i, j);
  }

  /** The maximum of an overlaid batch is `max(m, 0)`, `m` the input's maximum:
      the maximum itself sits in every label slot, and each row keeps nine
      cleared slots. */
  lemma OverlaidMax(x: Batch, y: seq<int>)
    requires OverlayableBatch(x) && ValidLabels(y, |x|)
    ensures OverlayableBatch(Overlaid(x, y))
    ensures BatchMax(Overlaid(x, y)) == Max(BatchMax(x), 0.0)
  {
    var o, m := Overlaid(x, y), BatchMax(x);
    forall p | 0 <= p < |o| ensures |o[p]| == |x[p]| {
      OverlaidAt(x, y, p, 0);
    }
    forall p, q | 0 <= p < |o| && 0 <= q < |o[p]| ensures o[p][q] <= Max(m, 0.0) {
      OverlaidAt(x, y, p, q);
    }
    if m >= 0.0 {
      OverlaidAt(x, y, 0, y[0]);
      BatchMaxUnique(o, Max(m, 0.0), 0, y[0]);
    } else {
      var j := if y[0] == 0 then 1 else 0;
      OverlaidAt(x, y, 0, j);
      BatchMaxUnique(o, Max(m, 0.0), 0, j);
    }
  }

  /** Overlaying an already overlaid batch gives the same result as overlaying
      the raw batch, exactly when the raw batch's maximum is not negative:
      the overlay is not cumulative for such batches. */
  lemma OverlayReapplied(x: Batch, y: seq<int>, y2: seq<int>)
    requires OverlayableBatch(x) && ValidLabels(y, |x|) && ValidLabels(y2, |x|)
    ensures OverlayableBatch(Overlaid(x, y))
    ensures Overlaid(Overlaid(x, y), y2) == Overlaid(x, y2) <==> BatchMax(x) >= 0.0
  {
    OverlaidMax(x, y);
    var o := Overlaid(x, y);
    var m := BatchMax(x);
    if m >= 0.0 {
      forall i | 0 <= i < |x| ensures Overlaid(o, y2)[i] == Overlaid(x, y2)[i] {
        OverlayRowTwice(x[i], y[i], y2[i], m);
      }
    } else {
      OverlaidAt(o, y2, 0, y2[0]);
      OverlaidAt(x, y2, 0, y2[0]);
      assert Overlaid(o, y2)[0][y2[0]] != Overlaid(x, y2)[0][y2[0]];
    }
  }

  /** Overlaying a row twice with the same value keeps only the second label. */
  lemma OverlayRowTwice(v: seq<real>, slot: int, slot2: int, m: real)
    requires 0 <= slot < LabelSlots
    ensures OverlayRow(OverlayRow(v, slot, m), slot2, m) == OverlayRow(v, slot2, m)
  {
    var once := OverlayRow(v, slot, m);
    assert forall j :: 0 <= j < |v| ==> OverlayRow(once, slot2, m)[j] == OverlayRow(v, slot2, m)[j];
  }

  /** `x_[:, :LabelSlots] *= 0.0` on a clone: clears the label region of
      every row and leaves the other columns alone. */
  method ClearLabelSlots(a: array2<real>)
    requires a.Length1 >= LabelSlots
    modifies a
    ensures forall p, q :: 0 <= p < a.Length0 && 0 <= q < a.Length1 ==>
      a[p, q] == (if q < LabelSlots then 0.0 else old(a[p, q]))
  {
    var i := 0;
    while i < a.Length0
      invariant 0 <= i <= a.Length0
      invariant forall p, q :: 0 <= p < a.Length0 && 0 <= q < a.Length1 ==>
        a[p, q] == (if p < i && q < LabelSlots then 0.0 else old(a[p, q]))
    {
      var j := 0;
      while j < LabelSlots
        invariant 0 <= j <= LabelSlots
        invariant forall p, q :: 0 <= p < a.Length0 && 0 <= q < a.Length1 ==>
          a[p, q] == (if (p < i || (p == i && q < j)) && q < LabelSlots then 0.0 else old(a[p, q]))
      {
        a[i, j] := a[i, j] * 0.0;
        j := j + 1;
      }
      i := i + 1;
    }
  }

  /** `x_[range(N), y] = m`: writes `m` into column `y[i]` of every row `i`. */
  method WriteLabels(a: array2<real>, y: seq<int>, m: real)
    requires a.Length1 >= LabelSlots && ValidLabels(y, a.Length0)
    modifies a
    ensures forall p, q :: 0 <= p < a.Length0 && 0 <= q < a.Length1 ==>
      a[p, q] == (if q == y[p] then m else old(a[p, q]))
  {
    var i := 0;
    while i < a.Length0
      invariant 0 <= i <= a.Length0
      invariant forall p, q :: 0 <= p < a.Length0 && 0 <= q < a.Length1 ==>
        a[p, q] == (if p < i && q == y[p] then m else old(a[p, q]))
    {
      a[i, y[i]] := m;
      i := i + 1;
    }
  }

  /** `overlay_y_on_x`: clone `x`, clear its first `LabelSlots` columns, then
      write `max(x)` into column `y[i]` of every row `i`. Taking the maximum
      of an empty batch is an error, reported as `None`. */
  method OverlayYOnX(x: array2<real>, y: seq<int>) returns (r: Option<array2<real>>)
    requires x.Length1 >= LabelSlots && ValidLabels(y, x.Length0)
    ensures r.None? <==> x.Length0 == 0
    ensures r.Some? ==> fresh(r.value)
    ensures r.Some? ==> r.value.Length0 == x.Length0 && r.value.Length1 == x.Length1
    ensures r.Some? ==> forall i, j :: 0 <= i < x.Length0 && 0 <= j < x.Length1 ==>
      r.value[i, j] == (if j == y[i] then BatchMax(Rows(x))
                        else if j < LabelSlots then 0.0 else x[i, j])
    ensures r.Some? ==> Rows(r.value) == Overlaid(Rows(x), y)
  {
    var n, d := x.Length0, x.Length1;
    if n == 0 {
      return None;
    }
    var m := BatchMax(Rows(x));
    var a := new real[n, d]((i, j) requires 0 <= i < n && 0 <= j < d reads x => x[i, j]);
    ClearLabelSlots(a);
    WriteLabels(a, y, m);
    ghost var o := Overlaid(Rows(x), y);
    assert forall p :: 0 <= p < n ==> Rows(a)[p] == o[p];
    r := Some(a);
  }
}
