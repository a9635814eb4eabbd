/** The Forward-Forward network: a chain of goodness-trained layers, trained
    greedily one layer at a time and queried by scoring every candidate label. */
module Network {
  import opened Batches
  import opened Overlay
  import opened Layers

  /** Number of candidate labels `predict` scores. */
  const NumClasses := 10

  /** Consecutive layers fit: each layer's output width is the next one's
      input width. */
  predicate Chained(ls: seq<LayerView>)
  {
    forall d :: 0 <= d < |ls| - 1 ==> ls[d].outFeatures == ls[d + 1].inFeatures
  }

  /** The layer dimensions `Net(dims)` builds: `|dims| - 1` layers (none for
      fewer than two dims), layer `d` mapping `dims[d]` to `dims[d + 1]`. */
  function LayerCount(dims: seq<nat>): (n: nat)
  {
    if |dims| == 0 then 0 else |dims| - 1
  }

  /** Layer `d`'s initial parameters: an `out x in` weight matrix and an
      `out` bias vector drawn from the (seeded) initialiser, and a fresh
      optimiser. */
  function InitParams(d: nat, inF: nat, outF: nat,
                      initWeight: (nat, nat, nat) -> real, initBias: (nat, nat) -> real): (p: Params)
    ensures |p.weight| == outF && |p.bias| == outF
    ensures forall o :: 0 <= o < outF ==> |p.weight[o]| == inF
  {
    Params(seq(outF, (o: nat) => seq(inF, (j: nat) => initWeight(d, o, j))),
           seq(outF, (o: nat) => initBias(d, o)),
           [])
  }

  // ---------------------------------------------------------------------
  // Greedy layer-wise training

  /** The layers after `Net.train`: layer 0 trains on `x`, every later layer
      on the forward outputs of the already trained layer before it. */
  function TrainAll(b: Backend, ls: seq<LayerView>, x: Pair): (r: seq<LayerView>)
    ensures |r| == |ls|
    ensures forall k :: 0 <= k < |ls| ==>
      r[k].inFeatures == ls[k].inFeatures && r[k].outFeatures == ls[k].outFeatures
  {
    if ls == [] then []
    else
      var t := Trained(b, ls[0], x);
      [t] + TrainAll(b, ls[1..], ForwardPair(b, t, x))
  }

  /** `Inputs(b, ls, x)[k]` is the pair layer `k` receives during `Net.train`;
      the last entry is the pair the last layer returns. */
  function Inputs(b: Backend, ls: seq<LayerView>, x: Pair): (r: seq<Pair>)
    ensures |r| == |ls| + 1 && r[0] == x
  {
    if ls == [] then [x]
    else
      var t := Trained(b, ls[0], x);
      [x] + Inputs(b, ls[1..], ForwardPair(b, t, x))
  }

  /** Greedy order: layer `k` is trained exactly once, on the pair it
      receives, and layer `k + 1` receives exactly the pair that the trained
      layer `k` returns. */
  lemma {:induction false} TrainedInOrder(b: Backend, ls: seq<LayerView>, x: Pair, k: nat)
    requires k < |ls|
    ensures TrainAll(b, ls, x)[k] == Trained(b, ls[k], Inputs(b, ls, x)[k])
    ensures Inputs(b, ls, x)[k + 1] == ForwardPair(b, TrainAll(b, ls, x)[k], Inputs(b, ls, x)[k])
  {
    if k > 0 {
      var t := Trained(b, ls[0], x);
      TrainedInOrder(b, ls[1..], ForwardPair(b, t, x), k - 1);
    }
  }

  /** In a chained network fed batches of the first layer's input width,
      every layer receives batches of its own input width, and the returned
      pair has the last layer's output width. */
  lemma {:induction false} InputsFit(b: Backend, ls: seq<LayerView>, x: Pair, k: nat)
    requires Chained(ls) && |ls| > 0
    requires IsMatrix(x.pos, ls[0].inFeatures) && IsMatrix(x.neg, ls[0].inFeatures)
    requires k <= |ls|
    ensures k < |ls| ==>
      IsMatrix(Inputs(b, ls, x)[k].pos, ls[k].inFeatures) &&
      IsMatrix(Inputs(b, ls, x)[k].neg, ls[k].inFeatures)
    ensures k == |ls| ==>
      IsMatrix(Inputs(b, ls, x)[k].pos, ls[k - 1].outFeatures) &&
      IsMatrix(Inputs(b, ls, x)[k].neg, ls[k - 1].outFeatures)
  {
    if k > 0 {
      TrainedInOrder(b, ls, x, k - 1);
    }
  }

  // ---------------------------------------------------------------------
  // Prediction

  /** A batch pushed through the layers `ls`, in order. */
  function Propagate(b: Backend, ls: seq<LayerView>, h: Batch): (r: Batch)
    ensures |r| == |h|
  {
    if ls == [] then h else Forward(b, ls[|ls| - 1], Propagate(b, ls[..|ls| - 1], h))
  }

  /** The per-layer goodness vectors `predict` collects while pushing `h`
      through `ls`: entry `k` is the goodness of layer `k`'s output. */
  function GoodnessTrace(b: Backend, ls: seq<LayerView>, h: Batch): (gs: seq<seq<real>>)
    ensures |gs| == |ls|
    ensures forall k :: 0 <= k < |gs| ==> |gs[k]| == |h|
  {
    if ls == [] then []
    else GoodnessTrace(b, ls[..|ls| - 1], h) + [Goodness(Propagate(b, ls, h))]
  }

  /** Every collected goodness value is non-negative. */
  lemma {:induction false} GoodnessTraceNonNegative(b: Backend, ls: seq<LayerView>, h: Batch)
    ensures forall k, i :: 0 <= k < |ls| && 0 <= i < |h| ==> GoodnessTrace(b, ls, h)[k][i] >= 0.0
  {
    if ls != [] {
      GoodnessTraceNonNegative(b, ls[..|ls| - 1], h);
    }
  }

  /** `sum(goodness)`: the element-wise sum of `n`-entry vectors; sums of
      non-negative vectors are non-negative. */
  function Total(gs: seq<seq<real>>, n: nat): (s: seq<real>)
    requires forall k :: 0 <= k < |gs| ==> |gs[k]| == n
    ensures |s| == n
  {
    if gs == [] then seq(n, _ => 0.0)
    else
      var prefix := Total(gs[..|gs| - 1], n);
      var last := gs[|gs| - 1];
      seq(n, i requires 0 <= i < n => prefix[i] + last[i])
  }

  /** A sum of non-negative vectors is non-negative. */
  lemma {:induction false} TotalNonNegative(gs: seq<seq<real>>, n: nat)
    requires forall k :: 0 <= k < |gs| ==> |gs[k]| == n
    requires forall k, i :: 0 <= k < |gs| && 0 <= i < n ==> gs[k][i] >= 0.0
    ensures forall i :: 0 <= i < n ==> Total(gs, n)[i] >= 0.0
  {
    if gs != [] {
      TotalNonNegative(gs[..|gs| - 1], n);
    }
  }

  /** The scalar label `c` broadcast to `n` samples. */
  function Uniform(n: nat, c: nat): (y: seq<int>)
    requires c < LabelSlots
    ensures ValidLabels(y, n)
    ensures forall i :: 0 <= i < n ==> y[i] == c
  {
    if n == 0 then [] else Uniform(n - 1, c) + [c]
  }

  /** The batch `predict` scores under candidate `c`: column `c` of every
      sample holds the batch maximum, the other label columns are cleared and
      the features are kept. */
  lemma CandidateOverlay(x: Batch, c: nat, i: nat, j: nat)
    requires OverlayableBatch(x) && c < NumClasses
    requires i < |x| && j < |x[i]|
    ensures Overlaid(x, Uniform(|x|, c))[i][j] ==
      (if j == c then BatchMax(x) else if j < LabelSlots then 0.0 else x[i][j])
  {
    OverlaidAt(x, Uniform(|x|, c), i, j);
  }

  /** The summed goodness, per sample, of the raw batch `x` overlaid with
      the constant label `c` and pushed through all the layers. */
  function LabelScore(b: Backend, ls: seq<LayerView>, x: Batch, c: nat): (s: seq<real>)
    requires OverlayableBatch(x) && c < NumClasses
    ensures |s| == |x|
  {
    var h := Overlaid(x, Uniform(|x|, c));
    Total(GoodnessTrace(b, ls, h), |x|)
  }

  /** The `NumClasses x N` score matrix `predict` concatenates: row `c` is
      the summed goodness of every sample under label `c`. */
  function Scores(b: Backend, ls: seq<LayerView>, x: Batch): (s: seq<seq<real>>)
    requires OverlayableBatch(x)
    ensures |s| == NumClasses
  {
    seq(NumClasses, c requires 0 <= c < NumClasses => LabelScore(b, ls, x, c))
  }

  /** A matrix whose row `c` is label `c`'s score is the score matrix. */
  lemma ScoresOfRows(b: Backend, ls: seq<LayerView>, x: Batch, m: seq<seq<real>>)
    requires OverlayableBatch(x) && |m| == NumClasses
    requires forall c :: 0 <= c < NumClasses ==> m[c] == LabelScore(b, ls, x, c)
    ensures m == Scores(b, ls, x)
  {
  }

  /** Appending label `|m|`'s score to the scores of labels `0 .. |m| - 1`
      gives the scores of labels `0 .. |m|`. */
  lemma ScoresExtend(b: Backend, ls: seq<LayerView>, x: Batch, m: seq<seq<real>>, s: seq<real>)
    requires OverlayableBatch(x) && |m| < NumClasses
    requires forall c :: 0 <= c < |m| ==> m[c] == LabelScore(b, ls, x, c)
    requires s == LabelScore(b, ls, x, |m|)
    ensures forall c :: 0 <= c <= |m| ==> (m + [s])[c] == LabelScore(b, ls, x, c)
  {
  }

  /** Entry `i` of every row of `m` (0.0 for a row too short to have one). */
  function Column(m: seq<seq<real>>, i: nat): (col: seq<real>)
    ensures |col| == |m|
  {
    seq(|m|, k requires 0 <= k < |m| => if i < |m[k]| then m[k][i] else 0.0)
  }

  /** The scores of all candidate labels for sample `i`. */
  function SampleScores(b: Backend, ls: seq<LayerView>, x: Batch, i: nat): (row: seq<real>)
    requires OverlayableBatch(x) && i < |x|
    ensures |row| == NumClasses
    ensures forall c :: 0 <= c < NumClasses ==> row[c] == LabelScore(b, ls, x, c)[i]
  {
    Column(Scores(b, ls, x), i)
  }

  /** Every label score is non-negative: each term is a mean of squared
      ReLU outputs. */
  lemma ScoresNonNegative(b: Backend, ls: seq<LayerView>, x: Batch, i: nat, c: nat)
    requires OverlayableBatch(x) && i < |x| && c < NumClasses
    ensures LabelScore(b, ls, x, c)[i] >= 0.0
  {
    var h := Overlaid(x, Uniform(|x|, c));
    assert LabelScore(b, ls, x, c) == Total(GoodnessTrace(b, ls, h), |x|);
    GoodnessTraceNonNegative(b, ls, h);
    TotalNonNegative(GoodnessTrace(b, ls, h), |x|);
  }

  /** `c` is what `argmax` picks from `row`: a maximal entry, and the first one. */
  predicate IsArgmax(row: seq<real>, c: nat)
  {
    c < |row| &&
    (forall j :: 0 <= j < |row| ==> row[j] <= row[c]) &&
    (forall j :: 0 <= j < c ==> row[j] < row[c])
  }

  /** `argmax` of a non-empty vector, first index on ties. */
  function Argmax(row: seq<real>): (c: nat)
    requires |row| > 0
    ensures IsArgmax(row, c)
  {
    if |row| == 1 then 0
    else
      var front := row[..|row| - 1];
      var k := Argmax(front);
      assert forall j :: 0 <= j < |row| - 1 ==> front[j] == row[j];
      if row[|row| - 1] > row[k] then |row| - 1 else k
  }

  /** `argmax` is determined by the row: two first-maximal indices agree. */
  lemma ArgmaxUnique(row: seq<real>, c: nat, c2: nat)
    requires IsArgmax(row, c) && IsArgmax(row, c2)
    ensures c == c2
  {
    assert row[c] == row[c2];
  }

  class Net {
    var layers: seq<Layer>

    /** Distinct layers, consecutive widths matching. */
    ghost predicate Valid()
      reads this
    {
      (forall i, j :: 0 <= i < j < |layers| ==> layers[i] != layers[j]) &&
      (forall d :: 0 <= d < |layers| - 1 ==> layers[d].outFeatures == layers[d + 1].inFeatures)
    }

    /** The layers as values. */
    function View(): (v: seq<LayerView>)
      reads this, layers
      ensures |v| == |layers|
      ensures forall k :: 0 <= k < |layers| ==> v[k] == layers[k].View()
    {
      seq(|layers|, k requires 0 <= k < |layers| reads this, layers => layers[k].View())
    }

    /** `Net(dims)`: one layer per consecutive pair of `dims`, in order. */
    constructor (dims: seq<nat>, initWeight: (nat, nat, nat) -> real, initBias: (nat, nat) -> real)
      ensures Valid()
      ensures |layers| == LayerCount(dims)
      ensures forall d :: 0 <= d < |layers| ==>
        fresh(layers[d]) &&
        layers[d].inFeatures == dims[d] && layers[d].outFeatures == dims[d + 1] &&
        layers[d].params == InitParams(d, dims[d], dims[d + 1], initWeight, initBias)
    {
      var ls: seq<Layer> := [];
      var d := 0;
      while d + 1 < |dims|
        invariant |ls| == d && d <= LayerCount(dims)
        invariant forall i, j :: 0 <= i < j < |ls| ==> ls[i] != ls[j]
        invariant forall k :: 0 <= k < |ls| ==>
          fresh(ls[k]) &&
          ls[k].inFeatures == dims[k] && ls[k].outFeatures == dims[k + 1] &&
          ls[k].params == InitParams(k, dims[k], dims[k + 1], initWeight, initBias)
      {
        var l := new Layer(dims[d], dims[d + 1], InitParams(d, dims[d], dims[d + 1], initWeight, initBias));
        ls := ls + [l];
        d := d + 1;
      }
      layers := ls;
    }

    /** `Net.train`: trains the layers one after another, each on the pair
        the previous trained layer returned. */
    method Train(b: Backend, xPos: Batch, xNeg: Batch)
      requires Valid()
      requires |layers| > 0 ==> IsMatrix(xPos, layers[0].inFeatures) && IsMatrix(xNeg, layers[0].inFeatures)
      modifies layers
      ensures Valid()
      ensures View() == TrainAll(b, old(View()), Pair(xPos, xNeg))
    {
      ghost var v0 := View();
      ghost var x := Pair(xPos, xNeg);
      ghost var inputs, trained := Inputs(b, v0, x), TrainAll(b, v0, x);
      var hPos, hNeg := xPos, xNeg;
      var i := 0;
      while i < |layers|
        invariant 0 <= i <= |layers|
        invariant Pair(hPos, hNeg) == inputs[i]
        invariant forall k :: 0 <= k < i ==> layers[k].params == trained[k].params
        invariant forall k :: i <= k < |layers| ==> layers[k].params == v0[k].params
      {
        InputsFit(b, v0, x, i);
        TrainedInOrder(b, v0, x, i);
        var layer := layers[i];
        assert forall k :: 0 <= k < |layers| && k != i ==> layers[k] != layer;
        hPos, hNeg := layer.Train(b, hPos, hNeg);
        assert layer.params == trained[i].params;
        assert Pair(hPos, hNeg) == inputs[i + 1];
        i := i + 1;
      }
      assert forall k :: 0 <= k < |layers| ==> View()[k] == trained[k];
    }

    /** The inner loop of `Net.predict`: pushes `h` through every layer in
        order, collecting each layer's goodness, and returns their sum per
        sample. */
    method SummedGoodness(b: Backend, h: Batch) returns (total: seq<real>)
      ensures total == Total(GoodnessTrace(b, View(), h), |h|)
      ensures forall i :: 0 <= i < |h| ==> total[i] >= 0.0
    {
      ghost var v := View();
      var x := h;
      var goodness: seq<seq<real>> := [];
      var k := 0;
      while k < |layers|
        invariant 0 <= k <= |layers|
        invariant x == Propagate(b, v[..k], h)
        invariant goodness == GoodnessTrace(b, v[..k], h)
      {
        assert v[..k + 1][..k] == v[..k];
        x := Forward(b, layers[k].View(), x);
        goodness := goodness + [Goodness(x)];
        k := k + 1;
      }
      assert v[..|layers|] == v;
      GoodnessTraceNonNegative(b, v, h);
      TotalNonNegative(goodness, |h|);
      total := Total(goodness, |h|);
    }

    /** One pass of `Net.predict`'s outer loop: overlay the constant label
        `c` on `x` and return the summed goodness of every sample; `None`
        where the source fails (empty batch, no layers). */
    method ScoreLabel(b: Backend, x: array2<real>, c: nat) returns (r: Option<seq<real>>)
      requires x.Length1 >= LabelSlots && c < NumClasses
      ensures r.None? <==> x.Length0 == 0 || |layers| == 0
      ensures r.Some? ==> r.value == LabelScore(b, View(), Rows(x), c)
    {
      ghost var v, rows := View(), Rows(x);
      var n := x.Length0;
      var y := Uniform(n, c);
      var o := OverlayYOnX(x, y);
      assert View() == v && Rows(x) == rows;
      if o.None? || |layers| == 0 {
        r := None;
      } else {
        var h := Rows(o.value);
        var total := SummedGoodness(b, h);
        assert View() == v && Rows(x) == rows;
        assert total == Total(GoodnessTrace(b, v, Overlaid(rows, y)), n);
        r := Some(total);
      }
    }

    /** The outer loop of `Net.predict`: the score row of every candidate
        label, in label order; `None` where the source fails. */
    method AllScores(b: Backend, x: array2<real>) returns (r: Option<seq<seq<real>>>)
      requires x.Length1 >= LabelSlots
      ensures r.None? <==> x.Length0 == 0 || |layers| == 0
      ensures r.Some? ==> x.Length0 > 0 && r.value == Scores(b, View(), Rows(x))
    {
      if x.Length0 == 0 || |layers| == 0 {
        // the first pass already fails
        return None;
      }
      ghost var v, rows := View(), Rows(x);
      var perLabel: seq<seq<real>> := [];
      var candidate := 0;
      while candidate < NumClasses
        invariant 0 <= candidate <= NumClasses
        invariant View() == v && Rows(x) == rows
        invariant |perLabel| == candidate
        invariant forall c :: 0 <= c < candidate ==> perLabel[c] == LabelScore(b, v, rows, c)
      {
        var score := ScoreLabel(b, x, candidate);
        assert View() == v && Rows(x) == rows;
        ScoresExtend(b, v, rows, perLabel, score.value);
        perLabel := perLabel + [score.value];
        candidate := candidate + 1;
      }
      ScoresOfRows(b, v, rows, perLabel);
      return Some(perLabel);
    }

    /** `Net.predict`: for every candidate label, overlay it on `x`, push the
        batch through all the layers summing their goodness, and pick per
        sample the label of largest summed goodness (the first on ties).
        The maximum of an empty batch, and the sum of no goodness terms when
        there are no layers, are errors, reported as `None`. */
    method Predict(b: Backend, x: array2<real>) returns (r: Option<seq<nat>>)
      requires x.Length1 >= LabelSlots
      ensures r.None? <==> x.Length0 == 0 || |layers| == 0
      ensures r.Some? ==> |r.value| == x.Length0
      ensures r.Some? ==> forall i :: 0 <= i < x.Length0 ==>
        IsArgmax(SampleScores(b, View(), Rows(x), i), r.value[i])
    {
      var scores := AllScores(b, x);
      if scores.None? {
        return None;
      }
      var perLabel := scores.value;
      var n := x.Length0;
      r := Some(seq(n, i requires 0 <= i < n => Argmax(Column(perLabel, i))));
    }
  }
}
