/** A goodness-trained layer: a linear map over the L2-normalised input
    followed by ReLU, trained on its own for a fixed number of epochs. */
module Layers {
  import opened Batches

  /** The goodness threshold every layer trains towards. */
  const Threshold: real := 2.0

  /** Number of optimiser steps one `Train` call runs. */
  const NumEpochs: nat := 1000

  /** The trainable state of a layer: a weight matrix (`out x in`), a bias
      vector (`out`) and the optimiser's internal state, kept opaque. */
  datatype Params = Params(weight: seq<seq<real>>, bias: seq<real>, optimizer: seq<real>)

  /** The floating-point parts of the tensor library that the model does not
      compute itself:
      - `direction(v)` is `v / (||v||_2 + 1e-4)`, the normalised input row;
      - `step(p, threshold, xPos, xNeg)` is one optimiser update of `p` on the
        softplus goodness loss of the two batches at `threshold`. */
  datatype Backend = Backend(
    direction: seq<real> -> seq<real>,
    step: (Params, real, Batch, Batch) -> Params)

  /** A layer as a value: its fixed dimensions and its current parameters. */
  datatype LayerView = LayerView(inFeatures: nat, outFeatures: nat, params: Params)

  /** The positive and negative batches that travel through training together. */
  datatype Pair = Pair(pos: Batch, neg: Batch)

  function Relu(z: real): (r: real)
    ensures r >= 0.0 && r >= z
    ensures r == z || r == 0.0
  {
    if z > 0.0 then z else 0.0
  }

  /** Inner product over the common prefix of two vectors: the entries of
      the longer one past the shorter one's length play no part. */
  function Dot(w: seq<real>, v: seq<real>): (r: real)
    ensures |w| > |v| ==> r == Dot(w[..|v|], v)
    ensures |v| > |w| ==> r == Dot(w, v[..|w|])
  {
    if |w| == 0 || |v| == 0 then 0.0
    else
      var head := w[0] * v[0];
      var r := head + Dot(w[1..], v[1..]);
      if |w| > |v| then
        var w' := w[..|v|];
        assert w'[0] == w[0] && w'[1..] == w[1..][..|v| - 1];
        assert Dot(w', v) == head + Dot(w'[1..], v[1..]);
        r
      else if |v| > |w| then
        var v' := v[..|w|];
        assert v'[0] == v[0] && v'[1..] == v[1..][..|w| - 1];
        assert Dot(w, v') == head + Dot(w[1..], v'[1..]);
        r
      else r
  }

  /** Row `o` of the weight matrix (empty when there is none). */
  function WeightRow(p: Params, o: nat): (row: seq<real>)
  {
    if o < |p.weight| then p.weight[o] else []
  }

  /** Entry `o` of the bias vector (0.0 when there is none). */
  function BiasAt(p: Params, o: nat): (bias: real)
  {
    if o < |p.bias| then p.bias[o] else 0.0
  }

  /** `relu(direction(v) . W^T + b)` for one input row: one activation per
      output feature. */
  function ForwardRow(b: Backend, l: LayerView, v: seq<real>): (h: seq<real>)
    ensures |h| == l.outFeatures
  {
    var d := b.direction(v);
    seq(l.outFeatures, (o: nat) => Relu(Dot(WeightRow(l.params, o), d) + BiasAt(l.params, o)))
  }

  /** `Layer.forward` on a batch: one output row per input row. */
  function Forward(b: Backend, l: LayerView, x: Batch): (h: Batch)
    ensures |h| == |x|
  {
    seq(|x|, i requires 0 <= i < |x| => ForwardRow(b, l, x[i]))
  }

  /** An N-row input gives an N x out output, and no activation is negative:
      each is a ReLU output. */
  lemma ForwardShape(b: Backend, l: LayerView, x: Batch)
    ensures IsMatrix(Forward(b, l, x), l.outFeatures)
    ensures forall i, o :: 0 <= i < |x| && 0 <= o < l.outFeatures ==> Forward(b, l, x)[i][o] >= 0.0
  {
  }

  function SumSquares(v: seq<real>): (s: real)
    ensures s >= 0.0
  {
    if |v| == 0 then 0.0 else v[0] * v[0] + SumSquares(v[1..])
  }

  /** Goodness of one sample: the mean of its squared activations. */
  function MeanSquare(v: seq<real>): (g: real)
    ensures g >= 0.0
  {
    if |v| == 0 then 0.0 else SumSquares(v) / (|v| as real)
  }

  /** `h.pow(2).mean(1)`: the goodness of every sample of a batch. */
  function Goodness(h: Batch): (g: seq<real>)
    ensures |g| == |h|
  {
    seq(|h|, i requires 0 <= i < |h| => MeanSquare(h[i]))
  }

  /** The parameters after `n` optimiser steps on the pair `x`. */
  function Epochs(b: Backend, p: Params, n: nat, x: Pair): (q: Params)
  {
    if n == 0 then p else b.step(Epochs(b, p, n - 1, x), Threshold, x.pos, x.neg)
  }

  /** Epochs compose: `n` steps followed by `k` more are `n + k` steps from
      the start, each at the same threshold on the same pair. */
  lemma {:induction false} EpochsAdditive(b: Backend, p: Params, n: nat, k: nat, x: Pair)
    ensures Epochs(b, Epochs(b, p, n, x), k, x) == Epochs(b, p, n + k, x)
  {
    if k > 0 {
      EpochsAdditive(b, p, n, k - 1, x);
    }
  }

  /** The layer after one `Train` call on `x`: same dimensions, parameters
      advanced by `NumEpochs` steps. */
  function Trained(b: Backend, l: LayerView, x: Pair): (t: LayerView)
    ensures t.inFeatures == l.inFeatures && t.outFeatures == l.outFeatures
  {
    l.(params := Epochs(b, l.params, NumEpochs, x))
  }

  /** Both batches of a pair through the layer (the detached outputs). */
  function ForwardPair(b: Backend, l: LayerView, x: Pair): (r: Pair)
    ensures |r.pos| == |x.pos| && IsMatrix(r.pos, l.outFeatures)
    ensures |r.neg| == |x.neg| && IsMatrix(r.neg, l.outFeatures)
  {
    ForwardShape(b, l, x.pos);
    ForwardShape(b, l, x.neg);
    Pair(Forward(b, l, x.pos), Forward(b, l, x.neg))
  }

  /** Each output is the one row's forward image: no sample of a batch
      influences another sample's activations. */
  lemma ForwardRowwise(b: Backend, l: LayerView, x: Batch, x2: Batch, i: nat, i2: nat)
    requires i < |x| && i2 < |x2| && x[i] == x2[i2]
    ensures Forward(b, l, x)[i] == Forward(b, l, x2)[i2]
  {
  }

  class Layer {
    const inFeatures: nat
    const outFeatures: nat
    var params: Params

    constructor (inFeatures: nat, outFeatures: nat, init: Params)
      ensures this.inFeatures == inFeatures && this.outFeatures == outFeatures
      ensures params == init
    {
      this.inFeatures := inFeatures;
      this.outFeatures := outFeatures;
      params := init;
    }

    function View(): (v: LayerView)
      reads this
      ensures v.inFeatures == inFeatures && v.outFeatures == outFeatures && v.params == params
    {
      LayerView(inFeatures, outFeatures, params)
    }

    /** `Layer.train`: `NumEpochs` optimiser steps on the pair, then both
        batches through the trained layer. The batches must have the
        layer's input width. */
    method Train(b: Backend, xPos: Batch, xNeg: Batch) returns (hPos: Batch, hNeg: Batch)
      requires IsMatrix(xPos, inFeatures) && IsMatrix(xNeg, inFeatures)
      modifies this
      ensures View() == Trained(b, old(View()), Pair(xPos, xNeg))
      ensures Pair(hPos, hNeg) == ForwardPair(b, View(), Pair(xPos, xNeg))
    {
      var e := 0;
      while e < NumEpochs
        invariant 0 <= e <= NumEpochs
        invariant params == Epochs(b, old(params), e, Pair(xPos, xNeg))
      {
        params := b.step(params, Threshold, xPos, xNeg);
        e := e + 1;
      }
      hPos := Forward(b, View(), xPos);
      hNeg := Forward(b, View(), xNeg);
    }
  }
}
