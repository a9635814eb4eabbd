# Forward-Forward network: a Dafny model

This project models the core of a small Forward-Forward trainer written in
Python on top of PyTorch (`main.py`). The network is a chain of layers. Each
layer is trained on its own, without backpropagation through the chain, to
give high "goodness" (the mean squared activation of a sample) to positive
data and low goodness to negative data. The label is not an output: it is
written into the input. The first ten features of every sample are cleared
and the sample's label slot receives the maximum of the whole batch
(`overlay_y_on_x`). To predict, the network overlays each of the ten
candidate labels in turn, pushes the batch through every layer, sums the
goodness of all layers per sample, and picks the label with the largest sum.

The model is split by module:

- `batches.dfy` (module `Batches`): batches as `seq<seq<real>>`, the rows of a
  2-D array, and the whole-batch maximum (`x.max()`).
- `overlay.dfy` (module `Overlay`): `overlay_y_on_x` as an imperative method
  over `array2<real>` (clone, clear the label region in place, write the
  labels in place), proved equal to the value `Overlaid`, with lemmas about
  that value.
- `layer.dfy` (module `Layers`): a `Layer` class whose `params` field
  `Train` updates in a loop of `NumEpochs` (1000) optimiser steps at
  threshold 2.0, then returns both batches pushed through the trained layer.
  `forward` is the affine map followed by ReLU. It works over an abstract
  normalised input direction.
- `net.dfy` (module `Network`): the `Net` class holding the list of layers,
  its constructor, greedy layer-wise `Train` and `Predict`. `Predict` is
  split into its loops: `AllScores` is the outer loop over labels,
  `ScoreLabel` is one pass of it, `SummedGoodness` is the inner loop over
  layers, and `Predict` ends with the per-sample argmax.

The floating-point parts of the tensor library are fields of a `Backend`
value that every operation receives. `direction` is the row normalisation
`v / (||v||_2 + 1e-4)`. `step` is one Adam update on the softplus goodness
loss. Random parameter initialisation is passed to the `Net` constructor as
two functions.

Two error paths of the source are modelled as `None`:
- `x.max()` of an empty batch raises, so `OverlayYOnX`, `ScoreLabel`,
  `AllScores` and `Predict` return `None` for a batch with no samples.
- `sum(goodness)` over no layers is the integer 0, whose `unsqueeze` raises,
  so prediction with no layers returns `None`.

## Model

| member | source | states |
|---|---|---|
| Batches.BatchMaxIsMax | main.py:93 | `BatchMax`, the model of `x.max()`, is at least every entry of the batch and equals one of them |
| Batches.BatchMaxUnique | main.py:93 | any attained upper bound of the batch is its maximum |
| Overlay.OverlayRows | main.py:91-93 | row `i` of the result is `OverlayRow` (one row's overlay) of row `i` of the input with its own label `y[i]` and the common value; the number of rows and each row's width are kept |
| Overlay.Overlaid | main.py:91-93 | the overlay of a batch keeps its number of samples and each sample's width |
| Overlay.OverlaidAt | main.py:91-93 | in the overlay (`OverlayRow` of every row with the batch maximum), the label slot holds the global maximum, the other label-region slots are 0, every feature from column 10 on is unchanged, and no entry exceeds `max(max(x), 0)` |
| Overlay.OverlayOneHot | main.py:89-93 | within the first ten columns, an entry is non-zero exactly when it is the sample's label slot and the batch maximum is non-zero |
| Overlay.OverlaidMax | main.py:92-93 | the maximum of an overlaid batch is `max(max(x), 0)` |
| Overlay.OverlayReapplied | main.py:88-94 | overlaying an already overlaid batch equals overlaying the raw batch exactly when the raw maximum is not negative |
| Overlay.OverlayRowTwice | main.py:92-93 | overlaying a row twice with the same value keeps only the second label |
| Overlay.ClearLabelSlots | main.py:92 | `x_[:, :10] *= 0.0` zeroes columns 0-9 of every row and leaves every other entry alone |
| Overlay.WriteLabels | main.py:93 | `x_[range(N), y] = m` writes `m` into column `y[i]` of row `i` and changes nothing else |
| Overlay.OverlayYOnX | main.py:88-94 | returns `None` exactly for an empty batch; otherwise a fresh array of the same shape whose label slots hold `max(x)`, other label-region entries 0 and other features copied, equal to `Overlaid`; the input array is not modified |
| Layers.Dot | main.py:145 | the product of a weight row and an input row pairs entries over their common prefix: the tail of the longer vector contributes nothing |
| Layers.Relu | main.py:144 | ReLU output is non-negative, at least its input, and is either the input or 0 |
| Layers.ForwardRow | main.py:141-146 | one activation per output feature |
| Layers.Forward | main.py:141-146 | one output row per input row |
| Layers.ForwardShape | main.py:144-146 | an N-row input gives an N x out output whose entries are all non-negative |
| Layers.ForwardRowwise | main.py:143-146 | a sample's activations depend only on that sample's row, not on the rest of the batch |
| Layers.SumSquares | main.py:118 | a sum of squares is non-negative |
| Layers.MeanSquare | main.py:118 | the goodness of one sample (mean of squared activations) is non-negative |
| Layers.Goodness | main.py:118 | `h.pow(2).mean(1)` gives one goodness value per sample |
| Layers.EpochsAdditive | main.py:149-162 | for `Epochs`, the parameters after `n` optimiser steps on a pair: `n` epochs followed by `k` more are `n + k` epochs on the same pair at the same threshold |
| Layers.Trained | main.py:148-162 | training keeps the layer's input and output widths |
| Layers.ForwardPair | main.py:163 | the returned pair keeps each batch's number of samples and has the layer's output width |
| Layers.Layer.constructor | main.py:132-139 | a new layer has the given widths and initial parameters |
| Layers.Layer.Train | main.py:148-163 | the parameters after the call are `Epochs` of the old ones: advanced by exactly `NumEpochs` optimiser steps on the pair; the returned pair is both batches through the trained layer |
| Network.InitParams | main.py:106 | layer `d` starts with an `out x in` weight matrix and an `out` bias vector |
| Network.TrainAll | main.py:123-128 | greedy training keeps the number of layers and every layer's widths |
| Network.Inputs | main.py:125-128 | the pair trace starts with `(x_pos, x_neg)` and has one entry per layer plus the final output |
| Network.TrainedInOrder | main.py:125-128 | layer `k` is trained exactly once, on the pair it receives, and layer `k + 1` receives exactly the pair the trained layer `k` returns |
| Network.InputsFit | main.py:105-106 | in a chained network fed batches of the first layer's width, every layer receives batches of its own input width |
| Network.Propagate | main.py:116-117 | pushing a batch through the layers keeps its number of samples |
| Network.GoodnessTrace | main.py:114-118 | one goodness vector per layer, each with one entry per sample |
| Network.GoodnessTraceNonNegative | main.py:118 | every collected per-layer goodness value is non-negative |
| Network.Total | main.py:119 | `sum(goodness)` has one entry per sample |
| Network.TotalNonNegative | main.py:119 | a sum of non-negative goodness vectors is non-negative |
| Network.Uniform | main.py:113 | the scalar label `c` broadcast to `n` samples: every entry is `c`, and each is a valid label slot |
| Network.CandidateOverlay | main.py:112-113 | the batch scored under candidate `c` has the batch maximum in column `c` of every sample, 0 in the other label columns, and the features from column 10 on unchanged |
| Network.LabelScore | main.py:112-119 | a label's score has one entry per sample |
| Network.Scores | main.py:111-120 | the score matrix has one row per candidate label |
| Network.ScoresOfRows | main.py:120 | a matrix whose row `c` is label `c`'s score is the concatenated score matrix |
| Network.SampleScores | main.py:120-121 | the `Column` of the concatenated score matrix that `argmax(1)` reads for sample `i`: one score per candidate label, entry `c` being label `c`'s score of sample `i` |
| Network.ScoresNonNegative | main.py:118-119 | every label's summed goodness is non-negative for every sample |
| Network.Argmax | main.py:121 | `argmax` returns an index in range whose entry is maximal, and the lowest such index |
| Network.ArgmaxUnique | main.py:121 | the first maximal index is unique, so the prediction is determined by the scores |
| Network.Net.constructor | main.py:99-106 | `Net(dims)` holds `LayerCount(dims)` fresh, distinct layers, that is `len(dims) - 1` of them (none for fewer than two dims); layer `d` maps `dims[d]` to `dims[d + 1]` with its initial parameters, so consecutive widths chain |
| Network.Net.Train | main.py:123-128 | the layers after `train` are `TrainAll` of the layers before: each trained once, in order, on the previous trained layer's returned pair; the chain stays valid |
| Network.Net.SummedGoodness | main.py:114-119 | the inner loop returns the sum over layers of each layer's goodness of the propagated batch, and every entry is non-negative |
| Network.Net.ScoreLabel | main.py:112-119 | one outer pass returns `None` exactly for an empty batch or no layers, otherwise the label's score of the array's rows |
| Network.Net.AllScores | main.py:111-120 | the outer loop returns `None` exactly for an empty batch or no layers, otherwise the full score matrix |
| Network.Net.Predict | main.py:108-121 | returns `None` exactly for an empty batch or no layers; otherwise one label per sample, each the first maximal entry of that sample's scores over the ten labels, hence in [0, 10) |

## Left out

- Dataset loaders, `visualize_sample`, the backpropagation baseline (`BPNet`
  with its training and test loops) and the `__main__` script (device
  placement, seeding, the random permutation that builds negative labels,
  printing) are not part of this model.
- Layers.Layer.Train: requires both batches to have the layer's input
  width, where the source raises in `torch.mm`; the `tqdm` progress bar
  over the epochs is not modelled.
- Network.Net.Train: requires both batches to have the first layer's input
  width, where the source raises in `torch.mm`; the `print` of each
  layer's index before it trains is not modelled.
- Floating point: tensors hold exact reals. NaN and infinity are not
  modelled, so `*= 0.0` is written as a multiplication by zero and gives 0.
- The L2 normalisation with its `1e-4` guard, the softplus loss,
  `loss.backward()` and the Adam update are the `Backend` fields `direction`
  and `step`; nothing about their numerics is proved. `zero_grad` and the
  learning rate of 0.03 live inside `step`.
- Random initialisation of `nn.Linear` is the pair of functions passed to
  the `Net` constructor.
- The per-epoch goodness, loss and gradient are computed inside `step`; the
  model keeps only the fixed count of 1000 steps at threshold 2.0.
- `detach()` has no counterpart: batches are values, so no later layer can
  reach an earlier layer's parameters.
- Overlay.OverlayYOnX: requires at least ten features and labels in
  [0, 10). Python also accepts narrower batches whose labels index existing
  columns, negative labels that count from the end, and labels in [10, D)
  on a batch of width D, which overwrite a feature column with the maximum;
  none of these is modelled. Every call in main.py passes labels in [0, 10).
- Layers.ForwardRow, Layers.Dot: pair weights and inputs over their common
  prefix. `torch.mm` raises on a width mismatch instead; on equal widths
  `Dot` is the plain inner product.
- Network.Net.Predict, Network.Net.AllScores, Network.Net.ScoreLabel,
  Network.Net.SummedGoodness: do not require the batch width to equal the
  first layer's input width, and return a result where the source raises in
  `torch.mm`; `None` covers only the empty batch and the empty network.
- Layers.MeanSquare: gives 0.0 for a zero-width output, where the source
  gives NaN.
- Network.Column: reads 0.0 for a row too short to have the requested entry;
  every row of the score matrix has one entry per sample, so this never
  applies to a prediction.
- Network.Net.Predict: the returned label is not compared to NaN scores,
  since NaN is not modelled.
- The label region width and the number of candidate labels are both the
  constant 10 written in main.py:92 and main.py:112; the model does not make
  them parameters, so a smaller label count (for instance two labels in two
  reserved columns) is not modelled.
- Layer parameters are not kept at their `out x in` shape as an invariant;
  `WeightRow` and `BiasAt` read missing entries as empty or 0.0.
