/** The value-level mathematics of the network (wsnn/neural_network.py): the forward fold through
    the layers, the per-sample and mean squared-error costs, first-argmax classification, the
    forward-difference gradient estimate with step `H`, and the descent step over all layers. */
module NetworkMath {
  import opened Data
  import opened LayerMath

  predicate AllWellShaped(ps: seq<LayerParams>)
  {
    forall k | 0 <= k < |ps| :: WellShaped(ps[k])
  }

  /** Each layer's output width is the next layer's input width. */
  predicate Chained(ps: seq<LayerParams>)
  {
    forall k | 0 <= k < |ps| - 1 :: ps[k].nOut == ps[k + 1].nIn
  }

  /** An input of width `n` passes through every layer without reading past the end of the
      vector a layer receives. */
  predicate Feeds(ps: seq<LayerParams>, n: nat)
    decreases |ps|
  {
    ps == [] || (Accepts(ps[0], n) && Feeds(ps[1..], ps[0].nOut))
  }

  /** The width of the network's output for an input of width `n`. */
  function OutWidth(ps: seq<LayerParams>, n: nat): nat
  {
    if ps == [] then n else ps[|ps| - 1].nOut
  }

  /** The network's output: the input folded through the layers, first to last. */
  function Forward(ps: seq<LayerParams>, x: seq<real>, act: real -> real): (y: seq<real>)
    requires AllWellShaped(ps) && Feeds(ps, |x|)
    ensures ps == [] ==> y == x
    ensures |y| == OutWidth(ps, |x|)
    decreases |ps|
  {
    if ps == [] then x else Forward(ps[1..], LayerOutputs(ps[0], x, act), act)
  }

  /** A chained network accepts any input at least as wide as its first layer. */
  lemma {:induction false} ChainedFeeds(ps: seq<LayerParams>, n: nat)
    requires AllWellShaped(ps) && Chained(ps)
    requires ps != [] ==> ps[0].nIn <= n
    ensures Feeds(ps, n)
    decreases |ps|
  {
    if ps != [] {
      if |ps| > 1 {
        assert ps[1..][0] == ps[1];
      }
      ChainedFeeds(ps[1..], ps[0].nOut);
    }
  }

  // ----- cost -----

  /** The squared errors of the first `n` outputs, accumulated in index order. */
  function CostPrefix(out: seq<real>, expected: seq<real>, n: nat): (c: real)
    requires n <= |out| <= |expected|
    ensures c >= 0.0
  {
    if n == 0 then 0.0 else CostPrefix(out, expected, n - 1) + NodeCost(out[n - 1], expected[n - 1])
  }

  /** The cost of one output vector: one squared error per output, expected entries past the
      output's length being ignored. */
  function SampleCost(out: seq<real>, expected: seq<real>): (c: real)
    requires |out| <= |expected|
    ensures c >= 0.0
  {
    CostPrefix(out, expected, |out|)
  }

  /** The running sum reads the expected vector only below the output's width. */
  lemma {:induction false} CostPrefixIgnoresExtra(out: seq<real>, e: seq<real>, e': seq<real>, n: nat)
    requires n <= |out| <= |e| && |out| <= |e'| && e[..|out|] == e'[..|out|]
    ensures CostPrefix(out, e, n) == CostPrefix(out, e', n)
  {
    if n > 0 {
      assert e[n - 1] == e[..|out|][n - 1] == e'[n - 1];
      CostPrefixIgnoresExtra(out, e, e', n - 1);
    }
  }

  /** Expected entries past the output's width do not change the cost. */
  lemma SampleCostIgnoresExtra(out: seq<real>, expected: seq<real>)
    requires |out| <= |expected|
    ensures SampleCost(out, expected) == SampleCost(out, expected[..|out|])
  {
    CostPrefixIgnoresExtra(out, expected, expected[..|out|], |out|);
  }

  /** Outputs that match the expected values exactly cost nothing. */
  lemma {:induction false} ExactOutputsCostNothing(out: seq<real>, expected: seq<real>, n: nat)
    requires n <= |out| <= |expected| && out == expected[..|out|]
    ensures CostPrefix(out, expected, n) == 0.0
  {
    if n > 0 {
      assert out[n - 1] == expected[n - 1];
      ExactOutputsCostNothing(out, expected, n - 1);
    }
  }

  /** A sample the network can run on: its inputs pass through every layer, and it has an
      expected value for every output. */
  predicate Fits(ps: seq<LayerParams>, dp: DataPoint)
  {
    AllWellShaped(ps) && Feeds(ps, |dp.inputs|) && OutWidth(ps, |dp.inputs|) <= |dp.expectedOutputs|
  }

  predicate DataFits(ps: seq<LayerParams>, data: seq<DataPoint>)
  {
    forall k | 0 <= k < |data| :: Fits(ps, data[k])
  }

  /** The cost of one sample. */
  function Cost(ps: seq<LayerParams>, dp: DataPoint, act: real -> real): (c: real)
    requires Fits(ps, dp)
    ensures c >= 0.0
  {
    SampleCost(Forward(ps, dp.inputs, act), dp.expectedOutputs)
  }

  /** The costs of the first `n` samples, added in order. */
  function TotalCost(ps: seq<LayerParams>, data: seq<DataPoint>, act: real -> real, n: nat): (t: real)
    requires DataFits(ps, data) && n <= |data|
    ensures t >= 0.0
  {
    if n == 0 then 0.0 else TotalCost(ps, data, act, n - 1) + Cost(ps, data[n - 1], act)
  }

  /** The mean cost over a non-empty dataset. */
  function MeanCost(ps: seq<LayerParams>, data: seq<DataPoint>, act: real -> real): (m: real)
    requires DataFits(ps, data) && data != []
    ensures m >= 0.0
  {
    TotalCost(ps, data, act, |data|) / (|data| as real)
  }

  // ----- networks of the same shape -----

  /** Same number of layers, each of the same shape. */
  predicate SameShapes(ps: seq<LayerParams>, qs: seq<LayerParams>)
  {
    && |ps| == |qs|
    && forall k | 0 <= k < |ps| :: ps[k].nIn == qs[k].nIn && ps[k].nOut == qs[k].nOut
  }

  lemma {:induction false} SameShapesFeed(ps: seq<LayerParams>, qs: seq<LayerParams>, n: nat)
    requires SameShapes(ps, qs) && Feeds(ps, n)
    ensures Feeds(qs, n) && OutWidth(qs, n) == OutWidth(ps, n)
    decreases |ps|
  {
    if ps != [] {
      SameShapesFeed(ps[1..], qs[1..], ps[0].nOut);
    }
  }

  /** Changing parameter values without changing shapes keeps every sample runnable. */
  lemma SameShapesFit(ps: seq<LayerParams>, qs: seq<LayerParams>, data: seq<DataPoint>)
    requires AllWellShaped(qs) && SameShapes(ps, qs) && DataFits(ps, data)
    ensures DataFits(qs, data)
  {
    forall k | 0 <= k < |data|
      ensures Fits(qs, data[k])
    {
      SameShapesFeed(ps, qs, |data[k].inputs|);
    }
  }

  // ----- finite-difference gradients -----

  /** The step by which each parameter is nudged. */
  const H: real := 0.0001

  /** The forward difference of the mean cost: how much the nudged cost exceeds the baseline,
      divided by the step. */
  function Slope(nudged: real, base: real): (g: real)
    ensures base + g * H == nudged
  {
    (nudged - base) / H
  }

  /** The network with weight `(i, j)` of layer `l` increased by `d`. */
  function NudgeLayerWeight(ps: seq<LayerParams>, l: nat, i: nat, j: nat, d: real): (qs: seq<LayerParams>)
    requires AllWellShaped(ps) && l < |ps| && i < ps[l].nIn && j < ps[l].nOut
    ensures AllWellShaped(qs) && SameShapes(ps, qs)
    ensures qs[l] == NudgeWeight(ps[l], i, j, d)
    ensures forall k | 0 <= k < |ps| && k != l :: qs[k] == ps[k]
  {
    ps[l := NudgeWeight(ps[l], i, j, d)]
  }

  /** The network with bias `j` of layer `l` increased by `d`. */
  function NudgeLayerBias(ps: seq<LayerParams>, l: nat, j: nat, d: real): (qs: seq<LayerParams>)
    requires AllWellShaped(ps) && l < |ps| && j < ps[l].nOut
    ensures AllWellShaped(qs) && SameShapes(ps, qs)
    ensures qs[l] == NudgeBias(ps[l], j, d)
    ensures forall k | 0 <= k < |ps| && k != l :: qs[k] == ps[k]
  {
    ps[l := NudgeBias(ps[l], j, d)]
  }

  /** Nudging a weight by `d` and then by `-d` gives the network back. */
  lemma NudgeLayerWeightUndone(ps: seq<LayerParams>, l: nat, i: nat, j: nat, d: real)
    requires AllWellShaped(ps) && l < |ps| && i < ps[l].nIn && j < ps[l].nOut
    ensures NudgeLayerWeight(NudgeLayerWeight(ps, l, i, j, d), l, i, j, -d) == ps
  {
    NudgeWeightUndone(ps[l], i, j, d);
    assert NudgeLayerWeight(NudgeLayerWeight(ps, l, i, j, d), l, i, j, -d)[l] == ps[l];
  }

  /** Nudging a bias by `d` and then by `-d` gives the network back. */
  lemma NudgeLayerBiasUndone(ps: seq<LayerParams>, l: nat, j: nat, d: real)
    requires AllWellShaped(ps) && l < |ps| && j < ps[l].nOut
    ensures NudgeLayerBias(NudgeLayerBias(ps, l, j, d), l, j, -d) == ps
  {
    NudgeBiasUndone(ps[l], j, d);
    assert NudgeLayerBias(NudgeLayerBias(ps, l, j, d), l, j, -d)[l] == ps[l];
  }

  /** The estimated derivative of the mean cost in weight `(i, j)` of layer `l`. */
  function WeightGradient(ps: seq<LayerParams>, data: seq<DataPoint>, act: real -> real, l: nat, i: nat, j: nat)
    : (g: real)
    requires AllWellShaped(ps) && DataFits(ps, data) && data != []
    requires l < |ps| && i < ps[l].nIn && j < ps[l].nOut
    ensures var qs := NudgeLayerWeight(ps, l, i, j, H);
      && DataFits(qs, data)
      && (g > 0.0 <==> MeanCost(qs, data, act) > MeanCost(ps, data, act))
      && (g == 0.0 <==> MeanCost(qs, data, act) == MeanCost(ps, data, act))
  {
    var qs := NudgeLayerWeight(ps, l, i, j, H);
    SameShapesFit(ps, qs, data);
    Slope(MeanCost(qs, data, act), MeanCost(ps, data, act))
  }

  /** The estimated derivative of the mean cost in bias `j` of layer `l`. */
  function BiasGradient(ps: seq<LayerParams>, data: seq<DataPoint>, act: real -> real, l: nat, j: nat): (g: real)
    requires AllWellShaped(ps) && DataFits(ps, data) && data != []
    requires l < |ps| && j < ps[l].nOut
    ensures var qs := NudgeLayerBias(ps, l, j, H);
      && DataFits(qs, data)
      && (g > 0.0 <==> MeanCost(qs, data, act) > MeanCost(ps, data, act))
      && (g == 0.0 <==> MeanCost(qs, data, act) == MeanCost(ps, data, act))
  {
    var qs := NudgeLayerBias(ps, l, j, H);
    SameShapesFit(ps, qs, data);
    Slope(MeanCost(qs, data, act), MeanCost(ps, data, act))
  }

  /** The gradient buffers of layer `l` once the estimation has visited all its parameters. */
  function LayerGradients(ps: seq<LayerParams>, data: seq<DataPoint>, act: real -> real, l: nat): (g: LayerGrads)
    requires AllWellShaped(ps) && DataFits(ps, data) && data != [] && l < |ps|
    ensures GradsShaped(ps[l].nIn, ps[l].nOut, g)
    ensures forall i, j | 0 <= i < ps[l].nIn && 0 <= j < ps[l].nOut ::
      g.gw[i][j] == WeightGradient(ps, data, act, l, i, j)
    ensures forall j | 0 <= j < ps[l].nOut :: g.gb[j] == BiasGradient(ps, data, act, l, j)
  {
    LayerGrads(
      seq(ps[l].nIn, i requires 0 <= i < ps[l].nIn =>
        seq(ps[l].nOut, j requires 0 <= j < ps[l].nOut => WeightGradient(ps, data, act, l, i, j))),
      seq(ps[l].nOut, j requires 0 <= j < ps[l].nOut => BiasGradient(ps, data, act, l, j)))
  }

  /** Increasing a weight by `H` moves the mean cost by exactly `H` times its estimated gradient. */
  lemma WeightGradientRecovers(ps: seq<LayerParams>, data: seq<DataPoint>, act: real -> real, l: nat, i: nat, j: nat)
    requires AllWellShaped(ps) && DataFits(ps, data) && data != []
    requires l < |ps| && i < ps[l].nIn && j < ps[l].nOut
    ensures var qs := NudgeLayerWeight(ps, l, i, j, H);
      DataFits(qs, data) &&
      MeanCost(ps, data, act) + WeightGradient(ps, data, act, l, i, j) * H == MeanCost(qs, data, act)
  {
    SameShapesFit(ps, NudgeLayerWeight(ps, l, i, j, H), data);
  }

  /** Increasing a bias by `H` moves the mean cost by exactly `H` times its estimated gradient. */
  lemma BiasGradientRecovers(ps: seq<LayerParams>, data: seq<DataPoint>, act: real -> real, l: nat, j: nat)
    requires AllWellShaped(ps) && DataFits(ps, data) && data != []
    requires l < |ps| && j < ps[l].nOut
    ensures var qs := NudgeLayerBias(ps, l, j, H);
      DataFits(qs, data) &&
      MeanCost(ps, data, act) + BiasGradient(ps, data, act, l, j) * H == MeanCost(qs, data, act)
  {
    SameShapesFit(ps, NudgeLayerBias(ps, l, j, H), data);
  }

  // ----- descent over all layers -----

  predicate AllGradsShaped(ps: seq<LayerParams>, gs: seq<LayerGrads>)
  {
    |gs| == |ps| && forall k | 0 <= k < |ps| :: GradsShaped(ps[k].nIn, ps[k].nOut, gs[k])
  }

  /** Every layer takes one gradient step with its own gradients. */
  function DescendAll(ps: seq<LayerParams>, gs: seq<LayerGrads>, lr: real): (qs: seq<LayerParams>)
    requires AllWellShaped(ps) && AllGradsShaped(ps, gs)
    ensures AllWellShaped(qs) && SameShapes(ps, qs)
    ensures forall k | 0 <= k < |ps| :: qs[k] == Descend(ps[k], gs[k], lr)
  {
    seq(|ps|, k requires 0 <= k < |ps| => Descend(ps[k], gs[k], lr))
  }

  /** With a zero learning rate no parameter of any layer moves. */
  lemma DescendAllZeroRate(ps: seq<LayerParams>, gs: seq<LayerGrads>)
    requires AllWellShaped(ps) && AllGradsShaped(ps, gs)
    ensures DescendAll(ps, gs, 0.0) == ps
  {
    forall k | 0 <= k < |ps|
      ensures DescendAll(ps, gs, 0.0)[k] == ps[k]
    {
      DescendZeroRate(ps[k], gs[k]);
    }
  }

  /** The gradients of every layer, as the training step estimates them. */
  function EstimatedGradients(ps: seq<LayerParams>, data: seq<DataPoint>, act: real -> real): (gs: seq<LayerGrads>)
    requires AllWellShaped(ps) && DataFits(ps, data) && data != []
    ensures AllGradsShaped(ps, gs)
    ensures forall l | 0 <= l < |ps| :: gs[l] == LayerGradients(ps, data, act, l)
  {
    seq(|ps|, l requires 0 <= l < |ps| => LayerGradients(ps, data, act, l))
  }

  // ----- classification -----

  /** `k` is the first position of the largest value of `s`. */
  predicate IsFirstMax(s: seq<real>, k: int)
  {
    && 0 <= k < |s|
    && (forall m | 0 <= m < |s| :: s[m] <= s[k])
    && (forall m | 0 <= m < k :: s[m] < s[k])
  }

  /** The first position of the largest value, scanning left to right and moving only on a
      strictly larger value. */
  function FirstMaxPosition(s: seq<real>): (k: nat)
    requires s != []
    ensures IsFirstMax(s, k)
  {
    if |s| == 1 then 0
    else
      var k := FirstMaxPosition(s[..|s| - 1]);
      if s[|s| - 1] > s[k] then |s| - 1 else k
  }

  /** The first position of the maximum is determined by the values alone. */
  lemma FirstMaxUnique(s: seq<real>, k: int, k': int)
    requires IsFirstMax(s, k) && IsFirstMax(s, k')
    ensures k == k'
  {
    assert s[k] == s[k'];
  }

  // ----- the network the constructor builds -----

  /** Consecutive sizes paired into zero-filled layers: `sizes[k]` inputs, `sizes[k + 1]` outputs. */
  function ZeroNetwork(sizes: seq<nat>): (ps: seq<LayerParams>)
    ensures |ps| == if |sizes| < 2 then 0 else |sizes| - 1
    ensures forall k {:trigger ps[k]} | 0 <= k < |ps| :: ps[k] == ZeroLayer(sizes[k], sizes[k + 1])
  {
    if |sizes| < 2 then []
    else seq(|sizes| - 1, k requires 0 <= k < |sizes| - 1 => ZeroLayer(sizes[k], sizes[k + 1]))
  }

  /** The layers of that network fit together, so it accepts any input at least as wide as its
      first size. */
  lemma ZeroNetworkFeeds(sizes: seq<nat>, n: nat)
    requires |sizes| >= 2 ==> sizes[0] <= n
    ensures AllWellShaped(ZeroNetwork(sizes)) && Chained(ZeroNetwork(sizes))
    ensures Feeds(ZeroNetwork(sizes), n)
  {
    ChainedFeeds(ZeroNetwork(sizes), n);
  }

  /** The gradient buffers of that network, all zero. */
  function ZeroNetworkGrads(sizes: seq<nat>): (gs: seq<LayerGrads>)
    ensures |gs| == |ZeroNetwork(sizes)|
    ensures forall k {:trigger gs[k]} | 0 <= k < |gs| :: gs[k] == ZeroGrads(sizes[k], sizes[k + 1])
  {
    if |sizes| < 2 then []
    else seq(|sizes| - 1, k requires 0 <= k < |sizes| - 1 => ZeroGrads(sizes[k], sizes[k + 1]))
  }

  /** A freshly built network of at least one layer outputs `act(0)` on every node of its last
      layer, whatever its input. */
  lemma {:induction false} ZeroNetworkOutputs(ps: seq<LayerParams>, x: seq<real>, act: real -> real)
    requires ps != [] && AllWellShaped(ps) && Feeds(ps, |x|)
    requires forall k | 0 <= k < |ps| :: ps[k] == ZeroLayer(ps[k].nIn, ps[k].nOut)
    ensures Forward(ps, x, act) == seq(ps[|ps| - 1].nOut, _ => act(0.0))
    decreases |ps|
  {
    ZeroLayerOutputs(ps[0].nIn, ps[0].nOut, x, act);
    if |ps| > 1 {
      ZeroNetworkOutputs(ps[1..], LayerOutputs(ps[0], x, act), act);
    }
  }
}
