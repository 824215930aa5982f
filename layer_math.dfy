/** The value-level mathematics of one dense layer (wsnn/layer.py): the squared-error node
    cost, the affine map followed by the activation, the shape checks of the weight and bias
    setters, and the gradient-descent update. The activation is a parameter `act`: the source's
    logistic function is floating-point code and is not modelled. */
module LayerMath {
  import opened Wrappers

  /** The parameters of a layer as values: `w[i][j]` weighs input node `i` into output node `j`. */
  datatype LayerParams = LayerParams(nIn: nat, nOut: nat, w: seq<seq<real>>, b: seq<real>)

  /** The two gradient buffers as values, shaped like the weights and the biases. */
  datatype LayerGrads = LayerGrads(gw: seq<seq<real>>, gb: seq<real>)

  /** `nIn` rows of `nOut` weights and `nOut` biases. */
  predicate WellShaped(p: LayerParams)
  {
    && |p.w| == p.nIn
    && (forall i | 0 <= i < |p.w| :: |p.w[i]| == p.nOut)
    && |p.b| == p.nOut
  }

  /** `nIn` rows of `nOut` weight gradients and `nOut` bias gradients. */
  predicate GradsShaped(nIn: nat, nOut: nat, g: LayerGrads)
  {
    && |g.gw| == nIn
    && (forall i | 0 <= i < |g.gw| :: |g.gw[i]| == nOut)
    && |g.gb| == nOut
  }

  /** Two well-shaped layers of the same shape are equal when every weight and every bias agrees. */
  lemma ParamsEqual(p: LayerParams, q: LayerParams)
    requires WellShaped(p) && WellShaped(q) && p.nIn == q.nIn && p.nOut == q.nOut
    requires forall i, j | 0 <= i < p.nIn && 0 <= j < p.nOut :: p.w[i][j] == q.w[i][j]
    requires forall j | 0 <= j < p.nOut :: p.b[j] == q.b[j]
    ensures p == q
  {
    forall i | 0 <= i < p.nIn
      ensures p.w[i] == q.w[i]
    {
    }
  }

  /** Two gradient values of the same shape are equal when every entry agrees. */
  lemma GradsEqual(nIn: nat, nOut: nat, g: LayerGrads, h: LayerGrads)
    requires GradsShaped(nIn, nOut, g) && GradsShaped(nIn, nOut, h)
    requires forall i, j | 0 <= i < nIn && 0 <= j < nOut :: g.gw[i][j] == h.gw[i][j]
    requires forall j | 0 <= j < nOut :: g.gb[j] == h.gb[j]
    ensures g == h
  {
    forall i | 0 <= i < nIn
      ensures g.gw[i] == h.gw[i]
    {
    }
  }

  /** The all-zero layer the constructor builds when no weights or biases are given. */
  function ZeroLayer(nIn: nat, nOut: nat): (p: LayerParams)
    ensures WellShaped(p) && p.nIn == nIn && p.nOut == nOut
    ensures forall i, j | 0 <= i < nIn && 0 <= j < nOut :: p.w[i][j] == 0.0
    ensures forall j | 0 <= j < nOut :: p.b[j] == 0.0
  {
    LayerParams(nIn, nOut, seq(nIn, _ => seq(nOut, _ => 0.0)), seq(nOut, _ => 0.0))
  }

  function ZeroGrads(nIn: nat, nOut: nat): (g: LayerGrads)
    ensures GradsShaped(nIn, nOut, g)
    ensures forall i, j | 0 <= i < nIn && 0 <= j < nOut :: g.gw[i][j] == 0.0
    ensures forall j | 0 <= j < nOut :: g.gb[j] == 0.0
  {
    LayerGrads(seq(nIn, _ => seq(nOut, _ => 0.0)), seq(nOut, _ => 0.0))
  }

  /** Squared error between one output activation and its expected value. */
  function NodeCost(activation: real, expected: real): (c: real)
    ensures c >= 0.0
    ensures activation == expected ==> c == 0.0
  {
    var error := activation - expected;
    error * error
  }

  // ----- shape checks of the setters and the constructor -----

  /** The three ValueErrors of the setters. */
  datatype ShapeError =
    | WeightSetCount   // number of weight rows differs from num_nodes_in
    | WeightCount      // some weight row's length differs from num_nodes_out
    | BiasCount        // number of biases differs from num_nodes_out

  /** The weights setter's check: the row count first, then the row lengths. */
  function WeightsError(nIn: nat, nOut: nat, v: seq<seq<real>>): (e: Option<ShapeError>)
    ensures e == None <==> |v| == nIn && forall i | 0 <= i < |v| :: |v[i]| == nOut
    ensures |v| != nIn ==> e == Some(WeightSetCount)
    ensures e != Some(BiasCount)
  {
    if |v| != nIn then Some(WeightSetCount)
    else if exists i | 0 <= i < |v| :: |v[i]| != nOut then Some(WeightCount)
    else None
  }

  /** The biases setter's check. */
  function BiasesError(nOut: nat, v: seq<real>): (e: Option<ShapeError>)
    ensures e == None <==> |v| == nOut
    ensures e != None ==> e == Some(BiasCount)
  {
    if |v| != nOut then Some(BiasCount) else None
  }

  function ErrorList(e: Option<ShapeError>): (s: seq<ShapeError>)
    ensures |s| <= 1 && (s == [] <==> e == None)
    ensures e != None ==> s == [e.value]
  {
    match e
    case None => []
    case Some(x) => [x]
  }

  /** A missing (None) or empty argument is "not given": the constructor then zero-fills. */
  predicate Given<T>(arg: Option<seq<T>>)
  {
    arg != None && arg.value != []
  }

  /** The errors the constructor collects, weights first: each given argument goes through its
      setter and a rejection is appended instead of stopping. The constructor thus fails exactly
      when a setter rejected its argument, with at most one weights error followed by at most one
      biases error. */
  function ConstructorErrors(nIn: nat, nOut: nat, weights: Option<seq<seq<real>>>, biases: Option<seq<real>>)
    : (errs: seq<ShapeError>)
    ensures |errs| ==
      (if Given(weights) && WeightsError(nIn, nOut, weights.value) != None then 1 else 0)
      + (if Given(biases) && BiasesError(nOut, biases.value) != None then 1 else 0)
    ensures Given(weights) && WeightsError(nIn, nOut, weights.value) != None ==>
      errs[0] == WeightsError(nIn, nOut, weights.value).value
    ensures errs == [] <==>
      && (Given(weights) ==> WeightsError(nIn, nOut, weights.value) == None)
      && (Given(biases) ==> BiasesError(nOut, biases.value) == None)
    ensures forall k | 0 <= k < |errs| ::
      errs[k] == BiasCount <==> k == |errs| - 1 && Given(biases) && |biases.value| != nOut
    ensures Given(weights) && |weights.value| != nIn ==> errs[0] == WeightSetCount
    ensures !Given(weights) && !Given(biases) ==> errs == []
  {
    (if Given(weights) then ErrorList(WeightsError(nIn, nOut, weights.value)) else [])
    + (if Given(biases) then ErrorList(BiasesError(nOut, biases.value)) else [])
  }

  // ----- forward computation -----

  /** The left-fold `b[j] + inputs[0] * w[0][j] + ... + inputs[k-1] * w[k-1][j]`, in the order the
      source accumulates it. */
  function WeightedInput(p: LayerParams, inputs: seq<real>, j: nat, k: nat): (z: real)
    requires WellShaped(p) && j < p.nOut && k <= p.nIn && k <= |inputs|
    ensures (forall i | 0 <= i < k :: p.w[i][j] == 0.0) ==> z == p.b[j]
  {
    if k == 0 then p.b[j] else WeightedInput(p, inputs, j, k - 1) + inputs[k - 1] * p.w[k - 1][j]
  }

  /** The accumulation reads only the inputs it has reached. */
  lemma {:induction false} WeightedInputIgnoresExtra(p: LayerParams, inputs: seq<real>, j: nat, k: nat)
    requires WellShaped(p) && j < p.nOut && k <= p.nIn && k <= |inputs|
    ensures WeightedInput(p, inputs, j, k) == WeightedInput(p, inputs[..k], j, k)
    decreases k
  {
    if k > 0 {
      WeightedInputIgnoresExtra(p, inputs, j, k - 1);
      WeightedInputIgnoresExtra(p, inputs[..k], j, k - 1);
      assert inputs[..k][..k - 1] == inputs[..k - 1];
    }
  }

  /** The source indexes the first `nIn` inputs once per output node, so an input shorter than
      `nIn` is an error unless the layer has no output nodes. */
  predicate Accepts(p: LayerParams, inputLength: nat)
  {
    p.nOut == 0 || p.nIn <= inputLength
  }

  /** The layer's output: one activation per output node. */
  function LayerOutputs(p: LayerParams, inputs: seq<real>, act: real -> real): (r: seq<real>)
    requires WellShaped(p) && Accepts(p, |inputs|)
    ensures |r| == p.nOut
  {
    seq(p.nOut, j requires 0 <= j < p.nOut => act(WeightedInput(p, inputs, j, p.nIn)))
  }

  /** Inputs past the layer's `nIn` do not change its output. */
  lemma LayerOutputsIgnoresExtra(p: LayerParams, inputs: seq<real>, act: real -> real)
    requires WellShaped(p) && p.nIn <= |inputs|
    ensures LayerOutputs(p, inputs, act) == LayerOutputs(p, inputs[..p.nIn], act)
  {
    forall j | 0 <= j < p.nOut
      ensures LayerOutputs(p, inputs, act)[j] == LayerOutputs(p, inputs[..p.nIn], act)[j]
    {
      WeightedInputIgnoresExtra(p, inputs, j, p.nIn);
      assert inputs[..p.nIn][..p.nIn] == inputs[..p.nIn];
    }
  }

  /** A layer with zero weights and zero biases outputs `act(0)` on every node, whatever its input. */
  lemma ZeroLayerOutputs(nIn: nat, nOut: nat, inputs: seq<real>, act: real -> real)
    requires Accepts(ZeroLayer(nIn, nOut), |inputs|)
    ensures LayerOutputs(ZeroLayer(nIn, nOut), inputs, act) == seq(nOut, _ => act(0.0))
  {
    var p := ZeroLayer(nIn, nOut);
    forall j | 0 <= j < nOut
      ensures LayerOutputs(p, inputs, act)[j] == act(0.0)
    {
      assert WeightedInput(p, inputs, j, nIn) == p.b[j] == 0.0;
    }
  }

  // ----- parameter updates -----

  /** A parameter after one gradient step: it loses `lr` times its gradient. */
  function Step(x: real, grad: real, lr: real): real
  {
    x - grad * lr
  }

  /** One gradient-descent step: every weight and bias loses `lr` times its gradient. */
  function Descend(p: LayerParams, g: LayerGrads, lr: real): (q: LayerParams)
    requires WellShaped(p) && GradsShaped(p.nIn, p.nOut, g)
    ensures WellShaped(q) && q.nIn == p.nIn && q.nOut == p.nOut
    ensures forall i, j | 0 <= i < p.nIn && 0 <= j < p.nOut :: q.w[i][j] == Step(p.w[i][j], g.gw[i][j], lr)
    ensures forall j | 0 <= j < p.nOut :: q.b[j] == Step(p.b[j], g.gb[j], lr)
  {
    LayerParams(p.nIn, p.nOut,
      seq(p.nIn, i requires 0 <= i < p.nIn =>
        seq(p.nOut, j requires 0 <= j < p.nOut => Step(p.w[i][j], g.gw[i][j], lr))),
      seq(p.nOut, j requires 0 <= j < p.nOut => Step(p.b[j], g.gb[j], lr)))
  }

  /** With a zero learning rate the step leaves every parameter as it was. */
  lemma DescendZeroRate(p: LayerParams, g: LayerGrads)
    requires WellShaped(p) && GradsShaped(p.nIn, p.nOut, g)
    ensures Descend(p, g, 0.0) == p
  {
    var q := Descend(p, g, 0.0);
    forall i | 0 <= i < p.nIn
      ensures q.w[i] == p.w[i]
    {
    }
  }

  /** The weights `initalize_random_weights` writes: the draw made for output node `j` and input
      node `i` (drawn with `j` in the outer loop) divided by `root`, the square root of `nIn`. */
  function ScaledDraws(nIn: nat, nOut: nat, draws: seq<seq<real>>, root: real): (w: seq<seq<real>>)
    requires |draws| == nOut && forall j | 0 <= j < nOut :: |draws[j]| == nIn
    requires nIn > 0 ==> root > 0.0
    ensures |w| == nIn && forall i | 0 <= i < nIn :: |w[i]| == nOut
    ensures forall i, j | 0 <= i < nIn && 0 <= j < nOut :: w[i][j] * root == draws[j][i]
  {
    seq(nIn, i requires 0 <= i < nIn => seq(nOut, j requires 0 <= j < nOut => draws[j][i] / root))
  }

  /** Dividing a value of [-1, 1] by a positive number keeps it within the reciprocal. */
  lemma DivisionBounded(x: real, root: real)
    requires root > 0.0 && -1.0 <= x <= 1.0
    ensures -1.0 / root <= x / root <= 1.0 / root
  {
    assert x / root - -1.0 / root == (x + 1.0) / root;
    assert 1.0 / root - x / root == (1.0 - x) / root;
  }

  /** Draws from [-1, 1] give weights in [-1/root, 1/root]. */
  lemma ScaledDrawsBounded(nIn: nat, nOut: nat, draws: seq<seq<real>>, root: real)
    requires |draws| == nOut && forall j | 0 <= j < nOut :: |draws[j]| == nIn
    requires nIn > 0 ==> root > 0.0
    requires forall j, i | 0 <= j < nOut && 0 <= i < nIn :: -1.0 <= draws[j][i] <= 1.0
    ensures var w := ScaledDraws(nIn, nOut, draws, root);
      forall i, j | 0 <= i < nIn && 0 <= j < nOut :: -1.0 / root <= w[i][j] <= 1.0 / root
  {
    var w := ScaledDraws(nIn, nOut, draws, root);
    forall i, j | 0 <= i < nIn && 0 <= j < nOut
      ensures -1.0 / root <= w[i][j] <= 1.0 / root
    {
      assert w[i][j] == draws[j][i] / root;
      DivisionBounded(draws[j][i], root);
    }
  }

  /** `w[i][j] += d`, the perturbation of one weight. */
  function NudgeWeight(p: LayerParams, i: nat, j: nat, d: real): (q: LayerParams)
    requires WellShaped(p) && i < p.nIn && j < p.nOut
    ensures WellShaped(q) && q.nIn == p.nIn && q.nOut == p.nOut && q.b == p.b
    ensures q.w[i][j] == p.w[i][j] + d
    ensures forall i', j' | 0 <= i' < p.nIn && 0 <= j' < p.nOut && (i', j') != (i, j) :: q.w[i'][j'] == p.w[i'][j']
  {
    p.(w := p.w[i := p.w[i][j := p.w[i][j] + d]])
  }

  /** `b[j] += d`, the perturbation of one bias. */
  function NudgeBias(p: LayerParams, j: nat, d: real): (q: LayerParams)
    requires WellShaped(p) && j < p.nOut
    ensures WellShaped(q) && q.nIn == p.nIn && q.nOut == p.nOut && q.w == p.w
    ensures q.b[j] == p.b[j] + d
    ensures forall j' | 0 <= j' < p.nOut && j' != j :: q.b[j'] == p.b[j']
  {
    p.(b := p.b[j := p.b[j] + d])
  }

  /** The gradient buffers with the weight gradient `(i, j)` overwritten by `v`. */
  function SetWeightGrad(g: LayerGrads, i: nat, j: nat, v: real): (h: LayerGrads)
    requires i < |g.gw| && j < |g.gw[i]|
    ensures |h.gw| == |g.gw| && h.gb == g.gb
    ensures forall i' | 0 <= i' < |g.gw| :: |h.gw[i']| == |g.gw[i']|
    ensures forall i', j' | 0 <= i' < |g.gw| && 0 <= j' < |g.gw[i']| ::
      h.gw[i'][j'] == if (i', j') == (i, j) then v else g.gw[i'][j']
  {
    g.(gw := g.gw[i := g.gw[i][j := v]])
  }

  /** The gradient buffers with the bias gradient `j` overwritten by `v`. */
  function SetBiasGrad(g: LayerGrads, j: nat, v: real): (h: LayerGrads)
    requires j < |g.gb|
    ensures h.gw == g.gw && |h.gb| == |g.gb|
    ensures forall j' | 0 <= j' < |g.gb| :: h.gb[j'] == if j' == j then v else g.gb[j']
  {
    g.(gb := g.gb[j := v])
  }

  /** Whether weight `(i', j')` comes before position `(i, j)` in the order the training step
      visits the weights: output node by output node, and input node by input node within each. */
  predicate VisitedBefore(i': nat, j': nat, i: nat, j: nat)
  {
    j' < j || (j' == j && i' < i)
  }

  /** The buffers `g` once the weight gradients before `(i, j)` have been overwritten with those
      of `est`. */
  function WeightsFrom(g: LayerGrads, est: LayerGrads, nIn: nat, nOut: nat, i: nat, j: nat): (h: LayerGrads)
    requires GradsShaped(nIn, nOut, g) && GradsShaped(nIn, nOut, est)
    ensures GradsShaped(nIn, nOut, h) && h.gb == g.gb
    ensures forall i', j' | 0 <= i' < nIn && 0 <= j' < nOut ::
      h.gw[i'][j'] == if VisitedBefore(i', j', i, j) then est.gw[i'][j'] else g.gw[i'][j']
  {
    LayerGrads(
      seq(nIn, i' requires 0 <= i' < nIn =>
        seq(nOut, j' requires 0 <= j' < nOut =>
          if VisitedBefore(i', j', i, j) then est.gw[i'][j'] else g.gw[i'][j'])),
      g.gb)
  }

  /** The buffers `g` once every weight gradient, and the bias gradients before `j`, have been
      overwritten with those of `est`. */
  function BiasesFrom(g: LayerGrads, est: LayerGrads, nIn: nat, nOut: nat, j: nat): (h: LayerGrads)
    requires GradsShaped(nIn, nOut, g) && GradsShaped(nIn, nOut, est)
    ensures GradsShaped(nIn, nOut, h) && h.gw == est.gw
    ensures forall j' | 0 <= j' < nOut :: h.gb[j'] == if j' < j then est.gb[j'] else g.gb[j']
  {
    LayerGrads(est.gw, seq(nOut, j' requires 0 <= j' < nOut => if j' < j then est.gb[j'] else g.gb[j']))
  }

  /** Before the first weight, nothing has been overwritten. */
  lemma WeightsFromNone(g: LayerGrads, est: LayerGrads, nIn: nat, nOut: nat)
    requires GradsShaped(nIn, nOut, g) && GradsShaped(nIn, nOut, est)
    ensures WeightsFrom(g, est, nIn, nOut, 0, 0) == g
  {
    GradsEqual(nIn, nOut, WeightsFrom(g, est, nIn, nOut, 0, 0), g);
  }

  /** Overwriting weight gradient `(i, j)` moves one weight further in the visiting order. */
  lemma WeightsFromNext(g: LayerGrads, est: LayerGrads, nIn: nat, nOut: nat, i: nat, j: nat)
    requires GradsShaped(nIn, nOut, g) && GradsShaped(nIn, nOut, est) && i < nIn && j < nOut
    ensures SetWeightGrad(WeightsFrom(g, est, nIn, nOut, i, j), i, j, est.gw[i][j])
         == WeightsFrom(g, est, nIn, nOut, i + 1, j)
  {
    GradsEqual(nIn, nOut,
      SetWeightGrad(WeightsFrom(g, est, nIn, nOut, i, j), i, j, est.gw[i][j]),
      WeightsFrom(g, est, nIn, nOut, i + 1, j));
  }

  /** Past the last input node of output node `j`, the order continues at output node `j + 1`. */
  lemma WeightsFromColumn(g: LayerGrads, est: LayerGrads, nIn: nat, nOut: nat, j: nat)
    requires GradsShaped(nIn, nOut, g) && GradsShaped(nIn, nOut, est)
    ensures WeightsFrom(g, est, nIn, nOut, nIn, j) == WeightsFrom(g, est, nIn, nOut, 0, j + 1)
  {
    GradsEqual(nIn, nOut, WeightsFrom(g, est, nIn, nOut, nIn, j), WeightsFrom(g, est, nIn, nOut, 0, j + 1));
  }

  /** Once every weight gradient is overwritten, the biases come next. */
  lemma WeightsFromAll(g: LayerGrads, est: LayerGrads, nIn: nat, nOut: nat)
    requires GradsShaped(nIn, nOut, g) && GradsShaped(nIn, nOut, est)
    ensures WeightsFrom(g, est, nIn, nOut, 0, nOut) == BiasesFrom(g, est, nIn, nOut, 0)
  {
    GradsEqual(nIn, nOut, WeightsFrom(g, est, nIn, nOut, 0, nOut), BiasesFrom(g, est, nIn, nOut, 0));
  }

  /** Overwriting bias gradient `j` moves one bias further. */
  lemma BiasesFromNext(g: LayerGrads, est: LayerGrads, nIn: nat, nOut: nat, j: nat)
    requires GradsShaped(nIn, nOut, g) && GradsShaped(nIn, nOut, est) && j < nOut
    ensures SetBiasGrad(BiasesFrom(g, est, nIn, nOut, j), j, est.gb[j]) == BiasesFrom(g, est, nIn, nOut, j + 1)
  {
    GradsEqual(nIn, nOut,
      SetBiasGrad(BiasesFrom(g, est, nIn, nOut, j), j, est.gb[j]), BiasesFrom(g, est, nIn, nOut, j + 1));
  }

  /** After the last bias, nothing of `g` is left. */
  lemma BiasesFromAll(g: LayerGrads, est: LayerGrads, nIn: nat, nOut: nat)
    requires GradsShaped(nIn, nOut, g) && GradsShaped(nIn, nOut, est)
    ensures BiasesFrom(g, est, nIn, nOut, nOut) == est
  {
    GradsEqual(nIn, nOut, BiasesFrom(g, est, nIn, nOut, nOut), est);
  }

  /** Over the reals, adding `d` and then subtracting it restores the weight exactly. */
  lemma NudgeWeightUndone(p: LayerParams, i: nat, j: nat, d: real)
    requires WellShaped(p) && i < p.nIn && j < p.nOut
    ensures NudgeWeight(NudgeWeight(p, i, j, d), i, j, -d) == p
  {
    var q := NudgeWeight(NudgeWeight(p, i, j, d), i, j, -d);
    assert q.w[i] == p.w[i];
    assert q.w == p.w;
  }

  lemma NudgeBiasUndone(p: LayerParams, j: nat, d: real)
    requires WellShaped(p) && j < p.nOut
    ensures NudgeBias(NudgeBias(p, j, d), j, -d) == p
  {
    assert NudgeBias(NudgeBias(p, j, d), j, -d).b == p.b;
  }
}
