/** The network (wsnn/neural_network.py): an ordered stack of dense layers, the lowest cost seen
    so far, and the training step that estimates every gradient by forward differences and then
    moves every parameter against its gradient. The checkpoint file that
    `save_weights_and_biases` writes is modelled by the ghost list `checkpoints`. */
module Network {
  import opened Wrappers
  import opened Data
  import opened LayerMath
  import opened DenseLayer
  import opened NetworkMath

  /** What one checkpoint holds: the network as it was when it was written. */
  datatype Checkpoint = Checkpoint(params: seq<LayerParams>, grads: seq<LayerGrads>, lowestCost: real)

  /** The mean cost of no samples divides by zero. */
  datatype CostError = EmptyDataset

  /** The maximum of no outputs does not exist. */
  datatype ClassifyError = EmptyOutputs

  /** No array appears twice in `ws` and `gws` together, nor twice in `bs` and `gbs` together. */
  ghost predicate Distinct(ws: seq<array2<real>>, bs: seq<array<real>>, gws: seq<array2<real>>, gbs: seq<array<real>>)
  {
    && |bs| == |ws| && |gws| == |ws| && |gbs| == |ws|
    && forall k, k' | 0 <= k < |ws| && 0 <= k' < |ws| ::
         && ws[k] != gws[k'] && bs[k] != gbs[k']
         && (k != k' ==> ws[k] != ws[k'] && bs[k] != bs[k'] && gws[k] != gws[k'] && gbs[k] != gbs[k'])
  }

  /** Arrays found in none of the lists, and kept apart from each other, extend them. */
  lemma DistinctSnoc(ws: seq<array2<real>>, bs: seq<array<real>>, gws: seq<array2<real>>, gbs: seq<array<real>>,
                     w: array2<real>, b: array<real>, gw: array2<real>, gb: array<real>)
    requires Distinct(ws, bs, gws, gbs) && w != gw && b != gb
    requires w !in ws && w !in gws && gw !in ws && gw !in gws
    requires b !in bs && b !in gbs && gb !in bs && gb !in gbs
    ensures Distinct(ws + [w], bs + [b], gws + [gw], gbs + [gb])
  {
  }

  /** Writing position `l` twice keeps only the second write. */
  lemma UpdateTwice<T>(s: seq<T>, l: nat, a: T, b: T)
    requires l < |s|
    ensures s[l := a][l := b] == s[l := b]
  {
  }

  /** The layers `ls` are well shaped and keep their weights, biases and gradients in the arrays
      listed in `ws`, `bs`, `gws` and `gbs`; no array belongs to two layers, and none serves both
      as a parameter and as a gradient. */
  ghost predicate Stacked(ls: seq<Layer>, ws: seq<array2<real>>, bs: seq<array<real>>,
                          gws: seq<array2<real>>, gbs: seq<array<real>>)
    reads ls
  {
    && |ws| == |ls| && Distinct(ws, bs, gws, gbs)
    && forall k | 0 <= k < |ls| ::
         && ls[k].Valid() && ls[k].weights == ws[k] && ls[k].biases == bs[k]
         && ls[k].gradW == gws[k] && ls[k].gradB == gbs[k]
  }

  /** The weights and biases of the layers `ls`, in order. */
  ghost function ParamsOf(ls: seq<Layer>, ws: seq<array2<real>>, bs: seq<array<real>>): (ps: seq<LayerParams>)
    requires |ws| == |ls| && |bs| == |ls|
    requires forall k | 0 <= k < |ls| :: ls[k].Valid() && ls[k].weights == ws[k] && ls[k].biases == bs[k]
    reads ls, ws, bs
    ensures |ps| == |ls| && forall k | 0 <= k < |ls| :: ps[k] == ls[k].Params()
  {
    if ls == [] then []
    else
      var n := |ls| - 1;
      ParamsOf(ls[..n], ws[..n], bs[..n]) + [ls[n].Params()]
  }

  /** The gradient buffers of the layers `ls`, in order. */
  ghost function GradsOf(ls: seq<Layer>, gws: seq<array2<real>>, gbs: seq<array<real>>): (gs: seq<LayerGrads>)
    requires |gws| == |ls| && |gbs| == |ls|
    requires forall k | 0 <= k < |ls| :: ls[k].gradW == gws[k] && ls[k].gradB == gbs[k]
    reads gws, gbs
    ensures |gs| == |ls| && forall k | 0 <= k < |ls| :: gs[k] == ls[k].Grads()
  {
    if ls == [] then []
    else
      var n := |ls| - 1;
      GradsOf(ls[..n], gws[..n], gbs[..n]) + [ls[n].Grads()]
  }

  class NeuralNetwork {
    /** The list of layers is filled by the constructor and never changes afterwards. */
    const layers: seq<Layer>
    var lowestCost: real
    ghost var checkpoints: seq<Checkpoint>
    /** The weight, bias and gradient arrays of every layer, first layer first. */
    ghost const weightArrays: seq<array2<real>>
    ghost const biasArrays: seq<array<real>>
    ghost const gradWArrays: seq<array2<real>>
    ghost const gradBArrays: seq<array<real>>

    ghost predicate Valid()
      reads layers
    {
      Stacked(layers, weightArrays, biasArrays, gradWArrays, gradBArrays)
    }

    /** Every layer's weights and biases, first layer first. */
    ghost function Params(): (ps: seq<LayerParams>)
      requires Valid()
      reads layers, weightArrays, biasArrays
      ensures |ps| == |layers| && AllWellShaped(ps)
      ensures forall k | 0 <= k < |layers| :: ps[k] == layers[k].Params()
    {
      ParamsOf(layers, weightArrays, biasArrays)
    }

    /** Every layer's gradient buffers, first layer first. */
    ghost function Grads(): (gs: seq<LayerGrads>)
      requires Valid()
      reads layers, gradWArrays, gradBArrays
      ensures |gs| == |layers|
      ensures forall k | 0 <= k < |layers| :: gs[k] == layers[k].Grads()
    {
      GradsOf(layers, gradWArrays, gradBArrays)
    }

    /** The gradients are shaped like the parameters they belong to. */
    lemma GradsFitParams()
      requires Valid()
      ensures AllGradsShaped(Params(), Grads())
    {
    }

    /** One zero-filled layer per pair of consecutive sizes, each with newly allocated arrays, the
        lowest cost at 1, and no checkpoint written. */
    constructor (sizes: seq<nat>)
      ensures Valid()
      ensures Params() == ZeroNetwork(sizes) && Grads() == ZeroNetworkGrads(sizes)
      ensures lowestCost == 1.0 && checkpoints == []
      ensures forall k | 0 <= k < |layers| ::
        fresh(weightArrays[k]) && fresh(biasArrays[k]) && fresh(gradWArrays[k]) && fresh(gradBArrays[k])
    {
      var ls, ws, bs, gws, gbs := ZeroLayers(sizes);
      layers, weightArrays, biasArrays, gradWArrays, gradBArrays := ls, ws, bs, gws, gbs;
      lowestCost, checkpoints := 1.0, [];
      new;
      assert ZeroPrefix(sizes, layers, weightArrays, biasArrays, gradWArrays, gradBArrays);
      ZeroStack(sizes, layers, weightArrays, biasArrays, gradWArrays, gradBArrays);
    }

    /** The forward pass: the input handed through the layers, first to last. Nothing changes. */
    method CalculateOutputs(inputs: seq<real>, act: real -> real) returns (outputs: seq<real>)
      requires Valid() && Feeds(Params(), |inputs|)
      ensures Valid() && Params() == old(Params()) && Grads() == old(Grads())
      ensures outputs == Forward(Params(), inputs, act)
    {
      ghost var ps := Params();
      outputs := inputs;
      for k := 0 to |layers|
        invariant Feeds(ps[k..], |outputs|)
        invariant Forward(ps[k..], outputs, act) == Forward(ps, inputs, act)
      {
        assert ps[k..][0] == layers[k].Params() && ps[k..][1..] == ps[k + 1..];
        outputs := layers[k].CalculateOutputs(outputs, act);
      }
    }

    /** The cost of one sample: the squared error of every output against the expected value
        of the same index, added output by output. */
    method Cost(dp: DataPoint, act: real -> real) returns (c: real)
      requires Valid() && Fits(Params(), dp)
      ensures Valid() && Params() == old(Params()) && Grads() == old(Grads())
      ensures c == NetworkMath.Cost(Params(), dp, act)
    {
      var outputs := CalculateOutputs(dp.inputs, act);
      c := 0.0;
      for j := 0 to |outputs|
        invariant c == CostPrefix(outputs, dp.expectedOutputs, j)
      {
        c := c + NodeCost(outputs[j], dp.expectedOutputs[j]);
      }
    }

    /** The mean cost over a dataset, the samples' costs added in order; an empty dataset is a
        division by zero. */
    method CostMultiple(data: seq<DataPoint>, act: real -> real) returns (r: Result<real, CostError>)
      requires Valid() && DataFits(Params(), data)
      ensures Valid() && Params() == old(Params()) && Grads() == old(Grads())
      ensures r.Failure? <==> data == []
      ensures r.Success? ==> r.value == MeanCost(Params(), data, act)
    {
      var total := 0.0;
      for n := 0 to |data|
        invariant total == TotalCost(Params(), data, act, n)
      {
        var c := Cost(data[n], act);
        total := total + c;
      }
      if |data| == 0 {
        return Failure(EmptyDataset);
      }
      r := Success(total / |data| as real);
    }

    /** The position of the first largest output; a network whose output is empty has none. */
    method Classify(inputs: seq<real>, act: real -> real) returns (r: Result<nat, ClassifyError>)
      requires Valid() && Feeds(Params(), |inputs|)
      ensures r.Failure? <==> Forward(Params(), inputs, act) == []
      ensures r.Success? ==> IsFirstMax(Forward(Params(), inputs, act), r.value)
    {
      var outputs := CalculateOutputs(inputs, act);
      if |outputs| == 0 {
        return Failure(EmptyOutputs);
      }
      var k := FirstMaxIndex(outputs);
      r := Success(k);
    }

    /** The position of the largest value, found as the source does: a scan for the maximum that
        keeps the earlier of two equal values, then a scan for the first position holding it. */
    static method FirstMaxIndex(s: seq<real>) returns (k: nat)
      requires s != []
      ensures IsFirstMax(s, k)
    {
      var top := s[0];
      for i := 1 to |s|
        invariant top in s[..i]
        invariant forall m | 0 <= m < i :: s[m] <= top
      {
        if s[i] > top {
          top := s[i];
        }
      }
      k := 0;
      while s[k] != top
        invariant k < |s| && top in s[k..]
        invariant forall m | 0 <= m < k :: s[m] != top
        decreases |s| - k
      {
        k := k + 1;
      }
    }

    /** Every layer takes one gradient step with its own stored gradients, first layer first. */
    method ApplyAllGradients(lr: real)
      requires Valid()
      modifies weightArrays, biasArrays
      ensures Valid() && Grads() == old(Grads())
      ensures Params() == DescendAll(old(Params()), Grads(), lr)
    {
      GradsFitParams();
      ghost var ps, gs := Params(), Grads();
      for k := 0 to |layers|
        invariant Valid() && Grads() == gs
        invariant forall t | 0 <= t < |layers| :: Params()[t] == if t < k then Descend(ps[t], gs[t], lr) else ps[t]
      {
        StepLayer(k, lr);
      }
    }

    /** Layer `k` takes its gradient step; every other layer, and every gradient, stays as it was. */
    method StepLayer(k: nat, lr: real)
      requires Valid() && k < |layers|
      modifies layers[k].weights, layers[k].biases
      ensures Valid() && Grads() == old(Grads())
      ensures Params() == old(Params())[k := Descend(old(Params())[k], Grads()[k], lr)]
    {
      layers[k].ApplyGradients(lr);
    }

    /** Every checkpoint written so far recorded a higher lowest cost than the one after it,
        and a higher one than the current lowest cost. */
    ghost predicate CostsFalling()
      reads this
    {
      && (forall k | 0 <= k < |checkpoints| :: checkpoints[k].lowestCost > lowestCost)
      && (forall k, k' | 0 <= k < k' < |checkpoints| :: checkpoints[k].lowestCost > checkpoints[k'].lowestCost)
    }

    /** A cost below the lowest seen so far writes a checkpoint of the whole network (holding the
        previous lowest cost) and becomes the new lowest cost; any other cost changes nothing. */
    method SaveWeightsAndBiases(cost: real)
      requires Valid() && CostsFalling()
      modifies this`lowestCost, this`checkpoints
      ensures Valid() && CostsFalling() && lowestCost <= old(lowestCost)
      ensures cost < old(lowestCost) ==>
        && lowestCost == cost
        && checkpoints == old(checkpoints) + [Checkpoint(Params(), Grads(), old(lowestCost))]
      ensures cost >= old(lowestCost) ==> lowestCost == old(lowestCost) && checkpoints == old(checkpoints)
    {
      if cost < lowestCost {
        checkpoints := checkpoints + [Checkpoint(Params(), Grads(), lowestCost)];
        lowestCost := cost;
      }
    }

    /** One training step: the mean cost over `data`, every gradient of every layer estimated by
        forward differences against it, then one gradient step on every layer. Empty `data` fails
        before anything changes. */
    method Learn(data: seq<DataPoint>, lr: real, act: real -> real) returns (err: Option<CostError>)
      requires Valid() && DataFits(Params(), data)
      modifies weightArrays, biasArrays, gradWArrays, gradBArrays
      ensures Valid()
      ensures err.Some? <==> data == []
      ensures err.Some? ==> Params() == old(Params()) && Grads() == old(Grads())
      ensures err.None? ==> Grads() == EstimatedGradients(old(Params()), data, act)
      ensures err.None? ==> Params() == DescendAll(old(Params()), Grads(), lr)
      ensures err.None? && lr == 0.0 ==> Params() == old(Params())
    {
      var r := CostMultiple(data, act);
      if r.Failure? {
        return Some(r.error);
      }
      var originalCost := r.value;
      EstimateAllGradients(data, act, originalCost);
      ghost var ps := Params();
      GradsFitParams();
      ApplyAllGradients(lr);
      if lr == 0.0 {
        DescendAllZeroRate(ps, Grads());
      }
      return None;
    }

    /** The estimation half of the training step: every layer in turn, first to last. */
    method EstimateAllGradients(data: seq<DataPoint>, act: real -> real, base: real)
      requires Valid() && DataFits(Params(), data) && data != []
      requires base == MeanCost(Params(), data, act)
      modifies weightArrays, biasArrays, gradWArrays, gradBArrays
      ensures Valid() && Params() == old(Params())
      ensures Grads() == EstimatedGradients(Params(), data, act)
    {
      ghost var ps, gs := Params(), Grads();
      ghost var est := EstimatedGradients(ps, data, act);
      for l := 0 to |layers|
        invariant Valid() && Params() == ps
        invariant |Grads()| == |gs| && forall t | 0 <= t < |layers| :: Grads()[t] == if t < l then est[t] else gs[t]
      {
        EstimateLayerStep(l, data, act, base, ps, gs);
      }
    }

    /** Layer `l` is the next one the estimation visits. */
    method EstimateLayerStep(l: nat, data: seq<DataPoint>, act: real -> real, base: real,
                             ghost ps: seq<LayerParams>, ghost gs: seq<LayerGrads>)
      requires Valid() && Params() == ps && DataFits(ps, data) && data != []
      requires l < |ps| && base == MeanCost(ps, data, act) && |gs| == |ps|
      requires forall t | 0 <= t < |layers| :: Grads()[t] == if t < l then EstimatedGradients(ps, data, act)[t] else gs[t]
      modifies layers[l].weights, layers[l].biases, layers[l].gradW, layers[l].gradB
      ensures Valid() && Params() == ps
      ensures forall t | 0 <= t < |layers| :: Grads()[t] == if t < l + 1 then EstimatedGradients(ps, data, act)[t] else gs[t]
    {
      EstimateLayerGradients(l, data, act, base);

    }

    /** Estimates every gradient of layer `l` at the current parameters: the weights output node by
        output node, then the biases. The parameters are left as they were. */
    method EstimateLayerGradients(l: nat, data: seq<DataPoint>, act: real -> real, base: real)
      requires Valid() && DataFits(Params(), data) && data != [] && l < |layers|
      requires base == MeanCost(Params(), data, act)
      modifies layers[l].weights, layers[l].biases, layers[l].gradW, layers[l].gradB
      ensures Valid() && Params() == old(Params())
      ensures Grads() == old(Grads())[l := LayerGradients(Params(), data, act, l)]
    {
      GradsFitParams();
      ghost var ps, gs := Params(), Grads();
      ghost var est := LayerGradients(ps, data, act, l);
      ghost var nIn, nOut := ps[l].nIn, ps[l].nOut;
      EstimateLayerWeights(l, data, act, base, ps, gs);
      WeightsFromAll(gs[l], est, nIn, nOut);
      EstimateLayerBiases(l, data, act, base, ps, gs);
      BiasesFromAll(gs[l], est, nIn, nOut);
    }

    /** The weight half of the estimation, output node by output node. */
    method EstimateLayerWeights(l: nat, data: seq<DataPoint>, act: real -> real, base: real,
                                ghost ps: seq<LayerParams>, ghost gs: seq<LayerGrads>)
      requires Valid() && Params() == ps && Grads() == gs && DataFits(ps, data) && data != []
      requires l < |ps| && base == MeanCost(ps, data, act)
      requires |gs| == |ps| && GradsShaped(ps[l].nIn, ps[l].nOut, gs[l])
      modifies layers[l].weights, layers[l].gradW
      ensures Valid() && Params() == ps
      ensures Grads() == gs[l := WeightsFrom(gs[l], LayerGradients(ps, data, act, l), ps[l].nIn, ps[l].nOut, 0, ps[l].nOut)]
    {
      ghost var est := LayerGradients(ps, data, act, l);
      ghost var nIn, nOut := ps[l].nIn, ps[l].nOut;
      var layer := layers[l];
      WeightsFromNone(gs[l], est, nIn, nOut);
      UpdateTwice(gs, l, gs[l], gs[l]);
      for j := 0 to layer.numNodesOut
        invariant Valid() && Params() == ps
        invariant Grads() == gs[l := WeightsFrom(gs[l], est, nIn, nOut, 0, j)]
      {
        EstimateWeightColumn(l, j, data, act, base, ps, gs);
      }
    }

    /** The bias half of the estimation, which follows the weight half. */
    method EstimateLayerBiases(l: nat, data: seq<DataPoint>, act: real -> real, base: real,
                               ghost ps: seq<LayerParams>, ghost gs: seq<LayerGrads>)
      requires Valid() && Params() == ps && DataFits(ps, data) && data != []
      requires l < |ps| && base == MeanCost(ps, data, act)
      requires |gs| == |ps| && GradsShaped(ps[l].nIn, ps[l].nOut, gs[l])
      requires Grads() == gs[l := BiasesFrom(gs[l], LayerGradients(ps, data, act, l), ps[l].nIn, ps[l].nOut, 0)]
      modifies layers[l].biases, layers[l].gradB
      ensures Valid() && Params() == ps
      ensures Grads() == gs[l := BiasesFrom(gs[l], LayerGradients(ps, data, act, l), ps[l].nIn, ps[l].nOut, ps[l].nOut)]
    {
      ghost var est := LayerGradients(ps, data, act, l);
      ghost var nIn, nOut := ps[l].nIn, ps[l].nOut;
      var layer := layers[l];
      for j := 0 to layer.biases.Length
        invariant Valid() && Params() == ps
        invariant Grads() == gs[l := BiasesFrom(gs[l], est, nIn, nOut, j)]
      {
        ProbeBiasStep(l, j, data, act, base, ps, gs);
      }
    }

    /** Bias `j` of layer `l` is the next one the estimation visits. */
    method ProbeBiasStep(l: nat, j: nat, data: seq<DataPoint>, act: real -> real, base: real,
                         ghost ps: seq<LayerParams>, ghost gs: seq<LayerGrads>)
      requires Valid() && Params() == ps && DataFits(ps, data) && data != []
      requires l < |ps| && j < ps[l].nOut && base == MeanCost(ps, data, act)
      requires |gs| == |ps| && GradsShaped(ps[l].nIn, ps[l].nOut, gs[l])
      requires Grads() == gs[l := BiasesFrom(gs[l], LayerGradients(ps, data, act, l), ps[l].nIn, ps[l].nOut, j)]
      modifies layers[l].biases, layers[l].gradB
      ensures Valid() && Params() == ps
      ensures Grads() == gs[l := BiasesFrom(gs[l], LayerGradients(ps, data, act, l), ps[l].nIn, ps[l].nOut, j + 1)]
    {
      ghost var est := LayerGradients(ps, data, act, l);
      ghost var nIn, nOut := ps[l].nIn, ps[l].nOut;
      ghost var before := Grads();
      ProbeBias(l, j, data, act, base);
      BiasesFromNext(gs[l], est, nIn, nOut, j);
      UpdateTwice(gs, l, BiasesFrom(gs[l], est, nIn, nOut, j), BiasesFrom(gs[l], est, nIn, nOut, j + 1));
    }

    /** The weights feeding output node `j` of layer `l`, input node by input node, at the
        parameters `ps`; `gs` are the gradients as they were before the layer's estimation began. */
    method EstimateWeightColumn(l: nat, j: nat, data: seq<DataPoint>, act: real -> real, base: real,
                                ghost ps: seq<LayerParams>, ghost gs: seq<LayerGrads>)
      requires Valid() && Params() == ps && DataFits(ps, data) && data != []
      requires l < |ps| && j < ps[l].nOut && base == MeanCost(ps, data, act)
      requires |gs| == |ps| && GradsShaped(ps[l].nIn, ps[l].nOut, gs[l])
      requires Grads() == gs[l := WeightsFrom(gs[l], LayerGradients(ps, data, act, l), ps[l].nIn, ps[l].nOut, 0, j)]
      modifies layers[l].weights, layers[l].gradW
      ensures Valid() && Params() == ps
      ensures Grads() == gs[l := WeightsFrom(gs[l], LayerGradients(ps, data, act, l), ps[l].nIn, ps[l].nOut, 0, j + 1)]
    {
      ghost var est := LayerGradients(ps, data, act, l);
      ghost var nIn, nOut := ps[l].nIn, ps[l].nOut;
      var layer := layers[l];
      for i := 0 to layer.numNodesIn
        invariant Valid() && Params() == ps
        invariant Grads() == gs[l := WeightsFrom(gs[l], est, nIn, nOut, i, j)]
      {
        ProbeWeightStep(l, i, j, data, act, base, ps, gs);
      }
      WeightsFromColumn(gs[l], est, nIn, nOut, j);
    }

    /** Weight `(i, j)` of layer `l` is the next one the estimation visits. */
    method ProbeWeightStep(l: nat, i: nat, j: nat, data: seq<DataPoint>, act: real -> real, base: real,
                           ghost ps: seq<LayerParams>, ghost gs: seq<LayerGrads>)
      requires Valid() && Params() == ps && DataFits(ps, data) && data != []
      requires l < |ps| && i < ps[l].nIn && j < ps[l].nOut && base == MeanCost(ps, data, act)
      requires |gs| == |ps| && GradsShaped(ps[l].nIn, ps[l].nOut, gs[l])
      requires Grads() == gs[l := WeightsFrom(gs[l], LayerGradients(ps, data, act, l), ps[l].nIn, ps[l].nOut, i, j)]
      modifies layers[l].weights, layers[l].gradW
      ensures Valid() && Params() == ps
      ensures Grads() == gs[l := WeightsFrom(gs[l], LayerGradients(ps, data, act, l), ps[l].nIn, ps[l].nOut, i + 1, j)]
    {
      ghost var est := LayerGradients(ps, data, act, l);
      ghost var nIn, nOut := ps[l].nIn, ps[l].nOut;
      ghost var before := Grads();
      ProbeWeight(l, i, j, data, act, base);
      WeightsFromNext(gs[l], est, nIn, nOut, i, j);
      UpdateTwice(gs, l, WeightsFrom(gs[l], est, nIn, nOut, i, j), WeightsFrom(gs[l], est, nIn, nOut, i + 1, j));
    }

    /** One step of the estimation: weight `(i, j)` of layer `l` is nudged by `H`, the mean cost
        measured again, the nudge taken back, and the forward difference stored as its gradient. */
    method ProbeWeight(l: nat, i: nat, j: nat, data: seq<DataPoint>, act: real -> real, base: real)
      requires Valid() && DataFits(Params(), data) && data != []
      requires l < |layers| && i < layers[l].numNodesIn && j < layers[l].numNodesOut
      requires base == MeanCost(Params(), data, act)
      modifies layers[l].weights, layers[l].gradW
      ensures Valid() && Params() == old(Params())
      ensures Grads() == old(Grads())[l := SetWeightGrad(old(Grads())[l], i, j, WeightGradient(Params(), data, act, l, i, j))]
    {
      var c := WeightNudgedCost(l, i, j, data, act);
      var deltaCost := c - base;
      assert deltaCost / H == WeightGradient(Params(), data, act, l, i, j);
      StoreWeightGradient(l, i, j, deltaCost / H);
    }

    /** The mean cost with weight `(i, j)` of layer `l` increased by `H`; the weight is put back
        afterwards. */
    method WeightNudgedCost(l: nat, i: nat, j: nat, data: seq<DataPoint>, act: real -> real) returns (c: real)
      requires Valid() && DataFits(Params(), data) && data != []
      requires l < |layers| && i < layers[l].numNodesIn && j < layers[l].numNodesOut
      modifies layers[l].weights
      ensures Valid() && Params() == old(Params()) && Grads() == old(Grads())
      ensures DataFits(NudgeLayerWeight(Params(), l, i, j, H), data)
      ensures c == MeanCost(NudgeLayerWeight(Params(), l, i, j, H), data, act)
    {
      ghost var ps := Params();
      NudgeWeightBy(l, i, j, H);
      SameShapesFit(ps, Params(), data);
      var r := CostMultiple(data, act);
      c := r.value;
      NudgeWeightBy(l, i, j, -H);
      NudgeLayerWeightUndone(ps, l, i, j, H);
    }

    /** The same step for bias `j` of layer `l`. */
    method ProbeBias(l: nat, j: nat, data: seq<DataPoint>, act: real -> real, base: real)
      requires Valid() && DataFits(Params(), data) && data != []
      requires l < |layers| && j < layers[l].numNodesOut
      requires base == MeanCost(Params(), data, act)
      modifies layers[l].biases, layers[l].gradB
      ensures Valid() && Params() == old(Params())
      ensures Grads() == old(Grads())[l := SetBiasGrad(old(Grads())[l], j, BiasGradient(Params(), data, act, l, j))]
    {
      var c := BiasNudgedCost(l, j, data, act);
      var deltaCost := c - base;
      assert deltaCost / H == BiasGradient(Params(), data, act, l, j);
      StoreBiasGradient(l, j, deltaCost / H);
    }

    /** The mean cost with bias `j` of layer `l` increased by `H`; the bias is put back
        afterwards. */
    method BiasNudgedCost(l: nat, j: nat, data: seq<DataPoint>, act: real -> real) returns (c: real)
      requires Valid() && DataFits(Params(), data) && data != []
      requires l < |layers| && j < layers[l].numNodesOut
      modifies layers[l].biases
      ensures Valid() && Params() == old(Params()) && Grads() == old(Grads())
      ensures DataFits(NudgeLayerBias(Params(), l, j, H), data)
      ensures c == MeanCost(NudgeLayerBias(Params(), l, j, H), data, act)
    {
      ghost var ps := Params();
      NudgeBiasBy(l, j, H);
      SameShapesFit(ps, Params(), data);
      var r := CostMultiple(data, act);
      c := r.value;
      NudgeBiasBy(l, j, -H);
      NudgeLayerBiasUndone(ps, l, j, H);
    }

    /** `weights[i][j] += d` on layer `l`, as the training step writes it. */
    method NudgeWeightBy(l: nat, i: nat, j: nat, d: real)
      requires Valid() && l < |layers| && i < layers[l].numNodesIn && j < layers[l].numNodesOut
      modifies layers[l].weights
      ensures Valid() && Grads() == old(Grads())
      ensures Params() == NudgeLayerWeight(old(Params()), l, i, j, d)
    {
      ghost var p := layers[l].Params();
      var w := layers[l].weights;
      w[i, j] := w[i, j] + d;
      ParamsEqual(layers[l].Params(), NudgeWeight(p, i, j, d));
    }

    /** `biases[j] += d` on layer `l`, as the training step writes it. */
    method NudgeBiasBy(l: nat, j: nat, d: real)
      requires Valid() && l < |layers| && j < layers[l].numNodesOut
      modifies layers[l].biases
      ensures Valid() && Grads() == old(Grads())
      ensures Params() == NudgeLayerBias(old(Params()), l, j, d)
    {
      ghost var p := layers[l].Params();
      var b := layers[l].biases;
      b[j] := b[j] + d;
      ParamsEqual(layers[l].Params(), NudgeBias(p, j, d));
    }

    /** Stores `v` as the gradient of weight `(i, j)` of layer `l`. */
    method StoreWeightGradient(l: nat, i: nat, j: nat, v: real)
      requires Valid() && l < |layers| && i < layers[l].numNodesIn && j < layers[l].numNodesOut
      modifies layers[l].gradW
      ensures Valid() && Params() == old(Params())
      ensures Grads() == old(Grads())[l := SetWeightGrad(old(Grads())[l], i, j, v)]
    {
      ghost var g := layers[l].Grads();
      var gw := layers[l].gradW;
      gw[i, j] := v;
      GradsEqual(layers[l].numNodesIn, layers[l].numNodesOut, layers[l].Grads(), SetWeightGrad(g, i, j, v));
    }

    /** Stores `v` as the gradient of bias `j` of layer `l`. */
    method StoreBiasGradient(l: nat, j: nat, v: real)
      requires Valid() && l < |layers| && j < layers[l].numNodesOut
      modifies layers[l].gradB
      ensures Valid() && Params() == old(Params())
      ensures Grads() == old(Grads())[l := SetBiasGrad(old(Grads())[l], j, v)]
    {
      ghost var g := layers[l].Grads();
      var gb := layers[l].gradB;
      gb[j] := v;
      GradsEqual(layers[l].numNodesIn, layers[l].numNodesOut, layers[l].Grads(), SetBiasGrad(g, j, v));
    }

    /** Fresh zero-filled layers, one per pair of consecutive sizes, with their arrays. */
    static method ZeroLayers(sizes: seq<nat>)
      returns (ls: seq<Layer>, ghost ws: seq<array2<real>>, ghost bs: seq<array<real>>,
               ghost gws: seq<array2<real>>, ghost gbs: seq<array<real>>)
      ensures ZeroPrefix(sizes, ls, ws, bs, gws, gbs) && |ls| == |ZeroNetwork(sizes)|
      ensures forall k | 0 <= k < |ls| :: fresh(ws[k]) && fresh(bs[k]) && fresh(gws[k]) && fresh(gbs[k])
    {
      ls, ws, bs, gws, gbs := [], [], [], [], [];
      var n := if |sizes| < 2 then 0 else |sizes| - 1;
      for i := 0 to n
        invariant |ls| == i && ZeroPrefix(sizes, ls, ws, bs, gws, gbs)
        invariant forall k | 0 <= k < |ls| :: fresh(ws[k]) && fresh(bs[k]) && fresh(gws[k]) && fresh(gbs[k])
      {
        ls, ws, bs, gws, gbs := PushZeroLayer(sizes, ls, ws, bs, gws, gbs);
      }
    }

    /** Appends one fresh zero-filled layer, for the next pair of sizes, to the zero layers `ls`. */
    static method PushZeroLayer(sizes: seq<nat>, ls: seq<Layer>, ghost ws: seq<array2<real>>,
                                ghost bs: seq<array<real>>, ghost gws: seq<array2<real>>,
                                ghost gbs: seq<array<real>>)
      returns (ls': seq<Layer>, ghost ws': seq<array2<real>>, ghost bs': seq<array<real>>,
               ghost gws': seq<array2<real>>, ghost gbs': seq<array<real>>)
      requires |ls| + 1 < |sizes| && ZeroPrefix(sizes, ls, ws, bs, gws, gbs)
      ensures |ls'| == |ls| + 1 && ZeroPrefix(sizes, ls', ws', bs', gws', gbs')
      ensures ws' == ws + [ws'[|ls|]] && bs' == bs + [bs'[|ls|]]
      ensures gws' == gws + [gws'[|ls|]] && gbs' == gbs + [gbs'[|ls|]]
      ensures fresh(ws'[|ls|]) && fresh(bs'[|ls|]) && fresh(gws'[|ls|]) && fresh(gbs'[|ls|])
    {
      var layer := new Layer(sizes[|ls|], sizes[|ls| + 1]);
      DistinctSnoc(ws, bs, gws, gbs, layer.weights, layer.biases, layer.gradW, layer.gradB);
      ls', ws', bs' := ls + [layer], ws + [layer.weights], bs + [layer.biases];
      gws', gbs' := gws + [layer.gradW], gbs + [layer.gradB];
    }
  }

  /** The layers `ls` are stacked, and each is the zero layer of its pair of consecutive sizes. */
  ghost predicate ZeroPrefix(sizes: seq<nat>, ls: seq<Layer>, ws: seq<array2<real>>, bs: seq<array<real>>,
                             gws: seq<array2<real>>, gbs: seq<array<real>>)
    reads ls, ws, bs, gws, gbs
  {
    && Stacked(ls, ws, bs, gws, gbs) && (|ls| == 0 || |ls| < |sizes|)
    && forall k {:trigger ls[k]} | 0 <= k < |ls| ::
         ls[k].ZeroOf(sizes[k], sizes[k + 1])
  }

  /** Layers that are each the zero layer of their pair of consecutive sizes make up the zero
      network of those sizes. */
  lemma ZeroStack(sizes: seq<nat>, ls: seq<Layer>, ws: seq<array2<real>>, bs: seq<array<real>>,
                  gws: seq<array2<real>>, gbs: seq<array<real>>)
    requires ZeroPrefix(sizes, ls, ws, bs, gws, gbs) && |ls| == |ZeroNetwork(sizes)|
    ensures ParamsOf(ls, ws, bs) == ZeroNetwork(sizes) && GradsOf(ls, gws, gbs) == ZeroNetworkGrads(sizes)
  {
  }
}
