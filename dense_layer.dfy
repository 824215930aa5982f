/** One dense layer (wsnn/layer.py) as a class over arrays: the weight matrix `weights[i, j]`
    (input node `i` into output node `j`), the bias vector, and the two gradient buffers of the
    same shapes. The weights and biases are reassigned by the setters, which store the caller's
    array itself, and updated entry by entry by `ApplyGradients` and `InitializeRandomWeights`. */
module DenseLayer {
  import opened Wrappers
  import opened LayerMath

  /** The rows of a matrix as a value: `Matrix(m)[i][j] == m[i, j]`. */
  function Matrix(m: array2<real>): (rows: seq<seq<real>>)
    reads m
    ensures |rows| == m.Length0
    ensures forall i | 0 <= i < m.Length0 :: |rows[i]| == m.Length1
    ensures forall i, j | 0 <= i < m.Length0 && 0 <= j < m.Length1 :: rows[i][j] == m[i, j]
  {
    seq(m.Length0, i requires 0 <= i < m.Length0 reads m =>
      seq(m.Length1, j requires 0 <= j < m.Length1 reads m => m[i, j]))
  }

  /** An optional matrix argument as a list of rows; `null` is Python's None. */
  function Rows(m: array2?<real>): (r: Option<seq<seq<real>>>)
    reads m
    ensures r == None <==> m == null
    ensures m != null ==> r.value == Matrix(m)
  {
    if m == null then None else Some(Matrix(m))
  }

  /** An optional vector argument as a list; `null` is Python's None. */
  function Items(v: array?<real>): (r: Option<seq<real>>)
    reads v
    ensures r == None <==> v == null
    ensures v != null ==> r.value == v[..]
  {
    if v == null then None else Some(v[..])
  }

  class Layer {
    const numNodesIn: nat
    const numNodesOut: nat
    var weights: array2<real>
    var biases: array<real>
    const gradW: array2<real>
    const gradB: array<real>

    /** The shapes the setters enforce, and parameters kept apart from their gradients. A layer
        with no input nodes holds an empty list of weight rows, whatever its column count. */
    ghost predicate Valid()
      reads this`weights, this`biases
    {
      && weights.Length0 == numNodesIn && (numNodesIn > 0 ==> weights.Length1 == numNodesOut)
      && biases.Length == numNodesOut
      && gradW.Length0 == numNodesIn && gradW.Length1 == numNodesOut
      && gradB.Length == numNodesOut
      && weights != gradW && biases != gradB
    }

    ghost function Arrays(): set<object>
      reads this`weights, this`biases
    {
      {weights, biases, gradW, gradB}
    }

    /** The weights and biases as a value. */
    function Params(): (p: LayerParams)
      requires Valid()
      reads this`weights, this`biases, weights, biases
      ensures WellShaped(p) && p.nIn == numNodesIn && p.nOut == numNodesOut
    {
      LayerParams(numNodesIn, numNodesOut, Matrix(weights), biases[..])
    }

    /** The gradient buffers as a value; they are shaped like the parameters when `Valid()`. */
    function Grads(): (g: LayerGrads)
      reads gradW, gradB
      ensures |g.gw| == gradW.Length0 && (forall i | 0 <= i < |g.gw| :: |g.gw[i]| == gradW.Length1)
      ensures |g.gb| == gradB.Length
    {
      LayerGrads(Matrix(gradW), gradB[..])
    }

    /** Every weight, bias and gradient is zero, in the shape `nIn` by `nOut`. */
    ghost predicate ZeroOf(nIn: nat, nOut: nat)
      reads this`weights, this`biases, weights, biases, gradW, gradB
    {
      Valid() && Params() == ZeroLayer(nIn, nOut) && Grads() == ZeroGrads(nIn, nOut)
    }

    /** A layer whose weights, biases and gradients all start at zero: the constructor when no
        weights and no biases are given. */
    constructor (nIn: nat, nOut: nat)
      ensures Valid() && fresh(Arrays())
      ensures numNodesIn == nIn && numNodesOut == nOut
      ensures Params() == ZeroLayer(nIn, nOut) && Grads() == ZeroGrads(nIn, nOut) && ZeroOf(nIn, nOut)
    {
      numNodesIn, numNodesOut := nIn, nOut;
      weights := new real[nIn, nOut]((_, _) => 0.0);
      biases := new real[nOut](_ => 0.0);
      gradW := new real[nIn, nOut]((_, _) => 0.0);
      gradB := new real[nOut](_ => 0.0);
      new;
      ParamsEqual(Params(), ZeroLayer(nIn, nOut));
      assert Matrix(gradW) == ZeroGrads(nIn, nOut).gw by {
        forall i | 0 <= i < nIn
          ensures Matrix(gradW)[i] == ZeroGrads(nIn, nOut).gw[i]
        {
        }
      }
    }

    /** The weights setter: the row count is checked first, then every row's length; on success
        the layer keeps `v` itself, so later updates are visible through the caller's array. */
    method SetWeights(v: array2<real>) returns (err: Option<ShapeError>)
      requires Valid() && v != gradW
      modifies this`weights
      ensures Valid()
      ensures err == WeightsError(numNodesIn, numNodesOut, Matrix(v))
      ensures err == None ==> weights == v
      ensures err != None ==> weights == old(weights)
    {
      err := WeightsError(numNodesIn, numNodesOut, Matrix(v));
      if err == None {
        assert numNodesIn > 0 ==> |Matrix(v)[0]| == numNodesOut;
        weights := v;
      }
    }

    /** The biases setter: the length must be `numNodesOut`; on success the layer keeps `v`. */
    method SetBiases(v: array<real>) returns (err: Option<ShapeError>)
      requires Valid() && v != gradB
      modifies this`biases
      ensures Valid()
      ensures err == BiasesError(numNodesOut, v[..])
      ensures err == None ==> biases == v
      ensures err != None ==> biases == old(biases)
    {
      err := BiasesError(numNodesOut, v[..]);
      if err == None {
        biases := v;
      }
    }

    /** The constructor with optional weights and biases. A missing (null) or empty argument
        leaves the zero default; a given one goes through its setter, and every rejection is
        collected. The layer is returned only when no setter rejected its argument. */
    static method Create(nIn: nat, nOut: nat, weights: array2?<real>, biases: array?<real>)
      returns (r: Result<Layer, seq<ShapeError>>)
      ensures r.Failure? <==> ConstructorErrors(nIn, nOut, Rows(weights), Items(biases)) != []
      ensures r.Failure? ==> r.error == ConstructorErrors(nIn, nOut, Rows(weights), Items(biases))
      ensures r.Success? ==>
        var layer := r.value;
        && fresh(layer) && layer.Valid() && fresh({layer.gradW, layer.gradB})
        && layer.numNodesIn == nIn && layer.numNodesOut == nOut
        && (if Given(Rows(weights)) then layer.weights == weights
            else fresh(layer.weights) && layer.Params().w == ZeroLayer(nIn, nOut).w)
        && (if Given(Items(biases)) then layer.biases == biases
            else fresh(layer.biases) && layer.Params().b == ZeroLayer(nIn, nOut).b)
        && layer.Grads() == ZeroGrads(nIn, nOut)
    {
      var layer := new Layer(nIn, nOut);
      var errors: seq<ShapeError> := [];
      if weights != null && weights.Length0 > 0 {
        var e := layer.SetWeights(weights);
        errors := errors + ErrorList(e);
      } else if weights != null {
        assert Matrix(weights) == [];
      }
      if biases != null && biases.Length > 0 {
        var e := layer.SetBiases(biases);
        errors := errors + ErrorList(e);
      } else if biases != null {
        assert biases[..] == [];
      }
      if errors == [] {
        r := Success(layer);
      } else {
        r := Failure(errors);
      }
    }

    /** The forward pass of this layer: one activation per output node, each the bias plus the
        weighted inputs, accumulated input by input. Nothing changes. */
    method CalculateOutputs(inputs: seq<real>, act: real -> real) returns (outputs: seq<real>)
      requires Valid() && Accepts(Params(), |inputs|)
      ensures outputs == LayerOutputs(Params(), inputs, act)
    {
      outputs := [];
      var j := 0;
      while j < numNodesOut
        invariant 0 <= j <= numNodesOut
        invariant outputs == LayerOutputs(Params(), inputs, act)[..j]
      {
        var weighted := biases[j];
        var i := 0;
        while i < numNodesIn
          invariant 0 <= i <= numNodesIn
          invariant weighted == WeightedInput(Params(), inputs, j, i)
        {
          weighted := weighted + inputs[i] * weights[i, j];
          i := i + 1;
        }
        outputs := outputs + [act(weighted)];
        j := j + 1;
      }
    }

    /** One gradient-descent step in place: every weight and bias loses `lr` times its stored
        gradient; the gradient buffers and the shapes stay as they were. */
    method ApplyGradients(lr: real)
      requires Valid()
      modifies weights, biases
      ensures Valid()
      ensures forall i, j | 0 <= i < numNodesIn && 0 <= j < numNodesOut ::
        weights[i, j] == Step(old(weights[i, j]), gradW[i, j], lr)
      ensures forall j | 0 <= j < numNodesOut :: biases[j] == Step(old(biases[j]), gradB[j], lr)
      ensures Params() == Descend(old(Params()), Grads(), lr)
    {
      ghost var p := Params();
      var j := 0;
      while j < numNodesOut
        invariant 0 <= j <= numNodesOut
        invariant forall j' | 0 <= j' < j :: biases[j'] == Step(old(biases[j']), gradB[j'], lr)
        invariant forall j' | j <= j' < numNodesOut :: biases[j'] == old(biases[j'])
        invariant forall i', j' | 0 <= i' < numNodesIn && 0 <= j' < j ::
          weights[i', j'] == Step(old(weights[i', j']), gradW[i', j'], lr)
        invariant forall i', j' | 0 <= i' < numNodesIn && j <= j' < numNodesOut ::
          weights[i', j'] == old(weights[i', j'])
      {
        biases[j] := Step(biases[j], gradB[j], lr);
        var i := 0;
        while i < numNodesIn
          modifies weights
          invariant 0 <= i <= numNodesIn
          invariant forall i', j' | 0 <= i' < numNodesIn && 0 <= j' < j ::
            weights[i', j'] == Step(old(weights[i', j']), gradW[i', j'], lr)
          invariant forall i' | 0 <= i' < i :: weights[i', j] == Step(old(weights[i', j]), gradW[i', j], lr)
          invariant forall i' | i <= i' < numNodesIn :: weights[i', j] == old(weights[i', j])
          invariant forall i', j' | 0 <= i' < numNodesIn && j < j' < numNodesOut ::
            weights[i', j'] == old(weights[i', j'])
        {
          weights[i, j] := Step(weights[i, j], gradW[i, j], lr);
          i := i + 1;
        }
        j := j + 1;
      }
      SteppedIsDescend(p, lr);
    }

    /** Weights and biases that each took one step against their gradient from the entries of
        `p` are `Descend` of `p`. */
    lemma SteppedIsDescend(p: LayerParams, lr: real)
      requires Valid() && WellShaped(p) && p.nIn == numNodesIn && p.nOut == numNodesOut
      requires forall i, j | 0 <= i < numNodesIn && 0 <= j < numNodesOut ::
        weights[i, j] == Step(p.w[i][j], gradW[i, j], lr)
      requires forall j | 0 <= j < numNodesOut :: biases[j] == Step(p.b[j], gradB[j], lr)
      ensures Params() == Descend(p, Grads(), lr)
    {
      ParamsEqual(Params(), Descend(p, Grads(), lr));
    }

    /** Overwrites every weight with a scaled random draw: `draws[j][i]` is the draw made for
        output node `j` and input node `i`, in the source's loop order, and `root` is the square
        root of the input count. Biases, gradients and shapes are untouched. */
    method InitializeRandomWeights(draws: seq<seq<real>>, root: real)
      requires Valid()
      requires |draws| == numNodesOut && forall j | 0 <= j < numNodesOut :: |draws[j]| == numNodesIn
      requires numNodesIn > 0 ==> root > 0.0
      modifies weights
      ensures Valid()
      ensures Params() == old(Params()).(w := ScaledDraws(numNodesIn, numNodesOut, draws, root))
      ensures Grads() == old(Grads())
    {
      ghost var p := Params();
      ghost var w := ScaledDraws(numNodesIn, numNodesOut, draws, root);
      var j := 0;
      while j < numNodesOut
        invariant 0 <= j <= numNodesOut
        invariant forall i', j' | 0 <= i' < numNodesIn && 0 <= j' < numNodesOut ::
          weights[i', j'] == if j' < j then w[i'][j'] else p.w[i'][j']
      {
        var i := 0;
        while i < numNodesIn
          invariant 0 <= i <= numNodesIn
          invariant forall i', j' | 0 <= i' < numNodesIn && 0 <= j' < numNodesOut ::
            weights[i', j'] == if j' < j || (j' == j && i' < i) then w[i'][j'] else p.w[i'][j']
        {
          weights[i, j] := draws[j][i] / root;
          i := i + 1;
        }
        j := j + 1;
      }
      ParamsEqual(Params(), p.(w := w));
    }
  }
}
