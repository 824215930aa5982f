# worlds_slowest_neural_network — a Dafny model of the training engine

This project models the engine of a tiny dense feed-forward classifier:
- **Labelled samples and their one-hot targets** (`wsnn/data.py`).
- **The dense layer** (`wsnn/layer.py`): shape-checked weight and bias setters, the error-collecting constructor, squared-error node cost, the forward pass, the in-place gradient step and the random weight initialisation.
- **The network** (`wsnn/neural_network.py`): a stack of layers with a forward fold, per-sample and mean cost, first-argmax classification, the "keep the lowest cost" checkpoint logic, and the training step. The training step estimates every gradient by forward differences, nudging one parameter by `h = 0.0001`, re-measuring, restoring and storing, and then moves every parameter against its gradient.

The files:
- `wrappers.dfy`: `Option` and `Result`, which stand in for Python's exceptions.
- `data.dfy`: `create_one_hot` and `DataPoint.__post_init__`, as pure functions.
- `layer_math.dfy`: the layer as values (`LayerParams`, `LayerGrads`). It holds the specification functions the methods are proved against: forward pass, descent step, nudges, the gradient buffers part-way through the training loops, and the shape checks.
- `dense_layer.dfy`: class `Layer` over `array2<real>` weights and gradient buffers and `array<real>` biases and bias gradients.
  - The setters store the caller's array itself, as the source stores the caller's list.
  - `ApplyGradients` and `InitializeRandomWeights` update the arrays in place with nested loops.
- `network_math.dfy`: the network as values. It holds the forward fold, the costs, the forward-difference gradient of every parameter, descent over all layers, first-argmax, and the network the constructor builds.
- `network.dfy`: class `NeuralNetwork`, whose layers are `Layer` objects.
  - Every method is proved against the functions above, through `Params()` and `Grads()`, the network's parameters and gradients read out as values.
  - `Learn` keeps the source's loop structure: layers, then output nodes, then input nodes, then biases. Each loop body is a small method whose contract is the loop's invariant one step further on.

All numbers are mathematical reals. The activation function is a parameter `act: real -> real`.

Two behaviours of the code worth stating plainly:
- **Weight setter errors.** When the row count is wrong, the weights setter raises on that alone and never checks the row lengths (`wsnn/layer.py:43-46`). `LayerMath.WeightsError` states this.
- **Cost widths.** The single-sample cost fails only when the expected vector is shorter than the output; expected entries past the output's width are ignored (`wsnn/neural_network.py:23-25`). `NetworkMath.Fits` and `NetworkMath.SampleCostIgnoresExtra` state this.

## Model

| member | source | states |
|---|---|---|
| Data.Slot | wsnn/data.py:7 | the position an index assignment writes: a non-negative index itself, a negative one counted back from the end, always inside the list |
| Data.CreateOneHot | wsnn/data.py:5-8 | the target has one entry per label (none for a negative count), 1.0 at the label's position and 0.0 everywhere else |
| Data.OneHotIsOneHot | wsnn/data.py:5-8 | a one-hot target has exactly one nonzero entry, at the label's position, and its entries sum to 1 |
| Data.PostInit | wsnn/data.py:18-20 | a supplied target is kept as it is, one-hot or not; an empty one becomes the label's one-hot vector, which fails exactly when the label is out of range; inputs, label and label count never change |
| Data.NewDataPoint | wsnn/data.py:11-20 | building a sample stores the fields, then post-initialises them: an empty target becomes `CreateOneHot(label, num_labels)`, a non-empty one is kept |
| LayerMath.ZeroLayer | wsnn/layer.py:20-28 | the default parameters: an `nIn` by `nOut` weight matrix and `nOut` biases, all zero |
| LayerMath.ZeroGrads | wsnn/layer.py:16-17 | the gradient buffers start all zero, shaped like the weights and biases |
| LayerMath.NodeCost | wsnn/layer.py:59-62 | the squared error is never negative and is zero when the activation equals the expected value |
| LayerMath.WeightsError | wsnn/layer.py:41-47 | the weights setter accepts exactly when there are `nIn` rows of `nOut` weights; a wrong row count is the error reported even if the rows are also wrong; it never reports a bias error |
| LayerMath.BiasesError | wsnn/layer.py:53-57 | the biases setter accepts exactly when there are `nOut` biases; its only error is the bias count |
| LayerMath.ConstructorErrors | wsnn/layer.py:18-35 | the constructor's error list is empty exactly when every given argument passes its setter; it holds at most one weights error followed by at most one biases error; omitted or empty arguments add nothing |
| LayerMath.LayerOutputs | wsnn/layer.py:68-75 | a layer outputs one activation per output node |
| LayerMath.WeightedInput | wsnn/layer.py:71-73 | the accumulator for output node `j` starts at the bias; while every weight into `j` visited so far is zero it is still the bias |
| LayerMath.WeightedInputIgnoresExtra | wsnn/layer.py:72-73 | the accumulation after `k` input nodes reads only the first `k` inputs |
| LayerMath.LayerOutputsIgnoresExtra | wsnn/layer.py:68-75 | inputs past the layer's `nIn` do not change its output |
| LayerMath.Accepts | wsnn/layer.py:70-73 | the layer's loops index the input at every position below `nIn` once per output node, so they stay in range exactly when the input is that wide or there is no output node |
| LayerMath.ZeroLayerOutputs | wsnn/layer.py:68-75 | an all-zero layer outputs `act(0)` on every node, whatever its input |
| LayerMath.Descend | wsnn/layer.py:77-83 | one gradient step: every weight and bias becomes itself minus `lr` times its gradient, and the shape is kept |
| LayerMath.DescendZeroRate | wsnn/layer.py:77-83 | with a zero learning rate the step leaves the parameters as they were |
| LayerMath.ScaledDraws | wsnn/layer.py:85-91 | the initialised weight `(i, j)` times the positive divisor `root` is the draw made for output node `j` and input node `i`, and the matrix keeps its shape |
| LayerMath.ScaledDrawsBounded | wsnn/layer.py:85-91 | draws in [-1, 1] give weights within 1 over the positive divisor `root` |
| LayerMath.NudgeWeight | wsnn/neural_network.py:58 | one weight grows by `d`; every other weight, every bias and the shape are kept |
| LayerMath.NudgeBias | wsnn/neural_network.py:64 | one bias grows by `d`; every other bias, every weight and the shape are kept |
| LayerMath.NudgeWeightUndone | wsnn/neural_network.py:58-60 | adding `h` to a weight and subtracting it again restores the layer exactly |
| LayerMath.NudgeBiasUndone | wsnn/neural_network.py:64-66 | adding `h` to a bias and subtracting it again restores the layer exactly |
| LayerMath.SetWeightGrad | wsnn/neural_network.py:61 | storing one weight gradient changes that entry alone |
| LayerMath.SetBiasGrad | wsnn/neural_network.py:67 | storing one bias gradient changes that entry alone |
| LayerMath.WeightsFrom | wsnn/neural_network.py:56-61 | part-way through the weight loops, exactly the gradients already visited (output node by output node, input node by input node) hold their new values; the bias gradients are untouched |
| LayerMath.BiasesFrom | wsnn/neural_network.py:63-67 | part-way through the bias loop, every weight gradient and the bias gradients before `j` hold their new values |
| LayerMath.WeightsFromNone | wsnn/neural_network.py:56-61 | before the weight loops nothing has been overwritten |
| LayerMath.WeightsFromNext | wsnn/neural_network.py:57-61 | storing gradient `(i, j)` moves the weight loops one step on |
| LayerMath.WeightsFromColumn | wsnn/neural_network.py:56-57 | the end of the inner loop for output node `j` is the start of output node `j + 1` |
| LayerMath.WeightsFromAll | wsnn/neural_network.py:56-63 | the end of the weight loops is the start of the bias loop |
| LayerMath.BiasesFromNext | wsnn/neural_network.py:63-67 | storing bias gradient `j` moves the bias loop one step on |
| LayerMath.BiasesFromAll | wsnn/neural_network.py:63-67 | after the bias loop every gradient of the layer holds its new value |
| DenseLayer.Layer.constructor | wsnn/layer.py:7-28 | without weights or biases, a layer has zero weights and biases, zero gradient buffers of the same shapes, and fresh arrays |
| DenseLayer.Layer.SetWeights | wsnn/layer.py:41-47 | the layer keeps the caller's matrix itself exactly when the weights check passes; otherwise the old weights stay |
| DenseLayer.Layer.SetBiases | wsnn/layer.py:53-57 | the layer keeps the caller's vector itself exactly when the biases check passes; otherwise the old biases stay |
| DenseLayer.Layer.Create | wsnn/layer.py:7-35 | the constructor fails exactly when `ConstructorErrors` is non-empty and then reports that list; on success, given arguments are the layer's own arrays, omitted ones are zero, and the gradients are zero |
| DenseLayer.Layer.CalculateOutputs | wsnn/layer.py:68-75 | the accumulator loops compute `LayerOutputs`: output `j` is `act` of the bias plus the weighted inputs, accumulated in order; nothing changes |
| DenseLayer.Layer.ApplyGradients | wsnn/layer.py:77-83 | in place, every weight and bias loses `lr` times its stored gradient, which is `Descend` of the old parameters; gradients and shapes are unchanged |
| DenseLayer.Layer.SteppedIsDescend | wsnn/layer.py:77-83 | arrays that each took one step from a layer value hold `Descend` of that value |
| DenseLayer.Layer.InitializeRandomWeights | wsnn/layer.py:85-91 | only the weights change, to `ScaledDraws` of the draws; biases, gradients and shapes are unchanged |
| NetworkMath.Forward | wsnn/neural_network.py:14-17 | with no layers the input comes back unchanged; otherwise the output has the last layer's width |
| NetworkMath.ChainedFeeds | wsnn/neural_network.py:14-17 | when each layer's output width is the next layer's input width, any input as wide as the first layer passes through every layer |
| NetworkMath.Feeds | wsnn/neural_network.py:14-17 | the input can be handed through every layer: each layer accepts the width of the vector it receives |
| NetworkMath.CostPrefix | wsnn/neural_network.py:21-26 | the running sum of squared errors is never negative |
| NetworkMath.SampleCost | wsnn/neural_network.py:23-28 | the per-output cost sum is never negative |
| NetworkMath.CostPrefixIgnoresExtra | wsnn/neural_network.py:23-26 | the running sum reads no expected entry at or past the output's width: two expected vectors that agree below it give the same sum |
| NetworkMath.SampleCostIgnoresExtra | wsnn/neural_network.py:23-28 | expected entries past the output's width do not change a sample's cost |
| NetworkMath.ExactOutputsCostNothing | wsnn/neural_network.py:19-28 | outputs equal to the expected values cost nothing |
| NetworkMath.Fits | wsnn/neural_network.py:19-26 | a sample's cost can be computed: its inputs feed the network and it has an expected value at every output position |
| NetworkMath.Cost | wsnn/neural_network.py:19-28 | the cost of a sample is never negative |
| NetworkMath.TotalCost | wsnn/neural_network.py:30-34 | the summed cost over samples is never negative |
| NetworkMath.MeanCost | wsnn/neural_network.py:30-36 | the mean cost of a non-empty dataset is never negative |
| NetworkMath.SameShapesFeed | wsnn/neural_network.py:58-59 | changing parameter values but not shapes keeps every input runnable, with the same output width |
| NetworkMath.SameShapesFit | wsnn/neural_network.py:58-59 | the nudged network still runs on every sample, so the cost can be measured again |
| NetworkMath.Slope | wsnn/neural_network.py:53-61 | with `h = 0.0001` (`NetworkMath.H`), the stored forward difference times `h`, added to the baseline cost, gives the nudged cost |
| NetworkMath.NudgeLayerWeight | wsnn/neural_network.py:58 | nudging a weight of layer `l` changes that layer alone, and keeps every shape |
| NetworkMath.NudgeLayerBias | wsnn/neural_network.py:64 | nudging a bias of layer `l` changes that layer alone, and keeps every shape |
| NetworkMath.NudgeLayerWeightUndone | wsnn/neural_network.py:58-60 | the nudge and its reversal restore the whole network |
| NetworkMath.NudgeLayerBiasUndone | wsnn/neural_network.py:64-66 | the nudge and its reversal restore the whole network |
| NetworkMath.LayerGradients | wsnn/neural_network.py:55-67 | layer `l`'s gradients are shaped like the layer; each entry is the forward difference for its own parameter, measured against one baseline |
| NetworkMath.WeightGradient | wsnn/neural_network.py:53-61 | the forward difference of the mean cost in one weight: positive exactly when raising that weight by `h` raises the mean cost, zero exactly when it leaves the cost unchanged |
| NetworkMath.BiasGradient | wsnn/neural_network.py:53-67 | the forward difference of the mean cost in one bias: positive exactly when raising that bias by `h` raises the mean cost, zero exactly when it leaves the cost unchanged |
| NetworkMath.WeightGradientRecovers | wsnn/neural_network.py:58-61 | raising a weight by `h` moves the mean cost by exactly `h` times its estimated gradient |
| NetworkMath.BiasGradientRecovers | wsnn/neural_network.py:64-67 | raising a bias by `h` moves the mean cost by exactly `h` times its estimated gradient |
| NetworkMath.DescendAll | wsnn/neural_network.py:42-44 | every layer takes its own gradient step, and layer count and shapes are kept |
| NetworkMath.DescendAllZeroRate | wsnn/neural_network.py:42-44 | with a zero learning rate no layer moves |
| NetworkMath.EstimatedGradients | wsnn/neural_network.py:55-67 | every layer's gradients, as the training step estimates them, shaped like the layers |
| NetworkMath.IsFirstMax | wsnn/neural_network.py:40 | `outputs.index(max(outputs))`: a position holding a value no smaller than any other, with every earlier value strictly smaller |
| NetworkMath.FirstMaxPosition | wsnn/neural_network.py:38-40 | every non-empty output has a first position of its maximum, found by a left-to-right scan that moves only on a strictly larger value |
| NetworkMath.FirstMaxUnique | wsnn/neural_network.py:38-40 | the first position of the maximum is unique |
| NetworkMath.ZeroNetwork | wsnn/neural_network.py:9-12 | one layer per consecutive pair of sizes, none for fewer than two sizes; layer `k` is all zero with `sizes[k]` inputs and `sizes[k + 1]` outputs |
| NetworkMath.ZeroNetworkFeeds | wsnn/neural_network.py:9-12 | the built layers are chained (each output width is the next input width), so any input as wide as the first size runs through them |
| NetworkMath.ZeroNetworkGrads | wsnn/neural_network.py:9-12 | every layer's gradient buffers start at zero |
| NetworkMath.ZeroNetworkOutputs | wsnn/neural_network.py:14-17 | a freshly built network outputs `act(0)` on every node of its last layer |
| Network.NeuralNetwork.constructor | wsnn/neural_network.py:8-12 | the network holds `ZeroNetwork(sizes)` with zero gradients, every layer's weight, bias and gradient arrays are newly allocated, the lowest cost is 1, and no checkpoint has been written |
| Network.NeuralNetwork.ZeroLayers | wsnn/neural_network.py:11-12 | the construction loop builds one zero layer per pair of sizes, every array newly allocated and no two of them sharing an array |
| Network.NeuralNetwork.PushZeroLayer | wsnn/neural_network.py:12 | appends one zero layer whose four arrays are newly allocated, keeps the earlier layers' arrays as they were, and keeps every layer's arrays apart |
| Network.ZeroStack | wsnn/neural_network.py:9-12 | the layers so built read out as `ZeroNetwork(sizes)` and `ZeroNetworkGrads(sizes)` |
| Network.NeuralNetwork.CalculateOutputs | wsnn/neural_network.py:14-17 | the loop over layers computes `Forward`; nothing changes |
| Network.NeuralNetwork.Cost | wsnn/neural_network.py:19-28 | the loop over outputs computes `NetworkMath.Cost`; nothing changes |
| Network.NeuralNetwork.CostMultiple | wsnn/neural_network.py:30-36 | fails exactly on an empty dataset, where the division is by zero; otherwise gives `MeanCost`; nothing changes |
| Network.NeuralNetwork.Classify | wsnn/neural_network.py:38-40 | fails exactly when the output is empty; otherwise gives the first position of the maximum output; nothing changes |
| Network.NeuralNetwork.FirstMaxIndex | wsnn/neural_network.py:40 | the maximum scan followed by the index search gives the first position of the maximum |
| Network.NeuralNetwork.ApplyAllGradients | wsnn/neural_network.py:42-44 | every layer takes its gradient step in order, giving `DescendAll`; gradients unchanged |
| Network.NeuralNetwork.StepLayer | wsnn/neural_network.py:43-44 | one layer takes its step; every other layer and every gradient stays |
| Network.NeuralNetwork.SaveWeightsAndBiases | wsnn/neural_network.py:46-50 | a strictly lower cost writes a checkpoint of the whole network, holding the previous lowest cost, and becomes the lowest cost; any other cost changes nothing; the lowest cost never rises, and every checkpoint's cost is above the current lowest and below the one written before it |
| Network.NeuralNetwork.Learn | wsnn/neural_network.py:52-69 | empty data fails before anything changes; otherwise the gradients become `EstimatedGradients` of the entry parameters and the parameters become `DescendAll` of them; with a zero rate the parameters end as they began |
| Network.NeuralNetwork.EstimateAllGradients | wsnn/neural_network.py:55-67 | after the loop over layers, every gradient is the estimated one and every parameter is back at its entry value |
| Network.NeuralNetwork.EstimateLayerStep | wsnn/neural_network.py:55-67 | estimating layer `l` moves the layer loop one step on |
| Network.NeuralNetwork.EstimateLayerGradients | wsnn/neural_network.py:56-67 | layer `l`'s gradients become `LayerGradients`; every other gradient and every parameter is unchanged |
| Network.NeuralNetwork.EstimateLayerWeights | wsnn/neural_network.py:56-61 | the weight loops overwrite all the layer's weight gradients and leave the parameters as they were |
| Network.NeuralNetwork.EstimateWeightColumn | wsnn/neural_network.py:57-61 | the inner loop for output node `j` moves the weight loops on to output node `j + 1` |
| Network.NeuralNetwork.ProbeWeightStep | wsnn/neural_network.py:58-61 | one probe moves the weight loops one step on |
| Network.NeuralNetwork.EstimateLayerBiases | wsnn/neural_network.py:63-67 | the bias loop overwrites all the layer's bias gradients and leaves the parameters as they were |
| Network.NeuralNetwork.ProbeBiasStep | wsnn/neural_network.py:64-67 | one probe moves the bias loop one step on |
| Network.NeuralNetwork.ProbeWeight | wsnn/neural_network.py:58-61 | nudge, re-measure, restore and store: the weight's gradient entry becomes `WeightGradient`; nothing else changes |
| Network.NeuralNetwork.ProbeBias | wsnn/neural_network.py:64-67 | nudge, re-measure, restore and store: the bias's gradient entry becomes `BiasGradient`; nothing else changes |
| Network.NeuralNetwork.WeightNudgedCost | wsnn/neural_network.py:58-60 | gives the mean cost of the network with one weight raised by `h`, and leaves the weight as it was |
| Network.NeuralNetwork.BiasNudgedCost | wsnn/neural_network.py:64-66 | gives the mean cost of the network with one bias raised by `h`, and leaves the bias as it was |
| Network.NeuralNetwork.NudgeWeightBy | wsnn/neural_network.py:58 | `weights[i][j] += d` in layer `l` is `NudgeLayerWeight`; gradients unchanged |
| Network.NeuralNetwork.NudgeBiasBy | wsnn/neural_network.py:64 | `biases[j] += d` in layer `l` is `NudgeLayerBias`; gradients unchanged |
| Network.NeuralNetwork.StoreWeightGradient | wsnn/neural_network.py:61 | writes one weight gradient of layer `l` and nothing else |
| Network.NeuralNetwork.StoreBiasGradient | wsnn/neural_network.py:67 | writes one bias gradient of layer `l` and nothing else |

## Left out

- `wsnn/main.py` (Tk window, plotting, loading the checkpoint, random datasets, the rescheduling loop) and `wsnn/pep_horror.py` (a thread and a deque feeding a label) are GUI, I/O and concurrency glue and are not part of this model.
- The activation `1 / (1 + exp(x))` is floating-point code with an overflow error for large inputs. It is the parameter `act`, and no bound on outputs is claimed.
- Floating point: every number is a real. Rounding is not modelled. Restoring a nudged parameter exactly (`NudgeWeightUndone`) holds over the reals, not over doubles.
- The checkpoint file: `pickle.dump` to `train.pkl` is modelled by appending to the ghost list `checkpoints`. The file name, the serialisation format and write failures are not modelled.
- Randomness: the `random.uniform` draws are a parameter of `InitializeRandomWeights`. That draws lie in [-1, 1] is a premise of `ScaledDrawsBounded`.
- The divisor: `root` stands for the float `num_nodes_in ** (1 / 2)` (`wsnn/layer.py:91`). It is a parameter that must be positive when there are input nodes. Its being the rounded square root is not stated, since no floating-point value squares exactly to 2 or 6.
- Replacing a network layer's parameters: the network's invariant fixes each layer's weight and bias arrays to the ones it was built with. Calling `SetWeights` or `SetBiases` on a layer already in a network gives up that invariant, so the model's network methods cannot be used afterwards. The source allows assigning new lists to such a layer (`wsnn/layer.py:41-57`).
- Ragged lists: weights are a rectangular `array2`. A weights argument whose rows differ in length cannot be given, so the row-length error arises only for a rectangular matrix of the wrong width. A layer with no input nodes holds an empty row list whatever its column count.
- Negative sizes: layer sizes are `nat`. Python's `[0.0] * n` with negative `n` is modelled only in `CreateOneHot` (`RepeatLength`).
- Exceptions: messages and the `Exception(*exceptions)` packaging are replaced by `ShapeError` lists in a `Result`. A failed `Create` returns no layer, as the raised exception discards it.
- Index errors the source raises instead of returning are preconditions:
  - an input narrower than a layer (`Accepts`, `Feeds`);
  - an expected-output vector narrower than the output (`Fits`);
  - an out-of-range label in `CreateOneHot`. `PostInit` turns that one into `Failure(LabelOutOfRange)`.
- Aliasing: the setters keep the caller's array, as the source keeps the caller's list.
  - `SetWeights` and `SetBiases` require that array not to be the layer's own gradient buffer.
  - Within a network no two layers share an array (`Stacked`). The network constructor builds every layer with newly allocated arrays; sharing introduced by outside code is not modelled.
- Aliased rows: a weights list whose rows are one list object (such as `[[0.0] * n] * m`) cannot be given, since an `array2` has distinct rows. The source's in-place loops would update every aliased row at once; the model does not capture that.
- The network's list of layers is fixed once built; the source never reassigns it.
- `lowest_cost` starts as the integer 1 in the source and is the real 1.0 here; the comparisons agree.
- LayerMath.NodeCost: proves only that equal values cost zero, not the converse (a nonzero difference costs something positive), because the solver does not carry that non-linear fact over the reals.
