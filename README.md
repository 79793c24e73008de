# Universal Function Approximator: the training core in Dafny

This project models the neural-network core of the Universal Function
Approximator, a Java program that fits a small feed-forward network to a
one-dimensional function by mini-batch gradient descent. The model covers
these parts of the core:

- `DenseLayer`: the forward pass, which caches its inputs and weighted sums,
  the backward pass, the descent step and the empty gradients. It is a class
  whose weights live in an `array2<real>` and whose biases live in an
  `array<real>`, as in Java.
- `GradientPackage` and its in-place `add`.
- `NeuralNetwork`: `add`, `predict`, `backward`, `applyGradients` and
  `createEmptyGradientsList`.
- `MeanSquaredError`: `compute` and `derivative`.
- `BatchTask.call`.
- `Trainer.train`: shuffling, cutting the data into mini-batches and
  sub-batches, the per-thread tasks, the reduction of their totals,
  averaging, the descent step, skipping a mini-batch that fails, and the
  epoch reports.
- `DataNormalizer`, which maps a data range onto `[-1, 1]` and back.

Each imperative Java method is a Dafny method whose contract ties its result
or new state to a specification function on values:

- module `LayerMath` holds the layer functions;
- module `NetworkMath` holds the network functions;
- module `Loss` holds the loss functions;
- module `TrainingMath` holds the functions `Sample`, `Task`, `Reduce`,
  `Update`, `MiniBatchStep`, `EpochUpTo` and `TrainUpTo`.

Properties of those functions are proved as lemmas:

- The backward pass chains each layer's input gradient into the layer before
  it, and that input gradient is the adjoint of the weights.
- The MSE gradient is the derivative of the MSE.
- Gradient accumulation is associative, with zero as its unit.
- The mini-batches and sub-batches tile the data.
- When the sub-batch tasks run one after another (see "Threads" under
  Left out), their reduction equals one task over the whole mini-batch,
  whatever the number of threads.
- A mini-batch with a bad sample changes nothing.
- Exactly the epochs `k` with `k % printInterval == 0 || k == epochs` are
  reported, each once and in order.
- Normalizing and denormalizing are inverse to each other.

Failures that Java raises as exceptions become `Result` values. `compute`
and `derivative` fail with `LengthMismatch`, and `applyGradients` fails with
`GradientCountMismatch`.

## Model

| member | source | states |
|---|---|---|
| Layers.DenseLayer.constructor | src/ifndef/nn/core/DenseLayer.java:18-34 | a fresh layer with the given sizes and activation: weights of shape outputSize×inputSize, all biases zero, empty caches |
| Layers.DenseLayer.Forward | src/ifndef/nn/core/DenseLayer.java:37-60 | the output is the activation applied to weights·inputs + biases, unit by unit; the inputs and weighted sums are cached for the backward pass; the parameters do not change |
| Layers.DenseLayer.UnitOf | src/ifndef/nn/core/DenseLayer.java:44-57 | output unit i: its weighted sum and the activation of that sum |
| Layers.DenseLayer.WeightedSumOf | src/ifndef/nn/core/DenseLayer.java:45-49 | the weighted sum of unit i is row i of the weights dotted with the inputs, plus bias i |
| Layers.DenseLayer.Backward | src/ifndef/nn/core/DenseLayer.java:63-93 | a fresh package holding exactly the layer gradients of `LayerMath.Backward` for the cached forward call |
| Layers.DenseLayer.InputGradientOf | src/ifndef/nn/core/DenseLayer.java:77-83 | the input gradient is the transposed weights applied to the local gradient |
| Layers.DenseLayer.ParameterGradientsOf | src/ifndef/nn/core/DenseLayer.java:85-90 | the weight gradients are the outer product of the local gradient and the cached inputs; the bias gradients are the local gradient |
| Layers.DenseLayer.ApplyGradients | src/ifndef/nn/core/DenseLayer.java:96-107 | every weight and bias moves by -learningRate times its gradient; the sizes and activation stay the same |
| Layers.DenseLayer.DescendRow | src/ifndef/nn/core/DenseLayer.java:100-106 | one weight row and its bias take the descent step; every other row is unchanged |
| Layers.DenseLayer.CreateEmptyGradients | src/ifndef/nn/core/DenseLayer.java:110-116 | a fresh package of zeros shaped like the layer |
| LayerMath.WeightedSums | src/ifndef/nn/core/DenseLayer.java:45-49 | entry i is the dot product of row i with the input, plus bias i, for each of the outputSize units |
| LayerMath.ForwardUnits | src/ifndef/nn/core/DenseLayer.java:44-57 | output unit i of a layer is the activation's value at its weighted sum, or the weighted sum itself when the activation is null |
| LayerMath.BackwardEntries | src/ifndef/nn/core/DenseLayer.java:63-93 | weight gradient [i][j] is local gradient i times cached input j; the bias gradients are the local gradients; input gradient j sums local gradient i times weight [i][j] |
| LayerMath.InputGradientIsAdjoint | src/ifndef/nn/core/DenseLayer.java:77-83 | for every direction v, ⟨v, input gradient⟩ = ⟨local gradient, W·v⟩, so the input gradient is Wᵀ applied to the local gradient |
| LayerMath.ApplyNoop | src/ifndef/nn/core/DenseLayer.java:96-107 | a zero learning rate, or an all-zero gradient, leaves the layer unchanged |
| LayerMath.ApplyShape | src/ifndef/nn/core/DenseLayer.java:96-107 | a descent step keeps the layer well shaped and keeps its sizes and activation |
| LayerMath.AddGradientZero | src/ifndef/nn/core/GradientPackage.java:28-38 | adding an all-zero package leaves a package unchanged |
| LayerMath.AddGradientCommutes | src/ifndef/nn/core/GradientPackage.java:28-38 | the weight and bias parts of `add` do not depend on the order of its operands |
| LayerMath.AddGradientAssociates | src/ifndef/nn/core/GradientPackage.java:28-38 | `add` is associative and keeps the layer's shape |
| Gradients.GradientPackage.constructor | src/ifndef/nn/core/GradientPackage.java:10-14 | the package holds the given weight, bias and input gradients |
| Gradients.GradientPackage.Add | src/ifndef/nn/core/GradientPackage.java:28-38 | the other package's weight and bias gradients are added in place, entry by entry; the input gradient is not accumulated |
| Gradients.GradientPackage.AddWeightGradients | src/ifndef/nn/core/GradientPackage.java:29-33 | the weight gradients become the entrywise sum; the biases and input gradient are unchanged |
| Gradients.GradientPackage.AddBiasGradients | src/ifndef/nn/core/GradientPackage.java:35-37 | the bias gradients become the entrywise sum; the weights and input gradient are unchanged |
| GradientLists.AddAll | src/ifndef/nn/training/BatchTask.java:36-38 | package k of `others` is added into package k of `totals`, for every k; `others` is unchanged |
| Tasks.Accumulate | src/ifndef/nn/training/Trainer.java:69-71 | the accumulation loop adds the list layer by layer and does not touch the network's parameters |
| Loss.Compute | src/ifndef/nn/loss/MeanSquaredError.java:7-20 | fails exactly when the lengths differ; otherwise the mean of the squared differences |
| Loss.Derivative | src/ifndef/nn/loss/MeanSquaredError.java:22-37 | fails exactly when the lengths differ; otherwise entry i is (2/n)(p[i] - t[i]) |
| Loss.MseNonnegative | src/ifndef/nn/loss/MeanSquaredError.java:7-20 | the MSE is never negative, and it is zero when the prediction equals the target |
| Loss.MseGradientZeroIffEqual | src/ifndef/nn/loss/MeanSquaredError.java:22-37 | the gradient is all zeros if and only if the prediction equals the target |
| Loss.MseGradientIsDerivative | src/ifndef/nn/loss/MeanSquaredError.java:22-37 | moving prediction i by h changes the MSE by exactly h·gradient[i] + h²/n, so `derivative` is the derivative of `compute` |
| Loss.MseExample | src/ifndef/nn/loss/MeanSquaredError.java:7-37 | a worked example: MSE([0],[2]) = 4 and gradient [-4] |
| Networks.NeuralNetwork.constructor | src/ifndef/nn/core/NeuralNetwork.java:11 | a network starts without layers |
| Networks.NeuralNetwork.Add | src/ifndef/nn/core/NeuralNetwork.java:13-15 | the layer is appended after the existing ones |
| Networks.NeuralNetwork.Predict | src/ifndef/nn/core/NeuralNetwork.java:17-23 | the output is the layers' forward passes composed in order; every layer caches what it saw; the parameters do not change |
| Networks.NeuralNetwork.ForwardAt | src/ifndef/nn/core/NeuralNetwork.java:19-21 | one iteration of the predict loop: layer k's output, with only layer k's cache changed |
| Networks.NeuralNetwork.Backward | src/ifndef/nn/core/NeuralNetwork.java:25-36 | fresh, distinct packages in layer order equal to `NetBackward`: the last layer receives the loss gradient and each earlier layer the input gradient of the layer after it; nothing changes |
| Networks.NeuralNetwork.BackwardAt | src/ifndef/nn/core/NeuralNetwork.java:29-33 | one iteration of the backward loop: layer i's package is put in front, and its input gradient is passed down |
| Networks.NeuralNetwork.ApplyGradients | src/ifndef/nn/core/NeuralNetwork.java:38-46 | a list of the wrong length fails with `GradientCountMismatch` and changes nothing; otherwise package k is applied to layer k, for every k |
| Networks.NeuralNetwork.ApplyAt | src/ifndef/nn/core/NeuralNetwork.java:43-45 | one iteration of the apply loop: only layer k changes |
| Networks.NeuralNetwork.CreateEmptyGradientsList | src/ifndef/nn/core/NeuralNetwork.java:48-54 | one fresh, distinct zero package per layer, in layer order |
| NetworkMath.PredictUpTo | src/ifndef/nn/core/NeuralNetwork.java:17-23 | after zero layers the input is returned; after k layers the result has layer k-1's output size and fits layer k |
| NetworkMath.ZeroGradients | src/ifndef/nn/core/NeuralNetwork.java:48-54 | one all-zero gradient of each layer's shape |
| NetworkMath.CachesReady | src/ifndef/nn/core/NeuralNetwork.java:17-23 | after predict, every layer's cache fits the layer, and the output length fits the backward pass |
| NetworkMath.NetBackwardAt | src/ifndef/nn/core/NeuralNetwork.java:25-36 | entry k of the backward list is layer k's gradients |
| NetworkMath.BackwardChain | src/ifndef/nn/core/NeuralNetwork.java:25-36 | the last layer takes the loss gradient; layer i takes the input gradient of layer i+1 |
| NetworkMath.NetBackwardFits | src/ifndef/nn/core/NeuralNetwork.java:25-36 | the backward pass gives one gradient of each layer's exact shape |
| NetworkMath.ApplyAllKeepsShapes | src/ifndef/nn/core/NeuralNetwork.java:38-46 | a descent step keeps the network chained and every layer's sizes |
| NetworkMath.ApplyAllNoop | src/ifndef/nn/core/NeuralNetwork.java:38-46 | a zero learning rate, or all-zero gradients, leave every layer as it was |
| NetworkMath.SameShapesFit | src/ifndef/nn/core/NeuralNetwork.java:38-46 | networks of the same shape accept the same inputs, give outputs of the same length and fit the same gradients |
| NetworkMath.AddGradientsAssociate | src/ifndef/nn/training/Trainer.java:63-72 | accumulating gradient lists is associative |
| NetworkMath.AddZeroGradients | src/ifndef/nn/training/Trainer.java:48-72 | adding the empty list to a list gives the list back |
| NetworkMath.AddZeroGradientsLeft | src/ifndef/nn/training/Trainer.java:48-72 | adding a list to the empty list gives it back, when its input gradients are zero |
| Partition.CeilDiv | src/ifndef/nn/training/Trainer.java:34 | `ceil(a / b)` is the least q with q·b ≥ a |
| Partition.ChunkBounds | src/ifndef/nn/training/Trainer.java:42-45 | every mini-batch index below numBatches gives a non-empty range within the data |
| Partition.MiniBatch | src/ifndef/nn/training/Trainer.java:42-45 | a mini-batch holds between 1 and batchSize samples of the data |
| Partition.ChunksTile | src/ifndef/nn/training/Trainer.java:34-45 | the mini-batches cut the data into consecutive pieces; all but the last hold batchSize samples, and the last holds 1 to batchSize |
| Partition.TilesOrdered | src/ifndef/nn/training/Trainer.java:40-45 | the ranges of a tiling are ordered and disjoint |
| Partition.TilesCover | src/ifndef/nn/training/Trainer.java:40-45 | every sample index lies in some range of a tiling |
| Partition.SubmittedPrefix | src/ifndef/nn/training/Trainer.java:53-61 | the ranges submitted by the first t threads are the first chunks of size subBatchSize |
| Partition.SubmittedTiles | src/ifndef/nn/training/Trainer.java:51-61 | the submitted sub-batches tile the mini-batch, and there are at most numThreads of them |
| Partition.SubmittedAreChunks | src/ifndef/nn/training/Trainer.java:51-61 | a non-empty mini-batch is cut into chunks of size ceil(m / numThreads), at most numThreads of them |
| Tasks.BatchTask.constructor | src/ifndef/nn/training/BatchTask.java:16-20 | the batch task keeps its network and sub-batch |
| Tasks.BatchTask.Call | src/ifndef/nn/training/BatchTask.java:23-42 | the result is `Task` of the network over the sub-batch, in fresh, distinct packages, or its failure; the parameters do not change |
| Tasks.BatchTask.AddSample | src/ifndef/nn/training/BatchTask.java:28-39 | one sample iteration extends the totals to the first n+1 samples, or ends the batch task with the failure of the whole task |
| Tasks.BatchTask.Conclude | src/ifndef/nn/training/BatchTask.java:31-38 | adding a sample's loss and gradients gives the totals of n+1 samples; a failed loss fails the batch task |
| Tasks.BatchTask.Absorb | src/ifndef/nn/training/BatchTask.java:36-38 | the sample's gradients added into the totals give the totals of the first n+1 samples |
| Tasks.BatchTask.RunSample | src/ifndef/nn/training/BatchTask.java:29-34 | the sample's loss and fresh gradients are `Sample`, or its failure; packages outside the network keep their contents |
| Tasks.BatchTask.Forecast | src/ifndef/nn/training/BatchTask.java:29 | the prediction is `Predict` of the sample's inputs, with the caches set |
| Tasks.BatchTask.Score | src/ifndef/nn/training/BatchTask.java:31-34 | the loss and the backward pass agree with `Sample`, or give its failure |
| Tasks.BatchTask.Evaluate | src/ifndef/nn/training/BatchTask.java:31-32 | fails exactly when the prediction and target lengths differ; otherwise gives the MSE and its gradient |
| Tasks.BatchTask.Backpropagate | src/ifndef/nn/training/BatchTask.java:34 | the backward pass from the loss gradient gives the sample's gradients |
| TrainingMath.Task | src/ifndef/nn/training/BatchTask.java:23-42 | a successful task holds one gradient per layer of the layer's shape, with input gradients still zero |
| TrainingMath.TaskFails | src/ifndef/nn/training/BatchTask.java:28-39 | a task fails if and only if some sample's targets differ in length from the network output, and then with `LengthMismatch` |
| TrainingMath.TaskSnoc | src/ifndef/nn/training/BatchTask.java:28-39 | a task over one more sample combines the sample's totals into the previous totals |
| TrainingMath.TaskExtend | src/ifndef/nn/training/BatchTask.java:28-39 | after a successful sample, the batch task totals are the sums of gradients and losses |
| TrainingMath.TaskStops | src/ifndef/nn/training/BatchTask.java:28-39 | the first failing sample's failure is the batch task's result |
| TrainingMath.SampleSucceeds | src/ifndef/nn/training/BatchTask.java:29-34 | a prediction of the targets' length gives the backward pass of the MSE gradient and the MSE loss |
| TrainingMath.SampleFails | src/ifndef/nn/training/BatchTask.java:29-31 | a prediction of another length gives `LengthMismatch` |
| TrainingMath.EmptyOutputMismatches | src/ifndef/nn/loss/MeanSquaredError.java:8-10 | a sample with targets, for a network without outputs, fails with `LengthMismatch`, and a mini-batch holding it leaves the parameters and loss unchanged |
| TrainingMath.CombineSuccess | src/ifndef/nn/training/Trainer.java:64-71 | two successes combine to the sums of their gradients and losses |
| TrainingMath.CombineZeroRight | src/ifndef/nn/training/Trainer.java:63-72 | adding zero totals changes nothing |
| TrainingMath.CombineZeroLeft | src/ifndef/nn/training/Trainer.java:63-72 | accumulated totals added to a zero start are unchanged |
| TrainingMath.CombineAssociates | src/ifndef/nn/training/Trainer.java:63-72 | combining totals is associative, failures included |
| TrainingMath.TaskSplit | src/ifndef/nn/training/Trainer.java:51-72 | splitting samples between two tasks and adding their totals gives the totals of one task over all of them |
| TrainingMath.ReducePrefix | src/ifndef/nn/training/Trainer.java:64-71 | the reduction over one more sub-batch adds that task's totals |
| TrainingMath.ReduceFailsFrom | src/ifndef/nn/training/Trainer.java:63-72 | once the reduction has failed, the whole reduction fails |
| TrainingMath.ReduceTiles | src/ifndef/nn/training/Trainer.java:53-72 | sub-batches that tile a prefix reduce to one task over that prefix |
| TrainingMath.ReduceIsTask | src/ifndef/nn/training/Trainer.java:51-72 | when the sub-batch tasks run one after another (see Left out: Threads), the reduction of their totals equals one task over the whole mini-batch, for any thread count |
| TrainingMath.MiniBatchStepIsFullBatch | src/ifndef/nn/training/Trainer.java:47-90 | when the sub-batch tasks run one after another (see Left out: Threads), a mini-batch step is the full-batch update, the same for any number of threads as for one |
| TrainingMath.MiniBatchFailureSkips | src/ifndef/nn/training/Trainer.java:47-94 | a mini-batch with a sample of mismatched length changes neither the parameters nor the epoch loss |
| TrainingMath.MiniBatchSuccessApplies | src/ifndef/nn/training/Trainer.java:74-89 | without such a sample, the step applies the gradient average once and adds the mini-batch loss |
| TrainingMath.SameShapesUsable | src/ifndef/nn/training/Trainer.java:87 | samples usable before a descent step stay usable after it |
| TrainingMath.ShuffleUsable | src/ifndef/nn/training/Trainer.java:37 | a shuffled order of usable samples is usable |
| TrainingMath.EpochStep | src/ifndef/nn/training/Trainer.java:40-95 | mini-batch b takes the epoch from its state after b mini-batches to its state after b+1 |
| TrainingMath.ReportedEpochsAre | src/ifndef/nn/training/Trainer.java:97-100 | the reported epochs are exactly the k in 1..e with k % printInterval == 0 or k == epochs, increasing |
| TrainingMath.EpochsExtend | src/ifndef/nn/training/Trainer.java:97-100 | an epoch adds its report exactly when it is reported |
| TrainingMath.TrainUpToReports | src/ifndef/nn/training/Trainer.java:97-100 | epoch e's report, if any, is appended to the reports of the epochs before it |
| TrainingMath.TrainReports | src/ifndef/nn/training/Trainer.java:36-101 | the reports after e epochs are for exactly the reported epochs, once each, in order |
| Training.Trainer.constructor | src/ifndef/nn/training/Trainer.java:21-29 | the trainer keeps its network, learning rate and positive thread count |
| Training.Trainer.Train | src/ifndef/nn/training/Trainer.java:31-104 | the final parameters and reports are `TrainUpTo` after all epochs, and exactly the epochs with epoch % printInterval == 0 or epoch == epochs are reported, in order, each with its summed loss divided by the number of samples |
| Training.Trainer.TrainEpoch | src/ifndef/nn/training/Trainer.java:36-101 | one epoch takes training from its state after epoch-1 epochs to its state after epoch |
| Training.Trainer.RunEpoch | src/ifndef/nn/training/Trainer.java:38-95 | the mini-batch loop leaves the parameters and summed loss of `Epoch` over the epoch's order |
| Training.Trainer.NextBatch | src/ifndef/nn/training/Trainer.java:40-95 | one mini-batch iteration moves the epoch from stage b to stage b+1 |
| Training.Trainer.TrainBatch | src/ifndef/nn/training/Trainer.java:42-94 | mini-batch b of the order goes through `MiniBatchStep` |
| Training.Slice | src/ifndef/nn/training/Trainer.java:42-44 | the subList is mini-batch b |
| Training.Trainer.RunMiniBatch | src/ifndef/nn/training/Trainer.java:47-94 | the new parameters and loss are `MiniBatchStep`: a failed reduction applies nothing and keeps the loss |
| Training.Trainer.Descend | src/ifndef/nn/training/Trainer.java:74-89 | the summed gradients are divided by the mini-batch size and applied, and the mini-batch loss is added |
| Training.Trainer.Submit | src/ifndef/nn/training/Trainer.java:51-61 | one task per non-empty sub-batch [t·s, min(t·s+s, m)), in thread order, with s = ceil(m / numThreads) |
| Training.Trainer.Collect | src/ifndef/nn/training/Trainer.java:63-72 | the results are taken in submission order into the totals: the outcome is `Reduce`, or a failure when `Reduce` fails |
| Training.Trainer.CollectOne | src/ifndef/nn/training/Trainer.java:64-71 | one more task result extends the reduction to one more sub-batch |
| Training.Trainer.RunTask | src/ifndef/nn/training/Trainer.java:59-65 | a task's result is `Task` over its sub-batch, in fresh packages; the other packages keep their contents |
| Training.Average | src/ifndef/nn/training/Trainer.java:74-85 | every package's weight and bias gradients are divided by the mini-batch size in place; input gradients are untouched |
| Training.DivideWeightGradients | src/ifndef/nn/training/Trainer.java:76-80 | every weight-gradient entry is divided by the mini-batch size; the rest is unchanged |
| Training.DivideBiasGradients | src/ifndef/nn/training/Trainer.java:82-84 | every bias-gradient entry is divided by the mini-batch size; the rest is unchanged |
| Normalization.DataNormalizer.Normalize | src/ifndef/nn/util/DataNormalizer.java:22-28 | a one-point range gives 0, the middle of [-1, 1]; otherwise the value sits in [-1, 1] as it sits in [dataMin, dataMax] |
| Normalization.DataNormalizer.Denormalize | src/ifndef/nn/util/DataNormalizer.java:30-36 | the linear map of [-1, 1] onto [dataMin, dataMax] |
| Normalization.NormalizeEnds | src/ifndef/nn/util/DataNormalizer.java:22-28 | dataMin goes to -1 and dataMax to 1 |
| Normalization.NormalizeMonotone | src/ifndef/nn/util/DataNormalizer.java:22-28 | normalizing is strictly increasing for an increasing range and strictly decreasing for a decreasing one |
| Normalization.DenormalizeEnds | src/ifndef/nn/util/DataNormalizer.java:30-36 | -1 goes to dataMin and 1 to dataMax |
| Normalization.RoundTrip | src/ifndef/nn/util/DataNormalizer.java:22-36 | with a proper range, denormalize undoes normalize and normalize undoes denormalize |
| Normalization.DegenerateRange | src/ifndef/nn/util/DataNormalizer.java:22-36 | with a one-point range, every value normalizes to 0 and denormalizes back to that point, not to the value |

## Left out

- Floating point: every `double` is a Dafny `real`. Rounding, NaN and infinities are not modelled. Accumulation is therefore exactly associative. The thread-count independence results rely on that and on the tasks running one after another (see Threads).
- Sigmoid and Tanh: `Math.exp` and `Math.tanh` are transcendental. An activation is any pair of real functions, `value` and `derivative`, and `null` (the linear layer) is `None`. Nothing is proved about the particular curves.
- Layers.DenseLayer.constructor: the weights are drawn from a `Random` in Java. The model leaves their values unspecified and states only their shape, and that the biases are zero.
- Networks.NeuralNetwork.Add: requires the new layer to differ from every existing layer and to share no arrays with them. The Java code accepts the same layer twice; the model does not model that aliasing.
- GradientPackage fields: the Java package holds arrays that callers mutate through getters. The model holds `seq` fields that its methods reassign, so aliasing between packages and the arrays they were built from is not captured.
- Threads: the `ExecutorService`, `Future.get`, `shutdown` and the thread pool are not modelled. The sub-batch tasks run one after another on the coordinating thread. Each layer's forward cache (`lastInputs`, `lastWeightedSums`) is shared by all tasks, and the race on it between concurrent tasks is not modelled. In Java, with two or more sub-batches, one task's `forward` (DenseLayer.java lines 39, 42 and 51) can overwrite the cache that another task's `backward` then reads (lines 71 and 87). A sample can then be backpropagated with another sample's cache, so the program's mini-batch gradient can depend on the thread count and the schedule. The model's results hold for the sequential schedule only. In Java, tasks after a failed one may still run; they change only those caches.
- Training.Trainer.constructor: `numThreads` is a parameter, positive by requirement; Java reads `Runtime.availableProcessors()`.
- Training.Trainer.constructor: the Java constructors of `Trainer` and `BatchTask` also take a `LossFunction`. The model fixes the loss to mean squared error, the only implementation in the program, so both constructors drop that parameter. The "Trainer initialized with … threads." line that the `Trainer` constructor prints is not modelled.
- Training.Trainer.Train: the shuffles of `Dataset.shuffle` are given as `orders`, one permutation of the data per epoch (randomness is an input).
- Training.Trainer.Train: requires `|data| > 0`, `batchSize > 0` and `printInterval != 0`, and takes `epochs` and `batchSize` as naturals. The Java outcomes excluded are these:
  - `batchSize == 0` makes `numBatches` `(int) Math.ceil(+Infinity)`, which is `Integer.MAX_VALUE`. Every such mini-batch is empty and submits no task. Its zero totals are divided by 0 into NaN and applied, so 2^31 - 1 iterations turn every parameter into NaN.
  - A negative `batchSize` gives no mini-batches at all.
  - Empty data gives no mini-batches, and each reported average loss is 0.0 / 0, which is NaN.
  - `printInterval == 0` throws `ArithmeticException` from `epoch % printInterval`. That line is outside the `try`, so the exception leaves `train`.
- Training.Trainer.Train: also requires the network to be `Chained` (each layer's input size is the previous layer's output size) and every sample to be `AllUsable` (its inputs reach the first layer's input size, and the network's output and the sample's targets are not both empty). The Java outcomes excluded are these:
  - A sample shorter than the first layer's input size makes `forward` throw `ArrayIndexOutOfBoundsException` inside `BatchTask.call`. `future.get` rethrows it, and the catch skips the mini-batch.
  - An unchained network throws in the same way, in `forward` or `backward`.
  - A last layer with no outputs, facing a sample with empty targets, makes `compute` return 0.0 / 0, which is NaN. An empty output facing non-empty targets is not excluded: `compute` throws on the length check, and the model gives `LengthMismatch` and skips the mini-batch (`TrainingMath.EmptyOutputMismatches`).
  
  The model has no failure value for an out-of-bounds read, so these mini-batch skips and NaN losses are not captured.
- Training.Trainer.Train: the printed lines become a returned sequence of `Report(epoch, averageLoss)` values, and "Training finished." is not modelled. The stack trace printed on a failure is not modelled either.
- Loss.Compute: requires a non-empty prediction when the lengths agree. Java divides 0.0 by 0 there, giving NaN, which reals cannot express.
- Failure semantics: the Java code is followed here. A failing task makes `future.get` throw inside the mini-batch's `try`. The whole mini-batch is then skipped: nothing is applied and its loss is not added. Other totals already reduced are dropped with it. The model does not drop only the failed sub-batch's contribution.
- Data generation, `Dataset` construction, `FunctionInfo`, graphing, `NetworkSerializer` and `TrainedModel` (files, serialization, the GUI) are not part of this model.
