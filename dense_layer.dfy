/** `DenseLayer`: a fully connected layer that owns its weight matrix and
    bias vector, and remembers the input and weighted sums of its last
    forward call for the backward call that follows it. */
module Layers {
  import opened Wrappers
  import opened Vectors
  import opened Activations
  import opened LayerMath
  import opened Gradients

  /** The entries of a two-dimensional array as a matrix. */
  function MatrixOf(a: array2<real>): (m: Matrix)
    reads a
    ensures IsMatrix(m, a.Length0, a.Length1)
    ensures forall i, j :: 0 <= i < a.Length0 && 0 <= j < a.Length1 ==> m[i][j] == a[i, j]
  {
    seq(a.Length0, i requires 0 <= i < a.Length0 reads a =>
      seq(a.Length1, j requires 0 <= j < a.Length1 reads a => a[i, j]))
  }

  class DenseLayer {
    const inputSize: nat
    const outputSize: nat
    const activation: Option<Activation>   // None: the linear (null) activation
    const weights: array2<real>            // outputSize x inputSize
    const biases: array<real>              // outputSize

    var lastInputs: seq<real>
    var lastWeightedSums: seq<real>

    predicate Valid() {
      weights.Length0 == outputSize && weights.Length1 == inputSize && biases.Length == outputSize
    }

    /** The layer's parameters as a value. */
    function Params(): Layer
      reads weights, biases
    {
      Layer(inputSize, outputSize, activation, MatrixOf(weights), biases[..])
    }

    /** The forward cache as a value. */
    function LastCache(): Cache
      reads this
    {
      Cache(lastInputs, lastWeightedSums)
    }

    /** The weights are sampled at random (not modelled: their initial values
        are left unspecified); the biases start at zero and there is no
        forward cache yet. */
    constructor (inputSize: nat, outputSize: nat, activation: Option<Activation>)
      ensures Valid() && fresh(weights) && fresh(biases)
      ensures this.inputSize == inputSize && this.outputSize == outputSize && this.activation == activation
      ensures WellShaped(Params())
      ensures IsZeroVector(Params().biases)
      ensures lastInputs == [] && lastWeightedSums == []
    {
      this.inputSize := inputSize;
      this.outputSize := outputSize;
      this.activation := activation;
      weights := new real[outputSize, inputSize];
      biases := new real[outputSize];
      lastInputs := [];
      lastWeightedSums := [];
      new;
      for i := 0 to outputSize
        modifies biases
        invariant forall k :: 0 <= k < i ==> biases[k] == 0.0
      {
        biases[i] := 0.0;
      }
    }

    /** Computes the layer's output for `inputs` and records `inputs` and the
        weighted sums for the next `Backward`; the parameters are not changed
        (only `this`, which holds the cache, is modified). */
    method Forward(inputs: seq<real>) returns (outputs: seq<real>)
      requires Valid() && Accepts(Params(), |inputs|)
      modifies this
      ensures outputs == LayerMath.Forward(Params(), inputs)
      ensures LastCache() == ForwardCache(Params(), inputs)
    {
      lastInputs := inputs;
      ghost var z, y := WeightedSums(Params(), inputs), LayerMath.Forward(Params(), inputs);
      var outs := new real[outputSize];
      var sums := new real[outputSize];
      for i := 0 to outputSize
        modifies outs, sums
        invariant unchanged(weights, biases)
        invariant sums[..i] == z[..i] && outs[..i] == y[..i]
      {
        var weightedSum, output := UnitOf(i, inputs);
        sums[i] := weightedSum;
        outs[i] := output;
      }
      lastWeightedSums := sums[..];
      outputs := outs[..];
      assert sums[..] == sums[..outputSize] && outs[..] == outs[..outputSize];
    }

    /** The body of the outer loop of `Forward`: output unit `i`'s weighted
        sum, and its output through the activation (the sum itself when
        there is none). */
    method UnitOf(i: nat, inputs: seq<real>) returns (weightedSum: real, output: real)
      requires Valid() && i < outputSize && inputSize <= |inputs|
      ensures weightedSum == WeightedSums(Params(), inputs)[i]
      ensures output == Activate(activation, weightedSum)
    {
      weightedSum := WeightedSumOf(i, inputs);
      if activation.Some? {
        output := activation.value.value(weightedSum);
      } else {
        output := weightedSum;
      }
    }

    /** The inner loop of `Forward`: the weighted sum of output unit `i`,
        `Σ_j inputs[j] * weights[i][j] + biases[i]`. */
    method WeightedSumOf(i: nat, inputs: seq<real>) returns (weightedSum: real)
      requires Valid() && i < outputSize && inputSize <= |inputs|
      ensures weightedSum == WeightedSums(Params(), inputs)[i]
    {
      ghost var row := Params().weights[i];
      weightedSum := 0.0;
      for j := 0 to inputSize
        invariant weightedSum == Dot(inputs, row, j)
      {
        weightedSum := weightedSum + inputs[j] * weights[i, j];
      }
      weightedSum := weightedSum + biases[i];
    }

    /** The gradients for `outputGradient`, computed from the cache of the
        preceding `Forward`: a fresh package; nothing is modified. */
    method Backward(outputGradient: seq<real>) returns (g: GradientPackage)
      requires Valid() && CacheReady(Params(), LastCache()) && outputSize <= |outputGradient|
      ensures fresh(g)
      ensures g.Value() == LayerMath.Backward(Params(), LastCache(), outputGradient)
    {
      ghost var l := Params();
      var layerGradient := new real[outputSize];
      for i := 0 to outputSize
        modifies layerGradient
        invariant forall k :: 0 <= k < i ==>
          layerGradient[k] == if activation.None? then outputGradient[k]
                              else LocalGradient(activation, outputGradient[k], lastWeightedSums[k])
      {
        if activation.Some? {
          layerGradient[i] := outputGradient[i] * activation.value.derivative(lastWeightedSums[i]);
        } else {
          layerGradient[i] := outputGradient[i];
        }
      }
      assert layerGradient[..] == LocalGradients(l, LastCache(), outputGradient);

      var inputGradient := InputGradientOf(layerGradient);
      var weightGradients, biasGradients := ParameterGradientsOf(layerGradient);
      g := new GradientPackage(MatrixOf(weightGradients), biasGradients[..], inputGradient[..]);
    }

    /** The second phase of `Backward`: the gradient passed to the previous
        layer, `Σ_i layerGradient[i] * weights[i][j]` for every input `j`. */
    method InputGradientOf(layerGradient: array<real>) returns (inputGradient: array<real>)
      requires Valid() && layerGradient.Length == outputSize
      ensures fresh(inputGradient)
      ensures inputGradient[..] == TransposeVec(Params().weights, layerGradient[..], inputSize)
    {
      ghost var l, lg := Params(), layerGradient[..];
      inputGradient := new real[inputSize];
      for j := 0 to inputSize
        modifies inputGradient
        invariant forall k :: 0 <= k < j ==> inputGradient[k] == ColumnDot(lg, l.weights, k, outputSize)
      {
        var grad := 0.0;
        for i := 0 to outputSize
          invariant grad == ColumnDot(lg, l.weights, j, i)
        {
          grad := grad + layerGradient[i] * weights[i, j];
        }
        inputGradient[j] := grad;
      }
    }

    /** The third phase of `Backward`: the weight gradients
        `layerGradient[i] * lastInputs[j]` and the bias gradients
        `layerGradient[i]`, in fresh arrays. */
    method ParameterGradientsOf(layerGradient: array<real>) returns (weightGradients: array2<real>, biasGradients: array<real>)
      requires Valid() && layerGradient.Length == outputSize && Accepts(Params(), |lastInputs|)
      ensures fresh(weightGradients) && fresh(biasGradients)
      ensures MatrixOf(weightGradients) == Outer(layerGradient[..], lastInputs, inputSize)
      ensures biasGradients[..] == layerGradient[..]
    {
      weightGradients := new real[outputSize, inputSize];
      biasGradients := new real[outputSize];
      for i := 0 to outputSize
        modifies weightGradients, biasGradients
        invariant forall r, c :: 0 <= r < i && 0 <= c < inputSize ==>
          weightGradients[r, c] == layerGradient[r] * lastInputs[c]
        invariant forall r :: 0 <= r < i ==> biasGradients[r] == layerGradient[r]
      {
        for j := 0 to inputSize
          modifies weightGradients
          invariant forall r, c :: 0 <= r < i && 0 <= c < inputSize ==>
            weightGradients[r, c] == layerGradient[r] * lastInputs[c]
          invariant forall c :: 0 <= c < j ==> weightGradients[i, c] == layerGradient[i] * lastInputs[c]
        {
          weightGradients[i, j] := layerGradient[i] * lastInputs[j];
        }
        biasGradients[i] := layerGradient[i];
      }
      MatrixExt(MatrixOf(weightGradients), Outer(layerGradient[..], lastInputs, inputSize), outputSize, inputSize);
    }

    /** One gradient-descent step: every weight and bias moves against its
        gradient, scaled by `learningRate`; nothing else changes. */
    method ApplyGradients(gradients: GradientPackage, learningRate: real)
      requires Valid()
      requires Covers(gradients.weightGradients, Params().weights)
      requires outputSize <= |gradients.biasGradients|
      modifies weights, biases
      ensures Params() == ApplyGradient(old(Params()), gradients.Value(), learningRate)
    {
      var weightGradients := gradients.weightGradients;
      var biasGradients := gradients.biasGradients;
      for i := 0 to outputSize
        modifies weights, biases
        invariant forall r, c :: 0 <= r < i && 0 <= c < inputSize ==>
          weights[r, c] == Descend(old(weights[r, c]), weightGradients[r][c], learningRate)
        invariant forall r, c :: i <= r < outputSize && 0 <= c < inputSize ==> weights[r, c] == old(weights[r, c])
        invariant forall r :: 0 <= r < i ==> biases[r] == Descend(old(biases[r]), biasGradients[r], learningRate)
        invariant forall r :: i <= r < outputSize ==> biases[r] == old(biases[r])
      {
        assert inputSize <= |weightGradients[i]| by { assert |old(Params()).weights[i]| == inputSize; }
        DescendRow(i, weightGradients[i], learningRate);
        biases[i] := Descend(biases[i], biasGradients[i], learningRate);
      }
      ghost var l0 := old(Params());
      MatrixExt(MatrixOf(weights), StepM(l0.weights, weightGradients, learningRate), outputSize, inputSize);
      assert biases[..] == StepV(l0.biases, biasGradients, learningRate);
    }

    /** The inner loop of `ApplyGradients`: row `i` of the weights moves
        against `rowGradients`; every other row stays. */
    method DescendRow(i: nat, rowGradients: Vector, learningRate: real)
      requires Valid() && i < outputSize && inputSize <= |rowGradients|
      modifies weights
      ensures forall r, c :: 0 <= r < outputSize && 0 <= c < inputSize ==>
        weights[r, c] == if r == i then Descend(old(weights[r, c]), rowGradients[c], learningRate) else old(weights[r, c])
    {
      for j := 0 to inputSize
        invariant forall r, c :: 0 <= r < outputSize && 0 <= c < inputSize ==>
          weights[r, c] == if r == i && c < j then Descend(old(weights[r, c]), rowGradients[c], learningRate) else old(weights[r, c])
      {
        weights[i, j] := Descend(weights[i, j], rowGradients[j], learningRate);
      }
    }

    /** A fresh all-zero package of the layer's shape: the accumulator seed. */
    method CreateEmptyGradients() returns (g: GradientPackage)
      ensures fresh(g)
      ensures g.Value() == EmptyGradient(Params())
    {
      g := new GradientPackage(ZeroMatrix(outputSize, inputSize), Zeros(outputSize), Zeros(inputSize));
    }
  }
}
