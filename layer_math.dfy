/** The arithmetic of one dense layer, on values: what `forward`, `backward`,
    `applyGradients` and `createEmptyGradients` of `DenseLayer` compute.  The
    class `Layers.DenseLayer` is proved against these functions. */
module LayerMath {
  import opened Wrappers
  import opened Vectors
  import opened Activations

  /** The parameters of a dense layer. */
  datatype Layer = Layer(
    inputSize: nat,
    outputSize: nat,
    activation: Option<Activation>,
    weights: Matrix,   // outputSize rows of inputSize entries
    biases: Vector)    // outputSize entries

  /** What a forward call leaves behind for the matching backward call. */
  datatype Cache = Cache(inputs: Vector, weightedSums: Vector)

  /** Gradients for one layer: weights, biases, and the gradient with
      respect to the layer's input that is passed to the layer before it. */
  datatype Gradient = Gradient(weights: Matrix, biases: Vector, input: Vector)

  predicate WellShaped(l: Layer) {
    IsMatrix(l.weights, l.outputSize, l.inputSize) && |l.biases| == l.outputSize
  }

  /** An input of length `n` is long enough for the layer's index loops (a
      longer input is read only up to `inputSize`; a layer without outputs
      reads no input at all). */
  predicate Accepts(l: Layer, n: nat) {
    l.outputSize == 0 || l.inputSize <= n
  }

  /** `Σ_j x[j]*weights[i][j] + biases[i]` for every output unit `i`. */
  function WeightedSums(l: Layer, x: Vector): (z: Vector)
    requires WellShaped(l) && Accepts(l, |x|)
    ensures |z| == l.outputSize
    ensures forall i :: 0 <= i < l.outputSize ==> z[i] == Dot(x, l.weights[i], l.inputSize) + l.biases[i]
  {
    seq(l.outputSize, i requires 0 <= i < l.outputSize => Dot(x, l.weights[i], l.inputSize) + l.biases[i])
  }

  /** The layer's output for input `x`. */
  function Forward(l: Layer, x: Vector): (y: Vector)
    requires WellShaped(l) && Accepts(l, |x|)
    ensures |y| == l.outputSize
  {
    var z := WeightedSums(l, x);
    seq(l.outputSize, i requires 0 <= i < l.outputSize => Activate(l.activation, z[i]))
  }

  /** Output unit `i` is the activation of its weighted sum, or the sum
      itself for a layer without an activation. */
  lemma ForwardUnits(l: Layer, x: Vector)
    requires WellShaped(l) && Accepts(l, |x|)
    ensures forall i :: 0 <= i < l.outputSize ==>
      Forward(l, x)[i] == (if l.activation.None? then WeightedSums(l, x)[i] else l.activation.value.value(WeightedSums(l, x)[i]))
  {
  }

  /** The cache a forward call with input `x` records. */
  function ForwardCache(l: Layer, x: Vector): Cache
    requires WellShaped(l) && Accepts(l, |x|)
  {
    Cache(x, WeightedSums(l, x))
  }

  /** The cache holds what the backward loops index: the recorded input, and
      the weighted sums when there is an activation to differentiate. */
  predicate CacheReady(l: Layer, c: Cache) {
    Accepts(l, |c.inputs|) && (l.activation.Some? ==> l.outputSize <= |c.weightedSums|)
  }

  /** The local gradient `g[i] * derivative(weightedSums[i])`, or `g[i]`
      when the layer has no activation. */
  function LocalGradients(l: Layer, c: Cache, g: Vector): (lg: Vector)
    requires CacheReady(l, c) && l.outputSize <= |g|
    ensures |lg| == l.outputSize
  {
    seq(l.outputSize, i requires 0 <= i < l.outputSize =>
      if l.activation.None? then g[i] else LocalGradient(l.activation, g[i], c.weightedSums[i]))
  }

  /** The gradients of one backward call with output gradient `g`. */
  function Backward(l: Layer, c: Cache, g: Vector): (r: Gradient)
    requires WellShaped(l) && CacheReady(l, c) && l.outputSize <= |g|
    ensures GradientFits(l, r)
  {
    var lg := LocalGradients(l, c, g);
    Gradient(Outer(lg, c.inputs, l.inputSize), lg, TransposeVec(l.weights, lg, l.inputSize))
  }

  /** `r` has exactly the shape of layer `l`'s parameters and input. */
  predicate GradientFits(l: Layer, r: Gradient) {
    IsMatrix(r.weights, l.outputSize, l.inputSize) && |r.biases| == l.outputSize && |r.input| == l.inputSize
  }

  /** The all-zero gradient of the layer's shape. */
  function EmptyGradient(l: Layer): (r: Gradient)
    ensures GradientFits(l, r)
  {
    Gradient(ZeroMatrix(l.outputSize, l.inputSize), Zeros(l.outputSize), Zeros(l.inputSize))
  }

  /** Accumulation: weight and bias gradients are summed, `a`'s input gradient is kept. */
  function AddGradient(a: Gradient, b: Gradient): Gradient
    requires Covers(b.weights, a.weights) && |a.biases| <= |b.biases|
  {
    Gradient(AddM(a.weights, b.weights), AddV(a.biases, b.biases), a.input)
  }

  /** Averaging: weight and bias gradients divided by `d`, the input gradient kept. */
  function DivGradient(a: Gradient, d: real): Gradient
    requires d != 0.0
  {
    Gradient(DivM(a.weights, d), DivV(a.biases, d), a.input)
  }

  /** One gradient-descent step with learning rate `lr`. */
  function ApplyGradient(l: Layer, r: Gradient, lr: real): Layer
    requires WellShaped(l) && Covers(r.weights, l.weights) && l.outputSize <= |r.biases|
  {
    l.(weights := StepM(l.weights, r.weights, lr), biases := StepV(l.biases, r.biases, lr))
  }

  // ---------------------------------------------------------------------
  // Properties

  /** The entries of the backward gradients are the products the Java
      loops compute. */
  lemma BackwardEntries(l: Layer, c: Cache, g: Vector)
    requires WellShaped(l) && CacheReady(l, c) && l.outputSize <= |g|
    ensures var r, lg := Backward(l, c, g), LocalGradients(l, c, g);
      && (forall i, j :: 0 <= i < l.outputSize && 0 <= j < l.inputSize ==> r.weights[i][j] == lg[i] * c.inputs[j])
      && r.biases == lg
      && (forall j :: 0 <= j < l.inputSize ==> r.input[j] == ColumnDot(lg, l.weights, j, l.outputSize))
  {
  }

  /** The input gradient is the transpose of the weights applied to the
      local gradient: for every direction `v`, `⟨v, input⟩ = ⟨lg, W·v⟩`. */
  lemma InputGradientIsAdjoint(l: Layer, c: Cache, g: Vector, v: Vector)
    requires WellShaped(l) && CacheReady(l, c) && l.outputSize <= |g| && |v| == l.inputSize
    ensures Dot(v, Backward(l, c, g).input, l.inputSize)
         == Dot(LocalGradients(l, c, g), MatVec(l.weights, v), l.outputSize)
  {
    TransposeIsAdjoint(l.weights, LocalGradients(l, c, g), v, l.outputSize, l.inputSize);
  }

  /** A step with a zero learning rate or an all-zero gradient changes nothing. */
  lemma ApplyNoop(l: Layer, r: Gradient, lr: real)
    requires WellShaped(l) && Covers(r.weights, l.weights) && l.outputSize <= |r.biases|
    requires lr == 0.0 || (IsZeroMatrix(r.weights) && IsZeroVector(r.biases))
    ensures ApplyGradient(l, r, lr) == l
  {
    StepMNoop(l.weights, r.weights, lr, l.outputSize, l.inputSize);
    StepVNoop(l.biases, r.biases, lr);
  }

  /** A step keeps the layer's shape. */
  lemma ApplyShape(l: Layer, r: Gradient, lr: real)
    requires WellShaped(l) && Covers(r.weights, l.weights) && l.outputSize <= |r.biases|
    ensures WellShaped(ApplyGradient(l, r, lr))
    ensures ApplyGradient(l, r, lr).inputSize == l.inputSize
    ensures ApplyGradient(l, r, lr).outputSize == l.outputSize
    ensures ApplyGradient(l, r, lr).activation == l.activation
  {
  }

  // ---------------------------------------------------------------------
  // Accumulation algebra: the order in which gradient packages are added
  // does not matter, and an all-zero package adds nothing.

  /** Adding an all-zero gradient changes nothing. */
  lemma AddGradientZero(l: Layer, a: Gradient, z: Gradient)
    requires GradientFits(l, a) && GradientFits(l, z)
    requires IsZeroMatrix(z.weights) && IsZeroVector(z.biases)
    ensures AddGradient(a, z) == a
  {
    AddZeroM(a.weights, z.weights, l.outputSize, l.inputSize);
    AddZeroV(a.biases, z.biases);
  }

  /** Adding `b` to `a` gives the same weight and bias gradients as adding
      `a` to `b` (each side keeps its own input gradient). */
  lemma AddGradientCommutes(l: Layer, a: Gradient, b: Gradient)
    requires GradientFits(l, a) && GradientFits(l, b)
    ensures AddGradient(a, b).weights == AddGradient(b, a).weights
    ensures AddGradient(a, b).biases == AddGradient(b, a).biases
  {
    AddMCommutes(a.weights, b.weights, l.outputSize, l.inputSize);
    AddVCommutes(a.biases, b.biases);
  }

  /** Accumulation is associative. */
  lemma AddGradientAssociates(l: Layer, a: Gradient, b: Gradient, c: Gradient)
    requires GradientFits(l, a) && GradientFits(l, b) && GradientFits(l, c)
    ensures GradientFits(l, AddGradient(a, b))
    ensures AddGradient(AddGradient(a, b), c) == AddGradient(a, AddGradient(b, c))
  {
    AddMAssociates(a.weights, b.weights, c.weights, l.outputSize, l.inputSize);
    AddVAssociates(a.biases, b.biases, c.biases);
  }
}
