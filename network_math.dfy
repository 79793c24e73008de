/** The arithmetic of a `NeuralNetwork`, on values: a network is a sequence
    of layers, `predict` folds the layers' forward maps from the first layer
    to the last, and `backward` runs from the last layer to the first,
    handing each layer the input gradient of the layer after it.  The
    class `Networks.NeuralNetwork` is proved against these functions. */
module NetworkMath {
  import opened Vectors
  import opened LayerMath

  /** Every layer is well shaped and reads exactly the previous layer's output. */
  predicate Chained(ls: seq<Layer>) {
    (forall k :: 0 <= k < |ls| ==> WellShaped(ls[k]))
    && forall k :: 0 < k < |ls| ==> Linked(ls, k)
  }

  /** Layer `k` takes the output of layer `k - 1` as its input. */
  predicate Linked(ls: seq<Layer>, k: nat)
    requires 0 < k < |ls|
  {
    ls[k].inputSize == ls[k - 1].outputSize
  }

  /** The first layer accepts an input of length `n`. */
  predicate Admits(ls: seq<Layer>, n: nat) {
    |ls| == 0 || Accepts(ls[0], n)
  }

  /** The length of the network's output for an input of length `n`. */
  function OutputLength(ls: seq<Layer>, n: nat): nat {
    if |ls| == 0 then n else ls[|ls| - 1].outputSize
  }

  /** The output of the first `k` layers for input `x`. */
  function PredictUpTo(ls: seq<Layer>, x: Vector, k: nat): (y: Vector)
    requires Chained(ls) && Admits(ls, |x|) && k <= |ls|
    ensures k == 0 ==> y == x
    ensures k > 0 ==> |y| == ls[k - 1].outputSize
    ensures k < |ls| ==> Accepts(ls[k], |y|)
    decreases k
  {
    if k == 0 then x
    else
      assert k < |ls| ==> Linked(ls, k);
      Forward(ls[k - 1], PredictUpTo(ls, x, k - 1))
  }

  /** The network's output for input `x`. */
  function Predict(ls: seq<Layer>, x: Vector): (y: Vector)
    requires Chained(ls) && Admits(ls, |x|)
    ensures |y| == OutputLength(ls, |x|)
    ensures |ls| == 0 ==> y == x
  {
    PredictUpTo(ls, x, |ls|)
  }

  /** The cache each layer holds after `Predict(ls, x)`: layer `k` saw the
      output of the first `k` layers. */
  function Caches(ls: seq<Layer>, x: Vector): (cs: seq<Cache>)
    requires Chained(ls) && Admits(ls, |x|)
    ensures |cs| == |ls|
  {
    seq(|ls|, k requires 0 <= k < |ls| => ForwardCache(ls[k], PredictUpTo(ls, x, k)))
  }

  /** Every layer's cache holds what its backward loops read. */
  predicate Ready(ls: seq<Layer>, cs: seq<Cache>) {
    |cs| == |ls| && forall k :: 0 <= k < |ls| ==> CacheReady(ls[k], cs[k])
  }

  /** `g` is long enough to be the loss gradient of the network's last layer. */
  predicate LossGradientFits(ls: seq<Layer>, g: Vector) {
    |ls| == 0 || ls[|ls| - 1].outputSize <= |g|
  }

  /** The gradient handed to layer `k - 1` by the backward pass: the loss
      gradient `g` at the top (`k == |ls|`), and below it the input gradient
      of layer `k`. */
  function Downstream(ls: seq<Layer>, cs: seq<Cache>, g: Vector, k: nat): (d: Vector)
    requires Chained(ls) && Ready(ls, cs) && LossGradientFits(ls, g) && k <= |ls|
    ensures k == |ls| ==> d == g
    ensures 0 < k < |ls| ==> |d| == ls[k - 1].outputSize
    decreases |ls| - k
  {
    if k == |ls| then g
    else
      assert 0 < k ==> Linked(ls, k);
      Backward(ls[k], cs[k], Downstream(ls, cs, g, k + 1)).input
  }

  /** The gradients of layer `k` in the backward pass for loss gradient `g`. */
  function GradientAt(ls: seq<Layer>, cs: seq<Cache>, g: Vector, k: nat): (r: Gradient)
    requires Chained(ls) && Ready(ls, cs) && LossGradientFits(ls, g) && k < |ls|
    ensures GradientFits(ls[k], r)
  {
    Backward(ls[k], cs[k], Downstream(ls, cs, g, k + 1))
  }

  /** The gradients of layers `k` to the last, in layer order: the backward
      pass visits the last layer first and puts each layer's gradients in
      front of those of the layers after it. */
  function BackwardFrom(ls: seq<Layer>, cs: seq<Cache>, g: Vector, k: nat): (rs: seq<Gradient>)
    requires Chained(ls) && Ready(ls, cs) && LossGradientFits(ls, g) && k <= |ls|
    ensures |rs| == |ls| - k
    decreases |ls| - k
  {
    if k == |ls| then []
    else [GradientAt(ls, cs, g, k)] + BackwardFrom(ls, cs, g, k + 1)
  }

  /** The gradients of the whole backward pass, one per layer, in layer order. */
  function NetBackward(ls: seq<Layer>, cs: seq<Cache>, g: Vector): (rs: seq<Gradient>)
    requires Chained(ls) && Ready(ls, cs) && LossGradientFits(ls, g)
    ensures |rs| == |ls|
  {
    BackwardFrom(ls, cs, g, 0)
  }

  // ---------------------------------------------------------------------
  // Lists of gradients, one per layer

  /** `gs` holds one gradient per layer, each of its layer's exact shape. */
  predicate FitsAll(ls: seq<Layer>, gs: seq<Gradient>) {
    |gs| == |ls| && forall k :: 0 <= k < |ls| ==> GradientFits(ls[k], gs[k])
  }

  /** One all-zero gradient per layer. */
  function ZeroGradients(ls: seq<Layer>): (gs: seq<Gradient>)
    ensures FitsAll(ls, gs)
    ensures forall k :: 0 <= k < |ls| ==> IsZeroMatrix(gs[k].weights) && IsZeroVector(gs[k].biases)
  {
    seq(|ls|, k requires 0 <= k < |ls| => EmptyGradient(ls[k]))
  }

  /** `qs` has at least as many gradients as `ps`, each covering its partner. */
  predicate CoversAll(qs: seq<Gradient>, ps: seq<Gradient>) {
    |ps| <= |qs| && forall k :: 0 <= k < |ps| ==> Covers(qs[k].weights, ps[k].weights) && |ps[k].biases| <= |qs[k].biases|
  }

  /** Layer-by-layer accumulation of `qs` into `ps`. */
  function AddGradients(ps: seq<Gradient>, qs: seq<Gradient>): (rs: seq<Gradient>)
    requires CoversAll(qs, ps)
    ensures |rs| == |ps|
  {
    seq(|ps|, k requires 0 <= k < |ps| => AddGradient(ps[k], qs[k]))
  }

  /** Every gradient's weight and bias parts divided by `d`. */
  function DivGradients(gs: seq<Gradient>, d: real): (rs: seq<Gradient>)
    requires d != 0.0
    ensures |rs| == |gs|
  {
    seq(|gs|, k requires 0 <= k < |gs| => DivGradient(gs[k], d))
  }

  /** One gradient per layer, each at least as large as its layer's parameters. */
  predicate GradientsCover(ls: seq<Layer>, gs: seq<Gradient>) {
    |gs| == |ls|
    && forall k :: 0 <= k < |ls| ==> Covers(gs[k].weights, ls[k].weights) && ls[k].outputSize <= |gs[k].biases|
  }

  /** Layer `k` takes a descent step along gradient `k`, for every `k`. */
  function ApplyAll(ls: seq<Layer>, gs: seq<Gradient>, lr: real): (ms: seq<Layer>)
    requires Chained(ls) && GradientsCover(ls, gs)
    ensures |ms| == |ls|
  {
    seq(|ls|, k requires 0 <= k < |ls| => ApplyGradient(ls[k], gs[k], lr))
  }

  /** Same sizes layer by layer (the parameters may differ). */
  predicate SameShapes(ls: seq<Layer>, ms: seq<Layer>) {
    |ls| == |ms|
    && forall k :: 0 <= k < |ls| ==> ls[k].inputSize == ms[k].inputSize && ls[k].outputSize == ms[k].outputSize
  }

  // ---------------------------------------------------------------------
  // Properties

  /** After `Predict`, every layer's cache is ready for the backward pass,
      and the network's output is a valid loss gradient length. */
  lemma {:induction false} CachesReady(ls: seq<Layer>, x: Vector)
    requires Chained(ls) && Admits(ls, |x|)
    ensures Ready(ls, Caches(ls, x))
    ensures LossGradientFits(ls, Predict(ls, x))
  {
    var cs := Caches(ls, x);
    forall k | 0 <= k < |ls|
      ensures CacheReady(ls[k], cs[k])
    {
      var y := PredictUpTo(ls, x, k);
      assert cs[k] == ForwardCache(ls[k], y);
    }
  }

  /** Entry `j - k` of `BackwardFrom(.., k)` is layer `j`'s gradient. */
  lemma {:induction false} BackwardFromEntries(ls: seq<Layer>, cs: seq<Cache>, g: Vector, k: nat)
    requires Chained(ls) && Ready(ls, cs) && LossGradientFits(ls, g) && k <= |ls|
    ensures forall j :: k <= j < |ls| ==> BackwardFrom(ls, cs, g, k)[j - k] == GradientAt(ls, cs, g, j)
    decreases |ls| - k
  {
    if k < |ls| {
      BackwardFromEntries(ls, cs, g, k + 1);
      var rs, tail := BackwardFrom(ls, cs, g, k), BackwardFrom(ls, cs, g, k + 1);
      assert rs == [GradientAt(ls, cs, g, k)] + tail;
      forall j | k < j < |ls|
        ensures rs[j - k] == GradientAt(ls, cs, g, j)
      {
        assert rs[j - k] == tail[j - (k + 1)];
      }
    }
  }

  /** Entry `k` of the backward pass is layer `k`'s gradients. */
  lemma NetBackwardAt(ls: seq<Layer>, cs: seq<Cache>, g: Vector, k: nat)
    requires Chained(ls) && Ready(ls, cs) && LossGradientFits(ls, g) && k < |ls|
    ensures NetBackward(ls, cs, g)[k] == GradientAt(ls, cs, g, k)
  {
    BackwardFromEntries(ls, cs, g, 0);
  }

  /** Layer `i` receives the input gradient of layer `i + 1`. */
  lemma ChainAt(ls: seq<Layer>, cs: seq<Cache>, g: Vector, i: nat)
    requires Chained(ls) && Ready(ls, cs) && LossGradientFits(ls, g) && i + 1 < |ls|
    ensures NetBackward(ls, cs, g)[i] == Backward(ls[i], cs[i], Downstream(ls, cs, g, i + 1))
    ensures Downstream(ls, cs, g, i + 1) == NetBackward(ls, cs, g)[i + 1].input
  {
    NetBackwardAt(ls, cs, g, i);
    NetBackwardAt(ls, cs, g, i + 1);
  }

  /** `backward` hands the loss gradient to the last layer, and to every
      earlier layer `i` the input gradient of the layer `j = i + 1` after it. */
  lemma BackwardChain(ls: seq<Layer>, cs: seq<Cache>, g: Vector)
    requires Chained(ls) && Ready(ls, cs) && LossGradientFits(ls, g)
    ensures var rs := NetBackward(ls, cs, g);
      && (|ls| > 0 ==> rs[|ls| - 1] == Backward(ls[|ls| - 1], cs[|ls| - 1], g))
      && forall i, j :: 0 <= i && j == i + 1 < |ls| ==>
           rs[i] == Backward(ls[i], cs[i], Downstream(ls, cs, g, j)) && Downstream(ls, cs, g, j) == rs[j].input
  {
    forall i, j | 0 <= i && j == i + 1 < |ls|
      ensures NetBackward(ls, cs, g)[i] == Backward(ls[i], cs[i], Downstream(ls, cs, g, j))
      ensures Downstream(ls, cs, g, j) == NetBackward(ls, cs, g)[j].input
    {
      ChainAt(ls, cs, g, i);
    }
    if |ls| > 0 {
      NetBackwardAt(ls, cs, g, |ls| - 1);
    }
  }

  /** The backward pass yields one gradient of each layer's exact shape. */
  lemma NetBackwardFits(ls: seq<Layer>, cs: seq<Cache>, g: Vector)
    requires Chained(ls) && Ready(ls, cs) && LossGradientFits(ls, g)
    ensures FitsAll(ls, NetBackward(ls, cs, g))
  {
    var rs := NetBackward(ls, cs, g);
    BackwardFromEntries(ls, cs, g, 0);
    forall k | 0 <= k < |ls|
      ensures GradientFits(ls[k], rs[k])
    {
      assert rs[k] == GradientAt(ls, cs, g, k);
    }
  }

  /** Accumulating and averaging keep every gradient in its layer's shape. */
  lemma AddGradientsFit(ls: seq<Layer>, ps: seq<Gradient>, qs: seq<Gradient>)
    requires FitsAll(ls, ps) && FitsAll(ls, qs)
    ensures CoversAll(qs, ps)
    ensures FitsAll(ls, AddGradients(ps, qs))
  {
  }

  lemma DivGradientsFit(ls: seq<Layer>, gs: seq<Gradient>, d: real)
    requires FitsAll(ls, gs) && d != 0.0
    ensures FitsAll(ls, DivGradients(gs, d))
  {
  }

  /** Gradients of their layers' shapes are large enough for a descent step. */
  lemma FitsCover(ls: seq<Layer>, gs: seq<Gradient>)
    requires Chained(ls) && FitsAll(ls, gs)
    ensures GradientsCover(ls, gs)
  {
    forall k | 0 <= k < |ls|
      ensures Covers(gs[k].weights, ls[k].weights)
    {
      assert WellShaped(ls[k]) && GradientFits(ls[k], gs[k]);
    }
  }

  /** A descent step changes parameters only: the network keeps its shape,
      so whatever input, gradient and loss shapes fitted before still fit. */
  lemma ApplyAllKeepsShapes(ls: seq<Layer>, gs: seq<Gradient>, lr: real)
    requires Chained(ls) && FitsAll(ls, gs)
    ensures Chained(ApplyAll(ls, gs, lr))
    ensures SameShapes(ls, ApplyAll(ls, gs, lr))
  {
    var ms := ApplyAll(ls, gs, lr);
    forall k | 0 < k < |ms|
      ensures Linked(ms, k)
    {
      assert Linked(ls, k);
    }
  }

  /** Networks of the same shape accept the same inputs, fit the same
      gradients and produce outputs of the same length. */
  lemma SameShapesFit(ls: seq<Layer>, ms: seq<Layer>)
    requires SameShapes(ls, ms)
    ensures forall n :: Admits(ls, n) == Admits(ms, n)
    ensures forall n :: OutputLength(ls, n) == OutputLength(ms, n)
    ensures forall gs :: FitsAll(ls, gs) == FitsAll(ms, gs)
    ensures ZeroGradients(ls) == ZeroGradients(ms)
  {
  }

  /** Accumulation of gradient lists is associative. */
  lemma AddGradientsAssociate(ls: seq<Layer>, ps: seq<Gradient>, qs: seq<Gradient>, us: seq<Gradient>)
    requires FitsAll(ls, ps) && FitsAll(ls, qs) && FitsAll(ls, us)
    ensures FitsAll(ls, AddGradients(ps, qs)) && FitsAll(ls, AddGradients(qs, us))
    ensures AddGradients(AddGradients(ps, qs), us) == AddGradients(ps, AddGradients(qs, us))
  {
    forall k | 0 <= k < |ls|
      ensures AddGradients(AddGradients(ps, qs), us)[k] == AddGradients(ps, AddGradients(qs, us))[k]
    {
      AddGradientAssociates(ls[k], ps[k], qs[k], us[k]);
    }
  }

  /** Adding the zero list changes nothing. */
  lemma AddZeroGradients(ls: seq<Layer>, ps: seq<Gradient>)
    requires FitsAll(ls, ps)
    ensures AddGradients(ps, ZeroGradients(ls)) == ps
  {
    var zs := ZeroGradients(ls);
    forall k | 0 <= k < |ls|
      ensures AddGradients(ps, zs)[k] == ps[k]
    {
      AddGradientZero(ls[k], ps[k], zs[k]);
    }
  }

  /** Adding a list to the zero list gives the list back, when its input
      gradients are zero too (the zero list keeps its own). */
  lemma AddZeroGradientsLeft(ls: seq<Layer>, ps: seq<Gradient>)
    requires FitsAll(ls, ps)
    requires forall k :: 0 <= k < |ls| ==> ps[k].input == Zeros(ls[k].inputSize)
    ensures AddGradients(ZeroGradients(ls), ps) == ps
  {
    var zs := ZeroGradients(ls);
    forall k | 0 <= k < |ls|
      ensures AddGradients(zs, ps)[k] == ps[k]
    {
      AddGradientCommutes(ls[k], zs[k], ps[k]);
      AddGradientZero(ls[k], ps[k], zs[k]);
    }
  }

  /** With a zero learning rate, or with all-zero gradients, a descent step
      leaves every layer as it was. */
  lemma ApplyAllNoop(ls: seq<Layer>, gs: seq<Gradient>, lr: real)
    requires Chained(ls) && FitsAll(ls, gs)
    requires lr == 0.0 || forall k :: 0 <= k < |gs| ==> IsZeroMatrix(gs[k].weights) && IsZeroVector(gs[k].biases)
    ensures ApplyAll(ls, gs, lr) == ls
  {
    forall k | 0 <= k < |ls|
      ensures ApplyAll(ls, gs, lr)[k] == ls[k]
    {
      ApplyNoop(ls[k], gs[k], lr);
    }
  }
}
