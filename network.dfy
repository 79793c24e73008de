/** `NeuralNetwork`: an ordered list of dense layers.  `predict` runs the
    layers' forward passes from first to last, `backward` runs their
    backward passes from last to first, and `applyGradients` updates every
    layer in place. */
module Networks {
  import opened Wrappers
  import opened Vectors
  import opened LayerMath
  import opened NetworkMath
  import opened Gradients
  import opened GradientLists
  import opened Layers

  class NeuralNetwork {
    var layers: seq<DenseLayer>

    /** The layers are valid, and no two of them are the same object or
        share a weight or bias array. */
    ghost predicate Valid()
      reads this
    {
      (forall k :: 0 <= k < |layers| ==> layers[k].Valid())
      && forall i, j :: 0 <= i < |layers| && 0 <= j < |layers| && i != j ==> Distinct(i, j)
    }

    /** Layers `i` and `j` are different objects with different weight and
        bias arrays. */
    ghost predicate Distinct(i: int, j: int)
      requires 0 <= i < |layers| && 0 <= j < |layers|
      reads this
    {
      layers[i] != layers[j] && layers[i].weights != layers[j].weights && layers[i].biases != layers[j].biases
    }

    /** The weight and bias arrays of all layers. */
    function ParamArrays(): set<object>
      reads this
    {
      (set l | l in layers :: l.weights) + (set l | l in layers :: l.biases)
    }

    /** The layers' parameters, in order. */
    function Params(): (ls: seq<Layer>)
      reads this, ParamArrays()
      ensures |ls| == |layers| && forall k :: 0 <= k < |layers| ==> ls[k] == layers[k].Params()
    {
      seq(|layers|, k requires 0 <= k < |layers| reads this, ParamArrays() => layers[k].Params())
    }

    /** The layers' forward caches, in order. */
    function Caches(): (cs: seq<Cache>)
      reads this, layers
      ensures |cs| == |layers|
    {
      seq(|layers|, k requires 0 <= k < |layers| reads this, layers => layers[k].LastCache())
    }

    /** A network without layers. */
    constructor ()
      ensures Valid() && layers == []
    {
      layers := [];
    }

    /** Appends `layer` after the existing layers. */
    method Add(layer: DenseLayer)
      requires Valid() && layer.Valid()
      requires forall k :: 0 <= k < |layers| ==>
        layer != layers[k] && layer.weights != layers[k].weights && layer.biases != layers[k].biases
      modifies this
      ensures Valid()
      ensures layers == old(layers) + [layer]
    {
      layers := layers + [layer];
      forall i, j | 0 <= i < |layers| && 0 <= j < |layers| && i != j
        ensures Distinct(i, j)
      {
        if i < |layers| - 1 && j < |layers| - 1 {
          assert old(Distinct(i, j));
        }
      }
    }

    /** The state of `predict` after the first `k` layers: `x` is their
        output for `inputs` and each of them caches what it saw. */
    ghost predicate Forwarded(k: nat, x: seq<real>, inputs: seq<real>, ls: seq<Layer>)
      reads this, layers, ParamArrays()
    {
      Valid() && Params() == ls && Chained(ls) && Admits(ls, |inputs|) && k <= |layers|
      && x == PredictUpTo(ls, inputs, k)
      && Caches()[..k] == NetworkMath.Caches(ls, inputs)[..k]
    }

    /** The network's output for `inputs`: each layer's forward pass is
        applied to the previous layer's output.  Only the layers' caches
        change; afterwards they hold what `NetworkMath.Caches` says. */
    method Predict(inputs: seq<real>) returns (outputs: seq<real>)
      requires Valid() && Chained(Params()) && Admits(Params(), |inputs|)
      modifies layers
      ensures Params() == old(Params())
      ensures outputs == NetworkMath.Predict(Params(), inputs)
      ensures Caches() == NetworkMath.Caches(Params(), inputs)
    {
      ghost var ls := Params();
      var current := inputs;
      for k := 0 to |layers|
        invariant Forwarded(k, current, inputs, ls)
      {
        current := ForwardAt(k, current, inputs, ls);
      }
      outputs := current;
      PredictDone(outputs, inputs, ls);
    }

    /** After the last layer, the output and caches are those of the whole
        network. */
    lemma PredictDone(outputs: seq<real>, inputs: seq<real>, ls: seq<Layer>)
      requires Forwarded(|layers|, outputs, inputs, ls)
      ensures Params() == ls && outputs == NetworkMath.Predict(ls, inputs)
      ensures Caches() == NetworkMath.Caches(ls, inputs)
    {
      assert Caches()[..|layers|] == Caches();
      assert NetworkMath.Caches(ls, inputs)[..|layers|] == NetworkMath.Caches(ls, inputs);
    }

    /** The forward pass of layer `k` within `predict`, whose input is `x`:
        it changes layer `k`'s cache and no other layer. */
    method ForwardAt(k: nat, x: seq<real>, ghost inputs: seq<real>, ghost ls: seq<Layer>)
      returns (y: seq<real>)
      requires Forwarded(k, x, inputs, ls) && k < |layers|
      modifies layers[k]
      ensures Forwarded(k + 1, y, inputs, ls)
    {
      forall j | 0 <= j < |layers| && j != k
        ensures layers[j] != layers[k]
      {
        assert Distinct(j, k);
      }
      ghost var cs, before := NetworkMath.Caches(ls, inputs), Caches();
      assert ls[k] == layers[k].Params();
      y := layers[k].Forward(x);
      CacheSet(this, k);
      PrefixStep(before, cs, k);
    }

    /** The gradients for `lossGradient`, one fresh package per layer in
        layer order: the last layer receives `lossGradient` and every other
        layer the input gradient of the layer after it.  Nothing changes. */
    method Backward(lossGradient: seq<real>) returns (ps: seq<GradientPackage>)
      requires Valid() && Chained(Params()) && Ready(Params(), Caches())
      requires LossGradientFits(Params(), lossGradient)
      ensures forall k :: 0 <= k < |ps| ==> fresh(ps[k])
      ensures Separate(ps)
      ensures Params() == old(Params()) && Caches() == old(Caches())
      ensures ValuesOf(ps) == NetBackward(old(Params()), old(Caches()), lossGradient)
    {
      ghost var ls, cs := Params(), Caches();
      ps := [];
      var current := lossGradient;
      var i := |layers|;
      while i > 0
        invariant 0 <= i <= |layers|
        invariant Params() == ls
        invariant Caches() == cs
        invariant current == Downstream(ls, cs, lossGradient, i)
        invariant forall k :: 0 <= k < |ps| ==> fresh(ps[k])
        invariant Separate(ps)
        invariant ValuesOf(ps) == BackwardFrom(ls, cs, lossGradient, i)
      {
        i := i - 1;
        ps, current := BackwardAt(i, current, ps, ls, cs, lossGradient);
      }
    }

    /** The backward pass of layer `i` for output gradient `g`, the input
        gradient of layer `i + 1` (or the loss gradient `lossGradient` at the
        top): its fresh package is put in front of `ps`, which holds the
        gradients of the layers after it, and its input gradient is
        returned for the layer before it. */
    method BackwardAt(i: nat, g: seq<real>, ps: seq<GradientPackage>, ghost ls: seq<Layer>, ghost cs: seq<Cache>,
                      ghost lossGradient: seq<real>) returns (qs: seq<GradientPackage>, next: seq<real>)
      requires Valid() && Params() == ls && Caches() == cs
      requires Chained(ls) && Ready(ls, cs) && LossGradientFits(ls, lossGradient) && i < |layers|
      requires g == Downstream(ls, cs, lossGradient, i + 1)
      requires Separate(ps) && ValuesOf(ps) == BackwardFrom(ls, cs, lossGradient, i + 1)
      ensures |qs| > 0 && qs == [qs[0]] + ps && fresh(qs[0])
      ensures Separate(qs)
      ensures Params() == old(Params()) && Caches() == old(Caches())
      ensures ValuesOf(qs) == BackwardFrom(ls, cs, lossGradient, i)
      ensures next == Downstream(ls, cs, lossGradient, i)
    {
      assert ls[i] == layers[i].Params() && cs[i] == layers[i].LastCache();
      var p := layers[i].Backward(g);
      assert ValuesOf(ps) == old(ValuesOf(ps));
      SeparateExtend(p, ps);
      ValuesOfPrepend(p, ps);
      qs := [p] + ps;
      next := p.inputGradient[..];
    }

    /** Fails with `GradientCountMismatch`, changing nothing, unless there is
        exactly one package per layer; otherwise applies package `k` to
        layer `k`, for every `k`. */
    method ApplyGradients(ps: seq<GradientPackage>, learningRate: real) returns (outcome: Outcome)
      requires Valid() && Chained(Params())
      requires |ps| == |layers| ==> GradientsCover(Params(), ValuesOf(ps))
      modifies ParamArrays()
      ensures |ps| != |layers| ==> outcome == Fail(GradientCountMismatch) && Params() == old(Params())
      ensures |ps| == |layers| ==> outcome == Pass && Params() == ApplyAll(old(Params()), old(ValuesOf(ps)), learningRate)
    {
      if |ps| != |layers| {
        return Fail(GradientCountMismatch);
      }
      ghost var ls, gs := Params(), ValuesOf(ps);
      ghost var ms := ApplyAll(ls, gs, learningRate);
      for k := 0 to |layers|
        invariant forall j :: 0 <= j < k ==> Params()[j] == ms[j]
        invariant forall j :: k <= j < |layers| ==> Params()[j] == ls[j]
        invariant ValuesOf(ps) == gs
      {
        assert ps[k].Value() == gs[k];
        ApplyAt(ps, k, learningRate);
      }
      outcome := Pass;
      assert Params() == ms;
    }

    /** The descent step of layer `k` alone: it changes layer `k`'s
        parameters and nothing else. */
    method ApplyAt(ps: seq<GradientPackage>, k: nat, learningRate: real)
      requires Valid() && k < |layers| && k < |ps|
      requires Covers(ps[k].weightGradients, layers[k].Params().weights)
      requires layers[k].outputSize <= |ps[k].biasGradients|
      modifies layers[k].weights, layers[k].biases
      ensures Params() == old(Params())[k := ApplyGradient(old(Params())[k], old(ps[k].Value()), learningRate)]
      ensures ValuesOf(ps) == old(ValuesOf(ps))
    {
      forall j | 0 <= j < |layers| && j != k
        ensures layers[j].weights != layers[k].weights && layers[j].biases != layers[k].biases
      {
        assert Distinct(j, k);
      }
      layers[k].ApplyGradients(ps[k], learningRate);
    }

    /** One fresh all-zero package per layer, in layer order. */
    method CreateEmptyGradientsList() returns (ps: seq<GradientPackage>)
      requires Valid()
      ensures forall k :: 0 <= k < |ps| ==> fresh(ps[k])
      ensures Separate(ps)
      ensures ValuesOf(ps) == ZeroGradients(Params())
    {
      ps := [];
      for k := 0 to |layers|
        invariant |ps| == k
        invariant forall j :: 0 <= j < k ==> fresh(ps[j])
        invariant Separate(ps)
        invariant forall j :: 0 <= j < k ==> ps[j].Value() == EmptyGradient(layers[j].Params())
      {
        var p := layers[k].CreateEmptyGradients();
        SeparateExtend(p, ps);
        ps := ps + [p];
      }
    }
  }

  /** Sequences that agree on their first `k` entries agree on their first
      `k + 1` once entry `k` of the first is set to that of the second. */
  lemma PrefixStep<T>(a: seq<T>, b: seq<T>, k: nat)
    requires k < |a| == |b| && a[..k] == b[..k]
    ensures a[k := b[k]][..k + 1] == b[..k + 1]
  {
    assert forall i :: 0 <= i < k ==> a[..k][i] == b[..k][i];
  }

  /** Changing only layer `k`'s cache, to `c`, changes only entry `k` of the
      caches of `net`. */
  twostate lemma CacheSet(net: NeuralNetwork, new k: int)
    requires unchanged(net) && 0 <= k < |net.layers|
    requires forall j :: 0 <= j < |net.layers| && j != k ==> unchanged(net.layers[j])
    ensures net.Caches() == old(net.Caches())[k := net.layers[k].LastCache()]
  {
  }
}
