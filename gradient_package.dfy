/** `GradientPackage`: the weight-gradient matrix, bias-gradient vector and
    input-gradient vector of one layer.  `add` and the trainer's averaging
    update them in place; here they are fields of the package that those
    operations reassign. */
module Gradients {
  import opened Vectors
  import opened LayerMath

  class GradientPackage {
    var weightGradients: Matrix
    var biasGradients: Vector
    var inputGradient: Vector

    /** The package's contents. */
    function Value(): Gradient
      reads this
    {
      Gradient(weightGradients, biasGradients, inputGradient)
    }

    constructor (weightGradients: Matrix, biasGradients: Vector, inputGradient: Vector)
      ensures Value() == Gradient(weightGradients, biasGradients, inputGradient)
    {
      this.weightGradients := weightGradients;
      this.biasGradients := biasGradients;
      this.inputGradient := inputGradient;
    }

    /** Adds `other`'s weight and bias gradients into this package, entry by
        entry over this package's shape; there is no shape check, so `other`
        must be at least as large.  The input gradient is not accumulated.
        `other` may be this package itself, which then doubles. */
    method Add(other: GradientPackage)
      requires Covers(other.weightGradients, weightGradients)
      requires |biasGradients| <= |other.biasGradients|
      modifies this
      ensures Value() == AddGradient(old(Value()), old(other.Value()))
    {
      AddWeightGradients(other);
      AddBiasGradients(other);
    }

    /** The first loop of `Add`: the weight gradients. */
    method AddWeightGradients(other: GradientPackage)
      requires Covers(other.weightGradients, weightGradients)
      modifies this
      ensures weightGradients == AddM(old(weightGradients), old(other.weightGradients))
      ensures biasGradients == old(biasGradients) && inputGradient == old(inputGradient)
    {
      ghost var w0, o0 := weightGradients, other.weightGradients;
      for i := 0 to |weightGradients|
        invariant |weightGradients| == |w0|
        invariant biasGradients == old(biasGradients) && inputGradient == old(inputGradient)
        invariant other == this || other.weightGradients == o0
        invariant forall r :: 0 <= r < i ==> weightGradients[r] == AddV(w0[r], o0[r])
        invariant forall r :: i <= r < |w0| ==> weightGradients[r] == w0[r]
      {
        for j := 0 to |weightGradients[i]|
          invariant |weightGradients| == |w0| && |weightGradients[i]| == |w0[i]|
          invariant biasGradients == old(biasGradients) && inputGradient == old(inputGradient)
          invariant other == this || other.weightGradients == o0
          invariant forall r :: 0 <= r < i ==> weightGradients[r] == AddV(w0[r], o0[r])
          invariant forall r :: i < r < |w0| ==> weightGradients[r] == w0[r]
          invariant forall c :: 0 <= c < j ==> weightGradients[i][c] == w0[i][c] + o0[i][c]
          invariant forall c :: j <= c < |w0[i]| ==> weightGradients[i][c] == w0[i][c]
        {
          weightGradients := weightGradients[i := weightGradients[i][j := weightGradients[i][j] + other.weightGradients[i][j]]];
        }
        assert weightGradients[i] == AddV(w0[i], o0[i]);
      }
    }

    /** The second loop of `Add`: the bias gradients. */
    method AddBiasGradients(other: GradientPackage)
      requires |biasGradients| <= |other.biasGradients|
      modifies this
      ensures biasGradients == AddV(old(biasGradients), old(other.biasGradients))
      ensures weightGradients == old(weightGradients) && inputGradient == old(inputGradient)
    {
      ghost var b0, o0 := biasGradients, other.biasGradients;
      for i := 0 to |biasGradients|
        invariant |biasGradients| == |b0|
        invariant weightGradients == old(weightGradients) && inputGradient == old(inputGradient)
        invariant other == this || other.biasGradients == o0
        invariant forall c :: 0 <= c < i ==> biasGradients[c] == b0[c] + o0[c]
        invariant forall c :: i <= c < |b0| ==> biasGradients[c] == b0[c]
      {
        biasGradients := biasGradients[i := biasGradients[i] + other.biasGradients[i]];
      }
    }
  }
}
