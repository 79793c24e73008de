/** `MeanSquaredError`: the loss `Σ (p[i] - t[i])² / n` and its gradient
    `(2 / n) * (p[i] - t[i])`.  Both Java methods throw an
    IllegalArgumentException when the two arrays differ in length; here
    they return `Failure(LengthMismatch)`. */
module Loss {
  import opened Wrappers
  import opened Vectors

  /** `Σ_{i < n} (p[i] - t[i])²`. */
  function SumSquares(p: Vector, t: Vector, n: nat): real
    requires n <= |p| && n <= |t|
  {
    if n == 0 then 0.0 else SumSquares(p, t, n - 1) + (p[n - 1] - t[n - 1]) * (p[n - 1] - t[n - 1])
  }

  /** The mean squared error of predictions `p` against targets `t`.  The
      Java code divides by `p.length` also when it is 0, which yields NaN;
      NaN is not a real, so the empty case is excluded. */
  function Mse(p: Vector, t: Vector): real
    requires |p| == |t| && |p| > 0
  {
    SumSquares(p, t, |p|) / (|p| as real)
  }

  /** The gradient of `Mse` with respect to the predictions. */
  function MseGradient(p: Vector, t: Vector): (g: Vector)
    requires |p| == |t|
    ensures |g| == |p|
  {
    seq(|p|, i requires 0 <= i < |p| => (2.0 / (|p| as real)) * (p[i] - t[i]))
  }

  /** `compute`: fails on a length mismatch, otherwise the mean squared error. */
  method Compute(predictions: seq<real>, targets: seq<real>) returns (r: Result<real>)
    requires |predictions| == |targets| ==> |predictions| > 0
    ensures |predictions| != |targets| <==> r == Failure(LengthMismatch)
    ensures |predictions| == |targets| ==> r == Success(Mse(predictions, targets))
  {
    if |predictions| != |targets| {
      return Failure(LengthMismatch);
    }
    var sumOfSquares := 0.0;
    for i := 0 to |predictions|
      invariant sumOfSquares == SumSquares(predictions, targets, i)
    {
      var error := predictions[i] - targets[i];
      sumOfSquares := sumOfSquares + error * error;
    }
    return Success(sumOfSquares / (|predictions| as real));
  }

  /** `derivative`: fails on a length mismatch, otherwise a fresh gradient
      vector of the predictions' length. */
  method Derivative(predictions: seq<real>, targets: seq<real>) returns (r: Result<seq<real>>)
    ensures |predictions| != |targets| <==> r == Failure(LengthMismatch)
    ensures |predictions| == |targets| ==> r == Success(MseGradient(predictions, targets))
  {
    if |predictions| != |targets| {
      return Failure(LengthMismatch);
    }
    ghost var g := MseGradient(predictions, targets);
    var gradient := new real[|predictions|];
    var n := |predictions| as real;
    for i := 0 to |predictions|
      modifies gradient
      invariant forall k :: 0 <= k < i ==> gradient[k] == g[k]
    {
      gradient[i] := (2.0 / n) * (predictions[i] - targets[i]);
    }
    assert gradient[..] == g;
    return Success(gradient[..]);
  }

  // ---------------------------------------------------------------------
  // Properties

  lemma FactorZero(a: real, b: real)
    requires a != 0.0 && a * b == 0.0
    ensures b == 0.0
  {
    assert b == (a * b) / a;
  }

  lemma {:induction false} SumSquaresNonnegative(p: Vector, t: Vector, n: nat)
    requires n <= |p| && n <= |t|
    ensures SumSquares(p, t, n) >= 0.0
  {
    if n > 0 {
      SumSquaresNonnegative(p, t, n - 1);
    }
  }

  /** The sum of squares vanishes when the first `n` entries agree. */
  lemma {:induction false} SumSquaresOfEqual(p: Vector, t: Vector, n: nat)
    requires n <= |p| && n <= |t|
    requires forall i :: 0 <= i < n ==> p[i] == t[i]
    ensures SumSquares(p, t, n) == 0.0
  {
    if n > 0 {
      SumSquaresOfEqual(p, t, n - 1);
    }
  }

  /** The loss is never negative, and it is zero when the predictions equal
      the targets. */
  lemma MseNonnegative(p: Vector, t: Vector)
    requires |p| == |t| && |p| > 0
    ensures Mse(p, t) >= 0.0
    ensures p == t ==> Mse(p, t) == 0.0
  {
    SumSquaresNonnegative(p, t, |p|);
    if p == t {
      SumSquaresOfEqual(p, t, |p|);
    }
  }

  /** The gradient is the zero vector exactly when the predictions equal the targets. */
  lemma MseGradientZeroIffEqual(p: Vector, t: Vector)
    requires |p| == |t|
    ensures IsZeroVector(MseGradient(p, t)) <==> p == t
  {
    var g := MseGradient(p, t);
    if |p| > 0 && IsZeroVector(g) {
      var c := 2.0 / (|p| as real);
      assert c > 0.0;
      forall i | 0 <= i < |p|
        ensures p[i] == t[i]
      {
        assert g[i] == c * (p[i] - t[i]) == 0.0;
        FactorZero(c, p[i] - t[i]);
      }
    }
  }

  /** Moving prediction `i` by `h` changes the sum of squares by
      `2 h (p[i] - t[i]) + h²`. */
  lemma {:induction false} SumSquaresStep(p: Vector, t: Vector, n: nat, i: nat, h: real)
    requires n <= |p| && n <= |t| && i < |p|
    ensures SumSquares(p[i := p[i] + h], t, n)
         == SumSquares(p, t, n) + (if i < n then 2.0 * h * (p[i] - t[i]) + h * h else 0.0)
  {
    if n > 0 {
      SumSquaresStep(p, t, n - 1, i, h);
      var q := p[i := p[i] + h];
      if n - 1 == i {
        var d := p[i] - t[i];
        assert (q[i] - t[i]) * (q[i] - t[i]) == d * d + 2.0 * h * d + h * h;
      }
    }
  }

  /** `MseGradient` is the derivative of `Mse`: moving prediction `i` by `h`
      changes the loss by exactly `h * gradient[i] + h² / n`. */
  lemma MseGradientIsDerivative(p: Vector, t: Vector, i: nat, h: real)
    requires |p| == |t| && |p| > 0 && i < |p|
    ensures Mse(p[i := p[i] + h], t) == Mse(p, t) + h * MseGradient(p, t)[i] + h * h / (|p| as real)
  {
    SumSquaresStep(p, t, |p|, i, h);
    var n := |p| as real;
    var s := SumSquares(p, t, |p|);
    var d := p[i] - t[i];
    assert MseGradient(p, t)[i] == (2.0 / n) * d;
    assert (s + (2.0 * h * d + h * h)) / n == s / n + h * ((2.0 / n) * d) + h * h / n;
  }

  /** A worked example: one prediction 0 against one target 2. */
  lemma MseExample()
    ensures Mse([0.0], [2.0]) == 4.0
    ensures MseGradient([0.0], [2.0]) == [-4.0]
  {
    assert SumSquares([0.0], [2.0], 1) == 4.0;
  }
}
