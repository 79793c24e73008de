/** Vectors and matrices over the reals, with the elementwise operations the
    trainer performs on them.  A matrix is a sequence of rows; the Java code
    stores the same data in `double[][]` arrays. */
module Vectors {

  type Vector = seq<real>
  type Matrix = seq<seq<real>>

  /** `m` has `rows` rows of `cols` entries each. */
  predicate IsMatrix(m: Matrix, rows: nat, cols: nat) {
    |m| == rows && forall i :: 0 <= i < rows ==> |m[i]| == cols
  }

  /** `b` has at least the rows of `a`, each at least as long as the row of `a`. */
  predicate Covers(b: Matrix, a: Matrix) {
    |a| <= |b| && forall i :: 0 <= i < |a| ==> |a[i]| <= |b[i]|
  }

  function Zeros(n: nat): (v: Vector)
    ensures |v| == n && forall i :: 0 <= i < n ==> v[i] == 0.0
  {
    seq(n, _ => 0.0)
  }

  function ZeroMatrix(rows: nat, cols: nat): (m: Matrix)
    ensures IsMatrix(m, rows, cols)
    ensures forall i, j :: 0 <= i < rows && 0 <= j < cols ==> m[i][j] == 0.0
  {
    seq(rows, _ => Zeros(cols))
  }

  predicate IsZeroVector(v: Vector) {
    forall i :: 0 <= i < |v| ==> v[i] == 0.0
  }

  predicate IsZeroMatrix(m: Matrix) {
    forall i, j :: 0 <= i < |m| && 0 <= j < |m[i]| ==> m[i][j] == 0.0
  }

  /** Elementwise `u + v` over the entries of `u`. */
  function AddV(u: Vector, v: Vector): (r: Vector)
    requires |u| <= |v|
    ensures |r| == |u| && forall i :: 0 <= i < |u| ==> r[i] == u[i] + v[i]
  {
    seq(|u|, i requires 0 <= i < |u| => u[i] + v[i])
  }

  /** Elementwise `a + b` over the entries of `a`. */
  function AddM(a: Matrix, b: Matrix): (r: Matrix)
    requires Covers(b, a)
    ensures |r| == |a| && forall i :: 0 <= i < |a| ==> r[i] == AddV(a[i], b[i])
  {
    seq(|a|, i requires 0 <= i < |a| => AddV(a[i], b[i]))
  }

  /** One parameter moved against its gradient `g`, scaled by `lr`. */
  function Descend(w: real, g: real, lr: real): real {
    w - lr * g
  }

  /** Elementwise `u - lr * g` over the entries of `u`: one gradient-descent step. */
  function StepV(u: Vector, g: Vector, lr: real): (r: Vector)
    requires |u| <= |g|
    ensures |r| == |u| && forall i :: 0 <= i < |u| ==> r[i] == Descend(u[i], g[i], lr)
  {
    seq(|u|, i requires 0 <= i < |u| => Descend(u[i], g[i], lr))
  }

  function StepM(a: Matrix, g: Matrix, lr: real): (r: Matrix)
    requires Covers(g, a)
    ensures |r| == |a| && forall i :: 0 <= i < |a| ==> r[i] == StepV(a[i], g[i], lr)
  {
    seq(|a|, i requires 0 <= i < |a| => StepV(a[i], g[i], lr))
  }

  /** Every entry divided by `d`. */
  function DivV(u: Vector, d: real): (r: Vector)
    requires d != 0.0
    ensures |r| == |u| && forall i :: 0 <= i < |u| ==> r[i] == u[i] / d
  {
    seq(|u|, i requires 0 <= i < |u| => u[i] / d)
  }

  function DivM(a: Matrix, d: real): (r: Matrix)
    requires d != 0.0
    ensures |r| == |a| && forall i :: 0 <= i < |a| ==> r[i] == DivV(a[i], d)
  {
    seq(|a|, i requires 0 <= i < |a| => DivV(a[i], d))
  }

  /** `x[0]*w[0] + ... + x[n-1]*w[n-1]`, summed left to right. */
  function Dot(x: Vector, w: Vector, n: nat): real
    requires n <= |x| && n <= |w|
  {
    if n == 0 then 0.0 else Dot(x, w, n - 1) + x[n - 1] * w[n - 1]
  }

  /** `g[0]*m[0][j] + ... + g[k-1]*m[k-1][j]`: column `j` of `m` weighted by `g`. */
  function ColumnDot(g: Vector, m: Matrix, j: nat, k: nat): real
    requires k <= |g| && k <= |m| && forall i :: 0 <= i < k ==> j < |m[i]|
  {
    if k == 0 then 0.0 else ColumnDot(g, m, j, k - 1) + g[k - 1] * m[k - 1][j]
  }

  /** The matrix-vector product `m·x`. */
  function MatVec(m: Matrix, x: Vector): (r: Vector)
    requires forall i :: 0 <= i < |m| ==> |m[i]| <= |x|
    ensures |r| == |m| && forall i :: 0 <= i < |m| ==> r[i] == Dot(x, m[i], |m[i]|)
  {
    seq(|m|, i requires 0 <= i < |m| => Dot(x, m[i], |m[i]|))
  }

  /** The transposed product `mᵀ·g`, restricted to the first `cols` columns. */
  function TransposeVec(m: Matrix, g: Vector, cols: nat): (r: Vector)
    requires |m| <= |g| && forall i :: 0 <= i < |m| ==> cols <= |m[i]|
    ensures |r| == cols && forall j :: 0 <= j < cols ==> r[j] == ColumnDot(g, m, j, |m|)
  {
    seq(cols, j requires 0 <= j < cols => ColumnDot(g, m, j, |m|))
  }

  /** The outer product `g·xᵀ` with `|g|` rows and `cols` columns. */
  function Outer(g: Vector, x: Vector, cols: nat): (r: Matrix)
    requires |g| > 0 ==> cols <= |x|
    ensures IsMatrix(r, |g|, cols)
    ensures forall i, j :: 0 <= i < |g| && 0 <= j < cols ==> r[i][j] == g[i] * x[j]
  {
    seq(|g|, i requires 0 <= i < |g| => seq(cols, j requires 0 <= j < cols => g[i] * x[j]))
  }

  /** Two matrices with the same shape and the same entries are equal. */
  lemma MatrixExt(a: Matrix, b: Matrix, rows: nat, cols: nat)
    requires IsMatrix(a, rows, cols) && IsMatrix(b, rows, cols)
    requires forall i, j :: 0 <= i < rows && 0 <= j < cols ==> a[i][j] == b[i][j]
    ensures a == b
  {
    forall i | 0 <= i < rows
      ensures a[i] == b[i]
    {
      assert forall j :: 0 <= j < cols ==> a[i][j] == b[i][j];
    }
  }

  // ---------------------------------------------------------------------
  // Algebra of elementwise addition: it does not matter in which order
  // gradient contributions are accumulated.

  lemma AddVCommutes(u: Vector, v: Vector)
    requires |u| == |v|
    ensures AddV(u, v) == AddV(v, u)
  {
  }

  lemma AddVAssociates(u: Vector, v: Vector, w: Vector)
    requires |u| == |v| == |w|
    ensures AddV(AddV(u, v), w) == AddV(u, AddV(v, w))
  {
  }

  lemma AddMCommutes(a: Matrix, b: Matrix, rows: nat, cols: nat)
    requires IsMatrix(a, rows, cols) && IsMatrix(b, rows, cols)
    ensures AddM(a, b) == AddM(b, a)
  {
    MatrixExt(AddM(a, b), AddM(b, a), rows, cols);
  }

  lemma AddMAssociates(a: Matrix, b: Matrix, c: Matrix, rows: nat, cols: nat)
    requires IsMatrix(a, rows, cols) && IsMatrix(b, rows, cols) && IsMatrix(c, rows, cols)
    ensures AddM(AddM(a, b), c) == AddM(a, AddM(b, c))
  {
    MatrixExt(AddM(AddM(a, b), c), AddM(a, AddM(b, c)), rows, cols);
  }

  lemma AddZeroV(u: Vector, z: Vector)
    requires |u| <= |z| && IsZeroVector(z)
    ensures AddV(u, z) == u
  {
  }

  lemma AddZeroM(a: Matrix, z: Matrix, rows: nat, cols: nat)
    requires IsMatrix(a, rows, cols) && Covers(z, a) && IsZeroMatrix(z)
    ensures AddM(a, z) == a
  {
    MatrixExt(AddM(a, z), a, rows, cols);
  }

  /** A step with a zero gradient or a zero rate leaves the values as they are. */
  lemma StepMNoop(a: Matrix, g: Matrix, lr: real, rows: nat, cols: nat)
    requires IsMatrix(a, rows, cols) && Covers(g, a)
    requires lr == 0.0 || IsZeroMatrix(g)
    ensures StepM(a, g, lr) == a
  {
    MatrixExt(StepM(a, g, lr), a, rows, cols);
  }

  lemma StepVNoop(u: Vector, g: Vector, lr: real)
    requires |u| <= |g|
    requires lr == 0.0 || IsZeroVector(g)
    ensures StepV(u, g, lr) == u
  {
  }

  // ---------------------------------------------------------------------
  // Linearity of the dot product, used for the adjoint property of the
  // backward pass.

  lemma {:induction false} DotAdd(x: Vector, u: Vector, v: Vector, n: nat)
    requires n <= |x| && n <= |u| == |v|
    ensures Dot(x, AddV(u, v), n) == Dot(x, u, n) + Dot(x, v, n)
  {
    if n > 0 {
      DotAdd(x, u, v, n - 1);
    }
  }

  lemma {:induction false} DotZero(x: Vector, z: Vector, n: nat)
    requires n <= |x| && n <= |z| && IsZeroVector(z)
    ensures Dot(x, z, n) == 0.0
  {
    if n > 0 {
      DotZero(x, z, n - 1);
    }
  }

  /** Every entry multiplied by `c`. */
  function ScaleV(c: real, u: Vector): (r: Vector)
    ensures |r| == |u| && forall i :: 0 <= i < |u| ==> r[i] == c * u[i]
  {
    seq(|u|, i requires 0 <= i < |u| => c * u[i])
  }

  lemma {:induction false} DotScale(x: Vector, c: real, u: Vector, n: nat)
    requires n <= |x| && n <= |u|
    ensures Dot(x, ScaleV(c, u), n) == c * Dot(x, u, n)
  {
    if n > 0 {
      DotScale(x, c, u, n - 1);
      assert x[n - 1] * (c * u[n - 1]) == c * (x[n - 1] * u[n - 1]);
    }
  }

  /** `⟨x, u + c·w⟩ = ⟨x, u⟩ + c·⟨x, w⟩`. */
  lemma DotAddScaled(x: Vector, u: Vector, c: real, w: Vector, n: nat)
    requires n <= |x| && n <= |u| == |w|
    ensures Dot(x, AddV(u, ScaleV(c, w)), n) == Dot(x, u, n) + c * Dot(x, w, n)
  {
    DotAdd(x, u, ScaleV(c, w), n);
    DotScale(x, c, w, n);
  }

  /** `mᵀ·g` over the first `k` rows of `m` and the first `cols` columns. */
  function TransposeVecUpTo(m: Matrix, g: Vector, cols: nat, k: nat): (r: Vector)
    requires k <= |g| && k <= |m| && forall i :: 0 <= i < k ==> cols <= |m[i]|
    ensures |r| == cols && forall j :: 0 <= j < cols ==> r[j] == ColumnDot(g, m, j, k)
  {
    seq(cols, j requires 0 <= j < cols => ColumnDot(g, m, j, k))
  }

  /** Taking one more row into the transposed product adds that row, weighted. */
  lemma TransposeVecStep(m: Matrix, g: Vector, cols: nat, k: nat)
    requires k < |g| && k < |m| && forall i :: 0 <= i <= k ==> cols <= |m[i]|
    ensures TransposeVecUpTo(m, g, cols, k + 1)
         == AddV(TransposeVecUpTo(m, g, cols, k), ScaleV(g[k], m[k]))
  {
    var t, r := TransposeVecUpTo(m, g, cols, k + 1), AddV(TransposeVecUpTo(m, g, cols, k), ScaleV(g[k], m[k]));
    assert forall j :: 0 <= j < cols ==> t[j] == r[j];
  }

  /** Row `k` of `m`, weighted by `g[k]`, adds `g[k]·⟨v, m[k]⟩` to `⟨v, mᵀ·g⟩`. */
  lemma TransposeDotStep(m: Matrix, g: Vector, v: Vector, cols: nat, k: nat)
    requires k < |g| && k < |m| && |v| == cols && forall i :: 0 <= i < |m| ==> |m[i]| == cols
    ensures Dot(v, TransposeVecUpTo(m, g, cols, k + 1), cols)
         == Dot(v, TransposeVecUpTo(m, g, cols, k), cols) + g[k] * Dot(v, m[k], cols)
  {
    TransposeVecStep(m, g, cols, k);
    DotAddScaled(v, TransposeVecUpTo(m, g, cols, k), g[k], m[k], cols);
  }

  /** The transposed product is the adjoint of the matrix-vector product:
      `⟨v, mᵀ·g⟩ = ⟨g, m·v⟩` for every `v`, here over the first `k` rows. */
  lemma {:induction false} TransposeIsAdjointUpTo(m: Matrix, g: Vector, v: Vector, cols: nat, k: nat)
    requires k <= |g| && k <= |m| && |v| == cols && forall i :: 0 <= i < |m| ==> |m[i]| == cols
    ensures Dot(v, TransposeVecUpTo(m, g, cols, k), cols) == Dot(g, MatVec(m, v), k)
  {
    if k > 0 {
      TransposeIsAdjointUpTo(m, g, v, cols, k - 1);
      TransposeDotStep(m, g, v, cols, k - 1);
      assert MatVec(m, v)[k - 1] == Dot(v, m[k - 1], cols);
    } else {
      DotZero(v, TransposeVecUpTo(m, g, cols, 0), cols);
    }
  }

  /** `⟨v, mᵀ·g⟩ = ⟨g, m·v⟩`: the input gradient of a dense layer is the
      derivative of its weighted sums applied backwards. */
  lemma TransposeIsAdjoint(m: Matrix, g: Vector, v: Vector, rows: nat, cols: nat)
    requires IsMatrix(m, rows, cols) && |g| == rows && |v| == cols
    ensures Dot(v, TransposeVec(m, g, cols), cols) == Dot(g, MatVec(m, v), rows)
  {
    assert TransposeVec(m, g, cols) == TransposeVecUpTo(m, g, cols, rows);
    TransposeIsAdjointUpTo(m, g, v, cols, rows);
  }
}
