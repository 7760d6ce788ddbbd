/** Dense real vectors and matrices: the part of Eigen's VectorXd / MatrixXd
    arithmetic that the filter uses, over exact reals. A matrix is a sequence
    of rows. */
module Linalg {

  type Vector = seq<real>
  type Matrix = seq<seq<real>>

  /** A has `rows` rows of `cols` entries each. */
  predicate IsMatrix(A: Matrix, rows: nat, cols: nat) {
    |A| == rows && forall i :: 0 <= i < |A| ==> |A[i]| == cols
  }

  /** Number of columns (0 for a matrix without rows). */
  function Width(A: Matrix): nat {
    if |A| == 0 then 0 else |A[0]|
  }

  predicate IsSymmetric(A: Matrix) {
    IsMatrix(A, |A|, |A|) && forall i, j :: 0 <= i < |A| && 0 <= j < |A| ==> A[i][j] == A[j][i]
  }

  function Zeros(n: nat): (v: Vector)
    ensures |v| == n
  {
    seq(n, _ => 0.0)
  }

  function ZeroMatrix(rows: nat, cols: nat): (A: Matrix)
    ensures IsMatrix(A, rows, cols)
  {
    seq(rows, _ => Zeros(cols))
  }

  function Identity(n: nat): (A: Matrix)
    ensures IsMatrix(A, n, n)
  {
    seq(n, i => seq(n, j => if i == j then 1.0 else 0.0))
  }

  function VAdd(u: Vector, v: Vector): (w: Vector)
    requires |u| == |v|
    ensures |w| == |u|
  {
    seq(|u|, i requires 0 <= i < |u| => u[i] + v[i])
  }

  function VSub(u: Vector, v: Vector): (w: Vector)
    requires |u| == |v|
    ensures |w| == |u|
  {
    seq(|u|, i requires 0 <= i < |u| => u[i] - v[i])
  }

  function VScale(c: real, v: Vector): (w: Vector)
    ensures |w| == |v|
  {
    seq(|v|, i requires 0 <= i < |v| => c * v[i])
  }

  function Dot(u: Vector, v: Vector): real
    requires |u| == |v|
  {
    if |u| == 0 then 0.0 else u[0] * v[0] + Dot(u[1..], v[1..])
  }

  /** Column j of A. */
  function Col(A: Matrix, j: nat): (c: Vector)
    requires forall i :: 0 <= i < |A| ==> j < |A[i]|
    ensures |c| == |A|
  {
    seq(|A|, i requires 0 <= i < |A| => A[i][j])
  }

  function Transpose(A: Matrix): (T: Matrix)
    requires IsMatrix(A, |A|, Width(A))
    ensures IsMatrix(T, Width(A), |A|)
  {
    seq(Width(A), j requires 0 <= j < Width(A) => Col(A, j))
  }

  function MAdd(A: Matrix, B: Matrix): (C: Matrix)
    requires IsMatrix(A, |A|, Width(A)) && IsMatrix(B, |A|, Width(A))
    ensures IsMatrix(C, |A|, Width(A))
  {
    seq(|A|, i requires 0 <= i < |A| => VAdd(A[i], B[i]))
  }

  function MSub(A: Matrix, B: Matrix): (C: Matrix)
    requires IsMatrix(A, |A|, Width(A)) && IsMatrix(B, |A|, Width(A))
    ensures IsMatrix(C, |A|, Width(A))
  {
    seq(|A|, i requires 0 <= i < |A| => VSub(A[i], B[i]))
  }

  function MScale(c: real, A: Matrix): (C: Matrix)
    requires IsMatrix(A, |A|, Width(A))
    ensures IsMatrix(C, |A|, Width(A))
  {
    seq(|A|, i requires 0 <= i < |A| => VScale(c, A[i]))
  }

  /** Matrix-vector product A * v. */
  function MatVec(A: Matrix, v: Vector): (w: Vector)
    requires IsMatrix(A, |A|, |v|)
    ensures |w| == |A|
  {
    seq(|A|, i requires 0 <= i < |A| => Dot(A[i], v))
  }

  /** Matrix product A * B, where B has p columns. */
  function MatMul(A: Matrix, B: Matrix, p: nat): (C: Matrix)
    requires IsMatrix(A, |A|, |B|) && IsMatrix(B, |B|, p)
    ensures IsMatrix(C, |A|, p)
  {
    seq(|A|, i requires 0 <= i < |A| => seq(p, j requires 0 <= j < p => Dot(A[i], Col(B, j))))
  }

  /** The outer product u * v^T. */
  function Outer(u: Vector, v: Vector): (A: Matrix)
    ensures IsMatrix(A, |u|, |v|)
  {
    seq(|u|, i requires 0 <= i < |u| => seq(|v|, j requires 0 <= j < |v| => u[i] * v[j]))
  }

  /** A with its top-left block overwritten by B (Eigen's topLeftCorner assignment). */
  function WithTopLeft(A: Matrix, B: Matrix): (C: Matrix)
    requires IsMatrix(A, |A|, Width(A)) && IsMatrix(B, |B|, Width(B))
    requires |B| <= |A| && (|B| > 0 ==> Width(B) <= Width(A))
    ensures IsMatrix(C, |A|, Width(A))
    ensures forall i, j :: 0 <= i < |A| && 0 <= j < Width(A) ==>
      C[i][j] == if i < |B| && j < Width(B) then B[i][j] else A[i][j]
  {
    seq(|A|, i requires 0 <= i < |A| => if i < |B| then B[i] + A[i][Width(B)..] else A[i])
  }

  /** All entries of A strictly above the diagonal are zero. */
  predicate IsLowerTriangular(A: Matrix) {
    IsMatrix(A, |A|, |A|) && forall i, j :: 0 <= i < j < |A| ==> A[i][j] == 0.0
  }

  /** The unit vector e_k of dimension n. */
  function Unit(n: nat, k: nat): (e: Vector)
    ensures |e| == n
  {
    seq(n, i => if i == k then 1.0 else 0.0)
  }

  /** Multiplying by a unit vector selects one coordinate. */
  lemma {:induction false} DotUnit(v: Vector, k: nat)
    requires k < |v|
    ensures Dot(Unit(|v|, k), v) == v[k]
    ensures Dot(v, Unit(|v|, k)) == v[k]
  {
    if k == 0 {
      DotZeroLeft(v[1..]);
      assert Unit(|v|, 0)[1..] == Zeros(|v| - 1);
    } else {
      assert Unit(|v|, k)[1..] == Unit(|v| - 1, k - 1);
      DotUnit(v[1..], k - 1);
    }
  }

  lemma {:induction false} DotZeroLeft(v: Vector)
    ensures Dot(Zeros(|v|), v) == 0.0
    ensures Dot(v, Zeros(|v|)) == 0.0
  {
    if |v| > 0 {
      assert Zeros(|v|)[1..] == Zeros(|v| - 1);
      DotZeroLeft(v[1..]);
    }
  }

  /** An outer product v * v^T, scaled by any weight, is symmetric. */
  lemma OuterSymmetric(w: real, v: Vector)
    ensures IsSymmetric(MScale(w, Outer(v, v)))
  {
  }

  /** The sum of two symmetric matrices of equal size is symmetric. */
  lemma AddSymmetric(A: Matrix, B: Matrix)
    requires IsSymmetric(A) && IsSymmetric(B) && |A| == |B|
    ensures IsMatrix(A, |A|, Width(A)) && IsMatrix(B, |A|, Width(A))
    ensures IsSymmetric(MAdd(A, B))
  {
  }
}
