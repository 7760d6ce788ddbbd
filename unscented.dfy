/** The accumulations of the unscented transform that the filter writes as
    `for` loops over its 15 sigma points: weighted sums of columns, residuals
    against a mean with one angle component normalised, and weighted sums of
    outer products of residuals. */
module Unscented {
  import opened Linalg
  import opened Numerics

  /** Every column has dimension dim. */
  predicate AllDim(cols: seq<Vector>, dim: nat) {
    forall i :: 0 <= i < |cols| ==> |cols[i]| == dim
  }

  /** w[0] * cols[0] + ... + w[n-1] * cols[n-1], accumulated from the zero
      vector in index order. */
  function WeightedSum(w: seq<real>, cols: seq<Vector>, n: nat, dim: nat): (s: Vector)
    requires n <= |w| && n <= |cols| && AllDim(cols, dim)
    ensures |s| == dim
    decreases n
  {
    if n == 0 then Zeros(dim)
    else VAdd(WeightedSum(w, cols, n - 1, dim), VScale(w[n - 1], cols[n - 1]))
  }

  /** Component r of the weighted sum, as a scalar sum. */
  function SumAt(w: seq<real>, cols: seq<Vector>, n: nat, r: nat): real
    requires n <= |w| && n <= |cols| && forall i :: 0 <= i < n ==> r < |cols[i]|
    decreases n
  {
    if n == 0 then 0.0 else SumAt(w, cols, n - 1, r) + w[n - 1] * cols[n - 1][r]
  }

  lemma {:induction false} WeightedSumAt(w: seq<real>, cols: seq<Vector>, n: nat, dim: nat, r: nat)
    requires n <= |w| && n <= |cols| && AllDim(cols, dim) && r < dim
    ensures WeightedSum(w, cols, n, dim)[r] == SumAt(w, cols, n, r)
  {
    if n > 0 {
      WeightedSumAt(w, cols, n - 1, dim, r);
    }
  }

  /** A scalar weighted sum only depends on component r of its columns. */
  lemma {:induction false} SumAtCongruent(w: seq<real>, a: seq<Vector>, b: seq<Vector>, n: nat, r: nat)
    requires n <= |w| && n <= |a| && n <= |b|
    requires forall i :: 0 <= i < n ==> r < |a[i]| && r < |b[i]| && a[i][r] == b[i][r]
    ensures SumAt(w, a, n, r) == SumAt(w, b, n, r)
  {
    if n > 0 {
      SumAtCongruent(w, a, b, n - 1, r);
    }
  }

  /** v with its component k normalised into [-Pi, Pi]. */
  function WrapAt(v: Vector, k: nat): (u: Vector)
    requires k < |v|
    ensures |u| == |v|
  {
    v[k := Wrap(v[k])]
  }

  /** The difference u - mean with its angle component brought into [-Pi, Pi]
      by the filter's pair of normalisation loops. */
  method AngleResidual(u: Vector, mean: Vector, angle: nat) returns (d: Vector)
    requires |u| == |mean| && angle < |u|
    ensures d == WrapAt(VSub(u, mean), angle)
    ensures -Pi <= d[angle] <= Pi
  {
    d := VSub(u, mean);
    var a := NormalizeAngle(d[angle]);
    d := d[angle := a];
  }

  /** The residual of every column against the mean, with the component at
      index `angle` normalised. */
  function Residuals(cols: seq<Vector>, mean: Vector, angle: nat): (d: seq<Vector>)
    requires AllDim(cols, |mean|) && angle < |mean|
    ensures |d| == |cols| && AllDim(d, |mean|)
  {
    seq(|cols|, i requires 0 <= i < |cols| => WrapAt(VSub(cols[i], mean), angle))
  }

  /** Every residual agrees with the plain difference except in its angle
      component, which is that difference brought into [-Pi, Pi] by whole turns. */
  lemma ResidualsMeaning(cols: seq<Vector>, mean: Vector, angle: nat, i: nat) returns (turns: int)
    requires AllDim(cols, |mean|) && angle < |mean| && i < |cols|
    ensures forall r :: 0 <= r < |mean| && r != angle ==>
              Residuals(cols, mean, angle)[i][r] == cols[i][r] - mean[r]
    ensures -Pi <= Residuals(cols, mean, angle)[i][angle] <= Pi
    ensures Residuals(cols, mean, angle)[i][angle] == cols[i][angle] - mean[angle] + turns as real * TwoPi
  {
    WrapRange(cols[i][angle] - mean[angle]);
    turns := WrapCongruent(cols[i][angle] - mean[angle]);
  }

  /** w[0] * us[0] * vs[0]^T + ... + w[n-1] * us[n-1] * vs[n-1]^T, accumulated
      from the zero matrix in index order. */
  function WeightedOuterSum(w: seq<real>, us: seq<Vector>, vs: seq<Vector>, n: nat, rows: nat, cols: nat): (M: Matrix)
    requires n <= |w| && n <= |us| && n <= |vs| && AllDim(us, rows) && AllDim(vs, cols)
    ensures IsMatrix(M, rows, cols)
    decreases n
  {
    if n == 0 then ZeroMatrix(rows, cols)
    else
      var prev := WeightedOuterSum(w, us, vs, n - 1, rows, cols);
      assert rows > 0 ==> Width(prev) == cols;
      MAdd(prev, MScale(w[n - 1], Outer(us[n - 1], vs[n - 1])))
  }

  /** A weighted sum of outer products of residuals with themselves is a
      symmetric matrix, whatever the weights. */
  lemma {:induction false} WeightedOuterSumSymmetric(w: seq<real>, ds: seq<Vector>, n: nat, dim: nat)
    requires n <= |w| && n <= |ds| && AllDim(ds, dim)
    ensures IsSymmetric(WeightedOuterSum(w, ds, ds, n, dim, dim))
  {
    if n > 0 {
      WeightedOuterSumSymmetric(w, ds, n - 1, dim);
      var prev := WeightedOuterSum(w, ds, ds, n - 1, dim, dim);
      var term := MScale(w[n - 1], Outer(ds[n - 1], ds[n - 1]));
      OuterSymmetric(w[n - 1], ds[n - 1]);
      AddSymmetric(prev, term);
    }
  }
}
