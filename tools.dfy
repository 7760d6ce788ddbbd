/** The accuracy scorer: the coefficient-wise root-mean-square error between
    the filter's estimates and the ground truth, accumulated in a loop. */
module Tools {
  import opened Linalg
  import opened Numerics

  /** Estimates and ground truth carry (px, py, vx, vy). */
  const NRmse: nat := 4

  /** Both sequences have the same, non-zero length and every element has
      four components. The scorer's own check of the lengths only prints a
      message and goes on, so this is what its callers must guarantee. */
  predicate ValidInput(estimations: seq<Vector>, groundTruth: seq<Vector>) {
    && |estimations| == |groundTruth| && |estimations| > 0
    && (forall i :: 0 <= i < |estimations| ==> |estimations[i]| == NRmse)
    && (forall i :: 0 <= i < |groundTruth| ==> |groundTruth[i]| == NRmse)
  }

  /** (est[0][j] - gt[0][j])^2 + ... + (est[n-1][j] - gt[n-1][j])^2. */
  function SquaredResidualSum(estimations: seq<Vector>, groundTruth: seq<Vector>, n: nat, j: nat): real
    requires n <= |estimations| && n <= |groundTruth|
    requires forall i :: 0 <= i < n ==> j < |estimations[i]| && j < |groundTruth[i]|
    decreases n
  {
    if n == 0 then 0.0
    else
      var d := estimations[n - 1][j] - groundTruth[n - 1][j];
      SquaredResidualSum(estimations, groundTruth, n - 1, j) + d * d
  }

  /** A sum of squares is never negative, and it is zero when the estimates
      agree with the ground truth in that component. */
  lemma {:induction false} SquaredResidualSumBounds(estimations: seq<Vector>, groundTruth: seq<Vector>, n: nat, j: nat)
    requires n <= |estimations| && n <= |groundTruth|
    requires forall i :: 0 <= i < n ==> j < |estimations[i]| && j < |groundTruth[i]|
    ensures SquaredResidualSum(estimations, groundTruth, n, j) >= 0.0
    ensures (forall i :: 0 <= i < n ==> estimations[i][j] == groundTruth[i][j]) ==>
              SquaredResidualSum(estimations, groundTruth, n, j) == 0.0
  {
    if n > 0 {
      SquaredResidualSumBounds(estimations, groundTruth, n - 1, j);
      var d := estimations[n - 1][j] - groundTruth[n - 1][j];
      assert d * d >= 0.0;
    }
  }

  /** The mean squared residual of component j over all the estimates. */
  function MeanSquaredResidual(estimations: seq<Vector>, groundTruth: seq<Vector>, j: nat): (m: real)
    requires ValidInput(estimations, groundTruth) && j < NRmse
    ensures m >= 0.0
    ensures m * |estimations| as real == SquaredResidualSum(estimations, groundTruth, |estimations|, j)
  {
    SquaredResidualSumBounds(estimations, groundTruth, |estimations|, j);
    SquaredResidualSum(estimations, groundTruth, |estimations|, j) / |estimations| as real
  }

  /** A non-negative root of a square is unique. */
  lemma RootUnique(r: real, s: real)
    requires r >= 0.0 && s >= 0.0 && r * r == s * s
    ensures r == s
  {
    assert (r - s) * (r + s) == 0.0;
    if r + s > 0.0 {
      assert r - s == (r - s) * (r + s) / (r + s);
    }
  }

  /** The squared residuals of every estimate, summed component by component
      into a four-vector that starts at zero. */
  method AccumulateSquaredResiduals(estimations: seq<Vector>, groundTruth: seq<Vector>) returns (temp: Vector)
    requires ValidInput(estimations, groundTruth)
    ensures |temp| == NRmse
    ensures forall j :: 0 <= j < NRmse ==> temp[j] == SquaredResidualSum(estimations, groundTruth, |estimations|, j)
  {
    temp := Zeros(NRmse);
    for i := 0 to |estimations|
      invariant |temp| == NRmse
      invariant forall j :: 0 <= j < NRmse ==> temp[j] == SquaredResidualSum(estimations, groundTruth, i, j)
    {
      var residual := VSub(estimations[i], groundTruth[i]);
      // coefficient-wise multiplication
      residual := seq(NRmse, j requires 0 <= j < NRmse => residual[j] * residual[j]);
      temp := VAdd(temp, residual);
    }
  }

  /** The coefficient-wise RMSE: the squared residuals summed into a
      four-vector that starts at zero, divided by the number of estimates,
      and square-rooted component by component. */
  method CalculateRMSE(lib: Library, estimations: seq<Vector>, groundTruth: seq<Vector>) returns (rmse: Vector)
    requires lib.Valid() && ValidInput(estimations, groundTruth)
    ensures |rmse| == NRmse
    ensures forall j :: 0 <= j < NRmse ==>
              rmse[j] >= 0.0 && rmse[j] * rmse[j] == MeanSquaredResidual(estimations, groundTruth, j)
    ensures estimations == groundTruth ==> rmse == Zeros(NRmse)
  {
    var temp := AccumulateSquaredResiduals(estimations, groundTruth);
    // mean
    temp := seq(NRmse, j requires 0 <= j < NRmse => temp[j] / |estimations| as real);
    assert forall j :: 0 <= j < NRmse ==> temp[j] == MeanSquaredResidual(estimations, groundTruth, j);
    // square root
    temp := seq(NRmse, j requires 0 <= j < NRmse => lib.sqrt(temp[j]));
    rmse := temp;
    if estimations == groundTruth {
      forall j | 0 <= j < NRmse
        ensures rmse[j] == 0.0
      {
        SquaredResidualSumBounds(estimations, groundTruth, |estimations|, j);
        RootUnique(rmse[j], 0.0);
      }
    }
  }

  /** One estimate (1, 1, 0, 0) against ground truth (0, 0, 0, 0) has mean
      squared residuals (1, 1, 0, 0), so its RMSE is (1, 1, 0, 0). */
  lemma SingleEstimateExample(rmse: Vector)
    requires |rmse| == NRmse
    requires forall j :: 0 <= j < NRmse ==>
      rmse[j] >= 0.0 && rmse[j] * rmse[j] == MeanSquaredResidual([[1.0, 1.0, 0.0, 0.0]], [[0.0, 0.0, 0.0, 0.0]], j)
    ensures rmse == [1.0, 1.0, 0.0, 0.0]
  {
    var est, gt := [[1.0, 1.0, 0.0, 0.0]], [[0.0, 0.0, 0.0, 0.0]];
    forall j | 0 <= j < NRmse
      ensures rmse[j] == [1.0, 1.0, 0.0, 0.0][j]
    {
      assert SquaredResidualSum(est, gt, 1, j) == (est[0][j] - gt[0][j]) * (est[0][j] - gt[0][j]);
      RootUnique(rmse[j], [1.0, 1.0, 0.0, 0.0][j]);
    }
  }
}
