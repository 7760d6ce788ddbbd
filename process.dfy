/** The prediction half of the filter as reference definitions: state
    augmentation, the 15 sigma points, their weights, the CTRV motion model and
    the recombined predicted mean and covariance; with the properties the
    filter relies on. */
module Process {
  import opened Linalg
  import opened Numerics
  import opened Unscented

  const NX: nat := 5
  const NAug: nat := 7
  const NSigma: nat := 2 * NAug + 1
  /** The spreading parameter lambda = 3 - n_aug. */
  const Lambda: real := 3.0 - NAug as real
  /** Process noise standard deviations (longitudinal and yaw acceleration). */
  const StdA: real := 1.5
  const StdYawdd: real := 0.9
  /** Below this yaw-rate magnitude the motion model uses straight-line motion. */
  const YawRateThreshold: real := 0.001
  /** Index of the yaw angle in the state. */
  const YawIndex: nat := 3

  /** The state mean extended with the two zero-mean noise components. */
  function AugmentedMean(x: Vector): (xa: Vector)
    requires |x| == NX
    ensures |xa| == NAug
    ensures xa[..NX] == x && xa[5] == 0.0 && xa[6] == 0.0
  {
    x + [0.0, 0.0]
  }

  /** The augmented covariance: P in the top-left 5x5 block, the two noise
      variances on the rest of the diagonal, zero everywhere else. */
  function AugmentedCovariance(P: Matrix): (Pa: Matrix)
    requires IsMatrix(P, NX, NX)
    ensures IsMatrix(Pa, NAug, NAug)
  {
    seq(NAug, i requires 0 <= i < NAug => seq(NAug, j requires 0 <= j < NAug =>
      if i < NX && j < NX then P[i][j]
      else if i == 5 && j == 5 then StdA * StdA
      else if i == 6 && j == 6 then StdYawdd * StdYawdd
      else 0.0))
  }

  /** Augmenting a symmetric covariance gives a symmetric covariance. */
  lemma AugmentedCovarianceSymmetric(P: Matrix)
    requires IsMatrix(P, NX, NX) && IsSymmetric(P)
    ensures IsSymmetric(AugmentedCovariance(P))
  {
  }

  /** The spread factor sqrt(lambda + n_aug) = sqrt(3). */
  function Spread(lib: Library): real {
    lib.sqrt(Lambda + NAug as real)
  }

  lemma SpreadSquare(lib: Library)
    requires lib.Valid()
    ensures Spread(lib) > 0.0 && Spread(lib) * Spread(lib) == 3.0
  {
  }

  /** Sigma point i: the mean for i = 0, mean + c * L.col(i-1) for i = 1..7,
      mean - c * L.col(i-8) for i = 8..14. */
  function SigmaPoint(xa: Vector, L: Matrix, c: real, i: nat): (s: Vector)
    requires |xa| == NAug && IsMatrix(L, NAug, NAug) && i < NSigma
    ensures |s| == NAug
  {
    if i == 0 then xa
    else if i <= NAug then VAdd(xa, VScale(c, Col(L, i - 1)))
    else VSub(xa, VScale(c, Col(L, i - 1 - NAug)))
  }

  /** The 15 sigma points as columns: the mean, then the "+" set, then the "-" set. */
  function SigmaPoints(xa: Vector, L: Matrix, c: real): (X: seq<Vector>)
    requires |xa| == NAug && IsMatrix(L, NAug, NAug)
    ensures |X| == NSigma && AllDim(X, NAug)
  {
    seq(NSigma, i requires 0 <= i < NSigma => SigmaPoint(xa, L, c, i))
  }

  /** Each "+" point and its "-" partner average exactly to the augmented mean. */
  lemma SigmaPairsAverage(xa: Vector, L: Matrix, c: real, k: nat)
    requires |xa| == NAug && IsMatrix(L, NAug, NAug) && k < NAug
    ensures forall r :: 0 <= r < NAug ==>
      (SigmaPoints(xa, L, c)[k + 1][r] + SigmaPoints(xa, L, c)[k + 1 + NAug][r]) / 2.0 == xa[r]
  {
    var X := SigmaPoints(xa, L, c);
    forall r | 0 <= r < NAug
      ensures (X[k + 1][r] + X[k + 1 + NAug][r]) / 2.0 == xa[r]
    {
      assert X[k + 1][r] == xa[r] + c * L[r][k];
      assert X[k + 1 + NAug][r] == xa[r] - c * L[r][k];
    }
  }

  /** The values of the weights lambda / (lambda + n_aug) and 0.5 / (lambda + n_aug):
      -4/3 for the centre point and 1/6 for each of the other fourteen. */
  function Weights(): (w: seq<real>)
    ensures |w| == NSigma
  {
    [-4.0 / 3.0] + seq(2 * NAug, _ => 1.0 / 6.0)
  }

  lemma WeightsFormula()
    ensures Weights()[0] == Lambda / (Lambda + NAug as real)
    ensures forall i :: 1 <= i < NSigma ==> Weights()[i] == 0.5 / (Lambda + NAug as real)
  {
  }

  function Sum(s: seq<real>): real {
    if |s| == 0 then 0.0 else Sum(s[..|s| - 1]) + s[|s| - 1]
  }

  lemma {:induction false} SumOfConstant(s: seq<real>, c: real)
    requires forall i :: 0 <= i < |s| ==> s[i] == c
    ensures Sum(s) == |s| as real * c
  {
    if |s| > 0 {
      SumOfConstant(s[..|s| - 1], c);
    }
  }

  lemma {:induction false} SumAppend(s: seq<real>, t: seq<real>)
    ensures Sum(s + t) == Sum(s) + Sum(t)
  {
    if |t| == 0 {
      assert s + t == s;
    } else {
      assert (s + t)[..|s + t| - 1] == s + t[..|t| - 1];
      SumAppend(s, t[..|t| - 1]);
    }
  }

  /** The 15 weights sum to exactly 1. */
  lemma WeightsSumToOne()
    ensures Sum(Weights()) == 1.0
  {
    var w := Weights();
    assert w == [w[0]] + w[1..];
    SumAppend([w[0]], w[1..]);
    SumOfConstant(w[1..], 1.0 / 6.0);
    assert Sum([w[0]]) == w[0] by {
      assert [w[0]][..0] == [];
    }
  }

  /** c * L[r][0] + ... + c * L[r][k-1]. */
  function SpreadSum(L: Matrix, c: real, r: nat, k: nat): real
    requires IsMatrix(L, NAug, NAug) && r < NAug && k <= NAug
  {
    if k == 0 then 0.0 else SpreadSum(L, c, r, k - 1) + c * L[r][k - 1]
  }

  /** Sigma point i, component r, in terms of the mean and the square-root matrix. */
  lemma SigmaEntry(xa: Vector, L: Matrix, c: real, i: nat, r: nat)
    requires |xa| == NAug && IsMatrix(L, NAug, NAug) && i < NSigma && r < NAug
    ensures i == 0 ==> SigmaPoints(xa, L, c)[i][r] == xa[r]
    ensures 1 <= i <= NAug ==> SigmaPoints(xa, L, c)[i][r] == xa[r] + c * L[r][i - 1]
    ensures NAug < i ==> SigmaPoints(xa, L, c)[i][r] == xa[r] - c * L[r][i - 1 - NAug]
  {
    if 1 <= i <= NAug {
      PlusEntry(xa, L, c, i, r);
    } else if NAug < i {
      MinusEntry(xa, L, c, i - NAug, r);
    }
  }

  /** Component r of the k-th "+" point. */
  lemma PlusEntry(xa: Vector, L: Matrix, c: real, k: nat, r: nat)
    requires |xa| == NAug && IsMatrix(L, NAug, NAug) && 1 <= k <= NAug && r < NAug
    ensures SigmaPoints(xa, L, c)[k][r] == xa[r] + c * L[r][k - 1]
  {
    assert SigmaPoints(xa, L, c)[k] == VAdd(xa, VScale(c, Col(L, k - 1)));
  }

  /** Component r of the k-th "-" point. */
  lemma MinusEntry(xa: Vector, L: Matrix, c: real, k: nat, r: nat)
    requires |xa| == NAug && IsMatrix(L, NAug, NAug) && 1 <= k <= NAug && r < NAug
    ensures SigmaPoints(xa, L, c)[NAug + k][r] == xa[r] - c * L[r][k - 1]
  {
    assert SigmaPoints(xa, L, c)[NAug + k] == VSub(xa, VScale(c, Col(L, k - 1)));
  }

  /** a added k times. */
  function Times(k: nat, a: real): real {
    if k == 0 then 0.0 else Times(k - 1, a) + a
  }

  lemma {:induction false} TimesIsProduct(k: nat, a: real)
    ensures Times(k, a) == k as real * a
  {
    if k > 0 {
      TimesIsProduct(k - 1, a);
    }
  }

  /** Every sigma point but the centre has weight 1/6. */
  lemma OuterWeight(i: nat)
    requires 1 <= i < NSigma
    ensures Weights()[i] == 1.0 / 6.0
  {
  }

  /** One more term of a scalar weighted sum. */
  lemma SumAtStep(w: seq<real>, cols: seq<Vector>, n: nat, r: nat)
    requires 0 < n <= |w| && n <= |cols| && forall i :: 0 <= i < n ==> r < |cols[i]|
    ensures SumAt(w, cols, n, r) == SumAt(w, cols, n - 1, r) + w[n - 1] * cols[n - 1][r]
  {
  }

  /** The centre point and the first k "+" points. */
  lemma {:induction false} SigmaPlusPrefix(xa: Vector, L: Matrix, c: real, r: nat, k: nat)
    requires |xa| == NAug && IsMatrix(L, NAug, NAug) && r < NAug && k <= NAug
    ensures SumAt(Weights(), SigmaPoints(xa, L, c), 1 + k, r)
            == (-4.0 / 3.0) * xa[r] + Times(k, xa[r]) / 6.0 + SpreadSum(L, c, r, k) / 6.0
  {
    var X := SigmaPoints(xa, L, c);
    if k == 0 {
      SumAtStep(Weights(), X, 1, r);
      SigmaEntry(xa, L, c, 0, r);
    } else {
      var a, s := xa[r], c * L[r][k - 1];
      calc {
        SumAt(Weights(), X, 1 + k, r);
      ==  { SumAtStep(Weights(), X, 1 + k, r); }
        SumAt(Weights(), X, k, r) + Weights()[k] * X[k][r];
      ==  { OuterWeight(k); PlusEntry(xa, L, c, k, r); }
        SumAt(Weights(), X, k, r) + (a + s) / 6.0;
      ==  { SigmaPlusPrefix(xa, L, c, r, k - 1); }
        (-4.0 / 3.0) * a + (Times(k - 1, a) + a) / 6.0 + (SpreadSum(L, c, r, k - 1) + s) / 6.0;
      }
    }
  }

  /** The centre point, all "+" points and the first k "-" points. */
  lemma {:induction false} SigmaMinusPrefix(xa: Vector, L: Matrix, c: real, r: nat, k: nat)
    requires |xa| == NAug && IsMatrix(L, NAug, NAug) && r < NAug && k <= NAug
    ensures SumAt(Weights(), SigmaPoints(xa, L, c), 1 + NAug + k, r)
            == (-4.0 / 3.0) * xa[r] + Times(NAug, xa[r]) / 6.0 + SpreadSum(L, c, r, NAug) / 6.0
               + Times(k, xa[r]) / 6.0 - SpreadSum(L, c, r, k) / 6.0
  {
    var X := SigmaPoints(xa, L, c);
    if k == 0 {
      SigmaPlusPrefix(xa, L, c, r, NAug);
    } else {
      var a, s := xa[r], c * L[r][k - 1];
      calc {
        SumAt(Weights(), X, 1 + NAug + k, r);
      ==  { SumAtStep(Weights(), X, 1 + NAug + k, r); }
        SumAt(Weights(), X, NAug + k, r) + Weights()[NAug + k] * X[NAug + k][r];
      ==  { OuterWeight(NAug + k); MinusEntry(xa, L, c, k, r); }
        SumAt(Weights(), X, NAug + k, r) + (a - s) / 6.0;
      ==  { SigmaMinusPrefix(xa, L, c, r, k - 1); }
        (-4.0 / 3.0) * a + Times(NAug, a) / 6.0 + SpreadSum(L, c, r, NAug) / 6.0
          + (Times(k - 1, a) + a) / 6.0 - (SpreadSum(L, c, r, k - 1) + s) / 6.0;
      }
    }
  }

  /** The weighted mean of the augmented sigma points is the augmented mean,
      whatever the square-root matrix and the spread. */
  lemma SigmaMean(xa: Vector, L: Matrix, c: real)
    requires |xa| == NAug && IsMatrix(L, NAug, NAug)
    ensures WeightedSum(Weights(), SigmaPoints(xa, L, c), NSigma, NAug) == xa
  {
    var X := SigmaPoints(xa, L, c);
    forall r | 0 <= r < NAug
      ensures WeightedSum(Weights(), X, NSigma, NAug)[r] == xa[r]
    {
      WeightedSumAt(Weights(), X, NSigma, NAug, r);
      SigmaMinusPrefix(xa, L, c, r, NAug);
      TimesIsProduct(NAug, xa[r]);
    }
  }

  /** The CTRV motion model applied to one augmented sigma point
      (px, py, v, yaw, yawd, nu_a, nu_yawdd) over dt seconds. */
  function CtrvStep(lib: Library, s: Vector, dt: real): (p: Vector)
    requires |s| == NAug
    ensures |p| == NX
  {
    CtrvMotion(lib, s[0], s[1], s[2], s[3], s[4], s[5], s[6], dt)
  }

  /** The same model on the seven components taken one by one. */
  function CtrvMotion(lib: Library, px: real, py: real, v: real, yaw: real, yawd: real,
                      nuA: real, nuYawdd: real, dt: real): (p: Vector)
    ensures |p| == NX
  {
    var dx := if Abs(yawd) > YawRateThreshold then v / yawd * (lib.sin(yaw + yawd * dt) - lib.sin(yaw))
              else v * dt * lib.cos(yaw);
    var dy := if Abs(yawd) > YawRateThreshold then v / yawd * (lib.cos(yaw) - lib.cos(yaw + yawd * dt))
              else v * dt * lib.sin(yaw);
    [ px + dx + 0.5 * nuA * dt * dt * lib.cos(yaw),
      py + dy + 0.5 * nuA * dt * dt * lib.sin(yaw),
      v + nuA * dt,
      yaw + yawd * dt + 0.5 * nuYawdd * dt * dt,
      yawd + nuYawdd * dt ]
  }

  /** Position: the straight-line update exactly when |yawd| <= 0.001, the
      turning closed form otherwise; both plus the acceleration-noise term. */
  lemma CtrvPositionBranches(lib: Library, s: Vector, dt: real)
    requires |s| == NAug
    ensures var p := CtrvStep(lib, s, dt);
      var noiseX, noiseY := 0.5 * s[5] * dt * dt * lib.cos(s[3]), 0.5 * s[5] * dt * dt * lib.sin(s[3]);
      && (Abs(s[4]) <= YawRateThreshold ==>
            p[0] == s[0] + s[2] * dt * lib.cos(s[3]) + noiseX &&
            p[1] == s[1] + s[2] * dt * lib.sin(s[3]) + noiseY)
      && (Abs(s[4]) > YawRateThreshold ==>
            p[0] == s[0] + s[2] / s[4] * (lib.sin(s[3] + s[4] * dt) - lib.sin(s[3])) + noiseX &&
            p[1] == s[1] + s[2] / s[4] * (lib.cos(s[3]) - lib.cos(s[3] + s[4] * dt)) + noiseY)
  {
    assert CtrvStep(lib, s, dt) == CtrvMotion(lib, s[0], s[1], s[2], s[3], s[4], s[5], s[6], dt);
  }

  /** Speed, yaw and yaw rate: v + nu_a*dt, yaw + yawd*dt + nu_yawdd*dt^2/2 and
      yawd + nu_yawdd*dt, whichever branch the position takes and whatever the
      trigonometric functions are. */
  lemma CtrvKinematics(lib: Library, lib': Library, s: Vector, dt: real)
    requires |s| == NAug
    ensures CtrvStep(lib, s, dt)[2] == s[2] + s[5] * dt
    ensures CtrvStep(lib, s, dt)[3] == s[3] + s[4] * dt + 0.5 * s[6] * dt * dt
    ensures CtrvStep(lib, s, dt)[4] == s[4] + s[6] * dt
    ensures CtrvStep(lib, s, dt)[2..] == CtrvStep(lib', s, dt)[2..]
  {
  }

  /** Over no time, the motion model leaves the state part of a sigma point as it is. */
  lemma CtrvZeroTime(lib: Library, s: Vector)
    requires |s| == NAug
    ensures CtrvStep(lib, s, 0.0) == s[..NX]
  {
  }

  /** Without turn rate and noise, the object moves v*dt along its heading and
      keeps speed and heading. */
  lemma CtrvStraightMotion(lib: Library, s: Vector, dt: real)
    requires |s| == NAug && s[4] == 0.0 && s[5] == 0.0 && s[6] == 0.0
    ensures CtrvStep(lib, s, dt)
         == [s[0] + s[2] * dt * lib.cos(s[3]), s[1] + s[2] * dt * lib.sin(s[3]), s[2], s[3], 0.0]
  {
    assert Abs(s[4]) <= YawRateThreshold;
    var p := CtrvStep(lib, s, dt);
    assert p[0] == s[0] + s[2] * dt * lib.cos(s[3]);
    assert p[1] == s[1] + s[2] * dt * lib.sin(s[3]);
    assert p[3] == s[3];
  }

  /** The predicted yaw is not normalised: a yaw of 3 turning at 1 rad/s for
      one second is predicted as 4 > Pi. */
  lemma CtrvYawNotWrapped(lib: Library)
    ensures CtrvStep(lib, [0.0, 0.0, 0.0, 3.0, 1.0, 0.0, 0.0], 1.0)[YawIndex] == 4.0 > Pi
  {
  }

  /** Every augmented sigma point moved by the motion model. */
  function PredictSigmaPoints(lib: Library, X: seq<Vector>, dt: real): (Y: seq<Vector>)
    requires AllDim(X, NAug)
    ensures |Y| == |X| && AllDim(Y, NX)
  {
    seq(|X|, i requires 0 <= i < |X| => CtrvStep(lib, X[i], dt))
  }

  /** Each predicted column takes the straight-line or the turning position
      update according to its own yaw rate, and its speed, yaw and yaw rate
      follow the kinematics of the motion model. */
  lemma PredictedColumns(lib: Library, X: seq<Vector>, dt: real, i: nat)
    requires AllDim(X, NAug) && i < |X|
    ensures var Y := PredictSigmaPoints(lib, X, dt);
      && Y[i][2] == X[i][2] + X[i][5] * dt
      && Y[i][3] == X[i][3] + X[i][4] * dt + 0.5 * X[i][6] * dt * dt
      && Y[i][4] == X[i][4] + X[i][6] * dt
      && (Abs(X[i][4]) <= YawRateThreshold ==>
            && Y[i][0] == X[i][0] + X[i][2] * dt * lib.cos(X[i][3]) + 0.5 * X[i][5] * dt * dt * lib.cos(X[i][3])
            && Y[i][1] == X[i][1] + X[i][2] * dt * lib.sin(X[i][3]) + 0.5 * X[i][5] * dt * dt * lib.sin(X[i][3]))
      && (Abs(X[i][4]) > YawRateThreshold ==>
            && Y[i][0] == X[i][0] + X[i][2] / X[i][4] * (lib.sin(X[i][3] + X[i][4] * dt) - lib.sin(X[i][3]))
                          + 0.5 * X[i][5] * dt * dt * lib.cos(X[i][3])
            && Y[i][1] == X[i][1] + X[i][2] / X[i][4] * (lib.cos(X[i][3]) - lib.cos(X[i][3] + X[i][4] * dt))
                          + 0.5 * X[i][5] * dt * dt * lib.sin(X[i][3]))
  {
    assert PredictSigmaPoints(lib, X, dt)[i] == CtrvStep(lib, X[i], dt);
    CtrvPositionBranches(lib, X[i], dt);
    CtrvKinematics(lib, lib, X[i], dt);
  }

  /** The residuals of the predicted sigma points against a mean, yaw normalised. */
  function StateResiduals(Y: seq<Vector>, x: Vector): (d: seq<Vector>)
    requires AllDim(Y, NX) && |x| == NX
    ensures |d| == |Y| && AllDim(d, NX)
  {
    Residuals(Y, x, YawIndex)
  }

  /** The outcome of one prediction step when the factorisation succeeds. */
  datatype Predicted = Predicted(xsigAug: seq<Vector>, xsigPred: seq<Vector>, x: Vector, P: Matrix)

  /** The whole prediction step as a reference: None when Eigen's LLT of the
      augmented covariance reports a numerical issue. */
  function Predict(lib: Library, x: Vector, P: Matrix, dt: real): (r: Option<Predicted>)
    requires lib.Valid() && |x| == NX && IsMatrix(P, NX, NX)
    ensures r.None? <==> lib.llt(AugmentedCovariance(P)).None?
    ensures r.Some? ==>
      && |r.value.xsigAug| == NSigma && AllDim(r.value.xsigAug, NAug)
      && |r.value.xsigPred| == NSigma && AllDim(r.value.xsigPred, NX)
      && |r.value.x| == NX && IsMatrix(r.value.P, NX, NX)
  {
    var pa := AugmentedCovariance(P);
    match lib.llt(pa)
    case None => None
    case Some(L) =>
      var xsigAug := SigmaPoints(AugmentedMean(x), L, Spread(lib));
      var xsigPred := PredictSigmaPoints(lib, xsigAug, dt);
      var xp := WeightedSum(Weights(), xsigPred, NSigma, NX);
      var res := StateResiduals(xsigPred, xp);
      Some(Predicted(xsigAug, xsigPred, xp, WeightedOuterSum(Weights(), res, res, NSigma, NX, NX)))
  }

  /** The predicted covariance is symmetric. */
  lemma PredictedCovarianceSymmetric(lib: Library, x: Vector, P: Matrix, dt: real)
    requires lib.Valid() && |x| == NX && IsMatrix(P, NX, NX)
    requires Predict(lib, x, P, dt).Some?
    ensures IsSymmetric(Predict(lib, x, P, dt).value.P)
  {
    var p := Predict(lib, x, P, dt).value;
    WeightedOuterSumSymmetric(Weights(), StateResiduals(p.xsigPred, p.x), NSigma, NX);
  }

  /** A prediction over no time keeps the state mean: the motion model is then
      the identity on the state part, and the weighted sigma points average
      back to the augmented mean. */
  lemma ZeroTimeKeepsMean(lib: Library, x: Vector, P: Matrix)
    requires lib.Valid() && |x| == NX && IsMatrix(P, NX, NX)
    requires Predict(lib, x, P, 0.0).Some?
    ensures Predict(lib, x, P, 0.0).value.x == x
  {
    var p := Predict(lib, x, P, 0.0).value;
    var L := lib.llt(AugmentedCovariance(P)).value;
    var xa := AugmentedMean(x);
    assert p.xsigAug == SigmaPoints(xa, L, Spread(lib));
    forall i | 0 <= i < NSigma
      ensures p.xsigPred[i] == p.xsigAug[i][..NX]
    {
      CtrvZeroTime(lib, p.xsigAug[i]);
    }
    forall r | 0 <= r < NX
      ensures p.x[r] == x[r]
    {
      WeightedSumAt(Weights(), p.xsigPred, NSigma, NX, r);
      SumAtCongruent(Weights(), p.xsigPred, p.xsigAug, NSigma, r);
      WeightedSumAt(Weights(), p.xsigAug, NSigma, NAug, r);
      SigmaMean(xa, L, Spread(lib));
    }
  }
}
