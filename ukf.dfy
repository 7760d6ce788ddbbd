/** The filter object: its persistent state and the four operations that
    update it in place, each proved to leave the state its reference
    definition in the Process and Measurement modules prescribes. */
module Ukf {
  import opened Linalg
  import opened Numerics
  import opened Unscented
  import opened Process
  import opened Measurement

  /** Ok, or the range_error thrown when the LLT factorisation fails. */
  datatype Status = Ok | LltFailed

  /** Seconds between two timestamps in microseconds; negative when the
      second one is earlier, which nothing rejects. */
  function DeltaT(from: int, to: int): (dt: real)
    ensures dt < 0.0 <==> to < from
    ensures dt == 0.0 <==> to == from
  {
    (to - from) as real / 1000000.0
  }

  class UKF {
    const lib: Library

    var isInitialized: bool
    /** When false, measurements of that sensor are ignored except for initialisation. */
    var useLaser: bool
    var useRadar: bool
    /** Timestamp of the last processed measurement, in microseconds. */
    var timeUs: int

    /** State mean (px, py, v, yaw, yawd) and covariance. */
    var x: Vector
    var P: Matrix

    /** Augmented mean and covariance of the last prediction. */
    var xAug: Vector
    var pAug: Matrix
    /** Augmented and predicted sigma points, one column per point. */
    var xsigAug: seq<Vector>
    var xsigPred: seq<Vector>
    var weights: seq<real>

    /** Radar update quantities, kept between calls. */
    var zsigRadar: seq<Vector>
    var sRadar: Matrix
    var tCrossCorrRadar: Matrix
    var kalmanGainRadar: Matrix
    var zRadar: Vector
    var zLaser: Vector

    /** Every stored vector and matrix has the size the filter fixes at construction. */
    ghost predicate Valid()
      reads this
    {
      && lib.Valid()
      && |x| == NX && IsMatrix(P, NX, NX)
      && |xAug| == NAug && IsMatrix(pAug, NAug, NAug)
      && |xsigAug| == NSigma && AllDim(xsigAug, NAug)
      && |xsigPred| == NSigma && AllDim(xsigPred, NX)
      && |weights| == NSigma
      && |zsigRadar| == NSigma && AllDim(zsigRadar, NZRadar)
      && IsMatrix(sRadar, NZRadar, NZRadar)
      && IsMatrix(tCrossCorrRadar, NX, NZRadar)
      && IsMatrix(kalmanGainRadar, NX, NZRadar)
      && |zRadar| == NZRadar && |zLaser| == NZLaser
    }

    /** Whether a measurement of this sensor triggers prediction and update. */
    predicate Enabled(sensor: SensorType)
      reads this
    {
      (sensor == Laser && useLaser) || (sensor == Radar && useRadar)
    }

    constructor (lib: Library)
      requires lib.Valid()
      ensures Valid() && this.lib == lib
      ensures !isInitialized && timeUs == 0 && useLaser && useRadar
    {
      this.lib := lib;
      timeUs := 0;
      isInitialized := false;
      useLaser := true;
      useRadar := true;
      x := Zeros(NX);
      P := ZeroMatrix(NX, NX);
      xAug := Zeros(NAug);
      pAug := ZeroMatrix(NAug, NAug);
      xsigAug := seq(NSigma, _ => Zeros(NAug));
      xsigPred := seq(NSigma, _ => Zeros(NX));
      weights := Zeros(NSigma);
      zsigRadar := seq(NSigma, _ => Zeros(NZRadar));
      sRadar := ZeroMatrix(NZRadar, NZRadar);
      tCrossCorrRadar := ZeroMatrix(NX, NZRadar);
      kalmanGainRadar := ZeroMatrix(NX, NZRadar);
      zRadar := Zeros(NZRadar);
      zLaser := Zeros(NZLaser);
    }

    twostate predicate ScratchUnchanged()
      reads this
    {
      && xsigAug == old(xsigAug) && xsigPred == old(xsigPred) && weights == old(weights)
      && RadarUnchanged() && zLaser == old(zLaser)
    }

    twostate predicate RadarUnchanged()
      reads this
    {
      && zsigRadar == old(zsigRadar) && sRadar == old(sRadar) && tCrossCorrRadar == old(tCrossCorrRadar)
      && kalmanGainRadar == old(kalmanGainRadar) && zRadar == old(zRadar)
    }

    /** The outcome of a measurement of an enabled sensor after the first:
        the timestamp advances to the measurement's, the state is predicted
        over the elapsed time and then updated with the measurement. When the
        factorisation fails, prediction stops after augmenting and nothing
        further changes. */
    twostate predicate Cycled(pkg: MeasurementPackage, status: Status)
      requires old(Valid()) && pkg.WellFormed()
      reads this
    {
      && (pkg.sensorType == Laser ==> LaserCycled(pkg, status))
      && (pkg.sensorType == Radar ==> RadarCycled(pkg, status))
    }

    /** Prediction to time t: the timestamp, the augmented mean and
        covariance, and the outcome of the factorisation. */
    twostate predicate PredictedTo(t: int, status: Status)
      requires old(Valid())
      reads this
    {
      var dt := DeltaT(old(timeUs), t);
      && timeUs == t
      && xAug == AugmentedMean(old(x)) && pAug == AugmentedCovariance(old(P))
      && (status == LltFailed <==> Predict(lib, old(x), old(P), dt).None?)
      && (status == LltFailed ==> x == old(x) && P == old(P) && ScratchUnchanged())
      && (status == Ok ==>
            var p := Predict(lib, old(x), old(P), dt).value;
            xsigAug == p.xsigAug && xsigPred == p.xsigPred && weights == Weights())
    }

    /** A laser cycle: prediction, then the laser update of the predicted state. */
    twostate predicate LaserCycled(pkg: MeasurementPackage, status: Status)
      requires old(Valid()) && pkg.WellFormed() && pkg.sensorType == Laser
      reads this
    {
      && PredictedTo(pkg.timestamp, status)
      && (status == Ok ==>
            var p := Predict(lib, old(x), old(P), DeltaT(old(timeUs), pkg.timestamp)).value;
            LaserUpdated(p, pkg.rawMeasurements) && RadarUnchanged())
    }

    /** A radar cycle: prediction, then the radar update of the predicted state. */
    twostate predicate RadarCycled(pkg: MeasurementPackage, status: Status)
      requires old(Valid()) && pkg.WellFormed() && pkg.sensorType == Radar
      reads this
    {
      && PredictedTo(pkg.timestamp, status)
      && (status == Ok ==>
            var p := Predict(lib, old(x), old(P), DeltaT(old(timeUs), pkg.timestamp)).value;
            RadarUpdated(p, pkg.rawMeasurements) && zLaser == old(zLaser))
    }

    /** The state is the laser update of the predicted state p by z. */
    predicate LaserUpdated(p: Predicted, z: Vector)
      requires lib.Valid() && |p.x| == NX && IsMatrix(p.P, NX, NX) && |z| == NZLaser
      reads this
    {
      var u := LaserUpdate(lib, p.x, p.P, z);
      x == u.x && P == u.P && zLaser == z
    }

    /** The state and the radar fields are the radar update of the predicted
        state p by z. */
    predicate RadarUpdated(p: Predicted, z: Vector)
      requires lib.Valid() && |p.x| == NX && IsMatrix(p.P, NX, NX) && |z| == NZRadar
      requires |p.xsigPred| == NSigma && AllDim(p.xsigPred, NX)
      reads this
    {
      var u := RadarUpdate(lib, Weights(), p.xsigPred, p.x, p.P, z);
      && x == u.x && P == u.P && zRadar == z
      && zsigRadar == u.zsig && sRadar == u.S && tCrossCorrRadar == u.T && kalmanGainRadar == u.K
    }

    /** Initialise on the first measurement; afterwards predict to the
        measurement's time and update, for enabled sensors only. */
    method ProcessMeasurement(pkg: MeasurementPackage) returns (status: Status)
      requires Valid() && pkg.WellFormed()
      modifies this`isInitialized, this`timeUs, this`x, this`P, this`xAug, this`pAug,
               this`xsigAug, this`xsigPred, this`weights, this`zsigRadar, this`sRadar,
               this`tCrossCorrRadar, this`kalmanGainRadar, this`zRadar, this`zLaser
      ensures Valid() && isInitialized
      // The first measurement only seeds the state.
      ensures !old(isInitialized) ==>
        && status == Ok
        && timeUs == pkg.timestamp
        && P == Identity(NX)
        && (pkg.sensorType == Laser ==>
              x == [pkg.rawMeasurements[0], pkg.rawMeasurements[1], 0.0, 0.0, 0.0])
        && (pkg.sensorType == Radar ==>
              x == [pkg.rawMeasurements[0] * lib.cos(pkg.rawMeasurements[1]),
                    pkg.rawMeasurements[0] * lib.sin(pkg.rawMeasurements[1]), 0.0, 0.0, 0.0])
        && xAug == old(xAug) && pAug == old(pAug) && ScratchUnchanged()
      // A measurement of a disabled sensor changes nothing.
      ensures old(isInitialized) && !old(Enabled(pkg.sensorType)) ==> status == Ok && unchanged(this)
      // Otherwise one predict-update cycle is run.
      ensures old(isInitialized) && old(Enabled(pkg.sensorType)) ==> Cycled(pkg, status)
    {
      if !isInitialized {
        Initialize(pkg);
        return Ok;
      }
      status := Ok;
      if useLaser {
        if pkg.sensorType == Laser {
          status := PredictAndUpdateLidar(pkg);
        }
      }
      if useRadar {
        if pkg.sensorType == Radar {
          status := PredictAndUpdateRadar(pkg);
        }
      }
    }

    /** The first measurement seeds the state: identity covariance, the
        measured position (converted from polar for the radar) with zero speed,
        yaw and yaw rate, and its timestamp. */
    method Initialize(pkg: MeasurementPackage)
      requires Valid() && pkg.WellFormed()
      modifies this`isInitialized, this`timeUs, this`x, this`P
      ensures Valid() && isInitialized
      ensures timeUs == pkg.timestamp && P == Identity(NX)
      ensures pkg.sensorType == Laser ==> x == [pkg.rawMeasurements[0], pkg.rawMeasurements[1], 0.0, 0.0, 0.0]
      ensures pkg.sensorType == Radar ==>
        x == [pkg.rawMeasurements[0] * lib.cos(pkg.rawMeasurements[1]),
              pkg.rawMeasurements[0] * lib.sin(pkg.rawMeasurements[1]), 0.0, 0.0, 0.0]
    {
      P := Identity(NX);
      if pkg.sensorType == Radar {
        // range and bearing to position
        x := [pkg.rawMeasurements[0] * lib.cos(pkg.rawMeasurements[1]),
              pkg.rawMeasurements[0] * lib.sin(pkg.rawMeasurements[1]), 0.0, 0.0, 0.0];
      } else if pkg.sensorType == Laser {
        x := [pkg.rawMeasurements[0], pkg.rawMeasurements[1], 0.0, 0.0, 0.0];
      }
      timeUs := pkg.timestamp;
      isInitialized := true;
    }

    /** One cycle for a laser measurement: seconds since the last
        measurement, the new timestamp, prediction, and the laser update. */
    method PredictAndUpdateLidar(pkg: MeasurementPackage) returns (status: Status)
      requires Valid() && pkg.WellFormed() && pkg.sensorType == Laser
      modifies this`timeUs, this`x, this`P, this`xAug, this`pAug,
               this`xsigAug, this`xsigPred, this`weights, this`zLaser
      ensures Valid()
      ensures LaserCycled(pkg, status)
    {
      status := PredictTo(pkg.timestamp);
      if status == LltFailed {
        return;
      }
      UpdateLidar(pkg);
    }

    /** One cycle for a radar measurement: seconds since the last
        measurement, the new timestamp, prediction, and the radar update. */
    method PredictAndUpdateRadar(pkg: MeasurementPackage) returns (status: Status)
      requires Valid() && pkg.WellFormed() && pkg.sensorType == Radar
      modifies this`timeUs, this`x, this`P, this`xAug, this`pAug,
               this`xsigAug, this`xsigPred, this`weights, this`zsigRadar, this`sRadar,
               this`tCrossCorrRadar, this`kalmanGainRadar, this`zRadar
      ensures Valid()
      ensures RadarCycled(pkg, status)
    {
      status := PredictTo(pkg.timestamp);
      if status == LltFailed {
        return;
      }
      UpdateRadar(pkg);
    }

    /** Seconds since the last measurement, the new timestamp, and prediction
        over the elapsed time. */
    method PredictTo(t: int) returns (status: Status)
      requires Valid()
      modifies this`timeUs, this`xAug, this`pAug, this`xsigAug, this`xsigPred, this`weights, this`x, this`P
      ensures Valid() && timeUs == t
      ensures xAug == AugmentedMean(old(x)) && pAug == AugmentedCovariance(old(P))
      ensures status == LltFailed <==> Predict(lib, old(x), old(P), DeltaT(old(timeUs), t)).None?
      ensures status == LltFailed ==>
        x == old(x) && P == old(P) && xsigAug == old(xsigAug) && xsigPred == old(xsigPred) && weights == old(weights)
      ensures status == Ok ==>
        Predict(lib, old(x), old(P), DeltaT(old(timeUs), t)) == Some(Predicted(xsigAug, xsigPred, x, P)) && weights == Weights()
    {
      var deltaT := (t - timeUs) as real / 1000000.0;
      assert deltaT == DeltaT(timeUs, t);
      timeUs := t;
      status := Prediction(deltaT);
    }

    /** Augment, factor, generate and propagate the sigma points, then
        recombine them into the predicted mean and covariance. */
    method Prediction(deltaT: real) returns (status: Status)
      requires Valid()
      modifies this`xAug, this`pAug, this`xsigAug, this`xsigPred, this`weights, this`x, this`P
      ensures Valid()
      ensures xAug == AugmentedMean(old(x)) && pAug == AugmentedCovariance(old(P))
      ensures status == LltFailed <==> Predict(lib, old(x), old(P), deltaT).None?
      ensures status == LltFailed ==>
        x == old(x) && P == old(P) && xsigAug == old(xsigAug) && xsigPred == old(xsigPred) && weights == old(weights)
      ensures status == Ok ==>
        var p := Predict(lib, old(x), old(P), deltaT).value;
        xsigAug == p.xsigAug && xsigPred == p.xsigPred && weights == Weights() && x == p.x && P == p.P
    {
      Augment();
      var llt := lib.llt(pAug);
      if llt.None? {
        return LltFailed;
      }
      var L := llt.value;
      assert IsCholeskyFactor(L, pAug, NAug);
      GenerateSigmaPoints(L);
      PredictSigmaPoints(deltaT);
      SetWeights();
      PredictMeanAndCovariance();
      status := Ok;
    }

    /** The augmented mean and covariance of the current state. */
    method Augment()
      requires Valid()
      modifies this`xAug, this`pAug
      ensures Valid()
      ensures xAug == AugmentedMean(x) && pAug == AugmentedCovariance(P)
    {
      AugmentMean();
      AugmentCovariance();
    }

    /** x_aug: the state mean followed by the two zero noise means. */
    method AugmentMean()
      requires Valid()
      modifies this`xAug
      ensures Valid()
      ensures xAug == AugmentedMean(x)
    {
      xAug := x + xAug[NX..];
      xAug := xAug[5 := 0.0];
      xAug := xAug[6 := 0.0];
      assert forall i :: 0 <= i < NAug ==> xAug[i] == AugmentedMean(x)[i];
    }

    /** P_aug: zero, then P in the top-left block and the two noise variances
        std_a^2 and std_yawdd^2 on the diagonal. */
    method AugmentCovariance()
      requires Valid()
      modifies this`pAug
      ensures Valid()
      ensures pAug == AugmentedCovariance(P)
    {
      pAug := ZeroMatrix(NAug, NAug);
      pAug := WithTopLeft(pAug, P);
      pAug := pAug[5 := pAug[5][5 := StdA * StdA]];
      pAug := pAug[6 := pAug[6][6 := StdYawdd * StdYawdd]];
      ghost var Pa := AugmentedCovariance(P);
      forall i | 0 <= i < NAug
        ensures pAug[i] == Pa[i]
      {
        assert forall j :: 0 <= j < NAug ==> pAug[i][j] == Pa[i][j];
      }
    }

    /** Column 0 is the augmented mean; columns ii+1 and ii+1+n_aug are the
        mean plus and minus sqrt(lambda + n_aug) times column ii of L. */
    method GenerateSigmaPoints(L: Matrix)
      requires Valid() && IsMatrix(L, NAug, NAug)
      modifies this`xsigAug
      ensures Valid()
      ensures xsigAug == SigmaPoints(xAug, L, Spread(lib))
    {
      ghost var c := Spread(lib);
      var X := xsigAug[0 := xAug];
      for ii := 0 to NAug
        invariant |X| == NSigma && AllDim(X, NAug)
        invariant X[0] == SigmaPoint(xAug, L, c, 0)
        invariant forall j :: 1 <= j <= ii ==> X[j] == SigmaPoint(xAug, L, c, j)
        invariant forall j :: NAug + 1 <= j <= NAug + ii ==> X[j] == SigmaPoint(xAug, L, c, j)
      {
        X := X[ii + 1 := VAdd(xAug, VScale(lib.sqrt(Lambda + NAug as real), Col(L, ii)))];
        X := X[ii + 1 + NAug := VSub(xAug, VScale(lib.sqrt(Lambda + NAug as real), Col(L, ii)))];
        assert X[ii + 1] == SigmaPoint(xAug, L, c, ii + 1);
        assert X[ii + 1 + NAug] == SigmaPoint(xAug, L, c, ii + 1 + NAug);
      }
      assert forall j :: 0 <= j < NSigma ==> X[j] == SigmaPoint(xAug, L, c, j);
      xsigAug := X;
    }

    /** Move every augmented sigma point through the CTRV model. */
    method PredictSigmaPoints(deltaT: real)
      requires Valid()
      modifies this`xsigPred
      ensures Valid()
      ensures xsigPred == Process.PredictSigmaPoints(lib, xsigAug, deltaT)
    {
      for i := 0 to NSigma
        invariant |xsigPred| == NSigma && AllDim(xsigPred, NX)
        invariant forall j :: 0 <= j < i ==> xsigPred[j] == CtrvStep(lib, xsigAug[j], deltaT)
      {
        var pX, pY, v, yaw := xsigAug[i][0], xsigAug[i][1], xsigAug[i][2], xsigAug[i][3];
        var yawd, nuA, nuYawdd := xsigAug[i][4], xsigAug[i][5], xsigAug[i][6];
        // predicted state values, noise included
        xsigPred := xsigPred[i := CtrvMotion(lib, pX, pY, v, yaw, yawd, nuA, nuYawdd, deltaT)];
      }
    }

    /** weights_(0) = lambda / (lambda + n_aug), the others 0.5 / (lambda + n_aug). */
    method SetWeights()
      requires Valid()
      modifies this`weights
      ensures Valid()
      ensures weights == Weights()
    {
      weights := weights[0 := Lambda / (Lambda + NAug as real)];
      for ii := 1 to NSigma
        invariant |weights| == NSigma && weights[0] == -4.0 / 3.0
        invariant forall j :: 1 <= j < ii ==> weights[j] == 1.0 / 6.0
      {
        weights := weights[ii := 0.5 / (Lambda + NAug as real)];
      }
    }

    /** The weighted mean of the predicted sigma points, then the weighted sum
        of the outer products of their yaw-normalised residuals. */
    method PredictMeanAndCovariance()
      requires Valid()
      modifies this`x, this`P
      ensures Valid()
      ensures x == WeightedSum(weights, xsigPred, NSigma, NX)
      ensures P == WeightedOuterSum(weights, StateResiduals(xsigPred, x), StateResiduals(xsigPred, x), NSigma, NX, NX)
    {
      PredictMean();
      PredictCovariance();
    }

    /** The weighted mean of the predicted sigma points. */
    method PredictMean()
      requires Valid()
      modifies this`x
      ensures Valid()
      ensures x == WeightedSum(weights, xsigPred, NSigma, NX)
    {
      x := Zeros(NX);
      for i := 0 to NSigma
        invariant x == WeightedSum(weights, xsigPred, i, NX)
      {
        x := VAdd(x, VScale(weights[i], xsigPred[i]));
      }
    }

    /** The weighted sum of the outer products of the yaw-normalised residuals
        of the predicted sigma points against the current mean. */
    method PredictCovariance()
      requires Valid()
      modifies this`P
      ensures Valid()
      ensures P == WeightedOuterSum(weights, StateResiduals(xsigPred, x), StateResiduals(xsigPred, x), NSigma, NX, NX)
    {
      ghost var res := StateResiduals(xsigPred, x);
      P := ZeroMatrix(NX, NX);
      for i := 0 to NSigma
        invariant P == WeightedOuterSum(weights, res, res, i, NX, NX)
      {
        // state difference, angle normalised
        var xDiff := AngleResidual(xsigPred[i], x, YawIndex);
        P := MAdd(P, MScale(weights[i], Outer(xDiff, xDiff)));
      }
    }

    /** The linear Kalman update with the laser's (x, y). */
    method UpdateLidar(pkg: MeasurementPackage)
      requires Valid() && pkg.WellFormed() && pkg.sensorType == Laser
      modifies this`zLaser, this`x, this`P
      ensures Valid()
      ensures LaserUpdated(Predicted(xsigAug, xsigPred, old(x), old(P)), pkg.rawMeasurements)
    {
      ghost var x0, P0 := x, P;
      zLaser := [pkg.rawMeasurements[0], pkg.rawMeasurements[1]];
      assert zLaser == pkg.rawMeasurements;
      var H := HLaser();
      var zPred := MatVec(H, x);
      var y := VSub(zLaser, zPred);
      var Ht := Transpose(H);
      var S := MAdd(MatMul(MatMul(H, P, NX), Ht, NZLaser), RLaser());
      assert IsMatrix(S, NZLaser, NZLaser);
      var Si := lib.inverse(S);
      var K := MatMul(MatMul(P, Ht, NZLaser), Si, NZLaser);
      // new estimate
      x := VAdd(x, MatVec(K, y));
      var I := Identity(NX);
      P := MatMul(MSub(I, MatMul(K, H, NX)), P, NX);
      // normalised innovation squared, computed and discarded
      var zDiffLaser := VSub(zLaser, zPred);
      var nisLaser := Nis(zDiffLaser, Si);
      ghost var u := LaserUpdate(lib, x0, P0, zLaser);
      assert x == u.x && P == u.P;
    }

    /** The unscented update with the radar's (range, bearing, range rate). */
    method UpdateRadar(pkg: MeasurementPackage)
      requires Valid() && pkg.WellFormed() && pkg.sensorType == Radar && weights == Weights()
      modifies this`zsigRadar, this`sRadar, this`tCrossCorrRadar, this`kalmanGainRadar, this`zRadar, this`x, this`P
      ensures Valid()
      ensures RadarUpdated(Predicted(xsigAug, xsigPred, old(x), old(P)), pkg.rawMeasurements)
    {
      ghost var u := RadarUpdate(lib, Weights(), xsigPred, x, P, pkg.rawMeasurements);
      var zPredRadar := RadarMoments(pkg.rawMeasurements);
      zRadar := [pkg.rawMeasurements[0], pkg.rawMeasurements[1], pkg.rawMeasurements[2]];
      assert zRadar == pkg.rawMeasurements;
      CorrectWithRadar(zPredRadar);
      assert x == u.x && P == u.P;
    }

    /** The predicted radar measurement, its covariance, the cross-correlation
        and the gain, from the predicted sigma points: the stages of the radar
        update that do not depend on the measurement z. */
    method RadarMoments(ghost z: Vector) returns (zPredRadar: Vector)
      requires Valid() && weights == Weights() && |z| == NZRadar
      modifies this`zsigRadar, this`sRadar, this`tCrossCorrRadar, this`kalmanGainRadar
      ensures Valid()
      ensures var u := RadarUpdate(lib, Weights(), xsigPred, x, P, z);
        && zsigRadar == u.zsig && zPredRadar == u.zPred
        && sRadar == u.S && tCrossCorrRadar == u.T && kalmanGainRadar == u.K
    {
      zPredRadar := PredictRadarMeasurement();
      RadarInnovationCovariance(zPredRadar);
      RadarCrossCorrelation(zPredRadar);
      RadarGain();
    }

    /** The Kalman gain T * S^-1 from the stored cross-correlation and
        innovation covariance. */
    method RadarGain()
      requires Valid()
      modifies this`kalmanGainRadar
      ensures Valid()
      ensures kalmanGainRadar == MatMul(tCrossCorrRadar, lib.inverse(sRadar), NZRadar)
    {
      kalmanGainRadar := MatMul(tCrossCorrRadar, lib.inverse(sRadar), NZRadar);
    }

    /** State mean and covariance corrected by the stored gain and the
        bearing-normalised residual of the stored measurement. */
    method CorrectWithRadar(zPredRadar: Vector)
      requires Valid() && |zPredRadar| == NZRadar
      modifies this`x, this`P
      ensures Valid()
      ensures x == VAdd(old(x), MatVec(kalmanGainRadar, WrapAt(VSub(zRadar, zPredRadar), BearingIndex)))
      ensures P == MSub(old(P), MatMul(MatMul(kalmanGainRadar, sRadar, NZRadar), Transpose(kalmanGainRadar), NX))
    {
      // residual, angle normalised
      var zDiff := AngleResidual(zRadar, zPredRadar, BearingIndex);
      // update state mean and covariance
      x := VAdd(x, MatVec(kalmanGainRadar, zDiff));
      P := MSub(P, MatMul(MatMul(kalmanGainRadar, sRadar, NZRadar), Transpose(kalmanGainRadar), NX));
      // normalised innovation squared, computed and discarded
      assert IsMatrix(sRadar, NZRadar, NZRadar);
      var nisRadar := Nis(zDiff, lib.inverse(sRadar));
    }

    /** Map every predicted sigma point into measurement space and return
        the weighted mean of the mapped points. */
    method PredictRadarMeasurement() returns (zPredRadar: Vector)
      requires Valid()
      modifies this`zsigRadar
      ensures Valid()
      ensures zsigRadar == RadarSigmaPoints(lib, xsigPred)
      ensures zPredRadar == WeightedSum(weights, zsigRadar, NSigma, NZRadar)
    {
      for i := 0 to NSigma
        invariant |zsigRadar| == NSigma && AllDim(zsigRadar, NZRadar)
        invariant forall j :: 0 <= j < i ==> zsigRadar[j] == RadarMeasurementOf(lib, xsigPred[j])
      {
        var pX, pY, v, yaw := xsigPred[i][0], xsigPred[i][1], xsigPred[i][2], xsigPred[i][3];
        zsigRadar := zsigRadar[i := RadarMeasurement(lib, pX, pY, v, yaw)];
      }
      zPredRadar := Zeros(NZRadar);
      for i := 0 to NSigma
        invariant zPredRadar == WeightedSum(weights, zsigRadar, i, NZRadar)
      {
        zPredRadar := VAdd(zPredRadar, VScale(weights[i], zsigRadar[i]));
      }
    }

    /** The weighted outer products of the bearing-normalised measurement
        residuals, plus the radar noise R. */
    method RadarInnovationCovariance(zPredRadar: Vector)
      requires Valid() && |zPredRadar| == NZRadar
      modifies this`sRadar
      ensures Valid()
      ensures var zres := Residuals(zsigRadar, zPredRadar, BearingIndex);
        sRadar == MAdd(WeightedOuterSum(weights, zres, zres, NSigma, NZRadar, NZRadar), RRadar())
    {
      ghost var zres := Residuals(zsigRadar, zPredRadar, BearingIndex);
      sRadar := ZeroMatrix(NZRadar, NZRadar);
      for i := 0 to NSigma
        invariant sRadar == WeightedOuterSum(weights, zres, zres, i, NZRadar, NZRadar)
      {
        // residual, angle normalised
        var zDiff := AngleResidual(zsigRadar[i], zPredRadar, BearingIndex);
        sRadar := MAdd(sRadar, MScale(weights[i], Outer(zDiff, zDiff)));
      }
      sRadar := MAdd(sRadar, RRadar());
    }

    /** The weighted outer products of the yaw-normalised state residuals with
        the bearing-normalised measurement residuals. */
    method RadarCrossCorrelation(zPredRadar: Vector)
      requires Valid() && |zPredRadar| == NZRadar
      modifies this`tCrossCorrRadar
      ensures Valid()
      ensures tCrossCorrRadar == WeightedOuterSum(weights, StateResiduals(xsigPred, x),
                                                  Residuals(zsigRadar, zPredRadar, BearingIndex), NSigma, NX, NZRadar)
    {
      ghost var zres := Residuals(zsigRadar, zPredRadar, BearingIndex);
      ghost var xres := StateResiduals(xsigPred, x);
      tCrossCorrRadar := ZeroMatrix(NX, NZRadar);
      for i := 0 to NSigma
        invariant tCrossCorrRadar == WeightedOuterSum(weights, xres, zres, i, NX, NZRadar)
      {
        // residual, angle normalised
        var zDiff := AngleResidual(zsigRadar[i], zPredRadar, BearingIndex);
        // state difference, angle normalised
        var xDiff := AngleResidual(xsigPred[i], x, YawIndex);
        tCrossCorrRadar := MAdd(tCrossCorrRadar, MScale(weights[i], Outer(xDiff, zDiff)));
      }
    }
  }
}
