/** The two measurement updates as reference definitions: the linear Kalman
    step for the laser and the unscented step in measurement space for the
    radar; with their properties. */
module Measurement {
  import opened Linalg
  import opened Numerics
  import opened Unscented
  import opened Process

  datatype SensorType = Laser | Radar

  /** One record from the sensor stream: the sensor, a timestamp in
      microseconds and the raw values (x, y for the laser; range, bearing and
      range rate for the radar). */
  datatype MeasurementPackage = MeasurementPackage(sensorType: SensorType, timestamp: int, rawMeasurements: Vector)
  {
    predicate WellFormed() {
      if sensorType == Laser then |rawMeasurements| == NZLaser else |rawMeasurements| == NZRadar
    }
  }

  const NZLaser: nat := 2
  const NZRadar: nat := 3
  /** Laser noise standard deviations (m). */
  const StdLaspx: real := 0.15
  const StdLaspy: real := 0.15
  /** Radar noise standard deviations: range (m), bearing (rad), range rate (m/s). */
  const StdRadr: real := 0.3
  const StdRadphi: real := 0.03
  const StdRadrd: real := 0.3
  /** Index of the bearing in a radar measurement. */
  const BearingIndex: nat := 1

  /** The laser projection H_, selecting (px, py). */
  function HLaser(): (H: Matrix)
    ensures IsMatrix(H, NZLaser, NX) && Width(H) == NX
  {
    [[1.0, 0.0, 0.0, 0.0, 0.0],
     [0.0, 1.0, 0.0, 0.0, 0.0]]
  }

  /** The laser noise covariance R_. */
  function RLaser(): (R: Matrix)
    ensures IsMatrix(R, NZLaser, NZLaser) && Width(R) == NZLaser
  {
    [[StdLaspx * StdLaspx, 0.0],
     [0.0, StdLaspy * StdLaspy]]
  }

  /** The radar noise covariance R_radar. */
  function RRadar(): (R: Matrix)
    ensures IsMatrix(R, NZRadar, NZRadar) && Width(R) == NZRadar
  {
    [[StdRadr * StdRadr, 0.0, 0.0],
     [0.0, StdRadphi * StdRadphi, 0.0],
     [0.0, 0.0, StdRadrd * StdRadrd]]
  }

  /** The normalised innovation squared d^T * Si * d. */
  function Nis(d: Vector, Si: Matrix): real
    requires IsMatrix(Si, |Si|, |d|) && |Si| == |d|
  {
    Dot(d, MatVec(Si, d))
  }

  /** The quantities of one laser update. */
  datatype LaserStep = LaserStep(zPred: Vector, y: Vector, S: Matrix, K: Matrix, x: Vector, P: Matrix, nis: real)

  /** The laser update of mean x and covariance P by measurement z. */
  function LaserUpdate(lib: Library, x: Vector, P: Matrix, z: Vector): (u: LaserStep)
    requires lib.Valid() && |x| == NX && IsMatrix(P, NX, NX) && |z| == NZLaser
    ensures |u.zPred| == NZLaser && |u.y| == NZLaser && IsMatrix(u.S, NZLaser, NZLaser)
    ensures |u.x| == NX && IsMatrix(u.P, NX, NX)
  {
    var H := HLaser();
    var zPred := MatVec(H, x);
    var y := VSub(z, zPred);
    var Ht := Transpose(H);
    var S := MAdd(MatMul(MatMul(H, P, NX), Ht, NZLaser), RLaser());
    assert IsMatrix(S, NZLaser, NZLaser);
    var Si := lib.inverse(S);
    var K := MatMul(MatMul(P, Ht, NZLaser), Si, NZLaser);
    var xNew := VAdd(x, MatVec(K, y));
    var PNew := MatMul(MSub(Identity(NX), MatMul(K, H, NX)), P, NX);
    LaserStep(zPred, y, S, K, xNew, PNew, Nis(VSub(z, zPred), Si))
  }

  /** H * v picks the position (v[0], v[1]). */
  lemma HLaserSelects(v: Vector)
    requires |v| == NX
    ensures MatVec(HLaser(), v) == v[..NZLaser]
  {
    var H := HLaser();
    assert H[0] == Unit(NX, 0) && H[1] == Unit(NX, 1);
    DotUnit(v, 0);
    DotUnit(v, 1);
  }

  /** The laser's predicted measurement is the predicted position, and the
      innovation is the measured position minus it. */
  lemma LaserPredictedMeasurement(lib: Library, x: Vector, P: Matrix, z: Vector)
    requires lib.Valid() && |x| == NX && IsMatrix(P, NX, NX) && |z| == NZLaser
    ensures LaserUpdate(lib, x, P, z).zPred == [x[0], x[1]]
    ensures LaserUpdate(lib, x, P, z).y == [z[0] - x[0], z[1] - x[1]]
  {
    HLaserSelects(x);
  }

  /** The residual the laser's NIS is computed from is the innovation y that
      corrected the state, weighted by the inverse of the innovation covariance. */
  lemma LaserNisResidual(lib: Library, x: Vector, P: Matrix, z: Vector)
    requires lib.Valid() && |x| == NX && IsMatrix(P, NX, NX) && |z| == NZLaser
    ensures var u := LaserUpdate(lib, x, P, z);
      IsMatrix(lib.inverse(u.S), NZLaser, NZLaser) && u.nis == Nis(u.y, lib.inverse(u.S))
      && u.nis == Nis([z[0] - x[0], z[1] - x[1]], lib.inverse(u.S))
  {
    LaserPredictedMeasurement(lib, x, P, z);
  }

  /** H * P * H^T + R is the top-left 2x2 block of P plus diag(0.15^2, 0.15^2). */
  lemma LaserInnovationCovariance(lib: Library, x: Vector, P: Matrix, z: Vector)
    requires lib.Valid() && |x| == NX && IsMatrix(P, NX, NX) && |z| == NZLaser
    ensures LaserUpdate(lib, x, P, z).S
         == [[P[0][0] + 0.0225, P[0][1]], [P[1][0], P[1][1] + 0.0225]]
  {
    var H := HLaser();
    var HP := MatMul(H, P, NX);
    forall i, j | 0 <= i < NZLaser && 0 <= j < NX
      ensures HP[i][j] == P[i][j]
    {
      assert H[i] == Unit(NX, i);
      DotUnit(Col(P, j), i);
    }
    assert HP[0] == P[0] && HP[1] == P[1];
    var Ht := Transpose(H);
    var HPHt := MatMul(HP, Ht, NZLaser);
    forall i, j | 0 <= i < NZLaser && 0 <= j < NZLaser
      ensures HPHt[i][j] == P[i][j]
    {
      assert Col(Ht, j) == Unit(NX, j);
      DotUnit(HP[i], j);
    }
    var S := LaserUpdate(lib, x, P, z).S;
    assert S == MAdd(HPHt, RLaser());
    assert S[0] == [P[0][0] + 0.0225, P[0][1]];
    assert S[1] == [P[1][0], P[1][1] + 0.0225];
  }

  /** The range, bearing and range rate a radar would report for state s. */
  function RadarMeasurementOf(lib: Library, s: Vector): (z: Vector)
    requires |s| == NX
    ensures |z| == NZRadar
  {
    RadarMeasurement(lib, s[0], s[1], s[2], s[3])
  }

  /** The same mapping on the position, speed and yaw taken one by one. */
  function RadarMeasurement(lib: Library, px: real, py: real, v: real, yaw: real): (z: Vector)
    ensures |z| == NZRadar
  {
    var v1, v2 := lib.cos(yaw) * v, lib.sin(yaw) * v;
    [lib.sqrt(px * px + py * py),
     lib.atan2(py, px),
     lib.divide(px * v1 + py * v2, lib.sqrt(px * px + py * py))]
  }

  /** The range is the non-negative root of px^2 + py^2, the bearing is
      atan2(py, px), and away from the origin the range rate times the range
      is the radial component px * vx + py * vy of the velocity. */
  lemma RadarMeasurementMeaning(lib: Library, s: Vector)
    requires lib.Valid() && |s| == NX
    ensures var z := RadarMeasurementOf(lib, s);
      && z[0] >= 0.0 && z[0] * z[0] == s[0] * s[0] + s[1] * s[1]
      && z[1] == lib.atan2(s[1], s[0])
      && (z[0] != 0.0 ==> z[2] * z[0] == s[0] * lib.cos(s[3]) * s[2] + s[1] * lib.sin(s[3]) * s[2])
  {
    var z := RadarMeasurementOf(lib, s);
    assert z == RadarMeasurement(lib, s[0], s[1], s[2], s[3]);
    var num := s[0] * (lib.cos(s[3]) * s[2]) + s[1] * (lib.sin(s[3]) * s[2]);
    assert 0.0 <= s[0] * s[0] + s[1] * s[1];
    if z[0] != 0.0 {
      assert z[2] == num / z[0];
      assert z[2] * z[0] == num;
    }
  }

  /** The predicted sigma points mapped into measurement space. */
  function RadarSigmaPoints(lib: Library, Y: seq<Vector>): (Z: seq<Vector>)
    requires AllDim(Y, NX)
    ensures |Z| == |Y| && AllDim(Z, NZRadar)
  {
    seq(|Y|, i requires 0 <= i < |Y| => RadarMeasurementOf(lib, Y[i]))
  }

  /** Column i of the mapped sigma points has a non-negative range whose square
      is px^2 + py^2, the bearing atan2(py, px), and away from the origin a
      range rate that times the range gives px * vx + py * vy. */
  lemma RadarColumns(lib: Library, Y: seq<Vector>, i: nat)
    requires lib.Valid() && AllDim(Y, NX) && i < |Y|
    ensures var Z := RadarSigmaPoints(lib, Y);
      && Z[i][0] >= 0.0 && Z[i][0] * Z[i][0] == Y[i][0] * Y[i][0] + Y[i][1] * Y[i][1]
      && Z[i][1] == lib.atan2(Y[i][1], Y[i][0])
      && (Z[i][0] != 0.0 ==>
            Z[i][2] * Z[i][0] == Y[i][0] * lib.cos(Y[i][3]) * Y[i][2] + Y[i][1] * lib.sin(Y[i][3]) * Y[i][2])
  {
    assert RadarSigmaPoints(lib, Y)[i] == RadarMeasurementOf(lib, Y[i]);
    RadarMeasurementMeaning(lib, Y[i]);
  }

  /** The quantities of one radar update. */
  datatype RadarStep = RadarStep(zsig: seq<Vector>, zPred: Vector, S: Matrix, T: Matrix, K: Matrix,
                                 zDiff: Vector, x: Vector, P: Matrix)

  /** The radar update of mean x and covariance P, given the weights and the
      predicted sigma points Y, by measurement z. */
  function RadarUpdate(lib: Library, w: seq<real>, Y: seq<Vector>, x: Vector, P: Matrix, z: Vector): (u: RadarStep)
    requires lib.Valid() && |w| == NSigma && |Y| == NSigma && AllDim(Y, NX)
    requires |x| == NX && IsMatrix(P, NX, NX) && |z| == NZRadar
    ensures |u.zsig| == NSigma && AllDim(u.zsig, NZRadar) && |u.zPred| == NZRadar
    ensures IsMatrix(u.S, NZRadar, NZRadar) && IsMatrix(u.T, NX, NZRadar) && IsMatrix(u.K, NX, NZRadar)
    ensures |u.zDiff| == NZRadar && |u.x| == NX && IsMatrix(u.P, NX, NX)
  {
    var zsig := RadarSigmaPoints(lib, Y);
    var zPred := WeightedSum(w, zsig, NSigma, NZRadar);
    var zres := Residuals(zsig, zPred, BearingIndex);
    var S := MAdd(WeightedOuterSum(w, zres, zres, NSigma, NZRadar, NZRadar), RRadar());
    assert IsMatrix(S, NZRadar, NZRadar);
    var T := WeightedOuterSum(w, StateResiduals(Y, x), zres, NSigma, NX, NZRadar);
    var K := MatMul(T, lib.inverse(S), NZRadar);
    var zDiff := WrapAt(VSub(z, zPred), BearingIndex);
    var xNew := VAdd(x, MatVec(K, zDiff));
    var PNew := MSub(P, MatMul(MatMul(K, S, NZRadar), Transpose(K), NX));
    RadarStep(zsig, zPred, S, T, K, zDiff, xNew, PNew)
  }

  /** The radar innovation covariance is symmetric. */
  lemma RadarInnovationCovarianceSymmetric(lib: Library, w: seq<real>, Y: seq<Vector>, x: Vector, P: Matrix, z: Vector)
    requires lib.Valid() && |w| == NSigma && |Y| == NSigma && AllDim(Y, NX)
    requires |x| == NX && IsMatrix(P, NX, NX) && |z| == NZRadar
    ensures IsSymmetric(RadarUpdate(lib, w, Y, x, P, z).S)
  {
    var zsig := RadarSigmaPoints(lib, Y);
    var zPred := WeightedSum(w, zsig, NSigma, NZRadar);
    var zres := Residuals(zsig, zPred, BearingIndex);
    WeightedOuterSumSymmetric(w, zres, NSigma, NZRadar);
    AddSymmetric(WeightedOuterSum(w, zres, zres, NSigma, NZRadar, NZRadar), RRadar());
  }

  /** The innovation used for the state update has its bearing in [-Pi, Pi],
      a whole number of turns away from the raw difference, and its range and
      range rate are the raw differences. */
  lemma RadarInnovation(lib: Library, w: seq<real>, Y: seq<Vector>, x: Vector, P: Matrix, z: Vector) returns (turns: int)
    requires lib.Valid() && |w| == NSigma && |Y| == NSigma && AllDim(Y, NX)
    requires |x| == NX && IsMatrix(P, NX, NX) && |z| == NZRadar
    ensures var u := RadarUpdate(lib, w, Y, x, P, z);
      && -Pi <= u.zDiff[1] <= Pi
      && u.zDiff[1] == z[1] - u.zPred[1] + turns as real * TwoPi
      && u.zDiff[0] == z[0] - u.zPred[0] && u.zDiff[2] == z[2] - u.zPred[2]
  {
    var u := RadarUpdate(lib, w, Y, x, P, z);
    WrapRange(z[1] - u.zPred[1]);
    turns := WrapCongruent(z[1] - u.zPred[1]);
  }
}
