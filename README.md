# Unscented Kalman Filter — a Dafny model

This project models the estimator of a CTRV (constant turn rate and velocity)
Unscented Kalman Filter that tracks an object from a stream of laser and
radar measurements, together with the RMSE scorer that judges its estimates.
The filter is the `UKF` class of `src/ukf.cpp`; the scorer is
`Tools::CalculateRMSE` in `src/tools.cpp`.

Doubles are read as Dafny `real`. Vectors are `seq<real>` and matrices are
sequences of rows (`Linalg`). The sigma-point matrices `Xsig_aug_`,
`Xsig_pred_` and `Zsig_radar_` are kept as sequences of columns, since the
filter reads and writes them column by column.

The filter object is the class `Ukf.UKF`. Its fields are the members that
the source changes after construction, and each C++ method is a Dafny method
that updates them in place. The configuration members are module constants:
the noise deviations, the dimensions, λ, `H_`, `R_`, and `R_radar`. The last
of these is rewritten by `UpdateRadar` on every call, but always with the
same constant values.
Each method is proved to leave exactly the state that a reference definition
prescribes:

- `Process.Predict` for the prediction;
- `Measurement.LaserUpdate` and `Measurement.RadarUpdate` for the two updates.

The lemmas about those definitions carry the properties:

- the block structure of the augmented state;
- the symmetric sigma-point pairs;
- weights that sum to exactly one;
- sigma points whose weighted mean is the augmented mean;
- the two branches of the CTRV step;
- the bounds of the angle normalisation and its congruence modulo 2π;
- the shape of the laser update;
- symmetry of the recombined covariances.

The following are parameters, bundled in the `Numerics.Library` value:

- `sin`, `cos`, `atan2` and `sqrt`;
- the range-rate division, whose divisor can be zero;
- `LLT` and `inverse`.

`fabs` and Eigen's matrix arithmetic (products, transpose, `fill`,
`topLeftCorner`, `Identity`) are modelled concretely, by `Numerics.Abs` and
`Linalg`. The other divisions are exact real division: the CTRV `v / yawd`,
the Δt scaling, the weights and the RMSE mean. `Library.Valid()` states only
the relations that the model relies on:

- `sqrt` gives the non-negative root of a non-negative number;
- division by a non-zero number is exact division;
- a successful `LLT` gives a lower-triangular `L` with `L·Lᵀ` equal to its argument;
- `inverse` keeps the shape of a square matrix.

When `LLT` reports a numerical issue, the source throws `range_error`. The
model returns the status `LltFailed` instead. π is `M_PI` rounded to 16
significant digits, and the proofs use only its sign and size.

Behaviour of the source that the model keeps:

- Angle residuals are normalised by two `while` loops into the closed
  interval [−π, π], not into (−π, π]. An input above π can end at exactly π,
  and an input below −π can end at exactly −π (`Numerics.WrapRange`).
- Nothing rejects an out-of-order measurement. A timestamp earlier than the
  stored one gives a negative Δt, and the filter predicts over it
  (`Ukf.DeltaT`, `Ukf.UKF.ProcessMeasurement`).
- The RMSE scorer does not reject empty or mismatched input: it prints a
  message and goes on to divide. The model therefore makes "equal lengths,
  non-empty, four components each" a precondition of
  `Tools.CalculateRMSE`.
- A measurement from a disabled sensor is ignored. It can still initialise
  the filter if it arrives first.

`src/ukf.h` is not part of this model. The model assumes `lambda_` is a
`double`, so the centre weight is −4/3 and not an integer quotient. It also
assumes the Eigen members that the constructor leaves uninitialised start as
zeros.

## Model

| member | source | states |
|---|---|---|
| `Numerics.NormalizeAngle` | src/ukf.cpp:337-338 | The pair of `while` loops stops with a value in [−π, π] that equals the reference normalisation `Wrap` of the input, and leaves an input already in [−π, π] unchanged |
| `Numerics.WrapRange` | src/ukf.cpp:337-338 | The normalised angle lies in [−π, π]. It is strictly above −π when the input was above π, and strictly below π when the input was below −π |
| `Numerics.WrapCongruent` | src/ukf.cpp:444-445 | The normalised angle differs from the input by a whole number of turns of 2π |
| `Numerics.WrapIdempotent` | src/ukf.cpp:466-467 | Normalising an already normalised angle changes nothing |
| `Numerics.WrapOfInRange` | src/ukf.cpp:473-474 | An angle already in [−π, π] is its own normalisation |
| `Unscented.AngleResidual` | src/ukf.cpp:334-338 | The residual of a column against the mean, with its angle component passed through the normalisation loops, is the plain difference except in that component, which lies in [−π, π] |
| `Unscented.ResidualsMeaning` | src/ukf.cpp:441-445 | Every residual fed to an outer-product sum equals the raw difference off its angle component. The angle component is in [−π, π] and a whole number of turns from the raw difference |
| `Unscented.WeightedOuterSumSymmetric` | src/ukf.cpp:330-342 | A weighted sum of outer products of residuals with themselves is symmetric, whatever the weights |
| `Process.AugmentedMean` | src/ukf.cpp:236-238 | `x_aug_` agrees with `x_` in entries 0..4 and is 0 in entries 5 and 6 |
| `Process.AugmentedCovarianceSymmetric` | src/ukf.cpp:241-244 | The augmented covariance built from a symmetric `P_` is symmetric |
| `Process.SpreadSquare` | src/ukf.cpp:262 | The spread factor sqrt(λ + n_aug) is positive and squares to 3 |
| `Process.SigmaPairsAverage` | src/ukf.cpp:259-264 | Each "+" sigma point and its "−" partner (columns i+1 and i+1+n_aug) average exactly to the augmented mean |
| `Process.SigmaEntry` | src/ukf.cpp:259-264 | Column 0 is `x_aug_`. Columns 1..7 are `x_aug_` plus c times a column of L, and columns 8..14 are `x_aug_` minus c times that column |
| `Process.WeightsFormula` | src/ukf.cpp:315-319 | The weights are λ/(λ+n_aug) for the centre and 0.5/(λ+n_aug) for the other fourteen, with λ = 3 − 7 |
| `Process.WeightsSumToOne` | src/ukf.cpp:315-319 | The fifteen weights sum to exactly 1 |
| `Process.SigmaMean` | src/ukf.cpp:259-264 | The weighted mean of the fifteen augmented sigma points is the augmented mean, for every square-root matrix and spread |
| `Process.CtrvPositionBranches` | src/ukf.cpp:284-291 | The straight-line position update is taken exactly when abs(yawd) ≤ 0.001, and the turning closed form otherwise; both add the acceleration-noise term |
| `Process.CtrvKinematics` | src/ukf.cpp:293-303 | The step gives v_p = v + ν_a·Δt, yaw_p = yaw + yawd·Δt + ½ν_yawdd·Δt² and yawd_p = yawd + ν_yawdd·Δt, independently of the trigonometric functions |
| `Process.CtrvZeroTime` | src/ukf.cpp:284-310 | Over Δt = 0 the motion model returns the state part of the sigma point unchanged |
| `Process.CtrvStraightMotion` | src/ukf.cpp:288-303 | With no turn rate and no noise, the object moves v·Δt along its heading and keeps its speed and heading |
| `Process.CtrvYawNotWrapped` | src/ukf.cpp:309 | The stored predicted yaw is not normalised. A yaw of 3 turning at 1 rad/s for 1 s is stored as 4 > π |
| `Process.PredictedColumns` | src/ukf.cpp:268-312 | Each predicted column takes the straight-line position update when its own abs(yawd) ≤ 0.001 and the turning closed form otherwise, and has v + ν_a·Δt, yaw + yawd·Δt + ½ν_yawdd·Δt² and yawd + ν_yawdd·Δt as speed, yaw and yaw rate |
| `Process.Predict` | src/ukf.cpp:234-345 | The whole prediction fails exactly when LLT of the augmented covariance fails. Otherwise it gives fifteen 7-dimensional and fifteen 5-dimensional sigma points, a 5-vector mean and a 5×5 covariance |
| `Process.PredictedCovarianceSymmetric` | src/ukf.cpp:330-342 | The predicted covariance is symmetric |
| `Process.ZeroTimeKeepsMean` | src/ukf.cpp:321-325 | A prediction over Δt = 0 keeps the state mean |
| `Measurement.HLaserSelects` | src/ukf.cpp:104-106 | `H_ * v` selects (v[0], v[1]) |
| `Measurement.LaserPredictedMeasurement` | src/ukf.cpp:366-367 | The laser's predicted measurement is exactly (x_(0), x_(1)), and the innovation is the measurement minus it |
| `Measurement.LaserInnovationCovariance` | src/ukf.cpp:368-369 | S equals the top-left 2×2 block of `P_` plus diag(0.15², 0.15²) |
| `Measurement.LaserNisResidual` | src/ukf.cpp:381-384 | The residual the laser NIS is computed from is the innovation y that corrected the state |
| `Measurement.LaserUpdate` | src/ukf.cpp:366-377 | The linear Kalman update keeps the shapes of its inputs: a 2-vector predicted measurement and innovation, a 2×2 S, a 5-vector mean and a 5×5 covariance |
| `Measurement.RadarMeasurementMeaning` | src/ukf.cpp:420-426 | The mapped range is the non-negative root of px² + py², the bearing is atan2(py, px), and away from the origin the range rate times the range is px·vx + py·vy |
| `Measurement.RadarColumns` | src/ukf.cpp:412-427 | Column i of `Zsig_radar_` has a non-negative range whose square is px² + py² of predicted point i, the bearing atan2(py, px), and away from the origin a range rate that times the range gives px·vx + py·vy |
| `Measurement.RadarUpdate` | src/ukf.cpp:412-500 | The unscented radar update keeps shapes: fifteen 3-dimensional mapped points, a 3×3 S, 5×3 T and K, a 5-vector mean and a 5×5 covariance |
| `Measurement.RadarInnovationCovarianceSymmetric` | src/ukf.cpp:437-454 | S_radar, the weighted outer products of the bearing-normalised residuals plus R_radar, is symmetric |
| `Measurement.RadarInnovation` | src/ukf.cpp:491-496 | The radar innovation has its bearing in [−π, π], a whole number of turns from the raw difference. Its range and range-rate entries are the raw differences |
| `Ukf.DeltaT` | src/ukf.cpp:181 | Δt in seconds is negative exactly when the new timestamp is earlier, and zero exactly when it is equal |
| `Ukf.UKF.constructor` | src/ukf.cpp:15-120 | A new filter is uninitialised, has timestamp 0, and has both sensors enabled |
| `Ukf.UKF.ProcessMeasurement` | src/ukf.cpp:128-217 | The first measurement only initialises. A later measurement of a disabled sensor changes nothing. A later measurement of an enabled sensor sets `time_us_`, predicts over (ts − old)/10⁶ s, then runs the matching update, or stops with `LltFailed` |
| `Ukf.UKF.Initialize` | src/ukf.cpp:136-171 | `P_` becomes the 5×5 identity. `x_` becomes (px, py, 0, 0, 0): the raw position for laser, or (ρ·cos φ, ρ·sin φ) for radar. `time_us_` becomes the timestamp and the filter is marked initialised |
| `Ukf.UKF.PredictTo` | src/ukf.cpp:180-189 | Δt is (ts − old)/10⁶ s, `time_us_` becomes the timestamp, and the prediction over Δt fails exactly when `Process.Predict` does; otherwise the sigma points, weights, `x_` and `P_` are those of `Process.Predict` |
| `Ukf.UKF.PredictAndUpdateLidar` | src/ukf.cpp:176-194 | A laser cycle sets the timestamp, predicts over the elapsed seconds, and then applies the laser update to the predicted state; the radar fields are untouched |
| `Ukf.UKF.PredictAndUpdateRadar` | src/ukf.cpp:195-215 | A radar cycle sets the timestamp, predicts over the elapsed seconds, and then applies the radar update to the predicted state; `z_laser_` is untouched |
| `Ukf.UKF.Prediction` | src/ukf.cpp:226-345 | The prediction always writes the augmented mean and covariance. On LLT failure it changes nothing else. Otherwise `Xsig_aug_`, `Xsig_pred_`, `weights_`, `x_` and `P_` become those of `Process.Predict` |
| `Ukf.UKF.Augment` | src/ukf.cpp:235-244 | `x_aug_` and `P_aug_` become the augmented mean and the block-structured augmented covariance of the current state |
| `Ukf.UKF.AugmentMean` | src/ukf.cpp:236-238 | `x_aug_` becomes the augmented mean of `x_` |
| `Ukf.UKF.AugmentCovariance` | src/ukf.cpp:241-244 | Building `P_aug_` by fill, top-left block copy and two diagonal writes yields the block-structured augmented covariance |
| `Ukf.UKF.GenerateSigmaPoints` | src/ukf.cpp:259-264 | The loop fills the sigma columns in the order centre, "+" set, "−" set |
| `Ukf.UKF.PredictSigmaPoints` | src/ukf.cpp:268-312 | The loop writes the CTRV step of each augmented sigma point into `Xsig_pred_` |
| `Ukf.UKF.SetWeights` | src/ukf.cpp:315-319 | The weights become −4/3 followed by fourteen copies of 1/6 |
| `Ukf.UKF.PredictMeanAndCovariance` | src/ukf.cpp:321-342 | `x_` becomes the weighted mean of the predicted sigma points. `P_` becomes the weighted sum of outer products of their yaw-normalised residuals against that mean |
| `Ukf.UKF.PredictMean` | src/ukf.cpp:321-325 | The loop leaves `x_` equal to the weighted mean of the predicted sigma points |
| `Ukf.UKF.PredictCovariance` | src/ukf.cpp:330-342 | The loop leaves `P_` equal to the weighted sum of outer products of the yaw-normalised residuals against the current `x_` |
| `Ukf.UKF.UpdateLidar` | src/ukf.cpp:351-393 | `z_laser_` becomes the raw (x, y) measurement, and `x_` and `P_` become the laser update of the old state |
| `Ukf.UKF.UpdateRadar` | src/ukf.cpp:399-512 | `z_radar_`, `Zsig_radar_`, `S_radar`, `T_cross_corr_radar`, `Kalman_gain_radar`, `x_` and `P_` become those of the radar update of the old state by the raw measurement |
| `Ukf.UKF.RadarMoments` | src/ukf.cpp:412-480 | `Zsig_radar_`, the returned predicted measurement, `S_radar`, `T_cross_corr_radar` and `Kalman_gain_radar` are those of the radar update, none of which depends on the measurement |
| `Ukf.UKF.PredictRadarMeasurement` | src/ukf.cpp:412-434 | The loop maps each predicted sigma point into measurement space and returns their weighted mean |
| `Ukf.UKF.RadarInnovationCovariance` | src/ukf.cpp:437-454 | `S_radar` becomes the weighted outer products of the bearing-normalised residuals plus R_radar |
| `Ukf.UKF.RadarCrossCorrelation` | src/ukf.cpp:459-477 | `T_cross_corr_radar` becomes the weighted outer products of the yaw-normalised state residuals with the bearing-normalised measurement residuals |
| `Ukf.UKF.RadarGain` | src/ukf.cpp:480 | The gain is T times the inverse of S |
| `Ukf.UKF.CorrectWithRadar` | src/ukf.cpp:491-507 | `x_` is corrected by the gain times the bearing-normalised innovation, and `P_` by minus K·S·Kᵀ |
| `Tools.SquaredResidualSumBounds` | src/tools.cpp:28-35 | The accumulated squared residual of each component is ≥ 0, and it is 0 when estimates and ground truth agree in that component |
| `Tools.MeanSquaredResidual` | src/tools.cpp:38 | The mean is non-negative and, multiplied by `estimations.size()`, gives back the accumulated sum |
| `Tools.AccumulateSquaredResiduals` | src/tools.cpp:18-35 | Starting from zero, the loop leaves in each of the four components the sum over all estimates of the squared residual in that component |
| `Tools.CalculateRMSE` | src/tools.cpp:12-43 | The result has four components that start at zero and accumulate the squared residuals. Each component r satisfies r ≥ 0 and r·r = the mean squared residual. Identical sequences give the zero vector |
| `Tools.SingleEstimateExample` | src/tools.cpp:28-41 | One estimate (1, 1, 0, 0) against ground truth (0, 0, 0, 0) gives RMSE (1, 1, 0, 0) |

## Left out

- Floating-point rounding, NaN and infinity: every double is an exact real.
- `Numerics.NormalizeAngle`: it terminates over the reals. In doubles, an
  input of ±inf, or one above about 7·10¹⁶ in magnitude (where subtracting
  2π no longer changes it), loops forever, and NaN leaves both loops at once
  outside [−π, π].
- The numeric content of `sin`, `cos`, `atan2` and `sqrt`. These are
  uninterpreted apart from the sqrt relation. The convergence of the
  turning CTRV branch to the straight-line branch as yawd → 0 is therefore
  not stated.
- Eigen's `LLT` algorithm and `inverse`. LLT is an oracle with a contract,
  and its failure is the status `LltFailed`. `inverse` is abstract, so no
  concrete posterior is computed. For example, the posterior of a laser
  update from mean 0, covariance I and measurement (1, 1) is not computed.
- `Numerics.Library`: the LLT oracle answers `None` for an argument that is
  not symmetric. Because `inverse` is abstract, the laser update does not
  provably keep `P_` symmetric, so after a laser update the model may report
  `LltFailed` where Eigen, which reads only the lower triangle, would factor.
- `Ukf.UKF.ProcessMeasurement`: when LLT fails, the source throws
  `range_error` out of the call. The model returns `LltFailed` with the
  timestamp and the augmented state already written, as they are when the
  exception leaves the source.
- `Measurement.RadarMeasurementMeaning`: the range rate at range 0 divides by
  zero (inf or NaN in the source). That value is left open.
- Console output (`cout`) and the commented-out NIS file logging. The NIS
  values are local and discarded, so only their formula is modelled.
- `Tools.CalculateRMSE`: the source only prints a message for empty or
  mismatched input and then goes on. The model makes valid input a
  precondition rather than modelling the division by zero or the
  out-of-range access that follows.
- The measurement-package reader, the main program and the header files
  `ukf.h`, `tools.h` and `measurement_package.h` are not part of this model.
