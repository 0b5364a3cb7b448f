# caliph: a verified model of a two-point pH calibrator

caliph calibrates a pH electrode from two readings taken in the pH 4.01
and pH 10.01 buffer solutions. Its core works in four steps:

- It looks up the true pH of each buffer at the measurement temperature,
  by linear interpolation in 20-point tables covering 0 to 95 degrees
  Celsius.
- It fits the least-squares line that maps the two readings onto those
  two reference values.
- It scores the fit by its root-mean-squared error and by a
  non-standard R-squared figure, `1 - rms / variance(y)`.
- It converts later readings through the fitted line.

This project models that core in Dafny, over `real` numbers, and proves
properties of the model. The modules are:

- `Stats` (`stats.dfy`): population mean, variance and covariance.
- `LinearFit` (`fit.dfy`): `fit`, `predict`, the mean-squared and
  root-mean-squared error, `rsquared` and `evaluate`.
- `Buffers` (`buffers.dfy`): the temperature table and the two buffer
  curves.
- `Interpolation` (`interpolation.dfy`):
  - a piecewise-linear lookup over the tables;
  - `interp_ph4` and `interp_ph10`.
- `Routines` (`routines.dfy`): the library's routines:
  - the generic `Calibration` record with its builders and approximate
    equality;
  - `ph_calibration`, which falls back on the nominal buffer values
    outside the tables;
  - `ph_convert`.
- `CommonRoutines` (`common_routines.dfy`): the command-line tool's own
  copy of the routines. In this copy:
  - the line is a `[slope, offset]` pair;
  - the default calibration is the identity line;
  - `ph_calibration` has no fallback;
  - a lemma shows it agrees with the library wherever it is defined.
- `Wrappers` (`wrappers.dfy`): `Option`.

The repository holds two copies of the statistics, the fit and the
tables, under `src/libcaliph/` and `src/common/`. The copies are the same
apart from layout, so one set of members models both. The rows below cite
the library copy, except where a property is stated only for the tool's
copy. The tool's copy puts these definitions at the following lines:

- in `src/common/stats.rs`: `mean` at 10-19, `variance` at 22-29 and
  `covariance` at 32-53;
- in `src/common/fit.rs`: `fit` at 11-15, `predict` at 18-20,
  `root_mean_squared_error` at 23-34, `rsquared` at 36-38 and `evaluate`
  at 41-45;
- in `src/common/lib.rs`: the three tables at 11-14, 16-19 and 21-24.

The pieces of the original that the model leaves out are handled like
this:

- **Square root.** `f64::sqrt` is the parameter `sqrt: real -> real`.
  Lemmas that need it to behave state that as a precondition: either
  `sqrt(0) == 0`, or that it returns the non-negative root.
- **Panics.** The original panics when the covariance gets sequences of
  different lengths, and when the tool's `ph_calibration` unwraps a
  missing table value. These cases are preconditions.
- **NaN and infinity.** A zero variance in `fit` or `rsquared`, and an
  empty actual sequence in the error, make the original produce NaN or
  infinity. These cases are preconditions too.

The documentation comments of `interp_ph4` and `interp_ph10` say the
lookup covers 5 to 95 degrees. The tables and the lookup in the code
start at 0 degrees, and the model follows the code: a value exists for
every temperature from 0 up to, but not including, 95.

## Model

| member | source | states |
|---|---|---|
| Stats.Mean | src/libcaliph/stats.rs:10-19 | 0 for the empty sequence; for a single element, that element; for every non-empty sequence, the sum divided by the length, so the one-element shortcut agrees with the general formula |
| Stats.Variance | src/libcaliph/stats.rs:22-28 | 0 for the empty sequence and never negative |
| Stats.Covariance | src/libcaliph/stats.rs:31-52 | requires equal lengths (the original panics otherwise); 0 for empty sequences |
| Stats.SumSquaredDeviations | src/libcaliph/stats.rs:27 | the sum of squared deviations is never negative |
| Stats.SumSquaredDeviationsZero | src/libcaliph/stats.rs:27 | the squared deviations from `m` sum to zero exactly when every element equals `m` |
| Stats.VarianceZeroIffConstant | src/libcaliph/stats.rs:22-28 | a non-empty sequence has variance zero exactly when all its elements are equal |
| Stats.CovarianceOfSelfIsVariance | src/libcaliph/stats.rs:31-52 | `covariance(x, x) == variance(x)` for every `x` |
| Stats.CovarianceOfSingletons | src/libcaliph/stats.rs:99-106 | the covariance of any two one-element sequences is 0 |
| Stats.MeanExample | src/libcaliph/stats.rs:59-65 | `mean([1, 2, 3, 4]) == 2.5` |
| Stats.VarianceExample | src/libcaliph/stats.rs:83-89 | `variance([1, 2, 3, 4]) == 1.25`, the population variance (dividing by N) |
| Stats.CovarianceExample | src/libcaliph/stats.rs:108-115 | `covariance([1, 2, 3, 4], [3, 4, 5, 6]) == 1.25` |
| LinearFit.Fit | src/libcaliph/fit.rs:23-27 | requires equal lengths and a non-zero variance of `x`; the slope times `variance(x)` is `covariance(x, y)`, and the line passes through the point of means `(mean x, mean y)` |
| LinearFit.LineFromMoments | src/libcaliph/fit.rs:24-26 | the line built from `cov`, `var` and the two means: its slope times `var` is `cov`, and it passes through the point of means |
| LinearFit.Predict | src/libcaliph/fit.rs:40-42 | the value `x * slope + offset` of the line at `x` (also `src/common/fit.rs:18-20`); it has no contract of its own, and its properties are the lemmas FitThroughTwoPoints, ChordThroughEnds, ChordUnique, PredictExample, PhConvertInvertible and PhConvertMonotone |
| LinearFit.Predictions | src/libcaliph/fit.rs:79 | one prediction per `x`, in order, each the model's prediction at that `x` |
| LinearFit.SumSquaredError | src/libcaliph/fit.rs:48-52 | the sum of the squared differences over the `zip`ped pairs is never negative |
| LinearFit.SumSquaredErrorPositive | src/libcaliph/fit.rs:48-52 | a single paired difference makes the squared error strictly positive |
| LinearFit.SumSquaredErrorOfEqual | src/libcaliph/fit.rs:48-52 | the squared error is zero when every `zip`ped pair agrees |
| LinearFit.MeanSquaredError | src/libcaliph/fit.rs:44-55 | the squared error divided by the number of actual values; never negative |
| LinearFit.RootMeanSquaredError | src/libcaliph/fit.rs:44-55 | the parameter `sqrt` applied to the mean squared error; it has no contract of its own, since `sqrt` is a parameter, and RootMeanSquaredErrorFacts states its properties under a genuine root |
| LinearFit.MeanSquaredErrorZeroIff | src/libcaliph/fit.rs:44-55 | the mean squared error is zero exactly when every prediction equals its actual value |
| LinearFit.RootMeanSquaredErrorFacts | src/libcaliph/fit.rs:44-55 | with a genuine square root, the root-mean-squared error is never negative, and it is zero exactly when every prediction is right |
| LinearFit.RSquared | src/libcaliph/fit.rs:57-59 | `1 - rms / variance(y)` is 1 exactly when `rms` is 0, and at most 1 exactly when `rms` is non-negative |
| LinearFit.Evaluate | src/libcaliph/fit.rs:78-82 | the R-squared figure is 1 exactly when the error is 0 |
| LinearFit.EvaluateExactModel | src/libcaliph/fit.rs:78-82 | a model that predicts every `y` exactly is scored `[0, 1]` |
| LinearFit.EvaluateBounds | src/libcaliph/fit.rs:78-82 | with a genuine square root, the error is non-negative and the R-squared figure is at most 1 |
| LinearFit.FitRecoversLine | src/libcaliph/fit.rs:23-27 | when every point lies on a line and the x values are not all equal, `fit` returns exactly that line |
| LinearFit.FitThroughTwoPoints | src/libcaliph/fit.rs:23-42 | for two points with different x, the fit is the chord through them, and predicting at each `x_i` gives exactly `y_i` |
| LinearFit.ChordThroughEnds | src/libcaliph/fit.rs:40-42 | the chord through two points with different x predicts each point's y at its x |
| LinearFit.ChordUnique | src/libcaliph/fit.rs:40-42 | any line through two points with different x is their chord |
| LinearFit.EvaluateFitThroughTwoPoints | src/libcaliph/fit.rs:78-82 | evaluating the fit of two points with different x and different y gives error 0 and R-squared 1 |
| LinearFit.FitExample | src/libcaliph/fit.rs:11-21 | `fit([1, 2, 3], [3, 5, 7]) == [2, 1]` |
| LinearFit.PredictExample | src/libcaliph/fit.rs:29-42 | `predict(1.5, [2.0, 3.5]) == 6.5` |
| Buffers.Temperatures | src/libcaliph/lib.rs:199-202 | the control-point temperatures `TEMP_STATIC`, copied literally; CurveLengths and TemperaturesInFiveDegreeSteps state their properties |
| Buffers.Ph4Curve | src/libcaliph/lib.rs:207-210 | the pH 4.01 curve `PH4_STATIC`, copied literally; CurveLengths, NominalValuesAt25 and Ph4CurveRange state its properties |
| Buffers.Ph10Curve | src/libcaliph/lib.rs:215-218 | the pH 10.01 curve `PH10_STATIC`, copied literally; CurveLengths, NominalValuesAt25 and Ph10CurveRange state its properties |
| Buffers.CurveLengths | src/libcaliph/lib.rs:199-218 | each of the three tables has exactly 20 entries |
| Buffers.TemperaturesInFiveDegreeSteps | src/libcaliph/lib.rs:199-202 | the `i`-th temperature is `5 i`, from 0 to 95 |
| Buffers.NominalValuesAt25 | src/libcaliph/lib.rs:199-218 | at index 5 (25 degrees) the buffers have their nominal values, 4.01 and 10.01 |
| Buffers.Ph4CurveRange | src/libcaliph/lib.rs:207-210 | every pH 4.01 table value lies in [4.0, 4.2] |
| Buffers.Ph10CurveRange | src/libcaliph/lib.rs:215-218 | every pH 10.01 table value lies in [9.73, 10.32] |
| Interpolation.Sample | src/libcaliph/routines.rs:106-113 | the linear spline through `(keys[i], values[i])` sampled at `t`: a search for the segment `keys[i] <= t < keys[i + 1]`, then `lerp` with the normalised time `(t - keys[i]) / (keys[i + 1] - keys[i])`, and `None` when no segment holds `t`; it has no contract of its own, and SampleDefinedIff, SampleOnSegment, SampleAtKey and SampleWithin state its properties |
| Interpolation.SampleDefinedIff | src/libcaliph/routines.rs:111-113 | on strictly increasing keys, the linear spline has a value exactly from the first key (included) to the last key (excluded) |
| Interpolation.SampleOnSegment | src/libcaliph/routines.rs:111-113 | inside the segment `keys[i] <= t < keys[i + 1]`, the sample is the linear interpolation between that segment's two values |
| Interpolation.SampleAtKey | src/libcaliph/routines.rs:111-113 | at a control point other than the last, the sample is that point's value |
| Interpolation.SampleWithin | src/libcaliph/routines.rs:111-113 | a sample never leaves the range of the curve's values |
| Interpolation.TemperatureKeys | src/libcaliph/lib.rs:199-202 | the temperatures are strictly increasing, from 0 to 95, one per row of both curves |
| Interpolation.InterpPh4 | src/libcaliph/routines.rs:105-114 | returns a value exactly when `0 <= t < 95`, and that value lies in [4.0, 4.2] |
| Interpolation.InterpPh10 | src/libcaliph/routines.rs:117-126 | returns a value exactly when `0 <= t < 95`, and that value lies in [9.73, 10.32] |
| Interpolation.InterpPh4Formula | src/libcaliph/routines.rs:105-114 | on `[5 i, 5 i + 5)` the pH 4.01 lookup is the straight line between rows `i` and `i + 1` |
| Interpolation.InterpPh10Formula | src/libcaliph/routines.rs:117-126 | on `[5 i, 5 i + 5)` the pH 10.01 lookup is the straight line between rows `i` and `i + 1` |
| Interpolation.InterpAtControlPoint | src/common/routines.rs:49-71 | at a table temperature below 95, each lookup returns that row's pH value |
| Interpolation.InterpAt25 | src/common/routines.rs:49-71 | at 25 degrees the lookups give 4.01 and 10.01 |
| Interpolation.InterpAt21 | src/libcaliph/routines.rs:136-146 | at 21 degrees the linear lookups give 4.002 and 10.05 |
| Routines.Calibration.New | src/libcaliph/routines.rs:38-45 | stores exactly the four given fields |
| Routines.Calibration.Default | src/libcaliph/routines.rs:67-79 | slope and offset are the number type's default, and there are no fit figures |
| Routines.Calibration.WithSlope | src/libcaliph/routines.rs:47-54 | replaces the slope; offset, rms and rsq are unchanged |
| Routines.Calibration.WithOffset | src/libcaliph/routines.rs:57-64 | replaces the offset; slope, rms and rsq are unchanged |
| Routines.WithSlopeWithOffsetCommute | src/libcaliph/routines.rs:47-64 | the two builders commute, and together they equal `new` with the old fit figures |
| Routines.WithSlopeTwice | src/libcaliph/routines.rs:47-54 | a second `with_slope` overrides the first |
| Routines.WithSlopeOwn | src/libcaliph/routines.rs:47-64 | rebuilding with the calibration's own slope or offset changes nothing |
| Routines.ApproxEqual | src/libcaliph/routines.rs:28-31 | the comparison of one number with another: they are equal, or their distance is at most the margin; ApproxEqReflexiveSymmetric and ApproxEqZeroMargin state its properties |
| Routines.DefaultEpsilon | src/libcaliph/routines.rs:145 | the default margin of the test's `approx_eq!`, the double-precision machine epsilon 2^-52; MatchesTestAt21 uses it |
| Routines.ApproxEq | src/libcaliph/routines.rs:25-31 | `approx_eq` on calibrations: the slopes and the offsets are each equal or within the margin, and rms and rsq take no part; ApproxEqReflexiveSymmetric, ApproxEqZeroMargin and ApproxEqIgnoresFitFigures state its properties |
| Routines.ApproxEqReflexiveSymmetric | src/libcaliph/routines.rs:28-31 | approximate equality is reflexive for every margin, negative ones included, and symmetric |
| Routines.ApproxEqZeroMargin | src/libcaliph/routines.rs:28-31 | with a zero margin, approximate equality is equality of slope and offset |
| Routines.ApproxEqIgnoresFitFigures | src/libcaliph/routines.rs:28-31 | approximate equality does not depend on rms or rsq |
| Wrappers.Option.GetOr | src/libcaliph/routines.rs:83-84 | `unwrap_or`: the wrapped value of `Some`, and the default for `None` |
| Routines.ReferencePh | src/libcaliph/routines.rs:83-86 | the two table values at a temperature in [0, 95); the nominal 4.01 and 10.01 elsewhere; the first below the second |
| Routines.PhCalibration | src/libcaliph/routines.rs:82-97 | requires two different readings; both fit figures are present, the line is the chord from the readings to the reference values, and R-squared is 1 exactly when the error is 0 |
| Routines.PhCalibrationMapsReadings | src/libcaliph/routines.rs:82-102 | `ph_convert` under the calibrated line maps each reading exactly onto its buffer's reference value |
| Routines.PhConvert | src/libcaliph/routines.rs:100-102 | `ph_convert` is `predict` under the calibration line; PhCalibrationMapsReadings, PhConvertInvertible and PhConvertMonotone state its properties |
| Routines.PhConvertInvertible | src/libcaliph/routines.rs:100-102 | under a line of non-zero slope, the reading can be recovered from the converted value |
| Routines.PhConvertMonotone | src/libcaliph/routines.rs:100-102 | under a line of positive slope, conversion preserves the order of readings |
| Routines.PhCalibrationPerfectFit | src/libcaliph/routines.rs:88-96 | if `sqrt(0) == 0`, the two-point calibration reports error `Some(0)` and R-squared `Some(1)` |
| Routines.PhCalibrationFigureBounds | src/libcaliph/routines.rs:88-96 | with a genuine square root, the error is non-negative and the R-squared figure is at most 1 |
| Routines.PhCalibrationOutOfRange | src/libcaliph/routines.rs:83-84 | outside [0, 95) the calibration equals the one at 25 degrees, through the 4.01 and 10.01 fallback |
| Routines.PhCalibrationAt21 | src/libcaliph/routines.rs:136-146 | readings 3.75 and 9.49 at 21 degrees give slope 216/205 (= 6.048/5.74) and offset 10.41/205 |
| Routines.MatchesTestAt21 | src/libcaliph/routines.rs:141-145 | that line is approximately equal, within the default margin 2^-52, to the test's slope 1.053658536585366 and offset 0.05078048780487787 |
| Routines.PhCalibrationAt25 | src/libcaliph/lib.rs:26-39 | readings 3.97 and 10.2 at 25 degrees give slope 6/6.23 and offset 1.1623/6.23 |
| Routines.MatchesDocumentationAt25 | src/libcaliph/lib.rs:34-35 | that line, rounded to five decimals, is the documented slope 0.96308 and offset 0.18657: each value lies in the half-open interval that rounds to the printed figure |
| CommonRoutines.Calibration.New | src/common/routines.rs:16-20 | stores the model and the two fit figures unchanged |
| CommonRoutines.Calibration.Default | src/common/routines.rs:22-30 | the identity line `[1, 0]` with no fit figures |
| CommonRoutines.PhConvert | src/common/routines.rs:44-47 | the tool's `ph_convert`, again `predict` under the calibration line; DefaultConvertsToItself and the ensures of CommonRoutines.PhCalibration state its properties |
| CommonRoutines.DefaultConvertsToItself | src/common/routines.rs:44-47 | under the default calibration, `ph_convert` returns its input |
| CommonRoutines.PhCalibration | src/common/routines.rs:32-42 | requires two different readings and a temperature in [0, 95), since the original unwraps both lookups; both fit figures are present, the line maps each reading onto its table value, and R-squared is 1 exactly when the error is 0 |
| CommonRoutines.AgreesWithLibrary | src/common/routines.rs:32-42 | wherever the tool's calibration is defined, it gives the same line and fit figures as the library's |
| CommonRoutines.PhCalibrationAt25 | src/common/routines.rs:32-42 | readings 3.97 and 10.2 at 25 degrees give slope 6/6.23 and offset 1.1623/6.23 |

## Left out

- Floating-point rounding: every `f64` is a `real`. The identities hold exactly. The `float_cmp` comparisons of the tests become exact equalities, or bounds on exact values.
- LinearFit.Evaluate: the figures of the `evaluate` documentation example (about 1.1968e-2 and 0.9955) are not reproduced. They depend on rounding and on the square root.
- LinearFit.RootMeanSquaredError: the square root is the parameter `sqrt` and has no contract of its own. Facts about the error come from lemmas that assume it is a genuine root.
- LinearFit.Fit, LinearFit.Evaluate, LinearFit.MeanSquaredError and LinearFit.RSquared: the inputs on which the original produces NaN or infinity (a zero variance, an empty actual sequence) are excluded by preconditions. The non-finite results are not modelled.
- Routines.PhCalibration and CommonRoutines.PhCalibration: two equal readings are excluded by a precondition. For them the original returns, without panicking, a calibration whose slope, offset and figures are all NaN, because the variance of the readings is zero.
- Stats.Covariance: the panic on unequal lengths is a precondition.
- CommonRoutines.PhCalibration: the panic from `unwrap` on a missing table value is a precondition.
- Routines.ApproxEq: `float_cmp`'s comparison first tests for exact equality, then for a distance within the absolute epsilon, then for a distance in units in the last place. The first two tests are modelled. The third is not, because it measures the distance between binary representations, which reals do not have.
- Routines.Calibration.Default: `F::default()` is the parameter `zero`. For `real`, that default is `0.0`.
- Interpolation.Sample: the `splines` crate is not part of this model. Its sampling with `Interpolation::Linear` is written out directly:
  - a bracket search for `keys[i] <= t < keys[i + 1]`, then linear interpolation inside it;
  - no value outside `[first key, last key)`.

  Routines.PhCalibrationOutOfRange depends on that boundary behaviour.
- Command-line parsing, the `caliph` and `conph` binaries, reading and writing the `calibration.ph` file, and coloured terminal output: I/O outside the numerical core.
