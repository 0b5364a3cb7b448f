/**
 * The library's calibration routines: a calibration record, the two-point
 * pH calibration against the temperature-corrected buffer values, and the
 * conversion of a reading with a known calibration.
 */
module Routines {
  import opened Wrappers
  import opened Stats
  import opened LinearFit
  import opened Interpolation

  /**
   * A linear calibration `y = slope * x + offset` with optional
   * goodness-of-fit figures, generic in the number type as in the original.
   */
  datatype Calibration<F> = Calibration(slope: F, offset: F, rms: Option<F>, rsq: Option<F>)
  {
    /** The calibration built from its four parts. */
    static function New(slope: F, offset: F, rms: Option<F>, rsq: Option<F>): (c: Calibration<F>)
      ensures c.slope == slope && c.offset == offset && c.rms == rms && c.rsq == rsq
    {
      Calibration(slope, offset, rms, rsq)
    }

    /**
     * The default calibration: slope and offset are the number type's
     * default value (passed in as `zero`), and there are no fit figures.
     */
    static function Default(zero: F): (c: Calibration<F>)
      ensures c.slope == zero && c.offset == zero
      ensures c.rms.None? && c.rsq.None?
    {
      Calibration(zero, zero, None, None)
    }

    /** A copy with the slope replaced; everything else is unchanged. */
    function WithSlope(slope': F): (c: Calibration<F>)
      ensures c.slope == slope'
      ensures c.offset == offset && c.rms == rms && c.rsq == rsq
    {
      this.(slope := slope')
    }

    /** A copy with the offset replaced; everything else is unchanged. */
    function WithOffset(offset': F): (c: Calibration<F>)
      ensures c.offset == offset'
      ensures c.slope == slope && c.rms == rms && c.rsq == rsq
    {
      this.(offset := offset')
    }
  }

  /** The line a calibration describes. */
  function LineOf(c: Calibration<real>): Model
  {
    Model(c.slope, c.offset)
  }

  /** Replacing the slope and replacing the offset do not interfere. */
  lemma WithSlopeWithOffsetCommute<F>(c: Calibration<F>, slope: F, offset: F)
    ensures c.WithSlope(slope).WithOffset(offset) == c.WithOffset(offset).WithSlope(slope)
    ensures c.WithSlope(slope).WithOffset(offset) == Calibration.New(slope, offset, c.rms, c.rsq)
  {
  }

  /** A second replacement of the slope overrides the first. */
  lemma WithSlopeTwice<F>(c: Calibration<F>, s1: F, s2: F)
    ensures c.WithSlope(s1).WithSlope(s2) == c.WithSlope(s2)
  {
  }

  /** Replacing the slope with the one already there changes nothing. */
  lemma WithSlopeOwn<F>(c: Calibration<F>)
    ensures c.WithSlope(c.slope) == c && c.WithOffset(c.offset) == c
  {
  }

  /** The absolute value. */
  function Abs(x: real): (r: real)
    ensures r >= 0.0
    ensures r == x || r == -x
  {
    if x < 0.0 then -x else x
  }

  /**
   * Approximate equality of two numbers as the floating-point comparison
   * the original relies on decides it: the numbers are equal, or they lie
   * within the absolute margin `epsilon` of each other.
   */
  predicate ApproxEqual(a: real, b: real, epsilon: real)
  {
    a == b || Abs(a - b) <= epsilon
  }

  /** The default margin of that comparison: the double-precision machine epsilon, 2^-52. */
  const DefaultEpsilon: real := 1.0 / 4503599627370496.0

  /**
   * Two calibrations are approximately equal when their slopes and their
   * offsets are; the fit figures take no part.
   */
  predicate ApproxEq(a: Calibration<real>, b: Calibration<real>, epsilon: real)
  {
    ApproxEqual(a.slope, b.slope, epsilon) && ApproxEqual(a.offset, b.offset, epsilon)
  }

  /** Approximate equality is reflexive for every margin, and symmetric. */
  lemma ApproxEqReflexiveSymmetric(a: Calibration<real>, b: Calibration<real>, epsilon: real)
    ensures ApproxEq(a, a, epsilon)
    ensures ApproxEq(a, b, epsilon) <==> ApproxEq(b, a, epsilon)
  {
    assert Abs(a.slope - b.slope) == Abs(b.slope - a.slope);
    assert Abs(a.offset - b.offset) == Abs(b.offset - a.offset);
  }

  /** With a zero margin, approximate equality is equality of slope and offset. */
  lemma ApproxEqZeroMargin(a: Calibration<real>, b: Calibration<real>)
    ensures ApproxEq(a, b, 0.0) <==> a.slope == b.slope && a.offset == b.offset
  {
  }

  /** The fit figures of either side do not affect approximate equality. */
  lemma ApproxEqIgnoresFitFigures(a: Calibration<real>, b: Calibration<real>, epsilon: real,
                                  rms: Option<real>, rsq: Option<real>)
    ensures ApproxEq(a, b, epsilon) <==> ApproxEq(a.(rms := rms, rsq := rsq), b, epsilon)
  {
  }

  /**
   * The two reference values a calibration is fitted to: the pH of the
   * 4.01 and 10.01 buffers at `temperature` where the tables cover it, and
   * the nominal 4.01 and 10.01 elsewhere.
   */
  function ReferencePh(temperature: real): (r: seq<real>)
    ensures |r| == 2 && r[0] < r[1]
    ensures 0.0 <= temperature < 95.0 ==> r == [InterpPh4(temperature).value, InterpPh10(temperature).value]
    ensures !(0.0 <= temperature < 95.0) ==> r == [4.01, 10.01]
  {
    [InterpPh4(temperature).GetOr(4.01), InterpPh10(temperature).GetOr(10.01)]
  }

  /** A two-element sequence of different values does not have zero variance. */
  lemma TwoDistinctVariance(s: seq<real>)
    requires |s| == 2 && s[0] != s[1]
    ensures Variance(s) != 0.0
  {
    VarianceZeroIffConstant(s);
  }

  /**
   * `ph_calibration`: fits the line that maps the two measured readings onto
   * the two buffer references at `temperature`, and evaluates it. The square
   * root is a parameter. The original divides by zero when both readings
   * are equal, so they must differ. The line maps each reading exactly to
   * its reference, and both fit figures are present.
   */
  function PhCalibration(measured: seq<real>, temperature: real, sqrt: real -> real): (c: Calibration<real>)
    requires |measured| == 2 && measured[0] != measured[1]
    ensures c.rms.Some? && c.rsq.Some?
    ensures LineOf(c) == Chord(measured[0], measured[1], ReferencePh(temperature)[0], ReferencePh(temperature)[1])
    ensures c.rsq.value == 1.0 <==> c.rms.value == 0.0
  {
    var reference := ReferencePh(temperature);
    TwoDistinctVariance(measured);
    TwoDistinctVariance(reference);
    assert measured == [measured[0], measured[1]] && reference == [reference[0], reference[1]];
    FitThroughTwoPoints(measured[0], measured[1], reference[0], reference[1]);
    var model := Fit(measured, reference);
    var evaluation := Evaluate(measured, reference, model, sqrt);
    Calibration.New(model.slope, model.offset, Some(evaluation.rms), Some(evaluation.rsq))
  }

  /** The calibration maps each of the two readings exactly onto its buffer's reference value. */
  lemma PhCalibrationMapsReadings(measured: seq<real>, temperature: real, sqrt: real -> real)
    requires |measured| == 2 && measured[0] != measured[1]
    ensures PhConvert(measured[0], LineOf(PhCalibration(measured, temperature, sqrt))) == ReferencePh(temperature)[0]
    ensures PhConvert(measured[1], LineOf(PhCalibration(measured, temperature, sqrt))) == ReferencePh(temperature)[1]
  {
    var r := ReferencePh(temperature);
    ChordThroughEnds(measured[0], measured[1], r[0], r[1]);
  }

  /** `ph_convert`: the calibrated pH of a reading under a known calibration line. */
  function PhConvert(measured: real, calibration: Model): real
  {
    Predict(measured, calibration)
  }

  /** A calibration line with a non-zero slope can be undone: the reading is recovered from the converted value. */
  lemma PhConvertInvertible(measured: real, calibration: Model)
    requires calibration.slope != 0.0
    ensures (PhConvert(measured, calibration) - calibration.offset) / calibration.slope == measured
  {
  }

  /** Under a line of positive slope, conversion preserves the order of readings. */
  lemma PhConvertMonotone(a: real, b: real, calibration: Model)
    requires calibration.slope > 0.0 && a < b
    ensures PhConvert(a, calibration) < PhConvert(b, calibration)
  {
    assert PhConvert(b, calibration) - PhConvert(a, calibration) == (b - a) * calibration.slope;
  }

  /**
   * Two readings that are exact (their fitted line goes through both
   * points) give a perfect fit: zero error and an R-squared of one, given
   * a square root with `sqrt(0) == 0`.
   */
  lemma PhCalibrationPerfectFit(measured: seq<real>, temperature: real, sqrt: real -> real)
    requires |measured| == 2 && measured[0] != measured[1]
    requires sqrt(0.0) == 0.0
    ensures PhCalibration(measured, temperature, sqrt).rms == Some(0.0)
    ensures PhCalibration(measured, temperature, sqrt).rsq == Some(1.0)
  {
    EvaluateFitThroughTwoPoints(measured, ReferencePh(temperature), sqrt);
  }

  /**
   * With a square root that is exact on non-negative numbers, the error
   * figure is never negative and the R-squared figure never exceeds one.
   */
  lemma PhCalibrationFigureBounds(measured: seq<real>, temperature: real, sqrt: real -> real)
    requires |measured| == 2 && measured[0] != measured[1]
    requires forall m :: m >= 0.0 ==> IsRoot(sqrt(m), m)
    ensures PhCalibration(measured, temperature, sqrt).rms.value >= 0.0
    ensures PhCalibration(measured, temperature, sqrt).rsq.value <= 1.0
  {
    var c := PhCalibration(measured, temperature, sqrt);
    var reference := ReferencePh(temperature);
    TwoDistinctVariance(measured);
    TwoDistinctVariance(reference);
    var model := Fit(measured, reference);
    assert c.rms == Some(Evaluate(measured, reference, model, sqrt).rms);
    assert c.rsq == Some(Evaluate(measured, reference, model, sqrt).rsq);
    var mse := MeanSquaredError(reference, Predictions(measured, model));
    assert IsRoot(sqrt(mse), mse);
    EvaluateBounds(measured, reference, model, sqrt);
  }

  /**
   * Outside the tables' 0 to 95 degree range the calibration falls back on
   * the nominal buffer values, which are exactly the tables' values at
   * 25 degrees.
   */
  lemma PhCalibrationOutOfRange(measured: seq<real>, temperature: real, sqrt: real -> real)
    requires |measured| == 2 && measured[0] != measured[1]
    requires !(0.0 <= temperature < 95.0)
    ensures PhCalibration(measured, temperature, sqrt) == PhCalibration(measured, 25.0, sqrt)
  {
    InterpAt25();
    assert ReferencePh(temperature) == ReferencePh(25.0);
  }

  /**
   * The library's own test: readings 3.75 and 9.49 at 21 degrees give the
   * line of slope 216/205 and offset 10.41/205.
   */
  lemma PhCalibrationAt21(measured: seq<real>, temperature: real, sqrt: real -> real)
    requires |measured| == 2 && measured[0] != measured[1]
    requires measured == [3.75, 9.49] && temperature == 21.0
    ensures LineOf(PhCalibration(measured, temperature, sqrt)) == Model(216.0 / 205.0, 10.41 / 205.0)
  {
    InterpAt21();
    assert ReferencePh(temperature) == [4.002, 10.05];
  }

  /**
   * A calibration with that line passes the test's comparison: it agrees
   * with the expected slope 1.053658536585366 and offset
   * 0.05078048780487787 within the default margin.
   */
  lemma MatchesTestAt21(c: Calibration<real>)
    requires LineOf(c) == Model(216.0 / 205.0, 10.41 / 205.0)
    ensures ApproxEq(c, Calibration.Default(0.0).WithSlope(1.053658536585366).WithOffset(0.05078048780487787),
                     DefaultEpsilon)
  {
  }

  /**
   * The library's documented example: readings 3.97 and 10.2 at 25 degrees
   * give the line of slope 6/6.23 and offset 1.1623/6.23.
   */
  lemma PhCalibrationAt25(measured: seq<real>, temperature: real, sqrt: real -> real)
    requires |measured| == 2 && measured[0] != measured[1]
    requires measured == [3.97, 10.2] && temperature == 25.0
    ensures LineOf(PhCalibration(measured, temperature, sqrt)) == Model(6.0 / 6.23, 1.1623 / 6.23)
  {
    InterpAt25();
    assert ReferencePh(temperature) == [4.01, 10.01];
  }

  /**
   * That line, rounded to five decimals, is the documented slope 0.96308 and
   * offset 0.18657: each lies in the half-open interval of reals that round
   * to the printed value.
   */
  lemma MatchesDocumentationAt25(c: Calibration<real>)
    requires LineOf(c) == Model(6.0 / 6.23, 1.1623 / 6.23)
    ensures 0.963075 <= c.slope < 0.963085 && 0.186565 <= c.offset < 0.186575
  {
  }
}
