/**
 * The command-line tool's own copy of the calibration routines. It keeps
 * the line as a `[slope, offset]` pair, its default calibration is the
 * identity line, and its calibration demands a temperature the buffer
 * tables cover: outside them the original stops with a fatal error instead
 * of falling back on the nominal buffer values.
 */
module CommonRoutines {
  import opened Wrappers
  import opened Stats
  import opened LinearFit
  import opened Interpolation
  import Routines

  /** A calibration line with optional goodness-of-fit figures. */
  datatype Calibration = Calibration(model: Model, rms: Option<real>, rsq: Option<real>)
  {
    /** The calibration built from its three parts. */
    static function New(model: Model, rms: Option<real>, rsq: Option<real>): (c: Calibration)
      ensures c.model == model && c.rms == rms && c.rsq == rsq
    {
      Calibration(model, rms, rsq)
    }

    /** The default calibration: the identity line (slope 1, offset 0) without fit figures. */
    static function Default(): (c: Calibration)
      ensures c.model == Model(1.0, 0.0)
      ensures c.rms.None? && c.rsq.None?
    {
      Calibration(Model(1.0, 0.0), None, None)
    }
  }

  /** `ph_convert`: the calibrated pH of a reading under a known calibration line. */
  function PhConvert(measured: real, calibration: Model): real
  {
    Predict(measured, calibration)
  }

  /** Under the default calibration a reading converts to itself. */
  lemma DefaultConvertsToItself(measured: real)
    ensures PhConvert(measured, Calibration.Default().model) == measured
  {
  }

  /**
   * `ph_calibration`: fits the line that maps the two readings onto the
   * buffer references at `temperature` and evaluates it. The original
   * unwraps both table lookups, so the temperature must lie in the tables'
   * range; equal readings would make it divide by zero. The line maps each
   * reading exactly to the table value, and both fit figures are present.
   */
  function PhCalibration(measured: seq<real>, temperature: real, sqrt: real -> real): (c: Calibration)
    requires |measured| == 2 && measured[0] != measured[1]
    requires 0.0 <= temperature < 95.0
    ensures c.rms.Some? && c.rsq.Some?
    ensures PhConvert(measured[0], c.model) == InterpPh4(temperature).value
    ensures PhConvert(measured[1], c.model) == InterpPh10(temperature).value
    ensures c.rsq.value == 1.0 <==> c.rms.value == 0.0
  {
    var reference := [InterpPh4(temperature).value, InterpPh10(temperature).value];
    Routines.TwoDistinctVariance(measured);
    Routines.TwoDistinctVariance(reference);
    assert measured == [measured[0], measured[1]];
    FitThroughTwoPoints(measured[0], measured[1], reference[0], reference[1]);
    var model := Fit(measured, reference);
    var evaluation := Evaluate(measured, reference, model, sqrt);
    Calibration.New(model, Some(evaluation.rms), Some(evaluation.rsq))
  }

  /**
   * Wherever the tool's calibration is defined, it gives the same line and
   * the same fit figures as the library's.
   */
  lemma AgreesWithLibrary(measured: seq<real>, temperature: real, sqrt: real -> real)
    requires |measured| == 2 && measured[0] != measured[1]
    requires 0.0 <= temperature < 95.0
    ensures PhCalibration(measured, temperature, sqrt).model
         == Routines.LineOf(Routines.PhCalibration(measured, temperature, sqrt))
    ensures PhCalibration(measured, temperature, sqrt).rms == Routines.PhCalibration(measured, temperature, sqrt).rms
    ensures PhCalibration(measured, temperature, sqrt).rsq == Routines.PhCalibration(measured, temperature, sqrt).rsq
  {
    assert Routines.ReferencePh(temperature)
        == [InterpPh4(temperature).value, InterpPh10(temperature).value];
  }

  /**
   * Readings 3.97 and 10.2 at 25 degrees, the example of the tool's
   * documentation, give slope 6/6.23 and offset 1.1623/6.23.
   */
  lemma PhCalibrationAt25(measured: seq<real>, temperature: real, sqrt: real -> real)
    requires |measured| == 2 && measured[0] != measured[1]
    requires measured == [3.97, 10.2] && temperature == 25.0
    ensures PhCalibration(measured, temperature, sqrt).model == Model(6.0 / 6.23, 1.1623 / 6.23)
  {
    AgreesWithLibrary(measured, temperature, sqrt);
    Routines.PhCalibrationAt25(measured, temperature, sqrt);
  }
}
