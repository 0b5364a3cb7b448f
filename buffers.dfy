/**
 * The reference curves of the two calibration buffers: the pH of the
 * nominal pH 4.01 and pH 10.01 buffer solutions at 20 temperatures from
 * 0 to 95 degrees Celsius in steps of 5 degrees.
 */
module Buffers {

  /** Temperatures of the control points, in degrees Celsius. */
  const Temperatures: seq<real> := [
    0.0, 5.0, 10.0, 15.0, 20.0, 25.0, 30.0, 35.0, 40.0, 45.0, 50.0, 55.0, 60.0, 65.0, 70.0, 75.0,
    80.0, 85.0, 90.0, 95.0
  ]

  /** The pH of the pH 4.01 buffer at each temperature. */
  const Ph4Curve: seq<real> := [
    4.01, 4.0, 4.0, 4.0, 4.0, 4.01, 4.02, 4.03, 4.04, 4.05, 4.06, 4.07, 4.09, 4.11, 4.12, 4.14, 4.16,
    4.17, 4.19, 4.2
  ]

  /** The pH of the pH 10.01 buffer at each temperature. */
  const Ph10Curve: seq<real> := [
    10.32, 10.25, 10.18, 10.12, 10.06, 10.01, 9.96, 9.92, 9.88, 9.85, 9.82, 9.79, 9.77, 9.76, 9.75,
    9.74, 9.73, 9.74, 9.75, 9.76
  ]

  /** Every curve has one value per control point, 20 in all. */
  lemma CurveLengths()
    ensures |Temperatures| == 20 && |Ph4Curve| == 20 && |Ph10Curve| == 20
  {
  }

  /** The `i`-th element of `s` is `5 i`: control points every 5 degrees, starting at 0. */
  ghost predicate FiveDegreeSteps(s: seq<real>)
  {
    forall i :: 0 <= i < |s| ==> s[i] == 5.0 * i as real
  }

  /** The control points lie every 5 degrees, from 0 up to 95. */
  lemma TemperaturesInFiveDegreeSteps()
    ensures FiveDegreeSteps(Temperatures)
    ensures Temperatures[0] == 0.0 && Temperatures[|Temperatures| - 1] == 95.0
  {
  }

  /** At 25 degrees (the sixth point) the buffers have their nominal values 4.01 and 10.01. */
  lemma NominalValuesAt25()
    ensures Temperatures[5] == 25.0 && Ph4Curve[5] == 4.01 && Ph10Curve[5] == 10.01
  {
  }

  /** Every pH 4.01 value lies between 4.0 and 4.2. */
  lemma Ph4CurveRange()
    ensures forall i :: 0 <= i < |Ph4Curve| ==> 4.0 <= Ph4Curve[i] <= 4.2
  {
  }

  /** Every pH 10.01 value lies between 9.73 and 10.32. */
  lemma Ph10CurveRange()
    ensures forall i :: 0 <= i < |Ph10Curve| ==> 9.73 <= Ph10Curve[i] <= 10.32
  {
  }
}
