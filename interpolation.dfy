/**
 * Piecewise-linear lookup on the buffer curves. The original builds a
 * spline with linear interpolation between every pair of neighbouring
 * control points and samples it; `Sample` states that lookup directly: it
 * finds the segment `keys[i] <= t < keys[i + 1]` and interpolates linearly
 * inside it, and it has no result outside `keys[0] <= t < keys[|keys| - 1]`.
 */
module Interpolation {
  import opened Wrappers
  import opened Buffers

  /** Strictly increasing keys, as the spline's control points are. */
  ghost predicate StrictlyIncreasing(s: seq<real>)
  {
    forall i, j :: 0 <= i < j < |s| ==> s[i] < s[j]
  }

  /** Linear interpolation from `a` (at `f = 0`) to `b` (at `f = 1`). */
  function Lerp(a: real, b: real, f: real): real
  {
    a * (1.0 - f) + b * f
  }

  /** The piecewise-linear curve through `(keys[i], values[i])`, sampled at `t`. */
  function Sample(keys: seq<real>, values: seq<real>, t: real): Option<real>
    requires |keys| == |values|
    decreases |keys|
  {
    if |keys| < 2 then None
    else if keys[0] <= t < keys[1] then
      Some(Lerp(values[0], values[1], (t - keys[0]) / (keys[1] - keys[0])))
    else Sample(keys[1..], values[1..], t)
  }

  /** A sample exists exactly between the first key (included) and the last key (excluded). */
  lemma {:induction false} SampleDefinedIff(keys: seq<real>, values: seq<real>, t: real)
    requires |keys| == |values| && |keys| >= 2
    requires StrictlyIncreasing(keys)
    ensures Sample(keys, values, t).Some? <==> keys[0] <= t < keys[|keys| - 1]
  {
    if |keys| > 2 && !(keys[0] <= t < keys[1]) {
      assert StrictlyIncreasing(keys[1..]) by {
        forall i, j | 0 <= i < j < |keys[1..]| ensures keys[1..][i] < keys[1..][j] {
          assert keys[1..][i] == keys[i + 1] && keys[1..][j] == keys[j + 1];
        }
      }
      SampleDefinedIff(keys[1..], values[1..], t);
      assert keys[1..][|keys[1..]| - 1] == keys[|keys| - 1];
    } else if |keys| > 2 {
      assert keys[1] < keys[|keys| - 1];
    }
  }

  /**
   * Inside the segment `keys[i] <= t < keys[i + 1]` the sample is the linear
   * interpolation between that segment's two values.
   */
  lemma {:induction false} SampleOnSegment(keys: seq<real>, values: seq<real>, i: nat, t: real)
    requires |keys| == |values| && i + 1 < |keys|
    requires StrictlyIncreasing(keys)
    requires keys[i] <= t < keys[i + 1]
    ensures Sample(keys, values, t)
         == Some(Lerp(values[i], values[i + 1], (t - keys[i]) / (keys[i + 1] - keys[i])))
  {
    if i > 0 {
      assert keys[1] <= keys[i];
      assert StrictlyIncreasing(keys[1..]) by {
        forall a, b | 0 <= a < b < |keys[1..]| ensures keys[1..][a] < keys[1..][b] {
          assert keys[1..][a] == keys[a + 1] && keys[1..][b] == keys[b + 1];
        }
      }
      assert keys[1..][i - 1] == keys[i] && keys[1..][i] == keys[i + 1];
      assert values[1..][i - 1] == values[i] && values[1..][i] == values[i + 1];
      SampleOnSegment(keys[1..], values[1..], i - 1, t);
    }
  }

  /** At a control point other than the last, the sample is that point's value. */
  lemma SampleAtKey(keys: seq<real>, values: seq<real>, i: nat)
    requires |keys| == |values| && i + 1 < |keys|
    requires StrictlyIncreasing(keys)
    ensures Sample(keys, values, keys[i]) == Some(values[i])
  {
    SampleOnSegment(keys, values, i, keys[i]);
    assert (keys[i] - keys[i]) / (keys[i + 1] - keys[i]) == 0.0;
  }

  /** On a segment five units wide that starts at `c`, the fraction covered is `(t - c) / 5`. */
  lemma SampleOnStep(keys: seq<real>, values: seq<real>, i: nat, t: real, c: real)
    requires |keys| == |values| && i + 1 < |keys|
    requires StrictlyIncreasing(keys)
    requires keys[i] == c && keys[i + 1] == c + 5.0
    requires keys[i] <= t < keys[i + 1]
    ensures Sample(keys, values, t) == Some(Lerp(values[i], values[i + 1], (t - c) / 5.0))
  {
    SampleOnSegment(keys, values, i, t);
    assert (t - keys[i]) / (keys[i + 1] - keys[i]) == (t - c) / 5.0;
  }

  /** The product of two non-negative reals is non-negative. */
  lemma ProductNonNegative(p: real, q: real)
    requires p >= 0.0 && q >= 0.0
    ensures p * q >= 0.0
  {
  }

  /** A quotient `p / q` with `0 <= p < q` lies in `[0, 1)`. */
  lemma FractionInUnit(p: real, q: real)
    requires 0.0 <= p < q
    ensures 0.0 <= p / q < 1.0
  {
  }

  /** Interpolating between two values of an interval stays in the interval. */
  lemma LerpWithin(a: real, b: real, f: real, lo: real, hi: real)
    requires lo <= a <= hi && lo <= b <= hi
    requires 0.0 <= f <= 1.0
    ensures lo <= Lerp(a, b, f) <= hi
  {
    assert Lerp(a, b, f) - lo == (a - lo) * (1.0 - f) + (b - lo) * f;
    assert hi - Lerp(a, b, f) == (hi - a) * (1.0 - f) + (hi - b) * f;
    ProductNonNegative(a - lo, 1.0 - f);
    ProductNonNegative(b - lo, f);
    ProductNonNegative(hi - a, 1.0 - f);
    ProductNonNegative(hi - b, f);
  }

  /** A sample never leaves the range of the curve's values. */
  lemma {:induction false} SampleWithin(keys: seq<real>, values: seq<real>, t: real, lo: real, hi: real)
    requires |keys| == |values|
    requires forall i :: 0 <= i < |values| ==> lo <= values[i] <= hi
    ensures Sample(keys, values, t).Some? ==> lo <= Sample(keys, values, t).value <= hi
  {
    if |keys| >= 2 {
      if keys[0] <= t < keys[1] {
        var f := (t - keys[0]) / (keys[1] - keys[0]);
        FractionInUnit(t - keys[0], keys[1] - keys[0]);
        LerpWithin(values[0], values[1], f, lo, hi);
      } else {
        assert forall i :: 0 <= i < |values[1..]| ==> lo <= values[1..][i] <= hi by {
          forall i | 0 <= i < |values[1..]| ensures lo <= values[1..][i] <= hi {
            assert values[1..][i] == values[i + 1];
          }
        }
        SampleWithin(keys[1..], values[1..], t, lo, hi);
      }
    }
  }

  /** Keys five degrees apart are strictly increasing. */
  lemma FiveDegreeStepsIncreasing(keys: seq<real>)
    requires FiveDegreeSteps(keys)
    ensures StrictlyIncreasing(keys)
  {
    forall i, j | 0 <= i < j < |keys| ensures keys[i] < keys[j] {
      assert keys[i] == 5.0 * i as real && keys[j] == 5.0 * j as real;
    }
  }

  /** The buffer curves' keys are the control-point temperatures: 20 of them, from 0 to 95 degrees. */
  lemma TemperatureKeys()
    ensures |Temperatures| == |Ph4Curve| == |Ph10Curve| == 20
    ensures StrictlyIncreasing(Temperatures)
    ensures Temperatures[0] == 0.0 && Temperatures[19] == 95.0
  {
    CurveLengths();
    TemperaturesInFiveDegreeSteps();
    FiveDegreeStepsIncreasing(Temperatures);
  }

  /** Both facts about a sample at once: where it is defined and the range of its values. */
  lemma SampleFacts(keys: seq<real>, values: seq<real>, t: real, lo: real, hi: real)
    requires |keys| == |values| && |keys| >= 2
    requires StrictlyIncreasing(keys)
    requires forall i :: 0 <= i < |values| ==> lo <= values[i] <= hi
    ensures Sample(keys, values, t).Some? <==> keys[0] <= t < keys[|keys| - 1]
    ensures Sample(keys, values, t).Some? ==> lo <= Sample(keys, values, t).value <= hi
  {
    SampleDefinedIff(keys, values, t);
    SampleWithin(keys, values, t, lo, hi);
  }

  /**
   * `interp_ph4`: the pH of the pH 4.01 buffer at `temperature`. It is
   * defined from 0 up to (not including) 95 degrees and lies between 4.0
   * and 4.2.
   */
  function InterpPh4(temperature: real): (r: Option<real>)
    ensures r.Some? <==> 0.0 <= temperature < 95.0
    ensures r.Some? ==> 4.0 <= r.value <= 4.2
  {
    TemperatureKeys();
    Ph4CurveRange();
    SampleFacts(Temperatures, Ph4Curve, temperature, 4.0, 4.2);
    Sample(Temperatures, Ph4Curve, temperature)
  }

  /**
   * `interp_ph10`: the pH of the pH 10.01 buffer at `temperature`. It is
   * defined from 0 up to (not including) 95 degrees and lies between 9.73
   * and 10.32.
   */
  function InterpPh10(temperature: real): (r: Option<real>)
    ensures r.Some? <==> 0.0 <= temperature < 95.0
    ensures r.Some? ==> 9.73 <= r.value <= 10.32
  {
    TemperatureKeys();
    Ph10CurveRange();
    SampleFacts(Temperatures, Ph10Curve, temperature, 9.73, 10.32);
    Sample(Temperatures, Ph10Curve, temperature)
  }

  /** On keys five degrees apart, the sample on `[5 i, 5 i + 5)` interpolates with fraction `(t - 5 i) / 5`. */
  lemma SampleOnFiveDegreeSegment(keys: seq<real>, values: seq<real>, i: nat, t: real)
    requires |keys| == |values| && i + 1 < |keys|
    requires FiveDegreeSteps(keys)
    requires 5.0 * i as real <= t < 5.0 * i as real + 5.0
    ensures Sample(keys, values, t) == Some(Lerp(values[i], values[i + 1], (t - 5.0 * i as real) / 5.0))
  {
    FiveDegreeStepsIncreasing(keys);
    assert keys[i] == 5.0 * i as real && keys[i + 1] == 5.0 * (i + 1) as real;
    SampleOnStep(keys, values, i, t, 5.0 * i as real);
  }

  /** On keys five degrees apart, the sample at the `i`-th key (other than the last) is `values[i]`. */
  lemma SampleAtFiveDegreeKey(keys: seq<real>, values: seq<real>, i: nat)
    requires |keys| == |values| && i + 1 < |keys|
    requires FiveDegreeSteps(keys)
    ensures Sample(keys, values, 5.0 * i as real) == Some(values[i])
  {
    FiveDegreeStepsIncreasing(keys);
    assert keys[i] == 5.0 * i as real;
    SampleAtKey(keys, values, i);
  }

  /** A sample of a buffer curve on the table segment `[5 i, 5 i + 5)`. */
  lemma SampleOnTableSegment(values: seq<real>, i: nat, t: real)
    requires |values| == |Temperatures| && i < 19
    requires 5.0 * i as real <= t < 5.0 * i as real + 5.0
    ensures Sample(Temperatures, values, t)
         == Some(Lerp(values[i], values[i + 1], (t - 5.0 * i as real) / 5.0))
  {
    CurveLengths();
    TemperaturesInFiveDegreeSteps();
    SampleOnFiveDegreeSegment(Temperatures, values, i, t);
  }

  /**
   * On the segment `[5 i, 5 i + 5)` of the tables the pH 4.01 lookup is the
   * straight line between the `i`-th control point and the next.
   */
  lemma InterpPh4Formula(i: nat, t: real)
    requires i < 19 && 5.0 * i as real <= t < 5.0 * i as real + 5.0
    ensures InterpPh4(t) == Some(Lerp(Ph4Curve[i], Ph4Curve[i + 1], (t - 5.0 * i as real) / 5.0))
  {
    CurveLengths();
    SampleOnTableSegment(Ph4Curve, i, t);
  }

  /** The same straight-line form for the pH 10.01 lookup. */
  lemma InterpPh10Formula(i: nat, t: real)
    requires i < 19 && 5.0 * i as real <= t < 5.0 * i as real + 5.0
    ensures InterpPh10(t) == Some(Lerp(Ph10Curve[i], Ph10Curve[i + 1], (t - 5.0 * i as real) / 5.0))
  {
    CurveLengths();
    SampleOnTableSegment(Ph10Curve, i, t);
  }

  /** At a control-point temperature below 95 degrees, each lookup returns that row's value. */
  lemma InterpAtControlPoint(i: nat)
    requires i < 19
    ensures InterpPh4(5.0 * i as real) == Some(Ph4Curve[i])
    ensures InterpPh10(5.0 * i as real) == Some(Ph10Curve[i])
  {
    CurveLengths();
    TemperaturesInFiveDegreeSteps();
    SampleAtFiveDegreeKey(Temperatures, Ph4Curve, i);
    SampleAtFiveDegreeKey(Temperatures, Ph10Curve, i);
  }

  /** At 25 degrees the lookups give the nominal 4.01 and 10.01. */
  lemma InterpAt25()
    ensures InterpPh4(25.0) == Some(4.01) && InterpPh10(25.0) == Some(10.01)
  {
    InterpAtControlPoint(5);
  }

  /** At 21 degrees, a fifth of the way from 20 to 25, the lookups give 4.002 and 10.05. */
  lemma InterpAt21()
    ensures InterpPh4(21.0) == Some(4.002) && InterpPh10(21.0) == Some(10.05)
  {
    InterpPh4Formula(4, 21.0);
    InterpPh10Formula(4, 21.0);
  }
}
