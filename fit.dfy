/**
 * Ordinary least-squares line fit, prediction and goodness-of-fit
 * evaluation. The original's two-element `[f64; 2]` arrays become two-field
 * datatypes: a model is `[slope, offset]`, an evaluation is `[rms, rsq]`.
 */
module LinearFit {
  import opened Stats

  /** The calibration line `y = slope * x + offset`. */
  datatype Model = Model(slope: real, offset: real)

  /** The root-mean-squared error of a model and its R-squared figure. */
  datatype Evaluation = Evaluation(rms: real, rsq: real)

  /**
   * Least-squares fit of `y` against `x`: slope `cov(x, y) / var(x)` and an
   * offset that puts the line through the point of means. Unequal lengths
   * make the original panic and a zero variance makes it divide by zero,
   * so both are excluded here.
   */
  function Fit(x: seq<real>, y: seq<real>): (m: Model)
    requires |x| == |y|
    requires Variance(x) != 0.0
    ensures Scale(m.slope, Variance(x)) == Covariance(x, y)
    ensures Predict(Mean(x), m) == Mean(y)
  {
    LineFromMoments(Covariance(x, y), Variance(x), Mean(x), Mean(y))
  }

  /**
   * The line `fit` computes from the covariance `cov`, the variance `v` and
   * the two means: its slope times the variance is the covariance, and it
   * passes through the point of means.
   */
  function LineFromMoments(cov: real, v: real, mx: real, my: real): (m: Model)
    requires v != 0.0
    ensures Scale(m.slope, v) == cov
    ensures Predict(mx, m) == my
  {
    var slope := cov / v;
    Model(slope, my - slope * mx)
  }

  /** The value the model predicts at `x`. */
  function Predict(x: real, model: Model): real
  {
    x * model.slope + model.offset
  }

  /** The model's prediction at every `x`, in order. */
  function Predictions(x: seq<real>, model: Model): (p: seq<real>)
    ensures |p| == |x|
    ensures forall i :: 0 <= i < |x| ==> p[i] == Predict(x[i], model)
  {
    seq(|x|, i requires 0 <= i < |x| => Predict(x[i], model))
  }

  /**
   * The sum of squared differences of paired elements. Pairs are formed as
   * by `zip`, so the longer sequence's extra elements are ignored.
   */
  function SumSquaredError(predicted: seq<real>, actual: seq<real>): (r: real)
    ensures r >= 0.0
  {
    if |predicted| == 0 || |actual| == 0 then 0.0
    else
      SquareNonNegative(predicted[0] - actual[0]);
      Square(predicted[0] - actual[0]) + SumSquaredError(predicted[1..], actual[1..])
  }

  /** Every pair formed by `zip` agrees. */
  ghost predicate PairwiseEqual(predicted: seq<real>, actual: seq<real>)
  {
    forall i :: 0 <= i < |predicted| && i < |actual| ==> predicted[i] == actual[i]
  }

  /**
   * The squared error inside `root_mean_squared_error`: the sum of squared
   * errors divided by the number of actual values. The original divides by
   * zero on an empty `actual`, so that is excluded.
   */
  function MeanSquaredError(actual: seq<real>, predicted: seq<real>): (r: real)
    requires |actual| > 0
    ensures r >= 0.0
  {
    Average(SumSquaredError(predicted, actual), |actual|)
  }

  /**
   * `root_mean_squared_error`: the square root of the mean squared error.
   * The floating-point square root is the parameter `sqrt`.
   */
  function RootMeanSquaredError(actual: seq<real>, predicted: seq<real>, sqrt: real -> real): real
    requires |actual| > 0
  {
    sqrt(MeanSquaredError(actual, predicted))
  }

  /**
   * `rsquared`: the documented non-standard figure `1 - rms / var(y)`. It is
   * 1 exactly when the error is 0, and at most 1 for a non-negative error.
   */
  function RSquared(y: seq<real>, rms: real): (r: real)
    requires Variance(y) != 0.0
    ensures r == 1.0 <==> rms == 0.0
    ensures rms >= 0.0 <==> r <= 1.0
  {
    1.0 - rms / Variance(y)
  }

  /**
   * `evaluate`: predicts a value for every `x` and scores the predictions
   * against `y`. `y` must not be constant (nor, therefore, empty), for then
   * the original divides by zero.
   */
  function Evaluate(x: seq<real>, y: seq<real>, model: Model, sqrt: real -> real): (r: Evaluation)
    requires Variance(y) != 0.0
    ensures r.rsq == 1.0 <==> r.rms == 0.0
  {
    var predicted := Predictions(x, model);
    var rms := RootMeanSquaredError(y, predicted, sqrt);
    Evaluation(rms, RSquared(y, rms))
  }

  /** `r` is the non-negative square root of `m`. */
  ghost predicate IsRoot(r: real, m: real)
  {
    r >= 0.0 && Square(r) == m
  }

  /** A single differing pair makes the squared error strictly positive. */
  lemma {:induction false} SumSquaredErrorPositive(predicted: seq<real>, actual: seq<real>, i: nat)
    requires i < |predicted| && i < |actual| && predicted[i] != actual[i]
    ensures SumSquaredError(predicted, actual) > 0.0
  {
    SquareNonNegative(predicted[0] - actual[0]);
    if i > 0 {
      assert predicted[1..][i - 1] == predicted[i] && actual[1..][i - 1] == actual[i];
      SumSquaredErrorPositive(predicted[1..], actual[1..], i - 1);
    } else {
      SquarePositive(predicted[0] - actual[0]);
    }
  }

  /** When every pair agrees there is no error. */
  lemma {:induction false} SumSquaredErrorOfEqual(predicted: seq<real>, actual: seq<real>)
    requires PairwiseEqual(predicted, actual)
    ensures SumSquaredError(predicted, actual) == 0.0
  {
    if |predicted| > 0 && |actual| > 0 {
      assert predicted[0] - actual[0] == 0.0;
      assert PairwiseEqual(predicted[1..], actual[1..]) by {
        forall i | 0 <= i < |predicted[1..]| && i < |actual[1..]|
          ensures predicted[1..][i] == actual[1..][i]
        {
          assert predicted[1..][i] == predicted[i + 1] && actual[1..][i] == actual[i + 1];
        }
      }
      SumSquaredErrorOfEqual(predicted[1..], actual[1..]);
    }
  }

  /** The mean squared error is zero exactly when every prediction equals its actual value. */
  lemma MeanSquaredErrorZeroIff(actual: seq<real>, predicted: seq<real>)
    requires |actual| > 0
    ensures MeanSquaredError(actual, predicted) == 0.0 <==> PairwiseEqual(predicted, actual)
  {
    if !PairwiseEqual(predicted, actual) {
      var i :| 0 <= i < |predicted| && i < |actual| && predicted[i] != actual[i];
      SumSquaredErrorPositive(predicted, actual, i);
    } else {
      SumSquaredErrorOfEqual(predicted, actual);
    }
  }

  /**
   * With a genuine square root, the root-mean-squared error is never
   * negative and is zero exactly when every prediction is right.
   */
  lemma RootMeanSquaredErrorFacts(actual: seq<real>, predicted: seq<real>, sqrt: real -> real)
    requires |actual| > 0
    requires IsRoot(sqrt(MeanSquaredError(actual, predicted)), MeanSquaredError(actual, predicted))
    ensures RootMeanSquaredError(actual, predicted, sqrt) >= 0.0
    ensures RootMeanSquaredError(actual, predicted, sqrt) == 0.0 <==> PairwiseEqual(predicted, actual)
  {
    MeanSquaredErrorZeroIff(actual, predicted);
    var r := RootMeanSquaredError(actual, predicted, sqrt);
    if r != 0.0 {
      SquarePositive(r);
    }
  }

  /**
   * A model that predicts every `y` exactly scores an error of 0 and an
   * R-squared of 1, provided the square root of 0 is 0.
   */
  lemma EvaluateExactModel(x: seq<real>, y: seq<real>, model: Model, sqrt: real -> real)
    requires |x| == |y|
    requires Variance(y) != 0.0
    requires forall i :: 0 <= i < |x| ==> Predict(x[i], model) == y[i]
    requires sqrt(0.0) == 0.0
    ensures Evaluate(x, y, model, sqrt) == Evaluation(0.0, 1.0)
  {
    var predicted := Predictions(x, model);
    assert |y| > 0;
    SumSquaredErrorOfEqual(predicted, y);
    assert MeanSquaredError(y, predicted) == 0.0;
  }

  /** Under a genuine square root, `evaluate` reports a non-negative error and an R-squared of at most 1. */
  lemma EvaluateBounds(x: seq<real>, y: seq<real>, model: Model, sqrt: real -> real)
    requires Variance(y) != 0.0
    requires |y| > 0
    requires IsRoot(sqrt(MeanSquaredError(y, Predictions(x, model))), MeanSquaredError(y, Predictions(x, model)))
    ensures Evaluate(x, y, model, sqrt).rms >= 0.0
    ensures Evaluate(x, y, model, sqrt).rsq <= 1.0
  {
    RootMeanSquaredErrorFacts(y, Predictions(x, model), sqrt);
  }

  /** Every point `(x[i], y[i])` lies on the line `m`. */
  ghost predicate OnLine(x: seq<real>, y: seq<real>, m: Model)
  {
    |x| == |y| && forall i :: 0 <= i < |x| ==> Predict(x[i], m) == y[i]
  }

  /** The tails of points on a line lie on it too. */
  lemma OnLineTail(x: seq<real>, y: seq<real>, m: Model)
    requires OnLine(x, y, m) && |x| > 0
    ensures OnLine(x[1..], y[1..], m)
    ensures Predict(x[0], m) == y[0]
  {
    forall i | 0 <= i < |x[1..]| ensures Predict(x[1..][i], m) == y[1..][i] {
      assert x[1..][i] == x[i + 1] && y[1..][i] == y[i + 1];
    }
  }

  /** The sum of points on a line: `sum(y) == slope * sum(x) + offset * n`. */
  lemma {:induction false} SumOnLine(x: seq<real>, y: seq<real>, m: Model)
    requires OnLine(x, y, m)
    ensures Sum(y) == Scale(m.slope, Sum(x)) + Scale(m.offset, |x| as real)
  {
    if x != [] {
      OnLineTail(x, y, m);
      SumOnLine(x[1..], y[1..], m);
      SumStepOnLine(m, x[0], y[0], Sum(x[1..]), Sum(y[1..]), |x[1..]| as real, Sum(x), Sum(y), |x| as real);
    }
  }

  /** One more point of the line added to a sum of points on it. */
  lemma SumStepOnLine(m: Model, x0: real, y0: real, sx: real, sy: real, n: real, tx: real, ty: real, tn: real)
    requires y0 == Predict(x0, m) && sy == Scale(m.slope, sx) + Scale(m.offset, n)
    requires tx == x0 + sx && ty == y0 + sy && tn == n + 1.0
    ensures ty == Scale(m.slope, tx) + Scale(m.offset, tn)
  {
  }

  /** The mean of points on a line lies on the line. */
  lemma MeanOnLine(x: seq<real>, y: seq<real>, m: Model)
    requires OnLine(x, y, m) && |x| > 0
    ensures Mean(y) == Predict(Mean(x), m)
  {
    SumOnLine(x, y, m);
    MeanStepOnLine(m, Sum(x), Sum(y), |x|, Mean(x), Mean(y));
  }

  /** Dividing a sum of points on a line by their number. */
  lemma MeanStepOnLine(m: Model, sx: real, sy: real, n: nat, mx: real, my: real)
    requires n > 0 && mx == Average(sx, n) && my == Average(sy, n)
    requires sy == Scale(m.slope, sx) + Scale(m.offset, n as real)
    ensures my == Predict(mx, m)
  {
    var k := n as real;
    assert (m.slope * sx + m.offset * k) / k == m.slope * (sx / k) + m.offset;
  }

  /** One point's paired deviation, for a point and a mean on the line `m`. */
  lemma DeviationOnLine(xi: real, yi: real, mx: real, my: real, m: Model)
    requires yi == Predict(xi, m) && my == Predict(mx, m)
    ensures CrossDeviation(xi, yi, mx, my) == Scale(m.slope, Square(xi - mx))
  {
  }

  /** Multiplication distributes over addition. */
  lemma Distribute(a: real, p: real, q: real, s: real, ap: real, aq: real)
    requires s == p + q && ap == Scale(a, p) && aq == Scale(a, q)
    ensures ap + aq == Scale(a, s)
  {
  }

  /** Paired deviations of points on a line are the slope times the squared deviations. */
  lemma {:induction false} CrossDeviationsOnLine(x: seq<real>, y: seq<real>, mx: real, my: real, m: Model)
    requires OnLine(x, y, m)
    requires my == Predict(mx, m)
    ensures SumCrossDeviations(x, y, mx, my) == Scale(m.slope, SumSquaredDeviations(x, mx))
  {
    if x == [] {
      assert SumSquaredDeviations(x, mx) == 0.0;
    } else {
      OnLineTail(x, y, m);
      CrossDeviationsOnLine(x[1..], y[1..], mx, my, m);
      DeviationOnLine(x[0], y[0], mx, my, m);
      Distribute(m.slope, Square(x[0] - mx), SumSquaredDeviations(x[1..], mx), SumSquaredDeviations(x, mx),
                 CrossDeviation(x[0], y[0], mx, my), SumCrossDeviations(x[1..], y[1..], mx, my));
    }
  }

  /**
   * When every point lies on the line `m` and the x values are not all
   * equal, the fit recovers exactly that line.
   */
  lemma FitRecoversLine(x: seq<real>, y: seq<real>, m: Model)
    requires OnLine(x, y, m)
    requires Variance(x) != 0.0
    ensures Fit(x, y) == m
  {
    assert |x| > 0;
    MeanOnLine(x, y, m);
    CrossDeviationsOnLine(x, y, Mean(x), Mean(y), m);
    AverageOfScaled(m.slope, SumSquaredDeviations(x, Mean(x)), |x|);
    SameLine(Fit(x, y), m, Variance(x), Covariance(x, y), Mean(x));
  }

  /**
   * Two lines whose slopes both give `c` when multiplied by the non-zero `v`,
   * and which meet at `mx`, are the same line.
   */
  lemma SameLine(f: Model, m: Model, v: real, c: real, mx: real)
    requires v != 0.0 && Scale(f.slope, v) == c && Scale(m.slope, v) == c
    requires Predict(mx, f) == Predict(mx, m)
    ensures f == m
  {
    assert (f.slope - m.slope) * v == 0.0;
  }

  /**
   * A fit through two points with different x passes exactly through both
   * of them.
   */
  lemma FitThroughTwoPoints(x0: real, x1: real, y0: real, y1: real)
    requires x0 != x1
    ensures Variance([x0, x1]) != 0.0
    ensures Fit([x0, x1], [y0, y1]) == Chord(x0, x1, y0, y1)
    ensures Predict(x0, Fit([x0, x1], [y0, y1])) == y0
    ensures Predict(x1, Fit([x0, x1], [y0, y1])) == y1
  {
    var x, y := [x0, x1], [y0, y1];
    assert x[1] != x[0];
    VarianceZeroIffConstant(x);
    var m := Chord(x0, x1, y0, y1);
    ChordThroughEnds(x0, x1, y0, y1);
    assert OnLine(x, y, m);
    FitRecoversLine(x, y, m);
  }

  /** The line through two points with different x. */
  function Chord(x0: real, x1: real, y0: real, y1: real): Model
    requires x0 != x1
  {
    var a := (y1 - y0) / (x1 - x0);
    Model(a, y0 - a * x0)
  }

  /** The chord passes through both of its points. */
  lemma ChordThroughEnds(x0: real, x1: real, y0: real, y1: real)
    requires x0 != x1
    ensures Predict(x0, Chord(x0, x1, y0, y1)) == y0
    ensures Predict(x1, Chord(x0, x1, y0, y1)) == y1
  {
    var a := Chord(x0, x1, y0, y1).slope;
    assert a * (x1 - x0) == y1 - y0;
    assert x1 * a - x0 * a == a * (x1 - x0);
  }

  /**
   * Evaluating the fit through two points with different x and different y
   * gives no error and an R-squared of one, provided the square root of 0 is 0.
   */
  lemma EvaluateFitThroughTwoPoints(x: seq<real>, y: seq<real>, sqrt: real -> real)
    requires |x| == 2 && |y| == 2 && x[0] != x[1] && y[0] != y[1]
    requires sqrt(0.0) == 0.0
    ensures Variance(x) != 0.0 && Variance(y) != 0.0
    ensures Evaluate(x, y, Fit(x, y), sqrt) == Evaluation(0.0, 1.0)
  {
    assert x == [x[0], x[1]] && y == [y[0], y[1]];
    FitThroughTwoPoints(x[0], x[1], y[0], y[1]);
    assert y[1] != y[0];
    VarianceZeroIffConstant(y);
    EvaluateExactModel(x, y, Fit(x, y), sqrt);
  }

  /** The chord is the only line through its two points. */
  lemma ChordUnique(m: Model, x0: real, x1: real, y0: real, y1: real)
    requires x0 != x1
    requires Predict(x0, m) == y0 && Predict(x1, m) == y1
    ensures m == Chord(x0, x1, y0, y1)
  {
    var k := Chord(x0, x1, y0, y1);
    assert (m.slope - k.slope) * (x1 - x0) == 0.0;
  }

  /** `fit([1, 2, 3], [3, 5, 7]) == [2, 1]`: points on `y = 2x + 1` give back that line. */
  lemma FitExample()
    ensures Variance([1.0, 2.0, 3.0]) != 0.0
    ensures Fit([1.0, 2.0, 3.0], [3.0, 5.0, 7.0]) == Model(2.0, 1.0)
  {
    var x := [1.0, 2.0, 3.0];
    VarianceZeroIffConstant(x);
    assert x[1] != x[0];
    assert OnLine(x, [3.0, 5.0, 7.0], Model(2.0, 1.0));
    FitRecoversLine(x, [3.0, 5.0, 7.0], Model(2.0, 1.0));
  }

  /** `predict(1.5, [2.0, 3.5]) == 6.5`. */
  lemma PredictExample()
    ensures Predict(1.5, Model(2.0, 3.5)) == 6.5
  {
  }
}
