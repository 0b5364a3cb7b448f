/**
 * Population statistics over finite sequences of reals: the mean, the
 * variance and the covariance. Every `f64` of the original is a `real` here,
 * so the identities below hold exactly rather than up to rounding.
 *
 * Three small wrappers carry arithmetic that the lemmas pass to one another:
 * `Square(d)` is `d * Same(d)`, `Scale(a, v)` is `a * v` and `Average(t, n)`
 * is `t / n`. Contracts that state products and quotients through these
 * names match as terms from one lemma to the next, and Dafny's verifier
 * checks them without searching the nonlinear arithmetic behind them.
 */
module Stats {

  /** The identity on reals. */
  function Same(x: real): real
  {
    x
  }

  /** `d.powi(2)`. */
  function Square(d: real): real
  {
    d * Same(d)
  }

  /** A square is never negative. */
  lemma SquareNonNegative(d: real)
    ensures Square(d) >= 0.0
  {
  }

  /** The square of a non-zero real is positive. */
  lemma SquarePositive(d: real)
    requires d != 0.0
    ensures Square(d) > 0.0
  {
  }

  /** `a * v`. */
  function Scale(a: real, v: real): real
  {
    a * v
  }

  /** A total divided by the number `n` of terms that make it up. */
  function Average(total: real, n: nat): real
    requires n > 0
  {
    total / n as real
  }

  /** An average is zero exactly when its total is. */
  lemma AverageZeroIff(total: real, n: nat)
    requires n > 0
    ensures Average(total, n) == 0.0 <==> total == 0.0
  {
  }

  /** The average of `n` copies of `c` is `c`. */
  lemma AverageOfCopies(c: real, n: nat)
    requires n > 0
    ensures Average(Scale(n as real, c), n) == c
  {
  }

  /** Scaling commutes with averaging. */
  lemma AverageOfScaled(a: real, total: real, n: nat)
    requires n > 0
    ensures Average(Scale(a, total), n) == Scale(a, Average(total, n))
  {
    assert (a * total) / n as real == a * (total / n as real);
  }

  /** The sum of a sequence (an iterator `sum` in the original). */
  function Sum(s: seq<real>): real
  {
    if s == [] then 0.0 else s[0] + Sum(s[1..])
  }

  /**
   * Arithmetic mean. The empty sequence has mean 0, and the shortcut taken
   * for a single element agrees with sum divided by length.
   */
  function Mean(values: seq<real>): (r: real)
    ensures |values| == 0 ==> r == 0.0
    ensures |values| > 0 ==> r == Average(Sum(values), |values|)
    ensures |values| == 1 ==> r == values[0]
  {
    if |values| == 0 then 0.0
    else if |values| == 1 then values[0]
    else Average(Sum(values), |values|)
  }

  /** The sum of the squared deviations of `s` from `m`; never negative. */
  function SumSquaredDeviations(s: seq<real>, m: real): (r: real)
    ensures r >= 0.0
  {
    if s == [] then 0.0
    else
      SquareNonNegative(s[0] - m);
      Square(s[0] - m) + SumSquaredDeviations(s[1..], m)
  }

  /** The product of one pair's deviations from the two means. */
  function CrossDeviation(xi: real, yi: real, mx: real, my: real): real
  {
    (xi - mx) * (yi - my)
  }

  /** The sum of the products of paired deviations of `x` from `mx` and of `y` from `my`. */
  function SumCrossDeviations(x: seq<real>, y: seq<real>, mx: real, my: real): real
    requires |x| == |y|
  {
    if x == [] then 0.0
    else CrossDeviation(x[0], y[0], mx, my) + SumCrossDeviations(x[1..], y[1..], mx, my)
  }

  /** Population variance (dividing by N); 0 for the empty sequence and never negative. */
  function Variance(values: seq<real>): (r: real)
    ensures |values| == 0 ==> r == 0.0
    ensures r >= 0.0
  {
    if |values| == 0 then 0.0
    else Average(SumSquaredDeviations(values, Mean(values)), |values|)
  }

  /**
   * Population covariance (dividing by N). The original panics when the
   * lengths differ, so equal lengths are a precondition here.
   */
  function Covariance(x: seq<real>, y: seq<real>): (r: real)
    requires |x| == |y|
    ensures |x| == 0 ==> r == 0.0
  {
    if |x| == 0 then 0.0
    else Average(SumCrossDeviations(x, y, Mean(x), Mean(y)), |x|)
  }

  /** The sum of a sequence whose every element is `c` is `|s| * c`. */
  lemma {:induction false} SumOfConstant(s: seq<real>, c: real)
    requires forall i :: 0 <= i < |s| ==> s[i] == c
    ensures Sum(s) == Scale(|s| as real, c)
  {
    if s != [] {
      SumOfConstant(s[1..], c);
    }
  }

  /** A single element away from `m` makes the squared deviations strictly positive. */
  lemma {:induction false} SumSquaredDeviationsPositive(s: seq<real>, m: real, i: nat)
    requires i < |s| && s[i] != m
    ensures SumSquaredDeviations(s, m) > 0.0
  {
    SquareNonNegative(s[0] - m);
    if i > 0 {
      assert s[1..][i - 1] == s[i];
      SumSquaredDeviationsPositive(s[1..], m, i - 1);
    } else {
      SquarePositive(s[0] - m);
    }
  }

  /** When every element equals `m`, there is no deviation at all. */
  lemma {:induction false} SumSquaredDeviationsOfEqual(s: seq<real>, m: real)
    requires forall i :: 0 <= i < |s| ==> s[i] == m
    ensures SumSquaredDeviations(s, m) == 0.0
  {
    if s != [] {
      assert s[0] - m == 0.0;
      SumSquaredDeviationsOfEqual(s[1..], m);
    }
  }

  /** Squared deviations sum to zero exactly when every element equals `m`. */
  lemma SumSquaredDeviationsZero(s: seq<real>, m: real)
    ensures SumSquaredDeviations(s, m) == 0.0 <==> forall i :: 0 <= i < |s| ==> s[i] == m
  {
    if exists i :: 0 <= i < |s| && s[i] != m {
      var i :| 0 <= i < |s| && s[i] != m;
      SumSquaredDeviationsPositive(s, m, i);
    } else {
      SumSquaredDeviationsOfEqual(s, m);
    }
  }

  /**
   * The variance of a non-empty sequence is zero exactly when all its
   * elements are equal; this is the case in which a line fit is undefined.
   */
  lemma VarianceZeroIffConstant(s: seq<real>)
    requires |s| > 0
    ensures Variance(s) == 0.0 <==> forall i :: 0 <= i < |s| ==> s[i] == s[0]
  {
    var m := Mean(s);
    SumSquaredDeviationsZero(s, m);
    AverageZeroIff(SumSquaredDeviations(s, m), |s|);
    if forall i :: 0 <= i < |s| ==> s[i] == s[0] {
      SumOfConstant(s, s[0]);
      AverageOfCopies(s[0], |s|);
    }
  }

  /** Paired deviations of a sequence with itself are its squared deviations. */
  lemma {:induction false} SumCrossDeviationsSelf(x: seq<real>, m: real)
    ensures SumCrossDeviations(x, x, m, m) == SumSquaredDeviations(x, m)
  {
    if x != [] {
      SumCrossDeviationsSelf(x[1..], m);
      assert CrossDeviation(x[0], x[0], m, m) == Square(x[0] - m);
    }
  }

  /** The covariance of a sequence with itself is its variance. */
  lemma CovarianceOfSelfIsVariance(x: seq<real>)
    ensures Covariance(x, x) == Variance(x)
  {
    SumCrossDeviationsSelf(x, Mean(x));
  }

  /** `mean([1, 2, 3, 4]) == 2.5`. */
  lemma MeanExample()
    ensures Mean([1.0, 2.0, 3.0, 4.0]) == 2.5
  {
  }

  /** `variance([1, 2, 3, 4]) == 1.25`: the population variance, dividing by N. */
  lemma VarianceExample()
    ensures Variance([1.0, 2.0, 3.0, 4.0]) == 1.25
  {
  }

  /** `covariance([1, 2, 3, 4], [3, 4, 5, 6]) == 1.25`. */
  lemma CovarianceExample()
    ensures Covariance([1.0, 2.0, 3.0, 4.0], [3.0, 4.0, 5.0, 6.0]) == 1.25
  {
  }

  /** The covariance of two one-element sequences is 0, as for `[2]` and `[1]`. */
  lemma CovarianceOfSingletons(a: real, b: real)
    ensures Covariance([a], [b]) == 0.0
  {
    assert Mean([a]) == a && Mean([b]) == b;
    assert SumCrossDeviations([a], [b], a, b) == 0.0 by {
      assert [a][1..] == [];
    }
  }
}
