/**
 * Feature scaling: z-score standardisation of the feature, min-max
 * normalisation, and the maps that carry coefficients fitted on scaled data
 * back to the raw scale.
 *
 * numpy's std is a square root, which exact reals do not have: every member
 * that needs it takes std as a parameter and requires IsPopulationStd, so std
 * is exactly the population standard deviation that np.std would return (and
 * PopulationStdUnique shows there is only one such value).
 */
module FeatureScaling {
  import opened LinearRegression

  // ---------------------------------------------------------------------
  // Z-score standardisation
  // ---------------------------------------------------------------------

  function ZScore(v: real, mean: real, std: real): real
    requires std != 0.0
  {
    (v - mean) / std
  }

  /** standardization: (data − mean(data)) / std(data), element by element. */
  function Standardization(x: seq<real>, std: real): (z: seq<real>)
    requires IsPopulationStd(x, std)
    ensures |z| == |x|
  {
    var mean := Mean(x);
    seq(|x|, i requires 0 <= i < |x| => ZScore(x[i], mean, std))
  }

  /** Two positive numbers with the same square are equal: std is determined by x. */
  lemma PopulationStdUnique(x: seq<real>, s1: real, s2: real)
    requires IsPopulationStd(x, s1) && IsPopulationStd(x, s2)
    ensures s1 == s2
  {
    assert (s1 - s2) * (s1 + s2) == s1 * s1 - s2 * s2;
  }

  /** The standardised feature sums to zero: it has mean 0. */
  lemma StandardizationSumsToZero(x: seq<real>, std: real)
    requires IsPopulationStd(x, std)
    ensures Sum(Standardization(x, std)) == 0.0
    ensures Mean(Standardization(x, std)) == 0.0
  {
    var n := |x|;
    var mu := Mean(x);
    var z := Standardization(x, std);
    var scaled := Scale(x, 1.0 / std);
    forall i | 0 <= i < n
      ensures z[i] == Shift(scaled, -mu / std)[i]
    {
      ZScoreAffine(x[i], mu, std);
    }
    assert z == Shift(scaled, -mu / std);
    SumShift(scaled, -mu / std, n as real);
    SumScale(x, 1.0 / std);
    CenteredSumVanishes(Sum(x), n as real, std);
  }

  /** The standardised feature has population variance 1 (standard deviation 1). */
  lemma StandardizationHasUnitVariance(x: seq<real>, std: real)
    requires IsPopulationStd(x, std)
    ensures Variance(Standardization(x, std)) == 1.0
  {
    hide Sum;
    var n := |x|;
    var z := Standardization(x, std);
    var d := Deviations(x);
    StandardizationSumsToZero(x, std);
    CenteredDeviations(z);
    StandardizationScalesDeviations(x, std);
    SumSquaresScaled(d, z, 1.0 / std);
    VarianceUnfold(x);
    UnitVarianceAlgebra(Sum(Squares(d)), Sum(Squares(z)), n as real, std, Variance(x));
  }

  /** A sequence that sums to zero is its own deviation from the mean. */
  lemma CenteredDeviations(z: seq<real>)
    requires |z| > 0 && Sum(z) == 0.0
    ensures Deviations(z) == z
  {
    assert Mean(z) == 0.0;
    forall i | 0 <= i < |z|
      ensures Deviations(z)[i] == z[i]
    {
    }
  }

  lemma StandardizationScalesDeviations(x: seq<real>, std: real)
    requires IsPopulationStd(x, std)
    ensures |Standardization(x, std)| == |Deviations(x)|
    ensures forall i :: 0 <= i < |x| ==> Standardization(x, std)[i] == (1.0 / std) * Deviations(x)[i]
  {
    forall i | 0 <= i < |x|
      ensures Standardization(x, std)[i] == (1.0 / std) * Deviations(x)[i]
    {
      QuotientAsProduct(x[i] - Mean(x), std);
    }
  }

  // ---------------------------------------------------------------------
  // Z-score de-scaling of the coefficients
  // ---------------------------------------------------------------------

  /**
   * denormalize_coefficients (and its copy denormalize_coefficients_2):
   * w = w_n / std and b = b_n − w_n·mean / std, with mean and std
   * recomputed from the raw feature.
   */
  function DenormalizeCoefficients(x: seq<real>, std: real, wN: real, bN: real): (c: Line)
    requires IsPopulationStd(x, std)
    ensures c.w * std == wN
    ensures Predict(c, Mean(x)) == bN
    ensures wN == 0.0 ==> c == Line(0.0, bN)
  {
    var mean := Mean(x);
    Line(wN / std, bN - wN * mean / std)
  }

  /**
   * The de-scaled line predicts on a raw feature value v exactly what the
   * line fitted on z-scores predicts on the z-score of v.
   */
  lemma DenormalizeRoundTrip(x: seq<real>, std: real, wN: real, bN: real, v: real)
    requires IsPopulationStd(x, std)
    ensures Predict(DenormalizeCoefficients(x, std, wN, bN), v) == Predict(Line(wN, bN), ZScore(v, Mean(x), std))
  {
    var mean := Mean(x);
    calc {
      Predict(Line(wN, bN), ZScore(v, mean, std));
      wN * ((v - mean) / std) + bN;
      { assert (v - mean) / std == v / std - mean / std; }
      wN * (v / std) - wN * (mean / std) + bN;
      (wN / std) * v + (bN - wN * mean / std);
    }
  }

  /**
   * De-scaling keeps every residual, so the cost of the de-scaled line on
   * the raw feature is the cost of the fitted line on the standardised one.
   */
  lemma DenormalizePreservesCost(x: seq<real>, y: seq<real>, std: real, wN: real, bN: real)
    requires Samples(x, y) && IsPopulationStd(x, std)
    ensures Residuals(x, y, DenormalizeCoefficients(x, std, wN, bN))
         == Residuals(Standardization(x, std), y, Line(wN, bN))
    ensures Cost(x, y, DenormalizeCoefficients(x, std, wN, bN))
         == Cost(Standardization(x, std), y, Line(wN, bN))
  {
    var z := Standardization(x, std);
    forall i | 0 <= i < |x|
      ensures Residuals(x, y, DenormalizeCoefficients(x, std, wN, bN))[i] == Residuals(z, y, Line(wN, bN))[i]
    {
      DenormalizeRoundTrip(x, std, wN, bN, x[i]);
    }
  }

  // ---------------------------------------------------------------------
  // Min-max normalisation
  // ---------------------------------------------------------------------

  /** np.min. */
  function Min(s: seq<real>): (m: real)
    requires |s| > 0
    ensures m in s
    ensures forall i :: 0 <= i < |s| ==> m <= s[i]
  {
    if |s| == 1 then s[0]
    else
      var rest := Min(s[..|s| - 1]);
      if s[|s| - 1] < rest then s[|s| - 1] else rest
  }

  /** np.max. */
  function Max(s: seq<real>): (m: real)
    requires |s| > 0
    ensures m in s
    ensures forall i :: 0 <= i < |s| ==> s[i] <= m
  {
    if |s| == 1 then s[0]
    else
      var rest := Max(s[..|s| - 1]);
      if s[|s| - 1] > rest then s[|s| - 1] else rest
  }

  /** The smallest and the largest value of a feature. */
  datatype Range = Range(lo: real, hi: real)

  /**
   * r holds the minimum and the maximum of s. The min-max members take the
   * range as a parameter characterised by this predicate; Min and Max compute
   * it (MinMaxIsRange) and it is unique (RangeUnique).
   */
  predicate IsRange(s: seq<real>, r: Range)
  {
    r.lo in s && r.hi in s && forall i :: 0 <= i < |s| ==> r.lo <= s[i] <= r.hi
  }

  lemma MinMaxIsRange(s: seq<real>)
    requires |s| > 0
    ensures IsRange(s, Range(Min(s), Max(s)))
  {
  }

  lemma RangeUnique(s: seq<real>, r1: Range, r2: Range)
    requires IsRange(s, r1) && IsRange(s, r2)
    ensures r1 == r2
  {
    var i1 :| 0 <= i1 < |s| && s[i1] == r1.lo;
    var i2 :| 0 <= i2 < |s| && s[i2] == r2.lo;
    var j1 :| 0 <= j1 < |s| && s[j1] == r1.hi;
    var j2 :| 0 <= j2 < |s| && s[j2] == r2.hi;
    assert r1.lo <= s[i2] && r2.lo <= s[i1];
    assert s[j2] <= r1.hi && s[j1] <= r2.hi;
  }

  /** (v − lo)/(hi − lo): the position of v between lo and hi. */
  function MinMaxValue(v: real, lo: real, hi: real): (r: real)
    requires lo < hi
    ensures lo <= v <= hi ==> 0.0 <= r <= 1.0
    ensures v == lo ==> r == 0.0
    ensures v == hi ==> r == 1.0
  {
    QuotientFacts(v - lo, hi - lo);
    (v - lo) / (hi - lo)
  }

  /** Scaling back by the range recovers the value. */
  lemma MinMaxValueInverse(v: real, lo: real, hi: real)
    requires lo < hi
    ensures lo + MinMaxValue(v, lo, hi) * (hi - lo) == v
  {
    QuotientFacts(v - lo, hi - lo);
  }

  lemma MinMaxValueMonotone(a: real, c: real, lo: real, hi: real)
    requires lo < hi
    ensures a <= c <==> MinMaxValue(a, lo, hi) <= MinMaxValue(c, lo, hi)
  {
    QuotientMonotone(a - lo, c - lo, hi - lo);
  }

  /** normalization: (data − min)/(max − min), element by element. */
  function Normalization(x: seq<real>, r: Range): (n: seq<real>)
    requires IsRange(x, r) && r.lo != r.hi
    ensures |n| == |x|
    ensures forall i :: 0 <= i < |x| ==> 0.0 <= n[i] <= 1.0
    ensures forall i :: 0 <= i < |x| && x[i] == r.lo ==> n[i] == 0.0
    ensures forall i :: 0 <= i < |x| && x[i] == r.hi ==> n[i] == 1.0
  {
    seq(|x|, i requires 0 <= i < |x| => MinMaxValue(x[i], r.lo, r.hi))
  }

  /** The normalised value, scaled back by the range, is the original one. */
  lemma NormalizationInverse(x: seq<real>, r: Range, i: int)
    requires IsRange(x, r) && r.lo != r.hi && 0 <= i < |x|
    ensures r.lo + Normalization(x, r)[i] * (r.hi - r.lo) == x[i]
  {
    MinMaxValueInverse(x[i], r.lo, r.hi);
  }

  /** Normalisation keeps the order of the feature values, in both directions. */
  lemma NormalizationMonotone(x: seq<real>, r: Range, i: int, j: int)
    requires IsRange(x, r) && r.lo != r.hi
    requires 0 <= i < |x| && 0 <= j < |x|
    ensures x[i] <= x[j] <==> Normalization(x, r)[i] <= Normalization(x, r)[j]
  {
    MinMaxValueMonotone(x[i], x[j], r.lo, r.hi);
  }

  // ---------------------------------------------------------------------
  // Min-max de-scaling of the coefficients
  // ---------------------------------------------------------------------

  /**
   * denormalize_coefficients for min-max scaling, as written: the slope
   * factor is (x_max − x_min)/(y_max − y_min).
   */
  function DenormalizeMinMaxAsWritten(x: seq<real>, y: seq<real>, xr: Range, yr: Range, wN: real, bN: real): (c: Line)
    requires IsRange(x, xr) && IsRange(y, yr) && yr.lo != yr.hi
    ensures Predict(c, xr.lo) == yr.lo + bN * (yr.hi - yr.lo)
  {
    var w := wN * (xr.hi - xr.lo) / (yr.hi - yr.lo);
    InterceptAtLow(w, xr.lo, yr.lo, bN * (yr.hi - yr.lo));
    Line(w, yr.lo - w * xr.lo + bN * (yr.hi - yr.lo))
  }

  /** The ranges of the example below. */
  lemma ExampleRanges()
    ensures IsRange([0.0, 2.0], Range(0.0, 2.0)) && IsRange([0.0, 1.0], Range(0.0, 1.0))
  {
    var x, y := [0.0, 2.0], [0.0, 1.0];
    assert x[0] == 0.0 && x[1] == 2.0 && y[0] == 0.0 && y[1] == 1.0;
  }

  /**
   * With x = [0, 2] and y = [0, 1], the normalised line y' = x' maps raw
   * x = 2 to x' = 1, hence y' = 1 and y = 0 + 1·(1 − 0) = 1. The as-written
   * slope factor de-scales it to y = 2x, which predicts 4 there.
   */
  lemma DenormalizeMinMaxAsWrittenMispredicts()
    ensures IsRange([0.0, 2.0], Range(0.0, 2.0)) && IsRange([0.0, 1.0], Range(0.0, 1.0))
    ensures 0.0 + (1.0 - 0.0) * Predict(Line(1.0, 0.0), MinMaxValue(2.0, 0.0, 2.0)) == 1.0
    ensures Predict(DenormalizeMinMaxAsWritten([0.0, 2.0], [0.0, 1.0], Range(0.0, 2.0), Range(0.0, 1.0), 1.0, 0.0), 2.0) == 4.0
  {
    hide *;
    ExampleRanges();
    assert MinMaxValue(2.0, 0.0, 2.0) == 1.0;
    AsWrittenSlope([0.0, 2.0], [0.0, 1.0], Range(0.0, 2.0), Range(0.0, 1.0), 1.0, 0.0);
    var c := DenormalizeMinMaxAsWritten([0.0, 2.0], [0.0, 1.0], Range(0.0, 2.0), Range(0.0, 1.0), 1.0, 0.0);
    assert c.w == 2.0;
    assert Predict(c, 0.0) == 0.0;
    PredictAt(c, 0.0);
    PredictAt(c, 2.0);
    PredictAt(Line(1.0, 0.0), 1.0);
  }

  lemma PredictAt(c: Line, v: real)
    ensures Predict(c, v) == c.w * v + c.b
  {
  }

  /** The slope of the as-written de-scaled line, stated on its own so the example need not unfold the body. */
  lemma AsWrittenSlope(x: seq<real>, y: seq<real>, xr: Range, yr: Range, wN: real, bN: real)
    requires IsRange(x, xr) && IsRange(y, yr) && yr.lo != yr.hi
    ensures DenormalizeMinMaxAsWritten(x, y, xr, yr, wN, bN).w == wN * (xr.hi - xr.lo) / (yr.hi - yr.lo)
  {
  }

  /**
   * The evident intent: the slope factor is (y_max − y_min)/(x_max − x_min),
   * which undoes min-max scaling of both x and y.
   */
  function DenormalizeMinMax(x: seq<real>, y: seq<real>, xr: Range, yr: Range, wN: real, bN: real): (c: Line)
    requires IsRange(x, xr) && IsRange(y, yr) && xr.lo != xr.hi
    ensures Predict(c, xr.lo) == yr.lo + bN * (yr.hi - yr.lo)
  {
    var w := wN * (yr.hi - yr.lo) / (xr.hi - xr.lo);
    InterceptAtLow(w, xr.lo, yr.lo, bN * (yr.hi - yr.lo));
    Line(w, yr.lo - w * xr.lo + bN * (yr.hi - yr.lo))
  }

  /**
   * The corrected de-scaled line predicts on raw v what the normalised line
   * predicts on the normalised v, mapped back to the raw target scale.
   */
  lemma DenormalizeMinMaxRoundTrip(x: seq<real>, y: seq<real>, xr: Range, yr: Range, wN: real, bN: real, v: real)
    requires IsRange(x, xr) && IsRange(y, yr) && xr.lo != xr.hi
    ensures Predict(DenormalizeMinMax(x, y, xr, yr, wN, bN), v)
         == yr.lo + (yr.hi - yr.lo) * Predict(Line(wN, bN), MinMaxValue(v, xr.lo, xr.hi))
  {
    MinMaxAlgebra(wN, bN, v, xr.lo, xr.hi, yr.lo, yr.hi);
  }

  // ---------------------------------------------------------------------
  // Algebra over plain real variables
  // ---------------------------------------------------------------------

  lemma QuotientFacts(a: real, d: real)
    requires d > 0.0
    ensures (a / d) * d == a
    ensures 0.0 <= a <= d ==> 0.0 <= a / d <= 1.0
    ensures a == 0.0 ==> a / d == 0.0
    ensures a == d ==> a / d == 1.0
  {
  }

  lemma QuotientMonotone(a: real, b: real, d: real)
    requires d > 0.0
    ensures a <= b <==> a / d <= b / d
  {
  }

  lemma InterceptAtLow(w: real, xLo: real, yLo: real, offset: real)
    ensures w * xLo + (yLo - w * xLo + offset) == yLo + offset
  {
  }

  lemma MinMaxAlgebra(wN: real, bN: real, v: real, xMin: real, xMax: real, yMin: real, yMax: real)
    requires xMin < xMax
    ensures var w := wN * (yMax - yMin) / (xMax - xMin);
            w * v + (yMin - w * xMin + bN * (yMax - yMin))
            == yMin + (yMax - yMin) * (wN * ((v - xMin) / (xMax - xMin)) + bN)
  {
  }
}
