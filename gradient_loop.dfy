/**
 * The accumulator-loop form of the gradient, `compute_gradient`, which
 * appears three times in the repository with the same body: it walks the
 * samples once, adding each residual times x[i] to dj_dw and each residual
 * to dj_db, and divides both sums by m at the end.
 */
module GradientLoop {
  import opened LinearRegression

  /**
   * compute_gradient(x, y, w, b): the loop agrees with the vectorised partial
   * derivatives of the cost, so every driver that uses it takes the same
   * step as LinearRegression.Step.
   */
  method ComputeGradient(x: seq<real>, y: seq<real>, w: real, b: real) returns (dw: real, db: real)
    requires Samples(x, y)
    ensures dw == PartialW(x, y, Line(w, b))
    ensures db == PartialB(x, y, Line(w, b))
  {
    hide Residuals;
    hide Products;
    hide PartialW;
    hide PartialB;
    ghost var r := Residuals(x, y, Line(w, b));
    ghost var rx := Products(r, x);
    var m := |x|;
    dw := 0.0;
    db := 0.0;
    for i := 0 to m
      invariant dw == Sum(rx[..i])
      invariant db == Sum(r[..i])
    {
      var f := w * x[i] + b;
      AddTerms(x, y, w, b, i, f - y[i]);
      dw := dw + (f - y[i]) * x[i];
      db := db + (f - y[i]);
    }
    assert rx[..m] == rx && r[..m] == r;
    PartialsOfSums(x, y, Line(w, b), dw, db);
    dw := dw / m as real;
    db := db / m as real;
  }

  /** The loop's i-th pass adds the i-th residual to one sum and the residual times x[i] to the other. */
  lemma AddTerms(x: seq<real>, y: seq<real>, w: real, b: real, i: int, e: real)
    requires |x| == |y| && 0 <= i < |x|
    requires e == w * x[i] + b - y[i]
    ensures var r := Residuals(x, y, Line(w, b));
            Sum(Products(r, x)[..i + 1]) == Sum(Products(r, x)[..i]) + e * x[i]
            && Sum(r[..i + 1]) == Sum(r[..i]) + e
  {
    var r := Residuals(x, y, Line(w, b));
    SumPrefix(Products(r, x), i);
    SumPrefix(r, i);
  }

  /** Dividing the two full sums by m gives the vectorised partials. */
  lemma PartialsOfSums(x: seq<real>, y: seq<real>, c: Line, sw: real, sb: real)
    requires Samples(x, y)
    requires sw == Sum(Products(Residuals(x, y, c), x)) && sb == Sum(Residuals(x, y, c))
    ensures sw / |x| as real == PartialW(x, y, c) && sb / |x| as real == PartialB(x, y, c)
  {
    hide Sum;
    QuotientAsProduct(sw, |x| as real);
    QuotientAsProduct(sb, |x| as real);
  }
}
