/**
 * Univariate least-squares linear regression over exact reals.
 *
 * The repository computes the cost J(w, b) and its two partial derivatives
 * with the same vectorised numpy expressions in every script; this module
 * holds those expressions once, together with one gradient-descent step,
 * the population mean and variance, and the facts about them that the
 * drivers and the scaling code rely on. The accumulator loops and the
 * drivers are modelled beside it and proved against these definitions.
 */
module LinearRegression {

  /** The hypothesis f(v) = w·v + b. */
  datatype Line = Line(w: real, b: real)

  function Predict(c: Line, v: real): real
  {
    c.w * v + c.b
  }

  function Abs(r: real): real
  {
    if r < 0.0 then -r else r
  }

  // ---------------------------------------------------------------------
  // Sums over sequences of reals
  // ---------------------------------------------------------------------

  /** Σ s[i], added from the first element to the last, as an accumulator does. */
  function Sum(s: seq<real>): real
  {
    if |s| == 0 then 0.0 else Sum(s[..|s| - 1]) + s[|s| - 1]
  }

  /** u[i] + k·v[i], element by element. */
  function Combine(u: seq<real>, v: seq<real>, k: real): seq<real>
    requires |u| == |v|
  {
    seq(|u|, i requires 0 <= i < |u| => u[i] + k * v[i])
  }

  /** k·u[i], element by element. */
  function Scale(u: seq<real>, k: real): seq<real>
  {
    seq(|u|, i requires 0 <= i < |u| => k * u[i])
  }

  /** u[i] + k, element by element. */
  function Shift(u: seq<real>, k: real): seq<real>
  {
    seq(|u|, i requires 0 <= i < |u| => u[i] + k)
  }

  function Constant(n: nat, c: real): seq<real>
  {
    seq(n, _ => c)
  }

  function Squares(s: seq<real>): seq<real>
  {
    seq(|s|, i requires 0 <= i < |s| => s[i] * s[i])
  }

  function Products(s: seq<real>, t: seq<real>): (p: seq<real>)
    requires |s| == |t|
    ensures |p| == |s|
  {
    seq(|s|, i requires 0 <= i < |s| => s[i] * t[i])
  }

  /** The sum is linear: Σ(u + k·v) = Σu + k·Σv. */
  lemma {:induction false} SumCombine(u: seq<real>, v: seq<real>, k: real)
    requires |u| == |v|
    ensures Sum(Combine(u, v, k)) == Sum(u) + k * Sum(v)
  {
    if |u| > 0 {
      var n := |u| - 1;
      forall i | 0 <= i < n
        ensures Combine(u, v, k)[..n][i] == Combine(u[..n], v[..n], k)[i]
      {
      }
      assert Combine(u, v, k)[..n] == Combine(u[..n], v[..n], k);
      SumCombine(u[..n], v[..n], k);
    }
  }

  /** A constant factor comes out of the sum: Σ(k·u) = k·Σu. */
  lemma {:induction false} SumScale(u: seq<real>, k: real)
    ensures Sum(Scale(u, k)) == k * Sum(u)
  {
    if |u| > 0 {
      var n := |u| - 1;
      forall i | 0 <= i < n
        ensures Scale(u, k)[..n][i] == Scale(u[..n], k)[i]
      {
      }
      assert Scale(u, k)[..n] == Scale(u[..n], k);
      SumScale(u[..n], k);
    }
  }

  /** Adding k to each of n terms adds n·k to the sum. */
  lemma {:induction false} SumShift(u: seq<real>, k: real, m: real)
    requires m == |u| as real
    ensures Sum(Shift(u, k)) == Sum(u) + m * k
  {
    if |u| > 0 {
      var n := |u| - 1;
      forall i | 0 <= i < n
        ensures Shift(u, k)[..n][i] == Shift(u[..n], k)[i]
      {
      }
      assert Shift(u, k)[..n] == Shift(u[..n], k);
      SumShift(u[..n], k, m - 1.0);
    }
  }

  /** n copies of c sum to n·c. */
  lemma {:induction false} SumConstant(n: nat, c: real)
    ensures Sum(Constant(n, c)) == n as real * c
  {
    if n > 0 {
      assert Constant(n, c)[..n - 1] == Constant(n - 1, c);
      SumConstant(n - 1, c);
    }
  }

  /** A sum of non-negative terms is non-negative and bounds each of its terms. */
  lemma {:induction false} SumNonNegative(s: seq<real>)
    requires forall i :: 0 <= i < |s| ==> s[i] >= 0.0
    ensures Sum(s) >= 0.0
    ensures forall i :: 0 <= i < |s| ==> s[i] <= Sum(s)
  {
    if |s| > 0 {
      var n := |s| - 1;
      assert forall i :: 0 <= i < n ==> s[..n][i] == s[i];
      SumNonNegative(s[..n]);
    }
  }

  /** Extending a prefix by one element adds that element to the sum. */
  lemma SumPrefix(s: seq<real>, i: int)
    requires 0 <= i < |s|
    ensures Sum(s[..i + 1]) == Sum(s[..i]) + s[i]
  {
    assert s[..i + 1][..i] == s[..i];
  }

  // ---------------------------------------------------------------------
  // Samples, cost and gradient
  // ---------------------------------------------------------------------

  /** A sample set: feature values x and targets y, equally long and not empty. */
  predicate Samples(x: seq<real>, y: seq<real>)
  {
    0 < |x| == |y|
  }

  /** r[i] = f(x[i]) − y[i]. */
  function Residuals(x: seq<real>, y: seq<real>, c: Line): (r: seq<real>)
    requires |x| == |y|
    ensures |r| == |x|
  {
    seq(|x|, i requires 0 <= i < |x| => Predict(c, x[i]) - y[i])
  }

  /** The line predicts every target exactly. */
  predicate Fits(x: seq<real>, y: seq<real>, c: Line)
    requires |x| == |y|
  {
    forall i :: 0 <= i < |x| ==> Predict(c, x[i]) == y[i]
  }

  /**
   * compute_cost_ft: J(w, b) = (1/(2m))·Σ(w·x[i] + b − y[i])², with the
   * source's default line w = 0.03, b = 5000.
   */
  function Cost(x: seq<real>, y: seq<real>, c: Line := Line(0.03, 5000.0)): real
    requires Samples(x, y)
  {
    (1.0 / (2.0 * |x| as real)) * Sum(Squares(Residuals(x, y, c)))
  }

  /** partial_derivative_cost_function_of_w: ∂J/∂w = (1/m)·Σ(w·x[i] + b − y[i])·x[i]. */
  function PartialW(x: seq<real>, y: seq<real>, c: Line): real
    requires Samples(x, y)
  {
    (1.0 / |x| as real) * Sum(Products(Residuals(x, y, c), x))
  }

  /** partial_derivative_cost_function_of_b: ∂J/∂b = (1/m)·Σ(w·x[i] + b − y[i]). */
  function PartialB(x: seq<real>, y: seq<real>, c: Line): real
    requires Samples(x, y)
  {
    (1.0 / |x| as real) * Sum(Residuals(x, y, c))
  }

  lemma CostNonNegative(x: seq<real>, y: seq<real>, c: Line)
    requires Samples(x, y)
    ensures Cost(x, y, c) >= 0.0
  {
    var r := Residuals(x, y, c);
    forall i | 0 <= i < |x|
      ensures Squares(r)[i] >= 0.0
    {
      SquareEntrySign(r, i);
    }
    SumNonNegative(Squares(r));
    HalfMeanSign(|x| as real, Sum(Squares(r)));
  }

  lemma CostZeroIffFits(x: seq<real>, y: seq<real>, c: Line)
    requires Samples(x, y)
    ensures Cost(x, y, c) == 0.0 <==> Fits(x, y, c)
  {
    var n := |x|;
    var r := Residuals(x, y, c);
    var sq := Squares(r);
    if Fits(x, y, c) {
      assert sq == Constant(n, 0.0);
      SumConstant(n, 0.0);
      HalfMeanSign(n as real, 0.0);
    } else {
      var i :| 0 <= i < n && Predict(c, x[i]) != y[i];
      forall j | 0 <= j < n
        ensures sq[j] >= 0.0
      {
        SquareEntrySign(r, j);
      }
      assert r[i] != 0.0;
      SquareEntrySign(r, i);
      assert sq[i] > 0.0;
      SumNonNegative(sq);
      assert Sum(sq) > 0.0;
      HalfMeanSign(n as real, Sum(sq));
      assert Cost(x, y, c) > 0.0;
    }
  }

  /** Where every sample is fitted exactly, both partial derivatives vanish. */
  lemma ExactFitHasZeroGradient(x: seq<real>, y: seq<real>, c: Line)
    requires Samples(x, y) && Fits(x, y, c)
    ensures PartialW(x, y, c) == 0.0 && PartialB(x, y, c) == 0.0
  {
    var n := |x|;
    assert Residuals(x, y, c) == Constant(n, 0.0);
    assert Products(Residuals(x, y, c), x) == Constant(n, 0.0);
    SumConstant(n, 0.0);
  }

  /**
   * PartialW is the exact partial derivative of the cost in w: moving w by h
   * changes the cost by h·PartialW plus a term of second order in h.
   */
  lemma CostAlongW(x: seq<real>, y: seq<real>, c: Line, h: real)
    requires Samples(x, y)
    ensures Cost(x, y, Line(c.w + h, c.b))
         == Cost(x, y, c) + h * PartialW(x, y, c) + h * h * Sum(Squares(x)) / (2.0 * |x| as real)
  {
    var r := Residuals(x, y, c);
    var rh := Residuals(x, y, Line(c.w + h, c.b));
    forall i | 0 <= i < |x|
      ensures rh[i] == r[i] + h * x[i]
    {
      ShiftSlope(c.w, c.b, h, x[i], y[i]);
    }
    SumSquaresAlong(r, x, rh, h);
    QuadraticCost(Sum(Squares(r)), Sum(Products(r, x)), Sum(Squares(x)), h, |x| as real);
  }

  /**
   * PartialB is the exact partial derivative of the cost in b: moving b by h
   * changes the cost by h·PartialB + h²/2.
   */
  lemma CostAlongB(x: seq<real>, y: seq<real>, c: Line, h: real)
    requires Samples(x, y)
    ensures Cost(x, y, Line(c.w, c.b + h)) == Cost(x, y, c) + h * PartialB(x, y, c) + h * h / 2.0
  {
    var r := Residuals(x, y, c);
    ResidualsAlongB(x, y, c, h);
    SumSquaresShifted(r, Residuals(x, y, Line(c.w, c.b + h)), h);
    QuadraticCostInB(Sum(Squares(r)), Sum(r), h, |x| as real);
  }

  lemma ResidualsAlongB(x: seq<real>, y: seq<real>, c: Line, h: real)
    requires |x| == |y|
    ensures |Residuals(x, y, Line(c.w, c.b + h))| == |Residuals(x, y, c)|
    ensures forall i :: 0 <= i < |x| ==> Residuals(x, y, Line(c.w, c.b + h))[i] == Residuals(x, y, c)[i] + h
  {
    forall i | 0 <= i < |x|
      ensures Residuals(x, y, Line(c.w, c.b + h))[i] == Residuals(x, y, c)[i] + h
    {
      ShiftIntercept(c.w, c.b, h, x[i], y[i]);
    }
  }

  /** Moving every entry of r by h expands the sum of squares as a quadratic in h. */
  lemma SumSquaresShifted(r: seq<real>, rh: seq<real>, h: real)
    requires |r| == |rh|
    requires forall i :: 0 <= i < |r| ==> rh[i] == r[i] + h
    ensures Sum(Squares(rh)) == (Sum(Squares(r)) + (2.0 * h) * Sum(r)) + (h * h) * (|r| as real)
  {
    // The unfolded sums only distract the solver from the rewriting below.
    hide Sum;
    var ones := Constant(|r|, 1.0);
    SumsAgainstOnes(r, ones);
    SumSquaresAlong(r, ones, rh, h);
  }

  /** Against a sequence of ones, a sum of products is the plain sum and a sum of squares the count. */
  lemma SumsAgainstOnes(r: seq<real>, ones: seq<real>)
    requires ones == Constant(|r|, 1.0)
    ensures Sum(Products(r, ones)) == Sum(r)
    ensures Sum(Squares(ones)) == |r| as real
  {
    assert Products(r, ones) == r;
    assert Squares(ones) == ones;
    SumConstant(|r|, 1.0);
  }

  /**
   * Moving every entry of r by h times the matching entry of d expands the
   * sum of squares as a quadratic in h.
   */
  lemma SumSquaresAlong(r: seq<real>, d: seq<real>, rh: seq<real>, h: real)
    requires |r| == |d| == |rh|
    requires forall i :: 0 <= i < |r| ==> rh[i] == r[i] + h * d[i]
    ensures Sum(Squares(rh))
         == (Sum(Squares(r)) + (2.0 * h) * Sum(Products(r, d))) + (h * h) * Sum(Squares(d))
  {
    var first := Combine(Squares(r), Products(r, d), 2.0 * h);
    forall i | 0 <= i < |r|
      ensures Squares(rh)[i] == Combine(first, Squares(d), h * h)[i]
    {
      ShiftedSquare(rh[i], r[i], d[i], h);
    }
    assert Squares(rh) == Combine(first, Squares(d), h * h);
    SumCombine(first, Squares(d), h * h);
    SumCombine(Squares(r), Products(r, d), 2.0 * h);
  }

  // ---------------------------------------------------------------------
  // Gradient descent
  // ---------------------------------------------------------------------

  /** One batch step: both partials are taken at c, then both coefficients move. */
  function Step(x: seq<real>, y: seq<real>, c: Line, lr: real): (next: Line)
    requires Samples(x, y)
    ensures PartialW(x, y, c) == 0.0 && PartialB(x, y, c) == 0.0 ==> next == c
  {
    Line(c.w - lr * PartialW(x, y, c), c.b - lr * PartialB(x, y, c))
  }

  /** The coefficients after k steps from c. */
  function Iterate(x: seq<real>, y: seq<real>, c: Line, lr: real, k: nat): Line
    requires Samples(x, y)
  {
    if k == 0 then c else Step(x, y, Iterate(x, y, c, lr, k - 1), lr)
  }

  /** The step from c, given the two partial derivatives at c. */
  lemma StepWith(x: seq<real>, y: seq<real>, c: Line, lr: real, dw: real, db: real)
    requires Samples(x, y)
    requires dw == PartialW(x, y, c) && db == PartialB(x, y, c)
    ensures Step(x, y, c, lr) == Line(c.w - lr * dw, c.b - lr * db)
  {
    hide PartialW;
    hide PartialB;
    assert Step(x, y, c, lr).w == c.w - lr * PartialW(x, y, c);
    assert Step(x, y, c, lr).b == c.b - lr * PartialB(x, y, c);
  }

  lemma IterateNext(x: seq<real>, y: seq<real>, c: Line, lr: real, k: nat)
    requires Samples(x, y)
    ensures Iterate(x, y, c, lr, k + 1) == Step(x, y, Iterate(x, y, c, lr, k), lr)
  {
  }

  /** A point where both partials vanish is never moved by any number of steps. */
  lemma {:induction false} StationaryIsFixed(x: seq<real>, y: seq<real>, c: Line, lr: real, k: nat)
    requires Samples(x, y)
    requires PartialW(x, y, c) == 0.0 && PartialB(x, y, c) == 0.0
    ensures Iterate(x, y, c, lr, k) == c
  {
    if k > 0 {
      StationaryIsFixed(x, y, c, lr, k - 1);
    }
  }

  /** The convergence tests the drivers use. */
  datatype StopRule =
    | StepBelow(tol: real)      // both coefficients moved by less than tol
    | GradientBelow(tol: real)  // both partial derivatives are smaller than tol

  predicate Stops(rule: StopRule, x: seq<real>, y: seq<real>, c: Line, lr: real)
    requires Samples(x, y)
  {
    match rule
    case StepBelow(tol) =>
      var next := Step(x, y, c, lr);
      Abs(next.w - c.w) < tol && Abs(next.b - c.b) < tol
    case GradientBelow(tol) =>
      Abs(PartialW(x, y, c)) < tol && Abs(PartialB(x, y, c)) < tol
  }

  /**
   * The first step index in [from, n) whose starting coefficients pass the
   * stop test, or n when none of them does (FirstStopIsFirst).
   */
  function FirstStop(rule: StopRule, x: seq<real>, y: seq<real>, c0: Line, lr: real, from: nat, n: nat): (k: nat)
    requires Samples(x, y) && from <= n
    ensures from <= k <= n
    decreases n - from
  {
    if from == n then n
    else if Stops(rule, x, y, Iterate(x, y, c0, lr, from), lr) then from
    else FirstStop(rule, x, y, c0, lr, from + 1, n)
  }

  /** FirstStop stops at a pass whose test holds, and every pass before it fails the test. */
  lemma {:induction false} FirstStopIsFirst(rule: StopRule, x: seq<real>, y: seq<real>, c0: Line, lr: real, from: nat, n: nat)
    requires Samples(x, y) && from <= n
    ensures var k := FirstStop(rule, x, y, c0, lr, from, n);
            (k < n ==> Stops(rule, x, y, Iterate(x, y, c0, lr, k), lr))
            && forall j :: from <= j < k ==> !Stops(rule, x, y, Iterate(x, y, c0, lr, j), lr)
    decreases n - from
  {
    if from < n && !Stops(rule, x, y, Iterate(x, y, c0, lr, from), lr) {
      FirstStopIsFirst(rule, x, y, c0, lr, from + 1, n);
    }
  }

  /** A pass at or before the first stopping pass that stops is the first one. */
  lemma StopsAtFirst(rule: StopRule, x: seq<real>, y: seq<real>, c0: Line, lr: real, n: nat, i: nat)
    requires Samples(x, y) && i < n
    requires i <= FirstStop(rule, x, y, c0, lr, 0, n)
    requires Stops(rule, x, y, Iterate(x, y, c0, lr, i), lr)
    ensures FirstStop(rule, x, y, c0, lr, 0, n) == i
  {
    FirstStopIsFirst(rule, x, y, c0, lr, 0, n);
  }

  /** The number of passes range(n) makes. */
  function PassCount(n: int): nat
  {
    if n < 0 then 0 else n
  }

  /** The passes that begin when k is the first stopping pass of n: k + 1, or all n when none stops. */
  function PassesBegun(k: nat, n: nat): nat
  {
    if k < n then k + 1 else n
  }

  // ---------------------------------------------------------------------
  // Z-score statistics and coefficient de-scaling
  // ---------------------------------------------------------------------

  function Mean(x: seq<real>): real
    requires |x| > 0
  {
    Sum(x) / |x| as real
  }

  function Deviations(x: seq<real>): seq<real>
    requires |x| > 0
  {
    seq(|x|, i requires 0 <= i < |x| => x[i] - Mean(x))
  }

  /** The population variance (divided by m, as numpy's default). */
  function Variance(x: seq<real>): real
    requires |x| > 0
  {
    Sum(Squares(Deviations(x))) / |x| as real
  }

  /**
   * std is the population standard deviation of x and is not zero. Reals
   * have no square root, so the deviation is characterised by its square.
   */
  predicate IsPopulationStd(x: seq<real>, std: real)
  {
    |x| > 0 && std > 0.0 && std * std == Variance(x)
  }

  lemma VarianceUnfold(x: seq<real>)
    requires |x| > 0
    ensures Sum(Squares(Deviations(x))) / |x| as real == Variance(x)
  {
  }

  /** Scaling every entry by k scales the sum of squares by k². */
  lemma SumSquaresScaled(d: seq<real>, z: seq<real>, k: real)
    requires |z| == |d|
    requires forall i :: 0 <= i < |d| ==> z[i] == k * d[i]
    ensures Sum(Squares(z)) == (k * k) * Sum(Squares(d))
  {
    forall i | 0 <= i < |d|
      ensures Squares(z)[i] == Scale(Squares(d), k * k)[i]
    {
      ScaledSquare(z[i], d[i], k);
    }
    assert Squares(z) == Scale(Squares(d), k * k);
    SumScale(Squares(d), k * k);
  }

  // ---------------------------------------------------------------------
  // Algebra over plain real variables, used by the proofs above
  // ---------------------------------------------------------------------

  lemma ZScoreAffine(v: real, mean: real, std: real)
    requires std != 0.0
    ensures (v - mean) / std == (1.0 / std) * v + -mean / std
  {
  }

  lemma CenteredSumVanishes(s: real, n: real, std: real)
    requires n > 0.0 && std != 0.0
    ensures (1.0 / std) * s + n * (-(s / n) / std) == 0.0
  {
  }

  lemma SquareEntrySign(s: seq<real>, i: int)
    requires 0 <= i < |s|
    ensures Squares(s)[i] >= 0.0
    ensures s[i] != 0.0 ==> Squares(s)[i] > 0.0
  {
    ProductSign(s[i], s[i], Squares(s)[i]);
  }

  /** The sign of a product from the signs of its factors. */
  lemma ProductSign(a: real, b: real, t: real)
    requires t == a * b
    ensures (a >= 0.0 && b >= 0.0) || (a <= 0.0 && b <= 0.0) ==> t >= 0.0
    ensures (a > 0.0 && b > 0.0) || (a < 0.0 && b < 0.0) ==> t > 0.0
  {
  }

  lemma HalfMeanSign(m: real, s: real)
    requires m > 0.0
    ensures s >= 0.0 ==> (1.0 / (2.0 * m)) * s >= 0.0
    ensures s > 0.0 ==> (1.0 / (2.0 * m)) * s > 0.0
    ensures s == 0.0 ==> (1.0 / (2.0 * m)) * s == 0.0
  {
  }

  lemma ShiftSlope(w: real, b: real, h: real, v: real, t: real)
    ensures ((w + h) * v + b) - t == ((w * v + b) - t) + h * v
  {
  }

  lemma ShiftIntercept(w: real, b: real, h: real, v: real, t: real)
    ensures (w * v + (b + h)) - t == ((w * v + b) - t) + h
  {
  }

  lemma QuotientAsProduct(e: real, std: real)
    requires std != 0.0
    ensures e / std == (1.0 / std) * e
  {
  }

  lemma ScaledSquare(a: real, e: real, k: real)
    requires a == k * e
    ensures a * a == (k * k) * (e * e)
  {
  }

  lemma ProductOverCount(p: real, s: real, n: real)
    requires n != 0.0
    ensures (p * s) / n == p * (s / n)
  {
  }

  lemma UnitVarianceAlgebra(s: real, sz: real, n: real, std: real, v: real)
    requires n > 0.0 && std > 0.0
    requires std * std == v
    requires s / n == v
    requires sz == ((1.0 / std) * (1.0 / std)) * s
    ensures sz / n == 1.0
  {
    ProductOverCount((1.0 / std) * (1.0 / std), s, n);
    InverseSquare(std, v);
  }

  lemma InverseSquare(std: real, v: real)
    requires std > 0.0 && std * std == v
    ensures ((1.0 / std) * (1.0 / std)) * v == 1.0
  {
    assert (1.0 / std) * (1.0 / std) == 1.0 / (std * std);
    assert std * std > 0.0;
  }

  lemma ShiftedSquare(a: real, e: real, d: real, h: real)
    requires a == e + h * d
    ensures a * a == (e * e + (2.0 * h) * (e * d)) + (h * h) * (d * d)
  {
  }

  lemma QuadraticCost(a: real, p: real, q: real, h: real, m: real)
    requires m > 0.0
    ensures (1.0 / (2.0 * m)) * ((a + (2.0 * h) * p) + (h * h) * q)
         == (1.0 / (2.0 * m)) * a + h * ((1.0 / m) * p) + h * h * q / (2.0 * m)
  {
  }

  lemma QuadraticCostInB(a: real, p: real, h: real, m: real)
    requires m > 0.0
    ensures (1.0 / (2.0 * m)) * ((a + (2.0 * h) * p) + (h * h) * m)
         == (1.0 / (2.0 * m)) * a + h * ((1.0 / m) * p) + h * h / 2.0
  {
  }
}
