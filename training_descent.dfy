/**
 * The training program's driver (src/training/modules/gradient_descent.py):
 * batch gradient descent that samples the cost every 100th iteration and
 * stops when a step moves both coefficients by less than the tolerance,
 * and the launcher that standardises the mileages, descends, de-scales the
 * result and writes the coefficient file.
 */
module TrainingDescent {
  import opened LinearRegression
  import opened FeatureScaling
  import opened CoefficientText

  const DefaultTolerance: real := 0.00000001
  const DefaultMaxIterations: int := 5000
  const LaunchLearningRate: real := 0.01

  /** The iteration indices below e that are multiples of 100, in order. */
  function SampledIterations(e: nat): (s: seq<nat>)
    ensures |s| == (e + 99) / 100
    ensures forall j :: 0 <= j < |s| ==> s[j] == 100 * j && s[j] < e
  {
    seq((e + 99) / 100, j requires 0 <= j < (e + 99) / 100 => 100 * j)
  }

  /** The cost recorded at each sampled iteration i: the cost of the coefficients that pass produces. */
  function SampledCosts(x: seq<real>, y: seq<real>, c0: Line, lr: real, e: nat): (s: seq<real>)
    requires Samples(x, y)
    ensures |s| == (e + 99) / 100
    ensures forall j :: 0 <= j < |s| ==> s[j] == Cost(x, y, Iterate(x, y, c0, lr, 100 * j + 1))
  {
    seq((e + 99) / 100, j requires 0 <= j < (e + 99) / 100 => Cost(x, y, Iterate(x, y, c0, lr, 100 * j + 1)))
  }

  lemma SampleCountStep(i: nat)
    ensures (i + 100) / 100 == (i + 99) / 100 + (if i % 100 == 0 then 1 else 0)
    ensures i % 100 == 0 ==> 100 * ((i + 99) / 100) == i
  {
  }

  lemma SampledStep(x: seq<real>, y: seq<real>, c0: Line, lr: real, i: nat)
    requires Samples(x, y)
    ensures SampledIterations(i + 1)
         == SampledIterations(i) + (if i % 100 == 0 then [i] else [])
    ensures SampledCosts(x, y, c0, lr, i + 1)
         == SampledCosts(x, y, c0, lr, i) + (if i % 100 == 0 then [Cost(x, y, Iterate(x, y, c0, lr, i + 1))] else [])
  {
    SampleCountStep(i);
  }

  /**
   * gradient_descent(data_x, data_y, initial_w, initial_b, learning_rate,
   * tolerance, max_iterations). With k the first pass whose step moves
   * both coefficients by less than the tolerance (or the pass count when
   * none does), the result is the line after k steps: a converging step is
   * computed but not applied. The cost history covers the passes that
   * began, including the converging one. TrainingWithoutPasses and
   * TrainingWithoutConvergence spell out the two corner cases.
   */
  method GradientDescent(x: seq<real>, y: seq<real>, initialW: real, initialB: real, learningRate: real,
                         tolerance: real := DefaultTolerance, maxIterations: int := DefaultMaxIterations)
    returns (w: real, b: real, costs: seq<real>, iterations: seq<nat>)
    requires Samples(x, y)
    ensures var c0 := Line(initialW, initialB);
            var n := PassCount(maxIterations);
            var k := FirstStop(StepBelow(tolerance), x, y, c0, learningRate, 0, n);
            Line(w, b) == Iterate(x, y, c0, learningRate, k)
            && iterations == SampledIterations(PassesBegun(k, n))
            && costs == SampledCosts(x, y, c0, learningRate, PassesBegun(k, n))
  {
    hide *;
    var n := PassCount(maxIterations);
    ghost var c0 := Line(initialW, initialB);
    ghost var rule := StepBelow(tolerance);
    TrainingStart(x, y, c0, learningRate, tolerance, n);
    w := initialW;
    b := initialB;
    costs := [];
    iterations := [];
    var i := 0;
    while i < n
      invariant i <= FirstStop(rule, x, y, c0, learningRate, 0, n)
      invariant Line(w, b) == Iterate(x, y, c0, learningRate, i)
      invariant iterations == SampledIterations(i)
      invariant costs == SampledCosts(x, y, c0, learningRate, i)
    {
      var dw := PartialW(x, y, Line(w, b));
      var db := PartialB(x, y, Line(w, b));
      var newW := w - learningRate * dw;
      var newB := b - learningRate * db;
      TrainingPass(x, y, c0, learningRate, tolerance, n, i, w, b, newW, newB);
      if i % 100 == 0 {
        costs := costs + [Cost(x, y, Line(newW, newB))];
        iterations := iterations + [i];
      }
      if Abs(newW - w) < tolerance && Abs(newB - b) < tolerance {
        break;
      }
      w := newW;
      b := newB;
      i := i + 1;
    }
    TrainingEnd(x, y, c0, learningRate, tolerance, n, i);
  }

  /** Before the first pass: the initial line, empty histories, and pass 0 at or before the first stop. */
  lemma TrainingStart(x: seq<real>, y: seq<real>, c0: Line, lr: real, tol: real, n: nat)
    requires Samples(x, y)
    ensures Iterate(x, y, c0, lr, 0) == c0
    ensures SampledIterations(0) == [] && SampledCosts(x, y, c0, lr, 0) == []
    ensures 0 <= FirstStop(StepBelow(tol), x, y, c0, lr, 0, n)
  {
  }

  /**
   * One pass from the line after i steps: the candidate line is the line
   * after i + 1 steps, the histories gain an entry exactly when i is a
   * multiple of 100, and the step test decides whether i is the first
   * stopping pass.
   */
  lemma TrainingPass(x: seq<real>, y: seq<real>, c0: Line, lr: real, tol: real, n: nat, i: nat,
                     w: real, b: real, newW: real, newB: real)
    requires Samples(x, y) && i < n
    requires i <= FirstStop(StepBelow(tol), x, y, c0, lr, 0, n)
    requires Line(w, b) == Iterate(x, y, c0, lr, i)
    requires newW == w - lr * PartialW(x, y, Line(w, b)) && newB == b - lr * PartialB(x, y, Line(w, b))
    ensures Line(newW, newB) == Iterate(x, y, c0, lr, i + 1)
    ensures SampledIterations(i + 1) == SampledIterations(i) + (if i % 100 == 0 then [i] else [])
    ensures SampledCosts(x, y, c0, lr, i + 1)
         == SampledCosts(x, y, c0, lr, i) + (if i % 100 == 0 then [Cost(x, y, Line(newW, newB))] else [])
    ensures Abs(newW - w) < tol && Abs(newB - b) < tol ==> FirstStop(StepBelow(tol), x, y, c0, lr, 0, n) == i
    ensures !(Abs(newW - w) < tol && Abs(newB - b) < tol) ==> i + 1 <= FirstStop(StepBelow(tol), x, y, c0, lr, 0, n)
  {
    hide PartialW;
    hide PartialB;
    hide Cost;
    StepWith(x, y, Line(w, b), lr, PartialW(x, y, Line(w, b)), PartialB(x, y, Line(w, b)));
    IterateNext(x, y, c0, lr, i);
    SampledStep(x, y, c0, lr, i);
    TrainingStopTest(x, y, c0, lr, tol, n, i, w, b, newW, newB);
  }

  /** The pass's break test is the stop rule, so it fires exactly at the first stopping pass. */
  lemma TrainingStopTest(x: seq<real>, y: seq<real>, c0: Line, lr: real, tol: real, n: nat, i: nat,
                         w: real, b: real, newW: real, newB: real)
    requires Samples(x, y) && i < n
    requires i <= FirstStop(StepBelow(tol), x, y, c0, lr, 0, n)
    requires Line(w, b) == Iterate(x, y, c0, lr, i)
    requires Step(x, y, Line(w, b), lr) == Line(newW, newB)
    ensures Abs(newW - w) < tol && Abs(newB - b) < tol ==> FirstStop(StepBelow(tol), x, y, c0, lr, 0, n) == i
    ensures !(Abs(newW - w) < tol && Abs(newB - b) < tol) ==> i + 1 <= FirstStop(StepBelow(tol), x, y, c0, lr, 0, n)
  {
    if Abs(newW - w) < tol && Abs(newB - b) < tol {
      assert Stops(StepBelow(tol), x, y, Iterate(x, y, c0, lr, i), lr);
      StopsAtFirst(StepBelow(tol), x, y, c0, lr, n, i);
    } else {
      assert !Stops(StepBelow(tol), x, y, Iterate(x, y, c0, lr, i), lr);
      FirstStopIsFirst(StepBelow(tol), x, y, c0, lr, 0, n);
    }
  }

  /** After the loop, i is the first stopping pass, or n when no pass stopped. */
  lemma TrainingEnd(x: seq<real>, y: seq<real>, c0: Line, lr: real, tol: real, n: nat, i: nat)
    requires Samples(x, y)
    requires i <= FirstStop(StepBelow(tol), x, y, c0, lr, 0, n)
    requires i == n || FirstStop(StepBelow(tol), x, y, c0, lr, 0, n) == i
    ensures FirstStop(StepBelow(tol), x, y, c0, lr, 0, n) == i
    ensures PassesBegun(i, n) == if i < n then i + 1 else n
  {
  }

  /** With max_iterations ≤ 0 no pass runs: the initial line comes back and both histories are empty. */
  lemma TrainingWithoutPasses(x: seq<real>, y: seq<real>, c0: Line, lr: real, tol: real, maxIterations: int)
    requires Samples(x, y) && maxIterations <= 0
    ensures var n := PassCount(maxIterations);
            var k := FirstStop(StepBelow(tol), x, y, c0, lr, 0, n);
            Iterate(x, y, c0, lr, k) == c0
            && SampledIterations(PassesBegun(k, n)) == [] && SampledCosts(x, y, c0, lr, PassesBegun(k, n)) == []
  {
  }

  /**
   * When no pass meets the step test, all n passes apply their step and
   * both histories hold ⌈n/100⌉ samples.
   */
  lemma TrainingWithoutConvergence(x: seq<real>, y: seq<real>, c0: Line, lr: real, tol: real, n: nat)
    requires Samples(x, y)
    requires forall j :: 0 <= j < n ==> !Stops(StepBelow(tol), x, y, Iterate(x, y, c0, lr, j), lr)
    ensures var k := FirstStop(StepBelow(tol), x, y, c0, lr, 0, n);
            k == n && PassesBegun(k, n) == n
            && |SampledCosts(x, y, c0, lr, n)| == |SampledIterations(n)| == (n + 99) / 100
  {
    FirstStopIsFirst(StepBelow(tol), x, y, c0, lr, 0, n);
  }

  /**
   * lauch_gradient_descent: standardise x, descend on (standardised x, y)
   * from the initial line at learning rate 0.01 with the default tolerance
   * and pass count, de-scale with the statistics of the raw x, and write
   * the coefficient file; render stands for the float-to-text conversion.
   */
  method LaunchGradientDescent(x: seq<real>, y: seq<real>, std: real, render: real -> string,
                               initialW: real := 0.0, initialB: real := 0.0)
    returns (coefficients: Line, file: string)
    requires Samples(x, y) && IsPopulationStd(x, std)
    ensures var z := Standardization(x, std);
            var c0 := Line(initialW, initialB);
            var fitted := Iterate(z, y, c0, LaunchLearningRate,
                                  FirstStop(StepBelow(DefaultTolerance), z, y, c0, LaunchLearningRate, 0, PassCount(DefaultMaxIterations)));
            coefficients == DenormalizeCoefficients(x, std, fitted.w, fitted.b)
            && forall i :: 0 <= i < |x| ==> Predict(coefficients, x[i]) == Predict(fitted, z[i])
    ensures file == CoefficientFile(render(coefficients.w), render(coefficients.b))
    ensures ParseFloat(render(coefficients.w)) == Some(coefficients.w) && ParseFloat(render(coefficients.b)) == Some(coefficients.b)
            ==> LoadCoefficients(file) == Loaded(coefficients.w, coefficients.b)
  {
    var z := Standardization(x, std);
    var w, b, _, _ := GradientDescent(z, y, initialW, initialB, LaunchLearningRate);
    coefficients := DenormalizeCoefficients(x, std, w, b);
    forall i | 0 <= i < |x|
      ensures Predict(coefficients, x[i]) == Predict(Line(w, b), z[i])
    {
      DenormalizeRoundTrip(x, std, w, b, x[i]);
    }
    file := CoefficientFile(render(coefficients.w), render(coefficients.b));
    if ParseFloat(render(coefficients.w)) == Some(coefficients.w) && ParseFloat(render(coefficients.b)) == Some(coefficients.b) {
      SaveLoadRoundTrip(render(coefficients.w), render(coefficients.b), coefficients.w, coefficients.b);
    }
  }
}
