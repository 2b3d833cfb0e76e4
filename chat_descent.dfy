/**
 * The driver of src/chat_gpt.py: it standardises x itself, takes each
 * gradient with the accumulator loop, applies the step, records the cost
 * of the new line, and only then stops when both partial derivatives it
 * used were smaller than the tolerance. The line it returns stays in
 * standardised units.
 */
module ChatDescent {
  import opened LinearRegression
  import opened FeatureScaling
  import opened GradientLoop

  const DefaultLearningRate: real := 0.01
  const DefaultIterations: int := 1000
  const DefaultTolerance: real := 0.0000001

  /** np.mean((w·x + b − y)²) / 2, the cost as this script writes it: the repository's J(w, b). */
  function HalfMeanSquaredError(x: seq<real>, y: seq<real>, c: Line): (j: real)
    requires Samples(x, y)
    ensures j == Cost(x, y, c)
  {
    HalfOfMean(Sum(Squares(Residuals(x, y, c))), |x| as real);
    Mean(Squares(Residuals(x, y, c))) / 2.0
  }

  lemma HalfOfMean(s: real, m: real)
    requires m > 0.0
    ensures (s / m) / 2.0 == (1.0 / (2.0 * m)) * s
  {
  }

  /** The costs of the lines after 1, 2, …, e steps. */
  function CostHistory(x: seq<real>, y: seq<real>, c0: Line, lr: real, e: nat): (h: seq<real>)
    requires Samples(x, y)
    ensures |h| == e
    ensures forall j :: 0 <= j < e ==> h[j] == Cost(x, y, Iterate(x, y, c0, lr, j + 1))
  {
    seq(e, j requires 0 <= j < e => Cost(x, y, Iterate(x, y, c0, lr, j + 1)))
  }

  lemma CostHistoryStep(x: seq<real>, y: seq<real>, c0: Line, lr: real, e: nat)
    requires Samples(x, y)
    ensures CostHistory(x, y, c0, lr, e + 1) == CostHistory(x, y, c0, lr, e) + [Cost(x, y, Iterate(x, y, c0, lr, e + 1))]
  {
  }

  /**
   * The number of steps Descend applies: with k the first pass whose
   * gradient is below the tolerance, the k + 1 passes that begin, or all n
   * passes when none stops.
   */
  function StepsApplied(z: seq<real>, y: seq<real>, c0: Line, lr: real, tol: real, n: nat): (e: nat)
    requires Samples(z, y)
    ensures e <= n
  {
    PassesBegun(FirstStop(GradientBelow(tol), z, y, c0, lr, 0, n), n)
  }

  /**
   * The descent loop on already standardised data z: every pass that begins
   * applies its step and records the cost of the new line, so the result is
   * the line after StepsApplied steps and the history holds one cost per
   * step.
   */
  method Descend(z: seq<real>, y: seq<real>, initialW: real, initialB: real, learningRate: real,
                 numIters: int, tolerance: real)
    returns (w: real, b: real, costHistory: seq<real>)
    requires Samples(z, y)
    ensures var e := StepsApplied(z, y, Line(initialW, initialB), learningRate, tolerance, PassCount(numIters));
            Line(w, b) == Iterate(z, y, Line(initialW, initialB), learningRate, e)
            && costHistory == CostHistory(z, y, Line(initialW, initialB), learningRate, e)
    ensures |costHistory| <= PassCount(numIters)
  {
    hide *;
    ghost var c0 := Line(initialW, initialB);
    var n := PassCount(numIters);
    DescendStart(z, y, c0, learningRate, tolerance, n);
    w := initialW;
    b := initialB;
    costHistory := [];
    var i := 0;
    while i < n
      invariant i <= FirstStop(GradientBelow(tolerance), z, y, c0, learningRate, 0, n)
      invariant Line(w, b) == Iterate(z, y, c0, learningRate, i)
      invariant costHistory == CostHistory(z, y, c0, learningRate, i)
    {
      var dw, db := ComputeGradient(z, y, w, b);
      DescendPass(z, y, c0, learningRate, tolerance, n, i, w, b, dw, db);
      w := w - learningRate * dw;
      b := b - learningRate * db;
      var cost := HalfMeanSquaredError(z, y, Line(w, b));
      costHistory := costHistory + [cost];
      if Abs(dw) < tolerance && Abs(db) < tolerance {
        break;
      }
      i := i + 1;
    }
    DescendEnd(z, y, c0, learningRate, tolerance, n, i, costHistory);
  }

  /** Before the first pass: the line after no steps, an empty history, and pass 0 at or before the first stop. */
  lemma DescendStart(z: seq<real>, y: seq<real>, c0: Line, lr: real, tol: real, n: nat)
    requires Samples(z, y)
    ensures Iterate(z, y, c0, lr, 0) == c0
    ensures CostHistory(z, y, c0, lr, 0) == []
    ensures 0 <= FirstStop(GradientBelow(tol), z, y, c0, lr, 0, n)
  {
  }

  /**
   * One pass of Descend from the line after i steps: applying the gradient
   * gives the line after i + 1 steps, the recorded cost extends the history
   * by one entry, and the gradient test decides whether this pass is the
   * last one.
   */
  lemma DescendPass(z: seq<real>, y: seq<real>, c0: Line, lr: real, tol: real, n: nat, i: nat,
                    w: real, b: real, dw: real, db: real)
    requires Samples(z, y) && i < n
    requires i <= FirstStop(GradientBelow(tol), z, y, c0, lr, 0, n)
    requires Line(w, b) == Iterate(z, y, c0, lr, i)
    requires dw == PartialW(z, y, Line(w, b)) && db == PartialB(z, y, Line(w, b))
    ensures Line(w - lr * dw, b - lr * db) == Iterate(z, y, c0, lr, i + 1)
    ensures CostHistory(z, y, c0, lr, i + 1)
         == CostHistory(z, y, c0, lr, i) + [HalfMeanSquaredError(z, y, Line(w - lr * dw, b - lr * db))]
    ensures Abs(dw) < tol && Abs(db) < tol ==> StepsApplied(z, y, c0, lr, tol, n) == i + 1
    ensures !(Abs(dw) < tol && Abs(db) < tol) ==> i + 1 <= FirstStop(GradientBelow(tol), z, y, c0, lr, 0, n)
  {
    hide PartialW;
    hide PartialB;
    hide Cost;
    StepWith(z, y, Line(w, b), lr, dw, db);
    IterateNext(z, y, c0, lr, i);
    CostHistoryStep(z, y, c0, lr, i);
    if Abs(dw) < tol && Abs(db) < tol {
      StopsAtFirst(GradientBelow(tol), z, y, c0, lr, n, i);
    } else {
      FirstStopIsFirst(GradientBelow(tol), z, y, c0, lr, 0, n);
    }
  }

  /**
   * When the loop ends, either by a break after pass i or because all n
   * passes ran, the steps it applied are StepsApplied.
   */
  lemma DescendEnd(z: seq<real>, y: seq<real>, c0: Line, lr: real, tol: real, n: nat, i: nat, h: seq<real>)
    requires Samples(z, y)
    requires h == CostHistory(z, y, c0, lr, |h|)
    requires (i == n && |h| == n && n <= FirstStop(GradientBelow(tol), z, y, c0, lr, 0, n))
             || (i < n && |h| == i + 1 && StepsApplied(z, y, c0, lr, tol, n) == i + 1)
    ensures StepsApplied(z, y, c0, lr, tol, n) == |h|
  {
  }

  /**
   * gradient_descent(data_x, data_y, initial_w, initial_b, learning_rate,
   * num_iters, tolerance): x is standardised with its population mean and
   * standard deviation, then Descend runs on it; the result is not
   * de-scaled.
   */
  method GradientDescent(x: seq<real>, y: seq<real>, std: real,
                         initialW: real := 0.0, initialB: real := 0.0, learningRate: real := DefaultLearningRate,
                         numIters: int := DefaultIterations, tolerance: real := DefaultTolerance)
    returns (w: real, b: real, costHistory: seq<real>)
    requires Samples(x, y) && IsPopulationStd(x, std)
    ensures var z := Standardization(x, std);
            var c0 := Line(initialW, initialB);
            var e := StepsApplied(z, y, c0, learningRate, tolerance, PassCount(numIters));
            Line(w, b) == Iterate(z, y, c0, learningRate, e)
            && costHistory == CostHistory(z, y, c0, learningRate, e)
    ensures |costHistory| <= PassCount(numIters)
    ensures forall j :: 0 <= j < |costHistory| ==> costHistory[j] >= 0.0
  {
    var z := seq(|x|, i requires 0 <= i < |x| => (x[i] - Mean(x)) / std);
    assert z == Standardization(x, std);
    w, b, costHistory := Descend(z, y, initialW, initialB, learningRate, numIters, tolerance);
    forall j | 0 <= j < |costHistory|
      ensures costHistory[j] >= 0.0
    {
      CostNonNegative(z, y, Iterate(z, y, Line(initialW, initialB), learningRate, j + 1));
    }
  }
}
