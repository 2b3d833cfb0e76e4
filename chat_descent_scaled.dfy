/**
 * The driver of src/chat_gpt_2.py: the same standardise-then-descend loop
 * as src/chat_gpt.py (ChatDescent.Descend), followed by the z-score
 * de-scaling of the result, so the line it returns predicts on raw values.
 */
module ChatDescentScaled {
  import opened LinearRegression
  import opened FeatureScaling
  import opened ChatDescent

  /**
   * gradient_descent(data_x, data_y, initial_w, initial_b, learning_rate,
   * num_iters, tolerance): standardise x with its population mean and
   * standard deviation, descend, then return w / std and b − w·mean / std.
   */
  method GradientDescent(x: seq<real>, y: seq<real>, std: real,
                         initialW: real := 0.0, initialB: real := 0.0, learningRate: real := DefaultLearningRate,
                         numIters: int := DefaultIterations, tolerance: real := DefaultTolerance)
    returns (wOriginal: real, bOriginal: real, costHistory: seq<real>)
    requires Samples(x, y) && IsPopulationStd(x, std)
    ensures var z := Standardization(x, std);
            var c0 := Line(initialW, initialB);
            var e := StepsApplied(z, y, c0, learningRate, tolerance, PassCount(numIters));
            var fitted := Iterate(z, y, c0, learningRate, e);
            Line(wOriginal, bOriginal) == DenormalizeCoefficients(x, std, fitted.w, fitted.b)
            && costHistory == CostHistory(z, y, c0, learningRate, e)
            && forall v :: Predict(Line(wOriginal, bOriginal), v) == Predict(fitted, ZScore(v, Mean(x), std))
    ensures |costHistory| <= PassCount(numIters)
  {
    var xMean := Mean(x);
    var z := seq(|x|, i requires 0 <= i < |x| => (x[i] - xMean) / std);
    assert z == Standardization(x, std);
    hide *;
    var w, b;
    w, b, costHistory := Descend(z, y, initialW, initialB, learningRate, numIters, tolerance);
    wOriginal := w / std;
    bOriginal := b - (w * xMean / std);
    Descaled(x, std, xMean, w, b, wOriginal, bOriginal);
  }

  /** The de-scaling written inline is FeatureScaling's, so it keeps every prediction. */
  lemma Descaled(x: seq<real>, std: real, xMean: real, w: real, b: real, wOriginal: real, bOriginal: real)
    requires IsPopulationStd(x, std) && xMean == Mean(x)
    requires wOriginal == w / std && bOriginal == b - (w * xMean / std)
    ensures Line(wOriginal, bOriginal) == DenormalizeCoefficients(x, std, w, b)
    ensures forall v :: Predict(Line(wOriginal, bOriginal), v) == Predict(Line(w, b), ZScore(v, Mean(x), std))
  {
    forall v
      ensures Predict(Line(wOriginal, bOriginal), v) == Predict(Line(w, b), ZScore(v, xMean, std))
    {
      DenormalizeRoundTrip(x, std, w, b, v);
    }
  }
}
