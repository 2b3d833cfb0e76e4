/**
 * The experimental driver of src/modules/gradient_descent_try.py: a fixed
 * number of batch steps at a fixed learning rate, with no convergence test.
 * Its vectorised partial derivatives are LinearRegression.PartialW and
 * LinearRegression.PartialB; each step takes its gradient from the
 * accumulator loop GradientLoop.ComputeGradient.
 */
module DescentTry {
  import opened LinearRegression
  import opened GradientLoop

  const LearningRate: real := 0.01
  const StepCount: nat := 10000

  /**
   * gradient_descent(data_x, data_y, initial_w, initial_b): exactly
   * StepCount steps from the initial line. The overflow guard inspects w and
   * b before the update; over exact reals it never fires.
   */
  method GradientDescent(x: seq<real>, y: seq<real>, initialW: real := 0.0, initialB: real := 0.0)
    returns (w: real, b: real)
    requires Samples(x, y)
    ensures Line(w, b) == Iterate(x, y, Line(initialW, initialB), LearningRate, StepCount)
    ensures PartialW(x, y, Line(initialW, initialB)) == 0.0 && PartialB(x, y, Line(initialW, initialB)) == 0.0
            ==> w == initialW && b == initialB
  {
    w := initialW;
    b := initialB;
    for i := 0 to StepCount
      invariant Line(w, b) == Iterate(x, y, Line(initialW, initialB), LearningRate, i)
    {
      var dw, db := ComputeGradient(x, y, w, b);
      w := w - LearningRate * dw;
      b := b - LearningRate * db;
    }
    if PartialW(x, y, Line(initialW, initialB)) == 0.0 && PartialB(x, y, Line(initialW, initialB)) == 0.0 {
      StationaryIsFixed(x, y, Line(initialW, initialB), LearningRate, StepCount);
    }
  }
}
