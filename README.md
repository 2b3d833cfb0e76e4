# ft_linear_regression, modelled in Dafny

This project models the numerical core of ft_linear_regression, an
educational program that predicts a car's price from its mileage. It fits
a line `price = w·km + b` by batch gradient descent. The program has several
near-duplicate scripts. All of them compute the same cost J(w, b), the same
two partial derivatives, and a gradient-descent loop. They differ in how they
scale the feature (z-score or min-max), in how the loop stops, and in whether
the coefficients are mapped back to raw kilometres. The training program
writes the fitted coefficients to a two-line text file. The prediction
program reads that file back and prices a mileage typed by the user.

Float64 arithmetic is modelled by exact `real` arithmetic. There is no
square root over reals, so the population standard deviation (`np.std`)
is a parameter `std`. The predicate `IsPopulationStd` requires `std > 0`
and `std·std` equal to the population variance. That pins `std` down
uniquely (`FeatureScaling.PopulationStdUnique`).

Modules, one per component of the program:

- `LinearRegression` (linear_regression.dfy) holds the definitions every
  script shares: `Sum`, the residuals, the cost `Cost`, the partial
  derivatives `PartialW`/`PartialB`, one descent step `Step`, the
  k-fold iterate `Iterate`, the two stop rules, and the population mean and
  variance.
- `GradientLoop` (gradient_loop.dfy) is the accumulator-loop
  `compute_gradient`. The loop is proved equal to the vectorised partials.
- `FeatureScaling` (feature_scaling.dfy) holds z-score standardisation,
  min-max normalisation, and both ways of de-scaling the coefficients.
- `TrainingDescent` (training_descent.dfy) is the training program's
  `gradient_descent` and `lauch_gradient_descent`.
- `DescentTry` (descent_try.dfy) is the fixed 10000-step driver of
  `src/modules/gradient_descent_try.py`.
- `ChatDescent` (chat_descent.dfy) and `ChatDescentScaled`
  (chat_descent_scaled.dfy) are the drivers of `src/chat_gpt.py` and
  `src/chat_gpt_2.py`.
- `CoefficientText` (coefficient_text.dfy) covers the coefficient file: the
  writer's format, `readlines`, `strip`, `split(':')[1]` and `float()` on
  decimal text.
- `PriceEstimate` (estimate_price.dfy) is the prediction program's retry
  loop, price formula and top-level error handling.

The stopping drivers are specified through `Iterate` and `FirstStop`; the
`_try` driver, which has no stop test, through `Iterate` alone. `FirstStop` is
the first pass whose stop test holds, or the pass count when no pass stops.
The three drivers then differ only in their stop rule and in how many steps
they apply:

- The training driver tests `|new_w − w| < tol` and `|new_b − b| < tol`.
  It breaks before it assigns the converging step, so it returns the line
  after k steps.
- The `chat_gpt` drivers test `|dw| < tol` and `|db| < tol` after the step
  is applied. They return the line after k + 1 steps.
- The `_try` driver has no stop test and always applies exactly 10000 steps.

The same Python expression appears in several files. Each such expression is
modelled by one Dafny definition, and the lemmas about that definition hold
for every copy:

- `compute_cost_ft` is written identically in src/training/modules/cost_function.py:18-27,
  src/modules/cost_function.py:17-27, src/try.py:31-42 and
  src/modules/plotting_cost_function.py:28-39, with the same defaults
  w = 0.03 and b = 5000. All four are `LinearRegression.Cost`, whose default
  line is `Line(0.03, 5000.0)`. `CostNonNegative` and `CostZeroIffFits` hold
  of every copy.
- The vectorised partials of src/modules/gradient_descent_try.py:12-33 are
  the training copy's, `LinearRegression.PartialW` and `PartialB`.
- `compute_gradient` in src/modules/gradient_descent_try.py:35-64,
  src/chat_gpt.py:6-22 and src/chat_gpt_2.py:5-19 is
  `GradientLoop.ComputeGradient`. The copies differ only in the order of
  the two `+=` lines.
- `standardization` in src/modules/feature_scaling.py:8-12 is
  `FeatureScaling.Standardization`.
- `denormalize_coefficients_2` in src/modules/feature_scaling.py:27-35 is
  `FeatureScaling.DenormalizeCoefficients`, with the same round trip
  `DenormalizeRoundTrip`.
- The descent loops of src/chat_gpt.py:36-55 and src/chat_gpt_2.py:34-49
  are the same `ChatDescent.Descend`.

## Model

| member | source | states |
|---|---|---|
| LinearRegression.Cost | src/training/modules/cost_function.py:18-27 | compute_cost_ft's J(w, b) = (1/(2m))·Σ(w·x[i]+b−y[i])² with its default line w = 0.03, b = 5000; a definition without a contract, whose properties are the lemmas below |
| LinearRegression.PartialW | src/training/modules/gradient_descent.py:34-45 | dw = (1/m)·Σ(w·x[i]+b−y[i])·x[i]; a definition without a contract, proved to be the derivative of the cost in w by CostAlongW |
| LinearRegression.PartialB | src/training/modules/gradient_descent.py:62-73 | db = (1/m)·Σ(w·x[i]+b−y[i]); a definition without a contract, proved to be the derivative of the cost in b by CostAlongB |
| LinearRegression.CostNonNegative | src/training/modules/cost_function.py:18-27 | the cost (1/(2m))·Σ(w·x[i]+b−y[i])², defined for m > 0, is never negative |
| LinearRegression.CostZeroIffFits | src/modules/cost_function.py:17-27 | the cost is 0 exactly when w·x[i]+b = y[i] for every sample, in both directions |
| LinearRegression.CostAlongW | src/training/modules/gradient_descent.py:34-45 | moving w by h changes the cost by h·dw + h²·Σx²/(2m), so dw = (1/m)·Σ(w·x[i]+b−y[i])·x[i] is the exact partial derivative of the cost in w |
| LinearRegression.CostAlongB | src/training/modules/gradient_descent.py:62-73 | moving b by h changes the cost by h·db + h²/2, so db = (1/m)·Σ(w·x[i]+b−y[i]) is the exact partial derivative of the cost in b |
| LinearRegression.ExactFitHasZeroGradient | src/modules/gradient_descent_try.py:12-33 | when every sample is fitted exactly, both partial derivatives are 0 |
| LinearRegression.Iterate | src/training/modules/gradient_descent.py:100-123 | the line after k steps from the initial line; a definition without a contract, which the drivers' contracts are stated through and StationaryIsFixed is proved about |
| LinearRegression.Step | src/training/modules/gradient_descent.py:107-108 | one step moves w and b against the partials taken at the old pair; a line where both partials are 0 is not moved |
| LinearRegression.Stops | src/training/modules/gradient_descent.py:117 | the two convergence tests: both coefficients move by less than tol in one step (this line), or both partials are below tol (src/chat_gpt.py:53, src/chat_gpt_2.py:47); a definition without a contract |
| LinearRegression.FirstStop | src/training/modules/gradient_descent.py:100-119 | the first pass at or after from whose stop test holds, or the pass count when none does; it lies between from and the pass count, and FirstStopIsFirst proves it is the first |
| LinearRegression.FirstStopIsFirst | src/training/modules/gradient_descent.py:116-119 | the pass at which a descent loop stops meets its stopping rule, and no earlier pass does |
| LinearRegression.StationaryIsFixed | src/modules/gradient_descent_try.py:85-99 | from a line whose two partials are 0, any number of descent steps returns that same line |
| GradientLoop.AddTerms | src/modules/gradient_descent_try.py:51-58 | adding sample i's error·x[i] and error extends the two running sums by one term each |
| GradientLoop.ComputeGradient | src/modules/gradient_descent_try.py:35-64 | the accumulator loop returns exactly the vectorised partials dw and db; it needs m > 0 because it divides by m |
| DescentTry.GradientDescent | src/modules/gradient_descent_try.py:66-99 | the result is exactly 10000 steps at learning rate 0.01 from the initial line, each step using the gradient at the pre-update pair; a zero-gradient start is returned unchanged |
| TrainingDescent.SampledIterations | src/training/modules/gradient_descent.py:111-114 | the recorded iteration indices are 0, 100, 200, … below the number of passes begun, ⌈e/100⌉ of them, strictly increasing |
| TrainingDescent.SampledCosts | src/training/modules/gradient_descent.py:110-114 | each recorded cost is the cost of the coefficients that pass computes (new_w, new_b), one per recorded index |
| TrainingDescent.GradientDescent | src/training/modules/gradient_descent.py:75-127 | with k the first pass whose step moves both coefficients by less than tol, the result is the line after k steps (the converging step is not applied), and costs and iterations cover the k+1 passes begun (all max_iterations when none converges) |
| TrainingDescent.TrainingPass | src/training/modules/gradient_descent.py:100-123 | one pass keeps the loop's invariant: new_w, new_b is the next step, the histories gain this pass's sample when i is a multiple of 100, and the pass breaks exactly when it is the first converging one |
| TrainingDescent.TrainingStopTest | src/training/modules/gradient_descent.py:116-119 | the break test (both moves below tolerance) holds at a pass not past the first stop exactly when that pass is the first stopping pass; otherwise the first stop lies beyond it |
| TrainingDescent.TrainingWithoutPasses | src/training/modules/gradient_descent.py:93-127 | max_iterations ≤ 0 returns the initial line and empty histories |
| TrainingDescent.TrainingWithoutConvergence | src/training/modules/gradient_descent.py:100-123 | when no pass converges, the result is max_iterations steps and both histories have ⌈max_iterations/100⌉ entries |
| TrainingDescent.LaunchGradientDescent | src/training/modules/gradient_descent.py:149-185 | standardises x, descends on (standardised x, raw y) at rate 0.01 with the default tolerance and cap, de-scales with the raw x's statistics, and writes the two-line file, which loads back to the same coefficients when the float text round-trips |
| LinearRegression.Mean | src/training/modules/feature_scaling.py:18 | np.mean, Σx/m; a definition without a contract, used by standardisation and de-scaling (also line 38 and src/chat_gpt.py:26) |
| LinearRegression.IsPopulationStd | src/training/modules/feature_scaling.py:19 | np.std characterised without a square root: std > 0 and std² is the population variance Σ(x − mean)²/m (also line 39 and src/chat_gpt.py:28); PopulationStdUnique proves it pins std |
| FeatureScaling.Standardization | src/training/modules/feature_scaling.py:5-21 | standardisation keeps the length of the feature |
| FeatureScaling.PopulationStdUnique | src/training/modules/feature_scaling.py:38-42 | the standard deviation is determined by the data, so standardisation and de-scaling, which each recompute it from the same raw x, use the same value |
| FeatureScaling.StandardizationSumsToZero | src/training/modules/feature_scaling.py:9-21 | the standardised feature sums to 0 and has mean 0 |
| FeatureScaling.StandardizationHasUnitVariance | src/training/modules/feature_scaling.py:9-21 | the standardised feature has population variance 1 |
| FeatureScaling.DenormalizeCoefficients | src/training/modules/feature_scaling.py:23-43 | w_original·std = w_n, the de-scaled line predicts b_n at the mean of x, and w_n = 0 gives (0, b_n) |
| FeatureScaling.DenormalizeRoundTrip | src/modules/feature_scaling.py:27-35 | for every raw v, the de-scaled line predicts at v what the scaled line predicts at (v − mean)/std |
| FeatureScaling.DenormalizePreservesCost | src/training/modules/gradient_descent.py:171-177 | de-scaling keeps every residual, so the de-scaled line's cost on raw x equals the fitted line's cost on standardised x |
| FeatureScaling.Min | src/modules/feature_scaling.py:4 | np.min: an element of the feature that is at most every element |
| FeatureScaling.Max | src/modules/feature_scaling.py:17-18 | np.max: an element of the feature that is at least every element |
| FeatureScaling.MinMaxIsRange | src/modules/feature_scaling.py:4 | np.min and np.max give a value of the feature that is at most, and one that is at least, every element |
| FeatureScaling.RangeUnique | src/modules/feature_scaling.py:4 | there is only one (min, max) pair of a feature, so the range parameter is what np.min and np.max return |
| FeatureScaling.MinMaxValue | src/modules/feature_scaling.py:5 | (v − min)/(max − min) lies in [0, 1] for v in the range, is 0 at the minimum and 1 at the maximum |
| FeatureScaling.Normalization | src/modules/feature_scaling.py:3-6 | normalisation keeps the length, maps every element into [0, 1], the minimum to 0 and the maximum to 1; it needs max ≠ min |
| FeatureScaling.NormalizationMonotone | src/modules/feature_scaling.py:5 | x[i] ≤ x[j] exactly when the normalised values are in the same order |
| FeatureScaling.NormalizationInverse | src/modules/feature_scaling.py:5 | min + n[i]·(max − min) recovers x[i] |
| FeatureScaling.DenormalizeMinMaxAsWritten | src/modules/feature_scaling.py:16-24 | the as-written min-max de-scaling (slope factor (x_max − x_min)/(y_max − y_min)) predicts y_min + b_n·(y_max − y_min) at x_min; it needs y_max ≠ y_min |
| FeatureScaling.DenormalizeMinMaxAsWrittenMispredicts | src/modules/feature_scaling.py:20 | on x = [0, 2], y = [0, 1] the normalised line y' = x' maps x = 2 to price 1, but the as-written de-scaled line predicts 4 there |
| FeatureScaling.DenormalizeMinMax | src/modules/feature_scaling.py:16-24 | the corrected de-scaling with slope factor (y_max − y_min)/(x_max − x_min) predicts y_min + b_n·(y_max − y_min) at x_min; it needs x_max ≠ x_min |
| FeatureScaling.DenormalizeMinMaxRoundTrip | src/modules/feature_scaling.py:20-22 | the corrected de-scaled line predicts at raw v the normalised line's prediction at the normalised v, mapped back to the raw price scale |
| ChatDescent.HalfMeanSquaredError | src/chat_gpt.py:49 | np.mean((w·x + b − y)²)/2, the cost this script records, equals the repository's cost J(w, b) |
| ChatDescent.CostHistory | src/chat_gpt.py:45-50 | the history of e updates has e entries, the j-th being the cost after j + 1 steps |
| ChatDescent.StepsApplied | src/chat_gpt.py:36-55 | the number of steps the loop applies, k + 1 for a first stopping pass k and num_iters otherwise, never exceeds num_iters |
| ChatDescent.DescendPass | src/chat_gpt.py:44-55 | one pass keeps the loop's invariant: the line and history extend by one step, and the pass breaks exactly when it is the first whose gradient is below tol |
| ChatDescent.Descend | src/chat_gpt.py:36-55 | with k the first pass whose gradient has both components below tol, k + 1 steps are applied (all num_iters when none stops), and one cost at the updated line is recorded per applied step; the history has at most num_iters entries |
| ChatDescent.GradientDescent | src/chat_gpt.py:24-57 | x is standardised with its population mean and std, Descend runs on it, and the line is returned in standardised units; every recorded cost is non-negative |
| ChatDescentScaled.GradientDescent | src/chat_gpt_2.py:21-54 | the same loop, then w/std and b − w·mean/std are returned, which is FeatureScaling's de-scaling of the fitted line; that line predicts on raw v what the fitted line predicts on the z-score of v |
| CoefficientText.IndexOf | src/prediction/estimate_price.py:36 | the position of the first occurrence of a character, or the length when it does not occur |
| CoefficientText.Lines | src/prediction/estimate_price.py:28 | readlines: the lines concatenate back to the text and none is empty |
| CoefficientText.LinesBreakAtNewlines | src/prediction/estimate_price.py:28 | readlines cuts exactly after each '\n': only the last line can lack its '\n', and no line has a '\n' before its end |
| CoefficientText.TrimStart | src/prediction/estimate_price.py:32 | removes exactly the leading whitespace |
| CoefficientText.TrimEnd | src/prediction/estimate_price.py:33 | removes exactly the trailing whitespace |
| CoefficientText.Strip | src/prediction/estimate_price.py:32-33 | strip() returns the slice of the text left after the leading and the trailing whitespace, and the result neither begins nor ends with whitespace |
| CoefficientText.StripKeepsTrimmed | src/prediction/estimate_price.py:32-33 | strip leaves text alone that begins and ends with a non-whitespace character |
| CoefficientText.SecondField | src/prediction/estimate_price.py:36-37 | split(':')[1] is missing exactly when the line has no ':'; otherwise it is the text after the first ':' up to the next ':' or the end of the line |
| CoefficientText.SecondFieldOfLabelled | src/prediction/estimate_price.py:36-37 | on "label:value" with no other ':', split(':')[1] is the value |
| CoefficientText.ParseFloat | src/prediction/estimate_price.py:36-37 | float() accepts only non-empty text of digits, signs and '.'; anything else is a ValueError |
| CoefficientText.DigitRun | src/prediction/estimate_price.py:36 | the digits at the start of the text: all digits, followed by a non-digit or the end |
| CoefficientText.NaturalText | src/training/modules/gradient_descent.py:143-144 | decimal digits of a natural number, read back to that number |
| CoefficientText.DecimalRoundTrip | src/training/modules/gradient_descent.py:143-144 | decimal text for a coefficient, read by float(), gives that coefficient back |
| CoefficientText.CoefficientFile | src/training/modules/gradient_descent.py:143-144 | the writer's text "w_final: <w>\n" then "b_final: <b>\n"; a definition without a contract, whose line structure is WrittenLines and whose read-back is SaveLoadRoundTrip |
| CoefficientText.WrittenLines | src/training/modules/gradient_descent.py:141-144 | the writer's text is exactly two newline-terminated lines, "w_final: <w>" then "b_final: <b>" |
| CoefficientText.LineValue | src/prediction/estimate_price.py:32-37 | one coefficient line is an IndexError exactly when its stripped text has no ':'; otherwise it is Value(v) exactly when float() accepts the stripped second field, v being what float() reads, and a ValueError when float() rejects it |
| CoefficientText.LoadCoefficients | src/prediction/estimate_price.py:26-39 | anything but exactly two lines is a ValueError; with two lines, the first line's IndexError or ValueError is raised before the second line is read, then the second line's; two lines that both yield values load as (w from line 1, b from line 2); labels are not checked |
| CoefficientText.SaveLoadRoundTrip | src/prediction/estimate_price.py:26-39 | the file the training writer produces loads back to the same (w, b) whenever float() reads each coefficient's text as that coefficient |
| CoefficientText.DecimalFileRoundTrip | src/training/modules/gradient_descent.py:129-147 | a coefficient file written with decimal text loads back exactly the values written |
| PriceEstimate.AcceptedKm | src/prediction/estimate_price.py:52-56 | an entry is accepted exactly when float() reads it and the value is > 0; 0 and negative values are rejected |
| PriceEstimate.FirstAccepted | src/prediction/estimate_price.py:50-59 | the index the retry loop stops at lies between the start and the end of the input |
| PriceEstimate.FirstAcceptedIsFirst | src/prediction/estimate_price.py:50-59 | the entry the retry loop stops at is accepted, and every earlier entry was rejected |
| PriceEstimate.EstimatePrice | src/prediction/estimate_price.py:47-61 | the first accepted mileage km is priced w·km + b, and km > 0; when the entries run out first, input() raises EOFError, which the loop's ValueError handler does not catch |
| PriceEstimate.RunEstimatePrice | src/prediction/estimate_price.py:65-75 | a ValueError from loading is reported and nothing is priced; an IndexError escapes every handler; after a successful load, an EOFError from input() escapes too, and otherwise the first accepted mileage is priced with the loaded line |

## Left out

- Plotting: the `plot_*` calls in the drivers, both plotting modules and the
  3-D cost surface script are presentation only.
- The command-line programs, CSV loading, signal handlers, the menu and the
  Frobenius-norm scaling of src/main.py are I/O glue around the core.
- Module-level script code of src/chat_gpt.py, src/chat_gpt_2.py, src/try.py
  and src/modules/plotting_cost_function.py reads CSV files or plots when the
  module is imported.
- Opening, reading and writing the coefficient file, and the IOError
  handling around it, are I/O. The model covers the file's text: the writer's
  format and the reader's parse.
- CoefficientText.Lines: its `text` is the file's content after the
  text-mode newline translation of `open(file_path, 'r')`, in which '\r\n'
  and a bare '\r' both become '\n'. The model splits only at '\n' and does
  not perform that translation.
- Degenerate inputs: the requirement `Samples` (x and y equally long and not
  empty) excludes m = 0, where the source raises ZeroDivisionError at
  `1 / m` (src/training/modules/cost_function.py:27,
  src/training/modules/gradient_descent.py:43). `IsPopulationStd` (std > 0)
  and `lo < hi` for the min-max range exclude a constant feature, where
  numpy divides by zero and returns nan or inf values with a RuntimeWarning
  instead of raising. Both also exclude an empty feature: there `np.min` and
  `np.max` raise ValueError (src/modules/feature_scaling.py:4,17-18), and
  standardisation returns an empty array with a RuntimeWarning instead of
  raising.
- `print` and `input`: `input()` is modelled as a sequence of entered lines.
  Running out of lines is the end of the input stream, where `input()`
  raises EOFError; the model reports it as an escaping exception.
- NaN and infinity: the overflow guards of src/modules/gradient_descent_try.py:91,
  src/chat_gpt.py:40 and src/chat_gpt_2.py:37 never fire over exact reals,
  so the model omits them. It also omits rounding.
- `np.std` needs a square root, which reals lack. It is a parameter
  characterised by its square.
- Float-to-text conversion (Python's `repr` of a float) is a parameter
  `render` of `TrainingDescent.LaunchGradientDescent`. The file round trip
  holds whenever `float()` reads the rendered text back as the same value.
  `CoefficientText.DecimalRoundTrip` shows this for plain decimal text.
- CoefficientText.ParseFloat: accepts only plain decimal text (sign, ASCII
  digits, '.'). Python's `float()` also accepts exponents, `inf`, `nan`,
  underscores between digits and non-ASCII Unicode decimal digits. The
  whitespace it skips is handled by the `strip()` calls before it.
- CoefficientText.TrimStart: strips only the ASCII whitespace that
  `str.strip()` removes, not the other Unicode whitespace characters.
- CoefficientText.TrimEnd: the same ASCII-only whitespace test as TrimStart.
- CoefficientText.Strip: built from TrimStart and TrimEnd, so it has the
  same ASCII-only whitespace test.
- Convergence to the least-squares minimiser and decrease of the cost are
  not claimed: the code promises neither, and both depend on the learning
  rate.

## Findings

| source | as written | input that shows it | evidently intended | confidence | as-written member | corrected member |
|---|---|---|---|---|---|---|
| src/modules/feature_scaling.py:20 | w_original = w_normalized·(x_max − x_min)/(y_max − y_min) | x = [0, 2], y = [0, 1], normalised line w_n = 1, b_n = 0: at raw x = 2 the normalised line gives price 1, the de-scaled line gives 4 | w_original = w_normalized·(y_max − y_min)/(x_max − x_min), the slope that the intercept formula on line 22 assumes | medium, not executed; the function has no caller in the repository | FeatureScaling.DenormalizeMinMaxAsWritten, FeatureScaling.DenormalizeMinMaxAsWrittenMispredicts | FeatureScaling.DenormalizeMinMax, FeatureScaling.DenormalizeMinMaxRoundTrip |
