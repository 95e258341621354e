# Stock trend predictor: the per-symbol prediction routines

This project models the two prediction scripts of the stock predictor. The
daily script (`Daily_Predict.py`) and the weekly script (`Weekly_Predict.py`)
treat each symbol the same way:

- Take its six-month daily history.
- Fit two straight lines against the calendar-day ordinal of every bar: one to the closing prices, one to the daily highs.
- Look up the reference close:
  - the close of the first bar dated the given day;
  - or, when no bar has that date, the close of the last bar.
- Project the lines forward:
  - The daily script evaluates both lines one calendar day after the given date. It reports the change of the close against the reference close, and labels it Up only when that change is positive.
  - The weekly script evaluates both lines on every calendar day after the start date, through the end date. It reports:
    - the projected close on the end date;
    - the highest projected high, with the first date that reaches it;
    - the percent change of the end close against the reference close;
    - its direction.

The model has these modules:

- `RealAlgebra` (`real_algebra.dfy`) holds the closed-form formulas of simple linear regression over five sums (n, Σx, Σy, Σx², Σxy). Each identity about them is a lemma over plain variables.
- `TrendFit` (`trend_fit.dfy`) defines the least-squares line, its evaluation and its proofs:
  - Degenerate case: the denominator nΣx² − (Σx)² is zero exactly when all ordinals are equal. The fit is then the flat line through the mean.
  - Normal equations: the fit solves them and, for a non-degenerate axis, is their only solution.
  - Optimality: the fit has the least squared error of all lines.
  - Exact data: prices lying on a line are fitted by that line.
- `Series` (`series.dfy`) covers the price history as a sequence of bars: the regression axis and columns, both fitted lines, and the reference-close lookup with its fallback. It also holds the error and result types.
- `DailyPredict` (`daily_predict.dfy`) covers the next-day prediction and its report.
- `WeeklyPredict` (`weekly_predict.dfy`) covers the weekly prediction:
  - the date range;
  - the projection loop, as a method that appends to two lists;
  - the `max`/`index` scan, as two loop methods, proved to find the first largest projected high;
  - the percent change and the trend;
  - the whole routine, as a method `PredictWeek` proved equal to the function `WeekSummary`.
- `Scenarios` (`scenarios.dfy`) works through a ten-day history: closes 100 to 109 and highs 102 to 111, from 2024-01-01 to 2024-01-10. It gives the daily prediction from 2024-01-10 and from a date after the history, and the weekly prediction from 2024-01-10 to 2024-01-13.

Representation:

- Dates are proleptic Gregorian day ordinals, the value of `date.toordinal()`. So `d + timedelta(days=i)` is `d + i`, and 2024-01-10 is 738895.
- Prices are reals.
- A failed symbol is the `Err` case of a `Result`, with one error per way the routine can fail:
  - `NoData`: the download was empty;
  - `EmptyRange`: the weekly range holds no day after the start, so `preds_close[-1]` fails;
  - `ZeroReferenceClose`: the percent change divides by a zero close.

Two things one might expect are not in the scripts, and so are not in the model:

- No `InsufficientData` error. One might expect a history of fewer than two points to be refused, but neither script checks the number of bars. The model therefore fits any non-empty history, and one bar, or bars that all share a date, give the flat line through the mean price.
- No requirement that the dates strictly increase. A daily history normally has one bar per date in date order, but the scripts never depend on that, and no operation here requires it. `Series.Chronological` states it, and `Series.ReferenceCloseChronological` shows what it adds to the lookup.

## Model

| member | source | states |
|---|---|---|
| TrendFit.Eval | Stock_Predictor/Codes/Daily_Predict.py:53-55 | the value of a fitted line at an ordinal, slope times ordinal plus intercept; its behaviour is stated by TrendFit.EvalMonotone |
| TrendFit.Fit | Stock_Predictor/Codes/Daily_Predict.py:41-44 | the least-squares line, which passes through the centroid (mean ordinal, mean price); specified by FitCharacterized, FitSolvesNormalEquations, FitMinimizesSquaredError and ConstantAxisFitIsMean |
| TrendFit.EvalMonotone | Stock_Predictor/Codes/Daily_Predict.py:53-55 | projected values rise with the date for a positive slope, fall for a negative one, and are constant for slope zero |
| TrendFit.DegenerateIffConstant | Stock_Predictor/Codes/Daily_Predict.py:41-44 | the slope's denominator nΣx² − (Σx)² is zero exactly when every ordinal of the history is the same |
| TrendFit.ConstantAxisFitIsMean | Stock_Predictor/Codes/Daily_Predict.py:41-44 | when every ordinal is the same, as for a single bar, the fit is the flat line at the mean price: slope zero, intercept times n equal to the sum of the prices |
| TrendFit.FitSolvesNormalEquations | Stock_Predictor/Codes/Daily_Predict.py:41-44 | the fitted line's residuals sum to zero and are orthogonal to the ordinals, also in the degenerate case |
| TrendFit.FitCharacterized | Stock_Predictor/Codes/Daily_Predict.py:41-44 | for a history with two distinct dates, a line is the fitted line if and only if it solves the normal equations |
| TrendFit.FitMinimizesSquaredError | Stock_Predictor/Codes/Weekly_Predict.py:41-44 | no line has a smaller sum of squared residuals than the fitted line: the fit is least squares |
| TrendFit.FitReproducesLine | Stock_Predictor/Codes/Daily_Predict.py:34-44 | prices that lie on a line are reproduced by the fit at every bar, and the fit is that line when the history has two distinct dates |
| Series.CloseModel | Stock_Predictor/Codes/Daily_Predict.py:34-43 | the close line is the least-squares fit of the closes against the ordinals of all bars; TrendFit.FitSolvesNormalEquations, FitCharacterized and FitMinimizesSquaredError state its properties |
| Series.HighModel | Stock_Predictor/Codes/Daily_Predict.py:34-44 | the high line is fitted independently, against the same ordinals, by the same least-squares fit, so the same TrendFit lemmas apply to it |
| Series.FindDate | Stock_Predictor/Codes/Daily_Predict.py:47-48 | finds the position of the first bar with the date, if any bar has it |
| Series.ReferenceClose | Stock_Predictor/Codes/Daily_Predict.py:47-50 | when the date occurs, the reference close is the close of its first bar; when it does not, the last bar's close, never an error |
| Series.ReferenceCloseChronological | Stock_Predictor/Codes/Weekly_Predict.py:47-48 | in a history with strictly increasing dates, the bar with the date gives the reference close |
| Series.ReferenceCloseIsAClose | Stock_Predictor/Codes/Weekly_Predict.py:47-50 | the reference close is always the close of some bar of the history |
| DailyPredict.NextDate | Stock_Predictor/Codes/Daily_Predict.py:22 | the projection date is the first ordinal after today: exactly one calendar day later |
| DailyPredict.PredictNextDay | Stock_Predictor/Codes/Daily_Predict.py:25-57 | the prediction fails, with NoData, exactly when the history is empty |
| DailyPredict.TrendOf | Stock_Predictor/Codes/Daily_Predict.py:67 | the trend is Up exactly when the change is positive, and Down for no change or a fall |
| DailyPredict.Report | Stock_Predictor/Codes/Daily_Predict.py:66-67 | the change added to the reference close gives the predicted close; Up exactly when the predicted close is above the reference close |
| DailyPredict.DailyRun | Stock_Predictor/Codes/Daily_Predict.py:65-67 | a symbol's daily run fails, with NoData, exactly when its history is empty |
| DailyPredict.DailyRunCharacterized | Stock_Predictor/Codes/Daily_Predict.py:25-57 | for a non-empty history, the predictions are the close and high lines one day after today, and the reference close is the first bar dated today or else the last close |
| DailyPredict.PredictionFollowsExactTrend | Stock_Predictor/Codes/Daily_Predict.py:43-54 | when the closes of a history with two distinct dates lie on a line, the predicted close is that line's value on the next day |
| WeeklyPredict.FutureDates | Stock_Predictor/Codes/Weekly_Predict.py:53-54 | the date range after start through end; specified by WeeklyPredict.FutureDatesSpan |
| WeeklyPredict.FutureDatesSpan | Stock_Predictor/Codes/Weekly_Predict.py:53-54 | the range has max(0, end − start) dates: exactly the days after start up to end, entry i being start + 1 + i, strictly increasing, last one end |
| WeeklyPredict.Projection | Stock_Predictor/Codes/Weekly_Predict.py:56-61 | one value per date of the range, in order: the line at the k-th date's ordinal; the loop ProjectRange is proved to build it |
| WeeklyPredict.ProjectRange | Stock_Predictor/Codes/Weekly_Predict.py:56-61 | the two lists have the range's length and order; entry k is each line at the k-th date |
| WeeklyPredict.FirstMaxIndex | Stock_Predictor/Codes/Weekly_Predict.py:65-66 | a position whose entry is at least every entry and above every earlier entry |
| WeeklyPredict.Maximum | Stock_Predictor/Codes/Weekly_Predict.py:65 | the result is one of the entries and at least every entry |
| WeeklyPredict.IndexOf | Stock_Predictor/Codes/Weekly_Predict.py:66 | the result is a position of the value and no earlier entry equals it |
| WeeklyPredict.IndexOfMaximumIsFirstMax | Stock_Predictor/Codes/Weekly_Predict.py:65-66 | looking up the maximum gives the first largest entry, so ties go to the earliest date |
| WeeklyPredict.ChangePercent | Stock_Predictor/Codes/Weekly_Predict.py:69 | fails exactly for a zero reference close; otherwise the result times the reference close is 100 times the change |
| WeeklyPredict.WeekTrend | Stock_Predictor/Codes/Weekly_Predict.py:70 | Up exactly when the end close is above the reference close |
| WeeklyPredict.ChangeAgreesWithTrend | Stock_Predictor/Codes/Weekly_Predict.py:69-70 | for a positive reference close, the change is positive exactly when the trend is Up, and zero exactly when the close is unchanged |
| WeeklyPredict.WeekSummary | Stock_Predictor/Codes/Weekly_Predict.py:28-72 | NoData exactly for an empty history; then EmptyRange exactly when end is not after start; then ZeroReferenceClose exactly for a zero reference close |
| WeeklyPredict.PredictWeek | Stock_Predictor/Codes/Weekly_Predict.py:28-72 | the weekly routine, in the script's order, returns what WeekSummary specifies |
| WeeklyPredict.WeekSummaryCloses | Stock_Predictor/Codes/Weekly_Predict.py:47-70 | on success, the forecast holds the reference close of the start date, the close line on the end date, and the percent change and trend computed from those two |
| WeeklyPredict.WeekCloseCharacterized | Stock_Predictor/Codes/Weekly_Predict.py:47-70 | on success, the range is non-empty, the reference close is that of the start date, the end close is the close line on the end date, and the percent change and trend relate the two |
| WeeklyPredict.WeekPeakCharacterized | Stock_Predictor/Codes/Weekly_Predict.py:53-66 | on success, the peak date lies in the range, its high is the high line there, no date of the range has a higher projected high, and every earlier date has a lower one |
| WeeklyPredict.PeakFollowsHighTrend | Stock_Predictor/Codes/Weekly_Predict.py:58-66 | a rising high line peaks on the end date; a falling or flat one peaks on the first day of the range |
| Scenarios.SampleFits | Stock_Predictor/Codes/Daily_Predict.py:34-44 | for the ten-day history, the fitted close and high lines are the lines of slope one the prices lie on |
| Scenarios.SampleDailyForecast | Stock_Predictor/Codes/Daily_Predict.py:22-67 | from 2024-01-10 the reference close is 109, the predicted close 110 and the predicted high 112; the change is 1, so Up |
| Scenarios.SampleDailyFallback | Stock_Predictor/Codes/Daily_Predict.py:47-57 | from 2024-01-15, a date after the history, the reference close falls back to 109, and 2024-01-16 is predicted at 115 with a high of 117 |
| Scenarios.SampleWeeklyForecast | Stock_Predictor/Codes/Weekly_Predict.py:28-72 | from 2024-01-10 to 2024-01-13 the end close is 112 and the peak high 114 on 2024-01-13; the change is 300/109 percent, so Up |
| Scenarios.SampleEmptyWeek | Stock_Predictor/Codes/Weekly_Predict.py:30-54 | a range ending on its start date gives EmptyRange, and an empty history gives NoData |

## Left out

- Market-data download (`yf.download`): network I/O. The history is an input sequence of bars. An empty download is the `NoData` result.
- Console input and date parsing (`input`, `strptime`), and its invalid-date error: the dates are input ordinals.
- DailyPredict.NextDate: dates are unbounded integers, not Python's ordinals 1 to 3652059. So the `OverflowError` that `date.max + timedelta(days=1)` raises for today = 9999-12-31, ending the whole run before any symbol, is not modelled; the model returns ordinal 3652060.
- All printing and number formatting, and the trend glyphs; the trend is the datatype `Trend`.
- The fixed table of symbols and the loop over it that catches each symbol's exception and prints it. Each symbol's run is one call that returns a `Result`, so one symbol's failure cannot affect another.
- sklearn's `LinearRegression` and IEEE floating point. The fit is the exact least-squares line over the reals, with the flat line through the mean for an axis of identical ordinals. Rounding, overflow and NaN are not modelled.
- pandas and numpy plumbing (`reset_index`, `.dt.date`, `reshape`, `.values`): these have no logic of their own. The columns are the comprehensions `Series.Ordinals`, `Series.Closes` and `Series.Highs`.
- WeeklyPredict.Maximum: requires a non-empty list. The routine only reaches `max` after `preds_close[-1]` has succeeded, so the `ValueError` of `max([])` cannot occur. The empty range is the `EmptyRange` result.
- WeeklyPredict.IndexOf: requires the value to occur. The routine looks up the maximum of the same list, so the `ValueError` of `list.index` cannot occur.
- The exception messages themselves: each failure is a constructor of `Series.Error`.
