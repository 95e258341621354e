/**
 * The next-day prediction: fit the close and the high of the history
 * against the date ordinals, project both lines one calendar day past the
 * input date, and compare the projected close with the reference close.
 */
module DailyPredict {

  import opened TrendFit
  import opened Series

  /** What the prediction routine returns for a symbol. */
  datatype DailyForecast = DailyForecast(lastClose: real, predictedClose: real, predictedHigh: real)

  /** What is reported for a symbol: the forecast, the change of the close and its direction. */
  datatype DailyReport = DailyReport(forecast: DailyForecast, diff: real, trend: Trend)

  /**
   * The projection date: the next calendar day, weekends and holidays
   * included, i.e. the earliest ordinal after today.
   */
  function NextDate(today: int): (r: int)
    ensures r > today
    ensures r - 1 <= today
  {
    today + 1
  }

  /**
   * The prediction for one symbol: an error when the history is empty,
   * otherwise the reference close for today and both fitted lines
   * evaluated at the ordinal of next.
   */
  function PredictNextDay(bars: seq<Bar>, today: int, next: int): (r: Result<DailyForecast>)
    ensures r.Err? <==> |bars| == 0
    ensures r.Err? ==> r.error == NoData
  {
    if |bars| == 0 then Err(NoData)
    else
      Ok(DailyForecast(ReferenceClose(bars, today),
                       Eval(CloseModel(bars), next as real),
                       Eval(HighModel(bars), next as real)))
  }

  /** Up exactly when the close is predicted to rise; no change is Down. */
  function TrendOf(diff: real): (t: Trend)
    ensures t == Up <==> diff > 0.0
    ensures t == Down <==> diff <= 0.0
  {
    if diff > 0.0 then Up else Down
  }

  /** The reported change: the predicted close minus the reference close, and its direction. */
  function Report(f: DailyForecast): (r: DailyReport)
    ensures r.forecast == f
    ensures f.lastClose + r.diff == f.predictedClose
    ensures r.trend == Up <==> f.predictedClose > f.lastClose
  {
    DailyReport(f, f.predictedClose - f.lastClose, TrendOf(f.predictedClose - f.lastClose))
  }

  /** The whole run for one symbol: predict for the day after today and report it. */
  function DailyRun(bars: seq<Bar>, today: int): (r: Result<DailyReport>)
    ensures r.Err? <==> |bars| == 0
    ensures r.Err? ==> r.error == NoData
  {
    match PredictNextDay(bars, today, NextDate(today))
      case Err(e) => Err(e)
      case Ok(f) => Ok(Report(f))
  }

  /**
   * The forecast of a non-empty history: the reference close is the close
   * of the first bar dated today, or the last close when there is none, and
   * the predictions are the two fitted lines at the day after today.
   */
  lemma DailyRunCharacterized(bars: seq<Bar>, today: int)
    requires |bars| > 0
    ensures DailyRun(bars, today).Ok?
    ensures var f := DailyRun(bars, today).value.forecast;
            && f.predictedClose == Eval(CloseModel(bars), (today + 1) as real)
            && f.predictedHigh == Eval(HighModel(bars), (today + 1) as real)
            && (forall i :: 0 <= i < |bars| && bars[i].date == today && (forall j :: 0 <= j < i ==> bars[j].date != today)
                  ==> f.lastClose == bars[i].close)
            && ((forall j :: 0 <= j < |bars| ==> bars[j].date != today) ==> f.lastClose == bars[|bars| - 1].close)
  {
  }

  /**
   * When the closing prices of a history with at least two dates lie on a
   * line in the date ordinal, the predicted close is that line's value on
   * the next day.
   */
  lemma PredictionFollowsExactTrend(bars: seq<Bar>, today: int, line: LinearModel, i: nat, j: nat)
    requires i < |bars| && j < |bars| && bars[i].date != bars[j].date
    requires forall k :: 0 <= k < |bars| ==> bars[k].close == Eval(line, bars[k].date as real)
    ensures PredictNextDay(bars, today, NextDate(today)).Ok?
    ensures PredictNextDay(bars, today, NextDate(today)).value.predictedClose == Eval(line, (today + 1) as real)
  {
    assert !Constant(Ordinals(bars)) by {
      assert Ordinals(bars)[i] != Ordinals(bars)[j];
    }
    FitReproducesLine(Ordinals(bars), Closes(bars), line);
  }
}
