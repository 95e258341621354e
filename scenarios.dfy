/**
 * A worked history: ten consecutive calendar days from 2024-01-01
 * (ordinal 738886) to 2024-01-10 (ordinal 738895), closing at 100, 101,
 * ..., 109 with highs two above the close. Both price columns lie on lines
 * of slope one per day, so the fitted lines are those lines and the
 * predictions follow from them exactly.
 */
module Scenarios {

  import opened TrendFit
  import opened Series
  import opened DailyPredict
  import opened WeeklyPredict

  /** The ten bars of the history. */
  function SampleBars(): seq<Bar>
  {
    seq(10, i => Bar(738886 + i, 100.0 + i as real, 102.0 + i as real))
  }

  /** The line the closes lie on: close = ordinal - 738786. */
  function CloseLine(): LinearModel
  {
    LinearModel(1.0, -738786.0)
  }

  /** The line the highs lie on: high = ordinal - 738784. */
  function HighLine(): LinearModel
  {
    LinearModel(1.0, -738784.0)
  }

  /** The history is chronological, and the fitter recovers both lines. */
  lemma SampleFits()
    ensures Chronological(SampleBars())
    ensures CloseModel(SampleBars()) == CloseLine()
    ensures HighModel(SampleBars()) == HighLine()
  {
    var bars := SampleBars();
    var xs := Ordinals(bars);
    assert xs[0] != xs[1];
    FitReproducesLine(xs, Closes(bars), CloseLine());
    FitReproducesLine(xs, Highs(bars), HighLine());
  }

  /**
   * From 2024-01-10 the next day, 2024-01-11, is predicted to close at 110
   * with a high of 112: one above the reference close of 109, so Up.
   */
  lemma SampleDailyForecast()
    ensures DailyRun(SampleBars(), 738895) == Ok(DailyReport(DailyForecast(109.0, 110.0, 112.0), 1.0, Up))
  {
    SampleFits();
    ReferenceCloseChronological(SampleBars(), 738895, 9);
  }

  /**
   * From 2024-01-15, a date after the history, the reference close falls
   * back to the last close, 109, and 2024-01-16 is predicted at 115 with a
   * high of 117.
   */
  lemma SampleDailyFallback()
    ensures DailyRun(SampleBars(), 738900) == Ok(DailyReport(DailyForecast(109.0, 115.0, 117.0), 6.0, Up))
  {
    SampleFits();
  }

  /**
   * From 2024-01-10 to 2024-01-13 the range is 2024-01-11 to 2024-01-13;
   * the close is projected at 112 on the last day, the highs peak at 114
   * on that same day because the high line rises, and the change against
   * 109 is 300/109 percent, Up.
   */
  lemma SampleWeeklyForecast()
    ensures WeekSummary(SampleBars(), 738895, 738898)
            == Ok(WeeklyForecast(109.0, 112.0, 114.0, 738898, 300.0 / 109.0, Up))
  {
    var bars := SampleBars();
    SampleFits();
    ReferenceCloseChronological(bars, 738895, 9);
    assert WeekSummary(bars, 738895, 738898).Ok?;
    WeekCloseCharacterized(bars, 738895, 738898);
    WeekPeakCharacterized(bars, 738895, 738898);
    PeakFollowsHighTrend(bars, 738895, 738898);
  }

  /** A range that ends on its start date holds no day to predict. */
  lemma SampleEmptyWeek()
    ensures WeekSummary(SampleBars(), 738895, 738895) == Err(EmptyRange)
    ensures WeekSummary([], 738895, 738898) == Err(NoData)
  {
  }
}
