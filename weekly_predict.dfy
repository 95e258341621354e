/**
 * The end-of-week prediction: fit the close and the high of the history
 * against the date ordinals, project both lines over every calendar day
 * after the start date up to the end date, and report the projected close
 * on the end date, the highest projected high with its date, and the change
 * of the close against the reference close as a percentage.
 */
module WeeklyPredict {

  import opened TrendFit
  import opened Series
  import opened RealAlgebra

  /** What the weekly routine returns for a symbol. */
  datatype WeeklyForecast = WeeklyForecast(
    lastClose: real,   // the reference close on (or before) the start date
    endClose: real,    // the projected close on the end date
    peakHigh: real,    // the highest projected high of the range
    peakDate: int,     // the first date of the range that reaches it
    changePct: real,   // (endClose - lastClose) / lastClose * 100
    trend: Trend)

  /** The high line of the history at date d. */
  function ProjectedHigh(bars: seq<Bar>, d: int): real
    requires |bars| > 0
  {
    Eval(HighModel(bars), d as real)
  }

  // ---------------------------------------------------------------------
  // The projection range
  // ---------------------------------------------------------------------

  /**
   * The days after start up to and including end, one per calendar day;
   * none when end is not after start.
   */
  function FutureDates(start: int, end: int): seq<int>
  {
    if end <= start then [] else seq(end - start, i => start + 1 + i)
  }

  /**
   * The range holds exactly the days strictly after start and not after
   * end, in increasing order without gaps, and ends on end when it is not
   * empty.
   */
  lemma FutureDatesSpan(start: int, end: int)
    ensures |FutureDates(start, end)| == if end > start then end - start else 0
    ensures forall d :: d in FutureDates(start, end) <==> start < d <= end
    ensures forall i :: 0 <= i < |FutureDates(start, end)| ==> FutureDates(start, end)[i] == start + 1 + i
    ensures forall i, j :: 0 <= i < j < |FutureDates(start, end)| ==> FutureDates(start, end)[i] < FutureDates(start, end)[j]
    ensures end > start ==> FutureDates(start, end)[|FutureDates(start, end)| - 1] == end
  {
    var r := FutureDates(start, end);
    forall d | start < d <= end
      ensures d in r
    {
      assert r[d - start - 1] == d;
    }
  }

  /** The value of line m at every date of the range, in order. */
  function Projection(m: LinearModel, dates: seq<int>): (r: seq<real>)
    ensures |r| == |dates|
    ensures forall k {:trigger r[k]} :: 0 <= k < |dates| ==> r[k] == Eval(m, dates[k] as real)
  {
    seq(|dates|, k requires 0 <= k < |dates| => Eval(m, dates[k] as real))
  }

  /**
   * The projection loop: for every date of the range, in order, append the
   * close line's value to one list and the high line's value to the other.
   */
  method ProjectRange(close: LinearModel, high: LinearModel, dates: seq<int>) returns (pc: seq<real>, ph: seq<real>)
    ensures pc == Projection(close, dates)
    ensures ph == Projection(high, dates)
  {
    pc, ph := [], [];
    var k := 0;
    while k < |dates|
      invariant 0 <= k <= |dates|
      invariant |pc| == k && |ph| == k
      invariant forall i :: 0 <= i < k ==> pc[i] == Eval(close, dates[i] as real)
      invariant forall i :: 0 <= i < k ==> ph[i] == Eval(high, dates[i] as real)
    {
      pc := pc + [Eval(close, dates[k] as real)];
      ph := ph + [Eval(high, dates[k] as real)];
      k := k + 1;
    }
  }

  // ---------------------------------------------------------------------
  // The peak of the projected highs
  // ---------------------------------------------------------------------

  /**
   * The position of the first largest entry: every entry is at most the
   * one there, and every entry before it is smaller.
   */
  function FirstMaxIndex(s: seq<real>): (k: nat)
    requires |s| > 0
    ensures k < |s|
    ensures forall i :: 0 <= i < |s| ==> s[i] <= s[k]
    ensures forall j :: 0 <= j < k ==> s[j] < s[k]
  {
    if |s| == 1 then 0
    else
      var k := FirstMaxIndex(s[..|s| - 1]);
      if s[|s| - 1] > s[k] then |s| - 1 else k
  }

  /** The largest entry of a non-empty list, by a left-to-right scan. */
  method Maximum(s: seq<real>) returns (m: real)
    requires |s| > 0
    ensures m in s
    ensures forall i :: 0 <= i < |s| ==> s[i] <= m
  {
    m := s[0];
    var i := 1;
    while i < |s|
      invariant 1 <= i <= |s|
      invariant m in s[..i]
      invariant forall j :: 0 <= j < i ==> s[j] <= m
    {
      if s[i] > m {
        m := s[i];
      }
      i := i + 1;
    }
  }

  /** The position of the first occurrence of v, which must occur. */
  method IndexOf(s: seq<real>, v: real) returns (k: nat)
    requires v in s
    ensures k < |s| && s[k] == v
    ensures forall j :: 0 <= j < k ==> s[j] != v
  {
    k := 0;
    while s[k] != v
      invariant k < |s|
      invariant v in s[k..]
      invariant forall j :: 0 <= j < k ==> s[j] != v
      decreases |s| - k
    {
      assert s[k..] == [s[k]] + s[k + 1..];
      k := k + 1;
    }
  }

  /** Looking up the maximum finds the first largest entry. */
  lemma IndexOfMaximumIsFirstMax(s: seq<real>, m: real, k: nat)
    requires m in s && forall i :: 0 <= i < |s| ==> s[i] <= m
    requires k < |s| && s[k] == m && forall j :: 0 <= j < k ==> s[j] != m
    ensures k == FirstMaxIndex(s)
  {
    forall j | 0 <= j < k
      ensures s[j] < s[k]
    {
      assert s[j] <= m && s[j] != m;
    }
  }

  // ---------------------------------------------------------------------
  // The change against the reference close
  // ---------------------------------------------------------------------

  /**
   * The percent change from ref to endClose; dividing by a zero reference
   * close is an error.
   */
  function ChangePercent(endClose: real, ref: real): (r: Result<real>)
    ensures r.Err? <==> ref == 0.0
    ensures r.Err? ==> r.error == ZeroReferenceClose
    ensures r.Ok? ==> r.value * ref == (endClose - ref) * 100.0
  {
    if ref == 0.0 then Err(ZeroReferenceClose) else Ok((endClose - ref) / ref * 100.0)
  }

  /** Up exactly when the end close is above the reference close. */
  function WeekTrend(endClose: real, ref: real): (t: Trend)
    ensures t == Up <==> endClose > ref
  {
    if endClose > ref then Up else Down
  }

  /**
   * For a positive reference close the percent change is positive exactly
   * when the trend is Up, and zero exactly when the close is unchanged.
   */
  lemma ChangeAgreesWithTrend(endClose: real, ref: real)
    requires ref > 0.0
    ensures ChangePercent(endClose, ref).Ok?
    ensures ChangePercent(endClose, ref).value > 0.0 <==> WeekTrend(endClose, ref) == Up
    ensures ChangePercent(endClose, ref).value == 0.0 <==> endClose == ref
  {
    var p := ChangePercent(endClose, ref).value;
    var q := (endClose - ref) * 100.0;
    assert p * ref == q;
    if p > 0.0 {
      ProductPositive(p, ref, q);
    } else if p < 0.0 {
      var t := -p;
      ProductPositive(t, ref, -q);
    }
  }

  // ---------------------------------------------------------------------
  // The weekly routine
  // ---------------------------------------------------------------------

  /**
   * What the weekly routine computes for a symbol: an error for an empty
   * history, then an error for a range with no day after the start, then an
   * error for a zero reference close; otherwise the forecast.
   */
  function WeekSummary(bars: seq<Bar>, start: int, end: int): (r: Result<WeeklyForecast>)
    ensures r == Err(NoData) <==> |bars| == 0
    ensures r == Err(EmptyRange) <==> |bars| > 0 && end <= start
    ensures r == Err(ZeroReferenceClose) <==> |bars| > 0 && end > start && ReferenceClose(bars, start) == 0.0
  {
    if |bars| == 0 then Err(NoData)
    else
      var dates := FutureDates(start, end);
      if |dates| == 0 then Err(EmptyRange)
      else
        var ref := ReferenceClose(bars, start);
        var closes := Projection(CloseModel(bars), dates);
        var highs := Projection(HighModel(bars), dates);
        var p := FirstMaxIndex(highs);
        match ChangePercent(closes[|closes| - 1], ref)
          case Err(e) => Err(e)
          case Ok(pct) =>
            Ok(WeeklyForecast(ref, closes[|closes| - 1], highs[p], dates[p], pct,
                              WeekTrend(closes[|closes| - 1], ref)))
  }

  /**
   * The weekly routine in the order of the script: check the download, fit
   * both lines, look up the reference close, project over the range, take
   * the last projected close, the largest projected high and its first
   * date, and only then divide by the reference close.
   */
  method PredictWeek(bars: seq<Bar>, start: int, end: int) returns (r: Result<WeeklyForecast>)
    ensures r == WeekSummary(bars, start, end)
  {
    if |bars| == 0 {
      return Err(NoData);
    }
    var closeLine := CloseModel(bars);
    var highLine := HighModel(bars);
    var ref := ReferenceClose(bars, start);
    var dates := FutureDates(start, end);
    var pc, ph := ProjectRange(closeLine, highLine, dates);
    if |pc| == 0 {
      return Err(EmptyRange);
    }
    var endClose := pc[|pc| - 1];
    var peak := Maximum(ph);
    var at := IndexOf(ph, peak);
    IndexOfMaximumIsFirstMax(ph, peak, at);
    var pct := ChangePercent(endClose, ref);
    if pct.Err? {
      return Err(pct.error);
    }
    r := Ok(WeeklyForecast(ref, endClose, peak, dates[at], pct.value, WeekTrend(endClose, ref)));
  }

  /** The close fields of a successful forecast, as the routine computes them. */
  lemma WeekSummaryCloses(bars: seq<Bar>, start: int, end: int)
    requires WeekSummary(bars, start, end).Ok?
    ensures |bars| > 0 && start < end
    ensures var w := WeekSummary(bars, start, end).value;
            var c := Eval(CloseModel(bars), end as real);
            && w.lastClose == ReferenceClose(bars, start)
            && w.endClose == c
            && ChangePercent(c, w.lastClose) == Ok(w.changePct)
            && w.trend == WeekTrend(c, w.lastClose)
  {
    var dates := FutureDates(start, end);
    assert |dates| == end - start && dates[end - start - 1] == end;
    var ref := ReferenceClose(bars, start);
    var c := Projection(CloseModel(bars), dates)[end - start - 1];
    var highs := Projection(HighModel(bars), dates);
    var p := FirstMaxIndex(highs);
    var pct := ChangePercent(c, ref);
    assert WeekSummary(bars, start, end) == Ok(WeeklyForecast(ref, c, highs[p], dates[p], pct.value, WeekTrend(c, ref)));
  }

  /**
   * A successful forecast reports the reference close of the start date,
   * the close line on the end date, and a percent change and trend that
   * relate the two.
   */
  lemma WeekCloseCharacterized(bars: seq<Bar>, start: int, end: int)
    requires WeekSummary(bars, start, end).Ok?
    ensures |bars| > 0 && start < end
    ensures var w := WeekSummary(bars, start, end).value;
            && w.lastClose == ReferenceClose(bars, start)
            && w.endClose == Eval(CloseModel(bars), end as real)
            && w.changePct * w.lastClose == (w.endClose - w.lastClose) * 100.0
            && (w.trend == Up <==> w.endClose > w.lastClose)
  {
    WeekSummaryCloses(bars, start, end);
  }

  /**
   * The peak of a successful forecast: its date lies in the range, its
   * value is the high line there, no date of the range has a higher
   * projected high and every earlier date of the range a lower one.
   */
  lemma WeekPeakCharacterized(bars: seq<Bar>, start: int, end: int)
    requires WeekSummary(bars, start, end).Ok?
    ensures |bars| > 0 && start < end
    ensures var w := WeekSummary(bars, start, end).value;
            && start < w.peakDate <= end
            && w.peakHigh == ProjectedHigh(bars, w.peakDate)
            && (forall d :: start < d <= end ==> ProjectedHigh(bars, d) <= w.peakHigh)
            && (forall d :: start < d < w.peakDate ==> ProjectedHigh(bars, d) < w.peakHigh)
  {
    var dates := FutureDates(start, end);
    var highs := Projection(HighModel(bars), dates);
    var p := FirstMaxIndex(highs);
    var w := WeekSummary(bars, start, end).value;
    assert w.peakDate == dates[p] && w.peakHigh == highs[p];
    forall d | start < d <= end
      ensures ProjectedHigh(bars, d) <= w.peakHigh
    {
      assert dates[d - start - 1] == d;
      assert highs[d - start - 1] == ProjectedHigh(bars, d);
    }
    forall d | start < d < w.peakDate
      ensures ProjectedHigh(bars, d) < w.peakHigh
    {
      assert dates[d - start - 1] == d;
      assert highs[d - start - 1] == ProjectedHigh(bars, d);
    }
  }

  /**
   * The peak date follows the slope of the high line: a rising line peaks
   * on the end date, a falling or flat one on the first day of the range.
   */
  lemma PeakFollowsHighTrend(bars: seq<Bar>, start: int, end: int)
    requires WeekSummary(bars, start, end).Ok?
    ensures HighModel(bars).slope > 0.0 ==> WeekSummary(bars, start, end).value.peakDate == end
    ensures HighModel(bars).slope <= 0.0 ==> WeekSummary(bars, start, end).value.peakDate == start + 1
  {
    WeekPeakCharacterized(bars, start, end);
    var w := WeekSummary(bars, start, end).value;
    var m := HighModel(bars);
    if m.slope > 0.0 && w.peakDate < end {
      assert ProjectedHigh(bars, end) <= w.peakHigh;
      EvalMonotone(m, w.peakDate as real, end as real);
      assert false;
    }
    if m.slope <= 0.0 && w.peakDate > start + 1 {
      var first := start + 1;
      assert ProjectedHigh(bars, first) < w.peakHigh;
      EvalMonotone(m, first as real, w.peakDate as real);
      assert false;
    }
  }
}
