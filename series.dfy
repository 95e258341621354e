/**
 * The downloaded price history of one symbol, as both scripts use it: a
 * sequence of daily bars, the two fitted trend lines (close and high, each
 * against the date ordinal of every bar) and the reference close looked up
 * for a given date.
 *
 * Dates are proleptic Gregorian day ordinals (the value of date.toordinal()),
 * so that "the day after d" is d + 1. Prices are reals.
 */
module Series {

  import opened TrendFit

  /** One daily bar of the history. */
  datatype Bar = Bar(date: int, close: real, high: real)

  /** How a symbol's prediction can fail instead of producing a value. */
  datatype Error =
    | NoData              // the download was empty
    | EmptyRange          // the week's date range holds no day after the start
    | ZeroReferenceClose  // the percent change would divide by a zero close

  datatype Result<T> = Ok(value: T) | Err(error: Error)

  datatype Option<T> = None | Some(value: T)

  /** Whether the predicted close went up or not; no change counts as Down. */
  datatype Trend = Up | Down

  /** The bars are in strictly increasing date order, one bar per date. */
  predicate Chronological(bars: seq<Bar>)
  {
    forall i, j :: 0 <= i < j < |bars| ==> bars[i].date < bars[j].date
  }

  /** The date ordinal of every bar, as the regression axis. */
  function Ordinals(bars: seq<Bar>): (r: seq<real>)
    ensures |r| == |bars|
    ensures forall i {:trigger r[i]} :: 0 <= i < |bars| ==> r[i] == bars[i].date as real
  {
    seq(|bars|, i requires 0 <= i < |bars| => bars[i].date as real)
  }

  function Closes(bars: seq<Bar>): (r: seq<real>)
    ensures |r| == |bars|
    ensures forall i {:trigger r[i]} :: 0 <= i < |bars| ==> r[i] == bars[i].close
  {
    seq(|bars|, i requires 0 <= i < |bars| => bars[i].close)
  }

  function Highs(bars: seq<Bar>): (r: seq<real>)
    ensures |r| == |bars|
    ensures forall i {:trigger r[i]} :: 0 <= i < |bars| ==> r[i] == bars[i].high
  {
    seq(|bars|, i requires 0 <= i < |bars| => bars[i].high)
  }

  /** The least-squares line of the closing prices against the date ordinals. */
  function CloseModel(bars: seq<Bar>): LinearModel
    requires |bars| > 0
  {
    Fit(Ordinals(bars), Closes(bars))
  }

  /** The least-squares line of the high prices against the same axis. */
  function HighModel(bars: seq<Bar>): LinearModel
    requires |bars| > 0
  {
    Fit(Ordinals(bars), Highs(bars))
  }

  /** The position of the first bar dated d, if there is one. */
  function FindDate(bars: seq<Bar>, d: int): (r: Option<nat>)
    ensures r.Some? ==> r.value < |bars| && bars[r.value].date == d
    ensures r.Some? ==> forall j :: 0 <= j < r.value ==> bars[j].date != d
    ensures r.None? <==> forall j :: 0 <= j < |bars| ==> bars[j].date != d
  {
    if |bars| == 0 then None
    else if bars[0].date == d then Some(0)
    else match FindDate(bars[1..], d)
      case None => None
      case Some(k) => Some(k + 1)
  }

  /**
   * The reference close: the close of the first bar dated d, or the close
   * of the last bar when no bar has that date.
   */
  function ReferenceClose(bars: seq<Bar>, d: int): (r: real)
    requires |bars| > 0
    ensures forall i :: 0 <= i < |bars| && bars[i].date == d && (forall j :: 0 <= j < i ==> bars[j].date != d)
              ==> r == bars[i].close
    ensures (forall j :: 0 <= j < |bars| ==> bars[j].date != d) ==> r == bars[|bars| - 1].close
  {
    match FindDate(bars, d)
      case Some(i) => bars[i].close
      case None => bars[|bars| - 1].close
  }

  /** In a chronological history the bar dated d is the only one, so its close is the reference. */
  lemma ReferenceCloseChronological(bars: seq<Bar>, d: int, i: nat)
    requires Chronological(bars)
    requires i < |bars| && bars[i].date == d
    ensures ReferenceClose(bars, d) == bars[i].close
  {
  }

  /** Every reference close is the close of some bar. */
  lemma ReferenceCloseIsAClose(bars: seq<Bar>, d: int)
    requires |bars| > 0
    ensures exists i :: 0 <= i < |bars| && ReferenceClose(bars, d) == bars[i].close
  {
    match FindDate(bars, d)
    case None =>
      assert ReferenceClose(bars, d) == bars[|bars| - 1].close;
    case Some(k) =>
      assert ReferenceClose(bars, d) == bars[k].close;
  }
}
