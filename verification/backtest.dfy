/** The backtest around classifier C: classify the history up to a
    given date, and measure the best high reached in the days after a signal
    date. Row labels are positions (the source's frames carry a default
    integer index). */
module Backtest {
  import opened Series
  import opened Scan
  import BreakoutPullback
  import opened Indicators

  /** The first row carrying date `d`. */
  function DateIndex(bars: seq<Bar>, d: string): (r: Option<int>)
    ensures r.Some? ==> 0 <= r.value < |bars| && bars[r.value].date == d
    ensures r.Some? ==> forall j :: 0 <= j < r.value ==> bars[j].date != d
    ensures r.None? <==> forall j :: 0 <= j < |bars| ==> bars[j].date != d
  {
    var p := i => 0 <= i < |bars| && bars[i].date == d;
    assert forall i :: p(i) == (0 <= i < |bars| && bars[i].date == d);
    First(0, |bars|, p)
  }

  /** Appending later rows does not move the first row of a date already
      present. */
  lemma DateIndexExtend(bars: seq<Bar>, later: seq<Bar>, d: string)
    requires DateIndex(bars, d).Some?
    ensures DateIndex(bars + later, d) == DateIndex(bars, d)
  {
    assert forall j :: 0 <= j < |bars| ==> (bars + later)[j] == bars[j];
  }

  lemma WellFormedPrefix(bars: seq<Bar>, later: seq<Bar>)
    requires WellFormed(bars + later)
    ensures WellFormed(bars)
  {
    assert forall i :: 0 <= i < |bars| ==> (bars + later)[i] == bars[i];
  }

  /** Classifier C on the rows up to and including the first row dated `d`;
      no signal when the date is absent or fewer than 60 rows lead up to it. */
  function AnalyzeOnDate(bars: seq<Bar>, d: string): (r: Option<Stage>)
    requires WellFormed(bars)
    ensures DateIndex(bars, d).None? ==> r == None
    ensures DateIndex(bars, d).Some? && DateIndex(bars, d).value + 1 < MinBars ==> r == None
    ensures DateIndex(bars, d).Some? && DateIndex(bars, d).value + 1 >= MinBars ==>
      WellFormed(bars[..DateIndex(bars, d).value + 1]) &&
      r == BreakoutPullback.Analyze(bars[..DateIndex(bars, d).value + 1])
    ensures r.Some? ==>
      var k := DateIndex(bars, d).value;
      && k + 1 >= MinBars
      && bars[k].date == d
      && r == BreakoutPullback.Analyze(bars[..k + 1])
  {
    match DateIndex(bars, d)
    case None => None
    case Some(k) =>
      var upToDate := bars[..k + 1];
      assert forall i :: 0 <= i < |upToDate| ==> upToDate[i] == bars[i];
      if |upToDate| < MinBars then None
      else BreakoutPullback.Analyze(upToDate)
  }

  /** The stage on a date ignores every row after that date: no look-ahead. */
  lemma AnalyzeOnDateNoLookAhead(bars: seq<Bar>, later: seq<Bar>, d: string)
    requires WellFormed(bars + later)
    requires DateIndex(bars, d).Some?
    ensures WellFormed(bars)
    ensures AnalyzeOnDate(bars + later, d) == AnalyzeOnDate(bars, d)
  {
    WellFormedPrefix(bars, later);
    DateIndexExtend(bars, later, d);
    var k := DateIndex(bars, d).value;
    assert (bars + later)[..k + 1] == bars[..k + 1];
  }

  /** Outcome of the forward check: success, best return in percent, and
      the date of the first row reaching the best high. */
  datatype FutureReturn = FutureReturn(success: bool, maxReturnPct: real, maxDate: Option<string>)

  const NoReturn: FutureReturn := FutureReturn(false, 0.0, None)

  /** Rows `s+1 .. s+days` (inclusive, clipped to the series) after the
      signal row `s`: the label slice `loc[s+1 : s+days]`. */
  function WindowEnd(bars: seq<Bar>, s: int, days: int): int {
    Min(s + days, |bars| - 1) + 1
  }

  /** The first row of `[lo, hi)` with the highest high (`idxmax`). */
  function PeakRow(bars: seq<Bar>, lo: int, hi: int): (m: int)
    requires 0 <= lo < hi <= |bars|
    ensures lo <= m < hi
    ensures forall j :: lo <= j < hi ==> bars[j].high <= bars[m].high
    ensures forall j :: lo <= j < m ==> bars[j].high < bars[m].high
  {
    var high := j => if 0 <= j < |bars| then bars[j].high else 0.0;
    assert forall j :: 0 <= j < |bars| ==> high(j) == bars[j].high;
    ArgMax(lo, hi, high)
  }

  /** The forward check from signal row `s`: over the window of up to `days`
      rows that follow it, the highest high against the signal close. */
  function ForwardCheck(bars: seq<Bar>, s: int, days: int, target: real): (r: FutureReturn)
    requires WellFormed(bars)
    requires 0 <= s < |bars|
    ensures s + 1 >= WindowEnd(bars, s, days) ==> r == NoReturn
    ensures s + 1 < WindowEnd(bars, s, days) ==>
      var m := PeakRow(bars, s + 1, WindowEnd(bars, s, days));
      var c := bars[s].close;
      && r.maxDate == Some(bars[m].date)
      && r.maxReturnPct * c == (bars[m].high - c) * 100.0
      && (r.success <==> bars[m].high - c >= target * c)
  {
    var signalClose := bars[s].close;
    var lo := s + 1;
    var hi := WindowEnd(bars, s, days);
    if lo >= hi then NoReturn
    else
      var m := PeakRow(bars, lo, hi);
      var maxPrice := bars[m].high;
      var maxReturn := (maxPrice - signalClose) / signalClose;
      DivBounds(maxPrice - signalClose, signalClose, target);
      FutureReturn(maxReturn >= target, maxReturn * 100.0, Some(bars[m].date))
  }

  /** `check_future_return`: nothing when the date is absent, else the
      forward check from the first row of that date. */
  function CheckFutureReturn(bars: seq<Bar>, d: string, days: int, target: real): (r: FutureReturn)
    requires WellFormed(bars)
    ensures DateIndex(bars, d).None? ==> r == NoReturn
    ensures DateIndex(bars, d).Some? ==> r == ForwardCheck(bars, DateIndex(bars, d).value, days, target)
  {
    match DateIndex(bars, d)
    case None => NoReturn
    case Some(s) => ForwardCheck(bars, s, days, target)
  }

  /** A signal succeeds exactly when some row among the `days` rows after
      the signal row reaches a high of at least (1 + target) times the
      signal close; the comparison is inclusive. */
  lemma SuccessMeaning(bars: seq<Bar>, d: string, days: int, target: real)
    requires WellFormed(bars)
    ensures CheckFutureReturn(bars, d, days, target).success <==>
      DateIndex(bars, d).Some? &&
      var s := DateIndex(bars, d).value;
      exists j :: s < j < WindowEnd(bars, s, days) && bars[j].high - bars[s].close >= target * bars[s].close
  {
    if DateIndex(bars, d).Some? {
      var s := DateIndex(bars, d).value;
      var hi := WindowEnd(bars, s, days);
      var c := bars[s].close;
      if s + 1 < hi {
        var m := PeakRow(bars, s + 1, hi);
        if exists j :: s < j < hi && bars[j].high - c >= target * c {
          var j :| s < j < hi && bars[j].high - c >= target * c;
          assert bars[j].high <= bars[m].high;
        }
      }
    }
  }

  /** Rows beyond the forward window never change the outcome. */
  lemma FutureReturnIgnoresLaterRows(bars: seq<Bar>, later: seq<Bar>, d: string, days: int, target: real)
    requires WellFormed(bars + later)
    requires DateIndex(bars, d).Some?
    requires DateIndex(bars, d).value + days < |bars|
    ensures WellFormed(bars)
    ensures CheckFutureReturn(bars + later, d, days, target) == CheckFutureReturn(bars, d, days, target)
  {
    WellFormedPrefix(bars, later);
    DateIndexExtend(bars, later, d);
    var s := DateIndex(bars, d).value;
    var all := bars + later;
    assert WindowEnd(all, s, days) == WindowEnd(bars, s, days);
    var hi := WindowEnd(bars, s, days);
    assert forall j :: 0 <= j < |bars| ==> all[j] == bars[j];
    if s + 1 < hi {
      PeakRowAgree(all, bars, s + 1, hi);
    }
  }

  /** The peak row depends only on the rows inside its range. */
  lemma PeakRowAgree(a: seq<Bar>, b: seq<Bar>, lo: int, hi: int)
    requires 0 <= lo < hi <= |a| && hi <= |b|
    requires forall j :: lo <= j < hi ==> a[j] == b[j]
    ensures PeakRow(a, lo, hi) == PeakRow(b, lo, hi)
  {
  }
}
