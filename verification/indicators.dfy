/** Rolling indicators and window statistics shared by the classifiers:
    moving averages of close and volume, the percent change of close, the
    red/green volume split of an accumulation window, and the pullback-onto-MA5
    test the MA5-support and volume-breakout classifiers both apply to the
    last bar. */
module Indicators {
  import opened Series
  import opened Scan

  function Close(b: Bar): real { b.close }

  function Volume(b: Bar): real { b.volume }

  /** A "green" candle in the source's split: close at or below open, so a
      doji is green. */
  predicate IsGreen(b: Bar) {
    b.close <= b.open
  }

  function RedVolumeOf(b: Bar): real { if IsRed(b) then b.volume else 0.0 }

  function GreenVolumeOf(b: Bar): real { if IsGreen(b) then b.volume else 0.0 }

  function TotalVolume(w: seq<Bar>): real { Sum(w, Volume) }

  function RedVolume(w: seq<Bar>): real { Sum(w, RedVolumeOf) }

  function GreenVolume(w: seq<Bar>): real { Sum(w, GreenVolumeOf) }

  function RedCount(w: seq<Bar>): nat { CountOf(w, IsRed) }

  function GreenCount(w: seq<Bar>): nat { CountOf(w, IsGreen) }

  /** Every bar of a window is red or green, never both. */
  lemma VolumePartition(w: seq<Bar>)
    ensures RedVolume(w) + GreenVolume(w) == TotalVolume(w)
    ensures RedCount(w) + GreenCount(w) == |w|
  {
    SumSplit(w, RedVolumeOf, GreenVolumeOf, Volume);
    CountComplement(w, IsRed, IsGreen);
  }

  /** A window without a single red bar (dojis included) has no red volume. */
  lemma {:induction false} NoRedNoRedVolume(w: seq<Bar>)
    requires forall k :: 0 <= k < |w| ==> !IsRed(w[k])
    ensures RedVolume(w) == 0.0
    decreases |w|
  {
    if |w| > 0 {
      assert forall k :: 0 <= k < |w[1..]| ==> w[1..][k] == w[k + 1];
      NoRedNoRedVolume(w[1..]);
    }
  }

  /** A window of red bars only has no green volume. */
  lemma {:induction false} AllRedNoGreenVolume(w: seq<Bar>)
    requires forall k :: 0 <= k < |w| ==> IsRed(w[k])
    ensures GreenVolume(w) == 0.0
    decreases |w|
  {
    if |w| > 0 {
      assert forall k :: 0 <= k < |w[1..]| ==> w[1..][k] == w[k + 1];
      AllRedNoGreenVolume(w[1..]);
    }
  }

  lemma {:induction false} PositiveVolumeSum(w: seq<Bar>)
    requires |w| > 0
    requires forall k :: 0 <= k < |w| ==> w[k].volume > 0.0
    ensures TotalVolume(w) > 0.0
    decreases |w|
  {
    if |w| == 1 {
      assert Sum(w[1..], Volume) == 0.0;
    } else {
      assert forall k :: 0 <= k < |w[1..]| ==> w[1..][k] == w[k + 1];
      PositiveVolumeSum(w[1..]);
    }
  }

  /** Comparing a quotient with a bound is comparing the numerator with the
      bound scaled by the positive divisor. */
  lemma DivBounds(x: real, d: real, t: real)
    requires d > 0.0
    ensures x / d * d == x
    ensures x / d < t <==> x < t * d
    ensures x / d > t <==> x > t * d
    ensures x / d >= t <==> x >= t * d
  {
    var q := x / d;
    assert q * d == x;
    if q < t {
      assert q * d < t * d;
    }
    if q > t {
      assert q * d > t * d;
    }
  }

  /** The same for a quotient scaled to percent: `x / d * 100` against a
      bound `t` is `x * 100` against `t * d`. */
  lemma PercentBounds(x: real, d: real, t: real)
    requires d > 0.0
    ensures x / d * 100.0 < t <==> x * 100.0 < t * d
    ensures x / d * 100.0 > t <==> x * 100.0 > t * d
    ensures x / d * 100.0 >= t <==> x * 100.0 >= t * d
  {
    var q := x / d;
    assert q * d == x;
    assert q * 100.0 * d == x * 100.0;
    DivBounds(x * 100.0, d, t);
    assert x * 100.0 / d == q * 100.0;
  }

  /** Simple moving average of close over the `k` bars ending at index `i`
      (pandas `close.rolling(k).mean()` at row `i`). */
  function MA(bars: seq<Bar>, k: nat, i: int): real
    requires 1 <= k && k - 1 <= i < |bars|
  {
    Sum(bars[i - k + 1 .. i + 1], Close) / (k as real)
  }

  /** Moving average of volume over the `k` bars ending at index `i`; with
      positive volumes it is positive, so dividing by it is safe. */
  function VolMA(bars: seq<Bar>, k: nat, i: int): (v: real)
    requires WellFormed(bars)
    requires 1 <= k && k - 1 <= i < |bars|
    ensures v > 0.0
  {
    var w := bars[i - k + 1 .. i + 1];
    assert forall j :: 0 <= j < |w| ==> w[j] == bars[i - k + 1 + j];
    PositiveVolumeSum(w);
    TotalVolume(w) / (k as real)
  }

  /** Percent change of close against the previous bar (pandas
      `close.pct_change() * 100` at row `i`). */
  function PctChg(bars: seq<Bar>, i: int): real
    requires WellFormed(bars)
    requires 1 <= i < |bars|
  {
    (bars[i].close - bars[i - 1].close) / bars[i - 1].close * 100.0
  }

  /** Row `i` counts as a breakout day: its percent change is at least `t`.
      Row 0 has no predecessor; its percent change is NaN and NaN compares
      false, so it never counts. */
  predicate IsBigGain(bars: seq<Bar>, t: real, i: int)
    requires WellFormed(bars)
  {
    1 <= i < |bars| && PctChg(bars, i) >= t
  }

  /** A percent change of at least `t` means close rose by at least `t`% of
      the previous close. */
  lemma BigGainMeaning(bars: seq<Bar>, t: real, i: int)
    requires WellFormed(bars)
    requires 1 <= i < |bars|
    ensures IsBigGain(bars, t, i) <==> bars[i].close * 100.0 >= bars[i - 1].close * (100.0 + t)
  {
    var p := bars[i - 1].close;
    var c := bars[i].close;
    PercentBounds(c - p, p, t);
  }

  /** Breakout days (percent change at least 4) among the last ten bars. */
  function BigGainDays(bars: seq<Bar>): (c: nat)
    requires WellFormed(bars)
    requires |bars| >= 10
    ensures c <= 10
    ensures c >= 1 <==> exists i :: |bars| - 10 <= i < |bars| && IsBigGain(bars, 4.0, i)
    ensures c >= 2 <==>
      exists i, j :: |bars| - 10 <= i < j < |bars| && IsBigGain(bars, 4.0, i) && IsBigGain(bars, 4.0, j)
  {
    var p := i => IsBigGain(bars, 4.0, i);
    assert forall i :: p(i) == IsBigGain(bars, 4.0, i);
    CountAtLeastTwo(|bars| - 10, |bars|, p);
    Count(|bars| - 10, |bars|, p)
  }

  /** MA5 rises from the previous bar exactly when today's close beats the
      close five bars back: the two windows share their middle four closes. */
  lemma Ma5RisesIff(bars: seq<Bar>)
    requires |bars| >= 6
    ensures MA(bars, 5, |bars| - 1) > MA(bars, 5, |bars| - 2) <==> bars[|bars| - 1].close > bars[|bars| - 6].close
  {
    var n := |bars|;
    var mid := bars[n - 5 .. n - 1];
    assert bars[n - 5 .. n] == mid + [bars[n - 1]];
    assert bars[n - 6 .. n - 1] == [bars[n - 6]] + mid;
    SumAppend(mid, [bars[n - 1]], Close);
    SumAppend([bars[n - 6]], mid, Close);
  }

  /** The pullback test on the last bar against the one before it: volume
      shrinks, the close holds at or above MA5 while the low dips to within
      1.5% above it, and MA5 is rising. */
  predicate IsPullback(bars: seq<Bar>)
    requires |bars| >= 6
  {
    var n := |bars|;
    var ma5 := MA(bars, 5, n - 1);
    var isShrinking := bars[n - 1].volume < bars[n - 2].volume;
    var onMa5 := bars[n - 1].close >= ma5 && bars[n - 1].low <= ma5 * 1.015;
    var ma5TrendingUp := ma5 > MA(bars, 5, n - 2);
    isShrinking && onMa5 && ma5TrendingUp
  }

  /** The pullback test restated without the previous MA5: the rising-MA5
      condition is today's close beating the close five bars back. */
  lemma PullbackMeaning(bars: seq<Bar>)
    requires |bars| >= 6
    ensures IsPullback(bars) <==>
      var n := |bars|;
      && bars[n - 1].volume < bars[n - 2].volume
      && bars[n - 1].close > bars[n - 6].close
      && MA(bars, 5, n - 1) <= bars[n - 1].close
      && bars[n - 1].low <= MA(bars, 5, n - 1) * 1.015
  {
    Ma5RisesIff(bars);
  }
}
