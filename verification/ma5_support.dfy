/** Classifier A, "MA5 support": accumulation in bars [-60:-30], a clean
    shakeout (a shrink-drop bar in the last 20 bars and no volume spike in
    [-30:-1]), then a breakout with a pullback onto MA5. */
module Ma5Support {
  import opened Series
  import opened Scan
  import opened Indicators

  /** Red volume beats 1.5 times green volume over bars [-60:-30]. */
  predicate IsAccumulating(bars: seq<Bar>)
    requires |bars| >= 60
  {
    var w := bars[|bars| - 60 .. |bars| - 30];
    RedVolume(w) > GreenVolume(w) * 1.5
  }

  /** Row `i` makes a lower low on lower volume than the row before. Row 0
      compares against NaN and is never a shrink-drop. */
  predicate IsShrinkDrop(bars: seq<Bar>, i: int) {
    1 <= i < |bars| && bars[i].low < bars[i - 1].low && bars[i].volume < bars[i - 1].volume
  }

  /** Some bar of the last 20 is a shrink-drop. */
  function HadPanicShrink(bars: seq<Bar>): (b: bool)
    requires |bars| >= 20
    ensures b <==> exists i :: |bars| - 20 <= i < |bars| && IsShrinkDrop(bars, i)
  {
    var p := i => IsShrinkDrop(bars, i);
    assert forall i :: p(i) == IsShrinkDrop(bars, i);
    Count(|bars| - 20, |bars|, p) > 0
  }

  /** Mean volume of the 50 bars [-60:-10]. */
  function AvgVolLong(bars: seq<Bar>): (v: real)
    requires |bars| >= 60
    requires WellFormed(bars)
    ensures v > 0.0
  {
    var w := bars[|bars| - 60 .. |bars| - 10];
    assert forall j :: 0 <= j < |w| ==> w[j] == bars[|bars| - 60 + j];
    PositiveVolumeSum(w);
    TotalVolume(w) / 50.0
  }

  /** Some bar in [-30:-1] (today excluded) trades more than 2.5 times the
      long average volume. */
  function HasVolumeSpike(bars: seq<Bar>): (b: bool)
    requires |bars| >= 60
    requires WellFormed(bars)
    ensures b <==> exists i :: |bars| - 30 <= i < |bars| - 1 && bars[i].volume > AvgVolLong(bars) * 2.5
  {
    var limit := AvgVolLong(bars) * 2.5;
    var p := i => 0 <= i < |bars| && bars[i].volume > limit;
    assert forall i :: p(i) == (0 <= i < |bars| && bars[i].volume > limit);
    Count(|bars| - 30, |bars| - 1, p) > 0
  }

  predicate IsCleanShake(bars: seq<Bar>)
    requires |bars| >= 60
    requires WellFormed(bars)
  {
    !HasVolumeSpike(bars) && HadPanicShrink(bars)
  }

  /** A clean shakeout, unfolded: a shrink-drop bar in the last 20 bars, and
      every bar of [-30:-1] at most 2.5 times the long average volume. */
  lemma CleanShakeMeaning(bars: seq<Bar>)
    requires |bars| >= 60
    requires WellFormed(bars)
    ensures IsCleanShake(bars) <==>
      && (exists i :: |bars| - 20 <= i < |bars| && bars[i].low < bars[i - 1].low && bars[i].volume < bars[i - 1].volume)
      && (forall i :: |bars| - 30 <= i < |bars| - 1 ==> bars[i].volume <= 2.5 * AvgVolLong(bars))
  {
    if HadPanicShrink(bars) {
      var i :| |bars| - 20 <= i < |bars| && IsShrinkDrop(bars, i);
      assert bars[i].low < bars[i - 1].low && bars[i].volume < bars[i - 1].volume;
    }
    if exists i :: |bars| - 20 <= i < |bars| && bars[i].low < bars[i - 1].low && bars[i].volume < bars[i - 1].volume {
      var i :| |bars| - 20 <= i < |bars| && bars[i].low < bars[i - 1].low && bars[i].volume < bars[i - 1].volume;
      assert IsShrinkDrop(bars, i);
    }
  }

  /** At least two of the last ten bars gained 4% or more. */
  predicate HasBreakout(bars: seq<Bar>)
    requires |bars| >= 60
    requires WellFormed(bars)
  {
    BigGainDays(bars) >= 2
  }

  /** The classifier. No signal unless the series is accumulating and the
      shakeout was clean; then Breakout, Building or Consolidation. */
  function Analyze(bars: seq<Bar>): (r: Option<Stage>)
    requires WellFormed(bars)
    ensures |bars| < MinBars ==> r == None
    ensures |bars| >= MinBars ==> (r.Some? <==> IsAccumulating(bars) && IsCleanShake(bars))
    ensures r != Some(BreakoutKey) && r != Some(BreakoutCritical)
    ensures r == Some(Breakout) <==>
      |bars| >= MinBars && IsAccumulating(bars) && IsCleanShake(bars) && HasBreakout(bars) && IsPullback(bars)
    ensures r == Some(Building) <==>
      |bars| >= MinBars && IsAccumulating(bars) && IsCleanShake(bars) && !HasBreakout(bars)
    ensures r == Some(Consolidation) <==>
      |bars| >= MinBars && IsAccumulating(bars) && IsCleanShake(bars) && HasBreakout(bars) && !IsPullback(bars)
  {
    if |bars| < MinBars then None
    else
      var hadPanicShrink := HadPanicShrink(bars);
      var hasBreakout := HasBreakout(bars);
      if IsAccumulating(bars) && IsCleanShake(bars) then
        if hasBreakout && IsPullback(bars) then Some(Breakout)
        else if !hasBreakout && hadPanicShrink then Some(Building)
        else Some(Consolidation)
      else None
  }

  /** A window of [-60:-30] without a single red bar never accumulates;
      dojis do not help, since they count as green. */
  lemma NoRedNeverAccumulates(bars: seq<Bar>)
    requires |bars| >= 60
    requires WellFormed(bars)
    requires forall i :: |bars| - 60 <= i < |bars| - 30 ==> !IsRed(bars[i])
    ensures !IsAccumulating(bars)
  {
    var w := bars[|bars| - 60 .. |bars| - 30];
    assert forall k :: 0 <= k < |w| ==> w[k] == bars[|bars| - 60 + k];
    NoRedNoRedVolume(w);
    SumNonNegative(w, GreenVolumeOf);
  }

  /** Breakout is reported exactly when, after the accumulation and shakeout
      gates, two 4% days in the last ten bars meet a pullback on the last
      bar that closes above the close five bars back. */
  lemma BreakoutMeaning(bars: seq<Bar>)
    requires WellFormed(bars)
    requires |bars| >= MinBars
    ensures Analyze(bars) == Some(Breakout) <==>
      && IsAccumulating(bars) && IsCleanShake(bars)
      && (exists i, j :: |bars| - 10 <= i < j < |bars| && IsBigGain(bars, 4.0, i) && IsBigGain(bars, 4.0, j))
      && bars[|bars| - 1].volume < bars[|bars| - 2].volume
      && bars[|bars| - 1].close > bars[|bars| - 6].close
      && MA(bars, 5, |bars| - 1) <= bars[|bars| - 1].close
      && bars[|bars| - 1].low <= MA(bars, 5, |bars| - 1) * 1.015
  {
    PullbackMeaning(bars);
  }
}
