/** Classifier B, "volume breakout": accumulation in bars [-60:-20], then a
    4% breakout day in the last ten bars, refined by the pullback test on
    the last bar and by the key-breakout pattern found by a first-match scan
    of the previous 30 bars. It has no consolidation stage. */
module VolumeBreakout {
  import opened Series
  import opened Scan
  import opened Indicators

  /** Red volume beats 1.5 times green volume over bars [-60:-20]. */
  predicate IsAccumulating(bars: seq<Bar>)
    requires |bars| >= 60
  {
    var w := bars[|bars| - 60 .. |bars| - 20];
    RedVolume(w) > GreenVolume(w) * 1.5
  }

  /** A bar's own open-to-close change in percent. */
  function IntradayChange(b: Bar): real
    requires b.open > 0.0
  {
    (b.close - b.open) / b.open * 100.0
  }

  /** Row `i` undercuts the previous low, and the previous bar rose from its
      own open to its close. */
  predicate IsKeyBreakoutAt(bars: seq<Bar>, i: int)
    requires WellFormed(bars)
  {
    1 <= i < |bars| && bars[i].low < bars[i - 1].low && IntradayChange(bars[i - 1]) > 0.0
  }

  /** The scan over offsets -30 .. -2, oldest first, stopping at the first
      key-breakout row. The row found is where the source records the
      breakout date; only whether one was found affects the stage. */
  function KeyBreakoutScan(bars: seq<Bar>): (r: Option<int>)
    requires |bars| >= 60
    requires WellFormed(bars)
    ensures r.Some? ==> |bars| - 30 <= r.value < |bars| - 1 && IsKeyBreakoutAt(bars, r.value)
    ensures r.Some? ==> forall j :: |bars| - 30 <= j < r.value ==> !IsKeyBreakoutAt(bars, j)
    ensures r.None? <==> forall j :: |bars| - 30 <= j < |bars| - 1 ==> !IsKeyBreakoutAt(bars, j)
  {
    var p := i => IsKeyBreakoutAt(bars, i);
    assert forall i :: p(i) == IsKeyBreakoutAt(bars, i);
    First(|bars| - 30, |bars| - 1, p)
  }

  predicate IsKeyBreakout(bars: seq<Bar>)
    requires |bars| >= 60
    requires WellFormed(bars)
  {
    KeyBreakoutScan(bars).Some?
  }

  /** The key-breakout pattern, unfolded: some row among offsets -30 .. -2
      makes a lower low right after a red candle. The prior bar's rise is its
      open-to-close move, not its percent change against the close before. */
  lemma KeyBreakoutMeaning(bars: seq<Bar>)
    requires |bars| >= 60
    requires WellFormed(bars)
    ensures IsKeyBreakout(bars) <==>
      exists i :: |bars| - 30 <= i < |bars| - 1 && bars[i].low < bars[i - 1].low && IsRed(bars[i - 1])
  {
    forall i | |bars| - 30 <= i < |bars| - 1
      ensures IsKeyBreakoutAt(bars, i) <==> bars[i].low < bars[i - 1].low && IsRed(bars[i - 1])
    {
      var b := bars[i - 1];
      PercentBounds(b.close - b.open, b.open, 0.0);
    }
    if IsKeyBreakout(bars) {
      var i := KeyBreakoutScan(bars).value;
      assert bars[i].low < bars[i - 1].low && IsRed(bars[i - 1]);
    }
  }

  /** At least one of the last ten bars gained 4% or more. */
  predicate HasBreakout(bars: seq<Bar>)
    requires |bars| >= 60
    requires WellFormed(bars)
  {
    BigGainDays(bars) >= 1
  }

  /** The classifier. No signal without accumulation and a breakout day;
      then BreakoutKey, Breakout or Building. */
  function Analyze(bars: seq<Bar>): (r: Option<Stage>)
    requires WellFormed(bars)
    ensures |bars| < MinBars ==> r == None
    ensures r.Some? ==> |bars| >= MinBars && IsAccumulating(bars) && HasBreakout(bars)
    ensures r != Some(Consolidation) && r != Some(BreakoutCritical)
    ensures r == Some(BreakoutKey) <==>
      |bars| >= MinBars && IsAccumulating(bars) && HasBreakout(bars) && IsPullback(bars) && IsKeyBreakout(bars)
    ensures r == Some(Breakout) <==>
      |bars| >= MinBars && IsAccumulating(bars) && HasBreakout(bars) && IsPullback(bars) && !IsKeyBreakout(bars)
    ensures r == Some(Building) <==>
      |bars| >= MinBars && IsAccumulating(bars) && HasBreakout(bars) && !IsPullback(bars)
  {
    if |bars| < MinBars then None
    else if !IsAccumulating(bars) then None
    else
      var isKeyBreakout := IsKeyBreakout(bars);
      var hasBreakout := HasBreakout(bars);
      var isPullback := IsPullback(bars);
      if hasBreakout && isPullback then
        if isKeyBreakout then Some(BreakoutKey) else Some(Breakout)
      else if hasBreakout then Some(Building)
      else None
  }

  /** Without a 4% day in the last ten bars there is never a signal, however
      strong the accumulation. */
  lemma NoBreakoutDayNoSignal(bars: seq<Bar>)
    requires WellFormed(bars)
    requires |bars| >= MinBars
    requires forall i :: |bars| - 10 <= i < |bars| ==> bars[i].close * 100.0 < bars[i - 1].close * 104.0
    ensures Analyze(bars) == None
  {
    forall i | |bars| - 10 <= i < |bars|
      ensures !IsBigGain(bars, 4.0, i)
    {
      BigGainMeaning(bars, 4.0, i);
    }
    assert BigGainDays(bars) < 1;
    assert !HasBreakout(bars);
  }

  /** An all-red accumulation window with positive volume always passes the
      accumulation gate: it has no green volume at all. */
  lemma AllRedAccumulates(bars: seq<Bar>)
    requires |bars| >= 60
    requires WellFormed(bars)
    requires forall i :: |bars| - 60 <= i < |bars| - 20 ==> IsRed(bars[i])
    ensures IsAccumulating(bars)
  {
    var w := bars[|bars| - 60 .. |bars| - 20];
    assert forall k :: 0 <= k < |w| ==> w[k] == bars[|bars| - 60 + k];
    AllRedNoGreenVolume(w);
    PositiveVolumeSum(w);
    VolumePartition(w);
  }
}
