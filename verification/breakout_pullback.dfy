/** Classifier C, "breakout pullback": a red-dominated accumulation window
    [-60:-20] (by volume and by count), a moderate five-day volume expansion,
    and a first-match scan for three rising candles followed by a shrinking
    crash day, escalated by a recovery within three days and by a recent
    break below the triple's last low. */
module BreakoutPullback {
  import opened Series
  import opened Scan
  import opened Indicators

  /** Red volume beats 1.3 times green volume over [-60:-20], and red days
      are at least as many as green days there. */
  predicate IsAccumulating(bars: seq<Bar>)
    requires |bars| >= 60
  {
    var w := bars[|bars| - 60 .. |bars| - 20];
    RedVolume(w) > GreenVolume(w) * 1.3 && RedCount(w) >= GreenCount(w)
  }

  /** Passing the accumulation gate needs at least 20 red days among the 40
      bars of the window. */
  lemma AccumulationNeedsHalfRed(bars: seq<Bar>)
    requires |bars| >= 60
    requires IsAccumulating(bars)
    ensures RedCount(bars[|bars| - 60 .. |bars| - 20]) >= 20
  {
    VolumePartition(bars[|bars| - 60 .. |bars| - 20]);
  }

  /** Bars of the last five whose volume is above their own 20-bar average
      volume. */
  function VolumeAboveMa20(bars: seq<Bar>): (c: nat)
    requires |bars| >= 60
    requires WellFormed(bars)
    ensures c <= 5
  {
    Count(|bars| - 5, |bars|, j => 19 <= j < |bars| && bars[j].volume > VolMA(bars, 20, j))
  }

  function VolumeRatio(bars: seq<Bar>, j: int): real
    requires WellFormed(bars)
    requires 19 <= j < |bars|
  {
    bars[j].volume / VolMA(bars, 20, j)
  }

  /** The largest volume / MA20-volume ratio over the last five bars. */
  function MaxVolumeRatio(bars: seq<Bar>): (m: real)
    requires |bars| >= 60
    requires WellFormed(bars)
    ensures exists j :: |bars| - 5 <= j < |bars| && m == VolumeRatio(bars, j)
    ensures forall j :: |bars| - 5 <= j < |bars| ==> VolumeRatio(bars, j) <= m
  {
    var f := j => if 19 <= j < |bars| then VolumeRatio(bars, j) else 0.0;
    assert forall j :: 19 <= j < |bars| ==> f(j) == VolumeRatio(bars, j);
    var k := ArgMax(|bars| - 5, |bars|, f);
    f(k)
  }

  /** At least three of the last five bars expand volume, and none of them
      reaches three times its 20-bar average volume. */
  predicate VolumeOk(bars: seq<Bar>)
    requires |bars| >= 60
    requires WellFormed(bars)
  {
    var hasVolumeExpansion := VolumeAboveMa20(bars) >= 3;
    var isModerateVolume := MaxVolumeRatio(bars) < 3.0;
    hasVolumeExpansion && isModerateVolume
  }

  /** The maximum-ratio test is a bound on every one of the five bars. */
  lemma VolumeOkMeaning(bars: seq<Bar>)
    requires |bars| >= 60
    requires WellFormed(bars)
    ensures VolumeOk(bars) <==>
      VolumeAboveMa20(bars) >= 3 &&
      forall j :: |bars| - 5 <= j < |bars| ==> bars[j].volume < 3.0 * VolMA(bars, 20, j)
  {
    forall j | |bars| - 5 <= j < |bars|
      ensures VolumeRatio(bars, j) < 3.0 <==> bars[j].volume < 3.0 * VolMA(bars, 20, j)
    {
      var a := VolMA(bars, 20, j);
      DivBounds(bars[j].volume, a, 3.0);
    }
  }

  /** Number of red candles among the three starting at `i`. */
  function RisingCount(bars: seq<Bar>, i: int): nat
    requires 0 <= i && i + 2 < |bars|
  {
    (if IsRed(bars[i]) then 1 else 0) + (if IsRed(bars[i + 1]) then 1 else 0) + (if IsRed(bars[i + 2]) then 1 else 0)
  }

  /** Gain in percent from the first candle's open to the third's close. */
  function TotalGain(bars: seq<Bar>, i: int): real
    requires WellFormed(bars)
    requires 0 <= i && i + 2 < |bars|
  {
    (bars[i + 2].close - bars[i].open) / bars[i].open * 100.0
  }

  /** The triple starting at `i` is "three rising": two or more red candles
      and a gain above 3% over the three days. */
  predicate IsThreeRising(bars: seq<Bar>, i: int)
    requires WellFormed(bars)
  {
    0 <= i && i + 2 < |bars| && RisingCount(bars, i) >= 2 && TotalGain(bars, i) > 3.0
  }

  /** Three rising, unfolded: the triple's red count as a window count, and
      the gain as a bound on the third close. */
  lemma ThreeRisingMeaning(bars: seq<Bar>, i: int)
    requires WellFormed(bars)
    requires 0 <= i && i + 2 < |bars|
    ensures IsThreeRising(bars, i) <==>
      RedCount(bars[i .. i + 3]) >= 2 && bars[i + 2].close * 100.0 > bars[i].open * 103.0
  {
    var w := bars[i .. i + 3];
    assert w[0] == bars[i] && w[1..][0] == bars[i + 1] && w[1..][1..][0] == bars[i + 2];
    assert CountOf(w[1..][1..][1..], IsRed) == 0;
    assert CountOf(w[1..][1..], IsRed) == (if IsRed(bars[i + 2]) then 1 else 0);
    assert CountOf(w[1..], IsRed) == (if IsRed(bars[i + 1]) then 1 else 0) + (if IsRed(bars[i + 2]) then 1 else 0);
    assert RedCount(w) == RisingCount(bars, i);
    var o := bars[i].open;
    var c := bars[i + 2].close;
    PercentBounds(c - o, o, 3.0);
  }

  /** The day after the triple starting at `i` is a crash: a falling candle
      that undercuts the third day's low on less than 0.8 times the triple's
      mean volume, dropping strictly between 3% and 7% from its open. */
  predicate IsCrash(bars: seq<Bar>, i: int)
    requires WellFormed(bars)
    requires 0 <= i && i + 3 < |bars|
  {
    var day3 := bars[i + 2];
    var crashDay := bars[i + 3];
    var isFalling := crashDay.close < crashDay.open;
    var breakLow := crashDay.low < day3.low;
    var avgVol3d := (bars[i].volume + bars[i + 1].volume + day3.volume) / 3.0;
    var isShrinking := crashDay.volume < avgVol3d * 0.8;
    var dropPct := (crashDay.close - crashDay.open) / crashDay.open * 100.0;
    var isBigDrop := -7.0 < dropPct < -3.0;
    isFalling && breakLow && isShrinking && isBigDrop
  }

  /** The crash test as bounds on the crash day's close: the falling-candle
      conjunct is implied by the drop band. */
  lemma CrashMeaning(bars: seq<Bar>, i: int)
    requires WellFormed(bars)
    requires 0 <= i && i + 3 < |bars|
    ensures IsCrash(bars, i) <==>
      var c := bars[i + 3];
      && c.low < bars[i + 2].low
      && c.volume * 15.0 < (bars[i].volume + bars[i + 1].volume + bars[i + 2].volume) * 4.0
      && c.open * 0.93 < c.close < c.open * 0.97
  {
    var c := bars[i + 3];
    var o := c.open;
    PercentBounds(c.close - o, o, -3.0);
    PercentBounds(c.close - o, o, -7.0);
  }

  /** After a crash on the day following the triple at `i`, one of the next
      three closes beats the crash close by more than 2%. The check runs only
      when the triple starts at offset -7 or earlier, so a triple at -6 .. -4
      never recovers even when some of those days exist. */
  function IsRecovered(bars: seq<Bar>, i: int): (b: bool)
    requires 0 <= i && i + 3 < |bars|
    ensures b <==> i + 6 < |bars| && exists j :: i + 4 <= j < i + 7 && bars[j].close > bars[i + 3].close * 1.02
  {
    if i + 6 < |bars| then
      var crashClose := bars[i + 3].close;
      var p := j => 0 <= j < |bars| && bars[j].close > crashClose * 1.02;
      assert forall j :: p(j) == (0 <= j < |bars| && bars[j].close > crashClose * 1.02);
      Count(i + 4, Min(i + 7, |bars|), p) > 0
    else
      false
  }

  /** Some bar of the last five undercuts `lastLow` and closes below its
      open. */
  function KeySignal(bars: seq<Bar>, lastLow: real): (b: bool)
    requires |bars| >= 5
    ensures b <==> exists j :: |bars| - 5 <= j < |bars| && bars[j].low < lastLow && IsBearish(bars[j])
  {
    var p := j => 0 <= j < |bars| && bars[j].low < lastLow && IsBearish(bars[j]);
    assert forall j :: p(j) == (0 <= j < |bars| && bars[j].low < lastLow && IsBearish(bars[j]));
    Count(|bars| - 5, |bars|, p) > 0
  }

  /** A three-rising triple at `i` followed by a crash day: the only kind of
      triple that ends the scan. */
  predicate IsCrashTriple(bars: seq<Bar>, i: int)
    requires WellFormed(bars)
  {
    IsThreeRising(bars, i) && i + 3 < |bars| && IsCrash(bars, i)
  }

  /** What the triple scan records: whether a three-rising triple was seen,
      whether a crash followed one, whether that crash recovered, and the
      third-day low of the last triple seen. */
  datatype TripleState = TripleState(hasThreeRising: bool, hasCrash: bool, crashRecovered: bool, lastLow: Option<real>)

  /** The scan loop from start index `i` on, as written: every three-rising
      triple marks the state and overwrites the recorded low, and only a
      triple followed by a crash ends the loop, after the recovery check. */
  function ScanFrom(bars: seq<Bar>, i: int, st: TripleState): TripleState
    requires WellFormed(bars)
    requires 0 <= i <= |bars| - 3
    decreases |bars| - 3 - i
  {
    if i == |bars| - 3 then st
    else if IsThreeRising(bars, i) then
      var seen := st.(hasThreeRising := true, lastLow := Some(bars[i + 2].low));
      if IsCrash(bars, i) then seen.(hasCrash := true, crashRecovered := IsRecovered(bars, i))
      else ScanFrom(bars, i + 1, seen)
    else ScanFrom(bars, i + 1, st)
  }

  /** The scan ends at the first crash triple `c` at or after `i`, whatever
      three-rising triples without a crash come before it, and the final
      state is decided by `c` alone. */
  lemma {:induction false} ScanFromStopsAtCrash(bars: seq<Bar>, i: int, st: TripleState, c: int)
    requires WellFormed(bars)
    requires 0 <= i <= c < |bars| - 3
    requires IsCrashTriple(bars, c)
    requires forall j :: i <= j < c ==> !IsCrashTriple(bars, j)
    ensures ScanFrom(bars, i, st) == TripleState(true, true, IsRecovered(bars, c), Some(bars[c + 2].low))
    decreases c - i
  {
    if i < c {
      assert !IsCrashTriple(bars, i);
      if IsThreeRising(bars, i) {
        ScanFromStopsAtCrash(bars, i + 1, st.(hasThreeRising := true, lastLow := Some(bars[i + 2].low)), c);
      } else {
        ScanFromStopsAtCrash(bars, i + 1, st, c);
      }
    }
  }

  /** The triple at `l` qualifies and no later start before offset -3 does. */
  predicate IsLastThreeRising(bars: seq<Bar>, l: int)
    requires WellFormed(bars)
  {
    IsThreeRising(bars, l) && forall j :: l < j < |bars| - 3 ==> !IsThreeRising(bars, j)
  }

  /** Without a crash triple the scan runs to the end: the crash flags are
      left as they were, a three-rising triple is seen iff one exists, and
      the recorded low is the third-day low of the last such triple. */
  lemma {:induction false} ScanFromWithoutCrash(bars: seq<Bar>, i: int, st: TripleState)
    requires WellFormed(bars)
    requires 0 <= i <= |bars| - 3
    requires forall j :: i <= j < |bars| - 3 ==> !IsCrashTriple(bars, j)
    ensures ScanFrom(bars, i, st).hasCrash == st.hasCrash
    ensures ScanFrom(bars, i, st).crashRecovered == st.crashRecovered
    ensures ScanFrom(bars, i, st).hasThreeRising <==>
      st.hasThreeRising || exists j :: i <= j < |bars| - 3 && IsThreeRising(bars, j)
    ensures (forall j :: i <= j < |bars| - 3 ==> !IsThreeRising(bars, j)) ==>
      ScanFrom(bars, i, st).lastLow == st.lastLow
    ensures forall l :: i <= l < |bars| - 3 && IsLastThreeRising(bars, l) ==>
      ScanFrom(bars, i, st).lastLow == Some(bars[l + 2].low)
    decreases |bars| - 3 - i
  {
    if i < |bars| - 3 {
      var next := if IsThreeRising(bars, i) then st.(hasThreeRising := true, lastLow := Some(bars[i + 2].low)) else st;
      assert !IsCrashTriple(bars, i);
      assert ScanFrom(bars, i, st) == ScanFrom(bars, i + 1, next);
      ScanFromWithoutCrash(bars, i + 1, next);
    }
  }

  /** The scan over start offsets -20 .. -4, from the initial state. */
  function TripleLoop(bars: seq<Bar>): TripleState
    requires |bars| >= 60
    requires WellFormed(bars)
  {
    ScanFrom(bars, |bars| - 20, TripleState(false, false, false, None))
  }

  /** The first start in -20 .. -4 whose triple is followed by a crash. */
  function CrashScan(bars: seq<Bar>): (r: Option<int>)
    requires |bars| >= 60
    requires WellFormed(bars)
    ensures r.Some? ==> |bars| - 20 <= r.value < |bars| - 3 && IsCrashTriple(bars, r.value)
    ensures r.Some? ==> forall j :: |bars| - 20 <= j < r.value ==> !IsCrashTriple(bars, j)
    ensures r.None? <==> forall j :: |bars| - 20 <= j < |bars| - 3 ==> !IsCrashTriple(bars, j)
  {
    var p := i => IsCrashTriple(bars, i);
    assert forall i :: p(i) == IsCrashTriple(bars, i);
    First(|bars| - 20, |bars| - 3, p)
  }

  /** A qualifying triple at `j` means there is a last one at or after it. */
  lemma {:induction false} LastTriple(bars: seq<Bar>, j: int)
    requires WellFormed(bars)
    requires j < |bars| - 3 && IsThreeRising(bars, j)
    ensures exists l :: j <= l < |bars| - 3 && IsLastThreeRising(bars, l)
    decreases |bars| - 3 - j
  {
    if exists k :: j < k < |bars| - 3 && IsThreeRising(bars, k) {
      var k :| j < k < |bars| - 3 && IsThreeRising(bars, k);
      LastTriple(bars, k);
    } else {
      assert IsLastThreeRising(bars, j);
    }
  }

  /** With no crash triple, the loop records no crash, sees a triple iff one
      qualifies, and keeps the third-day low of the last qualifying one. */
  lemma TripleLoopWithoutCrash(bars: seq<Bar>)
    requires |bars| >= 60
    requires WellFormed(bars)
    requires CrashScan(bars).None?
    ensures !TripleLoop(bars).hasCrash && !TripleLoop(bars).crashRecovered
    ensures TripleLoop(bars).hasThreeRising <==>
      exists j :: |bars| - 20 <= j < |bars| - 3 && IsThreeRising(bars, j)
    ensures TripleLoop(bars).lastLow.Some? <==> TripleLoop(bars).hasThreeRising
    ensures forall l :: |bars| - 20 <= l < |bars| - 3 && IsLastThreeRising(bars, l) ==>
      TripleLoop(bars).lastLow == Some(bars[l + 2].low)
  {
    ScanFromWithoutCrash(bars, |bars| - 20, TripleState(false, false, false, None));
    if exists j :: |bars| - 20 <= j < |bars| - 3 && IsThreeRising(bars, j) {
      var j :| |bars| - 20 <= j < |bars| - 3 && IsThreeRising(bars, j);
      LastTriple(bars, j);
    }
  }

  /** The loop's final state, declaratively: a triple is seen iff some start
      qualifies; a crash is recorded iff some qualifying triple is followed by
      one, and then the recovery and the recorded low belong to the first
      such triple; with no crash, the recorded low is the last qualifying
      triple's. */
  lemma TripleLoopMeaning(bars: seq<Bar>)
    requires |bars| >= 60
    requires WellFormed(bars)
    ensures TripleLoop(bars).hasThreeRising <==>
      exists j :: |bars| - 20 <= j < |bars| - 3 && IsThreeRising(bars, j)
    ensures TripleLoop(bars).hasCrash <==> CrashScan(bars).Some?
    ensures TripleLoop(bars).lastLow.Some? <==> TripleLoop(bars).hasThreeRising
    ensures CrashScan(bars).Some? ==>
      TripleLoop(bars) == TripleState(true, true, IsRecovered(bars, CrashScan(bars).value), Some(bars[CrashScan(bars).value + 2].low))
    ensures CrashScan(bars).None? ==> !TripleLoop(bars).crashRecovered
    ensures CrashScan(bars).None? ==>
      forall l :: |bars| - 20 <= l < |bars| - 3 && IsLastThreeRising(bars, l) ==>
        TripleLoop(bars).lastLow == Some(bars[l + 2].low)
  {
    match CrashScan(bars)
    case Some(c) =>
      ScanFromStopsAtCrash(bars, |bars| - 20, TripleState(false, false, false, None), c);
      assert |bars| - 20 <= c < |bars| - 3 && IsThreeRising(bars, c);
    case None =>
      TripleLoopWithoutCrash(bars);
  }

  /** Some start in -20 .. -4 qualifies as three rising. */
  predicate HasThreeRising(bars: seq<Bar>)
    requires |bars| >= 60
    requires WellFormed(bars)
  {
    TripleLoop(bars).hasThreeRising
  }

  predicate HasCrash(bars: seq<Bar>)
    requires |bars| >= 60
    requires WellFormed(bars)
  {
    TripleLoop(bars).hasCrash
  }

  predicate CrashRecovered(bars: seq<Bar>)
    requires |bars| >= 60
    requires WellFormed(bars)
  {
    TripleLoop(bars).crashRecovered
  }

  /** The recorded third-day low is broken by a falling bar in the last five
      bars. */
  predicate IsKeySignal(bars: seq<Bar>)
    requires |bars| >= 60
    requires WellFormed(bars)
  {
    var st := TripleLoop(bars);
    st.hasThreeRising && st.lastLow.Some? && KeySignal(bars, st.lastLow.value)
  }

  /** The key signal on the first crash triple `c`: the triple's third-day
      low is broken by a falling bar in the last five bars. */
  predicate KeyAfterCrash(bars: seq<Bar>, c: int)
    requires 0 <= c && c + 2 < |bars| && |bars| >= 5
  {
    KeySignal(bars, bars[c + 2].low)
  }

  /** The classifier. No signal without accumulation; with it, always a
      stage, by priority: Critical, Key, Breakout (all needing a crash after
      some qualifying triple, and read from the first such triple), then
      Building, then Consolidation. */
  function Analyze(bars: seq<Bar>): (r: Option<Stage>)
    requires WellFormed(bars)
    ensures |bars| < MinBars ==> r == None
    ensures |bars| >= MinBars ==> (r.None? <==> !IsAccumulating(bars))
    ensures r == Some(BreakoutCritical) <==>
      && |bars| >= MinBars && IsAccumulating(bars) && CrashScan(bars).Some?
      && KeyAfterCrash(bars, CrashScan(bars).value)
    ensures r == Some(BreakoutKey) <==>
      && |bars| >= MinBars && IsAccumulating(bars) && CrashScan(bars).Some?
      && !KeyAfterCrash(bars, CrashScan(bars).value) && IsRecovered(bars, CrashScan(bars).value)
    ensures r == Some(Breakout) <==>
      && |bars| >= MinBars && IsAccumulating(bars) && CrashScan(bars).Some?
      && !KeyAfterCrash(bars, CrashScan(bars).value) && !IsRecovered(bars, CrashScan(bars).value)
    ensures r == Some(Building) <==>
      && |bars| >= MinBars && IsAccumulating(bars) && CrashScan(bars).None? && VolumeOk(bars)
      && exists j :: |bars| - 20 <= j < |bars| - 3 && IsThreeRising(bars, j)
    ensures r == Some(Consolidation) <==>
      && |bars| >= MinBars && IsAccumulating(bars) && CrashScan(bars).None?
      && !(VolumeOk(bars) && exists j :: |bars| - 20 <= j < |bars| - 3 && IsThreeRising(bars, j))
  {
    if |bars| < MinBars then None
    else
      var isAccumulating := IsAccumulating(bars);
      if !isAccumulating then None
      else
        TripleLoopMeaning(bars);
        var volumeOk := VolumeOk(bars);
        var hasThreeRising := HasThreeRising(bars);
        var hasCrash := HasCrash(bars);
        var crashRecovered := CrashRecovered(bars);
        var isKeySignal := IsKeySignal(bars);
        if hasThreeRising && hasCrash then
          if isKeySignal then Some(BreakoutCritical)
          else if crashRecovered then Some(BreakoutKey)
          else Some(Breakout)
        else if volumeOk && hasThreeRising then Some(Building)
        else if isAccumulating then Some(Consolidation)
        else None
  }

  /** The first crash triple `u` decides the breakout stage, whatever
      three-rising triples without a crash come before it: the loop's state
      is read from `u`, and an accumulating series gets the breakout stage
      that `u`'s key signal and recovery select. */
  lemma FirstCrashDecides(bars: seq<Bar>, u: int)
    requires WellFormed(bars)
    requires |bars| >= MinBars && IsAccumulating(bars)
    requires |bars| - 20 <= u < |bars| - 3 && IsCrashTriple(bars, u)
    requires forall j :: |bars| - 20 <= j < u ==> !IsCrashTriple(bars, j)
    ensures TripleLoop(bars) == TripleState(true, true, IsRecovered(bars, u), Some(bars[u + 2].low))
    ensures Analyze(bars) ==
      if KeySignal(bars, bars[u + 2].low) then Some(BreakoutCritical)
      else if IsRecovered(bars, u) then Some(BreakoutKey)
      else Some(Breakout)
  {
    ScanFromStopsAtCrash(bars, |bars| - 20, TripleState(false, false, false, None), u);
  }

  /** A crash after any qualifying triple in -20 .. -4 makes an accumulating
      series a breakout stage. */
  lemma AnyCrashBreaksOut(bars: seq<Bar>, u: int)
    requires WellFormed(bars)
    requires |bars| >= MinBars && IsAccumulating(bars)
    requires |bars| - 20 <= u < |bars| - 3 && IsCrashTriple(bars, u)
    ensures Analyze(bars) in {Some(Breakout), Some(BreakoutKey), Some(BreakoutCritical)}
    ensures CrashScan(bars).value <= u
  {
  }

  /** When no triple before offset -6 qualifies, any crash triple starts at
      -6 .. -4, where the recovery check never runs, so the series is never
      classified BreakoutKey. */
  lemma LateTripleNeverKey(bars: seq<Bar>)
    requires WellFormed(bars)
    requires |bars| >= MinBars
    requires forall j :: |bars| - 20 <= j < |bars| - 6 ==> !IsThreeRising(bars, j)
    ensures !CrashRecovered(bars)
    ensures Analyze(bars) != Some(BreakoutKey)
  {
    TripleLoopMeaning(bars);
  }

  /** With a crash after the first crash triple, a break below that triple's
      last low in the last five bars wins over a recovery. */
  lemma CriticalOutranksRecovery(bars: seq<Bar>)
    requires WellFormed(bars)
    requires |bars| >= MinBars
    requires IsAccumulating(bars) && CrashScan(bars).Some? && IsRecovered(bars, CrashScan(bars).value)
    requires exists j :: |bars| - 5 <= j < |bars| && bars[j].low < bars[CrashScan(bars).value + 2].low && IsBearish(bars[j])
    ensures Analyze(bars) == Some(BreakoutCritical)
  {
  }
}
