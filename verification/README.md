# Stage classifiers of the celue stock scanner, in Dafny

This project models the pattern-classification core of the celue scanner.
Each of three classifiers reads one instrument's daily OHLCV bars, oldest
first, and returns at most one lifecycle stage. The three are MA5 support,
volume breakout and breakout pullback. The stages are Consolidation (整理区),
Building (蓄势中), Breakout (启动期), BreakoutKey (启动期（重点）) and
BreakoutCritical (启动期（重中之重）).

Two smaller pieces sit beside the classifiers. The first is the per-file step
of the scan, which builds a hit record from a classified series. The second
is the backtest script: it classifies history up to a date and measures the
best forward return after a signal.

Layout:

- `series.dfy` (`Series`): the `Bar` record, the `Stage` enumeration, the red
  and bearish candle tests, and `WellFormed` (positive open, close and volume).
- `scan.dfy` (`Scan`): generic scans. `Count` and `First` scan a range of
  indices; `First` stops at the first match. `ArgMax` returns the first index
  of the maximum, as `idxmax` does. `Sum` and `CountOf` work over a window of
  bars. The module also holds their lemmas.
- `indicators.dfy` (`Indicators`): the moving averages `MA` and `VolMA`,
  `PctChg`, the red/green volume split, and the pullback test that
  classifiers A and B share.
- `ma5_support.dfy`, `volume_breakout.dfy`, `breakout_pullback.dfy`: one
  module per classifier.
- `scanner.dfy` (`Scanner`): `process_file` over a series that is already
  loaded. It also holds the strategy registry, the code derivation from file
  names, and the concept lookup.
- `backtest.dfy` (`Backtest`): `analyze_on_date` and `check_future_return`.

Python's negative offsets are written as absolute indices. With `n == |bars|`,
offset `-k` is index `n - k`, and `iloc[-60:-30]` is `bars[n - 60 .. n - 30]`.
Every classifier returns no signal below 60 bars, so no window is ever
clipped. A pandas NaN from `shift(1)` or `pct_change()` at row 0 makes every
comparison false. The model writes this as a `1 <= i` guard in the row
predicates.

Notes on the source that the model follows as written:

- `strategies/breakout_pullback.py` has no run-of-bearish-bars pre-filter.
  The only gate before the stage logic is accumulation (lines 46-49).
- The triple scan in `strategies/breakout_pullback.py:67-110` leaves the
  loop only at a three-rising triple followed by a crash. A three-rising
  triple without a crash sets `has_three_rising`, overwrites
  `three_rising_last_low` and lets the scan go on. So the crash, its
  recovery and the key-signal low all come from the first triple that is
  followed by a crash.
- In volume breakout, the key-breakout test asks that the previous bar rose
  from its own open to its close. It does not use the previous bar's percent
  change against the close before it (`strategies/volume_breakout.py:52-55`).
- In MA5 support, the shrink-drop search covers the last 20 bars (`[-20:]`).
  The variable `shake_period` (`[-30:-10]`) is never used.
- `check_future_return` counts a signal as a success when the return is at
  least the target. The module's doc comment says "more than"
  (`backtest_strategy3.py:5` against line 67).

## Model

| member | source | states |
|---|---|---|
| Indicators.VolumePartition | strategies/ma5_support.py:33-34 | red volume plus green volume is the window's total volume, and red count plus green count is its length: every bar is exactly one of the two, and a doji is green |
| Indicators.BigGainMeaning | strategies/ma5_support.py:19 | a percent change of at least t means close * 100 >= previous close * (100 + t); row 0 never counts |
| Indicators.BigGainDays | strategies/ma5_support.py:44 | the count of 4% days among the last ten bars is at most 10; it is >= 1 iff some such day exists, and >= 2 iff two distinct such days exist |
| Indicators.Ma5RisesIff | strategies/ma5_support.py:46 | MA5 rises from the previous bar iff the last close beats the close five bars back |
| Indicators.PullbackMeaning | strategies/ma5_support.py:45-49 | the pullback holds iff volume shrinks, the last close beats the close five bars back, the close is at or above MA5, and the low is at most 1.015 * MA5 |
| Indicators.VolMA | strategies/breakout_pullback.py:28 | the 20-bar volume average of well-formed bars is positive, so every volume ratio is finite |
| Ma5Support.HadPanicShrink | strategies/ma5_support.py:38 | true iff some bar of the last 20 has a lower low than the bar before and also lower volume (the shrink-drop column of line 22) |
| Ma5Support.AvgVolLong | strategies/ma5_support.py:39 | the mean volume of [-60:-10] is positive |
| Ma5Support.HasVolumeSpike | strategies/ma5_support.py:40 | true iff some bar in [-30:-1] (today excluded) has volume above 2.5 times the long mean volume |
| Ma5Support.CleanShakeMeaning | strategies/ma5_support.py:38-41 | a clean shake iff a shrink-drop bar lies in the last 20 and no bar of [-30:-1] exceeds 2.5 times the mean volume of [-60:-10] |
| Ma5Support.Analyze | strategies/ma5_support.py:52-60 | None below 60 bars; otherwise a stage iff accumulating and clean shake; never Key or Critical; Breakout iff has_breakout and pullback; Building iff no breakout (the panic-shrink conjunct is implied); Consolidation iff breakout without pullback |
| Ma5Support.NoRedNeverAccumulates | strategies/ma5_support.py:33-35 | if no bar of [-60:-30] is red (dojis included), the 1.5x accumulation test fails |
| Ma5Support.BreakoutMeaning | strategies/ma5_support.py:43-54 | Breakout iff the gates pass, two distinct 4% days fall in the last ten bars, and the unfolded pullback conditions hold on the last bar |
| VolumeBreakout.KeyBreakoutScan | strategies/volume_breakout.py:45-58 | the scan over offsets -30..-2 returns the earliest qualifying row, with no qualifying row before it; it returns None iff no row qualifies |
| VolumeBreakout.KeyBreakoutMeaning | strategies/volume_breakout.py:45-58 | the key breakout holds iff some row in -30..-2 undercuts the previous low right after a candle that closed above its own open |
| VolumeBreakout.Analyze | strategies/volume_breakout.py:69-77 | None below 60 bars; a stage implies accumulation and a breakout day; never Consolidation or Critical; BreakoutKey iff breakout, pullback and key; Breakout iff breakout and pullback without key; Building iff breakout without pullback, whatever key is |
| VolumeBreakout.NoBreakoutDayNoSignal | strategies/volume_breakout.py:61-77 | if no close in the last ten bars rose 4% over the previous close, the result is None |
| VolumeBreakout.AllRedAccumulates | strategies/volume_breakout.py:33-35 | an all-red [-60:-20] window with positive volume always passes the 1.5x test |
| BreakoutPullback.AccumulationNeedsHalfRed | strategies/breakout_pullback.py:38-46 | passing the accumulation test needs at least 20 red days among the 40 window bars |
| BreakoutPullback.MaxVolumeRatio | strategies/breakout_pullback.py:54 | the max ratio is attained by one of the last five bars and bounds all of them |
| BreakoutPullback.VolumeOkMeaning | strategies/breakout_pullback.py:52-56 | volume_ok iff at least 3 of the last 5 bars exceed MA20_vol and every one of the 5 has volume below 3 * MA20_vol |
| BreakoutPullback.ThreeRisingMeaning | strategies/breakout_pullback.py:76-83 | a triple qualifies iff at least 2 of its 3 bars are red and day3.close * 100 > day1.open * 103 |
| BreakoutPullback.CrashMeaning | strategies/breakout_pullback.py:88-100 | the crash test holds iff the crash day undercuts day3's low, its volume is below 0.8 times the triple's mean, and 0.93 * open < close < 0.97 * open (strict bounds); the falling-candle conjunct adds nothing |
| BreakoutPullback.IsRecovered | strategies/breakout_pullback.py:104-109 | recovered iff the triple starts at offset -7 or earlier and one of exactly the 3 bars after the crash closes above 1.02 times the crash close |
| BreakoutPullback.KeySignal | strategies/breakout_pullback.py:114-124 | true iff some bar of the last five has a low under the given low and closes below its open |
| BreakoutPullback.ScanFromStopsAtCrash | strategies/breakout_pullback.py:67-110 | the loop, run from any start and state, ends at the first triple followed by a crash, whatever crash-free triples come before it; the final state is seen, crashed, that triple's recovery, and that triple's third-day low |
| BreakoutPullback.ScanFromWithoutCrash | strategies/breakout_pullback.py:67-110 | with no crash triple ahead, the loop runs to the end: the crash flags keep their values, a triple is seen iff one qualifies, and the recorded low is that of the last qualifying triple (or unchanged if none) |
| BreakoutPullback.CrashScan | strategies/breakout_pullback.py:67-110 | the earliest start in -20..-4 whose three-rising triple is followed by a crash, with none before it; None iff no start has one |
| BreakoutPullback.TripleLoopWithoutCrash | strategies/breakout_pullback.py:59-110 | from the initial state with no crash triple: no crash and no recovery recorded, has_three_rising iff some start qualifies, a low is recorded iff so, and it is the last qualifying triple's |
| BreakoutPullback.TripleLoopMeaning | strategies/breakout_pullback.py:59-110 | has_three_rising iff some start in -20..-4 qualifies; has_crash iff some qualifying triple is followed by a crash; then crash_recovered and three_rising_last_low come from the first such triple; otherwise no recovery, and the low is the last qualifying triple's |
| BreakoutPullback.Analyze | strategies/breakout_pullback.py:127-139 | None below 60 bars; otherwise None iff not accumulating; with T the first triple followed by a crash: Critical iff T exists and its third-day low is broken by a falling bar in the last five; Key iff T exists, no such break, and T recovered; Breakout iff T exists with neither; Building iff no T, volume_ok and some qualifying triple; else Consolidation |
| BreakoutPullback.FirstCrashDecides | strategies/breakout_pullback.py:67-131 | for the first crash triple u, crash-free triples before it do not stop the scan: the loop state is read from u, and an accumulating series is Critical, Key or Breakout as u's key signal and recovery decide |
| BreakoutPullback.AnyCrashBreaksOut | strategies/breakout_pullback.py:100-133 | a crash after any qualifying triple in -20..-4 gives an accumulating series a breakout stage, and the reported crash triple is at or before it |
| BreakoutPullback.LateTripleNeverKey | strategies/breakout_pullback.py:104-109 | when no triple before offset -6 qualifies, any crash triple starts at -6..-4, where the recovery check never runs, so the series is never BreakoutKey |
| BreakoutPullback.CriticalOutranksRecovery | strategies/breakout_pullback.py:127-131 | when the first crash triple has recovered, a recent falling bar below its third-day low still gives Critical |
| Scanner.Classify | index.py:43-47 | the strategy registry dispatches to one classifier; every strategy returns None below 60 bars |
| Scanner.RemoveAll | index.py:24 | removing every occurrence of a pattern never lengthens the name and leaves a name without the pattern unchanged |
| Scanner.FullCodeOfFileName | index.py:24 | removing ".csv" from stem + ".csv" gives back the stem when the stem holds no ".csv" |
| Scanner.PureCode | index.py:26 | a name without '.' is its own pure code; otherwise the pure code is shorter than the name and holds no '.' |
| Scanner.PureCodeSecondSegment | index.py:26 | for a + "." + b + rest, with a and b dot-free and rest empty or starting with '.', the pure code is b |
| Scanner.CodesOfFileName | index.py:24-26 | "exchange.code.csv" yields full code "exchange.code" and pure code "code" |
| Scanner.ConceptOf | index.py:37 | the mapped concept when the code is in the map, else "未分类" |
| Scanner.MakeHit | index.py:24-37 | the hit carries the stage unchanged, the derived codes and concept, and the last close; pct * previous close == (last close - previous close) * 100; pct > 0 iff the last close rose |
| Scanner.ProcessFile | index.py:13-40 | a hit iff the load succeeded, there are at least 5 rows and the classifier returned a stage; the hit's stage is that stage; a failed load (an exception) gives None |
| Scanner.HitNeedsSixtyBars | index.py:19-23 | although 5 rows pass the floor, a hit always comes from at least 60 bars |
| Backtest.DateIndex | backtest_strategy3.py:23-27 | the first row carrying the date, with no earlier row carrying it; None iff no row does |
| Backtest.AnalyzeOnDate | backtest_strategy3.py:17-37 | None when the date is absent or fewer than 60 rows lead up to it; when at least 60 rows lead up to it, exactly classifier C's result on the rows up to and including the first row of that date |
| Backtest.AnalyzeOnDateNoLookAhead | backtest_strategy3.py:30 | rows appended after the date never change the stage on that date |
| Backtest.PeakRow | backtest_strategy3.py:59-65 | the returned row has the window's highest high, and every earlier row in the window is strictly lower, as idxmax requires |
| Backtest.ForwardCheck | backtest_strategy3.py:53-69 | an empty forward window gives (False, 0, None); otherwise the max date is the peak row's date, max_return_pct * close == 100 * (peak high - close), and success iff peak high - close >= target * close |
| Backtest.CheckFutureReturn | backtest_strategy3.py:39-69 | an absent date gives (False, 0, None); otherwise the forward check from the first row of the date |
| Backtest.SuccessMeaning | backtest_strategy3.py:67 | success iff the date exists and some row among the up to `days` rows after it reaches a high of at least (1 + target) times the signal close (inclusive) |
| Backtest.FutureReturnIgnoresLaterRows | backtest_strategy3.py:53 | rows beyond the `days`-row window never change the outcome |

## Left out

- Numeric coercion with `pd.to_numeric(errors='coerce')` and NaN propagation are not modelled. Bars come already typed. Classifiers require `WellFormed` bars: positive open, positive close and positive volume. Otherwise a division by an open, a close or MA20_vol gives inf or NaN.
- Floating point is not modelled. All arithmetic is exact `real`. The `round(pct, 2)` and the `"{pct}%"` formatting in `index.py:29,35` are left out, so `Hit.pctChange` holds the unrounded number.
- Volume is a `real`, not an integer. Only sums, means and comparisons of volumes occur.
- Dead computations are not modelled: MA20, MA30 and MA60, `shake_period` in both A and B, and the recorded `breakout_date`. None of them affects a result.
- The skip guards inside the scan loops (`if i < -len(df) + k: continue`) are not modelled. At 60 bars or more they never fire, and below 60 bars the classifiers return before reaching the loops.
- The `.loc` label slicing in the backtest is modelled with positions as labels. This assumes the default integer index that `read_csv` produces.
- `run_scanner` with its thread pool and progress bar, the loop, statistics and CSV output of `run_backtest`, and report generation are left out. They are concurrency, file I/O and presentation.
- `check_future_return`'s defaults (10 days, target 0.05) are not modelled. `days` and `target` are always passed explicitly, as `run_backtest` does.
- CSV reading is a parameter. `ProcessFile` takes the loaded series, or None when reading raised.
- The MCP and Flask service wrappers are not part of this model. Their arity mismatch when calling `process_file` is wiring, not logic.
- Market-data download, concept-cache refresh and the frontend are not part of this model.
- Scanner.ProcessFile: the classifier is chosen through a `Strategy` registry (`Classify`), not passed as a Python function object.
