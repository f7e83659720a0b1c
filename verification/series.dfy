/** The bar series every classifier consumes: one daily OHLCV record per bar,
    oldest first, plus the stage labels a classifier can return.

    Python's negative offsets are written here as absolute indices: with
    `n == |bars|`, offset `-k` is index `n - k`, and the slice `[-60:-30]` is
    `bars[n - 60 .. n - 30]`. Every classifier stops early below 60 bars, so
    none of these windows is ever clamped. */
module Series {

  datatype Option<+T> = None | Some(value: T)

  /** One day's record. Prices and volume are exact reals; the date is the
      text the CSV carries (only ever compared for equality). */
  datatype Bar = Bar(date: string, open: real, high: real, low: real, close: real, volume: real)

  /** The labels a classifier can return, in increasing order of urgency. */
  datatype Stage = Consolidation | Building | Breakout | BreakoutKey | BreakoutCritical

  /** Minimum length below which every classifier returns no signal. */
  const MinBars: nat := 60

  /** A "red" (rising) candle in the source's convention: close above open.
      A doji (close == open) is not red. */
  predicate IsRed(b: Bar) {
    b.close > b.open
  }

  /** A falling candle: close below open. */
  predicate IsBearish(b: Bar) {
    b.close < b.open
  }

  /** The prices the source divides by are positive and every volume is
      positive, so no ratio the classifiers compute is infinite or NaN. */
  predicate WellFormed(bars: seq<Bar>) {
    forall i :: 0 <= i < |bars| ==> bars[i].open > 0.0 && bars[i].close > 0.0 && bars[i].volume > 0.0
  }

  /** The text label the source returns for each stage. */
  function Label(s: Stage): string {
    match s
    case Consolidation => "🏖️ 整理区"
    case Building => "🧪 蓄势中"
    case Breakout => "🚀 启动期"
    case BreakoutKey => "🚀 启动期（重点）"
    case BreakoutCritical => "🚀 启动期（重中之重）"
  }
}
