/** One unit of the scan: classify a single instrument's loaded series and,
    on a signal, build the hit record (codes derived from the file name, last
    price, percent change against the previous close, the stage, and the
    concept tag looked up by the pure code). */
module Scanner {
  import opened Series
  import Ma5Support
  import VolumeBreakout
  import BreakoutPullback

  /** The registry of classifiers a scan can run. */
  datatype Strategy = UseMa5Support | UseVolumeBreakout | UseBreakoutPullback

  function Classify(strategy: Strategy, bars: seq<Bar>): (r: Option<Stage>)
    requires WellFormed(bars)
    ensures |bars| < MinBars ==> r == None
  {
    match strategy
    case UseMa5Support => Ma5Support.Analyze(bars)
    case UseVolumeBreakout => VolumeBreakout.Analyze(bars)
    case UseBreakoutPullback => BreakoutPullback.Analyze(bars)
  }

  /** Tag for an instrument missing from the concept map ("unclassified"). */
  const Unclassified: string := "未分类"

  const CsvSuffix: string := ".csv"

  /** Fewest rows the scan accepts before it calls a classifier at all. */
  const MinRows: nat := 5

  /** `pat` occurs in `s` starting at index `k`. */
  predicate OccursAt(s: string, pat: string, k: int) {
    0 <= k && k + |pat| <= |s| && s[k .. k + |pat|] == pat
  }

  /** `pat` occurs somewhere in `s`. */
  predicate Occurs(s: string, pat: string) {
    exists k :: 0 <= k <= |s| && OccursAt(s, pat, k)
  }

  /** Python's `s.replace(pat, "")`: every occurrence of `pat`, found left to
      right without overlap, is removed. */
  function RemoveAll(s: string, pat: string): (r: string)
    requires |pat| > 0
    ensures |r| <= |s|
    ensures !Occurs(s, pat) ==> r == s
    decreases |s|
  {
    if |s| < |pat| then s
    else if s[..|pat|] == pat then
      assert OccursAt(s, pat, 0);
      RemoveAll(s[|pat|..], pat)
    else
      var rest := RemoveAll(s[1..], pat);
      assert !Occurs(s, pat) ==> !Occurs(s[1..], pat) by {
        if Occurs(s[1..], pat) {
          var k :| 0 <= k <= |s[1..]| && OccursAt(s[1..], pat, k);
          assert s[k + 1 .. k + 1 + |pat|] == s[1..][k .. k + |pat|];
          assert OccursAt(s, pat, k + 1);
        }
      }
      assert !Occurs(s, pat) ==> [s[0]] + s[1..] == s;
      [s[0]] + rest
  }

  /** The full code: the file name with ".csv" removed, e.g. "sh.600000". */
  function FullCode(fileName: string): string {
    RemoveAll(fileName, CsvSuffix)
  }

  /** Removing ".csv" from `stem + ".csv"` gives back `stem` whenever `stem`
      has no ".csv" of its own: no occurrence can straddle the boundary,
      because "." appears in ".csv" only as its first character. */
  lemma {:induction false} FullCodeOfFileName(stem: string)
    requires !Occurs(stem, CsvSuffix)
    ensures FullCode(stem + CsvSuffix) == stem
    decreases |stem|
  {
    var s := stem + CsvSuffix;
    if |stem| == 0 {
      assert s == CsvSuffix;
      assert s[4..] == [];
    } else {
      if |stem| >= 4 {
        assert s[..4] == stem[0 .. 0 + 4];
        assert !OccursAt(stem, CsvSuffix, 0);
      } else {
        assert s[..4][|stem|] == s[|stem|] == '.';
        assert CsvSuffix[|stem|] != '.';
      }
      assert s[..4] != CsvSuffix;
      assert s[1..] == stem[1..] + CsvSuffix;
      assert !Occurs(stem[1..], CsvSuffix) by {
        if Occurs(stem[1..], CsvSuffix) {
          var k :| 0 <= k <= |stem[1..]| && OccursAt(stem[1..], CsvSuffix, k);
          assert stem[k + 1 .. k + 1 + 4] == stem[1..][k .. k + 4];
          assert OccursAt(stem, CsvSuffix, k + 1);
        }
      }
      FullCodeOfFileName(stem[1..]);
      assert [stem[0]] + stem[1..] == stem;
    }
  }

  /** The longest prefix of `s` without a '.'. */
  function UpToDot(s: string): (r: string)
    ensures |r| <= |s| && r == s[..|r|]
    ensures '.' !in r
    ensures |r| == |s| || s[|r|] == '.'
  {
    if |s| == 0 || s[0] == '.' then "" else [s[0]] + UpToDot(s[1..])
  }

  /** The pure code: `full.split(".")[1]` when `full` has a '.', else `full`
      itself (so "sh.600000" and "600000" both give "600000"). */
  function PureCode(full: string): (r: string)
    ensures '.' !in full ==> r == full
    ensures '.' in full ==> '.' !in r && |r| < |full|
  {
    if '.' in full then
      var head := UpToDot(full);
      UpToDot(full[|head| + 1 ..])
    else full
  }

  /** The pure code is the second '.'-separated segment: whatever follows the
      first segment and its dot, up to the next dot or the end. */
  lemma PureCodeSecondSegment(a: string, b: string, rest: string)
    requires '.' !in a && '.' !in b
    requires |rest| == 0 || rest[0] == '.'
    ensures PureCode(a + "." + b + rest) == b
  {
    var full := a + "." + b + rest;
    assert full[|a|] == '.';
    assert forall i :: 0 <= i < |a| ==> full[i] == a[i];
    var head := UpToDot(full);
    assert |head| == |a|;
    var tail := full[|a| + 1 ..];
    assert tail == b + rest;
    assert forall i :: 0 <= i < |b| ==> tail[i] == b[i];
    assert |rest| > 0 ==> tail[|b|] == '.';
    var seg := UpToDot(tail);
    assert |seg| == |b|;
    assert seg == tail[..|b|] == b;
  }

  /** File name to codes and back: "sh.600000.csv" yields full code
      "sh.600000" and pure code "600000". */
  lemma CodesOfFileName(exchange: string, code: string)
    requires '.' !in exchange && '.' !in code
    requires !Occurs(exchange + "." + code, CsvSuffix)
    ensures FullCode(exchange + "." + code + CsvSuffix) == exchange + "." + code
    ensures PureCode(FullCode(exchange + "." + code + CsvSuffix)) == code
  {
    FullCodeOfFileName(exchange + "." + code);
    PureCodeSecondSegment(exchange, code, "");
    assert exchange + "." + code + "" == exchange + "." + code;
  }

  /** The concept tag of a pure code, defaulting to "unclassified". */
  function ConceptOf(conceptMap: map<string, string>, code: string): (c: string)
    ensures code in conceptMap ==> c == conceptMap[code]
    ensures code !in conceptMap ==> c == Unclassified
  {
    if code in conceptMap then conceptMap[code] else Unclassified
  }

  /** One hit: codes, last close, percent change against the previous close
      (unrounded), stage and concept tag. */
  datatype Hit = Hit(code: string, fullCode: string, price: real, pctChange: real, stage: Stage, concept: string)

  /** The hit record for a classified series of at least two bars. */
  function MakeHit(fileName: string, bars: seq<Bar>, conceptMap: map<string, string>, stage: Stage): (h: Hit)
    requires WellFormed(bars)
    requires |bars| >= 2
    ensures h.stage == stage
    ensures h.fullCode == FullCode(fileName) && h.code == PureCode(h.fullCode)
    ensures h.concept == ConceptOf(conceptMap, h.code)
    ensures h.price == bars[|bars| - 1].close
    ensures h.pctChange * bars[|bars| - 2].close == (bars[|bars| - 1].close - bars[|bars| - 2].close) * 100.0
    ensures h.pctChange > 0.0 <==> bars[|bars| - 1].close > bars[|bars| - 2].close
  {
    var fullCode := FullCode(fileName);
    var pureCode := PureCode(fullCode);
    var curr := bars[|bars| - 1];
    var prev := bars[|bars| - 2];
    assert prev.close > 0.0;
    var pct := (curr.close - prev.close) / prev.close * 100.0;
    ScaledSign(pct, prev.close, (curr.close - prev.close) * 100.0);
    Hit(pureCode, fullCode, curr.close, pct, stage, ConceptOf(conceptMap, pureCode))
  }

  /** Process one file. `loaded` is the parsed CSV, or None when reading it
      raised; an exception of any kind gives no hit. */
  function ProcessFile(fileName: string, loaded: Option<seq<Bar>>, conceptMap: map<string, string>, strategy: Strategy): (r: Option<Hit>)
    requires loaded.Some? ==> WellFormed(loaded.value)
    ensures r.Some? <==> loaded.Some? && |loaded.value| >= MinRows && Classify(strategy, loaded.value).Some?
    ensures r.Some? ==> Classify(strategy, loaded.value) == Some(r.value.stage)
    ensures r.Some? ==> r.value == MakeHit(fileName, loaded.value, conceptMap, r.value.stage)
  {
    match loaded
    case None => None
    case Some(bars) =>
      if |bars| == 0 || |bars| < MinRows then None
      else
        match Classify(strategy, bars)
        case None => None
        case Some(stage) => Some(MakeHit(fileName, bars, conceptMap, stage))
  }

  /** Although the scan accepts series of 5 rows, a hit always comes from a
      series of at least 60 bars: every classifier is silent below that. */
  lemma HitNeedsSixtyBars(fileName: string, bars: seq<Bar>, conceptMap: map<string, string>, strategy: Strategy)
    requires WellFormed(bars)
    requires ProcessFile(fileName, Some(bars), conceptMap, strategy).Some?
    ensures |bars| >= MinBars
  {
  }

  /** A quantity scaled by a positive factor keeps its sign. */
  lemma ScaledSign(x: real, p: real, y: real)
    requires p > 0.0
    requires x * p == y
    ensures x > 0.0 <==> y > 0.0
  {
    if x > 0.0 {
      assert x * p > 0.0;
    }
    if x <= 0.0 {
      assert x * p <= 0.0;
    }
  }
}
