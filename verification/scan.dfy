/** Generic scans the classifiers are built from: counting and first-match
    searches over a range of bar indices (pandas `.sum()` of a boolean column,
    `.any()`, and `for ... break` loops), the first index of a maximum
    (`idxmax`), and sums over a window of bars. */
module Scan {
  import opened Series

  function Min(a: int, b: int): int { if a < b then a else b }

  /** Number of indices in `[lo, hi)` satisfying `p`. */
  function Count(lo: int, hi: int, p: int -> bool): (c: nat)
    ensures c <= if lo < hi then hi - lo else 0
    ensures c > 0 <==> exists i :: lo <= i < hi && p(i)
    decreases hi - lo
  {
    if lo >= hi then 0 else Count(lo, hi - 1, p) + (if p(hi - 1) then 1 else 0)
  }

  /** At least two hits in the range means two distinct indices satisfy `p`. */
  lemma {:induction false} CountAtLeastTwo(lo: int, hi: int, p: int -> bool)
    ensures Count(lo, hi, p) >= 2 <==> exists i, j :: lo <= i < j < hi && p(i) && p(j)
    decreases hi - lo
  {
    if lo < hi {
      CountAtLeastTwo(lo, hi - 1, p);
      if Count(lo, hi, p) >= 2 && Count(lo, hi - 1, p) < 2 {
        assert p(hi - 1) && Count(lo, hi - 1, p) > 0;
        var i :| lo <= i < hi - 1 && p(i);
        assert lo <= i < hi - 1 < hi && p(i) && p(hi - 1);
      }
      if exists i, j :: lo <= i < j < hi && p(i) && p(j) {
        var i, j :| lo <= i < j < hi && p(i) && p(j);
        if j < hi - 1 {
          assert lo <= i < j < hi - 1 && p(i) && p(j);
        } else {
          assert lo <= i < hi - 1 && p(i);
        }
      }
    }
  }

  /** The earliest index in `[lo, hi)` satisfying `p`, scanning forward and
      stopping at the first hit. */
  function First(lo: int, hi: int, p: int -> bool): (r: Option<int>)
    ensures r.Some? ==> lo <= r.value < hi && p(r.value)
    ensures r.Some? ==> forall j :: lo <= j < r.value ==> !p(j)
    ensures r.None? <==> forall j :: lo <= j < hi ==> !p(j)
    decreases hi - lo
  {
    if lo >= hi then None
    else if p(lo) then Some(lo)
    else First(lo + 1, hi, p)
  }

  /** The first index of the largest `f` value in the non-empty range
      `[lo, hi)`, as pandas' `idxmax` returns it. */
  function ArgMax(lo: int, hi: int, f: int -> real): (m: int)
    requires lo < hi
    ensures lo <= m < hi
    ensures forall i :: lo <= i < hi ==> f(i) <= f(m)
    ensures forall i :: lo <= i < m ==> f(i) < f(m)
    decreases hi - lo
  {
    if lo + 1 == hi then lo
    else
      var k := ArgMax(lo + 1, hi, f);
      if f(lo) >= f(k) then lo else k
  }

  /** Sum of `f` over a window of bars (pandas `.sum()` of a column). */
  function Sum(w: seq<Bar>, f: Bar -> real): real {
    if |w| == 0 then 0.0 else f(w[0]) + Sum(w[1..], f)
  }

  /** Number of bars in a window satisfying `p` (`len` of a filtered frame). */
  function CountOf(w: seq<Bar>, p: Bar -> bool): (c: nat)
    ensures c <= |w|
  {
    if |w| == 0 then 0 else (if p(w[0]) then 1 else 0) + CountOf(w[1..], p)
  }

  lemma {:induction false} SumAppend(a: seq<Bar>, b: seq<Bar>, f: Bar -> real)
    ensures Sum(a + b, f) == Sum(a, f) + Sum(b, f)
    decreases |a|
  {
    if |a| == 0 {
      assert a + b == b;
    } else {
      assert (a + b)[0] == a[0];
      assert (a + b)[1..] == a[1..] + b;
      SumAppend(a[1..], b, f);
    }
  }

  /** Sums are additive: if `h` is pointwise `f + g`, its sum is theirs. */
  lemma {:induction false} SumSplit(w: seq<Bar>, f: Bar -> real, g: Bar -> real, h: Bar -> real)
    requires forall b :: h(b) == f(b) + g(b)
    ensures Sum(w, h) == Sum(w, f) + Sum(w, g)
    decreases |w|
  {
    if |w| > 0 {
      SumSplit(w[1..], f, g, h);
    }
  }

  lemma {:induction false} SumNonNegative(w: seq<Bar>, f: Bar -> real)
    requires forall k :: 0 <= k < |w| ==> f(w[k]) >= 0.0
    ensures Sum(w, f) >= 0.0
    decreases |w|
  {
    if |w| > 0 {
      assert forall k :: 0 <= k < |w[1..]| ==> w[1..][k] == w[k + 1];
      SumNonNegative(w[1..], f);
    }
  }

  /** A window's hits and misses under `p` and its complement `q` make up the
      whole window. */
  lemma {:induction false} CountComplement(w: seq<Bar>, p: Bar -> bool, q: Bar -> bool)
    requires forall b :: q(b) <==> !p(b)
    ensures CountOf(w, p) + CountOf(w, q) == |w|
    decreases |w|
  {
    if |w| > 0 {
      CountComplement(w[1..], p, q);
    }
  }
}
