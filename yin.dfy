/**
 * The pieces of the YIN estimator (de Cheveigné and Kawahara, "YIN, a
 * fundamental frequency estimator for speech and music") that the tuner's
 * three copies share: the squared-difference function, its cumulative sum,
 * the cumulative-mean-normalised difference (CMNDF), the threshold scan that
 * follows the first dip down to a local minimum, and parabolic refinement.
 */
module Yin {
  import opened JsNumbers

  /** d(tau) over the first `count` positions: the sum of (x[i] - x[i + tau])^2 for i < count. */
  function SqDiff(x: seq<real>, tau: nat, count: nat): (r: real)
    requires count + tau <= |x|
    ensures r >= 0.0
    decreases count
  {
    if count == 0 then 0.0
    else
      var delta := x[count - 1] - x[count - 1 + tau];
      SqDiff(x, tau, count - 1) + delta * delta
  }

  /** The running sum d(1) + ... + d(t), each over the first `count` positions. */
  function CumDiff(x: seq<real>, count: nat, t: nat): (r: real)
    requires count + t <= |x|
    ensures r >= 0.0
  {
    if t == 0 then 0.0 else CumDiff(x, count, t - 1) + SqDiff(x, t, count)
  }

  /**
   * d'(t): 1 at t = 0, otherwise d(t) * t / (d(1) + ... + d(t)). Without a
   * guard on the running sum this is 0/0, i.e. NaN, while d(1) .. d(t) are all zero.
   */
  function Cmndf(x: seq<real>, count: nat, t: nat): (r: JsNum)
    requires count + t <= |x|
    ensures r.NaN? <==> t > 0 && CumDiff(x, count, t) == 0.0
    ensures r.Num? ==> r.v >= 0.0
    ensures !r.PosInf?
  {
    if t == 0 then Num(1.0)
    else if CumDiff(x, count, t) == 0.0 then NaN
    else Num(SqDiff(x, t, count) * t as real / CumDiff(x, count, t))
  }

  /** The whole CMNDF buffer of `count` lags. */
  function CmndfSeq(x: seq<real>, count: nat): (s: seq<JsNum>)
    requires count <= |x| / 2
    ensures |s| == count
  {
    seq(count, t requires 0 <= t < count => Cmndf(x, count, t))
  }

  /** The running sum never decreases. */
  lemma {:induction false} CumDiffMonotone(x: seq<real>, count: nat, s: nat, t: nat)
    requires s <= t && count + t <= |x|
    ensures CumDiff(x, count, s) <= CumDiff(x, count, t)
    decreases t - s
  {
    if s < t {
      CumDiffMonotone(x, count, s, t - 1);
    }
  }

  /** While the running sum is still zero, the next entry is NaN or exactly its own lag. */
  lemma SilentPrefix(x: seq<real>, count: nat, t: nat)
    requires 1 <= t && count + t <= |x|
    requires CumDiff(x, count, t - 1) == 0.0
    ensures Cmndf(x, count, t) == NaN || Cmndf(x, count, t) == Num(t as real)
  {
    var d := SqDiff(x, t, count);
    assert CumDiff(x, count, t) == d;
    if d != 0.0 {
      assert d * t as real / d == t as real;
    }
  }

  /**
   * An entry at lag t >= 2 below a threshold of at most 1 has a finite left
   * neighbour, and when that neighbour is lag 1 it equals exactly 1.
   */
  lemma DipLeftNeighbour(x: seq<real>, count: nat, t: nat, threshold: real)
    requires 2 <= t && count + t <= |x| && threshold <= 1.0
    requires Lt(Cmndf(x, count, t), Num(threshold))
    ensures Cmndf(x, count, t - 1).Num?
    ensures t == 2 ==> Cmndf(x, count, 1) == Num(1.0)
  {
    if CumDiff(x, count, t - 1) == 0.0 {
      SilentPrefix(x, count, t);
      assert false;
    }
    if t == 2 {
      SilentPrefix(x, count, 1);
    }
  }

  /** Once an entry at a positive lag is finite, so is the next one. */
  lemma FiniteStaysFinite(x: seq<real>, count: nat, t: nat)
    requires 1 <= t && count + t + 1 <= |x|
    requires Cmndf(x, count, t).Num?
    ensures Cmndf(x, count, t + 1).Num?
  {
    CumDiffMonotone(x, count, t, t + 1);
  }

  /**
   * One step of the in-place normalisation: adding d(t) to the running sum of
   * the earlier lags and scaling d(t) by t over the new sum gives d'(t).
   */
  lemma {:induction false} CmndfStep(x: seq<real>, count: nat, t: nat, runningSum: real)
    requires 1 <= t && count + t <= |x|
    requires runningSum == CumDiff(x, count, t - 1)
    ensures Cmndf(x, count, t) == ScaleByLag(SqDiff(x, t, count), t, runningSum + SqDiff(x, t, count))
  {
    var d := SqDiff(x, t, count);
    var rs := runningSum + d;
    assert CumDiff(x, count, t) == rs;
    if rs != 0.0 {
      assert Cmndf(x, count, t) == Num(d * t as real / rs);
      MulDiv(d, t as real, rs);
    }
  }

  /**
   * `d *= t / runningSum` in JavaScript: a zero running sum makes the factor
   * +Infinity and the product (d is then 0) NaN.
   */
  function ScaleByLag(d: real, t: nat, runningSum: real): (r: JsNum)
    ensures r.NaN? <==> runningSum == 0.0
    ensures r.Num? ==> r.v == d * t as real / runningSum
  {
    if runningSum == 0.0 then NaN
    else
      MulDiv(d, t as real, runningSum);
      Num(d * (t as real / runningSum))
  }

  lemma MulDiv(a: real, b: real, c: real)
    requires c != 0.0
    ensures a * (b / c) == a * b / c
  {
    var q := b / c;
    assert q * c == b;
    assert (a * q) * c == a * b;
  }

  /** `first` is the first lag from `lo` on whose value is below the threshold. */
  predicate IsFirstDip(s: seq<JsNum>, lo: int, threshold: real, first: int)
  {
    0 <= lo <= first < |s| && Lt(s[first], Num(threshold)) &&
    forall t :: lo <= t < first ==> !Lt(s[t], Num(threshold))
  }

  /** No lag in [lo, hi] is below the threshold. */
  predicate NoDip(s: seq<JsNum>, lo: int, hi: int, threshold: real)
    requires hi < |s|
  {
    forall t :: lo <= t <= hi && 0 <= t ==> !Lt(s[t], Num(threshold))
  }

  /** The values strictly decrease from lag `from` to lag `to`. */
  predicate Falls(s: seq<JsNum>, from: int, to: int)
    requires 0 <= from <= to < |s|
  {
    forall t :: from <= t < to ==> Lt(s[t + 1], s[t])
  }

  /**
   * The threshold scan over [lo, hi] settles on `tau`: it found the first dip
   * `first` and followed it down while the next value was strictly smaller,
   * stopping at `hi` or where the next value is not smaller.
   */
  predicate IsDipChoice(s: seq<JsNum>, lo: int, hi: int, threshold: real, first: int, tau: int)
  {
    hi < |s| && IsFirstDip(s, lo, threshold, first) && first <= tau <= hi &&
    Falls(s, first, tau) && (tau == hi || !Lt(s[tau + 1], s[tau]))
  }

  /** The scan's rule determines the lag uniquely. */
  lemma DipChoiceUnique(s: seq<JsNum>, lo: int, hi: int, threshold: real, f1: int, t1: int, f2: int, t2: int)
    requires IsDipChoice(s, lo, hi, threshold, f1, t1)
    requires IsDipChoice(s, lo, hi, threshold, f2, t2)
    ensures f1 == f2 && t1 == t2
  {
  }

  /**
   * The threshold scan shared by the three YIN copies: scan lags lo..hi for
   * the first value below the threshold, then advance while the next value is
   * strictly smaller. -1 when no lag dips below the threshold.
   */
  method ScanForDip(yin: array<JsNum>, lo: nat, hi: int, threshold: real) returns (tau: int, ghost first: int)
    requires hi < yin.Length
    ensures tau == -1 <==> NoDip(yin[..], lo, hi, threshold)
    ensures tau != -1 ==> IsDipChoice(yin[..], lo, hi, threshold, first, tau)
    ensures tau != -1 ==> Lt(yin[tau], Num(threshold))
  {
    first := -1;
    var t := lo;
    while t <= hi
      invariant lo <= t && (t == lo || t <= hi + 1)
      invariant forall u :: lo <= u < t ==> !Lt(yin[u], Num(threshold))
    {
      if Lt(yin[t], Num(threshold)) {
        first := t;
        while t + 1 <= hi && Lt(yin[t + 1], yin[t])
          invariant first <= t <= hi
          invariant Lt(yin[t], Num(threshold))
          invariant forall u :: first <= u < t ==> Lt(yin[u + 1], yin[u])
        {
          t := t + 1;
        }
        return t, first;
      }
      t := t + 1;
    }
    return -1, first;
  }

  /**
   * With a threshold of at most 1 and the scan starting at lag 2, the lag the
   * scan settles on is a local minimum of finite entries whose left neighbour
   * is strictly higher.
   */
  lemma DipChoiceIsLocalMinimum(x: seq<real>, count: nat, hi: int, threshold: real, first: int, tau: int)
    requires count <= |x| / 2 && hi < count && threshold <= 1.0
    requires IsDipChoice(CmndfSeq(x, count), 2, hi, threshold, first, tau)
    ensures Cmndf(x, count, tau - 1).Num? && Cmndf(x, count, tau).Num?
    ensures Cmndf(x, count, tau - 1).v > Cmndf(x, count, tau).v
    ensures tau + 1 <= hi ==> Cmndf(x, count, tau + 1).Num? && Cmndf(x, count, tau + 1).v >= Cmndf(x, count, tau).v
  {
    var s := CmndfSeq(x, count);
    if tau > first {
      assert Lt(s[tau - 1 + 1], s[tau - 1]);
    } else {
      DipLeftNeighbour(x, count, first, threshold);
      if first > 2 {
        assert !Lt(s[first - 1], Num(threshold));
      }
    }
    if tau + 1 <= hi {
      FiniteStaysFinite(x, count, tau);
      assert !Lt(s[tau + 1], s[tau]);
    }
  }

  /** A silent (all-zero) frame has d(t) = 0 for every lag. */
  lemma {:induction false} SilentSqDiff(x: seq<real>, tau: nat, count: nat)
    requires count + tau <= |x|
    requires forall i :: 0 <= i < |x| ==> x[i] == 0.0
    ensures SqDiff(x, tau, count) == 0.0
    decreases count
  {
    if count > 0 {
      SilentSqDiff(x, tau, count - 1);
    }
  }

  /** ... and so its running sum stays zero. */
  lemma {:induction false} SilentCumDiff(x: seq<real>, count: nat, t: nat)
    requires count + t <= |x|
    requires forall i :: 0 <= i < |x| ==> x[i] == 0.0
    ensures CumDiff(x, count, t) == 0.0
  {
    if t > 0 {
      SilentCumDiff(x, count, t - 1);
      SilentSqDiff(x, t, count);
    }
  }

  /**
   * Every CMNDF entry of a silent frame past lag 0 is NaN, so no lag of it
   * ever dips below any threshold.
   */
  lemma SilentFrameHasNoDip(x: seq<real>, count: nat, threshold: real)
    requires count <= |x| / 2
    requires forall i :: 0 <= i < |x| ==> x[i] == 0.0
    ensures forall t :: 1 <= t < count ==> Cmndf(x, count, t) == NaN
    ensures forall t :: 1 <= t < count ==> !Lt(Cmndf(x, count, t), Num(threshold))
  {
    forall t | 1 <= t < count
      ensures Cmndf(x, count, t) == NaN
    {
      SilentCumDiff(x, count, t);
    }
  }

  /** `offset` is the vertex offset of the parabola through three finite neighbouring entries. */
  predicate IsVertexOffset(yl: JsNum, ym: JsNum, yr: JsNum, offset: real)
  {
    yl.Num? && ym.Num? && yr.Num? && yl.v + yr.v - 2.0 * ym.v != 0.0 &&
    offset == VertexOffset(yl.v, ym.v, yr.v)
  }

  /** The offset, from the middle sample, of the vertex of the parabola through (-1, yl), (0, ym), (1, yr). */
  function VertexOffset(yl: real, ym: real, yr: real): (offset: real)
    requires yl + yr - 2.0 * ym != 0.0
    ensures 2.0 * (yl + yr - 2.0 * ym) * offset == yl - yr
  {
    (yl - yr) / (2.0 * (yl + yr - 2.0 * ym))
  }

  /** The same offset written with both signs flipped, as the Untitled-1.ts copy writes it. */
  lemma VertexOffsetNegated(yl: real, ym: real, yr: real)
    requires yl + yr - 2.0 * ym != 0.0
    ensures (yr - yl) / (2.0 * (2.0 * ym - yr - yl)) == VertexOffset(yl, ym, yr)
  {
    var n, m := yl - yr, 2.0 * (yl + yr - 2.0 * ym);
    assert yr - yl == -n && 2.0 * (2.0 * ym - yr - yl) == -m;
    assert (-n) / (-m) == n / m;
  }

  /** The parabola through (-1, yl), (0, ym), (1, yr), evaluated at x. */
  function Parabola(yl: real, ym: real, yr: real, x: real): (p: real)
    ensures x == -1.0 ==> p == yl
    ensures x == 0.0 ==> p == ym
    ensures x == 1.0 ==> p == yr
  {
    ym + (yr - yl) / 2.0 * x + (yl + yr - 2.0 * ym) / 2.0 * x * x
  }

  /**
   * At a local minimum whose left neighbour is strictly higher the refinement
   * denominator is positive and the vertex lies within half a lag of the middle.
   */
  lemma VertexWithinHalf(yl: real, ym: real, yr: real)
    requires yl > ym && yr >= ym
    ensures yl + yr - 2.0 * ym > 0.0
    ensures -0.5 < VertexOffset(yl, ym, yr) <= 0.5
  {
    var a, b := yl - ym, yr - ym;
    var v := VertexOffset(yl, ym, yr);
    assert v * (2.0 * (a + b)) == a - b;
    assert v * (2.0 * (a + b)) <= 0.5 * (2.0 * (a + b));
    assert v * (2.0 * (a + b)) > -0.5 * (2.0 * (a + b));
  }

  /** There the vertex is where the interpolating parabola is smallest. */
  lemma VertexIsMinimum(yl: real, ym: real, yr: real, x: real)
    requires yl > ym && yr >= ym
    ensures yl + yr - 2.0 * ym != 0.0
    ensures Parabola(yl, ym, yr, VertexOffset(yl, ym, yr)) <= Parabola(yl, ym, yr, x)
  {
    var a, b := (yl + yr - 2.0 * ym) / 2.0, (yr - yl) / 2.0;
    var v := VertexOffset(yl, ym, yr);
    assert a > 0.0;
    assert 2.0 * a * v == -b;
    assert Parabola(yl, ym, yr, x) - Parabola(yl, ym, yr, v) == a * ((x - v) * (x - v)) by {
      assert Parabola(yl, ym, yr, x) == ym + b * x + a * x * x;
      assert Parabola(yl, ym, yr, v) == ym + b * v + a * v * v;
    }
    var q := (x - v) * (x - v);
    assert q >= 0.0;
    assert a * q >= 0.0 by { MulNonNegative(a, q); }
  }
}
