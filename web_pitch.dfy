/**
 * `getPitch` of web-tuner-app/src/utils/pitchDetection.ts: YIN over a buffer
 * of floor(bufferSize / 2) lags with the difference and CMNDF computed in one
 * pass, a threshold scan from lag 2 (threshold 0.12 unless given), parabolic
 * refinement, a guard that keeps the refined lag inside (0, bufferSize), and a
 * 50-1200 Hz filter on the result.
 */
module WebPitch {
  import opened JsNumbers
  import opened Yin

  const DefaultThreshold: real := 0.12
  const MinFrequency: real := 50.0
  const MaxFrequency: real := 1200.0

  /**
   * squaredDifference / ((1 / t) * runningSum). The running sum includes the
   * squared difference, so when it is 0 the quotient is 0 / 0, i.e. NaN.
   */
  function DivideByMean(squaredDifference: real, t: nat, runningSum: real): (r: JsNum)
    requires t >= 1
    ensures r.NaN? <==> runningSum == 0.0
    ensures r.Num? ==> r.v == squaredDifference * t as real / runningSum
  {
    if runningSum == 0.0 then NaN
    else
      QuotientByMean(squaredDifference, t as real, runningSum);
      Num(squaredDifference / ((1.0 / t as real) * runningSum))
  }

  /** Dividing by the mean of the running sum gives d'(t). */
  lemma {:induction false} DivideByMeanIsCmndf(x: seq<real>, count: nat, t: nat, runningSum: real)
    requires 1 <= t && count + t <= |x|
    requires runningSum == CumDiff(x, count, t - 1)
    ensures Cmndf(x, count, t) == DivideByMean(SqDiff(x, t, count), t, runningSum + SqDiff(x, t, count))
  {
    var d := SqDiff(x, t, count);
    var rs := runningSum + d;
    assert CumDiff(x, count, t) == rs;
    if rs != 0.0 {
      QuotientByMean(d, t as real, rs);
    }
  }

  lemma QuotientByMean(d: real, t: real, rs: real)
    requires t > 0.0 && rs != 0.0
    ensures d / ((1.0 / t) * rs) == d * t / rs
  {
    var m := (1.0 / t) * rs;
    assert m * t == rs;
    var q := d / m;
    assert q * m == d;
    assert q * rs == (q * m) * t;
    var p := d * t / rs;
    assert p * rs == d * t;
    assert (q - p) * rs == 0.0;
  }

  /**
   * Steps 1 and 2: a buffer of floor(bufferSize / 2) entries holding 1 at lag
   * 0 and d'(t) at every lag t >= 1; every read buffer[i + t] is in bounds.
   */
  method CmndfBuffer(buffer: seq<real>) returns (yin: array<JsNum>)
    ensures fresh(yin)
    ensures yin.Length == |buffer| / 2
    ensures yin[..] == CmndfSeq(buffer, |buffer| / 2)
  {
    var half := |buffer| / 2;
    assert 2 * half <= |buffer|;
    yin := new JsNum[half](_ => Num(0.0));
    var runningSum := 0.0;
    if half > 0 {
      yin[0] := Num(1.0);
    }
    var t := 1;
    while t < half
      invariant 1 <= t <= half + 1 && (half > 0 ==> t <= half)
      invariant runningSum == CumDiff(buffer, half, t - 1)
      invariant forall u :: 0 <= u < t && u < half ==> yin[u] == Cmndf(buffer, half, u)
    {
      var squaredDifference := 0.0;
      for i := 0 to half
        invariant squaredDifference == SqDiff(buffer, t, i)
      {
        var delta := buffer[i] - buffer[i + t];
        squaredDifference := squaredDifference + delta * delta;
      }
      DivideByMeanIsCmndf(buffer, half, t, runningSum);
      runningSum := runningSum + squaredDifference;
      yin[t] := DivideByMean(squaredDifference, t, runningSum);
      t := t + 1;
    }
    assert yin[..] == CmndfSeq(buffer, half);
  }

  /** No CMNDF entry is +Infinity. */
  predicate Finite(s: seq<JsNum>)
  {
    forall t :: 0 <= t < |s| ==> !s[t].PosInf?
  }

  lemma CmndfSeqFinite(x: seq<real>, count: nat)
    requires count <= |x| / 2
    ensures Finite(CmndfSeq(x, count))
  {
  }

  /**
   * peakShift: numerator / denominator, or 0 when the denominator is 0; NaN as
   * soon as a neighbour is NaN. Whenever it is a proper quotient it is the
   * offset of the vertex of the parabola through the three entries.
   */
  function PeakShift(y0: JsNum, y1: JsNum, y2: JsNum): (shift: JsNum)
    requires !y0.PosInf? && !y1.PosInf? && !y2.PosInf?
    ensures shift.NaN? <==> y0.NaN? || y1.NaN? || y2.NaN?
    ensures !shift.PosInf?
    ensures shift.Num? && y0.v + y2.v - 2.0 * y1.v == 0.0 ==> shift.v == 0.0
    ensures shift.Num? && y0.v + y2.v - 2.0 * y1.v != 0.0 ==> shift.v == VertexOffset(y0.v, y1.v, y2.v)
  {
    if y0.Num? && y1.Num? && y2.Num? then
      var numerator := y2.v - y0.v;
      var denominator := 2.0 * (2.0 * y1.v - y2.v - y0.v);
      if denominator != 0.0 then
        VertexOffsetNegated(y0.v, y1.v, y2.v);
        Num(numerator / denominator)
      else Num(0.0)
    else NaN
  }

  /** `tau - peakShift` or `tau + peakShift` on JavaScript numbers. */
  function ShiftLag(tau: int, shift: JsNum, mirrored: bool): (r: JsNum)
    requires !shift.PosInf?
    ensures r.NaN? <==> !shift.Num?
    ensures r.Num? ==> r.v - tau as real == (if mirrored then -shift.v else shift.v)
  {
    match shift
    case Num(p) => Num(if mirrored then tau as real - p else tau as real + p)
    case _ => NaN
  }

  /**
   * Step 5 as written: x0 = tau - 1, x2 = tau + 1 clamped to the buffer, and
   * betterTau = tau - peakShift, which moves the lag away from the vertex.
   */
  function RefineAsWritten(s: seq<JsNum>, tau: int): (betterTau: JsNum)
    requires 0 <= tau < |s| && Finite(s)
    ensures !betterTau.PosInf?
    ensures betterTau.Num? && tau >= 1 ==>
      var x2 := if tau + 1 < |s| then tau + 1 else tau;
      PeakShift(s[tau - 1], s[tau], s[x2]).Num? && betterTau.v == tau as real - PeakShift(s[tau - 1], s[tau], s[x2]).v
  {
    var x0 := tau - 1;
    var x2 := if tau + 1 < |s| then tau + 1 else tau;
    if x0 < 0 then Num(tau as real)
    else ShiftLag(tau, PeakShift(s[x0], s[tau], s[x2]), true)
  }

  /** Step 5 with the vertex offset added: betterTau = tau + peakShift. */
  function Refine(s: seq<JsNum>, tau: int): (betterTau: JsNum)
    requires 0 <= tau < |s| && Finite(s)
    ensures !betterTau.PosInf?
    ensures tau >= 1 && s[tau - 1].Num? && s[tau].Num? ==>
      var y2 := if tau + 1 < |s| then s[tau + 1] else s[tau];
      y2.Num? ==>
        betterTau.Num? &&
        (IsVertexOffset(s[tau - 1], s[tau], y2, betterTau.v - tau as real) ||
         (s[tau - 1].v + y2.v - 2.0 * s[tau].v == 0.0 && betterTau.v == tau as real))
  {
    var x0 := tau - 1;
    var x2 := if tau + 1 < |s| then tau + 1 else tau;
    if x0 < 0 then Num(tau as real)
    else ShiftLag(tau, PeakShift(s[x0], s[tau], s[x2]), false)
  }

  /** betterTau falls back to tau unless it lies in (0, bufferSize); NaN fails both tests and stays NaN. */
  function GuardLag(betterTau: JsNum, tau: int, bufferSize: int): (r: JsNum)
    requires !betterTau.PosInf?
    ensures betterTau.Num? && 0.0 < betterTau.v < bufferSize as real ==> r == betterTau
    ensures betterTau.Num? && !(0.0 < betterTau.v < bufferSize as real) ==> r == Num(tau as real)
    ensures betterTau.NaN? ==> r.NaN?
  {
    if betterTau.Num? && (betterTau.v <= 0.0 || betterTau.v >= bufferSize as real) then Num(tau as real)
    else betterTau
  }

  /** sampleRate / betterTau, kept only inside [50, 1200] Hz; a NaN lag gives a NaN frequency, which fails the test. */
  function AcceptFrequency(sampleRate: real, betterTau: JsNum): (r: Option<real>)
    requires betterTau.Num? ==> betterTau.v > 0.0
    requires !betterTau.PosInf?
    ensures r.Some? <==> betterTau.Num? && MinFrequency <= sampleRate / betterTau.v <= MaxFrequency
    ensures r.Some? ==> r.value == sampleRate / betterTau.v
  {
    if betterTau.Num? && sampleRate / betterTau.v >= MinFrequency && sampleRate / betterTau.v <= MaxFrequency then
      Some(sampleRate / betterTau.v)
    else None
  }

  /** The written refinement is the mirror image of the vertex about tau: NaN together, and equally far on the other side. */
  lemma RefineAsWrittenIsMirror(s: seq<JsNum>, tau: int)
    requires 0 <= tau < |s| && Finite(s)
    ensures RefineAsWritten(s, tau).Num? <==> Refine(s, tau).Num?
    ensures RefineAsWritten(s, tau).Num? ==> RefineAsWritten(s, tau).v - tau as real == tau as real - Refine(s, tau).v
  {
  }

  /**
   * What the estimator as written yields. Null when no lag from 2 dips below
   * the threshold; otherwise tau is the scan's choice and the result is the
   * frequency of `tau - peakShift`, guarded, when that lies in [50, 1200] Hz.
   */
  ghost predicate IsPitchOf(buffer: seq<real>, sampleRate: real, threshold: real, r: Option<real>, first: int, tau: int)
  {
    var s := CmndfSeq(buffer, |buffer| / 2);
    (NoDip(s, 2, |buffer| / 2 - 1, threshold) ==> r.None?) &&
    (!NoDip(s, 2, |buffer| / 2 - 1, threshold) ==>
       IsDipChoice(s, 2, |buffer| / 2 - 1, threshold, first, tau) &&
       r == AcceptFrequency(sampleRate, GuardLag(RefineAsWritten(s, tau), tau, |buffer|)))
  }

  /** Lines 23-95: the whole estimator; a found frequency lies in [50, 1200] Hz. */
  method GetPitch(buffer: seq<real>, sampleRate: real, threshold: real) returns (r: Option<real>, ghost first: int, ghost tau: int)
    ensures IsPitchOf(buffer, sampleRate, threshold, r, first, tau)
    ensures r.Some? ==> MinFrequency <= r.value <= MaxFrequency
  {
    var yin := CmndfBuffer(buffer);
    ghost var s := yin[..];
    CmndfSeqFinite(buffer, |buffer| / 2);
    var t;
    t, first := ScanForDip(yin, 2, yin.Length - 1, threshold);
    tau := t;
    if t == -1 {
      return None, first, tau;
    }
    var x0 := t - 1;
    var x2 := if t + 1 < yin.Length then t + 1 else t;
    var betterTau: JsNum;
    if x0 < 0 {
      betterTau := Num(t as real);
    } else {
      var shift := PeakShift(yin[x0], yin[t], yin[x2]);
      betterTau := ShiftLag(t, shift, true);
    }
    assert betterTau == RefineAsWritten(s, t);
    if betterTau.Num? && (betterTau.v <= 0.0 || betterTau.v >= |buffer| as real) {
      betterTau := Num(t as real);
    }
    if betterTau.Num? && sampleRate / betterTau.v >= MinFrequency && sampleRate / betterTau.v <= MaxFrequency {
      r := Some(sampleRate / betterTau.v);
    } else {
      r := None;
    }
  }

  /**
   * With a threshold of at most 1 (the default 0.12 included) the chosen lag
   * has finite neighbours, both the written and the corrected refinement are
   * within half a lag of it, and the (0, bufferSize) guard never fires.
   */
  lemma RefinedLagStaysNear(buffer: seq<real>, threshold: real, first: int, tau: int)
    requires threshold <= 1.0
    requires IsDipChoice(CmndfSeq(buffer, |buffer| / 2), 2, |buffer| / 2 - 1, threshold, first, tau)
    ensures var s := CmndfSeq(buffer, |buffer| / 2);
      Refine(s, tau).Num? && tau as real - 0.5 < Refine(s, tau).v <= tau as real + 0.5 &&
      GuardLag(Refine(s, tau), tau, |buffer|) == Refine(s, tau)
    ensures var s := CmndfSeq(buffer, |buffer| / 2);
      RefineAsWritten(s, tau).Num? && tau as real - 0.5 <= RefineAsWritten(s, tau).v < tau as real + 0.5 &&
      GuardLag(RefineAsWritten(s, tau), tau, |buffer|) == RefineAsWritten(s, tau)
  {
    DipChoiceNeighbours(buffer, threshold, first, tau);
    GuardKeepsRefinement(CmndfSeq(buffer, |buffer| / 2), tau, |buffer|);
    GuardKeepsAsWritten(CmndfSeq(buffer, |buffer| / 2), tau, |buffer|);
  }

  /** The same for the written refinement, which lands on the mirror image of the vertex. */
  lemma GuardKeepsAsWritten(s: seq<JsNum>, tau: int, bufferSize: int)
    requires 2 <= tau < |s| && 2 * |s| <= bufferSize && Finite(s)
    requires s[tau - 1].Num? && s[tau].Num? && s[tau - 1].v > s[tau].v
    requires tau + 1 < |s| ==> s[tau + 1].Num? && s[tau + 1].v >= s[tau].v
    ensures RefineAsWritten(s, tau).Num? && tau as real - 0.5 <= RefineAsWritten(s, tau).v < tau as real + 0.5
    ensures GuardLag(RefineAsWritten(s, tau), tau, bufferSize) == RefineAsWritten(s, tau)
  {
    RefineAtLocalMinimum(s, tau);
    RefineAsWrittenIsMirror(s, tau);
  }

  /** Around a local minimum at a lag of at least 2 in the first half of the frame, the guard keeps the refinement. */
  lemma GuardKeepsRefinement(s: seq<JsNum>, tau: int, bufferSize: int)
    requires 2 <= tau < |s| && 2 * |s| <= bufferSize && Finite(s)
    requires s[tau - 1].Num? && s[tau].Num? && s[tau - 1].v > s[tau].v
    requires tau + 1 < |s| ==> s[tau + 1].Num? && s[tau + 1].v >= s[tau].v
    ensures Refine(s, tau).Num? && tau as real - 0.5 < Refine(s, tau).v <= tau as real + 0.5
    ensures GuardLag(Refine(s, tau), tau, bufferSize) == Refine(s, tau)
  {
    RefineAtLocalMinimum(s, tau);
  }

  /** The scan's choice has finite neighbours, a strictly higher left one and a right one no lower. */
  lemma DipChoiceNeighbours(buffer: seq<real>, threshold: real, first: int, tau: int)
    requires threshold <= 1.0
    requires IsDipChoice(CmndfSeq(buffer, |buffer| / 2), 2, |buffer| / 2 - 1, threshold, first, tau)
    ensures var s := CmndfSeq(buffer, |buffer| / 2);
      2 <= tau < |s| && 2 * |s| <= |buffer| && Finite(s) &&
      s[tau - 1].Num? && s[tau].Num? && s[tau - 1].v > s[tau].v &&
      (tau + 1 < |s| ==> s[tau + 1].Num? && s[tau + 1].v >= s[tau].v)
  {
    var half := |buffer| / 2;
    var s := CmndfSeq(buffer, half);
    CmndfSeqFinite(buffer, half);
    DipChoiceIsLocalMinimum(buffer, half, half - 1, threshold, first, tau);
    assert s[tau - 1] == Cmndf(buffer, half, tau - 1) && s[tau] == Cmndf(buffer, half, tau);
    assert tau + 1 < half ==> s[tau + 1] == Cmndf(buffer, half, tau + 1);
  }

  /** At a local minimum with a strictly higher left neighbour the refinement moves less than half a lag. */
  lemma RefineAtLocalMinimum(s: seq<JsNum>, tau: int)
    requires 1 <= tau < |s| && Finite(s)
    requires s[tau - 1].Num? && s[tau].Num? && s[tau - 1].v > s[tau].v
    requires tau + 1 < |s| ==> s[tau + 1].Num? && s[tau + 1].v >= s[tau].v
    ensures Refine(s, tau).Num? && tau as real - 0.5 < Refine(s, tau).v <= tau as real + 0.5
  {
    var x2 := if tau + 1 < |s| then tau + 1 else tau;
    var y0, y1, y2 := s[tau - 1].v, s[tau].v, s[x2].v;
    VertexWithinHalf(y0, y1, y2);
    var v := VertexOffset(y0, y1, y2);
    assert PeakShift(s[tau - 1], s[tau], s[x2]) == Num(v);
  }

  /**
   * The mirrored sign as written: on CMNDF neighbours 2.5, 0.1, 0.9 (the
   * parabola 1.6 (x - 1/4)^2) the vertex is a quarter lag to the right, the
   * written code moves a quarter lag to the left, where the parabola is 0.4
   * instead of 0, and the corrected refinement lands on the vertex.
   */
  lemma RefineAsWrittenMirrorsVertex(s: seq<JsNum>, tau: int)
    requires 1 <= tau && tau + 1 < |s| && Finite(s)
    requires s[tau - 1] == Num(2.5) && s[tau] == Num(0.1) && s[tau + 1] == Num(0.9)
    ensures RefineAsWritten(s, tau) == Num(tau as real - 0.25)
    ensures Refine(s, tau) == Num(tau as real + 0.25)
    ensures Parabola(2.5, 0.1, 0.9, 0.25) == 0.0 && Parabola(2.5, 0.1, 0.9, -0.25) == 0.4
  {
    assert VertexOffset(2.5, 0.1, 0.9) == 0.25;
  }
}
