/**
 * `detectPitch` of my-nextjs-app/src/utils/pitchDetection.ts: YIN on a frame
 * decimated to about 2048 samples and centred on its mean, over the lag window
 * [minLag, maxLag] fixed by the 50-1200 Hz range, with a running sum guarded
 * by 1e-10, a threshold scan at 0.12, a fallback to the window minimum when
 * it is below 0.6, and parabolic refinement.
 */
module NextPitch {
  import opened JsNumbers
  import opened Yin

  const MinSamples: nat := 64
  const MinFreq: real := 50.0
  const MaxFreq: real := 1200.0
  const Threshold: real := 0.12
  const TargetSize: nat := 2048
  const Lenient: real := 0.6
  /** The divisor `runningSum || 1e-10` uses while the running sum is 0. */
  const Epsilon: real := 0.0000000001

  /** step = max(1, floor(len / 2048)). */
  function Step(len: nat): (step: nat)
    ensures step >= 1
  {
    if len / TargetSize > 1 then len / TargetSize else 1
  }

  /** A frame that passes the 64-sample check still has at least 64 samples after decimation. */
  lemma DecimatedLengthAtLeast64(len: nat)
    requires len >= MinSamples
    ensures len / Step(len) >= MinSamples
  {
    var q := len / TargetSize;
    if q > 1 {
      var n := len / q;
      assert len == n * q + len % q && len % q < q;
      assert TargetSize * q <= len;
      assert (n + 1) * q > TargetSize * q - 1;
      MulCancel(n + 1, TargetSize, q);
    }
  }

  lemma MulCancel(a: int, b: int, c: int)
    requires c > 0 && a * c > b * c - 1
    ensures a >= b
  {
  }

  lemma StrideInBounds(len: nat, step: nat, j: nat)
    requires step >= 1 && j < len / step
    ensures j * step < len
  {
    var n := len / step;
    assert (j + 1) * step <= n * step;
    assert n * step <= len;
  }

  lemma NextStride(j: nat, step: nat)
    ensures (j + 1) * step == j * step + step
  {
  }

  /** decimated[j] = samples[j * step] for j < floor(len / step). */
  function Decimated(samples: seq<real>, step: nat): (d: seq<real>)
    requires step >= 1
    ensures |d| == |samples| / step
    ensures forall j :: 0 <= j < |d| ==> j * step < |samples| && d[j] == samples[j * step]
  {
    seq(|samples| / step, j requires 0 <= j < |samples| / step =>
      StrideInBounds(|samples|, step, j); samples[j * step])
  }

  function Sum(s: seq<real>): real
  {
    if |s| == 0 then 0.0 else Sum(s[..|s| - 1]) + s[|s| - 1]
  }

  /** The samples minus their mean. */
  function Centered(d: seq<real>): (c: seq<real>)
    requires |d| > 0
    ensures |c| == |d|
  {
    seq(|d|, i requires 0 <= i < |d| => d[i] - Sum(d) / |d| as real)
  }

  /** Subtracting the same amount from every element subtracts it |d| times from the sum. */
  lemma {:induction false} SumMinusConstant(d: seq<real>, c: real, e: seq<real>)
    requires |e| == |d| && forall i :: 0 <= i < |d| ==> e[i] == d[i] - c
    ensures Sum(e) == Sum(d) - |d| as real * c
    decreases |d|
  {
    if |d| > 0 {
      var k := |d| - 1;
      SumMinusConstant(d[..k], c, e[..k]);
    }
  }

  /** After mean removal the samples sum to zero. */
  lemma CenteredSumsToZero(d: seq<real>)
    requires |d| > 0
    ensures Sum(Centered(d)) == 0.0
  {
    SumMinusConstant(d, Sum(d) / |d| as real, Centered(d));
  }

  /** Lines 9-15: copy every step-th sample, accumulating their sum. */
  method DecimateStrided(samples: seq<real>, step: nat) returns (decimated: array<real>, total: real)
    requires step >= 1 && |samples| / step > 0
    ensures fresh(decimated)
    ensures decimated[..] == Decimated(samples, step) && total == Sum(decimated[..])
  {
    var n := |samples| / step;
    ghost var d := Decimated(samples, step);
    decimated := new real[n];
    total := 0.0;
    var i, j := 0, 0;
    while i < |samples| && j < n
      invariant 0 <= j <= n && i == j * step
      invariant j < n ==> i < |samples|
      invariant total == Sum(d[..j])
      invariant decimated[..j] == d[..j]
    {
      assert samples[i] == d[j];
      assert d[..j + 1][..j] == d[..j];
      total := total + samples[i];
      decimated[j] := samples[i];
      NextStride(j, step);
      i, j := i + step, j + 1;
      if j < n {
        StrideInBounds(|samples|, step, j);
      }
    }
    assert d[..j] == d;
    assert decimated[..] == decimated[..j];
  }

  /** Lines 16-19: subtract the mean from every element in place. */
  method SubtractMean(a: array<real>, mean: real)
    modifies a
    ensures forall k :: 0 <= k < a.Length ==> a[k] == old(a[k]) - mean
  {
    for k := 0 to a.Length
      invariant forall m :: 0 <= m < k ==> a[m] == old(a[m]) - mean
      invariant forall m :: k <= m < a.Length ==> a[m] == old(a[m])
    {
      a[k] := a[k] - mean;
    }
  }

  /**
   * Lines 9-19: decimate with the strided loop, accumulating the mean, then
   * subtract the mean in place.
   */
  method DecimateAndCenter(samples: seq<real>, step: nat) returns (decimated: array<real>)
    requires step >= 1 && |samples| / step > 0
    ensures fresh(decimated)
    ensures decimated[..] == Centered(Decimated(samples, step))
  {
    var n := |samples| / step;
    ghost var d := Decimated(samples, step);
    var total;
    decimated, total := DecimateStrided(samples, step);
    SubtractMean(decimated, total / n as real);
    assert forall k :: 0 <= k < n ==> decimated[k] == Centered(d)[k];
  }

  function MinInt(a: int, b: int): int { if a <= b then a else b }

  function MaxInt(a: int, b: int): int { if a >= b then a else b }

  /** maxLag = min(floor(n / 2), ceil(sr / 50)). */
  function MaxLag(n: nat, sr: real): (hi: int)
    ensures hi <= n / 2
  {
    MinInt(n / 2, Ceil(sr / MinFreq))
  }

  /** minLag = max(2, floor(sr / 1200)). */
  function MinLag(sr: real): (lo: int)
    ensures lo >= 2
  {
    MaxInt(2, (sr / MaxFreq).Floor)
  }

  /** d(tau) over the whole decimated frame: the positions i < n - tau. */
  function DiffAt(x: seq<real>, tau: nat): (r: real)
    requires tau <= |x|
    ensures r >= 0.0
  {
    SqDiff(x, tau, |x| - tau)
  }

  /** The running sum d(lo) + ... + d(t) of the window. */
  function WindowSum(x: seq<real>, lo: nat, t: nat): (r: real)
    requires 1 <= lo && t <= |x|
    ensures r >= 0.0
  {
    if t < lo then 0.0 else WindowSum(x, lo, t - 1) + DiffAt(x, t)
  }

  /** (d * tau) / (runningSum || 1e-10): a zero running sum is replaced by 1e-10. */
  function Normalized(d: real, tau: nat, runningSum: real): (r: real)
    requires d >= 0.0 && runningSum >= 0.0
    ensures r >= 0.0
  {
    d * tau as real / (if runningSum == 0.0 then Epsilon else runningSum)
  }

  predicate AllNum(s: seq<JsNum>)
  {
    forall t :: 0 <= t < |s| ==> s[t].Num?
  }

  /**
   * The buffer entry the scan reads at lag t: 0 at lag 0 (the zero-filled
   * array is never written there), 1 at lags 1 .. minLag - 1, and the
   * normalised difference with the window's running sum from minLag on.
   */
  function WindowEntry(x: seq<real>, lo: nat, t: nat): (e: JsNum)
    requires 2 <= lo && t <= |x|
    ensures e.Num? && e.v >= 0.0
  {
    if t == 0 then Num(0.0)
    else if t < lo then Num(1.0)
    else Num(Normalized(DiffAt(x, t), t, WindowSum(x, lo, t)))
  }

  /** The whole buffer of maxLag + 1 entries. */
  function YinWindow(x: seq<real>, lo: nat, hi: nat): (s: seq<JsNum>)
    requires 2 <= lo && hi <= |x|
    ensures |s| == hi + 1 && AllNum(s)
  {
    seq(hi + 1, t requires 0 <= t <= hi => WindowEntry(x, lo, t))
  }

  /** Lines 27-37: the zero-filled buffer of maxLag + 1 entries with d(tau) written on the window. */
  method DifferenceWindow(x: array<real>, lo: nat, hi: nat) returns (yin: array<JsNum>)
    requires 2 <= lo <= hi <= x.Length / 2
    ensures fresh(yin) && yin.Length == hi + 1
    ensures forall t :: 0 <= t < lo ==> yin[t] == Num(0.0)
    ensures forall t :: lo <= t <= hi ==> yin[t] == Num(DiffAt(x[..], t))
  {
    yin := new JsNum[hi + 1](_ => Num(0.0));
    for tau := lo to hi + 1
      invariant forall t :: 0 <= t < lo ==> yin[t] == Num(0.0)
      invariant forall t :: lo <= t < tau ==> yin[t] == Num(DiffAt(x[..], t))
    {
      var sum := 0.0;
      var limit := x.Length - tau;
      for i := 0 to limit
        invariant sum == SqDiff(x[..], tau, i)
      {
        var delta := x[i] - x[i + tau];
        sum := sum + delta * delta;
      }
      yin[tau] := Num(sum);
    }
  }

  /** Lines 39-44: lags below minLag become 1 and the window is normalised in place. */
  method NormalizeWindow(ghost x: seq<real>, yin: array<JsNum>, lo: nat, hi: nat)
    requires 2 <= lo <= hi <= |x| && yin.Length == hi + 1
    requires forall t :: 0 <= t < lo ==> yin[t] == Num(0.0)
    requires forall t :: lo <= t <= hi ==> yin[t] == Num(DiffAt(x, t))
    modifies yin
    ensures yin[..] == YinWindow(x, lo, hi)
  {
    var runningSum := 0.0;
    for tau := 1 to lo
      invariant forall t :: 0 <= t < tau ==> yin[t] == WindowEntry(x, lo, t)
      invariant forall t :: lo <= t <= hi ==> yin[t] == Num(DiffAt(x, t))
    {
      yin[tau] := Num(1.0);
    }
    for tau := lo to hi + 1
      invariant runningSum == WindowSum(x, lo, tau - 1)
      invariant forall t :: 0 <= t < tau ==> yin[t] == WindowEntry(x, lo, t)
      invariant forall t :: tau <= t <= hi ==> yin[t] == Num(DiffAt(x, t))
    {
      runningSum := runningSum + yin[tau].v;
      yin[tau] := Num(Normalized(yin[tau].v, tau, runningSum));
    }
    assert yin[..] == YinWindow(x, lo, hi);
  }

  /** `idx` is the first index of the smallest entry of the window. */
  predicate IsFirstMin(s: seq<JsNum>, lo: int, hi: int, idx: int)
    requires 0 <= lo && hi < |s| && forall t :: lo <= t <= hi ==> s[t].Num?
  {
    lo <= idx <= hi &&
    (forall t :: lo <= t <= hi ==> s[idx].v <= s[t].v) &&
    (forall t :: lo <= t < idx ==> s[idx].v < s[t].v)
  }

  /** Lines 56-63: minVal starts at Infinity and only a strictly smaller entry replaces it. */
  method WindowArgMin(yin: array<JsNum>, lo: nat, hi: nat) returns (minVal: JsNum, minIdx: int)
    requires lo <= hi < yin.Length
    requires forall t :: lo <= t <= hi ==> yin[t].Num?
    ensures IsFirstMin(yin[..], lo, hi, minIdx) && minVal == yin[minIdx]
  {
    minVal := PosInf;
    minIdx := -1;
    for tau := lo to hi + 1
      invariant tau == lo ==> minVal == PosInf && minIdx == -1
      invariant tau > lo ==> lo <= minIdx < tau && minVal == yin[minIdx]
      invariant tau > lo ==> forall t :: lo <= t < tau ==> minVal.v <= yin[t].v
      invariant tau > lo ==> forall t :: lo <= t < minIdx ==> minVal.v < yin[t].v
    {
      if Lt(yin[tau], minVal) {
        minVal := yin[tau];
        minIdx := tau;
      }
    }
  }

  /**
   * Lines 68-75 as written: betterTau = tau + (s2 - s0) / (2 * denom), which
   * puts the lag on the far side of the vertex.
   */
  function RefineAsWritten(s: seq<JsNum>, tau: int, hi: int): (betterTau: real)
    requires 0 <= tau <= hi < |s| && AllNum(s)
    ensures tau > 1 && tau + 1 <= hi && s[tau - 1].v + s[tau + 1].v - 2.0 * s[tau].v != 0.0 ==>
      betterTau == tau as real - VertexOffset(s[tau - 1].v, s[tau].v, s[tau + 1].v)
  {
    if tau > 1 && tau + 1 <= hi then
      var s0, s1, s2 := s[tau - 1].v, s[tau].v, s[tau + 1].v;
      var denom := s0 + s2 - 2.0 * s1;
      if denom != 0.0 then
        NegatedNumerator(s0 - s2, 2.0 * denom);
        tau as real + (s2 - s0) / (2.0 * denom)
      else tau as real
    else tau as real
  }

  /**
   * Lines 68-75 with the vertex offset: refined only when tau > 1,
   * tau + 1 <= maxLag and the denominator is non-zero, and then to the
   * vertex of the parabola through the three entries.
   */
  function Refine(s: seq<JsNum>, tau: int, hi: int): (betterTau: real)
    requires 0 <= tau <= hi < |s| && AllNum(s)
    ensures tau > 1 && tau + 1 <= hi && s[tau - 1].v + s[tau + 1].v - 2.0 * s[tau].v != 0.0 ==>
      IsVertexOffset(s[tau - 1], s[tau], s[tau + 1], betterTau - tau as real)
    ensures !(tau > 1 && tau + 1 <= hi && s[tau - 1].v + s[tau + 1].v - 2.0 * s[tau].v != 0.0) ==>
      betterTau == tau as real
  {
    if tau > 1 && tau + 1 <= hi then
      var s0, s1, s2 := s[tau - 1].v, s[tau].v, s[tau + 1].v;
      var denom := s0 + s2 - 2.0 * s1;
      if denom != 0.0 then tau as real + (s0 - s2) / (2.0 * denom) else tau as real
    else tau as real
  }

  /**
   * At a local minimum of the buffer with a strictly higher left neighbour
   * the refinement always applies (the denominator is positive) and moves the
   * lag by less than half a lag.
   */
  lemma RefineAtLocalMinimum(s: seq<JsNum>, tau: int, hi: int)
    requires 2 <= tau <= hi < |s| && AllNum(s)
    requires s[tau - 1].v > s[tau].v
    requires tau + 1 <= hi ==> s[tau + 1].v >= s[tau].v
    ensures tau + 1 <= hi ==> s[tau - 1].v + s[tau + 1].v - 2.0 * s[tau].v > 0.0
    ensures tau as real - 0.5 < Refine(s, tau, hi) <= tau as real + 0.5
  {
    if tau + 1 <= hi {
      VertexWithinHalf(s[tau - 1].v, s[tau].v, s[tau + 1].v);
    }
  }

  /** The written refinement is the mirror image of the vertex about tau. */
  lemma RefineAsWrittenIsMirror(s: seq<JsNum>, tau: int, hi: int)
    requires 0 <= tau <= hi < |s| && AllNum(s)
    ensures RefineAsWritten(s, tau, hi) - tau as real == tau as real - Refine(s, tau, hi)
  {
    if tau > 1 && tau + 1 <= hi {
      var s0, s1, s2 := s[tau - 1].v, s[tau].v, s[tau + 1].v;
      var denom := s0 + s2 - 2.0 * s1;
      if denom != 0.0 {
        NegatedNumerator(s0 - s2, 2.0 * denom);
        assert s2 - s0 == -(s0 - s2);
      }
    }
  }

  /** At such a local minimum the written refinement also stays within half a lag, on the side away from the vertex. */
  lemma RefineAsWrittenAtLocalMinimum(s: seq<JsNum>, tau: int, hi: int)
    requires 2 <= tau <= hi < |s| && AllNum(s)
    requires s[tau - 1].v > s[tau].v
    requires tau + 1 <= hi ==> s[tau + 1].v >= s[tau].v
    ensures tau as real - 0.5 <= RefineAsWritten(s, tau, hi) < tau as real + 0.5
  {
    RefineAtLocalMinimum(s, tau, hi);
    RefineAsWrittenIsMirror(s, tau, hi);
  }

  /**
   * The lag the scan or the fallback settles on is such a local minimum: the
   * entry left of the window is 1, above both the threshold and 0.6.
   */
  lemma ChosenLagIsLocalMinimum(x: seq<real>, lo: nat, hi: nat, first: int, lag: int)
    requires 2 <= lo <= hi <= |x|
    requires IsDipChoice(YinWindow(x, lo, hi), lo, hi, Threshold, first, lag) ||
             (IsFirstMin(YinWindow(x, lo, hi), lo, hi, lag) && YinWindow(x, lo, hi)[lag].v < Lenient)
    ensures lo <= lag <= hi
    ensures YinWindow(x, lo, hi)[lag - 1].v > YinWindow(x, lo, hi)[lag].v
    ensures lag + 1 <= hi ==> YinWindow(x, lo, hi)[lag + 1].v >= YinWindow(x, lo, hi)[lag].v
  {
    var s := YinWindow(x, lo, hi);
    if IsDipChoice(s, lo, hi, Threshold, first, lag) {
      if lag > first {
        assert Lt(s[lag - 1 + 1], s[lag - 1]);
      } else if first > lo {
        assert !Lt(s[first - 1], Num(Threshold));
      }
      if lag + 1 <= hi {
        assert !Lt(s[lag + 1], s[lag]);
      }
    }
  }

  /** The finding's witness: on entries 2.5, 0.1, 0.9 the written formula lands a quarter lag left of the vertex. */
  lemma RefineAsWrittenMirrorsVertex(s: seq<JsNum>, tau: int, hi: int)
    requires 2 <= tau && tau + 1 <= hi < |s| && AllNum(s)
    requires s[tau - 1] == Num(2.5) && s[tau] == Num(0.1) && s[tau + 1] == Num(0.9)
    ensures RefineAsWritten(s, tau, hi) == tau as real - 0.25
    ensures Refine(s, tau, hi) == tau as real + 0.25
  {
    assert VertexOffset(2.5, 0.1, 0.9) == 0.25;
  }

  /** The decimated, centred frame and the lag window derived from one input frame. */
  datatype Frame = Frame(step: nat, x: seq<real>, lo: int, hi: int)

  function Prepare(samples: seq<real>, sampleRate: real): (f: Frame)
    requires |samples| >= MinSamples && sampleRate > 0.0
    ensures f.step == Step(|samples|) && |f.x| == |samples| / f.step >= MinSamples
    ensures Sum(f.x) == 0.0
    ensures 2 <= f.lo && f.hi <= |f.x| / 2
  {
    var step := Step(|samples|);
    DecimatedLengthAtLeast64(|samples|);
    var x := Centered(Decimated(samples, step));
    CenteredSumsToZero(Decimated(samples, step));
    var sr := sampleRate / step as real;
    Frame(step, x, MinLag(sr), MaxLag(|x|, sr))
  }

  /** Lines 27-44: the CMNDF buffer of maxLag + 1 entries. */
  method BuildYinBuffer(x: array<real>, lo: nat, hi: nat) returns (yin: array<JsNum>)
    requires 2 <= lo <= hi <= x.Length / 2
    ensures fresh(yin)
    ensures yin[..] == YinWindow(x[..], lo, hi)
  {
    yin := DifferenceWindow(x, lo, hi);
    NormalizeWindow(x[..], yin, lo, hi);
  }

  /**
   * Lines 46-66: the threshold scan, and when it finds nothing the first
   * window minimum provided it is below 0.6; -1 when neither applies.
   */
  method ChooseLag(yin: array<JsNum>, lo: nat, hi: nat) returns (lag: int, ghost first: int)
    requires 2 <= lo <= hi < yin.Length && AllNum(yin[..])
    ensures lag == -1 <==> NoDip(yin[..], lo, hi, Threshold) && forall t :: lo <= t <= hi ==> yin[t].v >= Lenient
    ensures lag != -1 && !NoDip(yin[..], lo, hi, Threshold) ==> IsDipChoice(yin[..], lo, hi, Threshold, first, lag)
    ensures lag != -1 && NoDip(yin[..], lo, hi, Threshold) ==> IsFirstMin(yin[..], lo, hi, lag) && yin[lag].v < Lenient
  {
    lag, first := ScanForDip(yin, lo, hi, Threshold);
    if lag == -1 {
      var minVal, minIdx := WindowArgMin(yin, lo, hi);
      if minIdx > 0 && minVal.v < Lenient {
        lag := minIdx;
      } else {
        assert forall t :: lo <= t <= hi ==> yin[t].v >= minVal.v;
      }
    }
  }

  /** Lines 68-75 as written: the mirror image of the vertex about tauEstimate. */
  method RefineLag(yin: array<JsNum>, tauEstimate: int, maxLag: int) returns (betterTau: real)
    requires 0 <= tauEstimate <= maxLag < yin.Length && AllNum(yin[..])
    ensures betterTau == RefineAsWritten(yin[..], tauEstimate, maxLag)
    ensures betterTau - tauEstimate as real == tauEstimate as real - Refine(yin[..], tauEstimate, maxLag)
  {
    RefineAsWrittenIsMirror(yin[..], tauEstimate, maxLag);
    betterTau := tauEstimate as real;
    if tauEstimate > 1 && tauEstimate + 1 <= maxLag {
      var s0, s1, s2 := yin[tauEstimate - 1].v, yin[tauEstimate].v, yin[tauEstimate + 1].v;
      var denom := s0 + s2 - 2.0 * s1;
      if denom != 0.0 {
        betterTau := tauEstimate as real + (s2 - s0) / (2.0 * denom);
      }
    }
  }

  /** sampleRate / (betterTau * step): finite and positive for a positive rate and lag. */
  function Frequency(sampleRate: real, betterTau: real, step: nat): (f: real)
    requires sampleRate > 0.0 && betterTau > 0.0 && step >= 1
    ensures f > 0.0
  {
    PositiveQuotient(sampleRate, betterTau * step as real);
    sampleRate / (betterTau * step as real)
  }

  /**
   * What the whole estimator yields. Null for a frame of fewer than 64
   * samples, a non-positive sample rate, an empty lag window, or when no lag
   * dips below 0.12 and the window minimum is at least 0.6. Otherwise the lag
   * is the scan's choice or the first window minimum, the refined lag is line
   * 74's mirror image of the vertex, within half a lag of it, and the result
   * is sampleRate / (betterTau * step).
   */
  ghost predicate IsDetectedPitch(samples: seq<real>, sampleRate: real, r: Option<real>, first: int, lag: int, betterTau: real)
  {
    (|samples| < MinSamples || sampleRate <= 0.0 ==> r.None?) &&
    (|samples| >= MinSamples && sampleRate > 0.0 ==>
       var f := Prepare(samples, sampleRate);
       var s := YinWindow(f.x, f.lo, f.hi);
       (f.lo >= f.hi ==> r.None?) &&
       (f.lo < f.hi ==>
          (r.None? <==> NoDip(s, f.lo, f.hi, Threshold) && forall t :: f.lo <= t <= f.hi ==> s[t].v >= Lenient) &&
          (r.Some? && !NoDip(s, f.lo, f.hi, Threshold) ==> IsDipChoice(s, f.lo, f.hi, Threshold, first, lag)) &&
          (r.Some? && NoDip(s, f.lo, f.hi, Threshold) ==> IsFirstMin(s, f.lo, f.hi, lag) && s[lag].v < Lenient) &&
          (r.Some? ==> betterTau == RefineAsWritten(s, lag, f.hi) &&
                       betterTau - lag as real == lag as real - Refine(s, lag, f.hi) &&
                       lag as real - 0.5 <= betterTau < lag as real + 0.5 &&
                       r == Some(Frequency(sampleRate, betterTau, f.step)))))
  }

  /** Lines 1-79: the whole estimator; a found frequency is positive. */
  method DetectPitch(samples: seq<real>, sampleRate: real) returns (r: Option<real>, ghost first: int, ghost lag: int, ghost betterTau: real)
    ensures IsDetectedPitch(samples, sampleRate, r, first, lag, betterTau)
    ensures r.Some? ==> r.value > 0.0
  {
    first, lag, betterTau := -1, -1, 0.0;
    if |samples| < MinSamples || sampleRate <= 0.0 {
      return None, first, lag, betterTau;
    }
    ghost var f := Prepare(samples, sampleRate);
    var step := Step(|samples|);
    DecimatedLengthAtLeast64(|samples|);
    var decimated := DecimateAndCenter(samples, step);
    var n := decimated.Length;
    var sr := sampleRate / step as real;
    var maxLag := MaxLag(n, sr);
    var minLag := MinLag(sr);
    assert decimated[..] == f.x && minLag == f.lo && maxLag == f.hi;
    if minLag >= maxLag {
      return None, first, lag, betterTau;
    }
    var yin := BuildYinBuffer(decimated, minLag, maxLag);
    var tauEstimate;
    tauEstimate, first := ChooseLag(yin, minLag, maxLag);
    if tauEstimate == -1 {
      return None, first, lag, betterTau;
    }
    lag := tauEstimate;
    ChosenLagIsLocalMinimum(decimated[..], minLag, maxLag, first, lag);
    RefineAsWrittenAtLocalMinimum(yin[..], lag, maxLag);
    var refined := RefineLag(yin, tauEstimate, maxLag);
    betterTau := refined;
    r := Some(Frequency(sampleRate, refined, step));
  }

  lemma NegatedNumerator(a: real, b: real)
    requires b != 0.0
    ensures (-a) / b == -(a / b)
  {
  }

  lemma PositiveQuotient(a: real, b: real)
    requires a > 0.0 && b > 0.0
    ensures a / b > 0.0
  {
  }
}
