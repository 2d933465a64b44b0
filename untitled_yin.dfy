/**
 * The `yin` estimator of web-tuner-app/src/components/Untitled-1.ts (the
 * `src/utils/yin.ts` part of that file): the difference function written into
 * a buffer of half the frame, turned into the CMNDF in place without a guard
 * on the running sum, a scan from lag 2 with threshold 0.10, and parabolic
 * refinement whenever the lag has a right neighbour.
 */
module UntitledYin {
  import opened JsNumbers
  import opened Yin

  const Threshold: real := 0.10

  /** Step 1: yinBuffer[t] accumulates d(t) over the first half of the frame. */
  method FillDifference(x: seq<real>, yin: array<JsNum>)
    requires yin.Length == |x| / 2
    modifies yin
    ensures forall t :: 0 <= t < yin.Length ==> yin[t] == Num(SqDiff(x, t, yin.Length))
  {
    var half := yin.Length;
    for t := 0 to half
      invariant forall u :: 0 <= u < t ==> yin[u] == Num(SqDiff(x, u, half))
    {
      yin[t] := Num(0.0);
      for i := 0 to half
        invariant yin[t] == Num(SqDiff(x, t, i))
        invariant forall u :: 0 <= u < t ==> yin[u] == Num(SqDiff(x, u, half))
      {
        var delta := x[i] - x[i + t];
        yin[t] := Num(yin[t].v + delta * delta);
      }
    }
  }

  /**
   * Step 2: yinBuffer[0] = 1, then each entry is scaled by t / runningSum in
   * place, which is NaN while the running sum is still 0.
   */
  method Normalize(ghost x: seq<real>, yin: array<JsNum>)
    requires yin.Length == |x| / 2
    requires forall t :: 0 <= t < yin.Length ==> yin[t] == Num(SqDiff(x, t, yin.Length))
    modifies yin
    ensures yin[..] == CmndfSeq(x, yin.Length)
  {
    var half := yin.Length;
    if half > 0 {
      yin[0] := Num(1.0);
    }
    assert 2 * half <= |x|;
    var runningSum := 0.0;
    var t := 1;
    while t < half
      invariant 1 <= t <= half + 1 && (half > 0 ==> t <= half)
      invariant runningSum == CumDiff(x, half, t - 1)
      invariant forall u :: 0 <= u < t && u < half ==> yin[u] == Cmndf(x, half, u)
      invariant forall u :: t <= u < half ==> yin[u] == Num(SqDiff(x, u, half))
    {
      CmndfStep(x, half, t, runningSum);
      runningSum := runningSum + yin[t].v;
      yin[t] := ScaleByLag(yin[t].v, t, runningSum);
      t := t + 1;
    }
    assert yin[..] == CmndfSeq(x, half);
  }

  /** Steps 1-3: a fresh buffer of half the frame's length holding the CMNDF. */
  method BuildCmndf(x: seq<real>) returns (yin: array<JsNum>)
    ensures fresh(yin) && yin.Length == |x| / 2
    ensures yin[..] == CmndfSeq(x, |x| / 2)
    ensures forall u :: 0 <= u < yin.Length ==> yin[u] == Cmndf(x, |x| / 2, u)
  {
    yin := new JsNum[|x| / 2](_ => Num(0.0));
    FillDifference(x, yin);
    Normalize(x, yin);
  }

  /**
   * The whole estimator on one frame of even length. Null exactly when no lag
   * from 2 on dips below 0.10; otherwise the lag is the scan's choice, a local
   * minimum, refined to the vertex of the parabola through its neighbours
   * whenever it has a right neighbour, and the result is sampleRate / betterTau.
   */
  method Estimate(x: seq<real>, sampleRate: real) returns (r: Option<real>, ghost first: int, ghost tau: int, ghost betterTau: real)
    requires |x| % 2 == 0
    ensures r.None? <==> forall t :: 2 <= t < |x| / 2 ==> !Lt(Cmndf(x, |x| / 2, t), Num(Threshold))
    ensures r.Some? ==> IsDipChoice(CmndfSeq(x, |x| / 2), 2, |x| / 2 - 1, Threshold, first, tau)
    ensures r.Some? ==>
              Cmndf(x, |x| / 2, tau - 1).Num? && Cmndf(x, |x| / 2, tau).Num? &&
              Cmndf(x, |x| / 2, tau - 1).v > Cmndf(x, |x| / 2, tau).v
    ensures r.Some? && tau + 1 < |x| / 2 ==>
      IsVertexOffset(Cmndf(x, |x| / 2, tau - 1), Cmndf(x, |x| / 2, tau), Cmndf(x, |x| / 2, tau + 1), betterTau - tau as real)
    ensures r.Some? && tau + 1 == |x| / 2 ==> betterTau == tau as real
    ensures r.Some? ==> tau as real - 0.5 < betterTau <= tau as real + 0.5
    ensures r.Some? ==> r.value == sampleRate / betterTau
  {
    var half := |x| / 2;
    var yin := BuildCmndf(x);
    var t, better;
    t, first := ScanForDip(yin, 2, half - 1, Threshold);
    if t == -1 {
      return None, first, t, 0.0;
    }
    tau := t;
    DipChoiceIsLocalMinimum(x, half, half - 1, Threshold, first, tau);
    better := RefineLag(yin, t);
    betterTau := better;
    r := Some(sampleRate / better);
  }

  /**
   * Step 4: the neighbours of the chosen lag, clamped to the buffer, and the
   * vertex of the parabola through them when both neighbours exist; at the
   * right edge the lag is kept. Around a local minimum the vertex is within
   * half a lag.
   */
  method RefineLag(yin: array<JsNum>, t: int) returns (better: real)
    requires 1 <= t < yin.Length
    requires yin[t - 1].Num? && yin[t].Num? && yin[t - 1].v > yin[t].v
    requires t + 1 < yin.Length ==> yin[t + 1].Num? && yin[t + 1].v >= yin[t].v
    ensures t + 1 < yin.Length ==> IsVertexOffset(yin[t - 1], yin[t], yin[t + 1], better - t as real)
    ensures t + 1 == yin.Length ==> better == t as real
    ensures t as real - 0.5 < better <= t as real + 0.5
  {
    var x0 := t;
    var x2 := if t + 1 < yin.Length then t + 1 else t;
    var x1 := if t - 1 >= 0 then t - 1 else t;
    var s0, s1, s2 := yin[x0].v, yin[x1].v, yin[x2].v;
    better := t as real;
    if x0 != x1 && x0 != x2 {
      VertexWithinHalf(s1, s0, s2);
      VertexOffsetNegated(s1, s0, s2);
      var offset := (s2 - s1) / (2.0 * (2.0 * s0 - s2 - s1));
      assert -0.5 < offset <= 0.5;
      better := t as real + offset;
    }
  }
}
