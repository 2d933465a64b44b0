/**
 * web-tuner-app/src/utils/audio.ts: `detectPitch`, which takes the sample
 * rate divided by the index of the first sample of largest magnitude (null
 * below an amplitude of 0.01), and `normalizeAudioData`, which maps each
 * sample onto [0, 1] by the frame's minimum and range.
 */
module WebAudio {
  import opened JsNumbers

  const Threshold: real := 0.01

  /** k is the first index of largest magnitude. */
  predicate IsFirstPeak(data: seq<real>, k: int)
  {
    0 <= k < |data| &&
    (forall j :: 0 <= j < |data| ==> Abs(data[j]) <= Abs(data[k])) &&
    (forall j :: 0 <= j < k ==> Abs(data[j]) < Abs(data[k]))
  }

  /** There is at most one first peak. */
  lemma FirstPeakIsUnique(data: seq<real>, k1: int, k2: int)
    requires IsFirstPeak(data, k1) && IsFirstPeak(data, k2)
    ensures k1 == k2
  {
    assert Abs(data[k1]) <= Abs(data[k2]);
    assert Abs(data[k2]) <= Abs(data[k1]);
  }

  /**
   * `detectPitch`: null when every sample is below 0.01 in magnitude (in
   * particular for an empty buffer); otherwise sampleRate / maxIndex for the
   * first peak, which is +Infinity when the peak is the first sample.
   */
  method DetectPitch(data: seq<real>, sampleRate: real) returns (r: Option<JsNum>, ghost maxIndex: int)
    requires sampleRate > 0.0
    ensures r.None? <==> forall i :: 0 <= i < |data| ==> Abs(data[i]) < Threshold
    ensures r.Some? ==>
              IsFirstPeak(data, maxIndex) && Abs(data[maxIndex]) >= Threshold &&
              r.value == (if maxIndex == 0 then PosInf else Num(sampleRate / maxIndex as real))
  {
    var maxAmplitude := 0.0;
    var index := -1;
    for i := 0 to |data|
      invariant -1 <= index < i
      invariant index == -1 ==> maxAmplitude == 0.0 && forall j :: 0 <= j < i ==> Abs(data[j]) <= 0.0
      invariant index >= 0 ==> maxAmplitude == Abs(data[index]) > 0.0 && IsFirstPeak(data[..i], index)
    {
      if Abs(data[i]) > maxAmplitude {
        maxAmplitude := Abs(data[i]);
        index := i;
      }
    }
    assert data[..|data|] == data;
    maxIndex := index;
    if maxAmplitude < Threshold {
      return None, maxIndex;
    }
    r := if index == 0 then Some(PosInf) else Some(Num(sampleRate / index as real));
  }

  /** Flipping the sign of every sample leaves the peak where it was. */
  lemma PeakIgnoresSign(data: seq<real>, k: int)
    ensures IsFirstPeak(data, k) <==> IsFirstPeak(Negated(data), k)
  {
  }

  function Negated(data: seq<real>): (r: seq<real>)
    ensures |r| == |data| && forall i :: 0 <= i < |data| ==> r[i] == -data[i]
  {
    seq(|data|, i requires 0 <= i < |data| => -data[i])
  }

  /** `Math.max(...data)` for a non-empty frame. */
  function SeqMax(data: seq<real>): (m: real)
    requires |data| > 0
    ensures (exists i :: 0 <= i < |data| && data[i] == m) && forall i :: 0 <= i < |data| ==> data[i] <= m
  {
    if |data| == 1 then data[0]
    else
      var rest := SeqMax(data[1..]);
      assert forall i :: 1 <= i < |data| ==> data[i] == data[1..][i - 1];
      if data[0] >= rest then data[0] else rest
  }

  /** `Math.min(...data)` for a non-empty frame. */
  function SeqMin(data: seq<real>): (m: real)
    requires |data| > 0
    ensures (exists i :: 0 <= i < |data| && data[i] == m) && forall i :: 0 <= i < |data| ==> m <= data[i]
  {
    if |data| == 1 then data[0]
    else
      var rest := SeqMin(data[1..]);
      assert forall i :: 1 <= i < |data| ==> data[i] == data[1..][i - 1];
      if data[0] <= rest then data[0] else rest
  }

  /** `(value - min) / range`: 0/0 (NaN) when the range is 0. */
  function Scale(value: real, min: real, range: real): (r: JsNum)
    ensures r.NaN? <==> range == 0.0
    ensures range > 0.0 && min <= value <= min + range ==> r.Num? && 0.0 <= r.v <= 1.0
    ensures r.Num? ==> r.v * range == value - min
  {
    if range == 0.0 then NaN else Num((value - min) / range)
  }

  /** Every sample scaled by the given minimum and maximum. */
  function NormalizeBy(data: seq<real>, min: real, max: real): (r: seq<JsNum>)
    ensures |r| == |data|
    ensures forall i :: 0 <= i < |r| ==> r[i] == Scale(data[i], min, max - min)
  {
    seq(|data|, i requires 0 <= i < |data| => Scale(data[i], min, max - min))
  }

  /**
   * `normalizeAudioData`: the same number of samples, each shifted by the
   * frame's minimum and divided by its range. An empty frame gives an empty
   * result.
   */
  function NormalizeAudioData(data: seq<real>): (r: seq<JsNum>)
    ensures |r| == |data|
    ensures |data| > 0 ==> r == NormalizeBy(data, SeqMin(data), SeqMax(data))
  {
    if |data| == 0 then [] else NormalizeBy(data, SeqMin(data), SeqMax(data))
  }

  lemma UnitInterval(v: real, min: real, max: real)
    requires min <= v <= max && min < max
    ensures 0.0 <= (v - min) / (max - min) <= 1.0
  {
    DivideMonotone(0.0, v - min, max - min);
    DivideMonotone(v - min, max - min, max - min);
  }

  lemma DivideMonotone(a: real, b: real, c: real)
    requires a <= b && c > 0.0
    ensures a / c <= b / c
    ensures a < b ==> a / c < b / c
  {
    assert b / c - a / c == (b - a) / c;
  }

  /** Scaling by bounds of the frame: NaN everywhere for a zero range, otherwise into [0, 1]. */
  lemma NormalizeByRange(data: seq<real>, min: real, max: real)
    requires min <= max && forall i :: 0 <= i < |data| ==> min <= data[i] <= max
    ensures min == max ==> forall i :: 0 <= i < |data| ==> NormalizeBy(data, min, max)[i] == NaN
    ensures min < max ==>
              forall i :: 0 <= i < |data| ==> NormalizeBy(data, min, max)[i].Num? && 0.0 <= NormalizeBy(data, min, max)[i].v <= 1.0
  {
    if min < max {
      forall i | 0 <= i < |data|
        ensures NormalizeBy(data, min, max)[i].Num? && 0.0 <= NormalizeBy(data, min, max)[i].v <= 1.0
      {
        UnitInterval(data[i], min, max);
      }
    }
  }

  /** Scaling by a positive range maps min to 0, max to 1, and keeps the order of samples. */
  lemma NormalizeByOrder(data: seq<real>, min: real, max: real, i: int, j: int)
    requires min < max && 0 <= i < |data| && 0 <= j < |data|
    ensures data[i] == min ==> NormalizeBy(data, min, max)[i] == Num(0.0)
    ensures data[i] == max ==> NormalizeBy(data, min, max)[i] == Num(1.0)
    ensures data[i] <= data[j] ==> NormalizeBy(data, min, max)[i].v <= NormalizeBy(data, min, max)[j].v
    ensures data[i] < data[j] ==> NormalizeBy(data, min, max)[i].v < NormalizeBy(data, min, max)[j].v
  {
    if data[i] == max {
      assert (max - min) / (max - min) == 1.0;
    }
    if data[i] <= data[j] {
      DivideMonotone(data[i] - min, data[j] - min, max - min);
    }
  }

  /**
   * A constant frame divides zero by zero at every sample; any other frame
   * is mapped into [0, 1].
   */
  lemma NormalizeRange(data: seq<real>)
    requires |data| > 0
    ensures SeqMax(data) == SeqMin(data) ==> forall i :: 0 <= i < |data| ==> NormalizeAudioData(data)[i] == NaN
    ensures SeqMax(data) > SeqMin(data) ==>
              forall i :: 0 <= i < |data| ==> NormalizeAudioData(data)[i].Num? && 0.0 <= NormalizeAudioData(data)[i].v <= 1.0
  {
    NormalizeByRange(data, SeqMin(data), SeqMax(data));
  }

  /**
   * With a non-zero range, the minimum maps to 0, the maximum to 1, and the
   * order of any two samples is kept (strictly, for distinct samples).
   */
  lemma NormalizePreservesOrder(data: seq<real>, i: int, j: int)
    requires 0 <= i < |data| && 0 <= j < |data| && SeqMax(data) > SeqMin(data)
    ensures data[i] == SeqMin(data) ==> NormalizeAudioData(data)[i] == Num(0.0)
    ensures data[i] == SeqMax(data) ==> NormalizeAudioData(data)[i] == Num(1.0)
    ensures data[i] <= data[j] ==> NormalizeAudioData(data)[i].v <= NormalizeAudioData(data)[j].v
    ensures data[i] < data[j] ==> NormalizeAudioData(data)[i].v < NormalizeAudioData(data)[j].v
  {
    NormalizeByOrder(data, SeqMin(data), SeqMax(data), i, j);
  }
}
