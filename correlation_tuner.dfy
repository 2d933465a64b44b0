/**
 * The single-octave autocorrelation tuner of my-nextjs-app/components/Tuner.tsx:
 * the twelve-entry note table from C4 to B4, `getClosestNote` (the first entry
 * at the smallest distance and an accuracy score), `calculateCents`,
 * `autoCorrelate` (an RMS silence gate, then the first offset of largest
 * absolute-product correlation, accepted above a confidence of 0.01) and the
 * range gate of `detectNote`, which shows the note or resets the display.
 */
module CorrelationTuner {
  import opened JsNumbers

  datatype NoteEntry = NoteEntry(name: string, freq: real)

  const Notes: seq<NoteEntry> := [
    NoteEntry("C", 261.63), NoteEntry("C#", 277.18), NoteEntry("D", 293.66),
    NoteEntry("D#", 311.13), NoteEntry("E", 329.63), NoteEntry("F", 349.23),
    NoteEntry("F#", 369.99), NoteEntry("G", 392.0), NoteEntry("G#", 415.3),
    NoteEntry("A", 440.0), NoteEntry("A#", 466.16), NoteEntry("B", 493.88)
  ]

  const MinFreq: real := 80.0
  const MaxFreq: real := 1000.0
  const ConfidenceThreshold: real := 0.01

  /** Distance from a frequency to the k-th table entry. */
  function Distance(freq: real, k: int): (d: real)
    requires 0 <= k < |Notes|
    ensures d >= 0.0 && (d == 0.0 <==> freq == Notes[k].freq)
  {
    Abs(freq - Notes[k].freq)
  }

  /** Entry k is at the smallest distance, and every earlier entry is strictly farther. */
  predicate IsFirstNearest(freq: real, k: int)
  {
    0 <= k < |Notes| &&
    (forall j :: 0 <= j < |Notes| ==> Distance(freq, k) <= Distance(freq, j)) &&
    (forall j :: 0 <= j < k ==> Distance(freq, j) > Distance(freq, k))
  }

  /** At most one entry is the first nearest. */
  lemma FirstNearestIsUnique(freq: real, k1: int, k2: int)
    requires IsFirstNearest(freq, k1) && IsFirstNearest(freq, k2)
    ensures k1 == k2
  {
    assert Distance(freq, k1) <= Distance(freq, k2);
    assert Distance(freq, k2) <= Distance(freq, k1);
  }

  /** `Math.max(0, 100 - minDiff * 10)`: ten points lost per hertz of distance, never below 0. */
  function Accuracy(minDiff: real): (a: real)
    requires minDiff >= 0.0
    ensures 0.0 <= a <= 100.0
    ensures minDiff == 0.0 ==> a == 100.0
    ensures minDiff >= 10.0 ==> a == 0.0
  {
    Max(0.0, 100.0 - minDiff * 10.0)
  }

  datatype Closest = Closest(name: string, freq: real, diff: real, accuracy: real)

  /**
   * `getClosestNote`: scan the table keeping the entry with the smallest
   * distance so far, replacing it only on a strictly smaller one, so ties go
   * to the earliest entry.
   */
  method GetClosestNote(freq: real) returns (c: Closest, ghost k: int)
    ensures IsFirstNearest(freq, k)
    ensures c == Closest(Notes[k].name, Notes[k].freq, Distance(freq, k), Accuracy(Distance(freq, k)))
  {
    var best := 0;
    var minDiff := Abs(freq - Notes[0].freq);
    for i := 0 to |Notes|
      invariant 0 <= best < |Notes| && best <= i
      invariant minDiff == Distance(freq, best)
      invariant forall j :: 0 <= j < i ==> minDiff <= Distance(freq, j)
      invariant forall j :: 0 <= j < best ==> Distance(freq, j) > minDiff
    {
      var diff := Abs(freq - Notes[i].freq);
      if diff < minDiff {
        minDiff := diff;
        best := i;
      }
    }
    k := best;
    c := Closest(Notes[best].name, Notes[best].freq, minDiff, Accuracy(minDiff));
  }

  /** A table frequency is its own nearest entry. */
  lemma TableFrequencyIsNearest(k: int)
    requires 0 <= k < |Notes|
    ensures IsFirstNearest(Notes[k].freq, k)
  {
    forall j | 0 <= j < k
      ensures Distance(Notes[k].freq, j) > 0.0
    {
    }
  }

  /**
   * `calculateCents`: 0 when either frequency is not positive, otherwise
   * 1200 log2(freq / noteFreq) rounded; log2 is a parameter.
   */
  function CalculateCents(log2: real -> real, freq: real, noteFreq: real): (c: int)
    ensures freq <= 0.0 || noteFreq <= 0.0 ==> c == 0
  {
    if freq <= 0.0 || noteFreq <= 0.0 then 0 else Round(1200.0 * log2(freq / noteFreq))
  }

  /** Equal frequencies are 0 cents apart. */
  lemma EqualFrequenciesHaveNoCents(log2: real -> real, freq: real)
    requires log2(1.0) == 0.0
    ensures CalculateCents(log2, freq, freq) == 0
  {
    if freq > 0.0 {
      assert freq / freq == 1.0;
    }
  }

  /**
   * The cents have the sign of freq against noteFreq, given that log2 of a
   * ratio above 1 is positive and of a ratio below 1 negative.
   */
  lemma CentsFollowSign(log2: real -> real, freq: real, noteFreq: real)
    requires freq > 0.0 && noteFreq > 0.0
    requires freq > noteFreq ==> log2(freq / noteFreq) > 0.0
    requires freq < noteFreq ==> log2(freq / noteFreq) < 0.0
    ensures freq > noteFreq ==> CalculateCents(log2, freq, noteFreq) >= 0
    ensures freq < noteFreq ==> CalculateCents(log2, freq, noteFreq) <= 0
  {
  }

  /** The sum of squares of the first n samples. */
  function SumSquares(b: seq<real>, n: nat): (s: real)
    requires n <= |b|
    ensures s >= 0.0
  {
    if n == 0 then 0.0 else SumSquares(b, n - 1) + b[n - 1] * b[n - 1]
  }

  /**
   * The silence gate `sqrt(sum / length) < 0.01`, stated without the root as
   * a mean square below 0.0001. An empty buffer gives NaN, which fails the
   * comparison, so it is never silent.
   */
  predicate Silent(b: seq<real>): (silent: bool)
    ensures |b| == 0 ==> !silent
    ensures silent ==> forall i :: 0 <= i < |b| ==> b[i] * b[i] < 0.0001 * |b| as real
  {
    SquareAtMostSum(b, |b|);
    |b| > 0 && SumSquares(b, |b|) / |b| as real < 0.0001
  }

  /** No single square exceeds the sum of squares it belongs to. */
  lemma {:induction false} SquareAtMostSum(b: seq<real>, n: nat)
    requires n <= |b|
    ensures forall i :: 0 <= i < n ==> b[i] * b[i] <= SumSquares(b, n)
  {
    if n > 0 {
      SquareAtMostSum(b, n - 1);
    }
  }

  /** The correlation at `offset` over its first n terms: the sum of |b[i] * b[i + offset]|. */
  function CorrelationPrefix(b: seq<real>, offset: nat, n: nat): (s: real)
    requires n + offset <= |b|
    ensures s >= 0.0
  {
    if n == 0 then 0.0 else CorrelationPrefix(b, offset, n - 1) + Abs(b[n - 1] * b[n - 1 + offset])
  }

  /** The correlation at `offset`: every pair inside the buffer; none when the offset reaches past its end. */
  function Correlation(b: seq<real>, offset: nat): (s: real)
    ensures s >= 0.0
  {
    if offset >= |b| then 0.0 else CorrelationPrefix(b, offset, |b| - offset)
  }

  /** `Math.floor(sampleRate / MAX_FREQ)`. */
  function MinOffset(sampleRate: real): (o: int)
    ensures o as real <= sampleRate / MaxFreq < o as real + 1.0
  {
    (sampleRate / MaxFreq).Floor
  }

  /** `Math.floor(sampleRate / MIN_FREQ)`. */
  function MaxOffset(sampleRate: real): (o: int)
    ensures o as real <= sampleRate / MinFreq < o as real + 1.0
  {
    (sampleRate / MinFreq).Floor
  }

  lemma OffsetRange(sampleRate: real)
    requires sampleRate > 0.0
    ensures 0 <= MinOffset(sampleRate) <= MaxOffset(sampleRate)
  {
    assert sampleRate / MaxFreq <= sampleRate / MinFreq;
  }

  /** Offset o attains the largest correlation in [lo, hi), and every earlier offset is strictly smaller. */
  predicate IsFirstMaxOffset(b: seq<real>, lo: nat, hi: int, o: int)
  {
    lo <= o < hi &&
    (forall j: nat :: lo <= j < hi ==> Correlation(b, j) <= Correlation(b, o)) &&
    (forall j: nat :: lo <= j < o ==> Correlation(b, j) < Correlation(b, o))
  }

  /** The inner loop: the correlation at one offset. */
  method CorrelationAt(buffer: seq<real>, offset: nat) returns (correlation: real)
    ensures correlation == Correlation(buffer, offset)
  {
    correlation := 0.0;
    if offset >= |buffer| {
      return;
    }
    for i := 0 to |buffer| - offset
      invariant correlation == CorrelationPrefix(buffer, offset, i)
    {
      assert CorrelationPrefix(buffer, offset, i + 1) == CorrelationPrefix(buffer, offset, i) + Abs(buffer[i] * buffer[i + offset]);
      correlation := correlation + Abs(buffer[i] * buffer[i + offset]);
    }
  }

  /** The first loop: the sum of squares of the buffer. */
  method SquaredSum(buffer: seq<real>) returns (sum: real)
    ensures sum == SumSquares(buffer, |buffer|)
  {
    sum := 0.0;
    for i := 0 to |buffer|
      invariant sum == SumSquares(buffer, i)
    {
      sum := sum + buffer[i] * buffer[i];
    }
  }

  /**
   * When `autoCorrelate` finds a frequency: never on a silent buffer, and
   * otherwise exactly when some offset in [floor(sr/1000), floor(sr/80))
   * correlates above 0.01.
   */
  ghost predicate FindsCorrelation(buffer: seq<real>, sampleRate: real, r: Option<JsNum>)
  {
    (Silent(buffer) ==> r.None?) &&
    (!Silent(buffer) ==>
       (r.None? <==> forall o: nat :: MinOffset(sampleRate) <= o < MaxOffset(sampleRate) ==>
                       Correlation(buffer, o) <= ConfidenceThreshold))
  }

  /**
   * The frequency it then yields: sampleRate divided by the first offset of
   * largest correlation (+Infinity when that offset is 0, which needs a
   * sample rate below 1000).
   */
  ghost predicate IsBestCorrelation(buffer: seq<real>, sampleRate: real, f: JsNum, bestOffset: int)
    requires sampleRate > 0.0
  {
    IsFirstMaxOffset(buffer, MinOffset(sampleRate), MaxOffset(sampleRate), bestOffset) &&
    Correlation(buffer, bestOffset) > ConfidenceThreshold &&
    f == (if bestOffset == 0 then PosInf else Num(sampleRate / bestOffset as real))
  }

  /** `autoCorrelate`, with its two loops as methods. */
  method AutoCorrelate(buffer: seq<real>, sampleRate: real) returns (r: Option<JsNum>, ghost bestOffset: int)
    requires sampleRate > 0.0
    ensures FindsCorrelation(buffer, sampleRate, r)
    ensures r.Some? ==> IsBestCorrelation(buffer, sampleRate, r.value, bestOffset)
  {
    bestOffset := -1;
    var sum := SquaredSum(buffer);
    if |buffer| > 0 && sum / |buffer| as real < 0.0001 {
      return None, bestOffset;
    }
    var best := -1;
    var bestCorrelation := 0.0;
    OffsetRange(sampleRate);
    var minOffset := MinOffset(sampleRate);
    var maxOffset := MaxOffset(sampleRate);
    var offset := minOffset;
    while offset < maxOffset
      invariant minOffset <= offset <= maxOffset
      invariant best == -1 ==>
                  bestCorrelation == 0.0 &&
                  forall j: nat :: minOffset <= j < offset ==> Correlation(buffer, j) <= 0.0
      invariant best != -1 ==>
                  IsFirstMaxOffset(buffer, minOffset, offset, best) &&
                  bestCorrelation == Correlation(buffer, best) > 0.0
    {
      var correlation := CorrelationAt(buffer, offset);
      if correlation > bestCorrelation {
        bestCorrelation := correlation;
        best := offset;
      }
      offset := offset + 1;
    }
    bestOffset := best;
    if best > -1 && bestCorrelation > ConfidenceThreshold {
      r := if best == 0 then Some(PosInf) else Some(Num(sampleRate / best as real));
    } else {
      r := None;
    }
  }

  /** `freq && freq >= MIN_FREQ && freq <= MAX_FREQ`: only a finite frequency in [80, 1000] is shown. */
  predicate InRange(freq: Option<JsNum>): (shown: bool)
    ensures freq.None? || freq == Some(PosInf) || freq == Some(NaN) ==> !shown
    ensures shown ==> freq.value.Num? && MinFreq <= freq.value.v <= MaxFreq
  {
    freq.Some? && freq.value.Num? && MinFreq <= freq.value.v <= MaxFreq
  }

  /** The component state that `detectNote` sets. */
  class Display {
    var frequency: Option<real>
    var note: string
    var cents: int
    var accuracy: int

    constructor()
      ensures frequency.None? && note == "--" && cents == 0 && accuracy == 0
    {
      frequency, note, cents, accuracy := None, "--", 0, 0;
    }

    /**
     * One frame of `detectNote`. When the tuner is not running nothing
     * changes and no frame is scheduled. Otherwise a frequency in
     * [80, 1000] shows the nearest table entry with its cents and rounded
     * accuracy; anything else (silence, no confident offset, +Infinity, a
     * frequency out of range) resets to "--", no frequency, 0 cents and 0
     * accuracy.
     */
    method DetectNote(log2: real -> real, buffer: seq<real>, sampleRate: real, running: bool)
      returns (scheduled: bool, ghost freq: Option<JsNum>, ghost bestOffset: int, ghost k: int)
      requires sampleRate > 0.0
      modifies this
      ensures running ==> FindsCorrelation(buffer, sampleRate, freq)
      ensures running && freq.Some? ==> IsBestCorrelation(buffer, sampleRate, freq.value, bestOffset)
      ensures !running ==> !scheduled && frequency == old(frequency) && note == old(note) &&
                           cents == old(cents) && accuracy == old(accuracy)
      ensures running ==> scheduled
      ensures running && InRange(freq) ==>
                IsFirstNearest(freq.value.v, k) &&
                frequency == Some(freq.value.v) && note == Notes[k].name &&
                cents == CalculateCents(log2, freq.value.v, Notes[k].freq) &&
                accuracy == Round(Accuracy(Distance(freq.value.v, k))) && 0 <= accuracy <= 100
      ensures running && !InRange(freq) ==>
                frequency.None? && note == "--" && cents == 0 && accuracy == 0
      ensures running && Silent(buffer) ==> !InRange(freq)
    {
      freq, bestOffset, k := None, -1, -1;
      if !running {
        return false, freq, bestOffset, k;
      }
      var f;
      f, bestOffset := AutoCorrelate(buffer, sampleRate);
      freq := f;
      if f.Some? && f.value.Num? && f.value.v >= MinFreq && f.value.v <= MaxFreq {
        var closest, nearest := GetClosestNote(f.value.v);
        k := nearest;
        frequency := Some(f.value.v);
        note := closest.name;
        cents := CalculateCents(log2, f.value.v, closest.freq);
        accuracy := Round(closest.accuracy);
      } else {
        note := "--";
        frequency := None;
        cents := 0;
        accuracy := 0;
      }
      scheduled := true;
    }
  }

  /** At a table frequency the display names that entry with full accuracy. */
  lemma TableFrequencyShowsItsNote(log2: real -> real, k: int, nearest: int)
    requires 0 <= k < |Notes| && log2(1.0) == 0.0
    requires IsFirstNearest(Notes[k].freq, nearest)
    ensures nearest == k
    ensures CalculateCents(log2, Notes[k].freq, Notes[nearest].freq) == 0
    ensures Round(Accuracy(Distance(Notes[k].freq, nearest))) == 100
  {
    TableFrequencyIsNearest(k);
    FirstNearestIsUnique(Notes[k].freq, k, nearest);
    EqualFrequenciesHaveNoCents(log2, Notes[k].freq);
  }
}
