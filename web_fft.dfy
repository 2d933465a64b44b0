/**
 * The frequency step of `detectFrequency` in
 * web-tuner-app/src/hooks/useTuner.ts: the analyser's 1024 byte magnitudes
 * (half the FFT size of 2048), the first bin holding the largest magnitude
 * (`indexOf(Math.max(...))`), and that bin's fraction of the Nyquist
 * frequency sampleRate / 2.
 */
module WebFft {
  import opened JsNumbers

  /** An element of a `Uint8Array`. */
  type Byte = x: int | 0 <= x < 256

  const FftSize: nat := 2048

  /** `analyser.frequencyBinCount`: half the FFT size. */
  function FrequencyBinCount(fftSize: nat): (bins: nat)
    ensures 2 * bins <= fftSize < 2 * bins + 2
  {
    fftSize / 2
  }

  lemma BinCountIs1024()
    ensures FrequencyBinCount(FftSize) == 1024
  {
  }

  /** `Math.max(...bins)` for a non-empty array. */
  function MaxByte(bins: seq<Byte>): (m: Byte)
    requires |bins| > 0
    ensures m in bins && forall i :: 0 <= i < |bins| ==> bins[i] <= m
  {
    if |bins| == 1 then bins[0]
    else
      var rest := MaxByte(bins[1..]);
      assert forall i :: 1 <= i < |bins| ==> bins[i] == bins[1..][i - 1];
      if bins[0] >= rest then bins[0] else rest
  }

  /** `bins.indexOf(v)`: the first index holding v, or -1. */
  function IndexOf(bins: seq<Byte>, v: Byte): (k: int)
    ensures k == -1 <==> v !in bins
    ensures k != -1 ==> 0 <= k < |bins| && bins[k] == v && forall j :: 0 <= j < k ==> bins[j] != v
  {
    if |bins| == 0 then -1
    else if bins[0] == v then 0
    else
      var k := IndexOf(bins[1..], v);
      assert forall j :: 1 <= j < |bins| ==> bins[j] == bins[1..][j - 1];
      if k == -1 then -1 else k + 1
  }

  /** `dataArray.indexOf(Math.max(...dataArray))`: the first bin of largest magnitude. */
  function PeakBin(bins: seq<Byte>): (k: nat)
    requires |bins| > 0
    ensures k < |bins|
    ensures forall j :: 0 <= j < |bins| ==> bins[j] <= bins[k]
    ensures forall j :: 0 <= j < k ==> bins[j] < bins[k]
  {
    IndexOf(bins, MaxByte(bins))
  }

  /** `k * (sampleRate / 2) / n`: bin k's fraction of the Nyquist frequency, in [0, sampleRate / 2). */
  function BinFrequency(k: nat, n: nat, sampleRate: real): (f: real)
    requires k < n
    ensures sampleRate > 0.0 ==> 0.0 <= f < sampleRate / 2.0
    ensures f == (sampleRate / 2.0) * (k as real / n as real)
  {
    Reassociate(k as real, sampleRate / 2.0, n as real);
    FractionOfNyquist(k, n, sampleRate / 2.0);
    k as real * (sampleRate / 2.0) / n as real
  }

  /** `maxIndex * (sampleRate / 2) / dataArray.length` for the first bin of largest magnitude. */
  function DetectedFrequency(bins: seq<Byte>, sampleRate: real): (f: real)
    requires |bins| > 0
    ensures sampleRate > 0.0 ==> 0.0 <= f < sampleRate / 2.0
    ensures f == BinFrequency(PeakBin(bins), |bins|, sampleRate)
  {
    BinFrequency(PeakBin(bins), |bins|, sampleRate)
  }

  lemma FractionOfNyquist(k: nat, n: nat, nyquist: real)
    requires k < n
    ensures nyquist > 0.0 ==> 0.0 <= nyquist * (k as real / n as real) < nyquist
  {
    var q := k as real / n as real;
    assert 0.0 <= q < 1.0 by {
      assert k as real < n as real;
      assert q * n as real == k as real;
    }
    assert nyquist - nyquist * q == nyquist * (1.0 - q);
    if nyquist > 0.0 {
      MulNonNegative(nyquist, q);
      PositiveProduct(nyquist, 1.0 - q);
    }
  }

  lemma Reassociate(k: real, h: real, n: real)
    requires n > 0.0
    ensures k * h / n == h * (k / n)
  {
  }

  /** When every bin holds the same magnitude, as on silence, the first bin wins and the frequency is 0. */
  lemma FlatSpectrumGivesZero(bins: seq<Byte>, sampleRate: real)
    requires |bins| > 0 && forall i :: 0 <= i < |bins| ==> bins[i] == bins[0]
    ensures PeakBin(bins) == 0
    ensures DetectedFrequency(bins, sampleRate) == 0.0
  {
    assert bins[0] in bins;
  }
}
