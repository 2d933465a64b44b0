/**
 * `getNoteFromFrequency` and `lerp` of web-tuner-app/src/utils/musicUtils.ts:
 * null for a non-positive frequency, otherwise the semitone offset
 * 12 log2(f / 440) rounded, an absolute index counted from C0 (A4 is 57), the
 * octave floor(index / 12) and the name NOTE_NAMES[index % 12]. The table as
 * written starts at A although the index counts from C, so every name is three
 * semitones low (440 Hz is labelled F#4); `GetNoteFromFrequency` uses the
 * C-based table the anchor calls for.
 */
module WebMusic {
  import opened JsNumbers

  /** The table as written, starting at A. */
  const NoteNamesAsWritten: seq<string> := ["A", "A#", "B", "C", "C#", "D", "D#", "E", "F", "F#", "G", "G#"]
  /** The table the C0 anchor calls for, starting at C. */
  const NoteNames: seq<string> := ["C", "C#", "D", "D#", "E", "F", "F#", "G", "G#", "A", "A#", "B"]
  const A4Frequency: real := 440.0
  /** The index of A4 counted in semitones from C0. */
  const A4FromC0: int := 57

  datatype NoteData = NoteData(note: Option<string>, octave: int, cents: int, frequency: real)

  /** The unrounded semitone offset from A4. */
  function SemitonesFromA4(log2: real -> real, frequency: real): (s: real)
    ensures frequency == A4Frequency && log2(1.0) == 0.0 ==> s == 0.0
    ensures log2(frequency / A4Frequency) == 1.0 ==> s == 12.0
  {
    12.0 * log2(frequency / A4Frequency)
  }

  /** The absolute semitone index from C0 of the nearest note. */
  function AbsoluteSemitone(log2: real -> real, frequency: real): (n: int)
    ensures SemitonesFromA4(log2, frequency) - 0.5 < (n - A4FromC0) as real <= SemitonesFromA4(log2, frequency) + 0.5
  {
    Round(SemitonesFromA4(log2, frequency)) + A4FromC0
  }

  /** The resolver over a given name table. */
  function Resolve(table: seq<string>, log2: real -> real, frequency: real): (r: Option<NoteData>)
    requires |table| == 12
    ensures r.None? <==> frequency <= 0.0
    ensures r.Some? ==> r.value.frequency == frequency && -50 <= r.value.cents <= 50
    ensures r.Some? ==> r.value.cents == Round(100.0 * (SemitonesFromA4(log2, frequency) - Round(SemitonesFromA4(log2, frequency)) as real))
    ensures r.Some? ==> r.value.octave == AbsoluteSemitone(log2, frequency) / 12
    ensures r.Some? ==> (r.value.note.Some? <==> AbsoluteSemitone(log2, frequency) >= 0 || AbsoluteSemitone(log2, frequency) % 12 == 0)
    ensures r.Some? && r.value.note.Some? ==> r.value.note.value == table[AbsoluteSemitone(log2, frequency) % 12]
  {
    if frequency <= 0.0 then None
    else
      var semitonesFromA4 := SemitonesFromA4(log2, frequency);
      var roundedSemitone := Round(semitonesFromA4);
      var cents := (semitonesFromA4 - roundedSemitone as real) * 100.0;
      var absoluteSemitone := roundedSemitone + A4FromC0;
      var octave := absoluteSemitone / 12;
      var noteIndex := Rem12(absoluteSemitone);
      Some(NoteData(Lookup(table, noteIndex), octave, Round(cents), frequency))
  }

  /** The function as written, with the A-based table. */
  function GetNoteFromFrequencyAsWritten(log2: real -> real, frequency: real): (r: Option<NoteData>)
    ensures r == Resolve(NoteNamesAsWritten, log2, frequency)
    ensures r.None? <==> frequency <= 0.0
  {
    Resolve(NoteNamesAsWritten, log2, frequency)
  }

  /** The function with the C-based table. */
  function GetNoteFromFrequency(log2: real -> real, frequency: real): (r: Option<NoteData>)
    ensures r == Resolve(NoteNames, log2, frequency)
    ensures r.None? <==> frequency <= 0.0
  {
    Resolve(NoteNames, log2, frequency)
  }

  /** As written, 440 Hz comes out as F#4 with no deviation. */
  lemma A440AsWrittenIsFSharp4(log2: real -> real)
    requires log2(1.0) == 0.0
    ensures GetNoteFromFrequencyAsWritten(log2, 440.0) == Some(NoteData(Some("F#"), 4, 0, 440.0))
  {
    assert 440.0 / A4Frequency == 1.0;
    assert Round(0.0) == 0;
  }

  /** With the C-based table 440 Hz is A4. */
  lemma A440IsA4(log2: real -> real)
    requires log2(1.0) == 0.0
    ensures GetNoteFromFrequency(log2, 440.0) == Some(NoteData(Some("A"), 4, 0, 440.0))
  {
    assert 440.0 / A4Frequency == 1.0;
    assert Round(0.0) == 0;
  }

  /** Every name as written is the name of the note three semitones below. */
  lemma AsWrittenIsThreeSemitonesLow(log2: real -> real, frequency: real)
    requires frequency > 0.0 && AbsoluteSemitone(log2, frequency) >= 3
    ensures var n := AbsoluteSemitone(log2, frequency);
      GetNoteFromFrequencyAsWritten(log2, frequency).value.note == Some(NoteNames[(n - 3) % 12])
  {
  }

  /** With either table, an octave up keeps the name and the cents and adds one to the octave. */
  lemma DoublingRaisesOctave(table: seq<string>, log2: real -> real, frequency: real)
    requires |table| == 12 && frequency > 0.0
    requires log2(2.0 * frequency / A4Frequency) == log2(frequency / A4Frequency) + 1.0
    requires AbsoluteSemitone(log2, frequency) >= 0
    ensures var lo, hi := Resolve(table, log2, frequency).value, Resolve(table, log2, 2.0 * frequency).value;
      hi.note == lo.note && hi.octave == lo.octave + 1 && hi.cents == lo.cents
  {
    var s := SemitonesFromA4(log2, frequency);
    assert SemitonesFromA4(log2, 2.0 * frequency) == s + 12 as real;
    RoundShift(s, 12);
    Rem12Shift(AbsoluteSemitone(log2, frequency), 1);
    assert s + 12 as real - (Round(s) + 12) as real == s - Round(s) as real;
  }

  /** `a * (1 - t) + b * t`: a at t = 0, b at t = 1, and t of the way from a to b. */
  function Lerp(a: real, b: real, t: real): (r: real)
    ensures t == 0.0 ==> r == a
    ensures t == 1.0 ==> r == b
    ensures r - a == t * (b - a) && r - b == (1.0 - t) * (a - b)
  {
    a * (1.0 - t) + b * t
  }

  /** For t in [0, 1] the interpolated value lies between the two ends. */
  lemma LerpBetween(a: real, b: real, t: real)
    requires 0.0 <= t <= 1.0
    ensures Min(a, b) <= Lerp(a, b, t) <= Max(a, b)
  {
    if a <= b {
      MulNonNegative(t, b - a);
      MulNonNegative(1.0 - t, b - a);
    } else {
      MulNonNegative(t, a - b);
      MulNonNegative(1.0 - t, a - b);
    }
  }
}
