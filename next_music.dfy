/**
 * `getNoteFromFrequency` and `NOTES` of my-nextjs-app/src/utils/musicUtils.ts:
 * the MIDI number 69 + 12 log2(f / a4) rounded to the nearest integer, a
 * C-based name table indexed by the MIDI number modulo 12, the octave
 * floor(midi / 12) - 1, and the cents deviation rounded to an integer.
 * log2 is a parameter; the lemmas state the instances of its laws they use.
 */
module NextMusic {
  import opened JsNumbers

  const Notes: seq<string> := ["C", "C#", "D", "D#", "E", "F", "F#", "G", "G#", "A", "A#", "B"]

  datatype NoteResult = NoteResult(note: Option<string>, octave: int, cents: int, frequency: real)

  /** The unrounded MIDI number 69 + 12 log2(f / a4). */
  function Semitone(log2: real -> real, frequency: real, a4: real): (s: real)
    requires a4 > 0.0
    ensures frequency == a4 && log2(1.0) == 0.0 ==> s == 69.0
    ensures log2(frequency / a4) == 1.0 ==> s == 81.0
  {
    assert frequency == a4 ==> frequency / a4 == 1.0;
    69.0 + 12.0 * log2(frequency / a4)
  }

  /**
   * The nearest note: its name is defined exactly when `midiNum % 12` is a
   * valid index (a negative MIDI number that is a multiple of 12 gives -0,
   * which indexes like 0); cents are the unrounded semitone's distance from
   * the nearest note, in hundredths, rounded, so they lie in [-50, 50]; the
   * frequency is returned unchanged.
   */
  function GetNoteFromFrequency(log2: real -> real, frequency: real, a4: real): (r: NoteResult)
    requires frequency > 0.0 && a4 > 0.0
    ensures r.frequency == frequency
    ensures -50 <= r.cents <= 50
    ensures r.cents == Round(100.0 * (Semitone(log2, frequency, a4) - Round(Semitone(log2, frequency, a4)) as real))
    ensures r.note.Some? <==> Round(Semitone(log2, frequency, a4)) >= 0 || Round(Semitone(log2, frequency, a4)) % 12 == 0
    ensures r.note.Some? ==> r.note.value == Notes[Round(Semitone(log2, frequency, a4)) % 12]
    ensures 12 * (r.octave + 1) <= Round(Semitone(log2, frequency, a4)) < 12 * (r.octave + 2)
  {
    var semitone := Semitone(log2, frequency, a4);
    var midiNum := Round(semitone);
    var cents := (semitone - midiNum as real) * 100.0;
    var noteIndex := Rem12(midiNum);
    var octave := midiNum / 12 - 1;
    NoteResult(Lookup(Notes, noteIndex), octave, Round(cents), frequency)
  }

  /** The reference frequency itself is A4 with no deviation, whatever the reference. */
  lemma ReferenceIsA4(log2: real -> real, a4: real)
    requires a4 > 0.0 && log2(1.0) == 0.0
    ensures GetNoteFromFrequency(log2, a4, a4) == NoteResult(Some("A"), 4, 0, a4)
  {
    assert a4 / a4 == 1.0;
    assert Semitone(log2, a4, a4) == 69.0;
    assert Round(69.0) == 69;
  }

  /** An octave up keeps the name and the cents and adds one to the octave. */
  lemma DoublingRaisesOctave(log2: real -> real, frequency: real, a4: real)
    requires frequency > 0.0 && a4 > 0.0
    requires log2(2.0 * frequency / a4) == log2(frequency / a4) + 1.0
    requires Round(Semitone(log2, frequency, a4)) >= 0
    ensures var lo, hi := GetNoteFromFrequency(log2, frequency, a4), GetNoteFromFrequency(log2, 2.0 * frequency, a4);
      hi.note == lo.note && hi.octave == lo.octave + 1 && hi.cents == lo.cents
  {
    var s := Semitone(log2, frequency, a4);
    assert Semitone(log2, 2.0 * frequency, a4) == s + 12 as real;
    RoundShift(s, 12);
    Rem12Shift(Round(s), 1);
    assert s + 12 as real - (Round(s) + 12) as real == s - Round(s) as real;
  }

  /** The table holds the twelve distinct pitch classes starting at C. */
  lemma NotesAreTwelveDistinctNames()
    ensures |Notes| == 12 && Notes[0] == "C" && Notes[9] == "A"
    ensures forall i, j :: 0 <= i < j < 12 ==> Notes[i] != Notes[j]
  {
  }
}
