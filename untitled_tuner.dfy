/**
 * The note, gauge and colour logic of web-tuner-app/src/components/Untitled-1.ts
 * (its `src/utils/note.ts` and `src/components/Tuner.tsx` parts): the nearest
 * note from the MIDI number round(12 log2(f / 440)) + 69 with unrounded cents,
 * the `lerp` the gauge eases with, the needle rotation update, and the
 * green/yellow/red colour bands.
 */
module UntitledTuner {
  import opened JsNumbers

  const NoteStrings: seq<string> := ["C", "C#", "D", "D#", "E", "F", "F#", "G", "G#", "A", "A#", "B"]
  const A4: real := 440.0

  datatype NoteData = NoteData(note: Option<string>, octave: int, cents: real, frequency: real)

  /** The exact semitone offset from A4. */
  function SemitonesFromA4(log2: real -> real, frequency: real): (s: real)
    ensures frequency == A4 && log2(1.0) == 0.0 ==> s == 0.0
    ensures log2(frequency / A4) == 1.0 ==> s == 12.0
  {
    12.0 * log2(frequency / A4)
  }

  /** The MIDI number of the nearest note. */
  function NoteIndexTotal(log2: real -> real, frequency: real): (n: int)
    ensures SemitonesFromA4(log2, frequency) - 0.5 < (n - 69) as real <= SemitonesFromA4(log2, frequency) + 0.5
  {
    Round(SemitonesFromA4(log2, frequency)) + 69
  }

  /**
   * The nearest note. Its name is defined exactly when `noteIndexTotal % 12`
   * is a valid index; cents is the unrounded distance, in hundredths of a
   * semitone, from the nearest note, in [-50, 50).
   */
  function GetNoteFromFrequency(log2: real -> real, frequency: real): (r: NoteData)
    requires frequency > 0.0
    ensures r.frequency == frequency
    ensures r.note.Some? <==> NoteIndexTotal(log2, frequency) >= 0 || NoteIndexTotal(log2, frequency) % 12 == 0
    ensures r.note.Some? ==> r.note.value == NoteStrings[NoteIndexTotal(log2, frequency) % 12]
    ensures 12 * (r.octave + 1) <= NoteIndexTotal(log2, frequency) < 12 * (r.octave + 2)
    ensures r.cents == 100.0 * (SemitonesFromA4(log2, frequency) - Round(SemitonesFromA4(log2, frequency)) as real)
    ensures -50.0 <= r.cents < 50.0
  {
    var semitonesFromA4 := SemitonesFromA4(log2, frequency);
    var noteIndexTotal := Round(semitonesFromA4) + 69;
    var noteIndex := Rem12(noteIndexTotal);
    var octave := noteIndexTotal / 12 - 1;
    // log2(frequency / exactFrequency), exactFrequency = 440 * 2^((noteIndexTotal - 69) / 12)
    var cents := 1200.0 * (log2(frequency / A4) - (noteIndexTotal - 69) as real / 12.0);
    NoteData(Lookup(NoteStrings, noteIndex), octave, cents, frequency)
  }

  /** 440 Hz is A4 with no deviation. */
  lemma A440IsA4(log2: real -> real)
    requires log2(1.0) == 0.0
    ensures GetNoteFromFrequency(log2, 440.0) == NoteData(Some("A"), 4, 0.0, 440.0)
  {
    assert 440.0 / A4 == 1.0;
    assert Round(0.0) == 0;
  }

  /** An octave up keeps the name and the cents and adds one to the octave. */
  lemma DoublingRaisesOctave(log2: real -> real, frequency: real)
    requires frequency > 0.0
    requires log2(2.0 * frequency / A4) == log2(frequency / A4) + 1.0
    requires NoteIndexTotal(log2, frequency) >= 0
    ensures var lo, hi := GetNoteFromFrequency(log2, frequency), GetNoteFromFrequency(log2, 2.0 * frequency);
      hi.note == lo.note && hi.octave == lo.octave + 1 && hi.cents == lo.cents
  {
    var s := SemitonesFromA4(log2, frequency);
    assert SemitonesFromA4(log2, 2.0 * frequency) == s + 12 as real;
    RoundShift(s, 12);
    Rem12Shift(NoteIndexTotal(log2, frequency), 1);
  }

  /** `(1 - amt) * start + amt * end`: start at 0, end at 1, and the gap to end scaled by 1 - amt. */
  function Lerp(start: real, end: real, amt: real): (r: real)
    ensures amt == 0.0 ==> r == start
    ensures amt == 1.0 ==> r == end
    ensures r - end == (1.0 - amt) * (start - end)
  {
    (1.0 - amt) * start + amt * end
  }

  /** Cents -50..50 mapped onto -45..45 degrees; 0 without a note. */
  function TargetRotation(noteData: Option<NoteData>): (deg: real)
    ensures noteData.None? ==> deg == 0.0
    ensures noteData.Some? && -50.0 <= noteData.value.cents <= 50.0 ==> -45.0 <= deg <= 45.0
    ensures noteData.Some? ==> deg * 50.0 == noteData.value.cents * 45.0
  {
    if noteData.Some? then (noteData.value.cents / 50.0) * 45.0 else 0.0
  }

  /** The easing factor: 0.1 towards a note, 0.05 back to rest. */
  function Smoothing(noteData: Option<NoteData>): real
  {
    if noteData.Some? then 0.1 else 0.05
  }

  /** The needle of the gauge. */
  class Gauge {
    var rotation: real

    constructor()
      ensures rotation == 0.0
    {
      rotation := 0.0;
    }

    /** One run of the gauge effect: ease the rotation towards the target. */
    method Update(noteData: Option<NoteData>)
      modifies this
      ensures rotation == Lerp(old(rotation), TargetRotation(noteData), Smoothing(noteData))
      ensures rotation - TargetRotation(noteData) == (1.0 - Smoothing(noteData)) * (old(rotation) - TargetRotation(noteData))
    {
      if noteData.Some? {
        var targetRotation := (noteData.value.cents / 50.0) * 45.0;
        rotation := Lerp(rotation, targetRotation, 0.1);
      } else {
        rotation := Lerp(rotation, 0.0, 0.05);
      }
    }
  }

  /** A needle on the dial stays on the dial as long as the notes' cents do. */
  lemma UpdateStaysOnDial(rotation: real, noteData: Option<NoteData>)
    requires -45.0 <= rotation <= 45.0
    requires noteData.Some? ==> -50.0 <= noteData.value.cents <= 50.0
    ensures -45.0 <= Lerp(rotation, TargetRotation(noteData), Smoothing(noteData)) <= 45.0
  {
    var target, amt := TargetRotation(noteData), Smoothing(noteData);
    var r := Lerp(rotation, target, amt);
    assert r == (1.0 - amt) * rotation + amt * target;
    MulNonNegative(1.0 - amt, rotation + 45.0);
    MulNonNegative(amt, target + 45.0);
    MulNonNegative(1.0 - amt, 45.0 - rotation);
    MulNonNegative(amt, 45.0 - target);
  }

  datatype Colour = Green | Yellow | Red

  /** Green within 5 cents, yellow within 25, red otherwise and without a note. */
  function StatusColour(noteData: Option<NoteData>): (c: Colour)
    ensures c == Green <==> noteData.Some? && Abs(noteData.value.cents) <= 5.0
    ensures c == Yellow <==> noteData.Some? && 5.0 < Abs(noteData.value.cents) <= 25.0
    ensures c == Red <==> noteData.None? || Abs(noteData.value.cents) > 25.0
  {
    if noteData.Some? && Abs(noteData.value.cents) <= 5.0 then Green
    else if noteData.Some? && Abs(noteData.value.cents) <= 25.0 then Yellow
    else Red
  }

  /** Sharp and flat by the same amount get the same colour. */
  lemma ColourIsSymmetric(n: NoteData)
    ensures StatusColour(Some(n)) == StatusColour(Some(n.(cents := -n.cents)))
  {
  }
}
