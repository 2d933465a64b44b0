/**
 * The display logic of my-nextjs-app/src/components/Tuner.tsx: the A-based
 * note bar, `lerp`, the cents-to-degrees mapping of the needle, one frame of
 * `animateNeedle` (target from the cents, then a tenth of the way towards it),
 * and the derived values `isTuned`, `displayNote`, `displayOctave`,
 * `displayFrequency` and `isActiveNote`.
 */
module NextTuner {
  import opened JsNumbers
  import NextMusic

  /** The note bar, starting at A. */
  const Bar: seq<string> := ["A", "A#", "B", "C", "C#", "D", "D#", "E", "F", "F#", "G", "G#"]

  /** `lerp(a, b, t) = a + (b - a) * t`. */
  function Lerp(a: real, b: real, t: real): (r: real)
    ensures t == 0.0 ==> r == a
    ensures t == 1.0 ==> r == b
    ensures r - b == (1.0 - t) * (a - b)
  {
    a + (b - a) * t
  }

  /** A lerp with a factor in [0, 1] stays between its endpoints. */
  lemma LerpBetween(a: real, b: real, t: real)
    requires 0.0 <= t <= 1.0
    ensures Min(a, b) <= Lerp(a, b, t) <= Max(a, b)
  {
    if a <= b {
      MulNonNegative(b - a, t);
      MulNonNegative(b - a, 1.0 - t);
    } else {
      MulNonNegative(a - b, t);
      MulNonNegative(a - b, 1.0 - t);
    }
  }

  /** `centsToDegrees`: cents clamped to [-50, 50] and scaled onto a swing of [-45, 45] degrees. */
  function CentsToDegrees(cents: real): (deg: real)
    ensures -45.0 <= deg <= 45.0
    ensures -50.0 <= cents <= 50.0 ==> deg == cents * 0.9
    ensures cents >= 50.0 ==> deg == 45.0
    ensures cents <= -50.0 ==> deg == -45.0
  {
    var limited := Clamp(-50.0, 50.0, cents);
    (limited / 50.0) * 45.0
  }

  /** The mapping never reverses the order of two cents values, and is odd. */
  lemma CentsToDegreesMonotone(c1: real, c2: real)
    requires c1 <= c2
    ensures CentsToDegrees(c1) <= CentsToDegrees(c2)
    ensures CentsToDegrees(-c1) == -CentsToDegrees(c1)
  {
  }

  /** `noteResult?.cents ?? 0`. */
  function CentsOrZero(noteResult: Option<NextMusic.NoteResult>): (c: int)
    ensures noteResult.None? ==> c == 0
    ensures noteResult.Some? ==> c == noteResult.value.cents
  {
    if noteResult.Some? then noteResult.value.cents else 0
  }

  /** Repeating `current := lerp(current, target, t)` for n frames with a fixed target. */
  function EaseFrames(current: real, target: real, t: real, n: nat): real
    decreases n
  {
    if n == 0 then current else EaseFrames(Lerp(current, target, t), target, t, n - 1)
  }

  function Power(b: real, n: nat): real
  {
    if n == 0 then 1.0 else b * Power(b, n - 1)
  }

  /**
   * With a fixed target, n frames of easing with factor t leave the distance
   * to the target scaled by exactly (1 - t)^n.
   */
  lemma {:induction false} EaseFramesDistance(current: real, target: real, t: real, n: nat)
    ensures EaseFrames(current, target, t, n) - target == Power(1.0 - t, n) * (current - target)
    decreases n
  {
    if n > 0 {
      var next := Lerp(current, target, t);
      var p := Power(1.0 - t, n - 1);
      EaseFramesDistance(next, target, t, n - 1);
      assert EaseFrames(current, target, t, n) == EaseFrames(next, target, t, n - 1);
      assert Power(1.0 - t, n) == (1.0 - t) * p;
      assert next - target == (1.0 - t) * (current - target);
      Regroup(p, 1.0 - t, current - target);
    }
  }

  lemma Regroup(p: real, f: real, d: real)
    ensures p * (f * d) == (f * p) * d
  {
  }

  /**
   * The needle refs of the component: `targetRotationRef` and
   * `currentRotationRef`.
   */
  class NeedleAnimator {
    var targetRotation: real
    var currentRotation: real

    constructor()
      ensures targetRotation == 0.0 && currentRotation == 0.0
    {
      targetRotation, currentRotation := 0.0, 0.0;
    }

    /**
     * One frame of `animateNeedle`: the target is the angle of the current
     * note's cents (0 without a note), and the needle moves a tenth of the way
     * towards it, so its distance to the target shrinks to nine tenths and a
     * needle on the dial stays on the dial.
     */
    method AnimateFrame(noteResult: Option<NextMusic.NoteResult>)
      modifies this
      ensures targetRotation == CentsToDegrees(CentsOrZero(noteResult) as real)
      ensures currentRotation == Lerp(old(currentRotation), targetRotation, 0.1)
      ensures Abs(currentRotation - targetRotation) == 0.9 * Abs(old(currentRotation) - targetRotation)
      ensures -45.0 <= old(currentRotation) <= 45.0 ==> -45.0 <= currentRotation <= 45.0
    {
      var cents := CentsOrZero(noteResult);
      targetRotation := CentsToDegrees(cents as real);
      var before := currentRotation;
      currentRotation := Lerp(currentRotation, targetRotation, 0.1);
      if -45.0 <= before <= 45.0 {
        LerpBetween(before, targetRotation, 0.1);
      }
    }
  }

  /** `isTuned`: a note is shown and it is within 5 cents. */
  function IsTuned(noteResult: Option<NextMusic.NoteResult>): (b: bool)
    ensures b <==> noteResult.Some? && -5 <= noteResult.value.cents <= 5
  {
    noteResult.Some? && Abs(noteResult.value.cents as real) <= 5.0
  }

  /** `noteResult?.note ?? '-'`: the dash stands for a missing result and for an undefined name alike. */
  function DisplayNote(noteResult: Option<NextMusic.NoteResult>): (s: string)
    ensures noteResult.None? || noteResult.value.note.None? ==> s == "-"
    ensures noteResult.Some? && noteResult.value.note.Some? ==> s == noteResult.value.note.value
  {
    if noteResult.Some? && noteResult.value.note.Some? then noteResult.value.note.value else "-"
  }

  /** `noteResult?.octave ?? ''`: the octave, or nothing (the empty string) without a result. */
  function DisplayOctave(noteResult: Option<NextMusic.NoteResult>): (o: Option<int>)
    ensures o.None? <==> noteResult.None?
    ensures o.Some? ==> o.value == noteResult.value.octave
  {
    if noteResult.Some? then Some(noteResult.value.octave) else None
  }

  /** `displayFrequency`: the frequency to be formatted, or nothing without a result. */
  function DisplayFrequency(noteResult: Option<NextMusic.NoteResult>): (f: Option<real>)
    ensures f.None? <==> noteResult.None?
    ensures f.Some? ==> f.value == noteResult.value.frequency
  {
    if noteResult.Some? then Some(noteResult.value.frequency) else None
  }

  /** `isActiveNote(note)`: a result is shown and its name is exactly `note`. */
  function IsActiveNote(noteResult: Option<NextMusic.NoteResult>, note: string): (b: bool)
    ensures b <==> noteResult.Some? && noteResult.value.note == Some(note)
  {
    noteResult.Some? && noteResult.value.note.Some? && noteResult.value.note.value == note
  }

  /** The bar holds the same twelve names as the resolver's C-based table, rotated by three. */
  lemma BarIsRotatedNotes()
    ensures |Bar| == 12
    ensures forall i :: 0 <= i < 12 ==> Bar[i] == NextMusic.Notes[(i + 9) % 12]
    ensures forall i :: 0 <= i < 12 ==> NextMusic.Notes[i] == Bar[(i + 3) % 12]
  {
    assert Bar == NextMusic.Notes[9..] + NextMusic.Notes[..9];
    forall i | 0 <= i < 12
      ensures Bar[i] == NextMusic.Notes[(i + 9) % 12]
    {
      if i < 3 {
        assert (i + 9) % 12 == i + 9;
      } else {
        assert (i + 9) % 12 == i - 3;
      }
    }
    forall i | 0 <= i < 12
      ensures NextMusic.Notes[i] == Bar[(i + 3) % 12]
    {
      if i < 9 {
        assert (i + 3) % 12 == i + 3;
      } else {
        assert (i + 3) % 12 == i - 9;
      }
    }
  }

  /** No name appears twice on the bar. */
  lemma {:induction false} BarNamesAreDistinct()
    ensures forall i, j :: 0 <= i < j < 12 ==> Bar[i] != Bar[j]
  {
    BarIsRotatedNotes();
    NextMusic.NotesAreTwelveDistinctNames();
    forall i, j | 0 <= i < j < 12
      ensures Bar[i] != Bar[j]
    {
      assert (i + 9) % 12 != (j + 9) % 12;
    }
  }

  /**
   * Whenever the resolver names the note, exactly one item of the bar is
   * highlighted; with an undefined name or no result, none is.
   */
  lemma {:induction false} ExactlyOneActiveNote(log2: real -> real, frequency: real)
    requires frequency > 0.0
    ensures var r := NextMusic.GetNoteFromFrequency(log2, frequency, 440.0);
      (r.note.Some? ==>
        exists k :: 0 <= k < 12 && IsActiveNote(Some(r), Bar[k]) &&
          forall j :: 0 <= j < 12 && j != k ==> !IsActiveNote(Some(r), Bar[j])) &&
      (r.note.None? ==> forall j :: 0 <= j < 12 ==> !IsActiveNote(Some(r), Bar[j]))
  {
    var r := NextMusic.GetNoteFromFrequency(log2, frequency, 440.0);
    if r.note.Some? {
      var m := Round(NextMusic.Semitone(log2, frequency, 440.0)) % 12;
      assert r.note.value == NextMusic.Notes[m];
      BarIsRotatedNotes();
      BarNamesAreDistinct();
      var k := (m + 3) % 12;
      assert IsActiveNote(Some(r), Bar[k]);
    }
  }

  /** Without a result the display shows a dash, no octave, no frequency, and nothing is tuned or highlighted. */
  lemma EmptyDisplay(note: string)
    ensures DisplayNote(None) == "-" && DisplayOctave(None).None? && DisplayFrequency(None).None?
    ensures !IsTuned(None) && !IsActiveNote(None, note)
  {
  }
}
