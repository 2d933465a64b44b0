/**
 * The logic of my-nextjs-app/src/components/Tuner/Tuner.tsx. Its `lerp` and
 * `centsToDegrees` are character-for-character copies of those in
 * my-nextjs-app/src/components/Tuner.tsx and are the members of NextTuner.
 * What differs is modelled here: one frame of `processAudio` (detectPitch,
 * then the note, whose frequency is overwritten with the pitch), a target
 * fixed once per note and an easing factor of 0.12, `isTuned` with a missing
 * cents value read as 999, and the start/stop toggle.
 */
module NextTunerDir {
  import opened JsNumbers
  import NextMusic
  import NextPitch
  import NextTuner

  const Smoothing: real := 0.12

  /**
   * `if (pitch) { note = getNoteFromFrequency(pitch); note.frequency = pitch }
   * else null`: a found pitch (always positive, hence truthy) becomes its
   * note, labelled with that pitch.
   */
  function NoteForPitch(log2: real -> real, pitch: Option<real>): (r: Option<NextMusic.NoteResult>)
    requires pitch.Some? ==> pitch.value > 0.0
    ensures r.None? <==> pitch.None?
    ensures r.Some? ==> r.value.frequency == pitch.value
    ensures r.Some? ==> r.value.cents == NextMusic.GetNoteFromFrequency(log2, pitch.value, 440.0).cents &&
                        r.value.note == NextMusic.GetNoteFromFrequency(log2, pitch.value, 440.0).note &&
                        r.value.octave == NextMusic.GetNoteFromFrequency(log2, pitch.value, 440.0).octave
  {
    if pitch.Some? then
      var note := NextMusic.GetNoteFromFrequency(log2, pitch.value, 440.0);
      Some(note.(frequency := pitch.value))
    else None
  }

  /** Overwriting the frequency changes nothing: the resolver already returns the frequency it was given. */
  lemma FrequencyOverwriteIsNoOp(log2: real -> real, pitch: real)
    requires pitch > 0.0
    ensures NoteForPitch(log2, Some(pitch)) == Some(NextMusic.GetNoteFromFrequency(log2, pitch, 440.0))
  {
  }

  /** The needle refs of the component and the React state holding the note. */
  class Needle {
    var noteResult: Option<NextMusic.NoteResult>
    var targetRotation: real
    var currentRotation: real

    constructor()
      ensures noteResult.None? && targetRotation == 0.0 && currentRotation == 0.0
    {
      noteResult, targetRotation, currentRotation := None, 0.0, 0.0;
    }

    /**
     * One frame of `processAudio`: detect the pitch of the frame and store
     * its note, or null when no pitch is found. The pitch is what
     * `detectPitch` yields for the frame, with its lag and refinement.
     */
    method ProcessAudio(log2: real -> real, samples: seq<real>, sampleRate: real)
      returns (ghost pitch: Option<real>, ghost first: int, ghost lag: int, ghost betterTau: real)
      modifies this
      ensures targetRotation == old(targetRotation) && currentRotation == old(currentRotation)
      ensures NextPitch.IsDetectedPitch(samples, sampleRate, pitch, first, lag, betterTau)
      ensures pitch.Some? ==> pitch.value > 0.0
      ensures noteResult == NoteForPitch(log2, pitch)
      ensures |samples| < NextPitch.MinSamples || sampleRate <= 0.0 ==> noteResult.None?
    {
      var p;
      p, first, lag, betterTau := NextPitch.DetectPitch(samples, sampleRate);
      pitch := p;
      noteResult := NoteForPitch(log2, p);
    }

    /** The effect run when the note changes: the target is fixed to the angle of its cents (0 without a note). */
    method SetTarget()
      modifies this
      ensures noteResult == old(noteResult) && currentRotation == old(currentRotation)
      ensures targetRotation == NextTuner.CentsToDegrees(NextTuner.CentsOrZero(noteResult) as real)
    {
      targetRotation := NextTuner.CentsToDegrees(NextTuner.CentsOrZero(noteResult) as real);
    }

    /**
     * One frame of `animateNeedle`: the needle moves 0.12 of the way to the
     * fixed target, so its distance shrinks to 0.88 of what it was, and a
     * needle on the dial stays on it.
     */
    method AnimateFrame()
      modifies this
      ensures noteResult == old(noteResult) && targetRotation == old(targetRotation)
      ensures currentRotation == NextTuner.Lerp(old(currentRotation), targetRotation, Smoothing)
      ensures Abs(currentRotation - targetRotation) == 0.88 * Abs(old(currentRotation) - targetRotation)
      ensures -45.0 <= old(currentRotation) <= 45.0 && -45.0 <= targetRotation <= 45.0 ==>
                -45.0 <= currentRotation <= 45.0
    {
      var before := currentRotation;
      currentRotation := NextTuner.Lerp(currentRotation, targetRotation, Smoothing);
      if -45.0 <= before <= 45.0 && -45.0 <= targetRotation <= 45.0 {
        NextTuner.LerpBetween(before, targetRotation, Smoothing);
      }
    }
  }

  /** After n frames for one note the needle is 0.88^n of its starting distance from the target. */
  lemma NeedleAfterFrames(current: real, target: real, n: nat)
    ensures NextTuner.EaseFrames(current, target, Smoothing, n) - target == NextTuner.Power(0.88, n) * (current - target)
  {
    NextTuner.EaseFramesDistance(current, target, Smoothing, n);
  }

  /**
   * `noteResult && Math.abs(noteResult.cents ?? 999) <= 5`: a note whose
   * cents are missing counts as 999 cents off, so it is never tuned.
   */
  function IsTuned(hasNote: bool, cents: Option<int>): (b: bool)
    ensures b <==> hasNote && cents.Some? && -5 <= cents.value <= 5
  {
    var c := if cents.Some? then cents.value else 999;
    hasNote && Abs(c as real) <= 5.0
  }

  /** The resolver always supplies cents, so on its results this `isTuned` agrees with the other component's. */
  lemma IsTunedAgrees(noteResult: Option<NextMusic.NoteResult>)
    ensures IsTuned(noteResult.Some?, if noteResult.Some? then Some(noteResult.value.cents) else None) ==
            NextTuner.IsTuned(noteResult)
  {
  }

  datatype Action = Start | Stop

  /** `handleToggleListening`: stop while listening, start otherwise. */
  function ToggleListening(isListening: bool): (a: Action)
    ensures a == Stop <==> isListening
  {
    if isListening then Stop else Start
  }
}
