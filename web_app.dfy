/**
 * The logic of web-tuner-app/src/components/App.tsx: one frame of
 * `processAudio` (getPitch, then the note of the frequency), the needle loop
 * of `updateNeedle` that eases the smoothed angle towards the target with
 * factor 0.1 until it is within 0.01 and then snaps, the start/stop toggle,
 * and the choice of view from the error and the permission state.
 */
module WebApp {
  import opened JsNumbers
  import opened Yin
  import WebPitch
  import WebMusic

  /** The analyser's time-domain frame and the context's sample rate. */
  datatype Frame = Frame(samples: seq<real>, sampleRate: real)

  /** The needle angle for a note: its cents clamped to [-50, 50] and mapped onto [-45, 45] degrees; 0 without a note. */
  function TargetAngle(noteData: Option<WebMusic.NoteData>): (deg: real)
    ensures -45.0 <= deg <= 45.0
    ensures noteData.None? ==> deg == 0.0
    ensures noteData.Some? && -50 <= noteData.value.cents <= 50 ==> deg == noteData.value.cents as real * 0.9
    ensures noteData.Some? && noteData.value.cents >= 50 ==> deg == 45.0
    ensures noteData.Some? && noteData.value.cents <= -50 ==> deg == -45.0
  {
    var cents := if noteData.Some? then noteData.value.cents as real else 0.0;
    var clampedCents := Clamp(-50.0, 50.0, cents);
    (clampedCents / 50.0) * 45.0
  }

  /** One frame of easing brings the smoothed angle nine tenths of the way back to the target. */
  lemma EaseContracts(angle: real, target: real)
    ensures WebMusic.Lerp(angle, target, 0.1) - target == 0.9 * (angle - target)
    ensures Abs(WebMusic.Lerp(angle, target, 0.1) - target) == 0.9 * Abs(angle - target)
  {
  }

  /** ... and keeps an angle on the dial on the dial. */
  lemma EaseStaysOnDial(angle: real, target: real)
    requires -45.0 <= angle <= 45.0 && -45.0 <= target <= 45.0
    ensures -45.0 <= WebMusic.Lerp(angle, target, 0.1) <= 45.0
  {
    WebMusic.LerpBetween(angle, target, 0.1);
  }

  datatype Action = Start | Stop

  /** `handleToggleListening`: stop while an analyser exists, start otherwise. */
  function ToggleListening(hasAnalyser: bool): (a: Action)
    ensures a == Stop <==> hasAnalyser
  {
    if hasAnalyser then Stop else Start
  }

  datatype PermissionState = Idle | Prompt | Granted | Denied

  datatype View = ErrorMessage(message: string) | AwaitingPermission | PermissionDenied | TunerView | StartHint

  /** `renderContent`: a non-empty error wins over every permission state; otherwise one view per state. */
  function RenderContent(error: Option<string>, permission: PermissionState): (v: View)
    ensures error.Some? && error.value != "" ==> v == ErrorMessage(error.value)
    ensures v.ErrorMessage? ==> error == Some(v.message) && v.message != ""
    ensures error.None? || error.value == "" ==>
              (v == AwaitingPermission <==> permission == Prompt) &&
              (v == PermissionDenied <==> permission == Denied) &&
              (v == TunerView <==> permission == Granted) &&
              (v == StartHint <==> permission == Idle)
  {
    if error.Some? && error.value != "" then ErrorMessage(error.value)
    else match permission
      case Prompt => AwaitingPermission
      case Denied => PermissionDenied
      case Granted => TunerView
      case Idle => StartHint
  }

  class App {
    var noteData: Option<WebMusic.NoteData>
    var needleAngle: real
    var smoothedAngle: real

    constructor()
      ensures noteData.None? && needleAngle == 0.0 && smoothedAngle == 0.0
    {
      noteData, needleAngle, smoothedAngle := None, 0.0, 0.0;
    }

    /**
     * One frame of `processAudio`. Without an analyser or buffer the note is
     * cleared and no further frame is requested. Otherwise the pitch is what
     * getPitch yields for the frame with the default threshold, the note is
     * null exactly when that pitch is, and is the note the A-based table as
     * written gives it when it is not; the next frame is requested.
     */
    method ProcessAudio(log2: real -> real, input: Option<Frame>)
      returns (scheduled: bool, ghost pitch: Option<real>, ghost first: int, ghost tau: int)
      modifies this
      ensures needleAngle == old(needleAngle) && smoothedAngle == old(smoothedAngle)
      ensures input.None? ==> noteData.None? && !scheduled && pitch.None?
      ensures input.Some? ==> scheduled
      ensures input.Some? ==> WebPitch.IsPitchOf(input.value.samples, input.value.sampleRate, WebPitch.DefaultThreshold, pitch, first, tau)
      ensures noteData.None? <==> pitch.None?
      ensures pitch.Some? ==> WebPitch.MinFrequency <= pitch.value <= WebPitch.MaxFrequency &&
                              noteData == WebMusic.GetNoteFromFrequencyAsWritten(log2, pitch.value)
      ensures input.Some? &&
              NoDip(CmndfSeq(input.value.samples, |input.value.samples| / 2), 2, |input.value.samples| / 2 - 1, WebPitch.DefaultThreshold) ==>
                noteData.None?
    {
      first, tau := -1, -1;
      if input.None? {
        noteData := None;
        return false, None, first, tau;
      }
      var frequency;
      frequency, first, tau := WebPitch.GetPitch(input.value.samples, input.value.sampleRate, WebPitch.DefaultThreshold);
      pitch := frequency;
      // `frequency ? ... : null`: a found frequency is at least 50 Hz, so never falsy
      noteData := if frequency.Some? then WebMusic.GetNoteFromFrequencyAsWritten(log2, frequency.value) else None;
      scheduled := true;
    }

    /**
     * The `updateNeedle` loop for the current note: ease the smoothed angle
     * towards the target with factor 0.1, showing each intermediate angle,
     * until it is within 0.01 of the target, then show the target itself.
     * The loop always ends, after at most 1 + 900 * (initial distance) frames,
     * and a smoothed angle on the dial stays on the dial.
     */
    method UpdateNeedle() returns (frames: nat)
      modifies this
      ensures noteData == old(noteData)
      ensures needleAngle == TargetAngle(noteData)
      ensures Abs(smoothedAngle - TargetAngle(noteData)) <= 0.01
      ensures frames >= 1 && frames as real <= 1.0 + 900.0 * Abs(old(smoothedAngle) - TargetAngle(noteData))
      ensures -45.0 <= old(smoothedAngle) <= 45.0 ==> -45.0 <= smoothedAngle <= 45.0
    {
      var target := TargetAngle(noteData);
      ghost var d0 := Abs(smoothedAngle - target);
      ghost var onDial := -45.0 <= smoothedAngle <= 45.0;
      FirstEase(smoothedAngle, target);
      smoothedAngle := WebMusic.Lerp(smoothedAngle, target, 0.1);
      frames := 1;
      while Abs(smoothedAngle - target) > 0.01
        invariant frames >= 1 && noteData == old(noteData)
        invariant Converging(smoothedAngle, target, frames, d0)
        invariant frames as real <= 1.0 + 900.0 * d0
        invariant onDial ==> -45.0 <= smoothedAngle <= 45.0
        decreases Ceil(900.0 * d0) - frames
      {
        needleAngle := smoothedAngle;
        var next := WebMusic.Lerp(smoothedAngle, target, 0.1);
        NextEase(smoothedAngle, target, frames, d0, next);
        smoothedAngle := next;
        frames := frames + 1;
      }
      needleAngle := target;
    }
  }

  /**
   * The loop's measure: after `frames` frames the distance to the target,
   * weighted by 9 + frames, is at most 9 times the initial distance d0.
   */
  predicate Converging(angle: real, target: real, frames: nat, d0: real)
  {
    Abs(angle - target) * (9 + frames) as real <= 9.0 * d0
  }

  /** The first frame of easing establishes the loop's measure. */
  lemma FirstEase(angle: real, target: real)
    ensures var next, d0 := WebMusic.Lerp(angle, target, 0.1), Abs(angle - target);
      Converging(next, target, 1, d0) &&
      (-45.0 <= angle <= 45.0 && -45.0 <= target <= 45.0 ==> -45.0 <= next <= 45.0)
  {
    EaseContracts(angle, target);
    if -45.0 <= angle <= 45.0 && -45.0 <= target <= 45.0 {
      EaseStaysOnDial(angle, target);
    }
  }

  /**
   * A further frame, taken while the distance is above 0.01, keeps the measure
   * distance * (9 + frames) within 9 times the initial distance, and the
   * frame count below ceil(900 * d0).
   */
  lemma NextEase(angle: real, target: real, frames: nat, d0: real, next: real)
    requires Abs(angle - target) > 0.01
    requires Converging(angle, target, frames, d0)
    requires next == WebMusic.Lerp(angle, target, 0.1)
    ensures Converging(next, target, frames + 1, d0)
    ensures (frames + 1) as real <= 1.0 + 900.0 * d0
    ensures frames < Ceil(900.0 * d0)
    ensures -45.0 <= angle <= 45.0 && -45.0 <= target <= 45.0 ==> -45.0 <= next <= 45.0
  {
    var dist := Abs(angle - target);
    EaseContracts(angle, target);
    FramesBeforeStop(dist, frames, d0);
    ShrinkingMeasure(dist, Abs(next - target), frames);
    if -45.0 <= angle <= 45.0 && -45.0 <= target <= 45.0 {
      EaseStaysOnDial(angle, target);
    }
  }

  /** While the distance is above 0.01 the frame count is below 900 * d0 - 9. */
  lemma FramesBeforeStop(dist: real, frames: nat, d0: real)
    requires dist > 0.01 && dist * (9 + frames) as real <= 9.0 * d0
    ensures (frames + 9) as real < 900.0 * d0
  {
    var x := (9 + frames) as real;
    assert dist * x <= 9.0 * d0;
    assert (dist - 0.01) * x > 0.0 by { PositiveProduct(dist - 0.01, x); }
    assert (dist - 0.01) * x == dist * x - 0.01 * x;
  }

  /** Nine tenths of the distance, weighted by one more frame, is no more than before. */
  lemma ShrinkingMeasure(dist: real, next: real, frames: nat)
    requires dist >= 0.0 && next == 0.9 * dist
    ensures next * (9 + frames + 1) as real <= dist * (9 + frames) as real
  {
    assert next * (9 + frames + 1) as real == dist * (9.0 + 0.9 * frames as real);
    MulNonNegative(dist, 0.1 * frames as real);
  }
}
