/**
 * The view logic of web-tuner-app/src/components/Tuner/Tuner.tsx: the cents
 * shown (0 without a note), the colour class chosen by the absolute cents
 * deviation, and the in-tune pulse.
 */
module WebTunerView {
  import opened JsNumbers
  import WebMusic

  datatype TuningColor = InTune | Close | OutOfTune

  /** `noteData?.cents ?? 0`. */
  function DisplayedCents(noteData: Option<WebMusic.NoteData>): (c: int)
    ensures noteData.None? ==> c == 0
    ensures noteData.Some? ==> c == noteData.value.cents
  {
    if noteData.Some? then noteData.value.cents else 0
  }

  /** `getTuningColor`: within 5 cents in tune, within 25 close, otherwise out of tune. */
  function GetTuningColor(c: real): (color: TuningColor)
    ensures color == InTune <==> -5.0 <= c <= 5.0
    ensures color == Close <==> (5.0 < c <= 25.0 || -25.0 <= c < -5.0)
    ensures color == OutOfTune <==> (c > 25.0 || c < -25.0)
  {
    var absCents := Abs(c);
    if absCents <= 5.0 then InTune
    else if absCents <= 25.0 then Close
    else OutOfTune
  }

  /** The class depends only on the size of the deviation, not its sign. */
  lemma TuningColorIsSymmetric(c: real)
    ensures GetTuningColor(-c) == GetTuningColor(c)
  {
  }

  /** A larger deviation never gets a better class. */
  lemma TuningColorMonotone(c1: real, c2: real)
    requires Abs(c1) <= Abs(c2)
    ensures GetTuningColor(c1) == OutOfTune ==> GetTuningColor(c2) == OutOfTune
    ensures GetTuningColor(c2) == InTune ==> GetTuningColor(c1) == InTune
  {
  }

  /** `isInTune = Math.abs(cents) <= 5`. */
  function IsInTune(c: real): (b: bool)
    ensures b <==> GetTuningColor(c) == InTune
  {
    Abs(c) <= 5.0
  }

  /** Without a note the gauge shows 0 cents, in tune, with the pulse on. */
  lemma NoNoteShowsInTune()
    ensures DisplayedCents(None) == 0
    ensures GetTuningColor(DisplayedCents(None) as real) == InTune && IsInTune(DisplayedCents(None) as real)
  {
  }
}
