# Tuner pipeline model

A Dafny model of the frame → frequency → note → needle pipeline of the
TunerWeb guitar tuner. The repository holds several independent,
slightly different copies of each stage, and each copy is modelled in its
own module:

- **YIN pitch estimators** (de Cheveigné and Kawahara, "YIN, a fundamental
  frequency estimator for speech and music"):
  - `Yin` holds the pieces the three copies share: the squared difference
    d(τ), the running sum, the cumulative-mean-normalised difference (CMNDF,
    NaN on a silent prefix), the threshold scan that follows the first dip
    down to a local minimum, and the parabola vertex.
  - `NextPitch` models `detectPitch` of the Next.js app: decimation, mean
    removal, the lag window, the 1e-10 guard, the 0.6 fallback and
    refinement.
  - `WebPitch` models `getPitch` of the web app: one-pass CMNDF, the
    (0, bufferSize) guard and the 50–1200 Hz filter.
  - `UntitledYin` models `yin` of `Untitled-1.ts`: in-place buffer with no
    zero guard, and threshold 0.10.
  - The buffers are filled in place, so the estimators are methods over
    arrays. Each is proved against a function of the input frame, and the
    scan and refinement properties are proved about those functions.
- **Naive estimators:**
  - `CorrelationTuner`: the correlation argmax of the Next.js autocorrelation
    tuner, with its note table, cents and range gate.
  - `WebAudio`: the peak-amplitude argmax, and normalisation.
  - `WebFft`: the FFT-bin argmax and its conversion to hertz.
- **Note resolvers:**
  - `NextMusic` and `UntitledTuner`: the MIDI-69 anchor with a C-based table.
  - `WebMusic`: the C0-57 anchor with the A-based table as written, and with
    the C-based table the anchor calls for.
  - Both JavaScript operators are written out: `%` on negative operands
    (`Rem12`) and `Math.round` as floor(x + 0.5) (`Round`).
- **Needle and view logic:**
  - `NextTuner` (`my-nextjs-app/src/components/Tuner.tsx`).
  - `NextTunerDir` (`my-nextjs-app/src/components/Tuner/Tuner.tsx`). Its
    `lerp` and `centsToDegrees` are copies of those in `NextTuner` and reuse
    them.
  - `WebTunerView` (`web-tuner-app/src/components/Tuner/Tuner.tsx`).
  - `WebApp` (`web-tuner-app/src/components/App.tsx`): the easing loop that
    always ends and snaps to the target.
  - `UntitledTuner`: the gauge and the colour bands.
  - Components that update refs or state in place are classes whose methods
    state the whole new state.
- **Number semantics.** `JsNumbers` gives the JavaScript number behaviour
  over exact reals:
  - `null`, NaN and +Infinity where a division by zero produces them;
  - `Math.round`, `Math.ceil` and the truncating `%`;
  - `Math.abs`, the clamp, and `undefined` for a lookup outside a table.

  `log2` is a function parameter. Each lemma states the instances of the
  logarithm laws it uses.

One difference from the system's stated behaviour: 440 Hz should resolve
to A at the reference octave. As written, `web-tuner-app/src/utils/musicUtils.ts`
labels it F#4, because its name table starts at A while its index counts
from C0. The web app's frame step (`WebApp.App.ProcessAudio`) follows the
code and uses `WebMusic.GetNoteFromFrequencyAsWritten`. The C-based
`WebMusic.GetNoteFromFrequency` sits beside it as the corrected resolver.

The two refinement steps recorded under Findings are handled the same way.
The estimators `NextPitch.DetectPitch` and `WebPitch.GetPitch`, and the
frame steps built on them, refine the lag as the code writes it:
`RefineAsWritten`, the mirror image of the parabola's vertex about the
chosen lag. Each module also keeps the corrected `Refine`, and
`RefineAsWrittenIsMirror` relates the two.

## Model

| member | source | states |
|---|---|---|
| JsNumbers.Round | my-nextjs-app/src/utils/musicUtils.ts:16 | `Math.round`: the integer within half of x, halves going up |
| JsNumbers.Ceil | my-nextjs-app/src/utils/pitchDetection.ts:22 | `Math.ceil`: the least integer not below x |
| JsNumbers.Rem12 | my-nextjs-app/src/utils/musicUtils.ts:19 | `% 12`: the modulo for non-negative operands; for negative ones a value in (-12, 0], the remainder truncated towards zero |
| JsNumbers.FloorOfQuotient | my-nextjs-app/src/utils/musicUtils.ts:20 | `Math.floor(a / b)` is flooring integer division |
| JsNumbers.Abs | web-tuner-app/src/utils/audio.ts:9 | `Math.abs`: non-negative and equal to x or -x |
| JsNumbers.Clamp | web-tuner-app/src/components/App.tsx:65 | `Math.max(lo, Math.min(hi, x))` lies in [lo, hi], is x inside, and saturates at either end |
| JsNumbers.Lookup | my-nextjs-app/src/utils/musicUtils.ts:23 | indexing a table is defined exactly inside it and yields that entry |
| JsNumbers.RoundShift | my-nextjs-app/src/utils/musicUtils.ts:16 | rounding commutes with adding a whole number |
| JsNumbers.Rem12Shift | my-nextjs-app/src/utils/musicUtils.ts:19 | adding whole octaves to a non-negative index keeps its remainder |
| Yin.SqDiff | web-tuner-app/src/utils/pitchDetection.ts:35-39 | the difference function d(τ) is non-negative |
| Yin.CumDiff | web-tuner-app/src/utils/pitchDetection.ts:40 | the running sum is non-negative |
| Yin.Cmndf | web-tuner-app/src/utils/pitchDetection.ts:32-41 | d'(t) is 1 at lag 0, NaN exactly while the running sum is 0, otherwise a non-negative number; never +Infinity |
| Yin.CmndfSeq | web-tuner-app/src/utils/pitchDetection.ts:26 | the CMNDF buffer holds exactly the requested number of lags |
| Yin.CumDiffMonotone | web-tuner-app/src/utils/pitchDetection.ts:40 | the running sum never decreases with the lag |
| Yin.SilentPrefix | web-tuner-app/src/utils/pitchDetection.ts:41 | while the earlier running sum is 0, the entry is NaN or exactly its lag |
| Yin.DipLeftNeighbour | web-tuner-app/src/utils/pitchDetection.ts:46-47 | a dip below a threshold ≤ 1 at lag ≥ 2 has a finite left neighbour, which is 1 when that neighbour is lag 1 |
| Yin.FiniteStaysFinite | web-tuner-app/src/utils/pitchDetection.ts:40-41 | once an entry is finite, every later one is |
| Yin.CmndfStep | web-tuner-app/src/components/Untitled-1.ts:238-240 | one in-place step `d *= t / runningSum` yields d'(t), NaN on a zero sum |
| Yin.DipChoiceUnique | web-tuner-app/src/utils/pitchDetection.ts:46-56 | the scan's rule picks one first dip and one lag |
| Yin.ScanForDip | web-tuner-app/src/utils/pitchDetection.ts:46-56 | -1 exactly when no lag in [lo, hi] dips below the threshold; otherwise the first dip, followed while strictly falling, stopping at hi or where the next entry is not smaller |
| Yin.DipChoiceIsLocalMinimum | web-tuner-app/src/utils/pitchDetection.ts:46-56 | for a threshold ≤ 1 and a scan from lag 2, the chosen lag is finite, strictly below its left neighbour and no higher than its right one |
| Yin.SilentSqDiff | web-tuner-app/src/utils/pitchDetection.ts:35-39 | a silent frame has d(τ) = 0 at every lag |
| Yin.SilentCumDiff | web-tuner-app/src/utils/pitchDetection.ts:40 | a silent frame's running sum stays 0 |
| Yin.SilentFrameHasNoDip | web-tuner-app/src/utils/pitchDetection.ts:34-60 | every CMNDF entry of a silent frame past lag 0 is NaN, so no threshold is ever crossed and the estimator returns null |
| Yin.VertexOffsetNegated | web-tuner-app/src/components/Untitled-1.ts:270 | the formula with both signs flipped is the same vertex offset |
| Yin.Parabola | web-tuner-app/src/utils/pitchDetection.ts:70-72 | the interpolating parabola passes through the three entries |
| Yin.VertexWithinHalf | web-tuner-app/src/utils/pitchDetection.ts:62-80 | at a local minimum with a strictly higher left neighbour the denominator is positive and the vertex lies within half a lag |
| Yin.VertexIsMinimum | web-tuner-app/src/utils/pitchDetection.ts:62-80 | there the vertex is where the parabola is smallest |
| Yin.VertexOffset | web-tuner-app/src/components/Untitled-1.ts:270 | the offset where the derivative of the parabola through the three entries vanishes |
| Yin.ScaleByLag | web-tuner-app/src/components/Untitled-1.ts:240 | `d *= t / runningSum`: NaN exactly for a zero running sum, otherwise d·t / runningSum |
| UntitledYin.FillDifference | web-tuner-app/src/components/Untitled-1.ts:224-232 | the buffer holds d(t) over the first half of the frame at every lag |
| UntitledYin.Normalize | web-tuner-app/src/components/Untitled-1.ts:234-241 | the in-place normalisation leaves exactly the CMNDF of the frame |
| UntitledYin.BuildCmndf | web-tuner-app/src/components/Untitled-1.ts:220-241 | a fresh buffer of half the frame holding the CMNDF |
| UntitledYin.RefineLag | web-tuner-app/src/components/Untitled-1.ts:258-273 | with both neighbours the lag moves to the parabola vertex; at the right edge it is kept; the move is within half a lag |
| UntitledYin.Estimate | web-tuner-app/src/components/Untitled-1.ts:218-274 | null exactly when no lag from 2 dips below 0.10; otherwise the scan's choice, a local minimum, refined to the vertex when it has a right neighbour, and sampleRate / betterTau |
| UntitledTuner.GetNoteFromFrequency | web-tuner-app/src/components/Untitled-1.ts:15-35 | MIDI number round(12 log2(f/440)) + 69; name defined exactly for a valid `% 12` index; octave floor(n/12) - 1; unrounded cents in [-50, 50); frequency unchanged |
| UntitledTuner.SemitonesFromA4 | web-tuner-app/src/components/Untitled-1.ts:17 | 0 at 440 Hz, 12 an octave above |
| UntitledTuner.NoteIndexTotal | web-tuner-app/src/components/Untitled-1.ts:18 | 69 plus the integer nearest the semitone offset from A4 |
| UntitledTuner.A440IsA4 | web-tuner-app/src/components/Untitled-1.ts:15-35 | 440 Hz is A4 with 0 cents |
| UntitledTuner.DoublingRaisesOctave | web-tuner-app/src/components/Untitled-1.ts:17-21 | an octave up keeps name and cents and adds one to the octave |
| UntitledTuner.Lerp | web-tuner-app/src/components/Untitled-1.ts:117-119 | start at 0, end at 1, and the gap to the end scaled by 1 - amt |
| UntitledTuner.TargetRotation | web-tuner-app/src/components/Untitled-1.ts:126-135 | cents scaled by 45/50, within [-45, 45] for cents in [-50, 50]; 0 without a note |
| UntitledTuner.Gauge.constructor | web-tuner-app/src/components/Untitled-1.ts:123 | the rotation starts at 0 |
| UntitledTuner.Gauge.Update | web-tuner-app/src/components/Untitled-1.ts:125-137 | the rotation eases by 0.1 towards the note's target, or by 0.05 towards 0 without a note, shrinking its distance by 1 - factor |
| UntitledTuner.UpdateStaysOnDial | web-tuner-app/src/components/Untitled-1.ts:125-137 | a rotation on the dial stays on it for notes whose cents lie in [-50, 50] |
| UntitledTuner.StatusColour | web-tuner-app/src/components/Untitled-1.ts:139-152 | green iff a note within 5 cents, yellow iff within 25, red iff farther or no note |
| UntitledTuner.ColourIsSymmetric | web-tuner-app/src/components/Untitled-1.ts:144 | sharp and flat by the same amount get the same colour |
| NextMusic.GetNoteFromFrequency | my-nextjs-app/src/utils/musicUtils.ts:14-28 | MIDI number round(69 + 12 log2(f/a4)); name defined exactly for a valid `% 12` index; octave floor(midi/12) - 1; cents Math.round(100·(semitone - midi)) from the unrounded semitone, in [-50, 50]; frequency unchanged |
| NextMusic.Semitone | my-nextjs-app/src/utils/musicUtils.ts:15 | 69 at the reference, 81 an octave above |
| NextMusic.ReferenceIsA4 | my-nextjs-app/src/utils/musicUtils.ts:14-27 | for any positive reference, the reference itself is A4 with 0 cents |
| NextMusic.DoublingRaisesOctave | my-nextjs-app/src/utils/musicUtils.ts:15-20 | an octave up keeps name and cents and adds one to the octave |
| NextMusic.NotesAreTwelveDistinctNames | my-nextjs-app/src/utils/musicUtils.ts:30 | twelve distinct names from C, with A at index 9 |
| WebMusic.Resolve | web-tuner-app/src/utils/musicUtils.ts:22-48 | null exactly for a non-positive frequency; octave floor(index/12) from the C0-57 index; name defined exactly for a valid `% 12` index; cents Math.round(100·(offset - rounded offset)) from the unrounded offset, in [-50, 50]; frequency unchanged |
| WebMusic.SemitonesFromA4 | web-tuner-app/src/utils/musicUtils.ts:28 | 0 at 440 Hz, 12 an octave above |
| WebMusic.AbsoluteSemitone | web-tuner-app/src/utils/musicUtils.ts:29-35 | 57 plus the integer nearest the semitone offset from A4 |
| WebMusic.GetNoteFromFrequencyAsWritten | web-tuner-app/src/utils/musicUtils.ts:22-48 | the resolver with the A-based table as written; null exactly for f ≤ 0 |
| WebMusic.GetNoteFromFrequency | web-tuner-app/src/utils/musicUtils.ts:22-48 | the resolver with the C-based table the C0 anchor calls for; null exactly for f ≤ 0 |
| WebMusic.A440AsWrittenIsFSharp4 | web-tuner-app/src/utils/musicUtils.ts:28-40 | as written, 440 Hz is labelled F#4 with 0 cents |
| WebMusic.A440IsA4 | web-tuner-app/src/utils/musicUtils.ts:28-40 | with the C-based table, 440 Hz is A4 with 0 cents |
| WebMusic.AsWrittenIsThreeSemitonesLow | web-tuner-app/src/utils/musicUtils.ts:35-40 | every name as written is the name of the note three semitones lower |
| WebMusic.DoublingRaisesOctave | web-tuner-app/src/utils/musicUtils.ts:28-38 | with either table, the one as written included, an octave up keeps name and cents and adds one to the octave |
| WebMusic.Lerp | web-tuner-app/src/utils/musicUtils.ts:59-61 | a at 0, b at 1, t of the way from a to b |
| WebMusic.LerpBetween | web-tuner-app/src/utils/musicUtils.ts:59-61 | for t in [0, 1] the result lies between a and b |
| WebPitch.DivideByMeanIsCmndf | web-tuner-app/src/utils/pitchDetection.ts:40-41 | `d / ((1/t) · runningSum)` after adding d is the CMNDF entry |
| WebPitch.CmndfBuffer | web-tuner-app/src/utils/pitchDetection.ts:24-42 | a buffer of floor(n/2) entries equal to the CMNDF, 1 at lag 0 |
| WebPitch.CmndfSeqFinite | web-tuner-app/src/utils/pitchDetection.ts:41 | no CMNDF entry is +Infinity |
| WebPitch.PeakShift | web-tuner-app/src/utils/pitchDetection.ts:74-77 | NaN exactly when a neighbour is NaN; 0 for a zero denominator; otherwise the parabola's vertex offset |
| WebPitch.RefineAsWritten | web-tuner-app/src/utils/pitchDetection.ts:62-80 | as written: tau minus the peak shift |
| WebPitch.Refine | web-tuner-app/src/utils/pitchDetection.ts:62-80 | finite neighbours give the vertex, or tau for a zero denominator |
| WebPitch.GuardLag | web-tuner-app/src/utils/pitchDetection.ts:82-85 | a finite lag outside (0, bufferSize) falls back to tau; NaN stays NaN |
| WebPitch.AcceptFrequency | web-tuner-app/src/utils/pitchDetection.ts:87-94 | a result exactly when sampleRate / betterTau is a number in [50, 1200] |
| WebPitch.GetPitch | web-tuner-app/src/utils/pitchDetection.ts:23-95 | as written: null when no lag from 2 dips below the threshold; otherwise tau is the scan's choice and the result is the accepted frequency of `tau - peakShift` after the guard, always in [50, 1200] |
| WebPitch.RefinedLagStaysNear | web-tuner-app/src/utils/pitchDetection.ts:62-85 | for a threshold ≤ 1, both the written and the corrected refined lag are finite and within half a lag of tau, and the guard never fires on either |
| WebPitch.GuardKeepsRefinement | web-tuner-app/src/utils/pitchDetection.ts:82-85 | around a local minimum at lag ≥ 2 in the first half of the frame the guard keeps the refinement |
| WebPitch.DipChoiceNeighbours | web-tuner-app/src/utils/pitchDetection.ts:44-60 | the scan's choice has finite neighbours, a strictly higher left one and a right one no lower |
| WebPitch.RefineAtLocalMinimum | web-tuner-app/src/utils/pitchDetection.ts:62-80 | at such a local minimum the refinement moves less than half a lag |
| WebPitch.RefineAsWrittenMirrorsVertex | web-tuner-app/src/utils/pitchDetection.ts:79 | on neighbours 2.5, 0.1, 0.9 the written formula lands a quarter lag left of the vertex, where the parabola is 0.4 instead of 0 |
| WebPitch.RefineAsWrittenIsMirror | web-tuner-app/src/utils/pitchDetection.ts:62-80 | `tau - peakShift` is NaN exactly when `tau + peakShift` is, and lies as far from tau on the other side |
| WebPitch.GuardKeepsAsWritten | web-tuner-app/src/utils/pitchDetection.ts:62-85 | around a local minimum at lag ≥ 2 the written refinement stays within half a lag and the guard keeps it |
| WebPitch.ShiftLag | web-tuner-app/src/utils/pitchDetection.ts:79 | NaN exactly for a NaN shift; otherwise tau moved by the shift, backwards when mirrored as line 79 writes it |
| WebPitch.DivideByMean | web-tuner-app/src/utils/pitchDetection.ts:41 | NaN exactly for a zero running sum; otherwise d·t / runningSum, the difference over the running mean |
| NextPitch.Step | my-nextjs-app/src/utils/pitchDetection.ts:9 | the decimation step is at least 1 |
| NextPitch.DecimatedLengthAtLeast64 | my-nextjs-app/src/utils/pitchDetection.ts:2-10 | a frame passing the 64-sample check keeps at least 64 samples after decimation |
| NextPitch.StrideInBounds | my-nextjs-app/src/utils/pitchDetection.ts:14-16 | every strided read is inside the frame |
| NextPitch.Decimated | my-nextjs-app/src/utils/pitchDetection.ts:10-17 | floor(len/step) samples, the j-th being samples[j·step] |
| NextPitch.Centered | my-nextjs-app/src/utils/pitchDetection.ts:18-19 | mean removal keeps the length |
| NextPitch.SumMinusConstant | my-nextjs-app/src/utils/pitchDetection.ts:19 | subtracting c from every sample subtracts n·c from the sum |
| NextPitch.CenteredSumsToZero | my-nextjs-app/src/utils/pitchDetection.ts:13-19 | after mean removal the samples sum to zero |
| NextPitch.DecimateStrided | my-nextjs-app/src/utils/pitchDetection.ts:13-17 | the strided loop fills the decimated frame and accumulates its sum |
| NextPitch.SubtractMean | my-nextjs-app/src/utils/pitchDetection.ts:19 | every element is reduced by the mean in place |
| NextPitch.DecimateAndCenter | my-nextjs-app/src/utils/pitchDetection.ts:9-19 | a fresh array holding the decimated frame minus its mean |
| NextPitch.MaxLag | my-nextjs-app/src/utils/pitchDetection.ts:22 | maxLag ≤ floor(n/2) |
| NextPitch.MinLag | my-nextjs-app/src/utils/pitchDetection.ts:23 | minLag ≥ 2 |
| NextPitch.DiffAt | my-nextjs-app/src/utils/pitchDetection.ts:30-35 | d(τ) over the whole frame is non-negative |
| NextPitch.WindowSum | my-nextjs-app/src/utils/pitchDetection.ts:39-42 | the window's running sum is non-negative |
| NextPitch.Normalized | my-nextjs-app/src/utils/pitchDetection.ts:43 | the guarded normalisation is non-negative; a zero sum is replaced by 1e-10 |
| NextPitch.WindowEntry | my-nextjs-app/src/utils/pitchDetection.ts:27-44 | every entry the scan reads is a non-negative number: 0 at lag 0, 1 below minLag |
| NextPitch.YinWindow | my-nextjs-app/src/utils/pitchDetection.ts:27-44 | maxLag + 1 entries, all finite |
| NextPitch.DifferenceWindow | my-nextjs-app/src/utils/pitchDetection.ts:27-37 | zero below minLag, d(τ) on the window, every read in bounds |
| NextPitch.NormalizeWindow | my-nextjs-app/src/utils/pitchDetection.ts:39-44 | the in-place normalisation leaves exactly the window buffer |
| NextPitch.BuildYinBuffer | my-nextjs-app/src/utils/pitchDetection.ts:27-44 | a fresh buffer equal to the window buffer |
| NextPitch.WindowArgMin | my-nextjs-app/src/utils/pitchDetection.ts:56-63 | the first index of the smallest window entry, and its value |
| NextPitch.ChooseLag | my-nextjs-app/src/utils/pitchDetection.ts:46-66 | -1 exactly when nothing dips below 0.12 and the minimum is ≥ 0.6; otherwise the scan's choice, or the first window minimum below 0.6 |
| NextPitch.ChosenLagIsLocalMinimum | my-nextjs-app/src/utils/pitchDetection.ts:46-66 | the chosen lag lies in the window, strictly below its left neighbour and no higher than its right one |
| NextPitch.RefineAsWritten | my-nextjs-app/src/utils/pitchDetection.ts:68-75 | as written: tau minus the vertex offset |
| NextPitch.Refine | my-nextjs-app/src/utils/pitchDetection.ts:68-75 | refined to the vertex exactly when tau > 1, tau + 1 ≤ maxLag and the denominator is non-zero; otherwise tau |
| NextPitch.RefineLag | my-nextjs-app/src/utils/pitchDetection.ts:68-75 | the buffer-reading refinement is line 74 as written (`RefineAsWritten`), the mirror image of the vertex refinement about tau |
| NextPitch.RefineAtLocalMinimum | my-nextjs-app/src/utils/pitchDetection.ts:68-75 | at such a local minimum the denominator is positive and the move is within half a lag |
| NextPitch.RefineAsWrittenMirrorsVertex | my-nextjs-app/src/utils/pitchDetection.ts:74 | on entries 2.5, 0.1, 0.9 the written formula gives tau - 0.25, the vertex is at tau + 0.25 |
| NextPitch.RefineAsWrittenIsMirror | my-nextjs-app/src/utils/pitchDetection.ts:68-75 | line 74's refinement lies as far from tau as the vertex refinement, on the other side |
| NextPitch.RefineAsWrittenAtLocalMinimum | my-nextjs-app/src/utils/pitchDetection.ts:68-75 | at a local minimum with a strictly higher left neighbour the written refinement stays within half a lag |
| NextPitch.Prepare | my-nextjs-app/src/utils/pitchDetection.ts:9-23 | the decimated, centred frame has ≥ 64 samples summing to 0; 2 ≤ minLag and maxLag ≤ n/2 |
| NextPitch.Frequency | my-nextjs-app/src/utils/pitchDetection.ts:77-78 | sampleRate / (betterTau·step) is positive |
| NextPitch.DetectPitch | my-nextjs-app/src/utils/pitchDetection.ts:1-79 | null for < 64 samples, a non-positive rate, an empty lag window, or no dip below 0.12 with window minimum ≥ 0.6; otherwise the dip choice or first minimum, refined as line 74 writes it (the vertex mirrored about the lag, within half a lag), giving a positive frequency |
| NextTuner.Lerp | my-nextjs-app/src/components/Tuner.tsx:10 | a at 0, b at 1, the gap to b scaled by 1 - t |
| NextTuner.LerpBetween | my-nextjs-app/src/components/Tuner.tsx:10 | for t in [0, 1] the result lies between a and b |
| NextTuner.CentsToDegrees | my-nextjs-app/src/components/Tuner.tsx:60-64 | within [-45, 45], 0.9·cents inside [-50, 50], saturating at ±45 beyond |
| NextTuner.CentsToDegreesMonotone | my-nextjs-app/src/components/Tuner.tsx:60-64 | monotone and odd, so 0 maps to 0 |
| NextTuner.CentsOrZero | my-nextjs-app/src/components/Tuner.tsx:76 | the note's cents, or 0 without a note |
| NextTuner.EaseFramesDistance | my-nextjs-app/src/components/Tuner.tsx:73-86 | n frames towards a fixed target scale the distance by exactly (1 - t)^n |
| NextTuner.NeedleAnimator.constructor | my-nextjs-app/src/components/Tuner.tsx:16-17 | both rotations start at 0 |
| NextTuner.NeedleAnimator.AnimateFrame | my-nextjs-app/src/components/Tuner.tsx:73-86 | the target is the angle of the note's cents (0 without one); the needle moves a tenth of the way, its distance shrinks to 0.9, and it stays on the dial |
| NextTuner.IsTuned | my-nextjs-app/src/components/Tuner.tsx:112 | tuned iff a note is present within 5 cents |
| NextTuner.DisplayNote | my-nextjs-app/src/components/Tuner.tsx:113 | the name, or "-" without a note or name |
| NextTuner.DisplayOctave | my-nextjs-app/src/components/Tuner.tsx:114 | the octave exactly when a note is present |
| NextTuner.DisplayFrequency | my-nextjs-app/src/components/Tuner.tsx:115 | the frequency exactly when a note is present |
| NextTuner.IsActiveNote | my-nextjs-app/src/components/Tuner.tsx:116 | true iff a note is present with exactly that name |
| NextTuner.BarIsRotatedNotes | my-nextjs-app/src/components/Tuner.tsx:7 | the A-based bar is the resolver's C-based table rotated by three, both ways |
| NextTuner.BarNamesAreDistinct | my-nextjs-app/src/components/Tuner.tsx:7 | no name appears twice on the bar |
| NextTuner.ExactlyOneActiveNote | my-nextjs-app/src/components/Tuner.tsx:116 | a resolved name highlights exactly one bar item; an undefined name highlights none |
| NextTuner.EmptyDisplay | my-nextjs-app/src/components/Tuner.tsx:112-116 | without a note: "-", no octave, no frequency, not tuned, nothing active |
| NextTunerDir.NoteForPitch | my-nextjs-app/src/components/Tuner/Tuner.tsx:32-39 | null iff no pitch; otherwise the resolved note with its frequency set to the pitch |
| NextTunerDir.FrequencyOverwriteIsNoOp | my-nextjs-app/src/components/Tuner/Tuner.tsx:35 | the overwrite leaves the resolver's result unchanged |
| NextTunerDir.Needle.constructor | my-nextjs-app/src/components/Tuner/Tuner.tsx:13-18 | no note; both rotations at 0 |
| NextTunerDir.Needle.ProcessAudio | my-nextjs-app/src/components/Tuner/Tuner.tsx:26-41 | the pitch is what detectPitch yields for the frame, with its lag and refinement; the note becomes that pitch's note (the pitch is positive) or null; a short frame or non-positive rate gives null; rotations unchanged |
| NextTunerDir.Needle.SetTarget | my-nextjs-app/src/components/Tuner/Tuner.tsx:60-62 | the target is fixed once per note to the angle of its cents (0 without one) |
| NextTunerDir.Needle.AnimateFrame | my-nextjs-app/src/components/Tuner/Tuner.tsx:65-73 | the needle moves 0.12 of the way, its distance shrinks to 0.88, and it stays on the dial |
| NextTunerDir.NeedleAfterFrames | my-nextjs-app/src/components/Tuner/Tuner.tsx:65-73 | after n frames the distance is 0.88^n of the initial one |
| NextTunerDir.IsTuned | my-nextjs-app/src/components/Tuner/Tuner.tsx:102 | tuned iff a note with cents present and within 5; missing cents count as 999 |
| NextTunerDir.IsTunedAgrees | my-nextjs-app/src/components/Tuner/Tuner.tsx:102 | on resolver results it agrees with the other component's `isTuned` |
| NextTunerDir.ToggleListening | my-nextjs-app/src/components/Tuner/Tuner.tsx:82-85 | stop iff listening |
| WebTunerView.DisplayedCents | web-tuner-app/src/components/Tuner/Tuner.tsx:11 | the note's cents, or 0 without a note |
| WebTunerView.GetTuningColor | web-tuner-app/src/components/Tuner/Tuner.tsx:14-19 | in tune iff abs(c) ≤ 5, close iff 5 < abs(c) ≤ 25, out of tune iff abs(c) > 25 |
| WebTunerView.TuningColorIsSymmetric | web-tuner-app/src/components/Tuner/Tuner.tsx:15 | the class ignores the sign |
| WebTunerView.TuningColorMonotone | web-tuner-app/src/components/Tuner/Tuner.tsx:14-19 | a larger deviation never gets a better class |
| WebTunerView.IsInTune | web-tuner-app/src/components/Tuner/Tuner.tsx:22 | the pulse is on iff the class is in tune |
| WebTunerView.NoNoteShowsInTune | web-tuner-app/src/components/Tuner/Tuner.tsx:11-22 | without a note the cents are 0, in tune, with the pulse |
| CorrelationTuner.FirstNearestIsUnique | my-nextjs-app/components/Tuner.tsx:40-50 | the first nearest entry is unique |
| CorrelationTuner.Distance | my-nextjs-app/components/Tuner.tsx:40-45 | the distance to an entry is non-negative and 0 exactly at its frequency |
| CorrelationTuner.Accuracy | my-nextjs-app/components/Tuner.tsx:53 | within [0, 100]; 100 at distance 0, 0 from 10 Hz on |
| CorrelationTuner.GetClosestNote | my-nextjs-app/components/Tuner.tsx:40-55 | the first entry at the smallest distance, with that distance and its accuracy |
| CorrelationTuner.TableFrequencyIsNearest | my-nextjs-app/components/Tuner.tsx:21-50 | a table frequency is its own first nearest entry |
| CorrelationTuner.CalculateCents | my-nextjs-app/components/Tuner.tsx:57-60 | 0 when either frequency is not positive |
| CorrelationTuner.EqualFrequenciesHaveNoCents | my-nextjs-app/components/Tuner.tsx:57-60 | equal frequencies are 0 cents apart |
| CorrelationTuner.CentsFollowSign | my-nextjs-app/components/Tuner.tsx:57-60 | the cents have the sign of freq against noteFreq |
| CorrelationTuner.SumSquares | my-nextjs-app/components/Tuner.tsx:65-68 | the energy sum is non-negative |
| CorrelationTuner.SquareAtMostSum | my-nextjs-app/components/Tuner.tsx:65-68 | no single square exceeds the sum of squares |
| CorrelationTuner.Silent | my-nextjs-app/components/Tuner.tsx:65-71 | an empty buffer is never silent (0/0 fails the test); in a silent buffer every sample's square is below 0.0001·n |
| CorrelationTuner.CorrelationPrefix | my-nextjs-app/components/Tuner.tsx:81-83 | partial correlations are non-negative |
| CorrelationTuner.Correlation | my-nextjs-app/components/Tuner.tsx:79-83 | every correlation is non-negative |
| CorrelationTuner.OffsetRange | my-nextjs-app/components/Tuner.tsx:75-76 | 0 ≤ minOffset ≤ maxOffset for a positive rate |
| CorrelationTuner.MinOffset | my-nextjs-app/components/Tuner.tsx:75 | Math.floor(sampleRate / 1000) |
| CorrelationTuner.MaxOffset | my-nextjs-app/components/Tuner.tsx:76 | Math.floor(sampleRate / 80) |
| CorrelationTuner.SquaredSum | my-nextjs-app/components/Tuner.tsx:65-68 | the loop computes the sum of squares |
| CorrelationTuner.CorrelationAt | my-nextjs-app/components/Tuner.tsx:79-83 | the inner loop computes the correlation at the offset, reading only inside the buffer |
| CorrelationTuner.AutoCorrelate | my-nextjs-app/components/Tuner.tsx:63-96 | null when silent; otherwise null iff no offset in [floor(sr/1000), floor(sr/80)) correlates above 0.01; else sampleRate over the first offset of largest correlation (+Infinity at offset 0) |
| CorrelationTuner.InRange | my-nextjs-app/components/Tuner.tsx:104 | null, NaN and +Infinity are never shown; a shown frequency lies in [80, 1000] |
| CorrelationTuner.Display.constructor | my-nextjs-app/components/Tuner.tsx:5-11 | no frequency, "--", 0 cents, 0 accuracy |
| CorrelationTuner.Display.DetectNote | my-nextjs-app/components/Tuner.tsx:98-118 | not running: nothing changes; running: the frequency is what autoCorrelate yields for the buffer, and one in [80, 1000] shows the nearest entry, its cents and rounded accuracy in [0, 100]; anything else (silence included) resets the display |
| CorrelationTuner.TableFrequencyShowsItsNote | my-nextjs-app/components/Tuner.tsx:104-109 | at a table frequency the display names that entry with 0 cents and accuracy 100 |
| WebAudio.FirstPeakIsUnique | web-tuner-app/src/utils/audio.ts:8-13 | the first peak is unique |
| WebAudio.DetectPitch | web-tuner-app/src/utils/audio.ts:1-21 | null iff every sample is below 0.01 in magnitude; else sampleRate over the first peak's index (+Infinity at index 0) |
| WebAudio.PeakIgnoresSign | web-tuner-app/src/utils/audio.ts:9 | negating the frame keeps the peak |
| WebAudio.SeqMax | web-tuner-app/src/utils/audio.ts:24 | an element no smaller than any other |
| WebAudio.SeqMin | web-tuner-app/src/utils/audio.ts:25 | an element no larger than any other |
| WebAudio.NormalizeBy | web-tuner-app/src/utils/audio.ts:28 | each sample shifted by min and divided by the range (NaN for range 0) |
| WebAudio.Scale | web-tuner-app/src/utils/audio.ts:28 | NaN exactly for a zero range; a sample between min and max lands in [0, 1]; otherwise (value - min) / range |
| WebAudio.NormalizeAudioData | web-tuner-app/src/utils/audio.ts:23-29 | same length; scaled by the frame's own minimum and maximum |
| WebAudio.NormalizeByRange | web-tuner-app/src/utils/audio.ts:26-28 | zero range gives NaN everywhere; otherwise every value lies in [0, 1] |
| WebAudio.NormalizeByOrder | web-tuner-app/src/utils/audio.ts:26-28 | min maps to 0, max to 1, order is kept (strictly for distinct samples) |
| WebAudio.NormalizeRange | web-tuner-app/src/utils/audio.ts:24-28 | a constant frame gives NaN everywhere; any other lands in [0, 1] |
| WebAudio.NormalizePreservesOrder | web-tuner-app/src/utils/audio.ts:24-28 | the frame's minimum maps to 0, its maximum to 1, and order is kept |
| WebFft.BinCountIs1024 | web-tuner-app/src/hooks/useTuner.ts:20-22 | an FFT size of 2048 gives 1024 bins |
| WebFft.FrequencyBinCount | web-tuner-app/src/hooks/useTuner.ts:20-22 | half the FFT size, rounded down |
| WebFft.MaxByte | web-tuner-app/src/hooks/useTuner.ts:25 | a bin value no smaller than any other |
| WebFft.IndexOf | web-tuner-app/src/hooks/useTuner.ts:25 | -1 iff absent; otherwise the first index holding the value |
| WebFft.PeakBin | web-tuner-app/src/hooks/useTuner.ts:25 | the first bin of largest magnitude |
| WebFft.FractionOfNyquist | web-tuner-app/src/hooks/useTuner.ts:26 | k/n of the Nyquist frequency lies in [0, Nyquist) |
| WebFft.BinFrequency | web-tuner-app/src/hooks/useTuner.ts:26 | bin k's frequency is (sr/2)·(k/n), in [0, sr/2) |
| WebFft.DetectedFrequency | web-tuner-app/src/hooks/useTuner.ts:23-26 | the peak bin's frequency, in [0, sr/2) |
| WebFft.FlatSpectrumGivesZero | web-tuner-app/src/hooks/useTuner.ts:25-26 | equal bins give bin 0 and 0 Hz |
| WebApp.TargetAngle | web-tuner-app/src/components/App.tsx:63-66 | within [-45, 45]; 0.9·cents inside [-50, 50], saturating at ±45; 0 without a note |
| WebApp.EaseContracts | web-tuner-app/src/components/App.tsx:68 | one frame multiplies the distance to the target by exactly 0.9 |
| WebApp.EaseStaysOnDial | web-tuner-app/src/components/App.tsx:65-68 | an angle on the dial stays on it |
| WebApp.ToggleListening | web-tuner-app/src/components/App.tsx:84-90 | stop iff an analyser exists |
| WebApp.RenderContent | web-tuner-app/src/components/App.tsx:92-108 | a non-empty error wins; otherwise exactly one view per permission state |
| WebApp.App.constructor | web-tuner-app/src/components/App.tsx:12-25 | no note, angles at 0 |
| WebApp.App.ProcessAudio | web-tuner-app/src/components/App.tsx:27-41 | no analyser: note cleared, nothing rescheduled; otherwise the pitch is what getPitch yields for the frame, the note is null iff that pitch is (in particular with no dip), and else the note the A-based table as written gives the pitch, which lies in [50, 1200] |
| WebApp.App.UpdateNeedle | web-tuner-app/src/components/App.tsx:61-82 | the loop ends within 1 + 900·(initial distance) frames, leaves the smoothed angle within 0.01 of the target, snaps the shown angle to the target, and keeps an angle on the dial on it |
| WebApp.FirstEase | web-tuner-app/src/components/App.tsx:68 | the first frame establishes the loop's decreasing measure |
| WebApp.NextEase | web-tuner-app/src/components/App.tsx:68-73 | each further frame keeps the measure and the frame bound |
| WebApp.FramesBeforeStop | web-tuner-app/src/components/App.tsx:71 | while the distance exceeds 0.01 the frame count stays below 900·d0 - 9 |

## Left out

- Browser I/O: microphone access, AudioContext and analyser setup, and permission handling. The time-domain frame, the byte spectrum and the sample rate become parameters.
- Scheduling: `requestAnimationFrame`, overlapping loops, effect cleanup, the `mounted`/`running` flags and the async `stopTuner` with its timer. Each model is one frame or one effect run.
- Canvas visualisers, `polarToCartesian` and `describeArc`, which use trigonometry and build SVG strings, and all JSX, CSS and DOM writes.
- Float32 and IEEE rounding: samples, frequencies and buffers are exact reals. NaN and +Infinity appear only where a division by zero produces them.
- Math functions: `log2` is a function parameter. `sqrt` is folded into the silence gate as a mean square below 0.0001. `Math.pow` is folded into the logarithm (see UntitledTuner.GetNoteFromFrequency).
- The useTuner hook of `web-tuner-app/src/components/Untitled-1.ts` (lines 36-111): it plumbs the frame to `yin` and the note to state.
- The processAudio loop of `my-nextjs-app/src/components/Tuner.tsx` (lines 32-47): it is the frame of NextTunerDir.Needle.ProcessAudio without the frequency overwrite, and FrequencyOverwriteIsNoOp shows that overwrite changes nothing.
- `toFixed(1)` formatting of the displayed frequency.
- In `web-tuner-app/src/hooks/useTuner.ts`, `setFrequency` and the analyser fill. Only the bin argmax and the bin-to-hertz conversion are modelled.
- Null and non-finite guards: `!samples` and `isFinite(sampleRate)` in `detectPitch` have no counterpart, because a sequence is never null and a real is always finite. For the same reason the final `isFinite(frequency)` is always true in the model.
- UntitledYin.Estimate: requires an even frame, because its only caller passes a 4096-sample analyser frame. Odd frames (length 2k + 1) are not modelled. For them the buffer length k + 1/2 is truncated to k entries, but the loops run to t = k and i = k. So every difference sums k + 1 terms, and reading entry k gives `undefined`: NaN in arithmetic, false in comparisons. A dip followed to k - 1 then refines with an undefined right neighbour, and NaN is returned, which the caller's `if (frequency)` drops.
- UntitledTuner.GetNoteFromFrequency: requires a positive frequency, because `log2` of a non-positive ratio (NaN or -Infinity) is not modelled. Its cents use log2(f / (440·2^k)) = log2(f/440) - k, with k = (n - 69)/12, rather than a separate `Math.pow`.
- NextMusic.GetNoteFromFrequency: requires a positive frequency and reference, for the same reason.
- CorrelationTuner.AutoCorrelate: requires a positive sample rate, which an AudioContext always has.
- CorrelationTuner.Display.DetectNote: requires a positive sample rate, which an AudioContext always has.
- WebAudio.DetectPitch: requires a positive sample rate, which an AudioContext always has.
- CorrelationTuner.CentsFollowSign: assumes, as preconditions, that log2 of a ratio above 1 is positive and below 1 negative.
- CorrelationTuner.Silent: an empty buffer divides 0 by 0, and NaN fails the `< 0.01` test, so it counts as not silent. The mean square stands in for the root mean square.
- NextTunerDir.IsTuned: takes the cents as optional because `?? 999` exists for a missing value. The resolver always supplies cents (IsTunedAgrees).
- WebApp.App.UpdateNeedle: the note does not change while one loop runs. A new note starting a second, overlapping loop is scheduling and is left out.
- WebApp.RenderContent: a permission value outside the four states the type allows is not modelled. The `default` branch is merged with `idle`.

## Findings

| source | as written | input that shows it | evidently intended | confidence | as-written member | corrected member |
|---|---|---|---|---|---|---|
| my-nextjs-app/src/utils/pitchDetection.ts:74 | `betterTau = tauEstimate + (s2 - s0) / (2 * denom)`: the vertex offset with its sign flipped | CMNDF neighbours 2.5, 0.1, 0.9 around tau: written result tau - 0.25, vertex at tau + 0.25 | tau + (s0 - s2) / (2 · denom), the vertex of the parabola | not executed | NextPitch.RefineAsWrittenMirrorsVertex | NextPitch.Refine |
| web-tuner-app/src/utils/pitchDetection.ts:79 | `betterTau = tau - peakShift` with `peakShift = (y2 - y0) / (2(2y1 - y2 - y0))`, which already is the vertex offset | neighbours 2.5, 0.1, 0.9: written result tau - 0.25, where the parabola is 0.4, not its minimum 0 at tau + 0.25 | tau + peakShift | not executed | WebPitch.RefineAsWrittenMirrorsVertex | WebPitch.Refine |
| web-tuner-app/src/utils/musicUtils.ts:11 | an A-based name table indexed by semitones counted from C0 (A4 = 57) | 440 Hz: index 57, `57 % 12 = 9`, name "F#", octave 4 | the C-based table, giving A4 | not executed | WebMusic.A440AsWrittenIsFSharp4 | WebMusic.A440IsA4 |
