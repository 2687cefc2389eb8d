# Sonic waveform: a Dafny model of the audio-reactive core

This project models the part of the waveform demo that has algorithmic
content. That part is the per-frame audio analysis inside the
`SonicWaveformCanvas` effect (`src/components/SonicWaveform.jsx`) and the
time formatting of the media player (`src/components/MediaPlayer.jsx`).

Every animation frame does the following:

1. Read a byte spectrum from the analyser.
2. Average the lowest `max(3, floor(n * 0.12))` bins into a bass energy in [0, 1].
3. Push that energy onto a history of at most 60 samples, oldest out first.
4. Fire an onset when the energy beats `max(0.02, 1.6 * average)` and more
   than 140 ms have passed since the last beat.
5. Decay the beat level by 0.92 and zero both signals when not playing.
6. Advance the animation phase by `(0.02 + 0.08 * energy + 0.12 * beat) * speedScale`.

The files:

- `common.dfy`: `Option`, and `Math.max`/`Math.min` on reals (`JsMath`).
- `beat_detector.dfy` (`BeatDetector`): the frame as pure functions over a
  `State` value holding the four variables the effect closure keeps. It has
  the onset, decay and gating rules, and whole sessions (`Run`) with the
  lemmas about them.
- `waveform_canvas.dfy` (`WaveformCanvas`): the effect's state as a class
  `CanvasSession`. Its fields `energyHistory`, `lastBeatTime`, `beatLevel` and
  `time` are updated in place by `Frame`. `SumLow` is the summing loop.
  `Frame` is proved to compute exactly `BeatDetector.Step` and to keep the
  history bounded and the beat level in [0, 1].
- `stroke_field.dfy` (`StrokeField`): the renderer's scalar helpers, which
  are the pointer falloff, spike multiplier, alpha clamp, line width and
  spike amplitude.
- `media_player.dfy` (`MediaPlayer`): `formatTime`, a parser for its output
  that proves the format round-trips, and the progress-bar width.

Behaviour of the code that the model keeps as written:

- The decay runs in the same frame as a trigger (line 69 after line 65). A
  trigger frame therefore renders with beat level 0.92, not 1.0
  (`OnsetRule`).
- The first frame of a session can never fire (`FirstFrameNeverFires`). The
  second frame can: a single earlier sample of 0 and a sample of 0.5 give an
  onset (`SecondFrameCanFire`).
- When not playing, the history is still appended and `lastBeatTime` can
  still advance. Only the energy and beat level are forced to 0
  (`PausedFrameIsInert`, `OnsetRule`).
- `isPlaying` and the scale props are dependencies of the effect (line 133).
  Changing any of them recreates the history, the beat state and the phase
  (lines 21, 38-40). So a session never resumes with a stale history; in the
  model `playing` and `speedScale` are constant within a `Run`. The class
  `CanvasSession` is deliberately more general: `speedScale` is fixed when
  it is constructed, but `playing` is a parameter of every `Frame` call, so
  the class also admits sessions in which it varies.
- `formatTime(0)` takes the early `'0:00'` return. This agrees with the
  general layout for 0, so `FormatTime(t) == Clock(floor(t))` for every
  `t >= 0`.

## Model

| member | source | states |
|---|---|---|
| `JsMath.Max` | src/components/SonicWaveform.jsx:51 | `Math.max(a, b)` is one of its arguments and at least both |
| `JsMath.Min` | src/components/SonicWaveform.jsx:86 | `Math.min(a, b)` is one of its arguments and at most both |
| `BeatDetector.BassCount` | src/components/SonicWaveform.jsx:51 | the band size is at least 3, at most `n` when `n >= 3`, and equals `floor(0.12 n)` once that reaches 3 |
| `BeatDetector.Sum` | src/components/SonicWaveform.jsx:52-53 | a sum of byte bins lies in `[0, 255 * count]` |
| `WaveformCanvas.SumLow` | src/components/SonicWaveform.jsx:52-53 | the accumulation loop returns exactly the sum of the first `lowCount` bins |
| `BeatDetector.LowEnergy` | src/components/SonicWaveform.jsx:51-54 | the bass energy of any spectrum of at least 3 bins lies in [0, 1] |
| `BeatDetector.SilentLowEnergy` | src/components/SonicWaveform.jsx:51-54 | an all-zero spectrum has bass energy exactly 0 |
| `BeatDetector.Push` | src/components/SonicWaveform.jsx:57-58 | the new sample is last; before it comes the old history, minus its oldest entry exactly when it already had 60; the length never exceeds 60; unit samples stay unit |
| `BeatDetector.TotalBounds` | src/components/SonicWaveform.jsx:59 | `Total`, the `reduce((a, b) => a + b, 0)` left fold, of `n` unit samples lies in `[0, n]` |
| `BeatDetector.MeanInUnit` | src/components/SonicWaveform.jsx:59 | `Mean`, the history average `avg` (the fold divided by the length), of unit samples lies in [0, 1] |
| `BeatDetector.Analyse` | src/components/SonicWaveform.jsx:57-75 | the history becomes the pushed history; a well-formed state stays well-formed; the phase is untouched |
| `BeatDetector.OnsetRule` | src/components/SonicWaveform.jsx:63-75 | `lastBeatTime` moves iff the onset test `Onset` (energy above `max(0.02, 1.6 * avg)` and more than 140 ms since the last beat) passes, and then to `now`, more than 140 ms on; while playing the level ends at 0.92 on a trigger and at `0.92 * old` otherwise; it is 0 when not playing |
| `BeatDetector.FirstFrameNeverFires` | src/components/SonicWaveform.jsx:57-63 | with an empty history no nonnegative energy fires an onset |
| `BeatDetector.FirstStepKeepsBeatTime` | src/components/SonicWaveform.jsx:38-69 | the first frame of a fresh session leaves `lastBeatTime` and `beatLevel` at 0 |
| `BeatDetector.SecondFrameCanFire` | src/components/SonicWaveform.jsx:59-63 | with one earlier sample of 0, energy 0.5 at 200 ms fires an onset |
| `BeatDetector.PausedFrameIsInert` | src/components/SonicWaveform.jsx:57-75 | when not playing, energy and beat level are 0, the sample is still pushed, and the phase steps by `0.02 * speedScale` |
| `BeatDetector.PlayingFrame` | src/components/SonicWaveform.jsx:57-113 | a playing frame with a spectrum renders with energy `LowEnergy(bins)`, pushes it onto the history, keeps `Analyse`'s decayed beat level, and advances the phase by exactly `PhaseStep` of that energy and that level |
| `BeatDetector.NoSourceFrame` | src/components/SonicWaveform.jsx:47-48 | with no analyser, energy is 0 and history, beat time and beat level are unchanged; the phase steps by the zero-energy step |
| `BeatDetector.PhaseStep` | src/components/SonicWaveform.jsx:113 | the phase step is nonnegative for nonnegative inputs and exactly `0.02 * speedScale` at zero energy and beat |
| `BeatDetector.Step` | src/components/SonicWaveform.jsx:47-113 | a frame keeps the state well-formed, yields energy in [0, 1], never moves the phase backwards for `speedScale >= 0`, renders energy 0 when not playing, and with no spectrum changes only the phase |
| `BeatDetector.RunStaysWellFormed` | src/components/SonicWaveform.jsx:57-69 | over any sequence of frames of one effect run (`Run`, the successive `draw` calls of lines 42-115) the history stays at most 60 unit samples, the beat level stays in [0, 1], and the phase never decreases |
| `BeatDetector.RefractoryHoldsBeatTime` | src/components/SonicWaveform.jsx:63-64 | frames all within 140 ms of the last beat never change `lastBeatTime` |
| `BeatDetector.SecondSpikeSuppressed` | src/components/SonicWaveform.jsx:63-64 | after an onset at `t1`, a spike at `t2 <= t1 + 140` fails the onset test and `lastBeatTime` stays `t1` |
| `BeatDetector.RunWithoutSource` | src/components/SonicWaveform.jsx:32-48 | a session without an analyser keeps its history and beat state, and its phase grows by `n` equal steps over `n` frames |
| `BeatDetector.PausedRun` | src/components/SonicWaveform.jsx:72-75 | a paused session starting at beat level 0 keeps it at 0 after every frame, while the history never shrinks |
| `BeatDetector.SilentFrame` | src/components/SonicWaveform.jsx:51-113 | a silent playing frame at beat level 0 has energy 0, no onset, beat level 0 and phase step `0.02 * speedScale` |
| `BeatDetector.SilentRun` | src/components/SonicWaveform.jsx:63-69 | a playing session of silent spectra never fires and keeps beat level 0 |
| `BeatDetector.TotalConstant` | src/components/SonicWaveform.jsx:59 | the sum of `n` copies of `v` is `n * v` |
| `BeatDetector.SpikeAfterSteadySignalFires` | src/components/SonicWaveform.jsx:57-65 | after 60 samples of 0.05, a sample of 0.9 more than 140 ms after the last beat fires |
| `WaveformCanvas.CanvasSession.constructor` | src/components/SonicWaveform.jsx:38-40 | a fresh session starts with an empty history and zero beat time, beat level and phase |
| `WaveformCanvas.CanvasSession.Frame` | src/components/SonicWaveform.jsx:47-113 | the fields after the frame are exactly `Step` of the fields before; the returned energy is `Step`'s, in [0, 1]; the invariant is kept and the phase does not decrease |
| `WaveformCanvas.CanvasSession.Detect` | src/components/SonicWaveform.jsx:57-75 | the in-place push, shift, onset, decay and play gate compute exactly `Analyse` |
| `StrokeField.PointerInfluence` | src/components/SonicWaveform.jsx:96 | the influence is in [0, 1], 1 at distance 0, 0 from 400 px on, and linear in between |
| `StrokeField.InfluenceMonotone` | src/components/SonicWaveform.jsx:96 | nearer points are influenced at least as much |
| `StrokeField.SpikeMultiplier` | src/components/SonicWaveform.jsx:101 | the spike factor lies in [1, 3]: 3 at the pointer, 1 beyond 400 px |
| `StrokeField.StrokeAlpha` | src/components/SonicWaveform.jsx:86 | alpha never exceeds 1, is nonnegative for nonnegative inputs, and equals the unclamped product when that is at most 1 |
| `StrokeField.LineWidth` | src/components/SonicWaveform.jsx:87 | the width is at least 1.5 for nonnegative energy and beat, and at most 5.5 for unit ones |
| `StrokeField.SpikeAmplitude` | src/components/SonicWaveform.jsx:100 | the spike amplitude lies between `50` and `450` times `lengthScale` for unit energy and beat |
| `MediaPlayer.Decimal` | src/components/MediaPlayer.jsx:23 | the decimal rendering is nonempty digits, one digit exactly below 10, at most two below 100, and has no leading zero |
| `MediaPlayer.ParseDecimalOfDecimal` | src/components/MediaPlayer.jsx:23 | reading back the digits of `n` gives `n` |
| `MediaPlayer.SecondsField` | src/components/MediaPlayer.jsx:23 | the seconds field is exactly two digits, starts with '0' iff seconds < 10, and reads back as the seconds |
| `MediaPlayer.SplitSeconds` | src/components/MediaPlayer.jsx:21-22 | for `time >= 0`, the seconds field `Seconds` (`Math.floor(time % 60)`) is in 0..59, and with the minutes field `Minutes` (`Math.floor(time / 60)`) satisfies `minutes * 60 + seconds == floor(time)` |
| `MediaPlayer.FormatTime` | src/components/MediaPlayer.jsx:19-24 | 0 gives `"0:00"`; the colon is third from the end; the output is the `M:SS` layout of `floor(time)` |
| `MediaPlayer.ClockRoundTrip` | src/components/MediaPlayer.jsx:23 | splitting `Clock`, the `M:SS` layout of a whole number of seconds, at its colon and reading both parts gives back the minutes and seconds |
| `MediaPlayer.FormatRoundTrip` | src/components/MediaPlayer.jsx:19-24 | parsing `formatTime(time)` gives `(floor(time / 60), floor(time % 60))` |
| `MediaPlayer.FormatSameIffSameSecond` | src/components/MediaPlayer.jsx:19-24 | two times format to the same string iff they have the same whole seconds |
| `MediaPlayer.ProgressPercent` | src/components/MediaPlayer.jsx:39 | the width is 0 for duration 0, otherwise `currentTime / duration * 100`, within [0, 100] when `0 <= currentTime <= duration` |

## Left out

- Spectra shorter than 3 bins are excluded by a precondition. JavaScript would read `undefined` past the end and produce NaN. The Web Audio analyser always has at least 16 bins, and this app's `fftSize` of 256 gives 128 (src/app/page.jsx:49).
- The spectrum length is not tied to one fixed `frequencyBinCount` per session. The model accepts any admissible length on every frame, which is more general.
- IEEE-754 doubles: all energy, beat, phase and time arithmetic is on exact reals. `floor(n * 0.12)` is computed as `n * 12 / 100` on integers. Rounding, NaN and Infinity are not modelled; in particular `formatTime(NaN)` and an unknown duration are not.
- Canvas painting and wave geometry are not modelled: the translucent fill, paths and strokes, and the `sin`/`cos`/`Math.hypot` terms. The colour intensity `sin(progress * PI)` and the pointer distance are inputs of the helpers.
- The `requestAnimationFrame` loop, the resize and mousemove listeners, the mouse position and teardown are browser scheduling, not sequential logic.
- `performance.now()` and `analyser.getByteFrequencyData` are foreign calls. They become the `now` and `freq` parameters of `Frame`.
- src/app/page.jsx is not part of this model. It is Web Audio graph setup, media-element events and React state. So is the JSX markup of `SonicWaveformHero` and of the `MediaPlayer` render tree.
- FormatTime: negative times are excluded by a precondition. `${minutes}` is modelled as plain decimal digits; JavaScript switches to exponential notation only from 10^21 on.
- PausedRun: the total phase after a paused session is not stated as one product. The lemma keeps beat level 0 throughout, and `PausedFrameIsInert` gives each frame's exact step of `0.02 * speedScale`.
- SilentRun: likewise, the exact per-frame phase step of a silent session is stated per frame by `SilentFrame`, not as a session total.
