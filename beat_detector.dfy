/**
 * The per-frame audio analysis of SonicWaveform.jsx as pure functions over a
 * snapshot of the canvas effect's state: bass-band energy extraction, the
 * bounded energy history, onset detection with a refractory period, beat
 * decay, play gating and the phase advance. The class in waveform_canvas.dfy
 * is proved to compute exactly `Step` on its fields.
 */
module BeatDetector {
  import opened Wrappers
  import opened JsMath

  /** One entry of the analyser's `Uint8Array` of frequency data. */
  newtype byte = x: int | 0 <= x < 256

  const MinBassBins: nat := 3
  const HistoryCapacity: nat := 60
  const OnsetFloor: real := 0.02
  const Sensitivity: real := 1.6
  const RefractoryMs: real := 140.0
  const Decay: real := 0.92
  const BaseIncrement: real := 0.02
  const EnergyGain: real := 0.08
  const BeatGain: real := 0.12

  // ---------------------------------------------------------------------
  // Energy extraction
  // ---------------------------------------------------------------------

  /**
   * `Math.max(3, Math.floor(n * 0.12))`, the number of lowest bins averaged as
   * the bass band, with `floor(n * 0.12)` computed on integers as `n * 12 / 100`.
   */
  function BassCount(n: nat): (c: nat)
    ensures c >= MinBassBins
    ensures n >= MinBassBins ==> c <= n
    ensures 12 * n < 400 ==> c == MinBassBins
    ensures 12 * n >= 300 ==> 100 * c <= 12 * n < 100 * (c + 1)
  {
    var scaled := (n * 12) / 100;
    if scaled < MinBassBins then MinBassBins else scaled
  }

  /** The sum of a run of bins, accumulated front to back as the `sumLow` loop in SonicWaveform.jsx:53 does. */
  function Sum(s: seq<byte>): (t: int)
    ensures 0 <= t <= 255 * |s|
  {
    if s == [] then 0 else Sum(s[..|s| - 1]) + s[|s| - 1] as int
  }

  /** A spectrum in which every bin is zero. */
  predicate Silent(s: seq<byte>)
  {
    forall i :: 0 <= i < |s| ==> s[i] == 0
  }

  lemma {:induction false} SilentSum(s: seq<byte>)
    requires Silent(s)
    ensures Sum(s) == 0
  {
    if s != [] {
      assert Silent(s[..|s| - 1]);
      SilentSum(s[..|s| - 1]);
    }
  }

  /**
   * `(sumLow / lowCount) / 255`: the mean of the bass band scaled to [0, 1].
   * The spectrum has at least three bins, so the band lies inside it.
   */
  function LowEnergy(spectrum: seq<byte>): (e: real)
    requires |spectrum| >= MinBassBins
    ensures 0.0 <= e <= 1.0
  {
    var k := BassCount(|spectrum|);
    var total := Sum(spectrum[..k]);
    assert total as real / k as real <= 255.0 by {
      assert total as real <= 255.0 * k as real;
    }
    (total as real / k as real) / 255.0
  }

  /** A silent spectrum has zero bass energy. */
  lemma SilentLowEnergy(spectrum: seq<byte>)
    requires |spectrum| >= MinBassBins && Silent(spectrum)
    ensures LowEnergy(spectrum) == 0.0
  {
    var k := BassCount(|spectrum|);
    assert Silent(spectrum[..k]);
    SilentSum(spectrum[..k]);
  }

  // ---------------------------------------------------------------------
  // The bounded energy history
  // ---------------------------------------------------------------------

  predicate InUnit(x: real)
  {
    0.0 <= x <= 1.0
  }

  predicate AllInUnit(h: seq<real>)
  {
    forall i :: 0 <= i < |h| ==> InUnit(h[i])
  }

  /**
   * `energyHistory.push(x)` followed by `shift()` when the length exceeds 60:
   * the new sample is last, and the previous history precedes it with its
   * oldest entry dropped exactly when it already held 60 (or more) entries.
   */
  function Push(h: seq<real>, x: real): (r: seq<real>)
    ensures |r| == if |h| >= HistoryCapacity then |h| else |h| + 1
    ensures |h| <= HistoryCapacity ==> |r| <= HistoryCapacity
    ensures r[|r| - 1] == x
    ensures r[..|r| - 1] == if |h| >= HistoryCapacity then h[1..] else h
    ensures AllInUnit(h) && InUnit(x) ==> AllInUnit(r)
  {
    var appended := h + [x];
    assert appended[..|h|] == h;
    assert AllInUnit(h) && InUnit(x) ==> AllInUnit(appended) by {
      if AllInUnit(h) && InUnit(x) {
        forall i | 0 <= i < |appended| ensures InUnit(appended[i]) {
          if i < |h| { assert appended[i] == h[i]; }
        }
      }
    }
    if |appended| > HistoryCapacity then
      assert appended[1..][..|h| - 1] == h[1..];
      appended[1..]
    else
      appended
  }

  /** `reduce((a, b) => a + b, 0)`, a left fold of addition. */
  function Total(h: seq<real>): real
  {
    if h == [] then 0.0 else Total(h[..|h| - 1]) + h[|h| - 1]
  }

  lemma {:induction false} TotalBounds(h: seq<real>)
    requires AllInUnit(h)
    ensures 0.0 <= Total(h) <= |h| as real
  {
    if h != [] {
      assert AllInUnit(h[..|h| - 1]);
      TotalBounds(h[..|h| - 1]);
    }
  }

  /** The history's average, `reduce(...) / energyHistory.length`. */
  function Mean(h: seq<real>): real
    requires h != []
  {
    Total(h) / |h| as real
  }

  /** The average of samples in [0, 1] lies in [0, 1]. */
  lemma MeanInUnit(h: seq<real>)
    requires h != [] && AllInUnit(h)
    ensures InUnit(Mean(h))
  {
    TotalBounds(h);
    var n := |h| as real;
    assert Total(h) / n <= 1.0 by {
      assert Total(h) <= n;
    }
  }

  // ---------------------------------------------------------------------
  // Onset detection, decay and play gating
  // ---------------------------------------------------------------------

  /**
   * The onset test, on the history that already ends with `lowEnergy`:
   * energy above both the floor and 1.6 times the average, and more than
   * 140 ms since the last beat.
   */
  predicate Onset(history: seq<real>, lowEnergy: real, now: real, lastBeatTime: real)
    requires history != []
  {
    lowEnergy > Max(OnsetFloor, Mean(history) * Sensitivity) && now - lastBeatTime > RefractoryMs
  }

  /** The four variables the effect closure keeps from frame to frame. */
  datatype State = State(energyHistory: seq<real>, lastBeatTime: real, beatLevel: real, time: real)

  /** The state a fresh run of the effect starts from. */
  const Initial: State := State([], 0.0, 0.0, 0.0)

  /** What every frame preserves: a bounded history of unit samples and a unit beat level. */
  predicate WellFormed(s: State)
  {
    |s.energyHistory| <= HistoryCapacity && AllInUnit(s.energyHistory) && InUnit(s.beatLevel)
  }

  /** A frame's new state and the energy it renders with. */
  datatype Outcome = Outcome(state: State, energy: real)

  /**
   * The analysis of one spectrum whose bass energy is `lowEnergy`: history,
   * onset, decay (after the trigger, so a trigger frame ends at 0.92) and the
   * play gate, which zeroes energy and beat level but not the history or the
   * beat time. The phase is left to `Step`.
   */
  function Analyse(s: State, lowEnergy: real, now: real, playing: bool): (r: Outcome)
    ensures r.state.time == s.time
    ensures r.state.energyHistory == Push(s.energyHistory, lowEnergy)
    ensures WellFormed(s) && InUnit(lowEnergy) ==> WellFormed(r.state) && InUnit(r.energy)
  {
    var history := Push(s.energyHistory, lowEnergy);
    var fired := Onset(history, lowEnergy, now, s.lastBeatTime);
    var lastBeat := if fired then now else s.lastBeatTime;
    var level := (if fired then 1.0 else s.beatLevel) * Decay;
    if playing then Outcome(State(history, lastBeat, level, s.time), lowEnergy)
    else Outcome(State(history, lastBeat, 0.0, s.time), 0.0)
  }

  /** `(0.02 + energy * 0.08 + beatLevel * 0.12) * speedScale`, the phase advance. */
  function PhaseStep(energy: real, beatLevel: real, speedScale: real): (d: real)
    ensures energy >= 0.0 && beatLevel >= 0.0 && speedScale >= 0.0 ==> d >= 0.0
    ensures energy == 0.0 && beatLevel == 0.0 ==> d == BaseIncrement * speedScale
  {
    (BaseIncrement + energy * EnergyGain + beatLevel * BeatGain) * speedScale
  }

  /**
   * One whole frame: with no spectrum source the energy is 0 and nothing but
   * the phase changes; otherwise the spectrum is analysed. The phase then
   * advances with the frame's energy and the decayed beat level.
   */
  function Step(s: State, spectrum: Option<seq<byte>>, now: real, playing: bool, speedScale: real): (r: Outcome)
    requires spectrum.Some? ==> |spectrum.value| >= MinBassBins
    ensures WellFormed(s) ==> WellFormed(r.state) && InUnit(r.energy)
    ensures WellFormed(s) && speedScale >= 0.0 ==> r.state.time >= s.time
    ensures !playing ==> r.energy == 0.0
    ensures spectrum.None? ==> r.energy == 0.0 && r.state == s.(time := r.state.time)
  {
    var analysed :=
      match spectrum
      case None => Outcome(s, 0.0)
      case Some(bins) => Analyse(s, LowEnergy(bins), now, playing);
    var st := analysed.state;
    Outcome(st.(time := st.time + PhaseStep(analysed.energy, st.beatLevel, speedScale)), analysed.energy)
  }

  // ---------------------------------------------------------------------
  // Sessions: one run of the effect over a sequence of frames
  // ---------------------------------------------------------------------

  /** What a frame reads from outside: the spectrum (if any) and `performance.now()`. */
  datatype Sample = Sample(spectrum: Option<seq<byte>>, now: real)

  predicate Admissible(frames: seq<Sample>)
  {
    forall i :: 0 <= i < |frames| ==> (frames[i].spectrum.Some? ==> |frames[i].spectrum.value| >= MinBassBins)
  }

  /**
   * The state after a sequence of frames. `playing` and `speedScale` are
   * fixed for a session because the effect restarts when either changes.
   */
  function Run(s: State, frames: seq<Sample>, playing: bool, speedScale: real): State
    requires Admissible(frames)
    decreases |frames|
  {
    if frames == [] then s
    else
      AdmissibleTail(frames);
      Run(Step(s, frames[0].spectrum, frames[0].now, playing, speedScale).state, frames[1..], playing, speedScale)
  }

  lemma AdmissibleTail(frames: seq<Sample>)
    requires Admissible(frames) && frames != []
    ensures Admissible(frames[1..])
  {
    forall i | 0 <= i < |frames| - 1
      ensures frames[1..][i].spectrum.Some? ==> |frames[1..][i].spectrum.value| >= MinBassBins
    {
      assert frames[1..][i] == frames[i + 1];
    }
  }

  // ---------------------------------------------------------------------
  // Properties of one frame
  // ---------------------------------------------------------------------

  /**
   * The onset rule: the beat time moves iff the onset test passes, and then it
   * moves to `now`, more than 140 ms past the previous beat. While playing, a
   * trigger frame ends with beat level exactly 0.92 and any other frame with
   * the previous level times 0.92; while not playing the level is 0.
   */
  lemma OnsetRule(s: State, lowEnergy: real, now: real, playing: bool)
    ensures var r := Analyse(s, lowEnergy, now, playing).state;
            var fired := Onset(Push(s.energyHistory, lowEnergy), lowEnergy, now, s.lastBeatTime);
            (r.lastBeatTime != s.lastBeatTime <==> fired)
            && (fired ==> r.lastBeatTime == now && r.lastBeatTime - s.lastBeatTime > RefractoryMs)
            && (fired ==> r.beatLevel == if playing then Decay else 0.0)
            && (!fired ==> r.beatLevel == if playing then s.beatLevel * Decay else 0.0)
  {
  }

  /**
   * On the first frame of a session the history is empty, so the average is
   * the frame's own energy, which can never exceed 1.6 times itself.
   */
  lemma FirstFrameNeverFires(s: State, lowEnergy: real, now: real)
    requires s.energyHistory == [] && lowEnergy >= 0.0
    ensures !Onset(Push(s.energyHistory, lowEnergy), lowEnergy, now, s.lastBeatTime)
  {
    var h := Push(s.energyHistory, lowEnergy);
    assert h == [lowEnergy];
    assert h[..0] == [];
    assert Total(h) == Total([]) + lowEnergy;
    assert Mean(h) == lowEnergy / 1.0;
  }

  /** The first frame of a fresh session leaves the beat time at 0. */
  lemma FirstStepKeepsBeatTime(spectrum: Option<seq<byte>>, now: real, playing: bool, speedScale: real)
    requires spectrum.Some? ==> |spectrum.value| >= MinBassBins
    ensures Step(Initial, spectrum, now, playing, speedScale).state.lastBeatTime == 0.0
    ensures Step(Initial, spectrum, now, playing, speedScale).state.beatLevel == 0.0
  {
    if spectrum.Some? {
      FirstFrameNeverFires(Initial, LowEnergy(spectrum.value), now);
    }
  }

  /**
   * A paused frame renders with zero energy and zero beat level, although
   * the spectrum is still pushed onto the history.
   */
  lemma PausedFrameIsInert(s: State, bins: seq<byte>, now: real, speedScale: real)
    requires |bins| >= MinBassBins
    ensures var r := Step(s, Some(bins), now, false, speedScale);
            r.energy == 0.0 && r.state.beatLevel == 0.0
            && r.state.energyHistory == Push(s.energyHistory, LowEnergy(bins))
            && r.state.time == s.time + BaseIncrement * speedScale
  {
  }

  /**
   * A playing frame with a spectrum renders with the band's bass energy,
   * pushes it onto the history, and advances the phase with that energy and
   * the beat level after the decay (0.92 on a trigger frame).
   */
  lemma PlayingFrame(s: State, bins: seq<byte>, now: real, speedScale: real)
    requires |bins| >= MinBassBins
    ensures var r := Step(s, Some(bins), now, true, speedScale);
            r.energy == LowEnergy(bins)
            && r.state.energyHistory == Push(s.energyHistory, LowEnergy(bins))
            && r.state.time == s.time + PhaseStep(r.energy, r.state.beatLevel, speedScale)
            && r.state.beatLevel == Analyse(s, LowEnergy(bins), now, true).state.beatLevel
  {
  }

  /**
   * Without a spectrum source the history, beat time and beat level are
   * untouched and the phase advances by the step for zero energy.
   */
  lemma NoSourceFrame(s: State, now: real, playing: bool, speedScale: real)
    ensures var r := Step(s, None, now, playing, speedScale);
            r.energy == 0.0
            && r.state.energyHistory == s.energyHistory
            && r.state.lastBeatTime == s.lastBeatTime
            && r.state.beatLevel == s.beatLevel
            && r.state.time == s.time + PhaseStep(0.0, s.beatLevel, speedScale)
  {
  }

  // ---------------------------------------------------------------------
  // Properties of whole sessions
  // ---------------------------------------------------------------------

  /**
   * Across any sequence of frames the history stays within 60 unit samples,
   * the beat level stays in [0, 1], and for a nonnegative speed scale the
   * phase never decreases.
   */
  lemma {:induction false} RunStaysWellFormed(s: State, frames: seq<Sample>, playing: bool, speedScale: real)
    requires WellFormed(s) && Admissible(frames)
    ensures WellFormed(Run(s, frames, playing, speedScale))
    ensures speedScale >= 0.0 ==> Run(s, frames, playing, speedScale).time >= s.time
    decreases |frames|
  {
    if frames != [] {
      AdmissibleTail(frames);
      var next := Step(s, frames[0].spectrum, frames[0].now, playing, speedScale).state;
      RunStaysWellFormed(next, frames[1..], playing, speedScale);
    }
  }

  /**
   * Frames that all come within 140 ms of the last beat never move the beat
   * time: after an onset, further spikes inside the refractory period are
   * suppressed.
   */
  lemma {:induction false} RefractoryHoldsBeatTime(s: State, frames: seq<Sample>, playing: bool, speedScale: real)
    requires Admissible(frames)
    requires forall i :: 0 <= i < |frames| ==> frames[i].now - s.lastBeatTime <= RefractoryMs
    ensures Run(s, frames, playing, speedScale).lastBeatTime == s.lastBeatTime
    decreases |frames|
  {
    if frames != [] {
      AdmissibleTail(frames);
      var next := Step(s, frames[0].spectrum, frames[0].now, playing, speedScale).state;
      assert next.lastBeatTime == s.lastBeatTime;
      forall i | 0 <= i < |frames| - 1
        ensures frames[1..][i].now - next.lastBeatTime <= RefractoryMs
      {
        assert frames[1..][i] == frames[i + 1];
      }
      RefractoryHoldsBeatTime(next, frames[1..], playing, speedScale);
    }
  }

  /** Two spikes less than 140 ms apart: only the first records a beat. */
  lemma SecondSpikeSuppressed(s: State, e1: real, t1: real, e2: real, t2: real, playing: bool)
    requires Onset(Push(s.energyHistory, e1), e1, t1, s.lastBeatTime)
    requires t2 - t1 <= RefractoryMs
    ensures var first := Analyse(s, e1, t1, playing).state;
            var second := Analyse(first, e2, t2, playing).state;
            first.lastBeatTime == t1
            && !Onset(Push(first.energyHistory, e2), e2, t2, first.lastBeatTime)
            && second.lastBeatTime == t1
  {
  }

  predicate NoSource(frames: seq<Sample>)
  {
    forall i :: 0 <= i < |frames| ==> frames[i].spectrum.None?
  }

  /**
   * A session whose analyser is absent never changes its history, beat time
   * or beat level; the phase advances by the same amount every frame.
   */
  lemma {:induction false} RunWithoutSource(s: State, frames: seq<Sample>, playing: bool, speedScale: real)
    requires NoSource(frames)
    ensures Admissible(frames)
    ensures Run(s, frames, playing, speedScale)
            == s.(time := s.time + |frames| as real * PhaseStep(0.0, s.beatLevel, speedScale))
    decreases |frames|
  {
    if frames != [] {
      assert NoSource(frames[1..]) by {
        forall i | 0 <= i < |frames| - 1 ensures frames[1..][i].spectrum.None? {
          assert frames[1..][i] == frames[i + 1];
        }
      }
      var next := Step(s, frames[0].spectrum, frames[0].now, playing, speedScale).state;
      assert next == s.(time := s.time + PhaseStep(0.0, s.beatLevel, speedScale));
      RunWithoutSource(next, frames[1..], playing, speedScale);
    }
  }

  /**
   * A paused session that starts with beat level 0 keeps it at 0 after every
   * frame, so by `PausedFrameIsInert` each of its frames renders with zero
   * energy and advances the phase by exactly 0.02 * speedScale.
   */
  lemma {:induction false} PausedRun(s: State, frames: seq<Sample>, speedScale: real)
    requires Admissible(frames) && s.beatLevel == 0.0
    ensures Run(s, frames, false, speedScale).beatLevel == 0.0
    ensures |Run(s, frames, false, speedScale).energyHistory| >= |s.energyHistory|
    decreases |frames|
  {
    if frames != [] {
      AdmissibleTail(frames);
      var next := Step(s, frames[0].spectrum, frames[0].now, false, speedScale).state;
      assert next.beatLevel == 0.0;
      assert |next.energyHistory| >= |s.energyHistory|;
      PausedRun(next, frames[1..], speedScale);
    }
  }

  predicate AllSilent(frames: seq<Sample>)
  {
    forall i :: 0 <= i < |frames| ==>
      frames[i].spectrum.Some? && |frames[i].spectrum.value| >= MinBassBins && Silent(frames[i].spectrum.value)
  }

  /**
   * A playing frame with a silent spectrum, from beat level 0: energy 0, no
   * onset (0 never exceeds the 0.02 floor), beat level still 0, and a phase
   * advance of exactly 0.02 * speedScale.
   */
  lemma SilentFrame(s: State, bins: seq<byte>, now: real, speedScale: real)
    requires |bins| >= MinBassBins && Silent(bins) && s.beatLevel == 0.0
    ensures var r := Step(s, Some(bins), now, true, speedScale);
            r.energy == 0.0 && r.state.beatLevel == 0.0
            && r.state.lastBeatTime == s.lastBeatTime
            && r.state.time == s.time + BaseIncrement * speedScale
  {
    SilentLowEnergy(bins);
  }

  /**
   * A playing session fed only silent spectra, starting at beat level 0,
   * never fires an onset and keeps beat level 0; by `SilentFrame` each of its
   * frames has energy 0 and advances the phase by exactly 0.02 * speedScale.
   */
  lemma {:induction false} SilentRun(s: State, frames: seq<Sample>, speedScale: real)
    requires AllSilent(frames) && s.beatLevel == 0.0
    ensures Admissible(frames)
    ensures Run(s, frames, true, speedScale).lastBeatTime == s.lastBeatTime
    ensures Run(s, frames, true, speedScale).beatLevel == 0.0
    decreases |frames|
  {
    if frames != [] {
      assert AllSilent(frames[1..]) by {
        forall i | 0 <= i < |frames| - 1
          ensures frames[1..][i].spectrum.Some? && |frames[1..][i].spectrum.value| >= MinBassBins
                  && Silent(frames[1..][i].spectrum.value)
        {
          assert frames[1..][i] == frames[i + 1];
        }
      }
      SilentFrame(s, frames[0].spectrum.value, frames[0].now, speedScale);
      var next := Step(s, frames[0].spectrum, frames[0].now, true, speedScale).state;
      SilentRun(next, frames[1..], speedScale);
    }
  }

  // ---------------------------------------------------------------------
  // A steady signal followed by a spike
  // ---------------------------------------------------------------------

  lemma {:induction false} TotalConstant(v: real, n: nat)
    ensures Total(seq(n, _ => v)) == n as real * v
  {
    if n > 0 {
      assert seq(n, _ => v)[..n - 1] == seq(n - 1, _ => v);
      TotalConstant(v, n - 1);
    }
  }

  /**
   * Sixty frames at energy 0.05 fill the history; a frame at 0.9 then fires
   * an onset, as long as more than 140 ms have passed since the last beat.
   */
  lemma SpikeAfterSteadySignalFires(now: real, lastBeatTime: real)
    requires now - lastBeatTime > RefractoryMs
    ensures Onset(Push(seq(HistoryCapacity, _ => 0.05), 0.9), 0.9, now, lastBeatTime)
  {
    var steady := seq(HistoryCapacity - 1, _ => 0.05);
    var h := Push(seq(HistoryCapacity, _ => 0.05), 0.9);
    assert h == steady + [0.9];
    assert h[..|h| - 1] == steady;
    TotalConstant(0.05, HistoryCapacity - 1);
    assert Total(h) == 3.85;
    assert Mean(h) == 3.85 / 60.0;
  }

  /**
   * The second frame of a session can already fire: one earlier sample of 0
   * makes the average of the sample 0.5 equal 0.25, and 0.5 > 1.6 * 0.25.
   */
  lemma SecondFrameCanFire()
    ensures Onset(Push([0.0], 0.5), 0.5, 200.0, 0.0)
  {
    var h := Push([0.0], 0.5);
    assert h == [0.0, 0.5];
    assert h[..1] == [0.0] && h[..1][..0] == [];
    assert Mean(h) == 0.25;
  }
}
