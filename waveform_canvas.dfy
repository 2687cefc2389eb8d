/**
 * The state that `SonicWaveformCanvas`'s effect keeps between animation
 * frames, as an object whose fields each frame updates in place. One object
 * is one run of the effect: the effect is re-run, and the state recreated,
 * whenever the analyser, the playing flag or a scale prop changes.
 */
module WaveformCanvas {
  import opened Wrappers
  import opened BeatDetector
  import opened JsMath

  /** `sumLow`: the loop adding up the first `count` bins of the spectrum. */
  method SumLow(spectrum: seq<byte>, count: nat) returns (total: int)
    requires count <= |spectrum|
    ensures total == Sum(spectrum[..count])
    ensures 0 <= total <= 255 * count
  {
    total := 0;
    for i := 0 to count
      invariant total == Sum(spectrum[..i])
    {
      assert spectrum[..i + 1][..i] == spectrum[..i];
      total := total + spectrum[i] as int;
    }
  }

  class CanvasSession {
    var energyHistory: seq<real>
    var lastBeatTime: real
    var beatLevel: real
    var time: real
    const speedScale: real

    /** The fields as a value of the pure model. */
    function Snapshot(): State
      reads this
    {
      State(energyHistory, lastBeatTime, beatLevel, time)
    }

    ghost predicate Valid()
      reads this
    {
      WellFormed(Snapshot())
    }

    /** `energyHistory = []`, `lastBeatTime = 0`, `beatLevel = 0`, `time = 0`. */
    constructor (speedScale: real)
      ensures Valid()
      ensures Snapshot() == Initial
      ensures this.speedScale == speedScale
    {
      energyHistory := [];
      lastBeatTime := 0.0;
      beatLevel := 0.0;
      time := 0.0;
      this.speedScale := speedScale;
    }

    /**
     * One call of `draw` minus the painting: analyse the spectrum if there is
     * one, advance the phase, and return the energy the strokes are drawn with.
     */
    method Frame(freq: Option<seq<byte>>, now: real, playing: bool) returns (energy: real)
      requires Valid()
      requires freq.Some? ==> |freq.value| >= MinBassBins
      modifies this
      ensures Valid()
      ensures Snapshot() == Step(old(Snapshot()), freq, now, playing, speedScale).state
      ensures energy == Step(old(Snapshot()), freq, now, playing, speedScale).energy
      ensures 0.0 <= energy <= 1.0
      ensures speedScale >= 0.0 ==> time >= old(time)
    {
      energy := 0.0;
      if freq.Some? {
        var bins := freq.value;
        var lowCount := BassCount(|bins|);
        var sumLow := SumLow(bins, lowCount);
        var lowEnergy := (sumLow as real / lowCount as real) / 255.0;
        assert lowEnergy == LowEnergy(bins);
        energy := Detect(lowEnergy, now, playing);
      }
      time := time + PhaseStep(energy, beatLevel, speedScale);
    }

    /**
     * The part of `draw` after the spectrum is read: push the energy onto the
     * history, test for an onset, decay the beat level and apply the play gate.
     */
    method Detect(lowEnergy: real, now: real, playing: bool) returns (energy: real)
      modifies this
      ensures Outcome(Snapshot(), energy) == Analyse(old(Snapshot()), lowEnergy, now, playing)
    {
      ghost var before := Snapshot();
      energyHistory := energyHistory + [lowEnergy];
      if |energyHistory| > HistoryCapacity {
        energyHistory := energyHistory[1..];
      }
      assert energyHistory == Push(before.energyHistory, lowEnergy);
      var avg := Mean(energyHistory);

      if lowEnergy > Max(OnsetFloor, avg * Sensitivity) && now - lastBeatTime > RefractoryMs {
        lastBeatTime := now;
        beatLevel := 1.0;
      }

      beatLevel := beatLevel * Decay;

      energy := lowEnergy;
      if !playing {
        energy := 0.0;
        beatLevel := 0.0;
      }
    }
  }
}
