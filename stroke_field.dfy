/**
 * The scalar helpers of the stroke-field renderer in SonicWaveform.jsx:
 * stroke alpha, line width, the spike amplitude and the pointer falloff.
 * The sine/cosine geometry and the painting itself are not modelled; the
 * colour intensity `sin(progress * PI)` and the pointer distance are inputs.
 */
module StrokeField {
  import opened JsMath

  /** Pixels beyond which the pointer no longer amplifies a point. */
  const FalloffRadius: real := 400.0

  /** `Math.max(0, 1 - d / 400)`: the pointer's influence at distance `d`. */
  function PointerInfluence(d: real): (r: real)
    requires d >= 0.0
    ensures 0.0 <= r <= 1.0
    ensures d == 0.0 ==> r == 1.0
    ensures d >= FalloffRadius ==> r == 0.0
    ensures d < FalloffRadius ==> r * FalloffRadius == FalloffRadius - d
  {
    Max(0.0, 1.0 - d / FalloffRadius)
  }

  /** Nearer points are influenced at least as much as farther ones. */
  lemma InfluenceMonotone(d1: real, d2: real)
    requires 0.0 <= d1 <= d2
    ensures PointerInfluence(d2) <= PointerInfluence(d1)
  {
  }

  /** `1 + mouseEffect * 2`, the factor applied to a point's spike term. */
  function SpikeMultiplier(d: real): (m: real)
    requires d >= 0.0
    ensures 1.0 <= m <= 3.0
    ensures d == 0.0 ==> m == 3.0
    ensures d >= FalloffRadius ==> m == 1.0
  {
    1.0 + PointerInfluence(d) * 2.0
  }

  /**
   * The stroke's alpha, `Math.min(1, intensity * (0.45 + energy * 0.9 + beat * 0.8))`:
   * never above opaque, never below transparent for nonnegative inputs, and
   * equal to the unclamped product whenever that is at most 1.
   */
  function StrokeAlpha(intensity: real, energy: real, beat: real): (a: real)
    ensures a <= 1.0
    ensures intensity >= 0.0 && energy >= 0.0 && beat >= 0.0 ==> a >= 0.0
    ensures a == 1.0 || a == intensity * (0.45 + energy * 0.9 + beat * 0.8)
    ensures intensity * (0.45 + energy * 0.9 + beat * 0.8) <= 1.0 ==>
              a == intensity * (0.45 + energy * 0.9 + beat * 0.8)
  {
    Min(1.0, intensity * (0.45 + energy * 0.9 + beat * 0.8))
  }

  /** `1.5 + energy * 2 + beat * 2`: at least 1.5, and at most 5.5 for unit inputs. */
  function LineWidth(energy: real, beat: real): (w: real)
    ensures energy >= 0.0 && beat >= 0.0 ==> w >= 1.5
    ensures energy <= 1.0 && beat <= 1.0 ==> w <= 5.5
    ensures energy == 0.0 && beat == 0.0 ==> w == 1.5
  {
    1.5 + energy * 2.0 + beat * 2.0
  }

  /** `(50 + energy * 160 + beat * 240) * lengthScale`, the spike term's amplitude. */
  function SpikeAmplitude(energy: real, beat: real, lengthScale: real): (r: real)
    ensures 0.0 <= energy <= 1.0 && 0.0 <= beat <= 1.0 && lengthScale >= 0.0 ==>
              50.0 * lengthScale <= r <= 450.0 * lengthScale
    ensures energy == 0.0 && beat == 0.0 ==> r == 50.0 * lengthScale
  {
    var amplitude := 50.0 + energy * 160.0 + beat * 240.0;
    assert 0.0 <= energy <= 1.0 && 0.0 <= beat <= 1.0 && lengthScale >= 0.0 ==>
             50.0 * lengthScale <= amplitude * lengthScale <= 450.0 * lengthScale by {
      if 0.0 <= energy <= 1.0 && 0.0 <= beat <= 1.0 && lengthScale >= 0.0 {
        assert (amplitude - 50.0) * lengthScale >= 0.0;
        assert (450.0 - amplitude) * lengthScale >= 0.0;
      }
    }
    amplitude * lengthScale
  }
}
