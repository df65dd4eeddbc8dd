/**
 * The length measurer of src/measurer.rs: a cubic's length is taken as the
 * sum of three chords, through the points at t = 1/3, 2/3 and 1.
 */
module Measurer {
  import opened Wrappers
  import opened Geometry
  import opened Cubics

  const SEGMENTS: nat := 3

  /**
   * A threshold: `measure_cubic` passes infinity, and a cut in an empty
   * stretch passes the NaN of 0/0. No chord compares as reaching either.
   */
  datatype Bound = Infinite | NaN | Finite(value: real)

  /** The parameter at the end of chord i. */
  function ChordEnd(i: nat): real
  {
    i as real / SEGMENTS as real
  }

  /** The length of chord i (1 <= i <= 3), from t = (i-1)/3 to t = i/3. */
  function Chord(c: Cubic, i: nat, len: Length): (r: real)
    requires 1 <= i <= SEGMENTS
    ensures r >= 0.0
  {
    len(Sub(PointOnCurve(c, ChordEnd(i)), PointOnCurve(c, ChordEnd(i - 1))))
  }

  /** The three chord lengths in order. */
  function Chords(c: Cubic, len: Length): (r: seq<real>)
    ensures |r| == SEGMENTS
    ensures forall i :: 1 <= i <= SEGMENTS ==> r[i - 1] == Chord(c, i, len)
  {
    [Chord(c, 1, len), Chord(c, 2, len), Chord(c, 3, len)]
  }

  /** The sum of the chords before chord i. */
  function Before(chords: seq<real>, i: nat): real
    requires 1 <= i <= |chords| + 1
  {
    if i == 1 then 0.0 else Before(chords, i - 1) + chords[i - 2]
  }

  /**
   * Where chord i and the chords after it put the cut for `threshold`: on the
   * first chord that reaches the threshold, the fraction of it still needed;
   * past the last chord, t = 1 and the full length. The cut point is None
   * where the source divides by a chord of length zero. A threshold that is
   * not finite always runs past the last chord.
   */
  function ClosestFrom(chords: seq<real>, threshold: Bound, i: nat): (r: (Option<real>, real))
    requires |chords| == SEGMENTS && 1 <= i <= SEGMENTS + 1
    ensures !threshold.Finite? ==> r == (Some(1.0), Before(chords, SEGMENTS + 1))
    ensures r.0.None? ==> exists j :: i - 1 <= j < SEGMENTS && chords[j] == 0.0
    decreases SEGMENTS + 1 - i
  {
    if i == SEGMENTS + 1 then (Some(1.0), Before(chords, i))
    else
      var segment := chords[i - 1];
      var remainder := if threshold.Finite? then threshold.value - Before(chords, i) else 0.0;
      if threshold.Finite? && segment >= remainder then
        (if segment == 0.0 then None else Some(ChordEnd(i) - (1.0 - remainder / segment) / SEGMENTS as real),
         threshold.value)
      else ClosestFrom(chords, threshold, i + 1)
  }

  function ClosestProgress(c: Cubic, threshold: Bound, len: Length): (r: (Option<real>, real))
  {
    ClosestFrom(Chords(c, len), threshold, 1)
  }

  /** `closest_progress_to`: the chord walk, with `total + remainder = threshold` kept throughout. */
  method ClosestProgressTo(c: Cubic, threshold: Bound, len: Length) returns (t: Option<real>, measure: real)
    ensures (t, measure) == ClosestProgress(c, threshold, len)
  {
    var chords := Chords(c, len);
    var total := 0.0;
    var remainder := threshold;
    var prev := c.anchor0;
    for i := 1 to SEGMENTS + 1
      invariant total == Before(chords, i)
      invariant remainder.Finite? <==> threshold.Finite?
      invariant threshold.Finite? ==> total + remainder.value == threshold.value
      invariant prev == PointOnCurve(c, ChordEnd(i - 1))
      invariant ClosestFrom(chords, threshold, i) == ClosestProgress(c, threshold, len)
    {
      var progress := ChordEnd(i);
      var point := PointOnCurve(c, progress);
      var segment := len(Sub(point, prev));
      assert segment == chords[i - 1];
      if remainder.Finite? && segment >= remainder.value {
        if segment == 0.0 {
          return None, threshold.value;
        }
        return Some(progress - (1.0 - remainder.value / segment) / SEGMENTS as real), threshold.value;
      }
      if remainder.Finite? {
        remainder := Finite(remainder.value - segment);
      }
      total := total + segment;
      prev := point;
    }
    return Some(1.0), total;
  }

  /** `measure_cubic`: the sum of the three chords, never negative. */
  function MeasureCubic(c: Cubic, len: Length): (r: real)
    ensures r == Chord(c, 1, len) + Chord(c, 2, len) + Chord(c, 3, len)
    ensures r >= 0.0
  {
    ClosestProgress(c, Infinite, len).1
  }

  /** `find_cubic_cut_point`: the parameter at which the measure m is reached. */
  function FindCubicCutPoint(c: Cubic, m: real, len: Length): (t: Option<real>)
    ensures t.None? ==> exists i :: 1 <= i <= SEGMENTS && Chord(c, i, len) == 0.0
  {
    ClosestProgress(c, Finite(m), len).0
  }

  /**
   * With every chord non-zero and m >= 0 the cut point exists and lies in
   * [0, 1]; at or beyond the full length it is 1.
   */
  lemma CutPointInUnitInterval(c: Cubic, m: real, len: Length)
    requires m >= 0.0
    requires forall i :: 1 <= i <= SEGMENTS ==> Chord(c, i, len) > 0.0
    ensures FindCubicCutPoint(c, m, len).Some?
    ensures 0.0 <= FindCubicCutPoint(c, m, len).value <= 1.0
    ensures m >= MeasureCubic(c, len) ==> FindCubicCutPoint(c, m, len) == Some(1.0)
  {
    CutPointFrom(Chords(c, len), m, 1);
  }

  lemma {:induction false} CutPointFrom(chords: seq<real>, m: real, i: nat)
    requires |chords| == SEGMENTS && 1 <= i <= SEGMENTS + 1 && m >= 0.0
    requires forall j :: 0 <= j < SEGMENTS ==> chords[j] > 0.0
    requires i == 1 || m > Before(chords, i)
    ensures ClosestFrom(chords, Finite(m), i).0.Some?
    ensures ChordEnd(i - 1) <= ClosestFrom(chords, Finite(m), i).0.value <= 1.0
    ensures m >= Before(chords, SEGMENTS + 1) ==> ClosestFrom(chords, Finite(m), i).0 == Some(1.0)
    decreases SEGMENTS + 1 - i
  {
    if i <= SEGMENTS {
      var segment, before := chords[i - 1], Before(chords, i);
      if segment >= m - before {
        FractionInUnit(m - before, segment);
        PointWithinChord(i, (m - before) / segment);
        if m >= Before(chords, SEGMENTS + 1) {
          assert i == SEGMENTS && m - before == segment by {
            ChordsGrow(chords, i);
          }
        }
      } else {
        CutPointFrom(chords, m, i + 1);
      }
    }
  }

  lemma ChordsGrow(chords: seq<real>, i: nat)
    requires |chords| == SEGMENTS && 1 <= i <= SEGMENTS
    requires forall j :: 0 <= j < SEGMENTS ==> chords[j] > 0.0
    ensures Before(chords, i) + chords[i - 1] <= Before(chords, SEGMENTS + 1)
    ensures i < SEGMENTS ==> Before(chords, i) + chords[i - 1] < Before(chords, SEGMENTS + 1)
  {
    assert Before(chords, 2) == chords[0];
    assert Before(chords, 3) == chords[0] + chords[1];
    assert Before(chords, 4) == chords[0] + chords[1] + chords[2];
  }

  lemma PointWithinChord(i: nat, f: real)
    requires 1 <= i <= SEGMENTS && 0.0 <= f <= 1.0
    ensures ChordEnd(i - 1) <= ChordEnd(i) - (1.0 - f) / SEGMENTS as real <= ChordEnd(i) <= 1.0
    ensures f == 1.0 ==> ChordEnd(i) - (1.0 - f) / SEGMENTS as real == ChordEnd(i)
  {
  }

  lemma FractionInUnit(r: real, s: real)
    requires s > 0.0 && 0.0 <= r <= s
    ensures 0.0 <= r / s <= 1.0
    ensures r == s ==> r / s == 1.0
  {
  }
}
