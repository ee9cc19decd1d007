/**
 * The wave-point rule of renderShapeOverlays: given its shape's segment
 * progress `sp` and its own delay, a point moves from 100 (closed) to 0
 * (open) over a window of PointDuration, eased out.
 */
module Wave {
  import opened ShapeConfig
  import opened Easing

  /** The value written to a point with the given delay at segment progress `sp`. */
  function WavePoint(sp: real, delay: real): (v: real)
    ensures 0.0 <= v <= 100.0
  {
    if sp <= delay then 100.0
    else if sp >= delay + PointDuration then 0.0
    else
      var u := (sp - delay) / PointDuration;
      EaseOutUnit(u);
      100.0 * (1.0 - EaseOut(u))
  }

  /**
   * A point is fully closed exactly up to its delay, fully open exactly from
   * its delay plus PointDuration, and strictly in between otherwise.
   */
  lemma WavePointPhases(sp: real, delay: real)
    ensures WavePoint(sp, delay) == 100.0 <==> sp <= delay
    ensures WavePoint(sp, delay) == 0.0 <==> sp >= delay + PointDuration
    ensures delay < sp < delay + PointDuration ==> 0.0 < WavePoint(sp, delay) < 100.0
  {
    if delay < sp < delay + PointDuration {
      EaseOutOpenUnit((sp - delay) / PointDuration);
    }
  }

  /** For a fixed delay a point never moves back up as `sp` grows. */
  lemma WavePointMonotone(sp1: real, sp2: real, delay: real)
    requires sp1 <= sp2
    ensures WavePoint(sp2, delay) <= WavePoint(sp1, delay)
  {
    if delay < sp1 && sp2 < delay + PointDuration {
      EaseOutMonotone((sp1 - delay) / PointDuration, (sp2 - delay) / PointDuration);
    }
  }

  /**
   * With a delay drawn from [0, MaxDelay), a shape at rest (sp = 0) is fully
   * closed and a shape whose segment is complete (sp = 1) is fully open.
   */
  lemma WavePointEnds(delay: real)
    requires 0.0 <= delay < MaxDelay
    ensures WavePoint(0.0, delay) == 100.0
    ensures WavePoint(1.0, delay) == 0.0
  {
  }

  /** Once `sp` has passed every delay plus PointDuration, all points are open. */
  lemma WaveComplete(sp: real, delays: seq<real>)
    requires forall j :: 0 <= j < |delays| ==> sp >= delays[j] + PointDuration
    ensures forall j :: 0 <= j < |delays| ==> WavePoint(sp, delays[j]) == 0.0
  {
  }

  /** With no stagger, halfway through its move (sp = 0.125) a point has eased down to 25. */
  lemma WaveWithoutStagger()
    ensures WavePoint(0.125, 0.0) == 25.0
  {
  }
}
