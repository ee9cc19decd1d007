/**
 * The segment scheduler of renderShapeOverlays: one global scroll progress
 * is split into five per-path ramps. Path i ramps linearly over the window
 * [(4 - i) / 5, (5 - i) / 5], so path 4 (the entry wave) moves first and
 * path 0 last.
 */
module Segments {
  import opened ShapeConfig

  /** Width of one segment of the progress range, `1 / NumPaths`. */
  const Seg: real := 0.2

  /** The five segments tile the progress range [0, 1] exactly. */
  lemma SegTilesUnit()
    ensures Seg * (NumPaths as real) == 1.0
    ensures RampStart(0) + Seg == 1.0 && RampStart(NumPaths - 1) == 0.0
    ensures forall i: nat :: 1 <= i < NumPaths ==> RampStart(i) + Seg == RampStart(i - 1)
  {
  }

  function Min(a: real, b: real): real
  {
    if a <= b then a else b
  }

  /** The `segProgress` array: entry i drives path i. */
  function SegProgress(progress: real): (s: seq<real>)
    ensures |s| == NumPaths
  {
    [ if progress <= Seg * 4.0 then 0.0 else Min(1.0, (progress - Seg * 4.0) / Seg),
      if progress <= Seg * 3.0 then 0.0 else if progress >= Seg * 4.0 then 1.0 else Min(1.0, (progress - Seg * 3.0) / Seg),
      if progress <= Seg * 2.0 then 0.0 else if progress >= Seg * 3.0 then 1.0 else Min(1.0, (progress - Seg * 2.0) / Seg),
      if progress <= Seg then 0.0 else if progress >= Seg * 2.0 then 1.0 else Min(1.0, (progress - Seg) / Seg),
      if progress <= Seg then Min(1.0, progress / Seg) else 1.0 ]
  }

  /** Where path i's ramp starts: (4 - i) / 5. */
  function RampStart(i: nat): real
    requires i < NumPaths
  {
    ((NumPaths - 1 - i) as real) * Seg
  }

  function Clamp01(x: real): real
  {
    if x <= 0.0 then 0.0 else if x >= 1.0 then 1.0 else x
  }

  /**
   * Reference definition: for every non-negative progress, entry i is the
   * clamped linear ramp over [RampStart(i), RampStart(i) + Seg].
   */
  lemma SegProgressIsRamp(progress: real, i: nat)
    requires 0.0 <= progress && i < NumPaths
    ensures SegProgress(progress)[i] == Clamp01((progress - RampStart(i)) / Seg)
  {
  }

  /**
   * For every progress from 0 on (the caller clamps it to [0, 1]) every
   * entry lies in [0, 1].
   */
  lemma SegProgressInUnit(progress: real, i: nat)
    requires 0.0 <= progress && i < NumPaths
    ensures 0.0 <= SegProgress(progress)[i] <= 1.0
  {
    SegProgressIsRamp(progress, i);
  }

  /** Every path is at rest at progress 0 and complete at progress 1. */
  lemma SegProgressEndpoints()
    ensures SegProgress(0.0) == [0.0, 0.0, 0.0, 0.0, 0.0]
    ensures SegProgress(1.0) == [1.0, 1.0, 1.0, 1.0, 1.0]
  {
  }

  /**
   * Entry i is strictly between 0 and 1 exactly inside its own window, where
   * it is the linear ramp; outside the window it is held at 0 or 1 (or, below
   * progress 0, not clamped at all for the entry path 4).
   */
  lemma SegProgressWindow(progress: real, i: nat)
    requires i < NumPaths
    ensures 0.0 < SegProgress(progress)[i] < 1.0 <==>
              RampStart(i) < progress < RampStart(i) + Seg
    ensures RampStart(i) < progress < RampStart(i) + Seg ==>
              SegProgress(progress)[i] == (progress - RampStart(i)) / Seg
    ensures 0.0 <= progress <= RampStart(i) ==> SegProgress(progress)[i] == 0.0
    ensures progress >= RampStart(i) + Seg ==> SegProgress(progress)[i] == 1.0
  {
  }

  /** Each entry is non-decreasing in progress, on the whole real line. */
  lemma SegProgressMonotone(p1: real, p2: real, i: nat)
    requires p1 <= p2 && i < NumPaths
    ensures SegProgress(p1)[i] <= SegProgress(p2)[i]
  {
    if 0.0 <= p1 {
      SegProgressIsRamp(p1, i);
      SegProgressIsRamp(p2, i);
      ClampMonotone((p1 - RampStart(i)) / Seg, (p2 - RampStart(i)) / Seg);
    } else {
      BelowZero(p1, i);
      if 0.0 <= p2 {
        SegProgressIsRamp(p2, i);
      } else {
        BelowZero(p2, i);
      }
    }
  }

  /** Below progress 0 only the entry path is not at rest, and it is not clamped. */
  lemma BelowZero(progress: real, i: nat)
    requires progress < 0.0 && i < NumPaths
    ensures SegProgress(progress)[i] == if i == NumPaths - 1 then progress / Seg else 0.0
  {
  }

  lemma ClampMonotone(x: real, y: real)
    requires x <= y
    ensures Clamp01(x) <= Clamp01(y)
  {
  }

  /**
   * The windows are disjoint and ordered: while path i has not finished,
   * path i - 1 has not started.
   */
  lemma SegProgressOrdered(progress: real, i: nat)
    requires 1 <= i < NumPaths
    ensures SegProgress(progress)[i] < 1.0 ==> SegProgress(progress)[i - 1] == 0.0
  {
  }

  /** At most one path is moving at any progress. */
  lemma AtMostOneRamping(progress: real, i: nat, k: nat)
    requires i < NumPaths && k < NumPaths
    requires 0.0 < SegProgress(progress)[i] < 1.0 && 0.0 < SegProgress(progress)[k] < 1.0
    ensures i == k
  {
    SegProgressWindow(progress, i);
    SegProgressWindow(progress, k);
  }
}
