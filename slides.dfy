/**
 * The slide crossfade and the dot selector of updateWordSwap: eight
 * breakpoints of the global progress give each slide an opacity, each slide
 * an `is-active` flag and the dot row one active index.
 */
module Slides {
  import opened Easing

  const T1: real := 0.15
  const T2: real := 0.2
  const T3: real := 0.35
  const T4: real := 0.4
  const T5: real := 0.55
  const T6: real := 0.6
  const T7: real := 0.75
  const T8: real := 0.8

  /** The number of slides and of dots on the page the breakpoints were laid out for. */
  const NumSlides: nat := 4

  /** Position within the fade window [a, b). */
  function Phase(progress: real, a: real, b: real): real
    requires a < b
  {
    (progress - a) / (b - a)
  }

  /**
   * The opacity of slide i. Index 0, 1 and 2 have their own rules; every
   * later index, not only 3, follows the last rule.
   */
  function SlideOpacity(i: nat, progress: real): real
  {
    if i == 0 then
      if progress < T1 then 1.0
      else if progress < T2 then 1.0 - EaseOut(Phase(progress, T1, T2))
      else if progress >= T2 && progress < T3 then 1.0
      else if progress < T4 then 1.0 - EaseIn(Phase(progress, T3, T4))
      else 0.0
    else if i == 1 then
      if progress >= T3 && progress < T4 then EaseOut(Phase(progress, T3, T4))
      else if progress >= T4 && progress < T5 then 1.0
      else if progress >= T5 && progress < T6 then 1.0 - EaseIn(Phase(progress, T5, T6))
      else 0.0
    else if i == 2 then
      if progress >= T5 && progress < T6 then EaseOut(Phase(progress, T5, T6))
      else if progress >= T6 && progress < T7 then 1.0
      else if progress >= T7 && progress < T8 then 1.0 - EaseIn(Phase(progress, T7, T8))
      else 0.0
    else
      if progress >= T7 && progress < T8 then EaseOut(Phase(progress, T7, T8))
      else if progress >= T8 then 1.0
      else 0.0
  }

  /** The `is-active` class of a slide. */
  predicate SlideActive(i: nat, progress: real)
  {
    SlideOpacity(i, progress) > 0.5
  }

  /** The index of the active dot. */
  function ActiveDot(progress: real): (k: nat)
    ensures k < NumSlides
  {
    if progress < T4 then 0
    else if progress < T6 then 1
    else if progress < T8 then 2
    else 3
  }

  /** The `is-active` flags of a row of `count` dots. */
  function DotFlags(count: nat, progress: real): (flags: seq<bool>)
    ensures |flags| == count
  {
    seq(count, i requires 0 <= i < count => i == ActiveDot(progress))
  }

  /**
   * Hold window k: slide k alone is shown, before and after its crossfades.
   * Slide 0 has two, before and after its early fade-out.
   */
  predicate InHold(k: nat, progress: real)
  {
    match k
    case 0 => progress < T1 || (T2 <= progress < T3)
    case 1 => T4 <= progress < T5
    case 2 => T6 <= progress < T7
    case 3 => T8 <= progress
    case _ => false
  }

  /** Every slide's opacity lies in [0, 1], whatever the progress. */
  lemma SlideOpacityInUnit(i: nat, progress: real)
    ensures 0.0 <= SlideOpacity(i, progress) <= 1.0
  {
    if progress < T1 || progress >= T8 {
    } else if progress < T2 {
      EaseOutUnit(Phase(progress, T1, T2));
    } else if T3 <= progress < T4 {
      EaseInUnit(Phase(progress, T3, T4));
      EaseOutUnit(Phase(progress, T3, T4));
    } else if T5 <= progress < T6 {
      EaseInUnit(Phase(progress, T5, T6));
      EaseOutUnit(Phase(progress, T5, T6));
    } else if T7 <= progress < T8 {
      EaseInUnit(Phase(progress, T7, T8));
      EaseOutUnit(Phase(progress, T7, T8));
    }
  }

  /** In hold window k, slide k is fully shown and every other slide is hidden. */
  lemma HoldShowsOneSlide(k: nat, progress: real, i: nat)
    requires InHold(k, progress) && i < NumSlides
    ensures SlideOpacity(i, progress) == if i == k then 1.0 else 0.0
  {
  }

  /** So in hold window k, slide k is the one active slide. */
  lemma HoldActivatesOneSlide(k: nat, progress: real, i: nat)
    requires InHold(k, progress) && i < NumSlides
    ensures SlideActive(i, progress) <==> i == k
  {
    HoldShowsOneSlide(k, progress, i);
  }

  /** Every progress in [0, 1] outside the crossfade windows lies in some hold window. */
  lemma HoldsCover(progress: real)
    requires 0.0 <= progress <= 1.0
    requires !(T1 <= progress < T2) && !(T3 <= progress < T4)
    requires !(T5 <= progress < T6) && !(T7 <= progress < T8)
    ensures exists k: nat :: k < NumSlides && InHold(k, progress)
  {
    if progress < T2 {
      assert InHold(0, progress);
    } else if progress < T4 {
      assert InHold(0, progress);
    } else if progress < T6 {
      assert InHold(1, progress);
    } else if progress < T8 {
      assert InHold(2, progress);
    } else {
      assert InHold(3, progress);
    }
  }

  /**
   * In the crossfade from slide k to slide k + 1 the outgoing slide follows
   * `1 - u^2`, the incoming one `1 - (1 - u)^2`, the others are hidden, and
   * the two opacities add up to at least 1.
   */
  lemma Crossfade(k: nat, progress: real, i: nat)
    requires k < NumSlides - 1 && i < NumSlides
    requires T3 + 0.2 * (k as real) <= progress < T4 + 0.2 * (k as real)
    ensures var u := Phase(progress, T3 + 0.2 * (k as real), T4 + 0.2 * (k as real));
      && SlideOpacity(k, progress) == 1.0 - EaseIn(u)
      && SlideOpacity(k + 1, progress) == EaseOut(u)
      && (i != k && i != k + 1 ==> SlideOpacity(i, progress) == 0.0)
      && SlideOpacity(k, progress) + SlideOpacity(k + 1, progress) >= 1.0
  {
    var u := Phase(progress, T3 + 0.2 * (k as real), T4 + 0.2 * (k as real));
    CrossfadeSumAtLeastOne(u);
  }

  /** Halfway through a crossfade both slides are at 0.75, so both are active. */
  lemma TwoActiveMidCrossfade()
    ensures SlideOpacity(0, 0.375) == 0.75 && SlideOpacity(1, 0.375) == 0.75
    ensures SlideActive(0, 0.375) && SlideActive(1, 0.375)
  {
  }

  /**
   * Over [T1, T2) slide 0 follows `1 - EaseOut(u)` and is below full
   * opacity once past T1, while slides 1 to 3 stay hidden: nothing fades in.
   */
  lemma EarlyFadeWindow(progress: real, i: nat)
    requires T1 <= progress < T2 && 1 <= i < NumSlides
    ensures SlideOpacity(0, progress) == 1.0 - EaseOut(Phase(progress, T1, T2))
    ensures SlideOpacity(i, progress) == 0.0
    ensures progress > T1 ==> SlideOpacity(0, progress) < 1.0
  {
    if progress > T1 {
      EaseOutOpenUnit(Phase(progress, T1, T2));
    }
  }

  /**
   * Slide 0 eases out over [T1, T2) with nothing fading in, then jumps back
   * to full opacity at T2: late in that window no slide is active.
   */
  lemma EarlyFadeSnapsBack()
    ensures SlideOpacity(0, 0.19) < 0.5
    ensures forall i: nat :: i < NumSlides ==> !SlideActive(i, 0.19)
    ensures SlideOpacity(0, T2) == 1.0
  {
    assert SlideOpacity(0, 0.19) == 0.04;
  }

  /** The active dot is the one whose slide is held. */
  lemma HoldMatchesDot(k: nat, progress: real)
    requires InHold(k, progress)
    ensures ActiveDot(progress) == k
  {
  }

  /** The active dot index is below 4 and moves forward with progress. */
  lemma ActiveDotMonotone(p1: real, p2: real)
    requires p1 <= p2
    ensures ActiveDot(p1) <= ActiveDot(p2) < NumSlides
  {
  }

  /** The active dot changes exactly at T4, T6 and T8. */
  lemma ActiveDotThresholds(progress: real)
    ensures ActiveDot(progress) == 0 <==> progress < T4
    ensures ActiveDot(progress) == 1 <==> T4 <= progress < T6
    ensures ActiveDot(progress) == 2 <==> T6 <= progress < T8
    ensures ActiveDot(progress) == 3 <==> T8 <= progress
  {
  }

  /** With the four dots on the page, exactly one dot is active at every progress. */
  lemma ExactlyOneDot(count: nat, progress: real)
    requires count >= NumSlides
    ensures exists i :: 0 <= i < count && DotFlags(count, progress)[i]
    ensures forall i, j :: 0 <= i < count && 0 <= j < count && DotFlags(count, progress)[i] && DotFlags(count, progress)[j] ==> i == j
  {
    assert DotFlags(count, progress)[ActiveDot(progress)];
  }
}
