/**
 * updateWordSwap and the page setup around it: the scroll position inside
 * the pinned section becomes one progress value, which decides whether the
 * overlay is drawn, the five shapes, the slide opacities and the active dot.
 */
module WordSwap {
  import opened ShapeConfig
  import opened Segments
  import opened PathBuilder
  import opened Slides
  import opened ShapeOverlays

  function Max(a: real, b: real): real
  {
    if a >= b then a else b
  }

  /** How far through the pinned section the page has scrolled, clamped to [0, 1]. */
  function Progress(scrollWithin: real, pinHeight: real): (p: real)
    requires pinHeight > 0.0
    ensures 0.0 <= p <= 1.0
  {
    Max(0.0, Min(1.0, scrollWithin / pinHeight))
  }

  /** The overlay is shown from 100 pixels before the section to 100 pixels after it. */
  predicate InSection(scrollWithin: real, pinHeight: real)
  {
    scrollWithin >= -100.0 && scrollWithin <= pinHeight + 100.0
  }

  /**
   * Progress is 0 up to the top of the section, the scrolled fraction inside
   * it, and 1 from its bottom on.
   */
  lemma ProgressPieces(scrollWithin: real, pinHeight: real)
    requires pinHeight > 0.0
    ensures scrollWithin <= 0.0 ==> Progress(scrollWithin, pinHeight) == 0.0
    ensures 0.0 <= scrollWithin <= pinHeight ==> Progress(scrollWithin, pinHeight) == scrollWithin / pinHeight
    ensures scrollWithin >= pinHeight ==> Progress(scrollWithin, pinHeight) == 1.0
  {
  }

  /** Scrolling down never moves progress back. */
  lemma ProgressMonotone(s1: real, s2: real, pinHeight: real)
    requires s1 <= s2 && pinHeight > 0.0
    ensures Progress(s1, pinHeight) <= Progress(s2, pinHeight)
  {
  }

  /** While the shapes are moving (progress strictly inside (0, 1)) the overlay is shown. */
  lemma AnimatingIsInSection(scrollWithin: real, pinHeight: real)
    requires pinHeight > 0.0
    requires 0.0 < Progress(scrollWithin, pinHeight) < 1.0
    ensures 0.0 < scrollWithin < pinHeight
    ensures InSection(scrollWithin, pinHeight)
  {
    ProgressPieces(scrollWithin, pinHeight);
  }

  /** What the page offers updateWordSwap. */
  datatype Page = Page(
    reducedMotion: bool,
    hasSection: bool,
    hasPin: bool,
    scrollY: real,
    sectionTop: real,
    pinHeight: real,
    hasOverlay: bool,
    slideCount: nat,
    dotCount: nat)

  /** What happens to the overlay element. */
  datatype Overlay =
    | NoOverlay
    | Hidden
    | Shown(paths: seq<seq<Cmd>>)

  /** Everything one call of updateWordSwap writes to the page. */
  datatype View =
    | Skipped
    | Drawn(progress: real, overlay: Overlay, opacities: seq<real>, slideActive: seq<bool>, dotActive: seq<bool>)

  /** updateWordSwap does anything at all. */
  predicate Runs(page: Page)
  {
    !page.reducedMotion && page.hasSection && page.hasPin
  }

  function ScrollWithin(page: Page): real
  {
    page.scrollY - page.sectionTop
  }

  /**
   * The view of the page: `ready` and `delays` are the shape-overlay state
   * (whether it was set up, and its delays).
   */
  function ViewOf(page: Page, ready: bool, delays: seq<real>): (v: View)
    requires Runs(page) ==> page.pinHeight > 0.0
    requires ready ==> |delays| == NumPoints
    ensures v.Drawn? <==> Runs(page)
    ensures v.Drawn? ==>
      && 0.0 <= v.progress <= 1.0
      && |v.opacities| == |v.slideActive| == page.slideCount
      && |v.dotActive| == page.dotCount
      && (v.overlay.NoOverlay? <==> !page.hasOverlay)
      && (v.overlay.Shown? && ready ==> |v.overlay.paths| == NumPaths)
      && (v.overlay.Shown? && !ready ==> v.overlay.paths == [])
  {
    if !Runs(page) then Skipped
    else
      var sw := ScrollWithin(page);
      var p := Progress(sw, page.pinHeight);
      var overlay :=
        if !page.hasOverlay then NoOverlay
        else if !InSection(sw, page.pinHeight) then Hidden
        else Shown(if ready then PathsAt(p, delays) else []);
      Drawn(p, overlay,
        seq(page.slideCount, i requires 0 <= i < page.slideCount => SlideOpacity(i, p)),
        seq(page.slideCount, i requires 0 <= i < page.slideCount => SlideActive(i, p)),
        DotFlags(page.dotCount, p))
  }

  /**
   * One call of updateWordSwap: renders the shapes when the overlay is in
   * its section, then computes each slide's opacity and active flag and
   * each dot's active flag.
   */
  method UpdateWordSwap(s: ShapeOverlayState, page: Page) returns (v: View)
    requires s.Valid()
    requires Runs(page) ==> page.pinHeight > 0.0
    modifies s.allPoints
    ensures s.Valid()
    ensures v == ViewOf(page, s.Ready(), if s.Ready() then s.delays[..] else [])
    ensures !(v.Drawn? && v.overlay.Shown?) ==> unchanged(s.allPoints)
    ensures v.Drawn? && v.overlay.Shown? && s.Ready() ==>
      forall i, j :: 0 <= i < NumPaths && 0 <= j < NumPoints ==>
        s.allPoints[i, j] == WaveRows(v.progress, s.delays[..])[i][j]
  {
    if page.reducedMotion || !page.hasSection || !page.hasPin {
      return Skipped;
    }
    var pinHeight := page.pinHeight;
    var scrollWithin := page.scrollY - page.sectionTop;
    var progress := Max(0.0, Min(1.0, scrollWithin / pinHeight));

    var overlay := NoOverlay;
    if page.hasOverlay {
      var inSection := scrollWithin >= -100.0 && scrollWithin <= pinHeight + 100.0;
      if inSection {
        var ds := s.Render(progress);
        overlay := Shown(ds);
      } else {
        overlay := Hidden;
      }
    }

    var opacities: seq<real> := [];
    var active: seq<bool> := [];
    for i := 0 to page.slideCount
      invariant |opacities| == i && |active| == i
      invariant forall k :: 0 <= k < i ==> opacities[k] == SlideOpacity(k, progress)
      invariant forall k :: 0 <= k < i ==> active[k] == (opacities[k] > 0.5)
    {
      var opacity := SlideOpacity(i, progress);
      opacities := opacities + [opacity];
      active := active + [opacity > 0.5];
    }

    var activeDot := 0;
    if progress < T4 {
      activeDot := 0;
    } else if progress < T6 {
      activeDot := 1;
    } else if progress < T8 {
      activeDot := 2;
    } else {
      activeDot := 3;
    }
    var dots: seq<bool> := [];
    for i := 0 to page.dotCount
      invariant |dots| == i
      invariant forall k :: 0 <= k < i ==> dots[k] == (k == activeDot)
    {
      dots := dots + [i == activeDot];
    }
    v := Drawn(progress, overlay, opacities, active, dots);
    assert activeDot == ActiveDot(progress);
    assert dots == DotFlags(page.dotCount, progress);
    assert opacities == seq(page.slideCount, i requires 0 <= i < page.slideCount => SlideOpacity(i, progress));
    assert active == seq(page.slideCount, i requires 0 <= i < page.slideCount => SlideActive(i, progress));
  }

  /**
   * The script's entry: starts from empty state, and when the section and
   * its pin exist sets up the overlays from the paths found in it and draws
   * the first view.
   */
  method Setup(page: Page, found: seq<ElementId>, randoms: seq<real>) returns (s: ShapeOverlayState, v: View)
    requires |randoms| == NumPoints && UnitDraws(randoms)
    requires Runs(page) ==> page.pinHeight > 0.0
    ensures fresh(s) && s.Valid()
    ensures s.Ready() <==> page.hasSection && page.hasPin && page.hasOverlay && |found| == NumPaths
    ensures s.Ready() ==> s.paths == found && s.delays[..] == seq(NumPoints, j requires 0 <= j < NumPoints => randoms[j] * MaxDelay)
    ensures !(page.hasSection && page.hasPin) ==> v == Skipped
    ensures page.hasSection && page.hasPin ==> v == ViewOf(page, s.Ready(), if s.Ready() then s.delays[..] else [])
    ensures s.Ready() && !(v.Drawn? && v.overlay.Shown?) ==>
      forall i, j :: 0 <= i < NumPaths && 0 <= j < NumPoints ==> s.allPoints[i, j] == 100.0
    ensures s.Ready() && v.Drawn? && v.overlay.Shown? ==>
      forall i, j :: 0 <= i < NumPaths && 0 <= j < NumPoints ==> s.allPoints[i, j] == WaveRows(v.progress, s.delays[..])[i][j]
  {
    s := new ShapeOverlayState();
    v := Skipped;
    if page.hasSection && page.hasPin {
      var paths := if page.hasOverlay then found else [];
      s.InitShapeOverlays(paths, randoms);
      v := UpdateWordSwap(s, page);
    }
  }

  /** In a hold window the first four slides' active flags agree with the dots. */
  lemma HoldViewAgrees(page: Page, ready: bool, delays: seq<real>, k: nat)
    requires Runs(page) && page.pinHeight > 0.0
    requires ready ==> |delays| == NumPoints
    requires InHold(k, Progress(ScrollWithin(page), page.pinHeight))
    ensures var v := ViewOf(page, ready, delays);
      forall i :: 0 <= i < NumSlides && i < page.slideCount && i < page.dotCount ==>
        (v.slideActive[i] <==> i == k) && (v.dotActive[i] <==> i == k)
  {
    var p := Progress(ScrollWithin(page), page.pinHeight);
    HoldMatchesDot(k, p);
    forall i | 0 <= i < NumSlides
      ensures SlideActive(i, p) <==> i == k
    {
      HoldActivatesOneSlide(k, p, i);
    }
  }

  /** The overlay is shown exactly while the scroll position is within 100 pixels of the section. */
  lemma OverlayShownIffInSection(page: Page, ready: bool, delays: seq<real>)
    requires Runs(page) && page.pinHeight > 0.0 && page.hasOverlay
    requires ready ==> |delays| == NumPoints
    ensures ViewOf(page, ready, delays).overlay.Shown? <==> InSection(ScrollWithin(page), page.pinHeight)
    ensures ViewOf(page, ready, delays).overlay.Hidden? ==> ViewOf(page, ready, delays).progress in {0.0, 1.0}
  {
    var sw := ScrollWithin(page);
    if !InSection(sw, page.pinHeight) {
      ProgressPieces(sw, page.pinHeight);
    }
  }

  /**
   * Scrolled to the top of the section or above it: progress 0, slide 0
   * alone shown, dot 0 active, and when the overlay is shown every shape
   * is flat and closed.
   */
  lemma ViewAtTop(page: Page, ready: bool, delays: seq<real>)
    requires Runs(page) && page.pinHeight > 0.0
    requires ready ==> |delays| == NumPoints && DelaysInRange(delays)
    requires page.scrollY <= page.sectionTop
    ensures var v := ViewOf(page, ready, delays);
      && v.progress == 0.0
      && (forall i :: 0 <= i < page.slideCount && i < NumSlides ==> v.opacities[i] == if i == 0 then 1.0 else 0.0)
      && (forall i :: 0 <= i < page.dotCount ==> v.dotActive[i] == (i == 0))
      && (v.overlay.Shown? && ready ==>
            forall i :: 0 <= i < NumPaths ==> v.overlay.paths[i] == PathOf(WaveRows(0.0, delays)[i]) && !IsOpened(WaveRows(0.0, delays)[i]))
  {
    ProgressPieces(ScrollWithin(page), page.pinHeight);
    var v := ViewOf(page, ready, delays);
    assert v.progress == 0.0;
    forall i | 0 <= i < NumSlides
      ensures SlideOpacity(i, 0.0) == if i == 0 then 1.0 else 0.0
    {
      HoldShowsOneSlide(0, 0.0, i);
    }
    if ready {
      AllClosedAtStart(delays);
      if v.overlay.Shown? {
        assert v.overlay.paths == PathsAt(0.0, delays);
      }
    }
    assert forall i :: 0 <= i < page.slideCount && i < NumSlides ==> v.opacities[i] == if i == 0 then 1.0 else 0.0;
    assert v.dotActive == DotFlags(page.dotCount, 0.0);
    assert ActiveDot(0.0) == 0;
    forall i | 0 <= i < page.dotCount
      ensures v.dotActive[i] == (i == 0)
    {
      assert DotFlags(page.dotCount, 0.0)[i] == (i == ActiveDot(0.0));
    }
  }
}
