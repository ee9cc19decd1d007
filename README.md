# Word-swap shape overlays, modelled in Dafny

The features section of the site's `main.js` is pinned while the page
scrolls through it. One number, `progress` (how far the page has scrolled
through the pin, clamped to [0, 1]), drives everything in it:

- Five SVG shapes ("shape overlays") open one after another as waves. Each
  shape has ten points. Each point moves from 100 (closed) to 0 (open).
  Its start is delayed by a random amount that is the same for all shapes.
- Four slides crossfade at eight fixed breakpoints.
- A row of dots marks the current slide.

The model keeps the structure of the script:

- `ShapeConfig` (`config.dfy`): the four constants of the overlays.
- `Easing` (`easing.dfy`): the ease-out curve `1 - (1 - u)^2` and the
  ease-in curve `u^2`, with their range, monotonicity and crossfade facts.
- `Segments` (`segments.dfy`): the `segProgress` array that splits progress
  into five per-shape ramps.
- `Wave` (`wave.dfy`): the value the render loop writes to one point.
- `PathBuilder` (`path.dfy`): the path data of one shape. It is a list of
  SVG commands with exact coordinates, not a string, and comes with a pen
  trace that follows SVG's rules for the commands it uses.
- `Slides` (`slides.dfy`): slide opacities, `is-active` flags and the
  active dot.
- `ShapeOverlays` (`overlays.dfy`): the three module-level arrays as a class
  `ShapeOverlayState`, with `InitShapeOverlays` and `Render` as methods
  that change them in place.
- `WordSwap` (`wordswap.dfy`): `updateWordSwap` and the setup code that
  runs when the script loads. They are methods over the state and a `Page`
  value holding what the browser offers. They return a `View` value: what
  the call writes to the page.

Numbers are exact `real`s. `Math.random()` becomes the input `randoms`,
ten values in [0, 1). The element lookups and the scroll position become
fields of `Page`.

## Model

| member | source | states |
|---|---|---|
| ShapeOverlays.ShapeOverlayState.constructor | main.js:77-79 | the three arrays start empty, so the state is valid and render's guard fails |
| ShapeOverlays.ShapeOverlayState.InitShapeOverlays | main.js:358-373 | unless exactly five paths were found, nothing changes; otherwise paths are the found ones, delay j is `randoms[j] * 0.35` (in [0, 0.35)), and all 5 x 10 points are 100 in fresh arrays |
| ShapeOverlays.ShapeOverlayState.Render | main.js:375-418 | does nothing and returns no paths if any array is empty; otherwise point (i, j) becomes `WavePoint(segProgress[i], delay[j])`, the paths are `PathsAt(progress, delays)`, and the state stays valid (points in [0, 100]); the result does not depend on the points left by earlier frames |
| ShapeOverlays.WaveRows | main.js:389-403 | the points the wave loop leaves: one row per shape, one value per delay, point (i, j) being `WavePoint(segProgress[i], delay[j])` |
| ShapeOverlays.PathsAt | main.js:404-417 | the five path data the render writes: path i is `PathOf` of row i of `WaveRows` |
| ShapeOverlays.AllClosedAtStart | main.js:381-403 | with delays in [0, 0.35), progress 0 puts every point at 100 and draws every shape closed |
| ShapeOverlays.AllOpenAtEnd | main.js:381-403 | with delays in [0, 0.35), progress 1 puts every point at 0 and draws every shape opened |
| ShapeOverlays.PointsFallWithProgress | main.js:381-401 | for any fixed delays, a point's value never rises as progress grows |
| ShapeOverlays.ShapesOpenInTurn | main.js:381-401 | with delays in [0, 0.35), once shape i - 1 has any point below 100, every point of shape i is already 0 |
| ShapeOverlays.DrawScaled | main.js:366 | a `Math.random()` draw times 0.35 lies in [0, 0.35) |
| Segments.SegTilesUnit | main.js:377-387 | the five ramps have width 1/5 and tile [0, 1] end to end, from path 4 at 0 to path 0 ending at 1 |
| Segments.SegProgressIsRamp | main.js:381-387 | for progress >= 0, entry i is the clamped linear ramp over [(4 - i)/5, (5 - i)/5] |
| Segments.SegProgressInUnit | main.js:381-387 | for progress >= 0 every entry lies in [0, 1] |
| Segments.SegProgressEndpoints | main.js:381-387 | all entries are 0 at progress 0 and 1 at progress 1 |
| Segments.SegProgressWindow | main.js:381-387 | entry i is strictly inside (0, 1) exactly when progress is strictly inside path i's window, and then it equals the linear ramp; from progress 0 on it is 0 before the window, and it is 1 after it |
| Segments.SegProgressMonotone | main.js:381-387 | each entry is non-decreasing in progress, negative progress included |
| Segments.BelowZero | main.js:381-387 | below progress 0 only the entry for path 4 moves (linearly, below 0); the others are 0 |
| Segments.SegProgressOrdered | main.js:381-387 | if entry i is below 1, entry i - 1 is 0: path i finishes before path i - 1 starts |
| Segments.AtMostOneRamping | main.js:381-387 | at any progress at most one entry is strictly between 0 and 1 |
| Easing.EaseOut | main.js:378 | reproduces `easeOut(u) = 1 - (1 - u) * (1 - u)`, also written inline at main.js:475, 486, 497 and 508; its properties are the EaseOut lemmas below |
| Easing.EaseIn | main.js:480 | reproduces the inline ease-in `u * u` of main.js:480, 491 and 502; its properties are the EaseIn lemmas below |
| Segments.SegProgress | main.js:381-387 | reproduces the five-entry `segProgress` literal entry by entry and has one entry per path; SegProgressIsRamp ties it to an independent clamped ramp |
| Wave.WavePoint | main.js:392-401 | the value written to a point always lies in [0, 100] |
| Wave.WavePointPhases | main.js:394-401 | the value is 100 exactly when sp <= delay, 0 exactly when sp >= delay + 0.25, and strictly inside (0, 100) in between |
| Wave.WavePointMonotone | main.js:394-401 | for a fixed delay the value never rises as sp grows |
| Wave.WavePointEnds | main.js:392-401 | with a delay in [0, 0.35), sp = 0 gives 100 and sp = 1 gives 0 |
| Wave.WaveComplete | main.js:389-401 | once sp passes every delay plus 0.25, every point is 0 |
| Wave.WaveWithoutStagger | main.js:394-401 | halfway through the window of a zero delay the point is at 25 |
| Easing.EaseOutUnit | main.js:378 | ease-out maps [0, 1] into [0, 1] |
| Easing.EaseOutOpenUnit | main.js:378 | ease-out maps (0, 1) into (0, 1) |
| Easing.EaseOutAvoidsEnds | main.js:378 | ease-out is neither 0 nor 1 strictly inside (0, 1) |
| Easing.EaseInUnit | main.js:478-481 | ease-in maps [0, 1] into [0, 1] |
| Easing.EaseInOpenUnit | main.js:478-481 | ease-in maps (0, 1) into (0, 1) |
| Easing.EaseOutMonotone | main.js:378 | ease-out is non-decreasing on [0, 1] |
| Easing.EaseInMonotone | main.js:478-481 | ease-in is non-decreasing on [0, 1] |
| Easing.EaseOutMirrorsEaseIn | main.js:473-481 | ease-out is ease-in reflected: `EaseOut(u) == 1 - EaseIn(1 - u)` |
| Easing.CrossfadeSumAtLeastOne | main.js:478-487 | the outgoing `1 - EaseIn(u)` plus the incoming `EaseOut(u)` is at least 1, and above 1 strictly inside the window |
| Easing.CrossfadeExcess | main.js:478-487 | the crossfade sum exceeds 1 by exactly `2u(1 - u)` |
| Easing.EaseOutFactored | main.js:378 | `EaseOut(u) == u(2 - u)` |
| Easing.EaseInComplement | main.js:478-481 | `1 - EaseIn(u) == (1 - u)(1 + u)` |
| Easing.EaseOutGap | main.js:378 | the difference of two ease-out values factors as `(u2 - u1)(2 - u1 - u2)` |
| Easing.EaseInGap | main.js:478-481 | the difference of two ease-in values factors as `(u2 - u1)(u2 + u1)` |
| PathBuilder.IsOpened | main.js:407 | reproduces `points.some((p) => p < 100)`: some point is below 100 |
| PathBuilder.PathOf | main.js:407-415 | reproduces the path string as commands: the prefix, the nine segments, and the suffix; its meaning is stated by CurveLayout and PathVisitsSamples |
| PathBuilder.BuildPath | main.js:404-416 | the loop that appends segment after segment builds exactly `PathOf(points)`: the prefix, the nine segments in order, and the suffix |
| PathBuilder.SampleEnds | main.js:411 | sample 0 sits at x = 0 and sample 9 at x = 100 |
| PathBuilder.PrefixLayout | main.js:407-409 | drawn from any pen position, the opened prefix visits (0, 0) and then (0, p0), dropping down the left edge to the first sample; the closed prefix goes straight to (0, p0) |
| PathBuilder.CurveLayout | main.js:410-414 | nine cubic segments; segment j ends at (x of sample j + 1, `points[j + 1]`); both control x's equal that x minus 50/9, the midpoint of the two samples; the control y's are `points[j]` and `points[j + 1]`; the last segment ends at x = 100 |
| PathBuilder.SuffixLayout | main.js:415 | drawn from any pen position (x, y'), the suffix visits (x, 100) and then (0, 100) when opened, or (x, 0) and then (0, 0) when closed: a vertical line to the bottom or top edge, then along it back to x = 0 |
| PathBuilder.Trace | main.js:409-415 | one pen position per command |
| PathBuilder.TraceAt | main.js:409-415 | each pen position follows from the previous one by one command |
| PathBuilder.PathVisitsSamples | main.js:404-416 | the drawn pen passes through every sample (x of k, `points[k]`) in order, then (100, 100) and (0, 100) when opened, or (100, 0) and (0, 0) when closed; the opened path starts at (0, 0) |
| PathBuilder.ClosedIffFlat | main.js:407 | for points in [0, 100], a shape is drawn closed exactly when all its points are 100 |
| Slides.SlideOpacity | main.js:469-511 | reproduces the opacity branches for slides 0, 1, 2 and for every later slide; its properties are the Slides lemmas below |
| Slides.SlideActive | main.js:513 | reproduces the `is-active` test `opacity > 0.5` |
| Slides.ActiveDot | main.js:516-520 | reproduces the activeDot if-chain; the index is below 4 |
| Slides.DotFlags | main.js:521 | one flag per dot |
| Slides.SlideOpacityInUnit | main.js:469-511 | every slide's opacity lies in [0, 1] at any progress |
| Slides.HoldShowsOneSlide | main.js:469-511 | in hold window k (slide 0: below 0.15 and [0.2, 0.35); 1: [0.4, 0.55); 2: [0.6, 0.75); 3: from 0.8 on), slide k has opacity 1 and the other three have opacity 0 |
| Slides.HoldActivatesOneSlide | main.js:512-513 | in hold window k exactly slide k of the four is active |
| Slides.HoldsCover | main.js:459-511 | every progress in [0, 1] outside the four fade windows is in some hold window |
| Slides.Crossfade | main.js:480-510 | in the crossfade from slide k to k + 1, the outgoing slide has `1 - EaseIn(u)`, the incoming one `EaseOut(u)`, the others 0, and the two add up to at least 1 |
| Slides.TwoActiveMidCrossfade | main.js:480-495 | at progress 0.375 slides 0 and 1 both have opacity 0.75, so both are active |
| Slides.EarlyFadeWindow | main.js:472-477 | over [0.15, 0.2) slide 0 is `1 - EaseOut(u)` with `u = (progress - 0.15) / 0.05`, and below 1 past 0.15, while slides 1 to 3 stay at 0: nothing fades in |
| Slides.EarlyFadeSnapsBack | main.js:472-477 | at 0.19 slide 0 is below 0.5 and no slide is active; at 0.2 slide 0 is back at opacity 1 |
| Slides.HoldMatchesDot | main.js:469-520 | in hold window k the active dot is k |
| Slides.ActiveDotMonotone | main.js:516-520 | the active dot is below 4 and never moves back as progress grows |
| Slides.ActiveDotThresholds | main.js:516-520 | the dot is 0 exactly below 0.4, 1 exactly in [0.4, 0.6), 2 exactly in [0.6, 0.8), 3 exactly from 0.8 on |
| Slides.ExactlyOneDot | main.js:516-521 | with at least four dots, exactly one dot is active |
| WordSwap.Progress | main.js:447-450 | progress lies in [0, 1] |
| WordSwap.InSection | main.js:454 | reproduces `scrollWithin >= -100 && scrollWithin <= pinHeight + 100` |
| WordSwap.ViewOf | main.js:445-521 | what one updateWordSwap call writes: nothing exactly when reduced motion is on or the section or pin is missing; otherwise a progress in [0, 1], one opacity and one flag per slide, one flag per dot, no overlay exactly when the page has none, and five paths when the overlay is shown and set up (none when it is not set up) |
| WordSwap.ProgressPieces | main.js:447-450 | progress is 0 above the section, `scrollWithin / pinHeight` inside it, and 1 below it |
| WordSwap.ProgressMonotone | main.js:449-450 | progress never decreases as the page scrolls down |
| WordSwap.AnimatingIsInSection | main.js:450-456 | when progress is strictly inside (0, 1), the scroll position is inside the pin, so the overlay is shown |
| WordSwap.UpdateWordSwap | main.js:445-522 | returns `ViewOf(page, state)`: nothing under reduced motion or without section and pin; otherwise the progress, the overlay (absent, hidden, or shown with the rendered paths), each slide's opacity and flag, and the dot flags; points change only when the overlay is shown, and then to the wave values |
| WordSwap.Setup | main.js:420-425 | starts from empty state; with section and pin, the state is set up exactly when the overlay holds five paths, reduced motion or not, and the first view is `ViewOf` of the page (`Skipped` under reduced motion); without section and pin nothing is set up and the view is `Skipped`; a set-up state's delays are the scaled draws, and its points are all 100 unless the first view showed the overlay, in which case they are the wave values of that view's progress |
| WordSwap.HoldViewAgrees | main.js:469-521 | in hold window k, among the first four slides and dots, the active slide and the active dot are both exactly k |
| WordSwap.OverlayShownIffInSection | main.js:452-457 | with an overlay, it is shown exactly when `-100 <= scrollWithin <= pinHeight + 100`; when it is hidden, progress is 0 or 1 |
| WordSwap.ViewAtTop | main.js:445-521 | at or above the top of the section: progress 0, slide 0 alone at opacity 1, dot 0 active, and any shown shape flat and closed |

## Behaviour worth noting

- The entry wave is `segProgress[4]`, the last line of the array literal
  (main.js:386). Path 4 therefore moves first and path 0 last.
- The closed path starts with `M 0 p0` (main.js:409).
- During a crossfade, the outgoing opacity `1 - u^2` plus the incoming
  opacity `1 - (1 - u)^2` is at least 1. The excess is `2u(1 - u)`, and
  both slides are active in the middle of the window
  (`Easing.CrossfadeSumAtLeastOne`, `Easing.CrossfadeExcess`,
  `Slides.TwoActiveMidCrossfade`).
- For negative progress, `segProgress[4]` is not clamped
  (`Segments.BelowZero`). updateWordSwap never passes a negative progress.
- Every slide from index 3 on takes the last branch (main.js:505-511).
  With more than four slides, several would be active together from
  progress 0.8 on.

## Left out

- Custom cursor, nav animation, smooth scroll, hero typing and in-view
  effects, flair trail, tilt and footer bounce (main.js:1-356): timers,
  GSAP, observers and DOM glue with no logic of their own.
- `initWordSwapLetters` (main.js:428-443): it only creates DOM elements.
- Listener registration (main.js:420-421): the model makes one call per
  event.
- DOM writes: `setAttribute("d", …)`, `style.opacity`, `style.display` and
  `classList.toggle` are returned as values (the paths, `View`) instead of
  being written.
- Number-to-string formatting of the path data: the path is a list of
  commands with exact reals.
- IEEE-754 rounding: all arithmetic is exact. Comparisons such as
  `progress <= seg * 4` may come out differently in floating point.
- `Math.random()` is an input sequence of ten draws in [0, 1).
- WordSwap.UpdateWordSwap: requires `pinHeight > 0` when it runs. With a
  zero-height pin, the code divides by zero and gets Infinity or NaN, and
  the model does not cover that case.
- ShapeOverlays.ShapeOverlayState.Render: the five point arrays of the
  source are rows of one two-dimensional array. An outside reference to a
  single row, which could alias a row, is not modelled.
- The overlay element found at initialisation and the one found on each
  update are taken to be the same element (`Page.hasOverlay`).
