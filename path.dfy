/**
 * The path builder of renderShapeOverlays: the ten point values of a shape
 * become SVG path data. The path is kept as a list of commands with real
 * coordinates; the source's single `C` letter followed by nine coordinate
 * groups is, in SVG, nine cubic commands, and is listed that way here.
 */
module PathBuilder {
  import opened ShapeConfig

  /** One SVG path command in absolute coordinates. */
  datatype Cmd =
    | MoveTo(x: real, y: real)
    | VertTo(y: real)
    | HorizTo(x: real)
    | CubicTo(c1x: real, c1y: real, c2x: real, c2y: real, x: real, y: real)

  /** The shape has started to open: some point has left 100. */
  predicate IsOpened(points: seq<real>)
  {
    exists k :: 0 <= k < |points| && points[k] < 100.0
  }

  /** The x position of sample k, spread evenly over [0, 100]. */
  function SampleX(k: nat): real
  {
    (k as real) / ((NumPoints - 1) as real) * 100.0
  }

  /** The commands before the curve: drop from the top-left corner when opened. */
  function Prefix(points: seq<real>): seq<Cmd>
    requires |points| == NumPoints
  {
    if IsOpened(points) then [MoveTo(0.0, 0.0), VertTo(points[0])] else [MoveTo(0.0, points[0])]
  }

  /** Cubic segment j, from sample j to sample j + 1. */
  function Segment(points: seq<real>, j: nat): Cmd
    requires j < NumPoints - 1 && |points| == NumPoints
  {
    var p := ((j + 1) as real) / ((NumPoints - 1) as real) * 100.0;
    var cp := p - 1.0 / ((NumPoints - 1) as real) * 100.0 / 2.0;
    CubicTo(cp, points[j], cp, points[j + 1], p, points[j + 1])
  }

  /** The commands after the curve: close along the bottom when opened, along the top otherwise. */
  function Suffix(points: seq<real>): seq<Cmd>
    requires |points| == NumPoints
  {
    if IsOpened(points) then [VertTo(100.0), HorizTo(0.0)] else [VertTo(0.0), HorizTo(0.0)]
  }

  /** The nine cubic segments of the curve. */
  function Curve(points: seq<real>): seq<Cmd>
    requires |points| == NumPoints
  {
    seq(NumPoints - 1, j requires 0 <= j < NumPoints - 1 => Segment(points, j))
  }

  /** The path data of a shape. */
  function PathOf(points: seq<real>): seq<Cmd>
    requires |points| == NumPoints
  {
    Prefix(points) + Curve(points) + Suffix(points)
  }

  /** Builds the path data by appending one segment per step, as the source does. */
  method BuildPath(points: seq<real>) returns (d: seq<Cmd>)
    requires |points| == NumPoints
    ensures d == PathOf(points)
  {
    var isOpened := exists k :: 0 <= k < |points| && points[k] < 100.0;
    d := if isOpened then [MoveTo(0.0, 0.0), VertTo(points[0])] else [MoveTo(0.0, points[0])];
    for j := 0 to NumPoints - 1
      invariant d == Prefix(points) + Curve(points)[..j]
    {
      var p := ((j + 1) as real) / ((NumPoints - 1) as real) * 100.0;
      var cp := p - 1.0 / ((NumPoints - 1) as real) * 100.0 / 2.0;
      d := d + [CubicTo(cp, points[j], cp, points[j + 1], p, points[j + 1])];
    }
    d := d + if isOpened then [VertTo(100.0), HorizTo(0.0)] else [VertTo(0.0), HorizTo(0.0)];
  }

  /** Sample positions: the first at x = 0, the last at x = 100. */
  lemma SampleEnds()
    ensures SampleX(0) == 0.0 && SampleX(NumPoints - 1) == 100.0
  {
  }

  /**
   * Drawn from any pen position, the opened prefix moves to the top-left
   * corner and drops to the first sample; the closed prefix moves straight
   * to the first sample.
   */
  lemma PrefixLayout(points: seq<real>, start: Pen)
    requires |points| == NumPoints
    ensures IsOpened(points) ==> Trace(start, Prefix(points)) == [Pen(0.0, 0.0), Pen(0.0, points[0])]
    ensures !IsOpened(points) ==> Trace(start, Prefix(points)) == [Pen(0.0, points[0])]
  {
  }

  /**
   * Segment j ends at sample j + 1; both its control points sit at
   * x = end x - 50/9, the midpoint between samples j and j + 1, with the y
   * values of those two samples. The last segment ends at x = 100.
   */
  lemma CurveLayout(points: seq<real>)
    requires |points| == NumPoints
    ensures |Curve(points)| == NumPoints - 1
    ensures forall j :: 0 <= j < NumPoints - 1 ==>
      var c := Curve(points)[j];
      && c.CubicTo?
      && c.x == SampleX(j + 1) && c.y == points[j + 1]
      && c.c1x == c.c2x == SampleX(j + 1) - 50.0 / 9.0
      && c.c1x == (SampleX(j) + SampleX(j + 1)) / 2.0
      && c.c1y == points[j] && c.c2y == points[j + 1]
    ensures Curve(points)[NumPoints - 2].x == 100.0
  {
  }

  /**
   * Drawn from any pen position, the suffix goes vertically to the bottom
   * edge (opened) or the top edge (closed), then along that edge back to
   * x = 0.
   */
  lemma SuffixLayout(points: seq<real>, start: Pen)
    requires |points| == NumPoints
    ensures var y := if IsOpened(points) then 100.0 else 0.0;
      Trace(start, Suffix(points)) == [Pen(start.x, y), Pen(0.0, y)]
  {
  }

  /** A pen position. */
  datatype Pen = Pen(x: real, y: real)

  /** Where the pen is after drawing one command from `pen`, by SVG's rules. */
  function Step(pen: Pen, c: Cmd): Pen
  {
    match c
    case MoveTo(x, y) => Pen(x, y)
    case VertTo(y) => Pen(pen.x, y)
    case HorizTo(x) => Pen(x, pen.y)
    case CubicTo(_, _, _, _, x, y) => Pen(x, y)
  }

  /** The pen positions after each command of `cmds`, starting from `pen`. */
  function Trace(pen: Pen, cmds: seq<Cmd>): (t: seq<Pen>)
    ensures |t| == |cmds|
    decreases |cmds|
  {
    if cmds == [] then [] else
      var next := Step(pen, cmds[0]);
      [next] + Trace(next, cmds[1..])
  }

  /** Each pen position follows from the previous one by one Step. */
  lemma {:induction false} TraceAt(pen: Pen, cmds: seq<Cmd>, k: nat)
    requires k < |cmds|
    ensures Trace(pen, cmds)[k] == Step(if k == 0 then pen else Trace(pen, cmds)[k - 1], cmds[k])
    decreases k
  {
    if k > 0 {
      var next := Step(pen, cmds[0]);
      TraceAt(next, cmds[1..], k - 1);
      if k > 1 {
        assert Trace(pen, cmds)[k - 1] == Trace(next, cmds[1..])[k - 2];
      }
    }
  }

  /**
   * Drawn from any starting point, the path passes through every sample
   * (SampleX(k), points[k]) in order, then turns the corner at x = 100 and
   * returns to x = 0, along y = 100 when opened and along y = 0 when closed.
   */
  lemma PathVisitsSamples(points: seq<real>, start: Pen)
    requires |points| == NumPoints
    ensures forall k :: 0 <= k < NumPoints ==>
      Trace(start, PathOf(points))[|Prefix(points)| - 1 + k] == Pen(SampleX(k), points[k])
    ensures Trace(start, PathOf(points))[|Prefix(points)| + NumPoints - 1] ==
      Pen(100.0, if IsOpened(points) then 100.0 else 0.0)
    ensures Trace(start, PathOf(points))[|Prefix(points)| + NumPoints] ==
      Pen(0.0, if IsOpened(points) then 100.0 else 0.0)
    ensures IsOpened(points) ==> Trace(start, PathOf(points))[0] == Pen(0.0, 0.0)
  {
    var d, o := PathOf(points), |Prefix(points)|;
    var t := Trace(start, d);
    CurveLayout(points);
    assert d[..o] == Prefix(points);
    assert forall j :: 0 <= j < NumPoints - 1 ==> d[o + j] == Curve(points)[j];
    assert d[o + NumPoints - 1 ..] == Suffix(points);
    forall k | 0 <= k < NumPoints
      ensures t[o - 1 + k] == Pen(SampleX(k), points[k])
    {
      TraceAt(start, d, o - 1 + k);
      if k == 0 && o == 2 {
        TraceAt(start, d, 0);
      }
    }
    SampleEnds();
    TraceAt(start, d, o + NumPoints - 1);
    TraceAt(start, d, o + NumPoints);
    TraceAt(start, d, 0);
  }

  /**
   * A shape whose points stay within [0, 100] is drawn closed exactly when
   * every point is 100, that is, when its edge is flat along y = 100.
   */
  lemma ClosedIffFlat(points: seq<real>)
    requires forall k :: 0 <= k < |points| ==> 0.0 <= points[k] <= 100.0
    ensures !IsOpened(points) <==> forall k :: 0 <= k < |points| ==> points[k] == 100.0
  {
  }
}
