/**
 * The shape-overlay state of the word-swap section and the two operations
 * on it: initShapeOverlays, which allocates five rows of ten points and ten
 * wave delays, and renderShapeOverlays, which overwrites every point for the
 * current progress and builds the five paths.
 */
module ShapeOverlays {
  import opened ShapeConfig
  import opened Segments
  import opened Wave
  import opened PathBuilder
  import opened Easing

  /** Identifies one `.shape-overlays__path` element of the page. */
  type ElementId = nat

  /** The ten points of every shape at the given progress, for the given delays. */
  function WaveRows(progress: real, delays: seq<real>): (rows: seq<seq<real>>)
    ensures |rows| == NumPaths
    ensures forall i :: 0 <= i < NumPaths ==> |rows[i]| == |delays|
  {
    seq(NumPaths, i requires 0 <= i < NumPaths =>
      seq(|delays|, j requires 0 <= j < |delays| => WavePoint(SegProgress(progress)[i], delays[j])))
  }

  /** The path data of the five shapes at the given progress. */
  function PathsAt(progress: real, delays: seq<real>): (ds: seq<seq<Cmd>>)
    requires |delays| == NumPoints
    ensures |ds| == NumPaths
  {
    seq(NumPaths, i requires 0 <= i < NumPaths => PathOf(WaveRows(progress, delays)[i]))
  }

  /** The delays a run of `Math.random()` draws turns into. */
  predicate DelaysInRange(delays: seq<real>)
  {
    forall j :: 0 <= j < |delays| ==> 0.0 <= delays[j] < MaxDelay
  }

  /** The values `Math.random()` may return. */
  predicate UnitDraws(randoms: seq<real>)
  {
    forall j :: 0 <= j < |randoms| ==> 0.0 <= randoms[j] < 1.0
  }

  /** `shapeOverlaysPaths`, `shapeOverlaysAllPoints` and `shapeOverlaysPointsDelay`. */
  class ShapeOverlayState {
    var paths: seq<ElementId>
    var allPoints: array2<real>
    var delays: array<real>

    /** Either nothing is set up yet, or five rows of ten points in [0, 100] and ten delays in [0, MaxDelay). */
    ghost predicate Valid()
      reads this, allPoints, delays
    {
      || (|paths| == 0 && allPoints.Length0 == 0 && delays.Length == 0)
      || (&& |paths| == NumPaths
          && allPoints.Length0 == NumPaths && allPoints.Length1 == NumPoints
          && delays.Length == NumPoints
          && DelaysInRange(delays[..])
          && (forall i, j :: 0 <= i < NumPaths && 0 <= j < NumPoints ==> 0.0 <= allPoints[i, j] <= 100.0))
    }

    /** The guard of renderShapeOverlays: none of the three arrays is empty. */
    predicate Ready()
      reads this, allPoints, delays
    {
      |paths| != 0 && allPoints.Length0 != 0 && delays.Length != 0
    }

    /** The current points of shape i. */
    function Row(i: nat): (row: seq<real>)
      requires i < allPoints.Length0
      reads this, allPoints
      ensures |row| == allPoints.Length1
      ensures forall j :: 0 <= j < allPoints.Length1 ==> row[j] == allPoints[i, j]
    {
      var a := allPoints;
      seq(a.Length1, j requires 0 <= j < a.Length1 reads a => a[i, j])
    }

    /** The module-level initial values: three empty arrays. */
    constructor ()
      ensures Valid() && !Ready() && fresh(allPoints) && fresh(delays)
      ensures paths == [] && allPoints.Length0 == 0 && delays.Length == 0
    {
      paths := [];
      allPoints := new real[0, 0];
      delays := new real[0];
    }

    /**
     * Sets up the state from the path elements found in the overlay and ten
     * draws of `Math.random()`, or leaves it alone unless exactly five paths
     * were found.
     */
    method InitShapeOverlays(found: seq<ElementId>, randoms: seq<real>)
      requires Valid()
      requires |randoms| == NumPoints && UnitDraws(randoms)
      modifies this
      ensures Valid()
      ensures |found| != NumPaths ==>
        paths == old(paths) && allPoints == old(allPoints) && delays == old(delays)
      ensures |found| == NumPaths ==>
        && paths == found && Ready()
        && fresh(allPoints) && fresh(delays)
        && allPoints.Length0 == NumPaths && allPoints.Length1 == NumPoints
        && delays[..] == seq(NumPoints, j requires 0 <= j < NumPoints => randoms[j] * MaxDelay)
        && (forall i, j :: 0 <= i < NumPaths && 0 <= j < NumPoints ==> allPoints[i, j] == 100.0)
    {
      if |found| != NumPaths {
        return;
      }
      var d := new real[NumPoints];
      for j := 0 to NumPoints
        invariant forall k :: 0 <= k < j ==> d[k] == randoms[k] * MaxDelay
      {
        d[j] := randoms[j] * MaxDelay;
      }
      var pts := new real[NumPaths, NumPoints];
      for i := 0 to NumPaths
        invariant forall r, k :: 0 <= r < i && 0 <= k < NumPoints ==> pts[r, k] == 100.0
        invariant forall k :: 0 <= k < NumPoints ==> d[k] == randoms[k] * MaxDelay
      {
        for j := 0 to NumPoints
          invariant forall r, k :: 0 <= r < i && 0 <= k < NumPoints ==> pts[r, k] == 100.0
          invariant forall k :: 0 <= k < j ==> pts[i, k] == 100.0
          invariant forall k :: 0 <= k < NumPoints ==> d[k] == randoms[k] * MaxDelay
        {
          pts[i, j] := 100.0;
        }
      }
      paths := found;
      allPoints := pts;
      delays := d;
      forall j | 0 <= j < NumPoints
        ensures 0.0 <= d[j] < MaxDelay
      {
        DrawScaled(randoms[j]);
      }
    }

    /**
     * renderShapeOverlays: overwrites point (i, j) with the wave value of
     * shape i's segment progress and point j's delay, then builds the path
     * of each shape. Does nothing before a successful initialisation.
     */
    method Render(progress: real) returns (ds: seq<seq<Cmd>>)
      requires Valid()
      modifies allPoints
      ensures Valid()
      ensures !Ready() ==> ds == [] && unchanged(allPoints)
      ensures Ready() ==>
        && (forall i, j :: 0 <= i < NumPaths && 0 <= j < NumPoints ==>
              allPoints[i, j] == WaveRows(progress, delays[..])[i][j])
        && ds == PathsAt(progress, delays[..])
    {
      if |paths| == 0 || allPoints.Length0 == 0 || delays.Length == 0 {
        return [];
      }
      var segProgress := SegProgress(progress);
      for i := 0 to NumPaths
        invariant forall r, k :: 0 <= r < i && 0 <= k < NumPoints ==> allPoints[r, k] == WavePoint(segProgress[r], delays[k])
        invariant forall r, k :: 0 <= r < NumPaths && 0 <= k < NumPoints ==> 0.0 <= allPoints[r, k] <= 100.0
      {
        var sp := segProgress[i];
        for j := 0 to NumPoints
          invariant forall r, k :: 0 <= r < i && 0 <= k < NumPoints ==> allPoints[r, k] == WavePoint(segProgress[r], delays[k])
          invariant forall k :: 0 <= k < j ==> allPoints[i, k] == WavePoint(sp, delays[k])
          invariant forall r, k :: 0 <= r < NumPaths && 0 <= k < NumPoints ==> 0.0 <= allPoints[r, k] <= 100.0
        {
          var delay := delays[j];
          if sp <= delay {
            allPoints[i, j] := 100.0;
          } else if sp >= delay + PointDuration {
            allPoints[i, j] := 0.0;
          } else {
            var u := (sp - delay) / PointDuration;
            EaseOutUnit(u);
            allPoints[i, j] := 100.0 * (1.0 - EaseOut(u));
          }
        }
      }
      ds := [];
      for i := 0 to NumPaths
        invariant |ds| == i
        invariant forall r :: 0 <= r < i ==> ds[r] == PathOf(WaveRows(progress, delays[..])[r])
        invariant forall r, k :: 0 <= r < NumPaths && 0 <= k < NumPoints ==> allPoints[r, k] == WavePoint(segProgress[r], delays[k])
      {
        assert Row(i) == WaveRows(progress, delays[..])[i] by {
          assert forall k :: 0 <= k < NumPoints ==> Row(i)[k] == WaveRows(progress, delays[..])[i][k];
        }
        var d := BuildPath(Row(i));
        ds := ds + [d];
      }
    }
  }

  /** A draw of `Math.random()` scaled by MaxDelay is a delay in [0, MaxDelay). */
  lemma DrawScaled(r: real)
    requires 0.0 <= r < 1.0
    ensures 0.0 <= r * MaxDelay < MaxDelay
  {
  }

  /** At progress 0 every point is 100: every shape is flat and closed. */
  lemma AllClosedAtStart(delays: seq<real>)
    requires |delays| == NumPoints && DelaysInRange(delays)
    ensures forall i, j :: 0 <= i < NumPaths && 0 <= j < NumPoints ==> WaveRows(0.0, delays)[i][j] == 100.0
    ensures forall i :: 0 <= i < NumPaths ==> !IsOpened(WaveRows(0.0, delays)[i])
  {
    SegProgressEndpoints();
    forall i, j | 0 <= i < NumPaths && 0 <= j < NumPoints
      ensures WaveRows(0.0, delays)[i][j] == 100.0
    {
      WavePointEnds(delays[j]);
    }
  }

  /** At progress 1 every point is 0: every shape is fully open. */
  lemma AllOpenAtEnd(delays: seq<real>)
    requires |delays| == NumPoints && DelaysInRange(delays)
    ensures forall i, j :: 0 <= i < NumPaths && 0 <= j < NumPoints ==> WaveRows(1.0, delays)[i][j] == 0.0
    ensures forall i :: 0 <= i < NumPaths ==> IsOpened(WaveRows(1.0, delays)[i])
  {
    SegProgressEndpoints();
    forall i, j | 0 <= i < NumPaths && 0 <= j < NumPoints
      ensures WaveRows(1.0, delays)[i][j] == 0.0
    {
      WavePointEnds(delays[j]);
    }
    forall i | 0 <= i < NumPaths
      ensures IsOpened(WaveRows(1.0, delays)[i])
    {
      assert WaveRows(1.0, delays)[i][0] < 100.0;
    }
  }

  /** Scrolling further down never raises a point. */
  lemma PointsFallWithProgress(p1: real, p2: real, delays: seq<real>, i: nat, j: nat)
    requires p1 <= p2 && i < NumPaths && j < |delays|
    ensures WaveRows(p2, delays)[i][j] <= WaveRows(p1, delays)[i][j]
  {
    SegProgressMonotone(p1, p2, i);
    WavePointMonotone(SegProgress(p1)[i], SegProgress(p2)[i], delays[j]);
  }

  /**
   * The shapes open one after another: once shape i - 1 has started to
   * open, shape i is already fully open.
   */
  lemma ShapesOpenInTurn(progress: real, delays: seq<real>, i: nat)
    requires 1 <= i < NumPaths && DelaysInRange(delays)
    requires IsOpened(WaveRows(progress, delays)[i - 1])
    ensures forall j :: 0 <= j < |delays| ==> WaveRows(progress, delays)[i][j] == 0.0
  {
    var k :| 0 <= k < |delays| && WaveRows(progress, delays)[i - 1][k] < 100.0;
    WavePointPhases(SegProgress(progress)[i - 1], delays[k]);
    SegProgressOrdered(progress, i);
    forall j | 0 <= j < |delays|
      ensures WaveRows(progress, delays)[i][j] == 0.0
    {
      WavePointPhases(SegProgress(progress)[i], delays[j]);
    }
  }
}
