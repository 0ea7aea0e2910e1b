/** The path a shape owns: a stream of drawing commands and the stream of
    points those commands consume, in order. */
module PathModel {

  datatype PathCommand = Close | MoveTo | LineTo | CubicTo

  datatype Point = Point(x: real, y: real)

  datatype Option<T> = None | Some(value: T)

  /** An axis-aligned box: top-left corner, width and height. */
  datatype Box = Box(x: real, y: real, w: real, h: real)

  /** Number of points a command takes from the point stream. */
  function Arity(c: PathCommand): (n: nat)
    ensures n <= 3
    ensures n == 0 <==> c == Close
  {
    match c
    case MoveTo => 1
    case LineTo => 1
    case CubicTo => 3
    case Close => 0
  }

  /** Total number of points a command stream consumes, read in order. */
  function PointsConsumed(cmds: seq<PathCommand>): nat
  {
    if cmds == [] then 0 else PointsConsumed(cmds[..|cmds| - 1]) + Arity(cmds[|cmds| - 1])
  }

  /** Consumption is additive over concatenated command streams. */
  lemma {:induction false} PointsConsumedAppend(a: seq<PathCommand>, b: seq<PathCommand>)
    ensures PointsConsumed(a + b) == PointsConsumed(a) + PointsConsumed(b)
  {
    if b == [] {
      assert a + b == a;
    } else {
      assert (a + b)[..|a + b| - 1] == a + b[..|b| - 1];
      PointsConsumedAppend(a, b[..|b| - 1]);
    }
  }

  /** Every point lies inside the box (edges included). */
  ghost predicate Encloses(pts: seq<Point>, b: Box)
  {
    forall i :: 0 <= i < |pts| ==>
      b.x <= pts[i].x <= b.x + b.w && b.y <= pts[i].y <= b.y + b.h
  }

  /** The box is the smallest one enclosing the points: each of its four
      edges is touched by some point. */
  ghost predicate IsBoundingBox(pts: seq<Point>, b: Box)
  {
    && Encloses(pts, b)
    && (exists i :: 0 <= i < |pts| && pts[i].x == b.x)
    && (exists i :: 0 <= i < |pts| && pts[i].y == b.y)
    && (exists i :: 0 <= i < |pts| && pts[i].x == b.x + b.w)
    && (exists i :: 0 <= i < |pts| && pts[i].y == b.y + b.h)
  }

  /** A point set has at most one bounding box, so the box a bounds query
      reports is determined by the points alone. */
  lemma BoundingBoxUnique(pts: seq<Point>, a: Box, b: Box)
    requires IsBoundingBox(pts, a) && IsBoundingBox(pts, b)
    ensures a == b
  {
  }

  /** The command and point buffers of one shape. Every edit appends its
      command, and the points it takes (none for Close), at the ends of the
      buffers; only Reset removes anything. */
  class Path {
    var cmds: seq<PathCommand>
    var pts: seq<Point>

    /** The point buffer holds exactly the points the commands consume. */
    ghost predicate Valid()
      reads this
    {
      PointsConsumed(cmds) == |pts|
    }

    constructor ()
      ensures Valid()
      ensures cmds == [] && pts == []
    {
      cmds, pts := [], [];
    }

    method Reset()
      modifies this
      ensures Valid()
      ensures cmds == [] && pts == []
    {
      cmds, pts := [], [];
    }

    method MoveTo(x: real, y: real)
      requires Valid()
      modifies this
      ensures Valid()
      ensures cmds == old(cmds) + [PathCommand.MoveTo]
      ensures pts == old(pts) + [Point(x, y)]
    {
      cmds := cmds + [PathCommand.MoveTo];
      pts := pts + [Point(x, y)];
    }

    method LineTo(x: real, y: real)
      requires Valid()
      modifies this
      ensures Valid()
      ensures cmds == old(cmds) + [PathCommand.LineTo]
      ensures pts == old(pts) + [Point(x, y)]
    {
      cmds := cmds + [PathCommand.LineTo];
      pts := pts + [Point(x, y)];
    }

    method CubicTo(cx1: real, cy1: real, cx2: real, cy2: real, x: real, y: real)
      requires Valid()
      modifies this
      ensures Valid()
      ensures cmds == old(cmds) + [PathCommand.CubicTo]
      ensures pts == old(pts) + [Point(cx1, cy1), Point(cx2, cy2), Point(x, y)]
    {
      cmds := cmds + [PathCommand.CubicTo];
      pts := pts + [Point(cx1, cy1), Point(cx2, cy2), Point(x, y)];
    }

    method Close()
      requires Valid()
      modifies this
      ensures Valid()
      ensures cmds == old(cmds) + [PathCommand.Close]
      ensures pts == old(pts)
    {
      cmds := cmds + [PathCommand.Close];
    }

    /** Bulk append of a command stream and the points it consumes. */
    method Append(newCmds: seq<PathCommand>, newPts: seq<Point>)
      requires Valid()
      requires PointsConsumed(newCmds) == |newPts|
      modifies this
      ensures Valid()
      ensures cmds == old(cmds) + newCmds
      ensures pts == old(pts) + newPts
    {
      PointsConsumedAppend(cmds, newCmds);
      cmds := cmds + newCmds;
      pts := pts + newPts;
    }

    /** Min/max fold over the point buffer; fails on a path without points. */
    method Bounds() returns (b: Option<Box>)
      ensures b.None? <==> |pts| == 0
      ensures b.Some? ==> IsBoundingBox(pts, b.value)
    {
      if |pts| == 0 {
        return None;
      }
      var minX, minY, maxX, maxY := pts[0].x, pts[0].y, pts[0].x, pts[0].y;
      ghost var iMinX, iMinY, iMaxX, iMaxY := 0, 0, 0, 0;
      var i := 1;
      while i < |pts|
        invariant 1 <= i <= |pts|
        invariant forall k :: 0 <= k < i ==>
          minX <= pts[k].x <= maxX && minY <= pts[k].y <= maxY
        invariant 0 <= iMinX < i && pts[iMinX].x == minX
        invariant 0 <= iMinY < i && pts[iMinY].y == minY
        invariant 0 <= iMaxX < i && pts[iMaxX].x == maxX
        invariant 0 <= iMaxY < i && pts[iMaxY].y == maxY
      {
        var p := pts[i];
        if p.x < minX { minX, iMinX := p.x, i; }
        if p.y < minY { minY, iMinY := p.y, i; }
        if p.x > maxX { maxX, iMaxX := p.x, i; }
        if p.y > maxY { maxY, iMaxY := p.y, i; }
        i := i + 1;
      }
      b := Some(Box(minX, minY, maxX - minX, maxY - minY));
    }
  }
}
