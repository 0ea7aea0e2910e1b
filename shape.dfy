/** A drawable shape: the path it owns, its fill colour, its scale and
    rotation, and the set of state categories changed since a renderer last
    consumed them. */
module Shapes {
  import opened PathModel
  import opened Primitives

  /** Machine epsilon of single precision, 2^-23. */
  const FloatEpsilon: real := 0.00000011920928955078125

  function Abs(v: real): (a: real)
    ensures a >= 0.0 && (a == v || a == -v)
  {
    if v < 0.0 then -v else v
  }

  /** The categories of state a renderer has to refresh. */
  datatype RenderUpdateFlag = Path | Fill | Transform

  /** A scale request is refused when the factor is indistinguishable from
      zero or from the current scale. */
  predicate ScaleRejected(factor: real, current: real): (rejected: bool)
    ensures rejected <==>
      (-FloatEpsilon < factor < FloatEpsilon) ||
      (current - FloatEpsilon <= factor <= current + FloatEpsilon)
  {
    Abs(factor) < FloatEpsilon || Abs(factor - current) <= FloatEpsilon
  }

  /** A rotation request is refused only when it is indistinguishable from
      the current rotation. */
  predicate RotateRejected(degree: real, current: real): (rejected: bool)
    ensures rejected <==> current - FloatEpsilon <= degree <= current + FloatEpsilon
  {
    Abs(degree - current) <= FloatEpsilon
  }

  /** Re-applying the stored scale or rotation is always refused, so a
      redundant set never marks the transform dirty; a zero scale is refused
      whatever the current scale. */
  lemma RepeatRejected(factor: real, degree: real, current: real)
    ensures ScaleRejected(factor, factor) && RotateRejected(degree, degree)
    ensures ScaleRejected(0.0, current)
  {
  }

  class Shape {
    const path: PathModel.Path
    const color: array<nat>
    var scale: real
    var rotate: real
    var flag: set<RenderUpdateFlag>

    ghost predicate Valid()
      reads this, path, color
    {
      path.Valid() && color.Length == 4
    }

    /** A new shape: empty path, colour (0, 0, 0, 0), unit scale, no
        rotation, nothing dirty. */
    constructor ()
      ensures Valid() && fresh(path) && fresh(color)
      ensures path.cmds == [] && path.pts == []
      ensures color[..] == [0, 0, 0, 0] && scale == 1.0 && rotate == 0.0
      ensures flag == {}
    {
      path := new PathModel.Path();
      color := new nat[4](_ => 0);
      scale, rotate, flag := 1.0, 0.0, {};
    }

    // ------------------------------------------------------- path editing

    method Reset() returns (r: int)
      requires Valid()
      modifies this, path
      ensures Valid() && r == 0
      ensures path.cmds == [] && path.pts == []
      ensures flag == old(flag) + {RenderUpdateFlag.Path}
      ensures scale == old(scale) && rotate == old(rotate) && color[..] == old(color[..])
    {
      path.Reset();
      flag := flag + {RenderUpdateFlag.Path};
      r := 0;
    }

    /** The command buffer and its length; the buffer's commands consume
        exactly the points of the point buffer. */
    method PathCommands() returns (cmds: seq<PathCommand>, n: nat)
      requires Valid()
      ensures cmds == path.cmds && n == |cmds|
      ensures PointsConsumed(cmds) == |path.pts|
    {
      cmds, n := path.cmds, |path.cmds|;
    }

    /** The point buffer and its length, which is the number of points the
        command buffer consumes. */
    method PathCoords() returns (pts: seq<Point>, n: nat)
      requires Valid()
      ensures pts == path.pts && n == |pts|
      ensures n == PointsConsumed(path.cmds)
    {
      pts, n := path.pts, |path.pts|;
    }

    /** Appends caller-supplied streams; the streams must agree, command by
        command, on the number of points. */
    method AppendPath(cmds: seq<PathCommand>, pts: seq<Point>) returns (r: int)
      requires Valid()
      requires PointsConsumed(cmds) == |pts|
      modifies this, path
      ensures Valid() && r == 0
      ensures path.cmds == old(path.cmds) + cmds && path.pts == old(path.pts) + pts
      ensures flag == old(flag) + {RenderUpdateFlag.Path}
      ensures scale == old(scale) && rotate == old(rotate) && color[..] == old(color[..])
    {
      path.Append(cmds, pts);
      flag := flag + {RenderUpdateFlag.Path};
      r := 0;
    }

    method MoveTo(x: real, y: real) returns (r: int)
      requires Valid()
      modifies this, path
      ensures Valid() && r == 0
      ensures path.cmds == old(path.cmds) + [PathCommand.MoveTo]
      ensures path.pts == old(path.pts) + [Point(x, y)]
      ensures flag == old(flag) + {RenderUpdateFlag.Path}
      ensures scale == old(scale) && rotate == old(rotate) && color[..] == old(color[..])
    {
      path.MoveTo(x, y);
      flag := flag + {RenderUpdateFlag.Path};
      r := 0;
    }

    method LineTo(x: real, y: real) returns (r: int)
      requires Valid()
      modifies this, path
      ensures Valid() && r == 0
      ensures path.cmds == old(path.cmds) + [PathCommand.LineTo]
      ensures path.pts == old(path.pts) + [Point(x, y)]
      ensures flag == old(flag) + {RenderUpdateFlag.Path}
      ensures scale == old(scale) && rotate == old(rotate) && color[..] == old(color[..])
    {
      path.LineTo(x, y);
      flag := flag + {RenderUpdateFlag.Path};
      r := 0;
    }

    method CubicTo(cx1: real, cy1: real, cx2: real, cy2: real, x: real, y: real) returns (r: int)
      requires Valid()
      modifies this, path
      ensures Valid() && r == 0
      ensures path.cmds == old(path.cmds) + [PathCommand.CubicTo]
      ensures path.pts == old(path.pts) + [Point(cx1, cy1), Point(cx2, cy2), Point(x, y)]
      ensures flag == old(flag) + {RenderUpdateFlag.Path}
      ensures scale == old(scale) && rotate == old(rotate) && color[..] == old(color[..])
    {
      path.CubicTo(cx1, cy1, cx2, cy2, x, y);
      flag := flag + {RenderUpdateFlag.Path};
      r := 0;
    }

    method Close() returns (r: int)
      requires Valid()
      modifies this, path
      ensures Valid() && r == 0
      ensures path.cmds == old(path.cmds) + [PathCommand.Close]
      ensures path.pts == old(path.pts)
      ensures flag == old(flag) + {RenderUpdateFlag.Path}
      ensures scale == old(scale) && rotate == old(rotate) && color[..] == old(color[..])
    {
      path.Close();
      flag := flag + {RenderUpdateFlag.Path};
      r := 0;
    }

    /** Appends the four-arc ellipse centred at (cx, cy) after the existing path. */
    method AppendCircle(cx: real, cy: real, radiusW: real, radiusH: real) returns (r: int)
      requires Valid()
      modifies this, path
      ensures Valid() && r == 0
      ensures path.cmds == old(path.cmds) + CircleCommands()
      ensures path.pts == old(path.pts) + CirclePoints(cx, cy, radiusW, radiusH)
      ensures flag == old(flag) + {RenderUpdateFlag.Path}
      ensures scale == old(scale) && rotate == old(rotate) && color[..] == old(color[..])
    {
      var halfKappaW := radiusW * Kappa;
      var halfKappaH := radiusH * Kappa;
      path.MoveTo(cx, cy - radiusH);
      path.CubicTo(cx + halfKappaW, cy - radiusH, cx + radiusW, cy - halfKappaH, cx + radiusW, cy);
      path.CubicTo(cx + radiusW, cy + halfKappaH, cx + halfKappaW, cy + radiusH, cx, cy + radiusH);
      path.CubicTo(cx - halfKappaW, cy + radiusH, cx - radiusW, cy + halfKappaH, cx - radiusW, cy);
      path.CubicTo(cx - radiusW, cy - halfKappaH, cx - halfKappaW, cy - radiusH, cx, cy - radiusH);
      path.Close();
      flag := flag + {RenderUpdateFlag.Path};
      r := 0;
    }

    /** Appends a rectangle with its corner radius clamped to half the
        smaller side: plain, the inscribed ellipse, or rounded. */
    method AppendRect(x: real, y: real, w: real, h: real, cornerRadius: real) returns (r: int)
      requires Valid()
      modifies this, path
      ensures Valid() && r == 0
      ensures path.cmds == old(path.cmds) + RectCommands(w, h, cornerRadius)
      ensures path.pts == old(path.pts) + RectPoints(x, y, w, h, cornerRadius)
      ensures flag == old(flag) + {RenderUpdateFlag.Path}
      ensures scale == old(scale) && rotate == old(rotate) && color[..] == old(color[..])
    {
      var min := (if w < h then w else h) * 0.5;
      var c := cornerRadius;
      if c > min { c := min; }
      assert c == ClampRadius(w, h, cornerRadius);

      if c == 0.0 {
        EmitPlainRect(x, y, w, h);
      } else if w == h && c * 2.0 == w {
        r := AppendCircle(x + w * 0.5, y + h * 0.5, c, c);
        return;
      } else {
        EmitRoundedRect(x, y, w, h, c);
      }
      flag := flag + {RenderUpdateFlag.Path};
      r := 0;
    }

    /** The plain-rectangle branch of AppendRect: four corners clockwise
        from (x, y), then close. Touches only the path. */
    method EmitPlainRect(x: real, y: real, w: real, h: real)
      requires Valid()
      modifies path
      ensures Valid()
      ensures path.cmds == old(path.cmds) + PlainRectCommands()
      ensures path.pts == old(path.pts) + PlainRectPoints(x, y, w, h)
    {
      path.MoveTo(x, y);
      path.LineTo(x + w, y);
      path.LineTo(x + w, y + h);
      path.LineTo(x, y + h);
      path.Close();
    }

    /** The rounded-rectangle branch of AppendRect for the clamped radius c.
        Touches only the path. */
    method EmitRoundedRect(x: real, y: real, w: real, h: real, c: real)
      requires Valid()
      modifies path
      ensures Valid()
      ensures path.cmds == old(path.cmds) + RoundedRectCommands()
      ensures path.pts == old(path.pts) + RoundedRectPoints(x, y, w, h, c)
    {
      ghost var outline, corners := RoundedRectCommands(), RoundedRectPoints(x, y, w, h, c);
      var halfKappa := c * 0.5;
      EmitRoundedFirstHalf(x, y, w, h, c, halfKappa);
      EmitRoundedSecondHalf(x, y, w, h, c, halfKappa);
      assert outline[..5] + outline[5..] == outline;
      assert corners[..9] + corners[9..] == corners;
    }

    /** Top edge, top-right corner, right edge, bottom-right corner. */
    method EmitRoundedFirstHalf(x: real, y: real, w: real, h: real, c: real, halfKappa: real)
      requires Valid() && halfKappa == c * 0.5
      modifies path
      ensures Valid()
      ensures path.cmds == old(path.cmds) + RoundedRectCommands()[..5]
      ensures path.pts == old(path.pts) + RoundedRectPoints(x, y, w, h, c)[..9]
    {
      path.MoveTo(x + c, y);
      path.LineTo(x + w - c, y);
      path.CubicTo(x + w - c + halfKappa, y, x + w, y + c - halfKappa, x + w, y + c);
      path.LineTo(x + w, y + h - c);
      path.CubicTo(x + w, y + h - c + halfKappa, x + w - c + halfKappa, y + h, x + w - c, y + h);
    }

    /** Bottom edge, bottom-left corner, left edge, top-left corner, close. */
    method EmitRoundedSecondHalf(x: real, y: real, w: real, h: real, c: real, halfKappa: real)
      requires Valid() && halfKappa == c * 0.5
      modifies path
      ensures Valid()
      ensures path.cmds == old(path.cmds) + RoundedRectCommands()[5..]
      ensures path.pts == old(path.pts) + RoundedRectPoints(x, y, w, h, c)[9..]
    {
      path.LineTo(x + c, y + h);
      path.CubicTo(x + c - halfKappa, y + h, x, y + h - c + halfKappa, x, y + h - c);
      path.LineTo(x, y + c);
      path.CubicTo(x, y + c - halfKappa, x + c - halfKappa, y, x + c, y);
      path.Close();
    }

    // -------------------------------------------------------- attributes

    /** Overwrites all four colour channels. */
    method Fill(r: nat, g: nat, b: nat, a: nat) returns (res: int)
      requires Valid()
      modifies this, color
      ensures Valid() && res == 0
      ensures color[..] == [r, g, b, a]
      ensures flag == old(flag) + {RenderUpdateFlag.Fill}
      ensures scale == old(scale) && rotate == old(rotate)
      ensures path.cmds == old(path.cmds) && path.pts == old(path.pts)
    {
      color[0] := r;
      color[1] := g;
      color[2] := b;
      color[3] := a;
      flag := flag + {RenderUpdateFlag.Fill};
      res := 0;
    }

    /** The four colour channels, in the order red, green, blue, alpha. */
    method GetFill() returns (r: nat, g: nat, b: nat, a: nat, res: int)
      requires Valid()
      ensures [r, g, b, a] == color[..] && res == 0
    {
      r, g, b, a := color[0], color[1], color[2], color[3];
      res := 0;
    }

    /** Stores a new scale factor unless ScaleRejected refuses it, in which
        case nothing changes. */
    method Scale(factor: real) returns (r: int)
      requires Valid()
      modifies this
      ensures Valid()
      ensures r == (if ScaleRejected(factor, old(scale)) then -1 else 0)
      ensures r == -1 ==> scale == old(scale) && flag == old(flag)
      ensures r == 0 ==> scale == factor && flag == old(flag) + {RenderUpdateFlag.Transform}
      ensures rotate == old(rotate) && color[..] == old(color[..])
      ensures path.cmds == old(path.cmds) && path.pts == old(path.pts)
    {
      if Abs(factor) < FloatEpsilon || Abs(factor - scale) <= FloatEpsilon {
        return -1;
      }
      scale := factor;
      flag := flag + {RenderUpdateFlag.Transform};
      r := 0;
    }

    /** Stores a new rotation unless RotateRejected refuses it, in which case
        nothing changes. */
    method Rotate(degree: real) returns (r: int)
      requires Valid()
      modifies this
      ensures Valid()
      ensures r == (if RotateRejected(degree, old(rotate)) then -1 else 0)
      ensures r == -1 ==> rotate == old(rotate) && flag == old(flag)
      ensures r == 0 ==> rotate == degree && flag == old(flag) + {RenderUpdateFlag.Transform}
      ensures scale == old(scale) && color[..] == old(color[..])
      ensures path.cmds == old(path.cmds) && path.pts == old(path.pts)
    {
      if Abs(degree - rotate) <= FloatEpsilon {
        return -1;
      }
      rotate := degree;
      flag := flag + {RenderUpdateFlag.Transform};
      r := 0;
    }

    method GetScale() returns (s: real)
      ensures s == scale
    {
      s := scale;
    }

    method GetRotate() returns (d: real)
      ensures d == rotate
    {
      d := rotate;
    }

    /** Fails with -1 exactly when the path has no points; otherwise reports
        the bounding box of the point buffer. A failed query reports no box. */
    method Bounds() returns (r: int, b: Option<Box>)
      requires Valid()
      ensures r == -1 || r == 0
      ensures r == -1 <==> |path.pts| == 0
      ensures r == -1 <==> b.None?
      ensures r == 0 ==> IsBoundingBox(path.pts, b.value)
    {
      b := path.Bounds();
      if b.None? {
        return -1, None;
      }
      r := 0;
    }
  }
}
