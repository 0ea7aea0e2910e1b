/** What the primitive generators of a shape append to its path: the
    command and point sequences for an ellipse and for a (rounded)
    rectangle, as functions of the call's arguments. */
module Primitives {
  import opened PathModel

  /** Control-point ratio of a quarter-ellipse cubic arc. */
  const Kappa: real := 0.552284

  /** Half of the smaller side: the largest corner radius a rectangle keeps. */
  function MinHalf(w: real, h: real): (m: real)
    ensures m * 2.0 <= w && m * 2.0 <= h
    ensures m * 2.0 == w || m * 2.0 == h
  {
    (if w < h then w else h) * 0.5
  }

  /** The corner radius after clamping: the smaller of the requested radius
      and half the smaller side. */
  function ClampRadius(w: real, h: real, r: real): (c: real)
    ensures c <= r && c <= MinHalf(w, h)
    ensures c == r || c == MinHalf(w, h)
  {
    if r > MinHalf(w, h) then MinHalf(w, h) else r
  }

  /** The three outlines a rectangle request can produce, in priority order. */
  datatype RectKind = Plain | Inscribed | Rounded

  /** The outline a request produces: plain when the radius clamps to 0;
      otherwise the inscribed ellipse for a non-degenerate square clamped to
      half its side; otherwise the rounded rectangle. */
  function KindOf(w: real, h: real, r: real): (k: RectKind)
    ensures k == Plain <==> ClampRadius(w, h, r) == 0.0
    ensures k == Inscribed <==>
      ClampRadius(w, h, r) != 0.0 && w == h && w != 0.0 && ClampRadius(w, h, r) == MinHalf(w, h)
    ensures k == Rounded <==>
      ClampRadius(w, h, r) != 0.0 && (w != h || ClampRadius(w, h, r) < MinHalf(w, h))
  {
    var c := ClampRadius(w, h, r);
    if c == 0.0 then Plain
    else if w == h && c * 2.0 == w then Inscribed
    else Rounded
  }

  // ---------------------------------------------------------------- ellipse

  function CircleCommands(): seq<PathCommand>
  {
    [MoveTo, CubicTo, CubicTo, CubicTo, CubicTo, Close]
  }

  /** Start at the top, then one cubic arc per quadrant: to the right, the
      bottom, the left extreme and back to the top. */
  function CirclePoints(cx: real, cy: real, rw: real, rh: real): (p: seq<Point>)
    ensures |p| == 13 && p[0] == Point(cx, cy - rh) && p[12] == p[0]
  {
    var kw, kh := rw * Kappa, rh * Kappa;
    [Point(cx, cy - rh),
     Point(cx + kw, cy - rh), Point(cx + rw, cy - kh), Point(cx + rw, cy),
     Point(cx + rw, cy + kh), Point(cx + kw, cy + rh), Point(cx, cy + rh),
     Point(cx - kw, cy + rh), Point(cx - rw, cy + kh), Point(cx - rw, cy),
     Point(cx - rw, cy - kh), Point(cx - kw, cy - rh), Point(cx, cy - rh)]
  }

  // -------------------------------------------------------------- rectangle

  function PlainRectCommands(): seq<PathCommand>
  {
    [MoveTo, LineTo, LineTo, LineTo, Close]
  }

  /** The four corners from (x, y) to the opposite corner (x + w, y + h),
      each edge parallel to an axis. */
  function PlainRectPoints(x: real, y: real, w: real, h: real): (p: seq<Point>)
    ensures |p| == 4 && p[0] == Point(x, y) && p[2] == Point(x + w, y + h)
    ensures p[0].y == p[1].y && p[1].x == p[2].x && p[2].y == p[3].y && p[3].x == p[0].x
  {
    [Point(x, y), Point(x + w, y), Point(x + w, y + h), Point(x, y + h)]
  }

  function RoundedRectCommands(): seq<PathCommand>
  {
    [MoveTo, LineTo, CubicTo, LineTo, CubicTo, LineTo, CubicTo, LineTo, CubicTo, Close]
  }

  /** Clockwise from just after the top-left corner; each corner is one cubic
      whose control points sit half the radius away from its end points. */
  function RoundedRectPoints(x: real, y: real, w: real, h: real, c: real): (p: seq<Point>)
    ensures |p| == 17 && p[0] == Point(x + c, y) && p[16] == p[0]
    ensures p[0].y == p[1].y == y && p[4].x == p[5].x == x + w
    ensures p[8].y == p[9].y == y + h && p[12].x == p[13].x == x
  {
    var hk := c * 0.5;
    [Point(x + c, y),
     Point(x + w - c, y),
     Point(x + w - c + hk, y), Point(x + w, y + c - hk), Point(x + w, y + c),
     Point(x + w, y + h - c),
     Point(x + w, y + h - c + hk), Point(x + w - c + hk, y + h), Point(x + w - c, y + h),
     Point(x + c, y + h),
     Point(x + c - hk, y + h), Point(x, y + h - c + hk), Point(x, y + h - c),
     Point(x, y + c),
     Point(x, y + c - hk), Point(x + c - hk, y), Point(x + c, y)]
  }

  /** The commands a rectangle request appends: in every case one subpath,
      opened by MoveTo and ended by Close, with only LineTo and CubicTo
      between. */
  function RectCommands(w: real, h: real, r: real): (cmds: seq<PathCommand>)
    ensures 5 <= |cmds| && cmds[0] == MoveTo && cmds[|cmds| - 1] == Close
    ensures forall i :: 0 < i < |cmds| - 1 ==> cmds[i] == LineTo || cmds[i] == CubicTo
  {
    match KindOf(w, h, r)
    case Plain => PlainRectCommands()
    case Inscribed => CircleCommands()
    case Rounded => RoundedRectCommands()
  }

  /** The points a rectangle request appends: 4, 13 or 17 of them; the
      ellipse and the rounded outline end where they start. */
  function RectPoints(x: real, y: real, w: real, h: real, r: real): (p: seq<Point>)
    ensures |p| == 4 || |p| == 13 || |p| == 17
    ensures KindOf(w, h, r) != Plain ==> p[|p| - 1] == p[0]
  {
    var c := ClampRadius(w, h, r);
    match KindOf(w, h, r)
    case Plain => PlainRectPoints(x, y, w, h)
    case Inscribed => CirclePoints(x + w * 0.5, y + h * 0.5, c, c)
    case Rounded => RoundedRectPoints(x, y, w, h, c)
  }

  // ----------------------------------------------------------------- lemmas

  /** The ellipse's 6 commands consume 13 points, the plain rectangle's 5
      commands 4 points and the rounded rectangle's 10 commands 17 points. */
  lemma {:induction false} PrimitiveCommandArity()
    ensures PointsConsumed(CircleCommands()) == 13
    ensures PointsConsumed(PlainRectCommands()) == 4
    ensures PointsConsumed(RoundedRectCommands()) == 17
  {
    var quadrant := [CubicTo];
    PointsConsumedAppend(quadrant, quadrant);
    PointsConsumedAppend(quadrant + quadrant, quadrant + quadrant);
    PointsConsumedAppend([MoveTo], quadrant + quadrant + (quadrant + quadrant));
    PointsConsumedAppend([MoveTo] + (quadrant + quadrant + (quadrant + quadrant)), [Close]);
    assert CircleCommands() == [MoveTo] + (quadrant + quadrant + (quadrant + quadrant)) + [Close];

    PointsConsumedAppend([MoveTo, LineTo], [LineTo, LineTo, Close]);
    assert [MoveTo, LineTo] + [LineTo, LineTo, Close] == PlainRectCommands();

    var corner := [LineTo, CubicTo];
    PointsConsumedAppend(corner, corner);
    PointsConsumedAppend(corner + corner, corner + corner);
    PointsConsumedAppend([MoveTo], corner + corner + (corner + corner));
    PointsConsumedAppend([MoveTo] + (corner + corner + (corner + corner)), [Close]);
    assert RoundedRectCommands() == [MoveTo] + (corner + corner + (corner + corner)) + [Close];
  }

  /** The ellipse is 6 commands over 13 points, and the commands consume
      exactly those points. */
  lemma CircleWellFormed(cx: real, cy: real, rw: real, rh: real)
    ensures |CircleCommands()| == 6 && |CirclePoints(cx, cy, rw, rh)| == 13
    ensures PointsConsumed(CircleCommands()) == |CirclePoints(cx, cy, rw, rh)|
  {
    PrimitiveCommandArity();
  }

  /** The ellipse starts at its top, passes the right, bottom and left
      extremes at the ends of the first three arcs, and the last arc ends
      back at the start. The first arc's control points sit on the tangents
      at its end points, κ times the radius along them; the symmetry lemmas
      below carry this to the other three arcs. */
  lemma CircleTraversal(cx: real, cy: real, rw: real, rh: real)
    ensures var p := CirclePoints(cx, cy, rw, rh);
      && |p| == 13
      && p[0] == Point(cx, cy - rh)
      && p[3] == Point(cx + rw, cy)
      && p[6] == Point(cx, cy + rh)
      && p[9] == Point(cx - rw, cy)
      && p[12] == p[0]
      && p[1] == Point(p[0].x + Kappa * rw, p[0].y)
      && p[2] == Point(p[3].x, p[3].y - Kappa * rh)
  {
  }

  /** The ellipse is mirror symmetric about the vertical line through its
      centre: point i mirrors point 12 - i. */
  lemma CircleSymmetricVertical(cx: real, cy: real, rw: real, rh: real)
    ensures var p := CirclePoints(cx, cy, rw, rh);
      forall i :: 0 <= i <= 12 ==> p[i].x + p[12 - i].x == 2.0 * cx && p[i].y == p[12 - i].y
  {
    var p := CirclePoints(cx, cy, rw, rh);
    forall i | 0 <= i <= 12
      ensures p[i].x + p[12 - i].x == 2.0 * cx && p[i].y == p[12 - i].y
    {
      if i < 6 {
        assert p[i].x + p[12 - i].x == 2.0 * cx;
      }
    }
  }

  /** The ellipse is mirror symmetric about the horizontal line through its
      centre: on the first half, point i mirrors point 6 - i. */
  lemma CircleSymmetricHorizontal(cx: real, cy: real, rw: real, rh: real)
    ensures var p := CirclePoints(cx, cy, rw, rh);
      forall i :: 0 <= i <= 6 ==> p[i].x == p[6 - i].x && p[i].y + p[6 - i].y == 2.0 * cy
  {
    var p := CirclePoints(cx, cy, rw, rh);
    forall i | 0 <= i <= 6
      ensures p[i].x == p[6 - i].x && p[i].y + p[6 - i].y == 2.0 * cy
    {
      if i < 3 {
        assert p[i].y + p[6 - i].y == 2.0 * cy;
      }
    }
  }

  /** For non-negative radii the ellipse's points have the box
      (cx - rw, cy - rh, 2 rw, 2 rh) as their bounding box. */
  lemma CircleBounds(cx: real, cy: real, rw: real, rh: real)
    requires rw >= 0.0 && rh >= 0.0
    ensures IsBoundingBox(CirclePoints(cx, cy, rw, rh), Box(cx - rw, cy - rh, 2.0 * rw, 2.0 * rh))
  {
    var p := CirclePoints(cx, cy, rw, rh);
    assert p[9].x == cx - rw && p[0].y == cy - rh;
    assert p[3].x == cx + rw && p[6].y == cy + rh;
  }

  /** The plain rectangle is chosen exactly when the requested radius is 0
      and the sides allow it, or a positive radius clamps down to 0. */
  lemma PlainExactly(w: real, h: real, r: real)
    ensures KindOf(w, h, r) == Plain <==>
      (r == 0.0 && MinHalf(w, h) >= 0.0) || (r > 0.0 && MinHalf(w, h) == 0.0)
  {
  }

  /** A rectangle whose radius clamps to 0 is the four corners in clockwise
      order from (x, y), closed. */
  lemma PlainRectShape(x: real, y: real, w: real, h: real, r: real)
    requires ClampRadius(w, h, r) == 0.0
    ensures RectCommands(w, h, r) == [MoveTo, LineTo, LineTo, LineTo, Close]
    ensures RectPoints(x, y, w, h, r) ==
      [Point(x, y), Point(x + w, y), Point(x + w, y + h), Point(x, y + h)]
  {
  }

  /** For non-negative sides the plain rectangle's bounding box is (x, y, w, h). */
  lemma PlainRectBounds(x: real, y: real, w: real, h: real, r: real)
    requires w >= 0.0 && h >= 0.0 && ClampRadius(w, h, r) == 0.0
    ensures IsBoundingBox(RectPoints(x, y, w, h, r), Box(x, y, w, h))
  {
    var p := RectPoints(x, y, w, h, r);
    assert p[0] == Point(x, y) && p[2] == Point(x + w, y + h);
  }

  /** Any radius at or above half the smaller side gives the same path as
      exactly half the smaller side. */
  lemma ClampIdempotent(x: real, y: real, w: real, h: real, r: real)
    requires r >= MinHalf(w, h)
    ensures RectCommands(w, h, r) == RectCommands(w, h, MinHalf(w, h))
    ensures RectPoints(x, y, w, h, r) == RectPoints(x, y, w, h, MinHalf(w, h))
  {
  }

  /** A non-degenerate square whose clamped radius is half its side is the
      ellipse inscribed in it. */
  lemma InscribedIsCircle(x: real, y: real, w: real, h: real, r: real)
    requires w == h && w != 0.0 && ClampRadius(w, h, r) * 2.0 == w
    ensures RectCommands(w, h, r) == CircleCommands()
    ensures RectPoints(x, y, w, h, r) ==
      CirclePoints(x + w * 0.5, y + h * 0.5, ClampRadius(w, h, r), ClampRadius(w, h, r))
  {
  }

  /** The general rounded rectangle: 10 commands over 17 points, starting
      and ending at (x + c, y), with corner control points offset from the
      corner's end points by half the clamped radius c. */
  lemma RoundedRectShape(x: real, y: real, w: real, h: real, r: real)
    requires KindOf(w, h, r) == Rounded
    ensures var c, p := ClampRadius(w, h, r), RectPoints(x, y, w, h, r);
      && RectCommands(w, h, r) == [MoveTo, LineTo, CubicTo, LineTo, CubicTo, LineTo, CubicTo, LineTo, CubicTo, Close]
      && |p| == 17
      && p[0] == Point(x + c, y) && p[16] == p[0]
      && p[2] == Point(p[1].x + c * 0.5, p[1].y) && p[3] == Point(p[4].x, p[4].y - c * 0.5)
      && p[6] == Point(p[5].x, p[5].y + c * 0.5) && p[7] == Point(p[8].x + c * 0.5, p[8].y)
      && p[10] == Point(p[9].x - c * 0.5, p[9].y) && p[11] == Point(p[12].x, p[12].y + c * 0.5)
      && p[14] == Point(p[13].x, p[13].y - c * 0.5) && p[15] == Point(p[16].x - c * 0.5, p[16].y)
  {
  }

  /** A rounded outline whose radius fits the sides stays inside its rectangle. */
  lemma RoundedInsideBox(x: real, y: real, w: real, h: real, c: real)
    requires 0.0 <= c && c * 2.0 <= w && c * 2.0 <= h
    ensures Encloses(RoundedRectPoints(x, y, w, h, c), Box(x, y, w, h))
  {
    var p, b := RoundedRectPoints(x, y, w, h, c), Box(x, y, w, h);
    forall i | 0 <= i < |p|
      ensures b.x <= p[i].x <= b.x + b.w && b.y <= p[i].y <= b.y + b.h
    {
    }
  }

  /** The ellipse inscribed in a square of side 2c stays inside the square. */
  lemma InscribedInsideBox(x: real, y: real, w: real, h: real, c: real)
    requires 0.0 <= c && c * 2.0 == w && w == h
    ensures Encloses(CirclePoints(x + w * 0.5, y + h * 0.5, c, c), Box(x, y, w, h))
  {
    var cx, cy := x + w * 0.5, y + h * 0.5;
    CircleBounds(cx, cy, c, c);
    assert Box(cx - c, cy - c, 2.0 * c, 2.0 * c) == Box(x, y, w, h);
  }

  /** With non-negative sides and radius, every point a rectangle request
      appends, control points included, lies inside the requested rectangle. */
  lemma RectInsideBox(x: real, y: real, w: real, h: real, r: real)
    requires w >= 0.0 && h >= 0.0 && r >= 0.0
    ensures Encloses(RectPoints(x, y, w, h, r), Box(x, y, w, h))
  {
    var c, k := ClampRadius(w, h, r), KindOf(w, h, r);
    if k == Plain {
      assert RectPoints(x, y, w, h, r) == PlainRectPoints(x, y, w, h);
    } else if k == Inscribed {
      assert RectPoints(x, y, w, h, r) == CirclePoints(x + w * 0.5, y + h * 0.5, c, c);
      InscribedInsideBox(x, y, w, h, c);
    } else {
      assert RectPoints(x, y, w, h, r) == RoundedRectPoints(x, y, w, h, c);
      RoundedInsideBox(x, y, w, h, c);
    }
  }

  /** Whatever the case, a rectangle's commands consume exactly its points. */
  lemma RectWellFormed(x: real, y: real, w: real, h: real, r: real)
    ensures PointsConsumed(RectCommands(w, h, r)) == |RectPoints(x, y, w, h, r)|
  {
    PrimitiveCommandArity();
  }
}
