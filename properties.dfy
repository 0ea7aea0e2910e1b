/** Client-level consequences of the Shape contracts: what a caller observes
    after a sequence of calls on a shape. */
module ShapeProperties {
  import opened PathModel
  import opened Primitives
  import opened Shapes

  /** A rectangle with radius 0 on a new shape reports (x, y, w, h) as its bounds. */
  method PlainRectBoundsExact(x: real, y: real, w: real, h: real) returns (r: int, b: Option<Box>)
    requires w >= 0.0 && h >= 0.0
    ensures r == 0 && b == Some(Box(x, y, w, h))
  {
    var shape := new Shape();
    var _ := shape.AppendRect(x, y, w, h, 0.0);
    assert shape.path.pts == RectPoints(x, y, w, h, 0.0);
    r, b := shape.Bounds();
    PlainRectBounds(x, y, w, h, 0.0);
    BoundingBoxUnique(shape.path.pts, b.value, Box(x, y, w, h));
  }

  /** An ellipse on a new shape reports (cx - rw, cy - rh, 2 rw, 2 rh) as its bounds. */
  method CircleBoundsExact(cx: real, cy: real, rw: real, rh: real) returns (r: int, b: Option<Box>)
    requires rw >= 0.0 && rh >= 0.0
    ensures r == 0 && b == Some(Box(cx - rw, cy - rh, 2.0 * rw, 2.0 * rh))
  {
    var shape := new Shape();
    var _ := shape.AppendCircle(cx, cy, rw, rh);
    assert shape.path.pts == CirclePoints(cx, cy, rw, rh);
    r, b := shape.Bounds();
    CircleBounds(cx, cy, rw, rh);
    BoundingBoxUnique(shape.path.pts, b.value, Box(cx - rw, cy - rh, 2.0 * rw, 2.0 * rh));
  }

  /** After a reset, a bounds query fails, whatever geometry the shape had. */
  method ResetThenBounds(shape: Shape) returns (r: int)
    requires shape.Valid()
    modifies shape, shape.path
    ensures r == -1
    ensures shape.path.cmds == [] && shape.flag == old(shape.flag) + {RenderUpdateFlag.Path}
  {
    var _ := shape.Reset();
    var b;
    r, b := shape.Bounds();
  }

  /** Setting a colour and reading it back returns the colour that was set,
      marks only Fill dirty and leaves the path alone. */
  method FillThenGetFill(shape: Shape, r: nat, g: nat, b: nat, a: nat)
    returns (r': nat, g': nat, b': nat, a': nat)
    requires shape.Valid()
    modifies shape, shape.color
    ensures (r', g', b', a') == (r, g, b, a)
    ensures shape.flag == old(shape.flag) + {RenderUpdateFlag.Fill}
    ensures shape.path.cmds == old(shape.path.cmds) && shape.path.pts == old(shape.path.pts)
  {
    var _ := shape.Fill(r, g, b, a);
    var status;
    r', g', b', a', status := shape.GetFill();
  }

  /** Setting the same scale twice: the second request is refused and leaves
      the dirty flags as the first one left them. */
  method ScaleTwice(shape: Shape, factor: real) returns (first: int, second: int)
    requires shape.Valid()
    modifies shape
    ensures second == -1
    ensures first == 0 ==> shape.scale == factor
    ensures shape.flag == old(shape.flag) + (if first == 0 then {RenderUpdateFlag.Transform} else {})
  {
    first := shape.Scale(factor);
    second := shape.Scale(factor);
    RepeatRejected(factor, 0.0, factor);
  }
}
