# thorvg Shape and Scene: a Dafny model

This project models the geometry-building and attribute-state core of
thorvg's `Shape`, and the child-list management of its `Scene`.

- **Path** (`path.dfy`, module `PathModel`): the command stream over
  {MoveTo, LineTo, CubicTo, Close} and the point stream a shape owns.
  MoveTo and LineTo take one point, CubicTo three and Close none.
  `Path.Valid()` is the invariant that the commands consume exactly the
  points in the buffer. Every edit appends its command at the end of the
  command buffer and its points, if any, at the end of the point buffer;
  Close appends no point.
  `Bounds` is a min/max fold over the points and fails on an empty path.
- **Primitive geometry** (`primitives.dfy`, module `Primitives`): pure
  functions giving the exact commands and points that `appendCircle` and
  `appendRect` emit. `appendCircle` emits four quarter arcs whose control
  points sit κ times the radius from the axes; κ is the constant
  `Primitives.Kappa`, the value 0.552284 of `PATH_KAPPA`
  (src/lib/tvgShape.cpp:26).
  `appendRect` clamps the corner radius, then emits a plain rectangle, the
  inscribed ellipse, or a rounded rectangle whose corner controls are offset
  by `radius * 0.5`. The lemmas state the promised shapes, bounds, clamp
  idempotence, the circle special case and that the outline stays inside
  the requested rectangle.
- **Shape** (`shape.dfy`, module `Shapes`): a class holding the path, a
  four-channel colour array, the scale, the rotation and the dirty-flag set
  over {Path, Fill, Transform}. Each method states exactly what it appends,
  which flag it ORs in and that nothing else changes. `Scale` refuses a
  near-zero or an unchanged factor, and `Rotate` refuses an unchanged angle;
  a refused request touches no state.
- **Scene** (`scene.dfy`, module `Scenes`): a class holding the ordered list
  of child paints. `Push` appends a child at the end and refuses a null one.
  `Reserve` does not change the list. Scale, rotate, translate and bounds turn
  the outcome of the scene's own transform or bounds computation into a
  result code.
- **Client properties** (`properties.dfy`, module `ShapeProperties`): what a
  caller observes after a sequence of calls on a shape. Examples: the bounds
  of a fresh rectangle or ellipse, a bounds query after a reset, and reading a
  colour back after setting it.

Coordinates are `real`. Single-precision machine epsilon, `FLT_EPSILON` in
src/lib/tvgShape.cpp:250 and 264, is the constant `Shapes.FloatEpsilon` (2^-23). Dirty flags are a `set<RenderUpdateFlag>`, so
`flag |= X` is a set union.

## Model

| member | source | states |
|---|---|---|
| `PathModel.Arity` | src/lib/tvgShape.cpp:101-150 | a command takes at most 3 points, and takes none exactly when it is Close |
| `PathModel.PointsConsumedAppend` | src/lib/tvgShape.cpp:92-93 | the points consumed by concatenated command streams add up, so appending agreeing streams keeps the path consistent |
| `PathModel.BoundingBoxUnique` | src/lib/tvgShape.cpp:273-281 | a point set has at most one bounding box, so the reported bounds depend on the points alone |
| `PathModel.Path.constructor` | src/lib/tvgShape.cpp:33-35 | a new path is empty and consistent |
| `PathModel.Path.Reset` | src/lib/tvgShape.cpp:54 | reset empties both buffers |
| `PathModel.Path.MoveTo` | src/lib/tvgShape.cpp:106 | appends MoveTo and its one point and keeps the path consistent |
| `PathModel.Path.LineTo` | src/lib/tvgShape.cpp:119 | appends LineTo and its one point and keeps the path consistent |
| `PathModel.Path.CubicTo` | src/lib/tvgShape.cpp:132 | appends CubicTo and its two control points and end point, in order, and keeps the path consistent |
| `PathModel.Path.Close` | src/lib/tvgShape.cpp:145 | appends Close and no point |
| `PathModel.Path.Append` | src/lib/tvgShape.cpp:92-93 | appends agreeing command and point streams after the existing ones |
| `PathModel.Path.Bounds` | src/lib/tvgShape.cpp:278 | reports no box exactly when there are no points; otherwise the smallest box enclosing every point |
| `Primitives.MinHalf` | src/lib/tvgShape.cpp:181 | half the smaller side: twice it is at most each side and equals one of them |
| `Primitives.KindOf` | src/lib/tvgShape.cpp:184-195 | the branch priority: plain exactly when the clamped radius is 0; otherwise the inscribed ellipse exactly when the rectangle is a non-degenerate square and the radius clamped to half its side; otherwise rounded |
| `Primitives.CirclePoints` | src/lib/tvgShape.cpp:158-166 | the ellipse's 13 points start at the top, (cx, cy − rh), and the last one returns there |
| `Primitives.PlainRectPoints` | src/lib/tvgShape.cpp:187-190 | four corners from (x, y) to the opposite corner (x + w, y + h), each edge parallel to an axis |
| `Primitives.RoundedRectPoints` | src/lib/tvgShape.cpp:196-206 | 17 points starting and ending at (x + c, y); the top, right, bottom and left straight edges lie on y, x + w, y + h and x |
| `Primitives.RectCommands` | src/lib/tvgShape.cpp:184-207 | every case appends one subpath: MoveTo first, Close last, only LineTo and CubicTo between |
| `Primitives.RectPoints` | src/lib/tvgShape.cpp:184-207 | 4, 13 or 17 points; the ellipse and the rounded outline end where they start |
| `Primitives.ClampRadius` | src/lib/tvgShape.cpp:180-182 | the clamped radius is the smaller of the requested radius and half the smaller side |
| `Primitives.PrimitiveCommandArity` | src/lib/tvgShape.cpp:161-207 | the ellipse's 6 commands take 13 points, the plain rectangle's 5 commands take 4 and the rounded rectangle's 10 commands take 17 |
| `Primitives.CircleWellFormed` | src/lib/tvgShape.cpp:161-167 | the ellipse is 6 commands over 13 points, and the commands consume exactly those points |
| `Primitives.CircleTraversal` | src/lib/tvgShape.cpp:162-166 | the ellipse starts at (cx, cy − rh), ends its first three arcs at the right, bottom and left extremes, and ends its last arc back at the start; the first arc's control points are (cx + κ·rw, cy − rh) on the top tangent and (cx + rw, cy − κ·rh) on the right one |
| `Primitives.CircleSymmetricVertical` | src/lib/tvgShape.cpp:162-166 | the ellipse is mirror symmetric about the vertical line through the centre: point i mirrors point 12 − i |
| `Primitives.CircleSymmetricHorizontal` | src/lib/tvgShape.cpp:162-164 | the ellipse is mirror symmetric about the horizontal line through the centre: on the first half, point i mirrors point 6 − i |
| `Primitives.CircleBounds` | src/lib/tvgShape.cpp:158-167 | for non-negative radii the ellipse's bounding box is (cx − rw, cy − rh, 2rw, 2rh) |
| `Primitives.PlainExactly` | src/lib/tvgShape.cpp:181-185 | the plain rectangle is chosen if and only if the radius is 0 with a non-negative smaller side, or a positive radius clamps to 0 |
| `Primitives.PlainRectShape` | src/lib/tvgShape.cpp:185-191 | a radius that clamps to 0 gives [Move, Line, Line, Line, Close] over (x,y), (x+w,y), (x+w,y+h), (x,y+h), in that order |
| `Primitives.PlainRectBounds` | src/lib/tvgShape.cpp:185-191 | for non-negative sides the plain rectangle's bounding box is (x, y, w, h) |
| `Primitives.ClampIdempotent` | src/lib/tvgShape.cpp:180-182 | any radius at or above min(w,h)/2 gives the same commands and points as exactly min(w,h)/2 |
| `Primitives.InscribedIsCircle` | src/lib/tvgShape.cpp:193-194 | a square of non-zero side whose clamped radius is half the side gives exactly the ellipse centred at (x+w/2, y+h/2) with that radius |
| `Primitives.RoundedRectShape` | src/lib/tvgShape.cpp:196-207 | the general case gives [Move, (Line, Cubic)×4, Close] over 17 points; it starts and ends at (x+c, y), and every corner control point lies on the tangent at its end point, c·0.5 from it along that edge |
| `Primitives.RoundedInsideBox` | src/lib/tvgShape.cpp:196-206 | a rounded outline whose radius is non-negative and at most half of each side has every point, control points included, inside (x, y, w, h) |
| `Primitives.InscribedInsideBox` | src/lib/tvgShape.cpp:193-194 | the ellipse inscribed in a square of side 2c lies inside that square |
| `Primitives.RectInsideBox` | src/lib/tvgShape.cpp:175-208 | for non-negative sides and radius, every point a rectangle request appends lies inside the requested rectangle (x, y, w, h) |
| `Primitives.RectWellFormed` | src/lib/tvgShape.cpp:184-208 | in every case the rectangle's commands consume exactly its points |
| `Shapes.ScaleRejected` | src/lib/tvgShape.cpp:250 | a scale request is refused exactly when the factor lies strictly within ε of 0 or within ε (inclusive) of the current scale |
| `Shapes.RotateRejected` | src/lib/tvgShape.cpp:264 | a rotation request is refused exactly when the angle lies within ε (inclusive) of the current rotation; nearness to 0 plays no part |
| `Shapes.RepeatRejected` | src/lib/tvgShape.cpp:250-264 | re-applying the stored scale or rotation is refused, and so is a zero scale |
| `Shapes.Shape.constructor` | src/lib/tvgShape.cpp:33-35 | a new shape has an empty path, colour (0,0,0,0), scale 1, rotation 0 and no dirty flag |
| `Shapes.Shape.Reset` | src/lib/tvgShape.cpp:49-59 | empties the path, ORs in Path, leaves colour, scale and rotation alone, returns 0 |
| `Shapes.Shape.PathCommands` | src/lib/tvgShape.cpp:62-70 | returns the command buffer and its length, whose commands consume exactly the point buffer |
| `Shapes.Shape.PathCoords` | src/lib/tvgShape.cpp:73-81 | returns the point buffer and its length, which equals the points the commands consume |
| `Shapes.Shape.AppendPath` | src/lib/tvgShape.cpp:84-98 | appends agreeing streams after the existing path, ORs in Path, leaves everything else alone, returns 0 |
| `Shapes.Shape.MoveTo` | src/lib/tvgShape.cpp:101-111 | appends MoveTo and (x, y), ORs in Path, leaves everything else alone |
| `Shapes.Shape.LineTo` | src/lib/tvgShape.cpp:114-124 | appends LineTo and (x, y), ORs in Path, leaves everything else alone |
| `Shapes.Shape.CubicTo` | src/lib/tvgShape.cpp:127-137 | appends CubicTo and its three points, ORs in Path, leaves everything else alone |
| `Shapes.Shape.Close` | src/lib/tvgShape.cpp:140-150 | appends Close and no point, ORs in Path, leaves everything else alone |
| `Shapes.Shape.AppendCircle` | src/lib/tvgShape.cpp:153-172 | appends the ellipse's 6 commands and 13 points after the existing path, ORs in Path, leaves everything else alone |
| `Shapes.Shape.AppendRect` | src/lib/tvgShape.cpp:175-213 | appends the clamped rectangle's commands and points (plain, inscribed ellipse or rounded), ORs in Path, leaves everything else alone |
| `Shapes.Shape.EmitPlainRect` | src/lib/tvgShape.cpp:185-191 | the plain branch appends the four corners clockwise from (x, y), then Close |
| `Shapes.Shape.EmitRoundedRect` | src/lib/tvgShape.cpp:196-207 | the rounded branch appends the 10 commands and 17 points of the rounded outline |
| `Shapes.Shape.EmitRoundedFirstHalf` | src/lib/tvgShape.cpp:198-202 | appends the first 5 commands and 9 points of the rounded outline: top edge, top-right corner, right edge, bottom-right corner |
| `Shapes.Shape.EmitRoundedSecondHalf` | src/lib/tvgShape.cpp:203-207 | appends the last 5 commands and 8 points: bottom edge, bottom-left corner, left edge, top-left corner, then Close |
| `Shapes.Shape.Fill` | src/lib/tvgShape.cpp:216-228 | overwrites all four channels, ORs in Fill, leaves path, scale and rotation alone |
| `Shapes.Shape.GetFill` | src/lib/tvgShape.cpp:231-242 | returns the four channels in red, green, blue, alpha order |
| `Shapes.Shape.Scale` | src/lib/tvgShape.cpp:245-256 | returns −1 and changes nothing when abs(f) < ε or abs(f − scale) ≤ ε; otherwise stores f, ORs in Transform and returns 0 |
| `Shapes.Shape.Rotate` | src/lib/tvgShape.cpp:259-270 | returns −1 and changes nothing when abs(d − rotate) ≤ ε; otherwise stores d, ORs in Transform and returns 0 |
| `Shapes.Shape.Bounds` | src/lib/tvgShape.cpp:273-281 | returns −1 and no box exactly when the path has no points; otherwise returns 0 and the bounding box of the points |
| `Shapes.Shape.GetScale` | src/lib/tvgShape.cpp:284-290 | returns the stored scale |
| `Shapes.Shape.GetRotate` | src/lib/tvgShape.cpp:293-299 | returns the stored rotation |
| `ShapeProperties.PlainRectBoundsExact` | src/lib/tvgShape.cpp:185-191 | on a new shape, a radius-0 rectangle with non-negative sides reports exactly (x, y, w, h) as its bounds |
| `ShapeProperties.CircleBoundsExact` | src/lib/tvgShape.cpp:153-172 | on a new shape, an ellipse with non-negative radii reports exactly (cx − rw, cy − rh, 2rw, 2rh) as its bounds |
| `ShapeProperties.ResetThenBounds` | src/lib/tvgShape.cpp:49-59 | after a reset, a bounds query fails on every shape, whatever geometry it held |
| `ShapeProperties.FillThenGetFill` | src/lib/tvgShape.cpp:216-242 | reading the colour back after setting it returns the colour that was set; only Fill is ORed in and the path is untouched |
| `ShapeProperties.ScaleTwice` | src/lib/tvgShape.cpp:245-256 | setting the same scale twice: the second call is refused and ORs in no further flag |
| `Scenes.Scene.constructor` | src/lib/tvgScene.cpp:26-29 | a new scene has no children |
| `Scenes.Scene.Push` | src/lib/tvgScene.cpp:43-53 | a null child is refused with MemoryCorruption and the list is unchanged; otherwise the child is appended at the end and the result is Success |
| `Scenes.Scene.Reserve` | src/lib/tvgScene.cpp:56-64 | always Success; it has no modifies clause, so the child list is unchanged |
| `Scenes.Scene.Scale` | src/lib/tvgScene.cpp:67-75 | Success exactly when the scene's transform update succeeded, FailedAllocation otherwise |
| `Scenes.Scene.Rotate` | src/lib/tvgScene.cpp:78-86 | Success exactly when the scene's transform update succeeded, FailedAllocation otherwise |
| `Scenes.Scene.Translate` | src/lib/tvgScene.cpp:89-97 | Success exactly when the scene's transform update succeeded, FailedAllocation otherwise |
| `Scenes.Scene.Bounds` | src/lib/tvgScene.cpp:100-108 | InsufficientCondition and no box exactly when the scene's bounds computation reported nothing; otherwise Success and that box |

## Left out

- Floating point: coordinates, scale and rotation are exact reals. `FLT_EPSILON` is
  the exact value 2^-23. The single-precision `0.552284f` and the double-precision
  `cornerRadius * 0.5` are plain reals. The exact `==` tests in `appendRect`
  therefore compare exact values and ignore rounding.
- The path class and `Path::bounds` live in src/lib/tvgShapeImpl.h, outside
  the modelled files. The path is modelled as two sequences that the edits
  extend. `Path::bounds` is taken to be the min/max fold over the points,
  failing when there are none.
- Shapes.Shape.constructor: the initial colour, scale, rotation and flags come
  from the shape implementation record in src/lib/tvgShapeImpl.h, outside the
  modelled files. The model takes them as colour 0, scale 1, rotation 0 and
  no flags.
- `Path::grow`, `reserve` capacity, `unique_ptr`/`make_unique`, `gen()` and
  destructors are allocation matters with no effect on contents, so they are not
  modelled. Ownership and transitive destruction of a scene's children are not
  modelled either: the model does not check that a child is pushed into only
  one scene.
- Shapes.Shape.AppendPath: it requires the two streams to agree on the point
  count. The source copies inconsistent streams without a check, and the
  model does not cover that. The source's `cmdCnt < 0 || ptsCnt < 0` branch is
  unreachable on unsigned `size_t`; the model follows the code.
- The `assert` checks on the implementation pointer and on null output
  pointers are not modelled. Neither are the `if (!impl)` guards that return
  MemoryCorruption in the scene: the implementation record always exists for a
  constructed object.
- Shapes.Shape.GetFill returns all four channels. The source skips writing any
  channel whose output pointer is null; that choice belongs to the caller.
- Colour channels are `nat`: `size_t` wrap-around is not modelled.
- Scenes.Scene.Scale, Scenes.Scene.Rotate, Scenes.Scene.Translate and
  Scenes.Scene.Bounds take the outcome of the scene's own transform update or
  bounds union as an input. That code is in the scene's implementation record,
  outside the modelled files, so the model does not capture how a transform propagates to children or how child boxes are
  unioned.
- The scene's paint identifier set in its constructor is not modelled: its
  value is defined outside the modelled files.
- Primitives.InscribedIsCircle requires a non-zero side. For w = h = 0 the
  radius clamps to 0, so the plain-rectangle case takes priority and no
  ellipse is emitted.
- Shapes.Shape.PathCommands and Shapes.Shape.PathCoords return a copy of the
  buffer. The source hands out a pointer into the live buffer, so later edits
  show through it and a reallocation in `grow` can leave it dangling; the model
  does not capture that aliasing.
