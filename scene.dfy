/** A scene: an ordered list of child paints it owns, drawn back to front,
    plus result-code wrappers over its transform and bounds operations. */
module Scenes {
  import Shapes
  import opened PathModel

  /** The result codes a scene operation reports. */
  datatype Result = Success | InsufficientCondition | FailedAllocation | MemoryCorruption

  /** A child of a scene: a shape or a nested scene. */
  datatype Paint = ShapePaint(shape: Shapes.Shape) | ScenePaint(scene: Scene)

  /** Unsigned 32-bit counts. */
  type uint32 = n: int | 0 <= n < 0x1_0000_0000

  class Scene {
    var paints: seq<Paint>

    constructor ()
      ensures paints == []
    {
      paints := [];
    }

    /** Takes a child at the back of the paint order. A missing (null) child
        is refused and the list is left as it was. */
    method Push(paint: Option<Paint>) returns (r: Result)
      modifies this
      ensures r == (if paint.None? then MemoryCorruption else Success)
      ensures paint.None? ==> paints == old(paints)
      ensures paint.Some? ==> paints == old(paints) + [paint.value]
    {
      if paint.None? {
        return MemoryCorruption;
      }
      paints := paints + [paint.value];
      r := Success;
    }

    /** A capacity hint: always succeeds and, having no modifies clause,
        leaves the child list unchanged. */
    method Reserve(size: uint32) returns (r: Result)
      ensures r == Success
    {
      r := Success;
    }

    /** Scales the scene; `applied` is whether the scene's own transform
        update succeeded. */
    method Scale(factor: real, applied: bool) returns (r: Result)
      ensures r == Success <==> applied
      ensures !applied ==> r == FailedAllocation
    {
      if !applied {
        return FailedAllocation;
      }
      r := Success;
    }

    /** Rotates the scene; `applied` is whether the scene's own transform
        update succeeded. */
    method Rotate(degree: real, applied: bool) returns (r: Result)
      ensures r == Success <==> applied
      ensures !applied ==> r == FailedAllocation
    {
      if !applied {
        return FailedAllocation;
      }
      r := Success;
    }

    /** Translates the scene; `applied` is whether the scene's own transform
        update succeeded. */
    method Translate(x: real, y: real, applied: bool) returns (r: Result)
      ensures r == Success <==> applied
      ensures !applied ==> r == FailedAllocation
    {
      if !applied {
        return FailedAllocation;
      }
      r := Success;
    }

    /** Reports the union box of the children; `union` is what the scene's
        own bounds computation produced, None when it had nothing to report. */
    method Bounds(union: Option<PathModel.Box>) returns (r: Result, b: Option<PathModel.Box>)
      ensures r == Success <==> union.Some?
      ensures union.None? ==> r == InsufficientCondition && b.None?
      ensures union.Some? ==> b == union
    {
      if union.None? {
        return InsufficientCondition, None;
      }
      r, b := Success, union;
    }
  }
}
