/** The rectangular probe volume of a character (CasterDimensions, CharaCasterDimensions):
    its dimension record, the world-space sample points derived from the body's anchor
    position, and the component that holds, replaces, reverts and ramps the record. */
module CasterGeometry {
  import opened Num

  /** Where the body's anchor point sits on the box, vertically. */
  datatype VerticalOrigin = Bottom | Middle | Top

  /** The dimension record: half-extents, vertical anchor, and the vertical offset of the
      "mid" sample row together with the anchor that offset is relative to. */
  datatype CasterDimensions = CasterDimensions(
    extents: Vec2,
    dimensionsOrigin: VerticalOrigin,
    midpointOffset: real,
    midpointOffsetOrigin: VerticalOrigin)
  {
    /** Width and height of the box. */
    function Size(): Vec2 { extents.Scale(2.0) }
  }

  /** `new CasterDimensions(size, boxOrigin)`: no midpoint offset, relative to the middle. */
  function FromSize(size: Vec2, boxOrigin: VerticalOrigin): (d: CasterDimensions)
    ensures d.Size() == size
    ensures d.dimensionsOrigin == boxOrigin
    ensures d.midpointOffset == 0.0 && d.midpointOffsetOrigin == Middle
  {
    CasterDimensions(size.Scale(0.5), boxOrigin, 0.0, Middle)
  }

  /** `new CasterDimensions(size, verticalMidpointOffset, verticalMidpointOrigin, boxOrigin)`. */
  function FromSizeWithMidpoint(size: Vec2, offset: real, offsetOrigin: VerticalOrigin,
                                boxOrigin: VerticalOrigin): (d: CasterDimensions)
    ensures d.Size() == size
    ensures d.dimensionsOrigin == boxOrigin
    ensures d.midpointOffset == offset && d.midpointOffsetOrigin == offsetOrigin
  {
    CasterDimensions(size.Scale(0.5), boxOrigin, offset, offsetOrigin)
  }

  /** The design-time default: a 0.75 × 1.5 box anchored at its bottom. */
  const DEFAULT_DIMENSIONS: CasterDimensions := FromSize(Vec2(0.75, 1.5), Bottom)

  /** A dimension record placed at the body's world position (transform.position.xy). */
  datatype Caster = Caster(dimensions: CasterDimensions, position: Vec2)

  /** Fraction of the box height at which the anchor sits above the box's floor. */
  function AnchorFraction(o: VerticalOrigin): real
  {
    match o
    case Bottom => 0.0
    case Middle => 0.5
    case Top => 1.0
  }

  /** The box's half-width minus the skin on the side the half-width points to
      (hSkinWidthed applied to the extents). */
  function InnerHalfWidth(c: Caster, sw: real): real
  {
    var ex := c.dimensions.extents.x;
    ex - sw * (Sign(ex) as real)
  }

  /** Shift `input` horizontally by the skin-reduced half-width, towards the sign of `side`. */
  function SidePoint(c: Caster, input: Vec2, side: int, sw: real): (p: Vec2)
    ensures p.y == input.y
    ensures p.x == input.x + (SignOf(side) as real) * InnerHalfWidth(c, sw)
    ensures side == 0 ==> p == input
  {
    var ex := c.dimensions.extents;
    var skinned := Vec2(ex.x - sw * (Sign(ex.x) as real), ex.y);
    input.Plus(Vec2(skinned.x * (SignOf(side) as real), skinned.y * 0.0))
  }

  /** Bottom-centre sample point, raised by the skin width. */
  function BottomCenter(c: Caster, sw: real): (p: Vec2)
    ensures p.x == c.position.x
    ensures p.y - sw + AnchorFraction(c.dimensions.dimensionsOrigin) * c.dimensions.Size().y
            == c.position.y
  {
    var d := c.dimensions;
    var drop := match d.dimensionsOrigin
      case Bottom => 0.0
      case Middle => d.extents.y
      case Top => d.Size().y;
    Vec2(c.position.x, c.position.y - drop + sw)
  }

  /** Middle of the box with no skin and no offset (_MidCenterUnaltered), for a box whose
      anchor sits at `position`: half the height above the floor the origin puts below it. */
  function MidCenterUnaltered(c: Caster, position: Vec2): (p: Vec2)
    ensures p.x == position.x
    ensures p.y == position.y + (0.5 - AnchorFraction(c.dimensions.dimensionsOrigin)) * c.dimensions.Size().y
    ensures position == c.position ==>
              p.y == (BottomCenter(c, 0.0).y + TopCenter(c, 0.0).y) / 2.0
  {
    var d := c.dimensions;
    match d.dimensionsOrigin
    case Bottom => position.(y := position.y + d.extents.y)
    case Middle => position
    case Top => position.(y := position.y - d.extents.y)
  }

  /** Top-centre sample point, lowered by the skin width. */
  function TopCenter(c: Caster, sw: real): (p: Vec2)
    ensures p.x == c.position.x
    ensures p.y + sw - (1.0 - AnchorFraction(c.dimensions.dimensionsOrigin)) * c.dimensions.Size().y
            == c.position.y
    ensures p.y - BottomCenter(c, sw).y == c.dimensions.Size().y - 2.0 * sw
  {
    var d := c.dimensions;
    var rise := match d.dimensionsOrigin
      case Bottom => d.Size().y
      case Middle => d.extents.y
      case Top => 0.0;
    Vec2(c.position.x, c.position.y + rise - sw)
  }

  /** Centre sample point of the "mid" row: the chosen anchor row, shifted by midpointOffset. */
  function MidCenter(c: Caster, sw: real): (p: Vec2)
    ensures p.x == c.position.x
    ensures c.dimensions.midpointOffsetOrigin == Bottom ==>
              p.y == BottomCenter(c, sw).y + c.dimensions.midpointOffset
    ensures c.dimensions.midpointOffsetOrigin == Top ==>
              p.y == TopCenter(c, sw).y + c.dimensions.midpointOffset
    ensures c.dimensions.midpointOffsetOrigin == Middle ==>
              p.y == (BottomCenter(c, 0.0).y + TopCenter(c, 0.0).y) / 2.0 + c.dimensions.midpointOffset
  {
    var center := Vec2(0.0, c.dimensions.midpointOffset);
    match c.dimensions.midpointOffsetOrigin
    case Bottom => center.Plus(BottomCenter(c, sw))
    case Middle => center.Plus(MidCenterUnaltered(c, c.position))
    case Top => center.Plus(TopCenter(c, sw))
  }

  function BottomRight(c: Caster, sw: real): (p: Vec2)
    ensures p.y == BottomCenter(c, sw).y
    ensures p.x == c.position.x + InnerHalfWidth(c, sw)
  {
    SidePoint(c, BottomCenter(c, sw), 1, sw)
  }

  function BottomLeft(c: Caster, sw: real): (p: Vec2)
    ensures p.y == BottomRight(c, sw).y
    ensures p.x + BottomRight(c, sw).x == 2.0 * BottomCenter(c, sw).x
  {
    SidePoint(c, BottomCenter(c, sw), -1, sw)
  }

  function MidRight(c: Caster, sw: real): (p: Vec2)
    ensures p.y == MidCenter(c, sw).y
    ensures p.x == c.position.x + InnerHalfWidth(c, sw)
  {
    SidePoint(c, MidCenter(c, sw), 1, sw)
  }

  function MidLeft(c: Caster, sw: real): (p: Vec2)
    ensures p.y == MidRight(c, sw).y
    ensures p.x + MidRight(c, sw).x == 2.0 * MidCenter(c, sw).x
  {
    SidePoint(c, MidCenter(c, sw), -1, sw)
  }

  function TopRight(c: Caster, sw: real): (p: Vec2)
    ensures p.y == TopCenter(c, sw).y
    ensures p.x == c.position.x + InnerHalfWidth(c, sw)
  {
    SidePoint(c, TopCenter(c, sw), 1, sw)
  }

  function TopLeft(c: Caster, sw: real): (p: Vec2)
    ensures p.y == TopRight(c, sw).y
    ensures p.x + TopRight(c, sw).x == 2.0 * TopCenter(c, sw).x
  {
    SidePoint(c, TopCenter(c, sw), -1, sw)
  }

  /** Centre of the collision box itself: halfway between the skin-free bottom-right and
      top-left corners. */
  function BoxEpicenter(c: Caster): (p: Vec2)
    ensures p.x == c.position.x
    ensures p.y == (BottomCenter(c, 0.0).y + TopCenter(c, 0.0).y) / 2.0
  {
    Lerp(BottomRight(c, 0.0), TopLeft(c, 0.0), 0.5)
  }

  /** A point of the bottom row; only the sign of `side` matters. */
  function BottomPoint(c: Caster, side: int, sw: real): (p: Vec2)
    ensures side == 0 ==> p == BottomCenter(c, sw)
    ensures side > 0 ==> p == BottomRight(c, sw)
    ensures side < 0 ==> p == BottomLeft(c, sw)
  {
    SidePoint(c, BottomCenter(c, sw), side, sw)
  }

  /** A point of the mid row; only the sign of `side` matters. */
  function MidPoint(c: Caster, side: int, sw: real): (p: Vec2)
    ensures side == 0 ==> p == MidCenter(c, sw)
    ensures side > 0 ==> p == MidRight(c, sw)
    ensures side < 0 ==> p == MidLeft(c, sw)
  {
    SidePoint(c, MidCenter(c, sw), side, sw)
  }

  /** A point of the top row; only the sign of `side` matters. */
  function TopPoint(c: Caster, side: int, sw: real): (p: Vec2)
    ensures side == 0 ==> p == TopCenter(c, sw)
    ensures side > 0 ==> p == TopRight(c, sw)
    ensures side < 0 ==> p == TopLeft(c, sw)
  {
    SidePoint(c, TopCenter(c, sw), side, sw)
  }

  /** The box occupies [floor, floor + height] vertically and [x − half-width, x + half-width]
      horizontally, with its floor placed so that the anchor sits where dimensionsOrigin says. */
  ghost predicate InBox(c: Caster, p: Vec2)
  {
    var d := c.dimensions;
    var floor := c.position.y - AnchorFraction(d.dimensionsOrigin) * d.Size().y;
    floor <= p.y <= floor + d.Size().y &&
    c.position.x - d.extents.x <= p.x <= c.position.x + d.extents.x
  }

  /** With non-negative extents and a skin no wider than either half-extent, every bottom and
      top sample point lies inside the box, for every anchor. */
  lemma {:induction false} RowPointsInsideBox(c: Caster, side: int, sw: real)
    requires 0.0 <= sw <= c.dimensions.extents.x
    requires sw <= c.dimensions.extents.y
    ensures InBox(c, BottomPoint(c, side, sw))
    ensures InBox(c, TopPoint(c, side, sw))
  {
    var ex := c.dimensions.extents.x;
    var s := SignOf(side) as real;
    assert 0.0 <= InnerHalfWidth(c, sw) <= ex by {
      if ex > 0.0 { assert Sign(ex) == 1; } else { assert ex == 0.0 && sw == 0.0; }
    }
    assert -ex <= s * InnerHalfWidth(c, sw) <= ex by {
      if side > 0 { assert s == 1.0; } else if side < 0 { assert s == -1.0; } else { assert s == 0.0; }
    }
  }

  /** The record shown `elapsed` seconds into a ramp from `from` to `to`: only the extents
      move, interpolated with the elapsed time clamped to [0, 1] as the factor. */
  function RampFrame(from: CasterDimensions, to: CasterDimensions, elapsed: real): (d: CasterDimensions)
    ensures d.dimensionsOrigin == from.dimensionsOrigin
    ensures d.midpointOffset == from.midpointOffset && d.midpointOffsetOrigin == from.midpointOffsetOrigin
    ensures elapsed <= 0.0 ==> d == from
    ensures elapsed >= 1.0 ==> d.extents == to.extents
  {
    from.(extents := Lerp(from.extents, to.extents, Clamp(elapsed, 0.0, 1.0)))
  }

  /** A step count whose elapsed time is still short of `t` is at most ⌊t / dt⌋. */
  lemma StepsBelowBound(n: nat, dt: real, t: real)
    requires dt > 0.0
    requires (n as real) * dt < t
    ensures n <= (t / dt).Floor
  {
    assert (n as real) < t / dt;
  }

  /** The character's dimension component. `position` is the world position of its transform,
      written by the engine. */
  class CharaCasterDimensions {
    var dimensions: CasterDimensions
    var initialDimensions: CasterDimensions
    var position: Vec2

    /** The current record placed at the current position. */
    function Box(): Caster
      reads this
    {
      Caster(dimensions, position)
    }

    /** Field initialiser followed by Awake: both records start as the default. */
    constructor (position: Vec2)
      ensures initialDimensions == DEFAULT_DIMENSIONS
      ensures dimensions == initialDimensions
      ensures this.position == position
    {
      initialDimensions := DEFAULT_DIMENSIONS;
      dimensions := DEFAULT_DIMENSIONS;
      this.position := position;
    }

    /** Replace the whole record at once. */
    method SetDimensions(newDimensions: CasterDimensions)
      modifies this`dimensions
      ensures dimensions == newDimensions
    {
      dimensions := newDimensions;
    }

    /** Go back to the record the component started with. */
    method RevertDimensions()
      modifies this`dimensions
      ensures dimensions == initialDimensions
    {
      dimensions := initialDimensions;
    }

    /** The ramp coroutine, one loop turn per fixed tick: the extents are interpolated from the
        starting record towards the new one with the clamped elapsed time as the factor; every
        other part of the record is only replaced when the ramp ends. `frames` lists the record
        as it stands at each yield. */
    method SetDimensionsGradual(newDimensions: CasterDimensions, timeToComplete: real,
                                fixedDeltaTime: real)
      returns (ghost frames: seq<CasterDimensions>)
      requires fixedDeltaTime > 0.0
      modifies this`dimensions
      ensures dimensions == newDimensions
      ensures |frames| == 0 || ((|frames| - 1) as real) * fixedDeltaTime < timeToComplete
      ensures (|frames| as real) * fixedDeltaTime >= timeToComplete
      ensures forall k :: 0 <= k < |frames| ==>
                frames[k] == RampFrame(old(dimensions), newDimensions, (k as real) * fixedDeltaTime)
    {
      var originalDimensions := dimensions;
      frames := [];
      var i := 0.0;
      while i < timeToComplete
        invariant i == (|frames| as real) * fixedDeltaTime
        invariant |frames| == 0 || ((|frames| - 1) as real) * fixedDeltaTime < timeToComplete
        invariant forall k :: 0 <= k < |frames| ==>
                    frames[k] == RampFrame(originalDimensions, newDimensions, (k as real) * fixedDeltaTime)
        invariant dimensions == originalDimensions.(extents := dimensions.extents)
        decreases (timeToComplete / fixedDeltaTime).Floor - |frames|
      {
        ghost var n := |frames|;
        StepsBelowBound(n, fixedDeltaTime, timeToComplete);
        var extents := Lerp(originalDimensions.extents, newDimensions.extents, Clamp(i, 0.0, 1.0));
        dimensions := dimensions.(extents := extents);
        assert dimensions == RampFrame(originalDimensions, newDimensions, i);
        frames := frames + [dimensions];
        i := i + fixedDeltaTime;
        assert i == ((n + 1) as real) * fixedDeltaTime by {
          assert ((n + 1) as real) * fixedDeltaTime == (n as real) * fixedDeltaTime + fixedDeltaTime;
        }
      }
      dimensions := newDimensions;
    }
  }
}
