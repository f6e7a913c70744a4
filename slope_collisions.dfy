/** PlatformerSlopeCollisions: the slope the character is on this step, the angle it had last
    step, the slope's normal, and how the character moves relative to it. */
module SlopeContacts {
  import opened Num

  /** SlopeDirection. */
  datatype SlopeDirection = None | Climbing | Descending | SlidingDown

  /** The component's four properties as one value. */
  datatype SlopeState = SlopeState(angle: real, lastAngle: real, normal: Vec2,
                                   directionOnSlope: SlopeDirection)
  {
    /** slidingDownMax. */
    predicate SlidingDownMax() { directionOnSlope == SlidingDown }
  }

  /** The state Clear leaves, which is also the state of a new component. */
  const ClearedSlope := SlopeState(0.0, 0.0, Zero2, None)

  /** The slope-state component. */
  class PlatformerSlopeCollisions {
    var angle: real
    var lastAngle: real
    var normal: Vec2
    var directionOnSlope: SlopeDirection

    function Snapshot(): SlopeState
      reads this
    {
      SlopeState(angle, lastAngle, normal, directionOnSlope)
    }

    constructor ()
      ensures Snapshot() == ClearedSlope
    {
      angle, lastAngle, normal, directionOnSlope := 0.0, 0.0, Zero2, None;
    }

    predicate SlidingDownMax()
      reads this
      ensures SlidingDownMax() <==> Snapshot().SlidingDownMax()
      ensures SlidingDownMax() ==> directionOnSlope != Climbing && directionOnSlope != Descending
    {
      directionOnSlope == SlidingDown
    }

    /** Angles and normal to zero, direction to None. */
    method Clear()
      modifies this
      ensures Snapshot() == ClearedSlope
      ensures !SlidingDownMax()
    {
      lastAngle := 0.0;
      angle := lastAngle;
      normal := Zero2;
      directionOnSlope := None;
    }
  }
}
