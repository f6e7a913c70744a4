/** RaycastSlopeCollider2D: the rules that bend the pending displacement along a slope (climbing
    one met by the horizontal sweep, descending one found below the character) and the corrections
    that keep the character from jittering against walls and ceilings or catching on the joint
    between two slopes. Every rule is stated on values first; the component's methods apply them
    to the displacement they are handed and to the slope-state component. */
module SlopeCollider {
  import opened Num
  import opened Physics
  import opened SlopeContacts
  import opened CasterGeometry

  /** maxSlopeAngle's inspector range. */
  type SlopeLimit = r: real | 0.0 <= r <= 90.0 witness 45.0

  /** A displacement, a slope state and the boolean a rule returns. */
  datatype Outcome = Outcome(velocity: Vec2, slope: SlopeState, result: bool)

  /** A displacement and a slope state. */
  datatype Adjusted = Adjusted(velocity: Vec2, slope: SlopeState)

  /** The climbing rise for a horizontal move `x` along a slope of `slopeAngle` degrees. */
  function ClimbRise(trig: Trig, slopeAngle: real, x: real): real
  {
    trig.sin(slopeAngle) * Abs(x)
  }

  /** DoClimb: a move that already rises more than the slope would is a jump, and is left alone;
      any other move is bent onto the slope, which becomes the recorded climbing slope. */
  function DoClimbRule(trig: Trig, moveAmount: Vec2, s: SlopeState, slopeAngle: real, slopeNormal: Vec2)
    : (r: Outcome)
    ensures r.result ==> r.slope.directionOnSlope == Climbing && r.slope.angle == slopeAngle &&
                         r.slope.normal == slopeNormal && r.slope.lastAngle == s.lastAngle
    ensures r.result ==> r.velocity.y == ClimbRise(trig, slopeAngle, moveAmount.x)
    ensures !r.result ==> r.velocity == moveAmount && r.slope == s
  {
    var climbY := trig.sin(slopeAngle) * Abs(moveAmount.x);
    if moveAmount.y > climbY then Outcome(moveAmount, s, false)
    else
      Outcome(Vec2(trig.cos(slopeAngle) * moveAmount.x, climbY),
              s.(directionOnSlope := Climbing, angle := slopeAngle, normal := slopeNormal), true)
  }

  /** A climb is taken exactly when the move does not rise faster than the slope; then x is
      scaled by the cosine, y is the slope's rise for that x, and the slope is recorded as
      climbed; otherwise nothing changes. */
  lemma DoClimbFacts(trig: Trig, moveAmount: Vec2, s: SlopeState, slopeAngle: real, slopeNormal: Vec2)
    ensures var o := DoClimbRule(trig, moveAmount, s, slopeAngle, slopeNormal);
            (o.result <==> moveAmount.y <= ClimbRise(trig, slopeAngle, moveAmount.x)) &&
            (!o.result ==> o.velocity == moveAmount && o.slope == s)
    ensures var o := DoClimbRule(trig, moveAmount, s, slopeAngle, slopeNormal);
            o.result ==> o.velocity == Vec2(trig.cos(slopeAngle) * moveAmount.x,
                                            ClimbRise(trig, slopeAngle, moveAmount.x)) &&
                         o.slope == s.(directionOnSlope := Climbing, angle := slopeAngle, normal := slopeNormal)
  {
  }

  /** The stick-to-slope correction HandleClimbing applies: the gap to the slope, but only when
      the slope's angle differs from the one recorded last. */
  function ClimbCorrection(s: SlopeState, slopeAngle: real, hitDistance: real, skinWidth: real): real
  {
    if slopeAngle != s.lastAngle then hitDistance - skinWidth else 0.0
  }

  /** The displacement HandleClimbing starts from: last step's, when the character was
      descending (so it does not slow down in a V-shaped valley). */
  function ClimbStart(s: SlopeState, velocity: Vec2, velocityLastTime: Vec2): Vec2
  {
    if s.directionOnSlope == Descending then velocityLastTime else velocity
  }

  /** HandleClimbing: close the gap to the slope, climb, then restore the gap. */
  function HandleClimbingRule(trig: Trig, velocity: Vec2, velocityLastTime: Vec2, s: SlopeState,
                              hitNormal: Vec2, hitDistance: real, slopeAngle: real, skinWidth: real,
                              moveDirX: int): (r: Outcome)
    ensures r.result ==> r.slope == s.(directionOnSlope := Climbing, angle := slopeAngle, normal := hitNormal)
    ensures !r.result ==> r.slope == s
  {
    var start := ClimbStart(s, velocity, velocityLastTime);
    var distanceToSlopeStart := ClimbCorrection(s, slopeAngle, hitDistance, skinWidth);
    var climbed := DoClimbRule(trig, start.(x := start.x - distanceToSlopeStart * (moveDirX as real)), s,
                               slopeAngle, hitNormal);
    Outcome(climbed.velocity.(x := climbed.velocity.x + distanceToSlopeStart * (moveDirX as real)),
            climbed.slope, climbed.result)
  }

  /** A climb is accepted exactly when the corrected start does not already rise faster than the
      slope; a rejected climb leaves the displacement where it started (last step's when
      descending) and the slope state alone; an accepted one climbs from the corrected start,
      gives the correction back to x, and records the climbing slope. */
  lemma HandleClimbingFacts(trig: Trig, velocity: Vec2, velocityLastTime: Vec2, s: SlopeState,
                            hitNormal: Vec2, hitDistance: real, slopeAngle: real, skinWidth: real,
                            moveDirX: int)
    ensures var o := HandleClimbingRule(trig, velocity, velocityLastTime, s, hitNormal, hitDistance, slopeAngle,
                                        skinWidth, moveDirX);
            var start := ClimbStart(s, velocity, velocityLastTime);
            var d := ClimbCorrection(s, slopeAngle, hitDistance, skinWidth) * (moveDirX as real);
            (o.result <==> start.y <= ClimbRise(trig, slopeAngle, start.x - d)) &&
            (!o.result ==> o.velocity == start && o.slope == s)
    ensures var o := HandleClimbingRule(trig, velocity, velocityLastTime, s, hitNormal, hitDistance, slopeAngle,
                                        skinWidth, moveDirX);
            var start := ClimbStart(s, velocity, velocityLastTime);
            var d := ClimbCorrection(s, slopeAngle, hitDistance, skinWidth) * (moveDirX as real);
            o.result ==> o.velocity == Vec2(trig.cos(slopeAngle) * (start.x - d) + d,
                                            ClimbRise(trig, slopeAngle, start.x - d)) &&
                         o.slope == s.(directionOnSlope := Climbing, angle := slopeAngle, normal := hitNormal)
  {
    var start := ClimbStart(s, velocity, velocityLastTime);
    var d := ClimbCorrection(s, slopeAngle, hitDistance, skinWidth) * (moveDirX as real);
    var climbed := DoClimbRule(trig, start.(x := start.x - d), s, slopeAngle, hitNormal);
    DoClimbFacts(trig, start.(x := start.x - d), s, slopeAngle, hitNormal);
    HandleClimbingUnfolds(trig, velocity, velocityLastTime, s, hitNormal, hitDistance, slopeAngle, skinWidth,
                          moveDirX);
    if !climbed.result {
      assert climbed.velocity.x + d == start.x;
    }
  }

  /** HandleClimbingRule spelled out in its three steps. */
  lemma HandleClimbingUnfolds(trig: Trig, velocity: Vec2, velocityLastTime: Vec2, s: SlopeState,
                              hitNormal: Vec2, hitDistance: real, slopeAngle: real, skinWidth: real,
                              moveDirX: int)
    ensures var start := ClimbStart(s, velocity, velocityLastTime);
            var d := ClimbCorrection(s, slopeAngle, hitDistance, skinWidth);
            var climbed := DoClimbRule(trig, start.(x := start.x - d * (moveDirX as real)), s, slopeAngle, hitNormal);
            HandleClimbingRule(trig, velocity, velocityLastTime, s, hitNormal, hitDistance, slopeAngle,
                               skinWidth, moveDirX) ==
            Outcome(climbed.velocity.(x := climbed.velocity.x + d * (moveDirX as real)), climbed.slope, climbed.result)
  {
  }

  /** preventWallhugJitters: the rise is put back on the recorded slope's line. */
  function PreventWallhugJittersRule(trig: Trig, velocity: Vec2, s: SlopeState): (r: Vec2)
    ensures r.x == velocity.x
    ensures r.y == trig.tan(s.angle) * Abs(r.x)
    ensures trig.tan(s.angle) >= 0.0 ==> r.y >= 0.0
  {
    velocity.(y := trig.tan(s.angle) * Abs(velocity.x))
  }

  /** The direction whose side of the box a slope probe starts from: the sign of x, or right
      when x is zero. */
  function ProbeSide(x: real): (side: int)
    ensures side == 1 || side == -1
    ensures x != 0.0 ==> side == Sign(x)
  {
    var directionX := Sign(x);
    if directionX == 0 then 1 else directionX
  }

  /** TestDescending: no probe while sliding down a too-steep slope; otherwise an unbounded ray
      straight down from the bottom row, on the side the character moves towards. */
  function TestDescendingRule(world: World, s: SlopeState, moveAmount: Vec2, box: Caster,
                              collisionMask: Mask, skinWidth: real): (h: Hit)
    ensures s.SlidingDownMax() ==> h == NoHit
    ensures !s.SlidingDownMax() ==>
              h == world.Raycast(BottomPoint(box, ProbeSide(moveAmount.x), skinWidth), Vec2(0.0, -1.0),
                                 Unbounded, collisionMask)
  {
    if s.directionOnSlope == SlidingDown then NoHit
    else
      var rayOrigin := BottomPoint(box, ProbeSide(moveAmount.x), skinWidth);
      world.Raycast(rayOrigin, Vec2(0.0, -1.0), Unbounded, collisionMask)
  }

  /** The conditions under which DoDescendSlope bends the move down the slope: a tilted, walkable
      slope falling away in the direction of travel and no farther below than the move would
      descend. */
  predicate DescendAccepted(world: World, maxSlopeAngle: real, moveAmount: Vec2, skinWidth: real,
                            hitDistance: real, hitNormal: Vec2)
  {
    var slopeAngle := world.angleFromUp(hitNormal);
    slopeAngle != 0.0 && slopeAngle <= maxSlopeAngle &&
    Sign(hitNormal.x) == Sign(moveAmount.x) &&
    hitDistance - skinWidth <= world.trig.tan(slopeAngle) * Abs(moveAmount.x)
  }

  /** DoDescendSlope: both new components are computed from the unmodified x. */
  function DoDescendRule(world: World, maxSlopeAngle: real, moveAmount: Vec2, s: SlopeState,
                         skinWidth: real, hitDistance: real, hitNormal: Vec2): (o: Outcome)
    ensures o.result <==> DescendAccepted(world, maxSlopeAngle, moveAmount, skinWidth, hitDistance, hitNormal)
    ensures !o.result ==> o.velocity == moveAmount && o.slope == s
    ensures var a := world.angleFromUp(hitNormal);
            o.result ==> o.velocity == Vec2(world.trig.cos(a) * moveAmount.x,
                                            moveAmount.y - world.trig.sin(a) * Abs(moveAmount.x))
    ensures o.result ==> o.slope == s.(angle := world.angleFromUp(hitNormal), directionOnSlope := Descending,
                                       normal := hitNormal)
  {
    var slopeAngle := world.angleFromUp(hitNormal);
    if slopeAngle == 0.0 || slopeAngle > maxSlopeAngle then Outcome(moveAmount, s, false)
    else if Sign(hitNormal.x) != Sign(moveAmount.x) then Outcome(moveAmount, s, false)
    else
      var tangent := world.trig.tan(slopeAngle) * Abs(moveAmount.x);
      if hitDistance - skinWidth > tangent then Outcome(moveAmount, s, false)
      else
        var v := moveAmount.(y := moveAmount.y - world.trig.sin(slopeAngle) * Abs(moveAmount.x));
        var v' := v.(x := world.trig.cos(slopeAngle) * moveAmount.x);
        Outcome(v', s.(angle := slopeAngle, directionOnSlope := Descending, normal := hitNormal), true)
  }

  /** Whether PreventCeilingJitters rewrites x: climbing a slope that is not flat. */
  predicate CeilingCorrectionApplies(s: SlopeState)
  {
    s.directionOnSlope == Climbing && s.angle != 0.0
  }

  /** PreventCeilingJitters: while climbing, x is made to match the (clamped) rise along the
      slope, keeping its sign. The division is by tan of the recorded angle, which the caller
      guarantees is not zero when the correction applies. */
  function PreventCeilingJittersRule(trig: Trig, velocity: Vec2, s: SlopeState): (r: Vec2)
    requires CeilingCorrectionApplies(s) ==> trig.tan(s.angle) != 0.0
    ensures !CeilingCorrectionApplies(s) ==> r == velocity
    ensures r.y == velocity.y
  {
    if s.directionOnSlope == Climbing then
      if s.angle == 0.0 then velocity
      else velocity.(x := velocity.y / trig.tan(s.angle) * (Sign(velocity.x) as real))
    else velocity
  }

  /** When the correction applies, the new displacement lies on the slope line through the
      rise: x·tan(angle) is the rise with the sign of the old x, so a character that is not moving
      sideways stays put and the rise alone decides how far x goes. */
  lemma CeilingCorrectionFollowsSlope(trig: Trig, velocity: Vec2, s: SlopeState)
    requires CeilingCorrectionApplies(s) && trig.tan(s.angle) != 0.0
    ensures var r := PreventCeilingJittersRule(trig, velocity, s);
            r.x * trig.tan(s.angle) == velocity.y * (Sign(velocity.x) as real)
    ensures velocity.x == 0.0 ==> PreventCeilingJittersRule(trig, velocity, s) == velocity
  {
    var t := trig.tan(s.angle);
    var q := velocity.y / t;
    var k := Sign(velocity.x) as real;
    assert q * t == velocity.y;
    assert q * k * t == (q * t) * k;
  }

  /** The ray CounteractJointCatching casts: from the bottom row on the side of travel, raised
      by the pending rise, horizontally towards the side of travel, as far as |x + skin|. */
  function JointProbe(world: World, moveAmount: Vec2, skinWidth: real, collisionMask: Mask, box: Caster)
    : Hit
  {
    var directionX := Sign(moveAmount.x);
    var rayLength := Abs(moveAmount.x + skinWidth);
    var rayOrigin := BottomPoint(box, if directionX == 0 then 1 else directionX, skinWidth);
    world.Raycast(rayOrigin.(y := rayOrigin.y + moveAmount.y), Vec2(directionX as real, 0.0),
                  Upto(rayLength), collisionMask)
  }

  /** CounteractJointCatching: while climbing, a new slope met ahead replaces the recorded one and
      x is cut to reach it; anything else changes nothing. */
  function CounteractJointCatchingRule(world: World, moveAmount: Vec2, s: SlopeState, skinWidth: real,
                                       collisionMask: Mask, box: Caster): (r: Adjusted)
    ensures var hit := JointProbe(world, moveAmount, skinWidth, collisionMask, box);
            var changes := s.directionOnSlope == Climbing && hit.Found() && world.angleFromUp(hit.normal) != s.angle;
            (!changes ==> r == Adjusted(moveAmount, s)) &&
            (changes ==> r.velocity == Vec2((hit.distance - skinWidth) * (Sign(moveAmount.x) as real), moveAmount.y) &&
                         r.slope == s.(angle := world.angleFromUp(hit.normal), normal := hit.normal))
  {
    if s.directionOnSlope == Climbing then
      var hit := JointProbe(world, moveAmount, skinWidth, collisionMask, box);
      if !hit.Found() then Adjusted(moveAmount, s)
      else
        var slopeAngle := world.angleFromUp(hit.normal);
        if slopeAngle != s.angle then
          Adjusted(moveAmount.(x := (hit.distance - skinWidth) * (Sign(moveAmount.x) as real)),
                   s.(angle := slopeAngle, normal := hit.normal))
        else Adjusted(moveAmount, s)
    else Adjusted(moveAmount, s)
  }

  /** HandleSlope: the closed-form slope displacement (relative to a reference angle). */
  function HandleSlope(trig: Trig, yVelocity: real, slopeAngle: real, flatMoveAmount: real,
                       descending: bool, flatAngle: real): (r: Vec2)
    ensures r.x == trig.cos(slopeAngle - flatAngle) * flatMoveAmount
    ensures !descending ==> r.y == ClimbRise(trig, slopeAngle - flatAngle, flatMoveAmount)
    ensures descending ==> r.y == yVelocity - ClimbRise(trig, slopeAngle - flatAngle, flatMoveAmount)
  {
    var angle := slopeAngle - flatAngle;
    var yDisplacement := trig.sin(angle) * Abs(flatMoveAmount);
    Vec2(trig.cos(angle) * flatMoveAmount,
         (if descending then yVelocity else 0.0) + yDisplacement * (if descending then -1.0 else 1.0))
  }

  /** HandleSlope duplicates the assignments of DoClimb and DoDescendSlope: on a flat reference,
      an accepted climb or descent moves exactly as HandleSlope says. */
  lemma {:induction false} HandleSlopeMatchesClimbAndDescend(world: World, maxSlopeAngle: real, moveAmount: Vec2,
                                                             s: SlopeState, skinWidth: real, hitDistance: real,
                                                             hitNormal: Vec2, slopeAngle: real)
    ensures DoClimbRule(world.trig, moveAmount, s, slopeAngle, hitNormal).result ==>
              DoClimbRule(world.trig, moveAmount, s, slopeAngle, hitNormal).velocity ==
              HandleSlope(world.trig, moveAmount.y, slopeAngle, moveAmount.x, false, 0.0)
    ensures var o := DoDescendRule(world, maxSlopeAngle, moveAmount, s, skinWidth, hitDistance, hitNormal);
            o.result ==> o.velocity == HandleSlope(world.trig, moveAmount.y, world.angleFromUp(hitNormal),
                                                   moveAmount.x, true, 0.0)
  {
    assert slopeAngle - 0.0 == slopeAngle;
    assert world.angleFromUp(hitNormal) - 0.0 == world.angleFromUp(hitNormal);
  }

  /** The slope state the sweep keeps between the climb and the ceiling correction: a climbing
      slope is one the character can walk on. */
  predicate ClimbWalkable(s: SlopeState, maxSlopeAngle: SlopeLimit)
  {
    s.directionOnSlope == Climbing ==> 0.0 <= s.angle <= maxSlopeAngle
  }

  /** In a sound world the ceiling correction never divides by zero on a walkable climb. */
  lemma {:induction false} WalkableClimbHasNonzeroTangent(world: World, s: SlopeState, maxSlopeAngle: SlopeLimit)
    requires world.Sound()
    requires ClimbWalkable(s, maxSlopeAngle)
    ensures CeilingCorrectionApplies(s) ==> world.trig.tan(s.angle) != 0.0
  {
    if CeilingCorrectionApplies(s) {
      assert 0.0 < s.angle <= 90.0;
    }
  }

  /** A climb on a walkable angle in a sound world keeps the climbing slope walkable. */
  lemma {:induction false} ClimbKeepsWalkable(world: World, velocity: Vec2, velocityLastTime: Vec2, s: SlopeState,
                                              hitNormal: Vec2, hitDistance: real, skinWidth: real, moveDirX: int,
                                              maxSlopeAngle: SlopeLimit)
    requires world.Sound()
    requires ClimbWalkable(s, maxSlopeAngle)
    requires world.angleFromUp(hitNormal) <= maxSlopeAngle
    ensures ClimbWalkable(HandleClimbingRule(world.trig, velocity, velocityLastTime, s, hitNormal, hitDistance,
                                             world.angleFromUp(hitNormal), skinWidth, moveDirX).slope,
                          maxSlopeAngle)
  {
    assert 0.0 <= world.angleFromUp(hitNormal);
    HandleClimbingFacts(world.trig, velocity, velocityLastTime, s, hitNormal, hitDistance,
                        world.angleFromUp(hitNormal), skinWidth, moveDirX);
  }

  /** The slope component. `collisions` is the PlatformerSlopeCollisions it writes. */
  class RaycastSlopeCollider2D {
    /** Serialized but never read. */
    const hSlopeCastHeight: real
    const maxSlopeAngle: SlopeLimit
    const collisions: PlatformerSlopeCollisions

    /** The inspector values (0.15 and 45 by default) and the component found by Awake. */
    constructor (hSlopeCastHeight: real, maxSlopeAngle: SlopeLimit, collisions: PlatformerSlopeCollisions)
      ensures this.hSlopeCastHeight == hSlopeCastHeight
      ensures this.maxSlopeAngle == maxSlopeAngle && this.collisions == collisions
    {
      this.hSlopeCastHeight := hSlopeCastHeight;
      this.maxSlopeAngle := maxSlopeAngle;
      this.collisions := collisions;
    }

    predicate IsClimbing()
      reads collisions
      ensures IsClimbing() ==> !collisions.SlidingDownMax()
      ensures IsClimbing() <==> collisions.Snapshot().directionOnSlope == Climbing
    {
      collisions.directionOnSlope == Climbing
    }

    /** canWalkOnSlope. */
    predicate CanWalkOnSlope(slopeAngle: real)
      ensures slopeAngle <= 0.0 ==> CanWalkOnSlope(slopeAngle)
      ensures slopeAngle > 90.0 ==> !CanWalkOnSlope(slopeAngle)
      ensures slopeAngle == maxSlopeAngle ==> CanWalkOnSlope(slopeAngle)
    {
      slopeAngle <= maxSlopeAngle
    }

    method ClearCollisions()
      modifies collisions
      ensures collisions.Snapshot() == ClearedSlope
    {
      collisions.Clear();
    }

    method DoClimb(trig: Trig, moveAmount: Vec2, slopeAngle: real, slopeNormal: Vec2)
      returns (moved: Vec2, climbed: bool)
      modifies collisions
      ensures var o := DoClimbRule(trig, moveAmount, old(collisions.Snapshot()), slopeAngle, slopeNormal);
              moved == o.velocity && collisions.Snapshot() == o.slope && climbed == o.result
    {
      moved := moveAmount;
      var climbmoveAmountY := trig.sin(slopeAngle) * Abs(moved.x);
      if moved.y > climbmoveAmountY {
        return moved, false;
      }
      moved := moved.(y := climbmoveAmountY);
      moved := moved.(x := trig.cos(slopeAngle) * moved.x);
      collisions.directionOnSlope := Climbing;
      collisions.angle := slopeAngle;
      collisions.normal := slopeNormal;
      return moved, true;
    }

    method HandleClimbing(trig: Trig, velocity: Vec2, velocityLastTime: Vec2, hitNormal: Vec2,
                          hitDistance: real, slopeAngle: real, skinWidth: real, moveDirX: int)
      returns (moved: Vec2, shouldForceGrounded: bool)
      modifies collisions
      ensures var o := HandleClimbingRule(trig, velocity, velocityLastTime, old(collisions.Snapshot()), hitNormal,
                                          hitDistance, slopeAngle, skinWidth, moveDirX);
              moved == o.velocity && collisions.Snapshot() == o.slope && shouldForceGrounded == o.result
    {
      moved := velocity;
      if collisions.directionOnSlope == Descending {
        moved := velocityLastTime;
      }
      var distanceToSlopeStart := 0.0;
      if slopeAngle != collisions.lastAngle {
        distanceToSlopeStart := hitDistance - skinWidth;
        moved := moved.(x := moved.x - distanceToSlopeStart * (moveDirX as real));
      }
      ghost var s0 := old(collisions.Snapshot());
      ghost var start := ClimbStart(s0, velocity, velocityLastTime);
      ghost var shifted := start.(x := start.x - ClimbCorrection(s0, slopeAngle, hitDistance, skinWidth) * (moveDirX as real));
      assert moved == shifted by {
        if slopeAngle == s0.lastAngle {
          assert ClimbCorrection(s0, slopeAngle, hitDistance, skinWidth) == 0.0;
        }
      }
      ghost var climbed := DoClimbRule(trig, shifted, s0, slopeAngle, hitNormal);
      moved, shouldForceGrounded := DoClimb(trig, moved, slopeAngle, hitNormal);
      assert moved == climbed.velocity;
      assert distanceToSlopeStart == ClimbCorrection(s0, slopeAngle, hitDistance, skinWidth);
      moved := moved.(x := moved.x + distanceToSlopeStart * (moveDirX as real));
      HandleClimbingUnfolds(trig, velocity, velocityLastTime, s0, hitNormal, hitDistance, slopeAngle,
                            skinWidth, moveDirX);
    }

    method PreventWallhugJitters(trig: Trig, velocity: Vec2) returns (moved: Vec2)
      ensures moved == PreventWallhugJittersRule(trig, velocity, collisions.Snapshot())
    {
      moved := velocity.(y := trig.tan(collisions.angle) * Abs(velocity.x));
    }

    method TestDescending(world: World, moveAmount: Vec2, box: Caster, collisionMask: Mask, skinWidth: real)
      returns (hit: Hit)
      ensures hit == TestDescendingRule(world, collisions.Snapshot(), moveAmount, box, collisionMask, skinWidth)
    {
      if collisions.directionOnSlope == SlidingDown {
        return NoHit;
      }
      var directionX := Sign(moveAmount.x);
      var rayOrigin := BottomPoint(box, if directionX == 0 then 1 else directionX, skinWidth);
      hit := world.Raycast(rayOrigin, Vec2(0.0, -1.0), Unbounded, collisionMask);
    }

    method DoDescendSlope(world: World, moveAmount: Vec2, skinWidth: real, hitDistance: real, hitNormal: Vec2)
      returns (moved: Vec2, descended: bool)
      modifies collisions
      ensures Outcome(moved, collisions.Snapshot(), descended) ==
              DoDescendRule(world, maxSlopeAngle, moveAmount, old(collisions.Snapshot()), skinWidth,
                            hitDistance, hitNormal)
    {
      moved := moveAmount;
      var slopeAngle := world.angleFromUp(hitNormal);
      if slopeAngle == 0.0 || slopeAngle > maxSlopeAngle {
        return moved, false;
      }
      if Sign(hitNormal.x) != Sign(moved.x) {
        return moved, false;
      }
      var tangent := world.trig.tan(slopeAngle) * Abs(moved.x);
      if hitDistance - skinWidth > tangent {
        return moved, false;
      }
      moved := moved.(y := moved.y - world.trig.sin(slopeAngle) * Abs(moveAmount.x));
      moved := moved.(x := world.trig.cos(slopeAngle) * moveAmount.x);
      collisions.angle := slopeAngle;
      collisions.directionOnSlope := Descending;
      collisions.normal := hitNormal;
      return moved, true;
    }

    method PreventCeilingJitters(trig: Trig, velocity: Vec2) returns (moved: Vec2)
      requires CeilingCorrectionApplies(collisions.Snapshot()) ==> trig.tan(collisions.angle) != 0.0
      ensures moved == PreventCeilingJittersRule(trig, velocity, collisions.Snapshot())
    {
      moved := velocity;
      if collisions.directionOnSlope == Climbing {
        if collisions.angle == 0.0 {
          return;
        }
        moved := moved.(x := moved.y / trig.tan(collisions.angle) * (Sign(moved.x) as real));
      }
    }

    method CounteractJointCatching(world: World, moveAmount: Vec2, skinWidth: real, collisionMask: Mask,
                                   box: Caster)
      returns (moved: Vec2)
      modifies collisions
      ensures Adjusted(moved, collisions.Snapshot()) ==
              CounteractJointCatchingRule(world, moveAmount, old(collisions.Snapshot()), skinWidth, collisionMask, box)
    {
      moved := moveAmount;
      if collisions.directionOnSlope == Climbing {
        var directionX := Sign(moved.x);
        var rayLength := Abs(moved.x + skinWidth);
        var rayOrigin := BottomPoint(box, if directionX == 0 then 1 else directionX, skinWidth);
        rayOrigin := rayOrigin.(y := rayOrigin.y + moved.y);
        var hit := world.Raycast(rayOrigin, Vec2(directionX as real, 0.0), Upto(rayLength), collisionMask);
        if !hit.Found() {
          return;
        }
        var slopeAngle := world.angleFromUp(hit.normal);
        if slopeAngle != collisions.angle {
          moved := moved.(x := (hit.distance - skinWidth) * (directionX as real));
          collisions.angle := slopeAngle;
          collisions.normal := hit.normal;
        }
      }
    }
  }
}
