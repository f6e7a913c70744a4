/** MovingPlatformHandler: finds the platforms the character touches this step and decides how
    far they carry it. A "strong" slot holds movement that overrides, a "weak" slot movement that
    is overridden; each is filled from the Velocity of the platform's collider. */
module MovingPlatforms {
  import opened Num
  import opened Physics
  import opened CasterGeometry

  /** The inspector switches. */
  datatype PlatformConfig = PlatformConfig(
    supportMovingFloors: bool,
    supportMovingWalls: bool,
    breakWallClimbOnWallEmergence: bool,
    breakWallClimbOnHitFloor: bool,
    breakWallClimbOnHitCeiling: bool)

  /** The switches' defaults: floors yes, walls no, every wall-climb break on. */
  const DefaultPlatformConfig := PlatformConfig(true, false, true, true, true)

  /** The handler's mutable fields. (The declared `weakVelocity` field is never written or read.) */
  datatype PlatformState = PlatformState(
    strongSpeed: Vec2,
    weakSpeed: Vec2,
    strongSpeedUsed: Bool2,
    strongCollider: ColliderRef,
    weakCollider: ColliderRef,
    strongVelocity: VelocityRef)

  /** The field initialisers: zero speeds, no axis strong, no colliders, no Velocity. */
  const InitialPlatform := PlatformState(Zero2, Zero2, Bool2(false, false), Null, Null, NoVelocity)

  /** A state with nothing accumulated: what resetState leaves, whatever strongVelocity holds. */
  predicate IsReset(p: PlatformState)
  {
    p.strongSpeed == Zero2 && p.weakSpeed == Zero2 && p.strongSpeedUsed == Bool2(false, false) &&
    p.strongCollider == Null && p.weakCollider == Null
  }

  /** speed: per axis, the strong speed when that axis is strong, else the weak speed. */
  function Speed(p: PlatformState): (r: Vec2)
    ensures p.strongSpeedUsed.x ==> r.x == p.strongSpeed.x
    ensures !p.strongSpeedUsed.x ==> r.x == p.weakSpeed.x
    ensures p.strongSpeedUsed.y ==> r.y == p.strongSpeed.y
    ensures !p.strongSpeedUsed.y ==> r.y == p.weakSpeed.y
    ensures IsReset(p) ==> r == Zero2
  {
    Vec2(if p.strongSpeedUsed.x then p.strongSpeed.x else p.weakSpeed.x,
         if p.strongSpeedUsed.y then p.strongSpeed.y else p.weakSpeed.y)
  }

  /** float.CompareTo for ordinary (non-NaN) values. */
  function CompareTo(a: real, b: real): (c: int)
    ensures c == -1 <==> a < b
    ensures c == 0 <==> a == b
    ensures c == 1 <==> a > b
  {
    if a < b then -1 else if a > b then 1 else 0
  }

  /** compareVelocities: both speeds are turned so that mine points forwards, then compared.
      −1 means the wall lags behind my own motion along my direction; with no motion of my own
      the answer is never −1. */
  function CompareVelocities(myCurrentSpeed: real, wallSpeed: real): (c: int)
    ensures -1 <= c <= 1
    ensures c == -1 <==> wallSpeed * (Sign(myCurrentSpeed) as real) < myCurrentSpeed * (Sign(myCurrentSpeed) as real)
    ensures myCurrentSpeed == 0.0 ==> c == 0
    ensures myCurrentSpeed > 0.0 ==> (c == -1 <==> wallSpeed < myCurrentSpeed)
    ensures myCurrentSpeed < 0.0 ==> (c == -1 <==> wallSpeed > myCurrentSpeed)
  {
    var mySpeedSign := Sign(myCurrentSpeed) as real;
    CompareTo(wallSpeed * mySpeedSign, myCurrentSpeed * mySpeedSign)
  }

  /** assignWeakCollider: the first candidate keeps the weak slot. */
  function AssignWeakColliderRule(p: PlatformState, candidate: ColliderRef): (r: PlatformState)
    ensures p.weakCollider == Null ==> r == p.(weakCollider := candidate)
    ensures p.weakCollider != Null ==> r == p
  {
    if p.weakCollider == Null then p.(weakCollider := candidate) else p
  }

  /** resetState: both slots emptied; strongVelocity is kept. */
  function ResetStateRule(p: PlatformState): (r: PlatformState)
    ensures IsReset(r)
    ensures r.strongVelocity == p.strongVelocity
  {
    p.(strongCollider := Null, weakCollider := Null, strongSpeed := Zero2, weakSpeed := Zero2,
       strongSpeedUsed := Bool2(false, false))
  }

  /** Whether a wall's horizontal speed overrides: it lags behind the current x speed. */
  predicate WinsX(world: World, p: PlatformState, candidate: ColliderRef)
  {
    CompareVelocities(Speed(p).x, world.ValueOf(world.VelocityOf(candidate)).x) == -1
  }

  /** Whether a floor's vertical speed overrides: it lags behind the current y speed. */
  predicate WinsY(world: World, p: PlatformState, candidate: ColliderRef)
  {
    CompareVelocities(Speed(p).y, world.ValueOf(world.VelocityOf(candidate)).y) == -1
  }

  /** The weak-slot update both TakeSpeed rules end with: claim the slot if it is free, and when
      the candidate holds it, write `scalar` into both axes of the weak speed. */
  function TakeWeak(p: PlatformState, candidate: ColliderRef, scalar: real): (r: PlatformState)
    ensures r.strongSpeed == p.strongSpeed && r.strongSpeedUsed == p.strongSpeedUsed
    ensures r.strongCollider == p.strongCollider && r.strongVelocity == p.strongVelocity
    ensures r.weakCollider == (if p.weakCollider == Null then candidate else p.weakCollider)
    ensures r.weakSpeed == (if r.weakCollider == candidate then Vec2(scalar, scalar) else p.weakSpeed)
  {
    var q := AssignWeakColliderRule(p, candidate);
    if candidate == q.weakCollider then q.(weakSpeed := Vec2(scalar, scalar)) else q
  }

  /** TakeSpeedX: a wall that overrides becomes the strong collider on x (its Velocity kept, the
      x axis strong only if it has one); when wall-hanging and not broken off by the override,
      its vertical speed is offered to the weak slot. A Null candidate changes nothing. */
  function TakeSpeedXRule(cfg: PlatformConfig, world: World, p: PlatformState, candidate: ColliderRef,
                          wallHanging: bool): (r: PlatformState)
    ensures candidate == Null ==> r == p
    ensures candidate != Null && WinsX(world, p, candidate) ==>
              r.strongCollider == candidate && r.strongVelocity == world.VelocityOf(candidate) &&
              r.strongSpeedUsed == p.strongSpeedUsed.(x := world.VelocityOf(candidate).VelocityOn?) &&
              r.strongSpeed == p.strongSpeed.(x := world.ValueOf(world.VelocityOf(candidate)).x)
    ensures candidate == Null || !WinsX(world, p, candidate) ==>
              r.strongCollider == p.strongCollider && r.strongVelocity == p.strongVelocity &&
              r.strongSpeedUsed == p.strongSpeedUsed && r.strongSpeed == p.strongSpeed
    ensures var hanging := wallHanging && !(WinsX(world, p, candidate) && cfg.breakWallClimbOnWallEmergence);
            candidate != Null && hanging ==>
              r.weakCollider == (if p.weakCollider == Null then candidate else p.weakCollider) &&
              r.weakSpeed == (if r.weakCollider == candidate
                              then Vec2(world.ValueOf(world.VelocityOf(candidate)).y,
                                        world.ValueOf(world.VelocityOf(candidate)).y)
                              else p.weakSpeed)
    ensures var hanging := wallHanging && !(WinsX(world, p, candidate) && cfg.breakWallClimbOnWallEmergence);
            !hanging ==> r.weakCollider == p.weakCollider && r.weakSpeed == p.weakSpeed
  {
    if candidate == Null then p
    else
      var candidateVelocity := world.VelocityOf(candidate);
      var wallVelocity := world.ValueOf(candidateVelocity);
      var wins := CompareVelocities(Speed(p).x, wallVelocity.x) == -1;
      var p1 := if wins then
                  p.(strongCollider := candidate, strongVelocity := candidateVelocity,
                     strongSpeedUsed := p.strongSpeedUsed.(x := candidateVelocity.VelocityOn?),
                     strongSpeed := p.strongSpeed.(x := wallVelocity.x))
                else p;
      var hanging := if wins && cfg.breakWallClimbOnWallEmergence then false else wallHanging;
      if hanging then TakeWeak(p1, candidate, wallVelocity.y) else p1
  }

  /** TakeSpeedY: a floor or ceiling that overrides becomes the strong collider and makes the y
      axis strong (whether or not it has a Velocity); when grounded, its horizontal speed is
      offered to the weak slot. The wall-climb break branch has no effect. A Null candidate
      changes nothing. */
  function TakeSpeedYRule(cfg: PlatformConfig, world: World, p: PlatformState, candidate: ColliderRef,
                          isGrounded: bool): (r: PlatformState)
    ensures candidate == Null ==> r == p
    ensures r.strongVelocity == p.strongVelocity
    ensures candidate != Null && WinsY(world, p, candidate) ==>
              r.strongCollider == candidate &&
              r.strongSpeedUsed == p.strongSpeedUsed.(y := true) &&
              r.strongSpeed == p.strongSpeed.(y := world.ValueOf(world.VelocityOf(candidate)).y)
    ensures candidate == Null || !WinsY(world, p, candidate) ==>
              r.strongCollider == p.strongCollider && r.strongSpeedUsed == p.strongSpeedUsed &&
              r.strongSpeed == p.strongSpeed
    ensures candidate != Null && isGrounded ==>
              r.weakCollider == (if p.weakCollider == Null then candidate else p.weakCollider) &&
              r.weakSpeed == (if r.weakCollider == candidate
                              then Vec2(world.ValueOf(world.VelocityOf(candidate)).x,
                                        world.ValueOf(world.VelocityOf(candidate)).x)
                              else p.weakSpeed)
    ensures !isGrounded ==> r.weakCollider == p.weakCollider && r.weakSpeed == p.weakSpeed
  {
    if candidate == Null then p
    else
      var wallVelocity := world.ValueOf(world.VelocityOf(candidate));
      var p1 := if CompareVelocities(Speed(p).y, wallVelocity.y) == -1 then
                  p.(strongCollider := candidate, strongSpeedUsed := p.strongSpeedUsed.(y := true),
                     strongSpeed := p.strongSpeed.(y := wallVelocity.y))
                else p;
      if isGrounded then TakeWeak(p1, candidate, wallVelocity.x) else p1
  }

  /** The speed handed back and the state left behind. */
  datatype Finalized = Finalized(speed: Vec2, state: PlatformState)

  /** FinalizePlatformMovement: the current speed, then everything reset. */
  function FinalizeRule(p: PlatformState): (f: Finalized)
    ensures f.speed == Speed(p)
    ensures f.state == ResetStateRule(p)
    ensures IsReset(f.state)
  {
    Finalized(Speed(p), ResetStateRule(p))
  }

  /** Where the platform box casts start: the box's centre, moved on by the Velocity of the
      platform ridden last. */
  function CastCenter(world: World, p: PlatformState, box: Caster): Vec2
  {
    world.ValueOf(p.strongVelocity).Plus(BoxEpicenter(box))
  }

  /** The wall probe: a box cast the size of the character towards `facingX`, as far as the
      horizontal move plus the skin, filtered for the character's own collider. */
  function WallProbe(world: World, p: PlatformState, box: Caster, skinWidth: real, myCollider: ColliderRef,
                     velocity: Vec2, facingX: int, hMask: Mask): Hit
  {
    FirstNonSelfHit(Fill([NoHit, NoHit], world.box(CastCenter(world, p, box), box.dimensions.Size(),
                                                   Vec2(facingX as real, 0.0), Abs(velocity.x) + skinWidth, hMask)),
                    myCollider)
  }

  /** The floor probe: the same box cast along the sign of the vertical move. */
  function FloorProbe(world: World, p: PlatformState, box: Caster, skinWidth: real, myCollider: ColliderRef,
                      velocity: Vec2, vMask: Mask): Hit
  {
    FirstNonSelfHit(Fill([NoHit, NoHit], world.box(CastCenter(world, p, box), box.dimensions.Size(),
                                                   Vec2(0.0, Sign(velocity.y) as real), Abs(velocity.y) + skinWidth,
                                                   vMask)),
                    myCollider)
  }

  /** Whether a floor hit counts as standing on it: its contact point is no higher than the skin
      line of the character's bottom. */
  predicate StandsOn(hit: Hit, box: Caster, skinWidth: real)
  {
    hit.point.y <= BottomPoint(box, 0, skinWidth).y
  }

  /** HandleMovingPlatforms: the wall probe (if enabled) feeds TakeSpeedX, not wall-hanging; the
      floor probe (if enabled) feeds TakeSpeedY; then the movement is finalised. */
  function HandleMovingPlatformsRule(cfg: PlatformConfig, world: World, p: PlatformState, box: Caster,
                                     skinWidth: real, myCollider: ColliderRef, velocity: Vec2, facingX: int,
                                     hMask: Mask, vMask: Mask): (f: Finalized)
    ensures IsReset(f.state)
    ensures f.state.strongVelocity == AfterFloor(cfg, world, p, box, skinWidth, myCollider, velocity, facingX,
                                                 hMask, vMask).strongVelocity
    ensures f.speed == Speed(AfterFloor(cfg, world, p, box, skinWidth, myCollider, velocity, facingX, hMask, vMask))
  {
    FinalizeRule(AfterFloor(cfg, world, p, box, skinWidth, myCollider, velocity, facingX, hMask, vMask))
  }

  /** The state after the wall probe. */
  function AfterWall(cfg: PlatformConfig, world: World, p: PlatformState, box: Caster, skinWidth: real,
                     myCollider: ColliderRef, velocity: Vec2, facingX: int, hMask: Mask): (r: PlatformState)
    ensures !cfg.supportMovingWalls ==> r == p
  {
    if cfg.supportMovingWalls then
      var hit := WallProbe(world, p, box, skinWidth, myCollider, velocity, facingX, hMask);
      if hit.Found() then TakeSpeedXRule(cfg, world, p, hit.collider, false) else p
    else p
  }

  /** The state after the floor probe, which starts from the same cast centre as the wall probe. */
  function AfterFloor(cfg: PlatformConfig, world: World, p: PlatformState, box: Caster, skinWidth: real,
                      myCollider: ColliderRef, velocity: Vec2, facingX: int, hMask: Mask, vMask: Mask)
    : (r: PlatformState)
    ensures !cfg.supportMovingFloors ==> r == AfterWall(cfg, world, p, box, skinWidth, myCollider, velocity, facingX, hMask)
  {
    var p1 := AfterWall(cfg, world, p, box, skinWidth, myCollider, velocity, facingX, hMask);
    if cfg.supportMovingFloors then
      var hit := FloorProbe(world, p, box, skinWidth, myCollider, velocity, vMask);
      if hit.Found() then TakeSpeedYRule(cfg, world, p1, hit.collider, StandsOn(hit, box, skinWidth)) else p1
    else p1
  }

  /** The weak slot is first come, first served: once held, another candidate changes neither
      the weak collider nor the weak speed, in either rule. */
  lemma {:induction false} WeakSlotKeepsFirstCandidate(cfg: PlatformConfig, world: World, p: PlatformState,
                                                       candidate: ColliderRef, flag: bool)
    requires p.weakCollider != Null && candidate != p.weakCollider
    ensures TakeSpeedXRule(cfg, world, p, candidate, flag).weakCollider == p.weakCollider
    ensures TakeSpeedXRule(cfg, world, p, candidate, flag).weakSpeed == p.weakSpeed
    ensures TakeSpeedYRule(cfg, world, p, candidate, flag).weakCollider == p.weakCollider
    ensures TakeSpeedYRule(cfg, world, p, candidate, flag).weakSpeed == p.weakSpeed
  {
  }

  /** Because every step starts from a reset handler, the speeds compared against are zero, so
      no candidate ever overrides: the strong slot stays empty, the returned movement is the
      standing floor's horizontal Velocity written into both axes (or nothing), and the wall
      probe has no effect at all. */
  lemma {:induction false} ResetHandlerOnlyUsesWeakFloor(cfg: PlatformConfig, world: World, p: PlatformState,
                                                         box: Caster, skinWidth: real, myCollider: ColliderRef,
                                                         velocity: Vec2, facingX: int, hMask: Mask, vMask: Mask)
    requires IsReset(p)
    ensures AfterWall(cfg, world, p, box, skinWidth, myCollider, velocity, facingX, hMask) == p
    ensures var f := HandleMovingPlatformsRule(cfg, world, p, box, skinWidth, myCollider, velocity, facingX,
                                               hMask, vMask);
            var hit := FloorProbe(world, p, box, skinWidth, myCollider, velocity, vMask);
            var w := world.ValueOf(world.VelocityOf(hit.collider));
            f.state == p &&
            f.speed == (if cfg.supportMovingFloors && hit.Found() && StandsOn(hit, box, skinWidth)
                        then Vec2(w.x, w.x) else Zero2)
  {
    assert Speed(p) == Zero2;
    var hit := FloorProbe(world, p, box, skinWidth, myCollider, velocity, vMask);
    if cfg.supportMovingFloors && hit.Found() {
      assert !WinsY(world, p, hit.collider);
    }
  }

  /** The handler component. */
  class MovingPlatformHandler {
    const supportMovingFloors: bool
    const supportMovingWalls: bool
    const breakWallClimbOnWallEmergence: bool
    const breakWallClimbOnHitFloor: bool
    const breakWallClimbOnHitCeiling: bool

    var strongSpeed: Vec2
    var weakSpeed: Vec2
    var strongSpeedUsed: Bool2
    var strongCollider: ColliderRef
    var weakCollider: ColliderRef
    var strongVelocity: VelocityRef

    function Config(): PlatformConfig
    {
      PlatformConfig(supportMovingFloors, supportMovingWalls, breakWallClimbOnWallEmergence,
                     breakWallClimbOnHitFloor, breakWallClimbOnHitCeiling)
    }

    function State(): PlatformState
      reads this
    {
      PlatformState(strongSpeed, weakSpeed, strongSpeedUsed, strongCollider, weakCollider, strongVelocity)
    }

    constructor (cfg: PlatformConfig)
      ensures Config() == cfg
      ensures State() == InitialPlatform
    {
      supportMovingFloors := cfg.supportMovingFloors;
      supportMovingWalls := cfg.supportMovingWalls;
      breakWallClimbOnWallEmergence := cfg.breakWallClimbOnWallEmergence;
      breakWallClimbOnHitFloor := cfg.breakWallClimbOnHitFloor;
      breakWallClimbOnHitCeiling := cfg.breakWallClimbOnHitCeiling;
      strongSpeed, weakSpeed, strongSpeedUsed := Zero2, Zero2, Bool2(false, false);
      strongCollider, weakCollider, strongVelocity := Null, Null, NoVelocity;
    }

    /** speed. */
    function CurrentSpeed(): Vec2
      reads this
    {
      Speed(State())
    }

    method HandleMovingPlatforms(world: World, box: Caster, skinWidth: real, myCollider: ColliderRef,
                                 velocity: Vec2, facingX: int, hMask: Mask, vMask: Mask)
      returns (movement: Vec2)
      modifies this
      ensures Finalized(movement, State()) ==
              HandleMovingPlatformsRule(Config(), world, old(State()), box, skinWidth, myCollider, velocity,
                                        facingX, hMask, vMask)
    {
      ghost var p0 := State();
      var castCtr := world.ValueOf(strongVelocity);
      castCtr := castCtr.Plus(BoxEpicenter(box));
      var veloCheck := new Hit[2](_ => NoHit);
      if supportMovingWalls {
        CheckWall(world, castCtr, box, skinWidth, myCollider, velocity, facingX, hMask, veloCheck, p0);
      }
      assert State() == AfterWall(Config(), world, p0, box, skinWidth, myCollider, velocity, facingX, hMask);
      if supportMovingFloors {
        CheckFloor(world, castCtr, box, skinWidth, myCollider, velocity, vMask, veloCheck, p0);
      }
      assert State() == AfterFloor(Config(), world, p0, box, skinWidth, myCollider, velocity, facingX, hMask, vMask);
      movement := FinalizePlatformMovement();
    }

    /** The wall half of HandleMovingPlatforms. */
    method CheckWall(world: World, castCtr: Vec2, box: Caster, skinWidth: real, myCollider: ColliderRef,
                     velocity: Vec2, facingX: int, hMask: Mask, veloCheck: array<Hit>, ghost p0: PlatformState)
      requires veloCheck.Length == 2 && Cleared(veloCheck[..])
      requires castCtr == CastCenter(world, p0, box) && State() == p0
      modifies this, veloCheck
      ensures Cleared(veloCheck[..])
      ensures var hit := WallProbe(world, p0, box, skinWidth, myCollider, velocity, facingX, hMask);
              State() == if hit.Found() then TakeSpeedXRule(Config(), world, p0, hit.collider, false) else p0
    {
      var _ := BoxCastNonAlloc(world, castCtr, box.dimensions.Size(), Vec2(facingX as real, 0.0), veloCheck,
                               Abs(velocity.x) + skinWidth, hMask);
      assert old(veloCheck[..]) == [NoHit, NoHit];
      veloCheck[0] := FirstNonSelfHit(veloCheck[..], myCollider);
      if veloCheck[0].Found() {
        TakeSpeedX(world, veloCheck[0].collider, false);
      }
      ClearBuffer(veloCheck);
    }

    /** The floor half of HandleMovingPlatforms. */
    method CheckFloor(world: World, castCtr: Vec2, box: Caster, skinWidth: real, myCollider: ColliderRef,
                      velocity: Vec2, vMask: Mask, veloCheck: array<Hit>, ghost p0: PlatformState)
      requires veloCheck.Length == 2 && Cleared(veloCheck[..])
      requires castCtr == CastCenter(world, p0, box)
      modifies this, veloCheck
      ensures var hit := FloorProbe(world, p0, box, skinWidth, myCollider, velocity, vMask);
              State() == if hit.Found() then TakeSpeedYRule(Config(), world, old(State()), hit.collider,
                                                            StandsOn(hit, box, skinWidth))
                         else old(State())
    {
      var _ := BoxCastNonAlloc(world, castCtr, box.dimensions.Size(), Vec2(0.0, Sign(velocity.y) as real),
                               veloCheck, Abs(velocity.y) + skinWidth, vMask);
      assert old(veloCheck[..]) == [NoHit, NoHit];
      veloCheck[0] := FirstNonSelfHit(veloCheck[..], myCollider);
      if veloCheck[0].Found() {
        TakeSpeedY(world, veloCheck[0].collider, veloCheck[0].point.y <= BottomPoint(box, 0, skinWidth).y);
      }
    }

    method TakeSpeedX(world: World, candidate: ColliderRef, wallHanging: bool)
      modifies this
      ensures State() == TakeSpeedXRule(Config(), world, old(State()), candidate, wallHanging)
    {
      if candidate == Null {
        return;
      }
      var candidateVelocity := world.VelocityOf(candidate);
      var wallVelocity := world.ValueOf(candidateVelocity);
      var hanging := wallHanging;
      if CompareVelocities(CurrentSpeed().x, wallVelocity.x) == -1 {
        strongCollider := candidate;
        strongVelocity := candidateVelocity;
        strongSpeedUsed := strongSpeedUsed.(x := candidateVelocity.VelocityOn?);
        strongSpeed := strongSpeed.(x := wallVelocity.x);
        if breakWallClimbOnWallEmergence {
          hanging := false;
        }
      }
      if hanging {
        AssignWeakCollider(candidate);
        if candidate == weakCollider {
          weakSpeed := Vec2(wallVelocity.y, wallVelocity.y);
        }
      }
    }

    method TakeSpeedY(world: World, candidate: ColliderRef, isGrounded: bool)
      modifies this
      ensures State() == TakeSpeedYRule(Config(), world, old(State()), candidate, isGrounded)
    {
      if candidate == Null {
        return;
      }
      var wallVelocity := world.ValueOf(world.VelocityOf(candidate));
      if CompareVelocities(CurrentSpeed().y, wallVelocity.y) == -1 {
        strongCollider := candidate;
        strongSpeedUsed := strongSpeedUsed.(y := true);
        strongSpeed := strongSpeed.(y := wallVelocity.y);
      }
      if isGrounded {
        AssignWeakCollider(candidate);
        if candidate == weakCollider {
          weakSpeed := Vec2(wallVelocity.x, wallVelocity.x);
        }
      }
    }

    method FinalizePlatformMovement() returns (returner: Vec2)
      modifies this
      ensures Finalized(returner, State()) == FinalizeRule(old(State()))
    {
      returner := CurrentSpeed();
      ResetState();
    }

    method AssignWeakCollider(candidate: ColliderRef)
      modifies this
      ensures State() == AssignWeakColliderRule(old(State()), candidate)
    {
      if weakCollider == Null {
        weakCollider := candidate;
      }
    }

    method ResetState()
      modifies this
      ensures State() == ResetStateRule(old(State()))
    {
      strongCollider, weakCollider := Null, Null;
      weakSpeed := Zero2;
      strongSpeed := weakSpeed;
      strongSpeedUsed := Bool2(false, false);
    }
  }
}
