/** RaycastCollider2D.ApplyCollisions: one fixed step's collision sweep. The pending displacement
    is bent down a slope below, carried by moving platforms, cut short by walls (or bent up a
    slope) and then by floors and ceilings, and the contact flags, the slope state, the platform
    state, the fall-through timer and the recoil are written. Every phase is stated on values
    first; the component's methods are proved to perform them. */
module CharacterCollider {
  import opened Num
  import opened Physics
  import opened CasterGeometry
  import opened Contacts
  import opened SlopeContacts
  import opened SlopeCollider
  import opened MovingPlatforms
  import opened FallThrough
  import opened RaycastProducer
  import opened Motion

  /** What stays fixed while the sweep runs: the inspector values and which optional handlers
      are present, with the settings of those that are. */
  datatype SweepConfig = SweepConfig(
    myCollider: ColliderRef,
    skinWidth: real,
    solid: Mask,
    semiSolid: Mask,
    hasSlopeHandler: bool,
    maxSlopeAngle: SlopeLimit,
    hasFallThroughHandler: bool,
    hasPlatformHandler: bool,
    platform: PlatformConfig)
  {
    /** solid | semiSolid, the mask of every horizontal cast. */
    function AllSolid(): Mask { solid + semiSolid }
  }

  /** Everything the sweep reads and writes besides the displacement: the contact flags, the
      slope component, the platform handler, the fall-through timer, the remembered horizontal
      cast direction and the ForceGrounded request. */
  datatype SweepState = SweepState(
    contacts: ContactState,
    slope: SlopeState,
    platform: PlatformState,
    fallTimer: real,
    hCastDirection: int,
    overrideIsGrounded: bool)

  /** The final displacement, the recoil written to CollisionRecoil, and the new state. */
  datatype SweepResult = SweepResult(velocity: Vec2, recoil: Vec2, state: SweepState)

  function WithSides(c: ContactState, left: bool, right: bool): ContactState
  {
    c.(state := c.state.(x := left, y := right))
  }

  function WithVertical(c: ContactState, below: bool, above: bool): ContactState
  {
    c.(state := c.state.(w := below, z := above))
  }

  /** The mask and the fall-through timer after LayerMaskWithSemiSolid. */
  datatype MaskTick = MaskTick(mask: Mask, fallTimer: real)

  /** LayerMaskWithSemiSolid: semi-solids count only when moving down, and then, with a
      fall-through handler, only once its timer (ticked by this very call) has run out. The
      `&&` short-circuits, so the timer ticks only when moving down. */
  function LayerMaskWithSemiSolidRule(cfg: SweepConfig, fallTimer: real, fixedDeltaTime: real,
                                      verticalMovementSign: int): (m: MaskTick)
    ensures m.mask == cfg.solid || m.mask == cfg.AllSolid()
    ensures verticalMovementSign != -1 ==> m == MaskTick(cfg.solid, fallTimer)
    ensures verticalMovementSign == -1 && !cfg.hasFallThroughHandler ==> m == MaskTick(cfg.AllSolid(), fallTimer)
    ensures verticalMovementSign == -1 && cfg.hasFallThroughHandler ==>
              m.fallTimer == Ticked(fallTimer, fixedDeltaTime) &&
              (fallTimer <= fixedDeltaTime ==> m.mask == cfg.AllSolid()) &&
              (fallTimer > fixedDeltaTime ==> m.mask == cfg.solid)
  {
    var withSemiSolid := verticalMovementSign == -1 &&
                         (if cfg.hasFallThroughHandler then Ticked(fallTimer, fixedDeltaTime) <= 0.0 else true);
    var timer := if verticalMovementSign == -1 && cfg.hasFallThroughHandler then Ticked(fallTimer, fixedDeltaTime)
                 else fallTimer;
    MaskTick(if withSemiSolid then cfg.AllSolid() else cfg.solid, timer)
  }

  // ---------------------------------------------------------------- horizontal phase

  /** The horizontal loop's variables: the displacement, the current ray length, the contact
      flags, the slope state and the did-ascend flag. */
  datatype HSweep = HSweep(velocity: Vec2, rayLength: real, contacts: ContactState, slope: SlopeState,
                           ascended: bool)

  /** Whether the hit's surface is one the slope handler takes over. */
  predicate WalkableHit(cfg: SweepConfig, world: World, hit: Hit)
  {
    cfg.hasSlopeHandler && world.angleFromUp(hit.normal) <= cfg.maxSlopeAngle
  }

  /** The climbing attempt, made only on ray 0 and only for walkable slopes. */
  function HClimb(cfg: SweepConfig, world: World, h: HSweep, hit: Hit, i: nat, directionX: int,
                  velocityLastFrame: Vec2): (r: HSweep)
    ensures r.contacts == h.contacts && r.rayLength == h.rayLength
    ensures !(WalkableHit(cfg, world, hit) && i == 0) ==> r == h
    ensures WalkableHit(cfg, world, hit) && i == 0 ==>
              var o := HandleClimbingRule(world.trig, h.velocity, velocityLastFrame, h.slope, hit.normal,
                                          hit.distance, world.angleFromUp(hit.normal), cfg.skinWidth, directionX);
              r.velocity == o.velocity && r.slope == o.slope && r.ascended == o.result
  {
    if WalkableHit(cfg, world, hit) && i == 0 then
      var o := HandleClimbingRule(world.trig, h.velocity, velocityLastFrame, h.slope, hit.normal, hit.distance,
                                  world.angleFromUp(hit.normal), cfg.skinWidth, directionX);
      h.(velocity := o.velocity, slope := o.slope, ascended := o.result)
    else h
  }

  /** One turn of the horizontal loop on ray `i`'s hit. A missing hit or one beyond the ray
      length is skipped; a walkable slope is handed to the climb and, while climbing, skips the
      wall code; otherwise the side flags are written, x is cut to the wall (never lengthened),
      the ray is shortened and, while climbing, the rise is put back on the slope. */
  function HStep(cfg: SweepConfig, world: World, h: HSweep, hit: Hit, i: nat, directionX: int,
                 velocityLastFrame: Vec2): (r: HSweep)
    ensures r.rayLength <= h.rayLength
    ensures i > 0 ==> r.ascended == h.ascended
    ensures !hit.Found() || hit.distance > h.rayLength ==> r == h
    ensures !cfg.hasSlopeHandler ==> r.velocity.y == h.velocity.y && r.slope == h.slope && !r.ascended == !h.ascended
    ensures !cfg.hasSlopeHandler && hit.Found() && hit.distance <= h.rayLength ==>
              r.contacts == WithSides(h.contacts, directionX == -1, directionX == 1) &&
              r.velocity.x == CutX(hit.distance, cfg.skinWidth, h.velocity.x, directionX) &&
              r.rayLength <= hit.distance
    ensures hit.Found() && hit.distance <= h.rayLength ==>
              var c := HClimb(cfg, world, h, hit, i, directionX, velocityLastFrame);
              if WalkableHit(cfg, world, hit) && c.slope.directionOnSlope == Climbing then
                r == c && r.contacts == h.contacts && r.rayLength == h.rayLength
              else
                r.contacts == WithSides(h.contacts, directionX == -1, directionX == 1) &&
                r.velocity.x == CutX(hit.distance, cfg.skinWidth, c.velocity.x, directionX) &&
                r.rayLength <= hit.distance && r.slope == c.slope && r.ascended == c.ascended &&
                (cfg.hasSlopeHandler && c.slope.directionOnSlope == Climbing ==>
                   r.velocity == PreventWallhugJittersRule(world.trig, c.velocity.(x := r.velocity.x), c.slope)) &&
                (!(cfg.hasSlopeHandler && c.slope.directionOnSlope == Climbing) ==> r.velocity.y == c.velocity.y)
  {
    if !hit.Found() then h
    else if hit.distance > h.rayLength then h
    else
      var c := HClimb(cfg, world, h, hit, i, directionX, velocityLastFrame);
      if WalkableHit(cfg, world, hit) && c.slope.directionOnSlope == Climbing then c
      else
        var k := HCut(cfg, world, c.velocity, c.contacts, c.slope, hit, directionX);
        c.(velocity := k.velocity, contacts := k.contacts, rayLength := k.rayLength)
  }

  /** What the wall code of a horizontal turn writes. */
  datatype Cut = Cut(velocity: Vec2, contacts: ContactState, rayLength: real)

  /** x cut to a wall `distance` away: its length limited to the gap left by the skin, in the
      direction of travel. A wall at least the skin width away never lengthens x, and the cut x
      points in the direction of travel (or is 0). */
  function CutX(distance: real, skinWidth: real, x: real, directionX: int): (r: real)
    ensures (directionX == 1 || directionX == -1) && distance >= skinWidth ==>
              Abs(r) <= Abs(x) && r * (directionX as real) >= 0.0
    ensures directionX == 0 ==> r == 0.0
  {
    var m := Min(distance - skinWidth, Abs(x));
    assert directionX == 1 ==> m * (directionX as real) == m;
    assert directionX == -1 ==> m * (directionX as real) == -m;
    m * (directionX as real)
  }

  /** The wall code of a horizontal turn: side flags, x cut to the wall (the cut x keeps the
      direction of travel and is never longer than before, unless the hit is already inside the
      skin), the ray shortened, and the wallhug correction while climbing. */
  function HCut(cfg: SweepConfig, world: World, velocity: Vec2, contacts: ContactState, slope: SlopeState, hit: Hit,
                directionX: int): (r: Cut)
    ensures r.rayLength <= hit.distance
    ensures r.contacts == WithSides(contacts, directionX == -1, directionX == 1)
    ensures r.velocity.x == CutX(hit.distance, cfg.skinWidth, velocity.x, directionX)
    ensures cfg.hasSlopeHandler && slope.directionOnSlope == Climbing ==>
              r.velocity.y == world.trig.tan(slope.angle) * Abs(r.velocity.x)
    ensures !(cfg.hasSlopeHandler && slope.directionOnSlope == Climbing) ==> r.velocity.y == velocity.y
    ensures (directionX == 1 || directionX == -1) && hit.distance >= cfg.skinWidth ==>
              Abs(r.velocity.x) <= Abs(velocity.x) && r.velocity.x * (directionX as real) >= 0.0
  {
    var x := CutX(hit.distance, cfg.skinWidth, velocity.x, directionX);
    var v := velocity.(x := x);
    Cut(if cfg.hasSlopeHandler && slope.directionOnSlope == Climbing then PreventWallhugJittersRule(world.trig, v, slope)
        else v,
        WithSides(contacts, directionX == -1, directionX == 1),
        Min(hit.distance, Abs(x) + cfg.skinWidth))
  }

  /** The horizontal loop after its first `k` turns. The ray only ever gets shorter, so a later
      hit is never farther than an accepted one. */
  function HFold(cfg: SweepConfig, world: World, h: HSweep, hits: seq<Hit>, k: nat, directionX: int,
                 velocityLastFrame: Vec2): (r: HSweep)
    requires k <= |hits|
    ensures r.rayLength <= h.rayLength
  {
    if k == 0 then h
    else HStep(cfg, world, HFold(cfg, world, h, hits, k - 1, directionX, velocityLastFrame), hits[k - 1], k - 1,
               directionX, velocityLastFrame)
  }

  /** The horizontal ray origins: bottom, middle and top of the side faced (right when idle). */
  function HOrigins(box: Caster, skinWidth: real, directionX: int): (o: seq<Vec2>)
    ensures |o| == 3
  {
    var side := if directionX == 0 then 1 else directionX;
    [BottomPoint(box, side, skinWidth), MidPoint(box, side, skinWidth), TopPoint(box, side, skinWidth)]
  }

  /** The first ray length: |x| capped at the skin width, plus the skin width. */
  function HInitialLength(velocity: Vec2, skinWidth: real): real
  {
    Min(Abs(velocity.x), skinWidth) + skinWidth
  }

  /** The three horizontal hits. */
  function HHits(cfg: SweepConfig, world: World, box: Caster, velocity: Vec2, directionX: int, layerMask: Mask)
    : (hits: seq<Hit>)
    ensures |hits| == 3
  {
    ProbeAll(world, cfg.myCollider, Vec2(directionX as real, 0.0), HOrigins(box, cfg.skinWidth, directionX),
             HInitialLength(velocity, cfg.skinWidth), layerMask)
  }

  /** HorizontalCollisions, starting with did-ascend false. Only left and right are written,
      never both; without a slope handler y, the slope state and did-ascend are untouched. */
  function HorizontalRule(cfg: SweepConfig, world: World, box: Caster, velocity: Vec2, contacts: ContactState,
                          slope: SlopeState, velocityLastFrame: Vec2, directionX: int, layerMask: Mask): (r: HSweep)
    ensures r.rayLength <= HInitialLength(velocity, cfg.skinWidth)
    ensures !(contacts.Left() && contacts.Right()) ==> !(r.contacts.Left() && r.contacts.Right())
    ensures r.contacts.hitByOther == contacts.hitByOther
    ensures r.contacts.Above() == contacts.Above() && r.contacts.Below() == contacts.Below()
    ensures !cfg.hasSlopeHandler ==> r.slope == slope && r.velocity.y == velocity.y && !r.ascended
  {
    var h0 := HSweep(velocity, HInitialLength(velocity, cfg.skinWidth), contacts, slope, false);
    var hits := HHits(cfg, world, box, velocity, directionX, layerMask);
    HFoldSidesApart(cfg, world, h0, hits, 3, directionX, velocityLastFrame);
    if !cfg.hasSlopeHandler then
      FlatSweepKeepsVertical(cfg, world, h0, hits, 3, directionX, velocityLastFrame);
      HFold(cfg, world, h0, hits, 3, directionX, velocityLastFrame)
    else HFold(cfg, world, h0, hits, 3, directionX, velocityLastFrame)
  }

  /** x is as it was, or no longer and pointing in the direction of travel (or 0). */
  predicate NoLongerThan(x: real, x0: real, directionX: int)
  {
    x == x0 || (Abs(x) <= Abs(x0) && x * (directionX as real) >= 0.0)
  }

  /** Without a slope handler, and with every wall the rays find at least the skin width away, the
      horizontal sweep never lengthens x: it is kept as it was, or cut to a length no greater and
      pointing in the direction of travel. */
  lemma {:induction false} HFoldNeverLengthens(cfg: SweepConfig, world: World, h: HSweep, hits: seq<Hit>, k: nat,
                                               directionX: int, velocityLastFrame: Vec2)
    requires k <= |hits|
    requires !cfg.hasSlopeHandler
    requires directionX == 1 || directionX == -1
    requires forall j :: 0 <= j < |hits| && hits[j].Found() ==> hits[j].distance >= cfg.skinWidth
    ensures NoLongerThan(HFold(cfg, world, h, hits, k, directionX, velocityLastFrame).velocity.x, h.velocity.x,
                         directionX)
  {
    if k > 0 {
      HFoldNeverLengthens(cfg, world, h, hits, k - 1, directionX, velocityLastFrame);
      var prev := HFold(cfg, world, h, hits, k - 1, directionX, velocityLastFrame);
      var hit := hits[k - 1];
      assert hit.Found() ==> hit.distance >= cfg.skinWidth;
      HStepNeverLengthens(cfg, world, prev, hit, k - 1, directionX, velocityLastFrame, h.velocity.x);
    }
  }

  /** One flat turn keeps the bound of HFoldNeverLengthens. */
  lemma HStepNeverLengthens(cfg: SweepConfig, world: World, prev: HSweep, hit: Hit, i: nat, directionX: int,
                            velocityLastFrame: Vec2, x0: real)
    requires !cfg.hasSlopeHandler
    requires directionX == 1 || directionX == -1
    requires hit.Found() ==> hit.distance >= cfg.skinWidth
    requires NoLongerThan(prev.velocity.x, x0, directionX)
    ensures NoLongerThan(HStep(cfg, world, prev, hit, i, directionX, velocityLastFrame).velocity.x, x0, directionX)
  {
  }

  /** Only ray 0, the floor-level one, can start a climb: after the first turn the did-ascend
      flag never changes. */
  lemma {:induction false} OnlyFirstRayClimbs(cfg: SweepConfig, world: World, h: HSweep, hits: seq<Hit>, k: nat,
                                              directionX: int, velocityLastFrame: Vec2)
    requires 1 <= k <= |hits|
    ensures HFold(cfg, world, h, hits, k, directionX, velocityLastFrame).ascended ==
            HFold(cfg, world, h, hits, 1, directionX, velocityLastFrame).ascended
  {
    if k > 1 {
      OnlyFirstRayClimbs(cfg, world, h, hits, k - 1, directionX, velocityLastFrame);
    }
  }

  /** Without a slope handler the horizontal sweep never touches y, the slope state or the
      did-ascend flag. */
  lemma {:induction false} FlatSweepKeepsVertical(cfg: SweepConfig, world: World, h: HSweep, hits: seq<Hit>,
                                                  k: nat, directionX: int, velocityLastFrame: Vec2)
    requires k <= |hits|
    requires !cfg.hasSlopeHandler
    ensures var r := HFold(cfg, world, h, hits, k, directionX, velocityLastFrame);
            r.velocity.y == h.velocity.y && r.slope == h.slope && r.ascended == h.ascended
  {
    if k > 0 {
      FlatSweepKeepsVertical(cfg, world, h, hits, k - 1, directionX, velocityLastFrame);
    }
  }

  /** In a sound world the horizontal sweep keeps a climbing slope walkable. */
  lemma {:induction false} HFoldKeepsWalkable(cfg: SweepConfig, world: World, h: HSweep, hits: seq<Hit>, k: nat,
                                              directionX: int, velocityLastFrame: Vec2)
    requires k <= |hits|
    requires world.Sound()
    requires ClimbWalkable(h.slope, cfg.maxSlopeAngle)
    ensures ClimbWalkable(HFold(cfg, world, h, hits, k, directionX, velocityLastFrame).slope, cfg.maxSlopeAngle)
  {
    if k > 0 {
      var prev := HFold(cfg, world, h, hits, k - 1, directionX, velocityLastFrame);
      HFoldKeepsWalkable(cfg, world, h, hits, k - 1, directionX, velocityLastFrame);
      var hit := hits[k - 1];
      if hit.Found() && hit.distance <= prev.rayLength && WalkableHit(cfg, world, hit) && k - 1 == 0 {
        ClimbKeepsWalkable(world, prev.velocity, velocityLastFrame, prev.slope, hit.normal, hit.distance,
                           cfg.skinWidth, directionX, cfg.maxSlopeAngle);
      }
    }
  }

  // ---------------------------------------------------------------- vertical phase

  /** The vertical loop's variables. */
  datatype VSweep = VSweep(velocity: Vec2, rayLength: real, contacts: ContactState)

  /** The ceiling correction's division is safe for this slope state. */
  predicate CeilingSafe(trig: Trig, s: SlopeState)
  {
    CeilingCorrectionApplies(s) ==> trig.tan(s.angle) != 0.0
  }

  /** One turn of the vertical loop: a hit within the ray sets y to stop a skin width short of
      it, shortens the ray to the hit, lets the slope handler correct x against a ceiling, and
      writes the below/above flags. */
  function VStep(cfg: SweepConfig, world: World, slope: SlopeState, h: VSweep, hit: Hit, directionY: real)
    : (r: VSweep)
    requires cfg.hasSlopeHandler ==> CeilingSafe(world.trig, slope)
    ensures !(hit.Found() && hit.distance <= h.rayLength) ==> r == h
    ensures hit.Found() && hit.distance <= h.rayLength ==>
              r.rayLength == hit.distance &&
              r.contacts == WithVertical(h.contacts, directionY == -1.0, directionY == 1.0)
    ensures !cfg.hasSlopeHandler || !CeilingCorrectionApplies(slope) ==> r.velocity.x == h.velocity.x
  {
    if hit.Found() && hit.distance <= h.rayLength then
      var v := h.velocity.(y := (hit.distance - cfg.skinWidth) * directionY);
      VSweep(if cfg.hasSlopeHandler then PreventCeilingJittersRule(world.trig, v, slope) else v,
             hit.distance, WithVertical(h.contacts, directionY == -1.0, directionY == 1.0))
    else h
  }

  /** The vertical loop after its first `k` turns: the ray only gets shorter. */
  function VFold(cfg: SweepConfig, world: World, slope: SlopeState, h: VSweep, hits: seq<Hit>, k: nat,
                 directionY: real): (r: VSweep)
    requires k <= |hits|
    requires cfg.hasSlopeHandler ==> CeilingSafe(world.trig, slope)
    ensures r.rayLength <= h.rayLength
  {
    if k == 0 then h
    else VStep(cfg, world, slope, VFold(cfg, world, slope, h, hits, k - 1, directionY), hits[k - 1], directionY)
  }

  /** The vertical ray origins: the top corners when rising, the bottom corners otherwise, each
      moved on by the pending x. */
  function VOrigins(box: Caster, skinWidth: real, directionY: real, x: real): (o: seq<Vec2>)
    ensures |o| == 2
  {
    var castPos := if directionY == 1.0 then [TopLeft(box, skinWidth), TopRight(box, skinWidth)]
                   else [BottomLeft(box, skinWidth), BottomRight(box, skinWidth)];
    [castPos[0].(x := castPos[0].x + x), castPos[1].(x := castPos[1].x + x)]
  }

  /** The vertical phase's results. */
  datatype VResult = VResult(velocity: Vec2, contacts: ContactState, slope: SlopeState, fallTimer: real)

  /** The two vertical hits, cast with the mask LayerMaskWithSemiSolid gives. */
  function VHits(cfg: SweepConfig, world: World, box: Caster, velocity: Vec2, mask: Mask): (hits: seq<Hit>)
    ensures |hits| == 2
  {
    var directionY := Sign(velocity.y) as real;
    ProbeAll(world, cfg.myCollider, Vec2(0.0, directionY), VOrigins(box, cfg.skinWidth, directionY, velocity.x),
             Abs(velocity.y) + cfg.skinWidth, mask)
  }

  /** The vertical loop over both hits. */
  function VLoop(cfg: SweepConfig, world: World, box: Caster, fixedDeltaTime: real, velocity: Vec2,
                 contacts: ContactState, slope: SlopeState, fallTimer: real): VSweep
    requires cfg.hasSlopeHandler ==> CeilingSafe(world.trig, slope)
  {
    var m := LayerMaskWithSemiSolidRule(cfg, fallTimer, fixedDeltaTime, Sign(velocity.y));
    VFold(cfg, world, slope, VSweep(velocity, Abs(velocity.y) + cfg.skinWidth, contacts),
          VHits(cfg, world, box, velocity, m.mask), 2, Sign(velocity.y) as real)
  }

  /** VerticalCollisions: the loop, then the joint-catching correction. */
  function VerticalRule(cfg: SweepConfig, world: World, box: Caster, fixedDeltaTime: real, velocity: Vec2,
                        contacts: ContactState, slope: SlopeState, fallTimer: real): (r: VResult)
    requires cfg.hasSlopeHandler ==> CeilingSafe(world.trig, slope)
    ensures r.fallTimer == LayerMaskWithSemiSolidRule(cfg, fallTimer, fixedDeltaTime, Sign(velocity.y)).fallTimer
    ensures !cfg.hasSlopeHandler ==> r.slope == slope
    ensures r.contacts.hitByOther == contacts.hitByOther
    ensures r.contacts.Left() == contacts.Left() && r.contacts.Right() == contacts.Right()
    ensures !(contacts.Below() && contacts.Above()) ==> !(r.contacts.Below() && r.contacts.Above())
    ensures r.contacts.Below() && !contacts.Below() ==> velocity.y < 0.0
    ensures r.contacts.Above() && !contacts.Above() ==> velocity.y > 0.0
  {
    var m := LayerMaskWithSemiSolidRule(cfg, fallTimer, fixedDeltaTime, Sign(velocity.y));
    var f := VLoop(cfg, world, box, fixedDeltaTime, velocity, contacts, slope, fallTimer);
    VFoldOneVerticalSide(cfg, world, slope, VSweep(velocity, Abs(velocity.y) + cfg.skinWidth, contacts),
                         VHits(cfg, world, box, velocity, m.mask), 2, Sign(velocity.y) as real);
    if cfg.hasSlopeHandler then
      var a := CounteractJointCatchingRule(world, f.velocity, slope, cfg.skinWidth, m.mask, box);
      VResult(a.velocity, f.contacts, a.slope, m.fallTimer)
    else VResult(f.velocity, f.contacts, slope, m.fallTimer)
  }

  /** The vertical loop never lengthens the move: along the direction of travel y ends no
      farther than it started, and the ray never grows past its first length. */
  lemma {:induction false} VFoldNeverLengthens(cfg: SweepConfig, world: World, slope: SlopeState, v0: Vec2,
                                               contacts: ContactState, hits: seq<Hit>, k: nat)
    requires k <= |hits|
    requires cfg.hasSlopeHandler ==> CeilingSafe(world.trig, slope)
    requires v0.y != 0.0
    ensures var r := VFold(cfg, world, slope, VSweep(v0, Abs(v0.y) + cfg.skinWidth, contacts), hits, k,
                           Sign(v0.y) as real);
            r.rayLength <= Abs(v0.y) + cfg.skinWidth &&
            r.velocity.y * (Sign(v0.y) as real) <= Abs(v0.y)
  {
    var dirY := Sign(v0.y) as real;
    if k > 0 {
      VFoldNeverLengthens(cfg, world, slope, v0, contacts, hits, k - 1);
      var prev := VFold(cfg, world, slope, VSweep(v0, Abs(v0.y) + cfg.skinWidth, contacts), hits, k - 1, dirY);
      var hit := hits[k - 1];
      if hit.Found() && hit.distance <= prev.rayLength {
        var r := VStep(cfg, world, slope, prev, hit, dirY);
        assert dirY * dirY == 1.0;
        assert r.velocity.y * dirY == hit.distance - cfg.skinWidth;
      }
    }
  }

  /** The vertical loop writes only below and above, never both, and each only in its own
      direction of travel. */
  lemma {:induction false} VFoldOneVerticalSide(cfg: SweepConfig, world: World, slope: SlopeState, h: VSweep,
                                                hits: seq<Hit>, k: nat, directionY: real)
    requires k <= |hits|
    requires cfg.hasSlopeHandler ==> CeilingSafe(world.trig, slope)
    ensures var r := VFold(cfg, world, slope, h, hits, k, directionY);
            (!(h.contacts.Below() && h.contacts.Above()) ==> !(r.contacts.Below() && r.contacts.Above())) &&
            (r.contacts.Below() ==> h.contacts.Below() || directionY == -1.0) &&
            (r.contacts.Above() ==> h.contacts.Above() || directionY == 1.0) &&
            r.contacts.hitByOther == h.contacts.hitByOther &&
            r.contacts.Left() == h.contacts.Left() && r.contacts.Right() == h.contacts.Right()
  {
    if k > 0 {
      VFoldOneVerticalSide(cfg, world, slope, h, hits, k - 1, directionY);
    }
  }

  // ---------------------------------------------------------------- the whole step

  /** The state ApplyCollisions starts from: contacts cleared and, with a slope handler, the
      slope state cleared, so TestDescending's sliding-down guard never fires in the sweep. */
  function BeginRule(cfg: SweepConfig, st: SweepState): (r: SweepState)
    ensures r.contacts == NoContact
    ensures cfg.hasSlopeHandler ==> r.slope == ClearedSlope && !r.slope.SlidingDownMax()
    ensures !cfg.hasSlopeHandler ==> r.slope == st.slope
    ensures r.platform == st.platform && r.fallTimer == st.fallTimer
    ensures r.hCastDirection == st.hCastDirection && r.overrideIsGrounded == st.overrideIsGrounded
  {
    st.(contacts := NoContact, slope := if cfg.hasSlopeHandler then ClearedSlope else st.slope)
  }

  /** The descending check: only when not rising and with a slope handler. */
  function DescendRule(cfg: SweepConfig, world: World, box: Caster, velocity: Vec2, slope: SlopeState)
    : (o: Outcome)
    ensures !(velocity.y <= 0.0 && cfg.hasSlopeHandler) ==> o == Outcome(velocity, slope, false)
    ensures o.result ==> velocity.y <= 0.0 && cfg.hasSlopeHandler && o.slope.directionOnSlope == Descending
    ensures o.slope == slope || o.slope.directionOnSlope == Descending
  {
    if velocity.y <= 0.0 && cfg.hasSlopeHandler then
      var probe := TestDescendingRule(world, slope, velocity, box, cfg.AllSolid(), cfg.skinWidth);
      if probe.Found() then
        DoDescendRule(world, cfg.maxSlopeAngle, velocity, slope, cfg.skinWidth, probe.distance, probe.normal)
      else Outcome(velocity, slope, false)
    else Outcome(velocity, slope, false)
  }

  /** The remembered horizontal cast direction: the sign of x, kept when x is zero. */
  function CastDirection(previous: int, velocity: Vec2): (d: int)
    ensures velocity.x != 0.0 ==> d == Sign(velocity.x) && d != 0
    ensures velocity.x == 0.0 ==> d == previous
  {
    if velocity.x != 0.0 then Sign(velocity.x) else previous
  }

  /** The platform phase's result: the carried displacement, the handler's new state and the timer
      (the platform's floor mask is taken first, and that ticks the fall-through timer). */
  datatype Carried = Carried(velocity: Vec2, platform: PlatformState, fallTimer: real)

  function PlatformRule(cfg: SweepConfig, world: World, box: Caster, fixedDeltaTime: real, velocity: Vec2,
                        hCastDirection: int, platform: PlatformState, fallTimer: real): (r: Carried)
    ensures !cfg.hasPlatformHandler ==> r == Carried(velocity, platform, fallTimer)
    ensures cfg.hasPlatformHandler ==>
              r.fallTimer == LayerMaskWithSemiSolidRule(cfg, fallTimer, fixedDeltaTime, Sign(velocity.y)).fallTimer &&
              IsReset(r.platform)
  {
    if cfg.hasPlatformHandler then
      var m := LayerMaskWithSemiSolidRule(cfg, fallTimer, fixedDeltaTime, Sign(velocity.y));
      var f := HandleMovingPlatformsRule(cfg.platform, world, platform, box, cfg.skinWidth, cfg.myCollider, velocity,
                                         hCastDirection, cfg.AllSolid(), m.mask);
      Carried(velocity.Plus(f.speed), f.state, m.fallTimer)
    else Carried(velocity, platform, fallTimer)
  }

  /** VerticalRule spelled out from the mask and the loop. */
  lemma VerticalRuleUnfolds(cfg: SweepConfig, world: World, box: Caster, fixedDeltaTime: real, velocity: Vec2,
                            contacts: ContactState, slope: SlopeState, fallTimer: real, m: MaskTick, f: VSweep)
    requires cfg.hasSlopeHandler ==> CeilingSafe(world.trig, slope)
    requires m == LayerMaskWithSemiSolidRule(cfg, fallTimer, fixedDeltaTime, Sign(velocity.y))
    requires f == VLoop(cfg, world, box, fixedDeltaTime, velocity, contacts, slope, fallTimer)
    ensures VerticalRule(cfg, world, box, fixedDeltaTime, velocity, contacts, slope, fallTimer) ==
            if cfg.hasSlopeHandler then
              var a := CounteractJointCatchingRule(world, f.velocity, slope, cfg.skinWidth, m.mask, box);
              VResult(a.velocity, f.contacts, a.slope, m.fallTimer)
            else VResult(f.velocity, f.contacts, slope, m.fallTimer)
  {
  }

  /** The ground flag after ApplyCollisions: or-ed with a slope walked up or down and with a
      ForceGrounded request. */
  function WithBelowForced(c: ContactState, forced: bool): (r: ContactState)
    ensures r.Below() == (c.Below() || forced)
    ensures r.Left() == c.Left() && r.Right() == c.Right() && r.Above() == c.Above()
    ensures r.hitByOther == c.hitByOther
  {
    c.(state := c.state.(w := c.state.w || forced))
  }

  /** The first part of ApplyCollisions: the displacement after the descent and the platform
      carry, the state then (contacts cleared) and whether a slope was walked down. */
  datatype Prelude = Prelude(velocity: Vec2, state: SweepState, descended: bool)

  /** Clear, descend, pick the cast direction and ride platforms. */
  function PreludeRule(cfg: SweepConfig, world: World, box: Caster, fixedDeltaTime: real, st: SweepState,
                       velocity: Vec2): (r: Prelude)
    ensures r.state.contacts == NoContact && r.state.overrideIsGrounded == st.overrideIsGrounded
    ensures r.descended ==> cfg.hasSlopeHandler && velocity.y <= 0.0
  {
    var s0 := BeginRule(cfg, st);
    var d := DescendRule(cfg, world, box, velocity, s0.slope);
    var hCast := CastDirection(st.hCastDirection, d.velocity);
    var carried := PlatformRule(cfg, world, box, fixedDeltaTime, d.velocity, hCast, st.platform, st.fallTimer);
    Prelude(carried.velocity, s0.(slope := d.slope, platform := carried.platform, fallTimer := carried.fallTimer,
                                  hCastDirection := hCast),
            d.result)
  }

  /** The prelude leaves the contacts cleared and, with a slope handler, the slope state cleared
      or descending but never a climb; it picks the cast direction from the descended
      displacement, keeps the ForceGrounded request, leaves the platform handler reset and ticks
      the fall-through timer at most once. */
  lemma PreludeFacts(cfg: SweepConfig, world: World, box: Caster, fixedDeltaTime: real, st: SweepState,
                     velocity: Vec2)
    ensures var p := PreludeRule(cfg, world, box, fixedDeltaTime, st, velocity);
            p.state.contacts == NoContact &&
            (cfg.hasSlopeHandler ==> p.state.slope.directionOnSlope != Climbing) &&
            (!cfg.hasSlopeHandler ==> p.state.slope == st.slope && !p.descended)
    ensures var p := PreludeRule(cfg, world, box, fixedDeltaTime, st, velocity);
            p.state.hCastDirection == CastDirection(st.hCastDirection,
                                                    DescendRule(cfg, world, box, velocity, BeginRule(cfg, st).slope).velocity) &&
            p.state.overrideIsGrounded == st.overrideIsGrounded
    ensures var p := PreludeRule(cfg, world, box, fixedDeltaTime, st, velocity);
            (cfg.hasPlatformHandler ==> IsReset(p.state.platform)) &&
            (!cfg.hasPlatformHandler ==> p.state.platform == st.platform && p.state.fallTimer == st.fallTimer)
    ensures var p := PreludeRule(cfg, world, box, fixedDeltaTime, st, velocity);
            (!cfg.hasFallThroughHandler ==> p.state.fallTimer == st.fallTimer) &&
            (p.state.fallTimer == st.fallTimer || p.state.fallTimer == Ticked(st.fallTimer, fixedDeltaTime))
  {
  }

  /** The two sweeps' results: the vertical phase's and whether a slope was walked up. */
  datatype Swept = Swept(vertical: VResult, ascended: bool)

  /** Sweep horizontally, then vertically if y is not zero. */
  function SweptRule(cfg: SweepConfig, world: World, box: Caster, fixedDeltaTime: real, velocity: Vec2,
                     contacts: ContactState, slope: SlopeState, fallTimer: real, hCast: int, unaltered: Vec2)
    : (r: Swept)
    requires world.Sound()
    requires cfg.hasSlopeHandler ==> ClimbWalkable(slope, cfg.maxSlopeAngle)
    ensures r.vertical.contacts.hitByOther == contacts.hitByOther
    ensures !(contacts.Left() && contacts.Right()) ==> !(r.vertical.contacts.Left() && r.vertical.contacts.Right())
    ensures !cfg.hasSlopeHandler ==> r.vertical.slope == slope && !r.ascended
  {
    var h := HorizontalRule(cfg, world, box, velocity, contacts, slope, unaltered, hCast, cfg.AllSolid());
    if h.velocity.y == 0.0 then Swept(VResult(h.velocity, h.contacts, h.slope, fallTimer), h.ascended)
    else if cfg.hasSlopeHandler then
      HFoldKeepsWalkable(cfg, world, HSweep(velocity, HInitialLength(velocity, cfg.skinWidth), contacts, slope, false),
                         HHits(cfg, world, box, velocity, hCast, cfg.AllSolid()), 3, hCast, unaltered);
      WalkableClimbHasNonzeroTangent(world, h.slope, cfg.maxSlopeAngle);
      Swept(VerticalRule(cfg, world, box, fixedDeltaTime, h.velocity, h.contacts, h.slope, fallTimer), h.ascended)
    else Swept(VerticalRule(cfg, world, box, fixedDeltaTime, h.velocity, h.contacts, h.slope, fallTimer), h.ascended)
  }

  /** The rest of ApplyCollisions from the prelude: the two sweeps, then the ground flag forced
      and the recoil recorded against the displacement the step started with. */
  function SweepRule(cfg: SweepConfig, world: World, box: Caster, fixedDeltaTime: real, p: Prelude,
                     unaltered: Vec2): (r: SweepResult)
    requires world.Sound()
    requires cfg.hasSlopeHandler ==> ClimbWalkable(p.state.slope, cfg.maxSlopeAngle)
    ensures r.velocity.Plus(r.recoil) == unaltered
    ensures !r.state.overrideIsGrounded
    ensures p.descended || p.state.overrideIsGrounded ==> r.state.contacts.Below()
    ensures r.state.platform == p.state.platform && r.state.hCastDirection == p.state.hCastDirection
  {
    var w := SweptRule(cfg, world, box, fixedDeltaTime, p.velocity, p.state.contacts, p.state.slope, p.state.fallTimer,
                       p.state.hCastDirection, unaltered);
    var forced := w.ascended || p.descended || p.state.overrideIsGrounded;
    SweepResult(w.vertical.velocity, unaltered.Minus(w.vertical.velocity),
                SweepState(WithBelowForced(w.vertical.contacts, forced), w.vertical.slope, p.state.platform,
                           w.vertical.fallTimer, p.state.hCastDirection, false))
  }

  /** The sweep's recoil is what it removed from the move; it consumes the ForceGrounded request
      and grounds the character after a descent or such a request; it keeps the hit-by-other
      flags, the side flags exclusive, the cast direction and the platform state; and it ticks the
      fall-through timer at most once more. */
  lemma SweepFacts(cfg: SweepConfig, world: World, box: Caster, fixedDeltaTime: real, p: Prelude, unaltered: Vec2)
    requires world.Sound()
    requires cfg.hasSlopeHandler ==> ClimbWalkable(p.state.slope, cfg.maxSlopeAngle)
    ensures var r := SweepRule(cfg, world, box, fixedDeltaTime, p, unaltered);
            r.recoil == unaltered.Minus(r.velocity) && r.velocity.Plus(r.recoil) == unaltered
    ensures var r := SweepRule(cfg, world, box, fixedDeltaTime, p, unaltered);
            !r.state.overrideIsGrounded &&
            (p.state.overrideIsGrounded || p.descended ==> r.state.contacts.Below())
    ensures var r := SweepRule(cfg, world, box, fixedDeltaTime, p, unaltered);
            r.state.contacts.hitByOther == p.state.contacts.hitByOther &&
            (!(p.state.contacts.Left() && p.state.contacts.Right()) ==>
               !(r.state.contacts.Left() && r.state.contacts.Right()))
    ensures var r := SweepRule(cfg, world, box, fixedDeltaTime, p, unaltered);
            r.state.hCastDirection == p.state.hCastDirection && r.state.platform == p.state.platform &&
            (!cfg.hasSlopeHandler ==> r.state.slope == p.state.slope)
    ensures var r := SweepRule(cfg, world, box, fixedDeltaTime, p, unaltered);
            (!cfg.hasFallThroughHandler ==> r.state.fallTimer == p.state.fallTimer) &&
            (r.state.fallTimer == p.state.fallTimer || r.state.fallTimer == Ticked(p.state.fallTimer, fixedDeltaTime))
  {
  }

  /** ApplyCollisions. The order is: clear, descend, pick the cast direction, ride platforms,
      sweep horizontally, sweep vertically if y is not zero, force the ground flag, and record
      the recoil. */
  function ApplyCollisionsRule(cfg: SweepConfig, world: World, box: Caster, fixedDeltaTime: real,
                               st: SweepState, velocity: Vec2): (r: SweepResult)
    requires world.Sound()
    ensures r.velocity.Plus(r.recoil) == velocity
    ensures !r.state.overrideIsGrounded && (st.overrideIsGrounded ==> r.state.contacts.Below())
  {
    var p := PreludeRule(cfg, world, box, fixedDeltaTime, st, velocity);
    PreludeFacts(cfg, world, box, fixedDeltaTime, st, velocity);
    SweepRule(cfg, world, box, fixedDeltaTime, p, velocity)
  }

  /** What one ApplyCollisions promises: the recoil is exactly what the sweep removed from the
      move; a ForceGrounded request grounds the character and is consumed; left and right are
      never both set and the hit-by-other flags are never set; the cast direction follows the
      descended displacement; the slope state changes only with a slope handler, the platform
      handler is left reset, and the fall-through timer ticks at most twice. */
  lemma ApplyCollisionsFacts(cfg: SweepConfig, world: World, box: Caster, fixedDeltaTime: real,
                             st: SweepState, velocity: Vec2)
    requires world.Sound()
    ensures var r := ApplyCollisionsRule(cfg, world, box, fixedDeltaTime, st, velocity);
            r.recoil == velocity.Minus(r.velocity) && r.velocity.Plus(r.recoil) == velocity
    ensures var r := ApplyCollisionsRule(cfg, world, box, fixedDeltaTime, st, velocity);
            !r.state.overrideIsGrounded && (st.overrideIsGrounded ==> r.state.contacts.Below())
    ensures var r := ApplyCollisionsRule(cfg, world, box, fixedDeltaTime, st, velocity);
            r.state.contacts.hitByOther == AllFalse4 && !(r.state.contacts.Left() && r.state.contacts.Right())
    ensures var r := ApplyCollisionsRule(cfg, world, box, fixedDeltaTime, st, velocity);
            r.state.hCastDirection ==
            CastDirection(st.hCastDirection, DescendRule(cfg, world, box, velocity, BeginRule(cfg, st).slope).velocity)
    ensures var r := ApplyCollisionsRule(cfg, world, box, fixedDeltaTime, st, velocity);
            (!cfg.hasSlopeHandler ==> r.state.slope == st.slope) &&
            (cfg.hasPlatformHandler ==> IsReset(r.state.platform)) &&
            (!cfg.hasPlatformHandler ==> r.state.platform == st.platform) &&
            (!cfg.hasFallThroughHandler ==> r.state.fallTimer == st.fallTimer)
    ensures var r := ApplyCollisionsRule(cfg, world, box, fixedDeltaTime, st, velocity);
            r.state.fallTimer == st.fallTimer || r.state.fallTimer == Ticked(st.fallTimer, fixedDeltaTime) ||
            r.state.fallTimer == Ticked(Ticked(st.fallTimer, fixedDeltaTime), fixedDeltaTime)
  {
    var p := PreludeRule(cfg, world, box, fixedDeltaTime, st, velocity);
    PreludeFacts(cfg, world, box, fixedDeltaTime, st, velocity);
    SweepFacts(cfg, world, box, fixedDeltaTime, p, velocity);
  }

  /** The side flags stay exclusive; nothing else in the contacts changes. */
  lemma {:induction false} HFoldSidesApart(cfg: SweepConfig, world: World, h: HSweep, hits: seq<Hit>, k: nat,
                                           directionX: int, velocityLastFrame: Vec2)
    requires k <= |hits|
    ensures var r := HFold(cfg, world, h, hits, k, directionX, velocityLastFrame);
            (!(h.contacts.Left() && h.contacts.Right()) ==> !(r.contacts.Left() && r.contacts.Right())) &&
            r.contacts.hitByOther == h.contacts.hitByOther &&
            r.contacts.Above() == h.contacts.Above() && r.contacts.Below() == h.contacts.Below()
  {
    if k > 0 {
      HFoldSidesApart(cfg, world, h, hits, k - 1, directionX, velocityLastFrame);
    }
  }

  /** With both a moving-platform handler and a fall-through handler, LayerMaskWithSemiSolid is
      called twice in one step (once for the platform floor mask, once by the vertical sweep),
      so a character falling through a semi-solid spends the fall-through wait twice as fast.
      Shown for a step that starts with the platform handler reset, moving floors off and no
      slope handler. */
  lemma {:induction false} FallTimerTicksTwice(cfg: SweepConfig, world: World, box: Caster, fixedDeltaTime: real,
                                               st: SweepState, velocity: Vec2)
    requires world.Sound()
    requires !cfg.hasSlopeHandler && cfg.hasPlatformHandler && cfg.hasFallThroughHandler
    requires !cfg.platform.supportMovingFloors && IsReset(st.platform)
    requires velocity.y < 0.0
    ensures ApplyCollisionsRule(cfg, world, box, fixedDeltaTime, st, velocity).state.fallTimer ==
            Ticked(Ticked(st.fallTimer, fixedDeltaTime), fixedDeltaTime)
  {
    var s0 := BeginRule(cfg, st);
    var d := DescendRule(cfg, world, box, velocity, s0.slope);
    assert d.velocity == velocity;
    var hCast := CastDirection(st.hCastDirection, velocity);
    var m := LayerMaskWithSemiSolidRule(cfg, st.fallTimer, fixedDeltaTime, Sign(velocity.y));
    ResetHandlerOnlyUsesWeakFloor(cfg.platform, world, st.platform, box, cfg.skinWidth, cfg.myCollider, velocity,
                                  hCast, cfg.AllSolid(), m.mask);
    var carried := PlatformRule(cfg, world, box, fixedDeltaTime, velocity, hCast, st.platform, st.fallTimer);
    assert carried.velocity.y == velocity.y;
    assert carried.fallTimer == Ticked(st.fallTimer, fixedDeltaTime);
  }

  /** The character-collider component. The optional handlers are null when absent. */
  class RaycastCollider2D {
    const myCollider: ColliderRef
    const dimensions: CharaCasterDimensions
    const skinWidth: real
    const collisions: PlatformerCollisions
    const collisionRecoil: CollisionRecoil
    const solid: Mask
    const semiSolid: Mask
    const slopeHandler: RaycastSlopeCollider2D?
    const fallThroughHandler: FallThroughSemiSolid?
    const movingPlatformHandler: MovingPlatformHandler?

    var hCastDirection: int
    var overrideIsGrounded: bool

    /** The inspector values, the components Awake fetches and the optional handlers. */
    constructor (myCollider: ColliderRef, dimensions: CharaCasterDimensions, skinWidth: real,
                 collisions: PlatformerCollisions, collisionRecoil: CollisionRecoil, solid: Mask, semiSolid: Mask,
                 slopeHandler: RaycastSlopeCollider2D?, fallThroughHandler: FallThroughSemiSolid?,
                 movingPlatformHandler: MovingPlatformHandler?)
      ensures this.myCollider == myCollider && this.dimensions == dimensions && this.skinWidth == skinWidth
      ensures this.collisions == collisions && this.collisionRecoil == collisionRecoil
      ensures this.solid == solid && this.semiSolid == semiSolid
      ensures this.slopeHandler == slopeHandler && this.fallThroughHandler == fallThroughHandler
      ensures this.movingPlatformHandler == movingPlatformHandler
      ensures hCastDirection == 0 && !overrideIsGrounded
    {
      this.myCollider := myCollider;
      this.dimensions := dimensions;
      this.skinWidth := skinWidth;
      this.collisions := collisions;
      this.collisionRecoil := collisionRecoil;
      this.solid := solid;
      this.semiSolid := semiSolid;
      this.slopeHandler := slopeHandler;
      this.fallThroughHandler := fallThroughHandler;
      this.movingPlatformHandler := movingPlatformHandler;
      hCastDirection := 0;
      overrideIsGrounded := false;
    }

    function Config(): SweepConfig
    {
      SweepConfig(myCollider, skinWidth, solid, semiSolid,
                  slopeHandler != null, if slopeHandler != null then slopeHandler.maxSlopeAngle else 45.0,
                  fallThroughHandler != null,
                  movingPlatformHandler != null,
                  if movingPlatformHandler != null then movingPlatformHandler.Config() else DefaultPlatformConfig)
    }

    function SlopeObjects(): set<object>
    {
      if slopeHandler != null then {slopeHandler.collisions} else {}
    }

    function TimerObjects(): set<object>
    {
      if fallThroughHandler != null then {fallThroughHandler} else {}
    }

    function PlatformObjects(): set<object>
    {
      if movingPlatformHandler != null then {movingPlatformHandler} else {}
    }

    /** Every object ApplyCollisions writes, besides the Velocity it is handed. */
    function Footprint(): set<object>
    {
      {this, collisions, collisionRecoil} + SlopeObjects() + TimerObjects() + PlatformObjects()
    }

    function SlopeSnapshot(): SlopeState
      reads SlopeObjects()
    {
      if slopeHandler != null then slopeHandler.collisions.Snapshot() else ClearedSlope
    }

    function FallTimer(): real
      reads TimerObjects()
    {
      if fallThroughHandler != null then fallThroughHandler.timer else 0.0
    }

    function PlatformSnapshot(): PlatformState
      reads PlatformObjects()
    {
      if movingPlatformHandler != null then movingPlatformHandler.State() else InitialPlatform
    }

    function Snapshot(): SweepState
      reads Footprint()
    {
      SweepState(collisions.Snapshot(), SlopeSnapshot(), PlatformSnapshot(), FallTimer(), hCastDirection,
                 overrideIsGrounded)
    }

    /** ForceGrounded: the next ApplyCollisions reports the character grounded. */
    method ForceGrounded()
      modifies this`overrideIsGrounded
      ensures overrideIsGrounded
    {
      overrideIsGrounded := overrideIsGrounded || true;
    }

    method ApplyCollisions(world: World, velocity: Velocity, fixedDeltaTime: real)
      requires world.Sound()
      modifies Footprint(), velocity
      ensures var r := ApplyCollisionsRule(Config(), world, dimensions.Box(), fixedDeltaTime, old(Snapshot()),
                                           old(velocity.Value));
              velocity.Value == r.velocity && collisionRecoil.Value == r.recoil
      ensures var r := ApplyCollisionsRule(Config(), world, dimensions.Box(), fixedDeltaTime, old(Snapshot()),
                                           old(velocity.Value));
              collisions.Snapshot() == r.state.contacts && SlopeSnapshot() == r.state.slope
      ensures var r := ApplyCollisionsRule(Config(), world, dimensions.Box(), fixedDeltaTime, old(Snapshot()),
                                           old(velocity.Value));
              PlatformSnapshot() == r.state.platform && FallTimer() == r.state.fallTimer
      ensures var r := ApplyCollisionsRule(Config(), world, dimensions.Box(), fixedDeltaTime, old(Snapshot()),
                                           old(velocity.Value));
              hCastDirection == r.state.hCastDirection && overrideIsGrounded == r.state.overrideIsGrounded
      ensures fallThroughHandler != null ==> fallThroughHandler.ignoredCollider == old(fallThroughHandler.ignoredCollider)
    {
      ghost var cfg, box, st := Config(), dimensions.Box(), Snapshot();
      var unaltered := velocity.Value;
      var didDescendSlope := StartSweep(world, velocity, fixedDeltaTime, cfg, box, st, unaltered);
      ghost var p := PreludeRule(cfg, world, box, fixedDeltaTime, st, unaltered);
      PreludeFacts(cfg, world, box, fixedDeltaTime, st, unaltered);
      FinishSweep(world, velocity, fixedDeltaTime, unaltered, didDescendSlope, cfg, box, p);
    }

    /** Clear, descend, pick the cast direction and ride platforms. */
    method StartSweep(world: World, velocity: Velocity, fixedDeltaTime: real, ghost cfg: SweepConfig, ghost box: Caster,
                      ghost st: SweepState, ghost v0: Vec2)
      returns (didDescendSlope: bool)
      requires cfg == Config() && box == dimensions.Box() && st == Snapshot() && v0 == velocity.Value
      modifies Footprint() - {collisionRecoil}, velocity
      ensures var p := PreludeRule(cfg, world, box, fixedDeltaTime, st, v0);
              velocity.Value == p.velocity && didDescendSlope == p.descended
      ensures var p := PreludeRule(cfg, world, box, fixedDeltaTime, st, v0);
              collisions.Snapshot() == p.state.contacts && SlopeSnapshot() == p.state.slope
      ensures var p := PreludeRule(cfg, world, box, fixedDeltaTime, st, v0);
              PlatformSnapshot() == p.state.platform && FallTimer() == p.state.fallTimer
      ensures var p := PreludeRule(cfg, world, box, fixedDeltaTime, st, v0);
              hCastDirection == p.state.hCastDirection && overrideIsGrounded == p.state.overrideIsGrounded
      ensures fallThroughHandler != null ==> fallThroughHandler.ignoredCollider == old(fallThroughHandler.ignoredCollider)
    {
      didDescendSlope := BeginSweep(world, velocity, cfg, box, st);
      PlatformPhase(world, velocity, fixedDeltaTime, cfg, box, velocity.Value, st.platform, st.fallTimer);
    }

    /** Clear the contacts and the slope state, descend, and pick the cast direction. */
    method BeginSweep(world: World, velocity: Velocity, ghost cfg: SweepConfig, ghost box: Caster,
                      ghost st: SweepState)
      returns (didDescendSlope: bool)
      requires cfg == Config() && box == dimensions.Box() && st == Snapshot()
      modifies this, collisions, SlopeObjects(), velocity
      ensures var d := DescendRule(cfg, world, box, old(velocity.Value), BeginRule(cfg, st).slope);
              velocity.Value == d.velocity && didDescendSlope == d.result && SlopeSnapshot() == d.slope
      ensures var d := DescendRule(cfg, world, box, old(velocity.Value), BeginRule(cfg, st).slope);
              hCastDirection == CastDirection(st.hCastDirection, d.velocity)
      ensures collisions.Snapshot() == NoContact && overrideIsGrounded == old(overrideIsGrounded)
    {
      collisions.Clear();
      if slopeHandler != null {
        slopeHandler.ClearCollisions();
      }
      didDescendSlope := DescendPhase(world, velocity, cfg, box);
      if velocity.Value.x != 0.0 {
        hCastDirection := Sign(velocity.Value.x);
      }
    }

    /** Sweep horizontally and vertically, force the ground flag and record the recoil against
        `unaltered`, the displacement the step started with. */
    method FinishSweep(world: World, velocity: Velocity, fixedDeltaTime: real, unaltered: Vec2, didDescendSlope: bool,
                       ghost cfg: SweepConfig, ghost box: Caster, ghost p: Prelude)
      requires cfg == Config() && box == dimensions.Box()
      requires velocity.Value == p.velocity && didDescendSlope == p.descended
      requires collisions.Snapshot() == p.state.contacts && SlopeSnapshot() == p.state.slope
      requires PlatformSnapshot() == p.state.platform && FallTimer() == p.state.fallTimer
      requires hCastDirection == p.state.hCastDirection && overrideIsGrounded == p.state.overrideIsGrounded
      requires world.Sound()
      requires cfg.hasSlopeHandler ==> ClimbWalkable(p.state.slope, cfg.maxSlopeAngle)
      modifies this, collisions, collisionRecoil, SlopeObjects(), TimerObjects(), velocity
      ensures var r := SweepRule(cfg, world, box, fixedDeltaTime, p, unaltered);
              velocity.Value == r.velocity && collisionRecoil.Value == r.recoil
      ensures var r := SweepRule(cfg, world, box, fixedDeltaTime, p, unaltered);
              collisions.Snapshot() == r.state.contacts && SlopeSnapshot() == r.state.slope
      ensures var r := SweepRule(cfg, world, box, fixedDeltaTime, p, unaltered);
              FallTimer() == r.state.fallTimer && hCastDirection == r.state.hCastDirection
      ensures !overrideIsGrounded && PlatformSnapshot() == p.state.platform
      ensures fallThroughHandler != null ==> fallThroughHandler.ignoredCollider == old(fallThroughHandler.ignoredCollider)
    {
      var didAscendSlope := Sweeps(world, velocity, fixedDeltaTime, unaltered, cfg, box, p.state);
      Settle(velocity, unaltered, didAscendSlope, didDescendSlope);
    }

    /** The end of ApplyCollisions: the forced ground flag, then the recoil against the velocity
        the sweep started from. */
    method Settle(velocity: Velocity, unaltered: Vec2, didAscendSlope: bool, didDescendSlope: bool)
      modifies this, collisions, collisionRecoil
      ensures collisions.Snapshot() ==
              WithBelowForced(old(collisions.Snapshot()), didAscendSlope || didDescendSlope || old(overrideIsGrounded))
      ensures !overrideIsGrounded && hCastDirection == old(hCastDirection)
      ensures collisionRecoil.Value == unaltered.Minus(velocity.Value)
    {
      ForceGround(didAscendSlope, didDescendSlope);
      collisionRecoil.Value := unaltered.Minus(velocity.Value);
    }

    /** The ground flag or-ed with a slope walked up, a slope walked down and a ForceGrounded
        request, which is then consumed. */
    method ForceGround(didAscendSlope: bool, didDescendSlope: bool)
      modifies this, collisions
      ensures collisions.Snapshot() ==
              WithBelowForced(old(collisions.Snapshot()), didAscendSlope || didDescendSlope || old(overrideIsGrounded))
      ensures !overrideIsGrounded && hCastDirection == old(hCastDirection)
    {
      collisions.SetBelow(collisions.Below() || didAscendSlope);
      collisions.SetBelow(collisions.Below() || didDescendSlope);
      collisions.SetBelow(collisions.Below() || overrideIsGrounded);
      overrideIsGrounded := false;
    }

    /** The horizontal sweep, then the vertical one if y is not zero. */
    method Sweeps(world: World, velocity: Velocity, fixedDeltaTime: real, unaltered: Vec2,
                  ghost cfg: SweepConfig, ghost box: Caster, ghost st: SweepState)
      returns (didAscendSlope: bool)
      requires cfg == Config() && box == dimensions.Box()
      requires st.contacts == collisions.Snapshot() && st.slope == SlopeSnapshot() && st.fallTimer == FallTimer()
      requires st.hCastDirection == hCastDirection
      requires world.Sound()
      requires cfg.hasSlopeHandler ==> ClimbWalkable(st.slope, cfg.maxSlopeAngle)
      modifies velocity, collisions, SlopeObjects(), TimerObjects()
      ensures var w := SweptRule(cfg, world, box, fixedDeltaTime, old(velocity.Value), st.contacts, st.slope,
                                 st.fallTimer, st.hCastDirection, unaltered);
              velocity.Value == w.vertical.velocity && collisions.Snapshot() == w.vertical.contacts
      ensures var w := SweptRule(cfg, world, box, fixedDeltaTime, old(velocity.Value), st.contacts, st.slope,
                                 st.fallTimer, st.hCastDirection, unaltered);
              SlopeSnapshot() == w.vertical.slope && FallTimer() == w.vertical.fallTimer && didAscendSlope == w.ascended
      ensures fallThroughHandler != null ==> fallThroughHandler.ignoredCollider == old(fallThroughHandler.ignoredCollider)
    {
      ghost var v0 := velocity.Value;
      didAscendSlope := HorizontalCollisions(world, velocity, unaltered, hCastDirection, solid + semiSolid);
      ghost var h := HorizontalRule(cfg, world, box, v0, st.contacts, st.slope, unaltered, st.hCastDirection,
                                    cfg.AllSolid());
      if velocity.Value.y != 0.0 {
        if slopeHandler != null {
          HFoldKeepsWalkable(cfg, world, HSweep(v0, HInitialLength(v0, skinWidth), st.contacts, st.slope, false),
                             HHits(cfg, world, box, v0, st.hCastDirection, cfg.AllSolid()), 3, st.hCastDirection,
                             unaltered);
          WalkableClimbHasNonzeroTangent(world, h.slope, cfg.maxSlopeAngle);
        }
        VerticalCollisions(world, velocity, fixedDeltaTime, cfg, box, velocity.Value, collisions.Snapshot(),
                           SlopeSnapshot(), FallTimer());
      }
    }

    /** The descending check of ApplyCollisions: only when not rising and with a slope handler. */
    method DescendPhase(world: World, velocity: Velocity, ghost cfg: SweepConfig, ghost box: Caster)
      returns (didDescendSlope: bool)
      requires cfg == Config() && box == dimensions.Box()
      modifies velocity, SlopeObjects()
      ensures velocity.Value == DescendRule(cfg, world, box, old(velocity.Value), old(SlopeSnapshot())).velocity
      ensures SlopeSnapshot() == DescendRule(cfg, world, box, old(velocity.Value), old(SlopeSnapshot())).slope
      ensures didDescendSlope == DescendRule(cfg, world, box, old(velocity.Value), old(SlopeSnapshot())).result
    {
      didDescendSlope := false;
      if velocity.Value.y <= 0.0 && slopeHandler != null {
        var descenderSlope := slopeHandler.TestDescending(world, velocity.Value, dimensions.Box(), solid + semiSolid,
                                                          skinWidth);
        if descenderSlope.Found() {
          var moved;
          moved, didDescendSlope := slopeHandler.DoDescendSlope(world, velocity.Value, skinWidth,
                                                                descenderSlope.distance, descenderSlope.normal);
          velocity.Value := moved;
        }
      }
    }

    /** The moving-platform part of ApplyCollisions: the floor mask, then the handler's carry. */
    method PlatformPhase(world: World, velocity: Velocity, fixedDeltaTime: real, ghost cfg: SweepConfig,
                         ghost box: Caster, ghost v0: Vec2, ghost platform0: PlatformState, ghost timer0: real)
      requires cfg == Config() && box == dimensions.Box()
      requires v0 == velocity.Value && platform0 == PlatformSnapshot() && timer0 == FallTimer()
      modifies velocity, TimerObjects(), PlatformObjects()
      ensures var c := PlatformRule(cfg, world, box, fixedDeltaTime, v0, hCastDirection, platform0, timer0);
              velocity.Value == c.velocity && PlatformSnapshot() == c.platform && FallTimer() == c.fallTimer
      ensures fallThroughHandler != null ==> fallThroughHandler.ignoredCollider == old(fallThroughHandler.ignoredCollider)
    {
      if movingPlatformHandler != null {
        var floorMask := LayerMaskWithSemiSolid(Sign(velocity.Value.y), fixedDeltaTime);
        var carry := movingPlatformHandler.HandleMovingPlatforms(world, dimensions.Box(), skinWidth, myCollider,
                                                                 velocity.Value, hCastDirection, solid + semiSolid,
                                                                 floorMask);
        velocity.Value := velocity.Value.Plus(carry);
      }
    }

    method HorizontalCollisions(world: World, velocity: Velocity, velocityLastFrame: Vec2, directionX: int,
                                layerMask: Mask)
      returns (didAscendSlope: bool)
      modifies velocity, collisions, SlopeObjects()
      ensures var h := HorizontalRule(Config(), world, dimensions.Box(), old(velocity.Value), old(collisions.Snapshot()),
                                      old(SlopeSnapshot()), velocityLastFrame, directionX, layerMask);
              velocity.Value == h.velocity && collisions.Snapshot() == h.contacts
      ensures var h := HorizontalRule(Config(), world, dimensions.Box(), old(velocity.Value), old(collisions.Snapshot()),
                                      old(SlopeSnapshot()), velocityLastFrame, directionX, layerMask);
              SlopeSnapshot() == h.slope && didAscendSlope == h.ascended
    {
      var rayLength := Min(Abs(velocity.Value.x), skinWidth);
      rayLength := rayLength + skinWidth;
      var hits := HorizontalHits(world, velocity.Value, directionX, rayLength, layerMask);
      ghost var h0 := HSweep(velocity.Value, rayLength, collisions.Snapshot(), SlopeSnapshot(), false);
      didAscendSlope := HorizontalLoop(world, velocity, velocityLastFrame, directionX, hits, rayLength, h0);
    }

    /** The three horizontal casts, from the bottom, middle and top of the side faced. */
    method HorizontalHits(world: World, velocity: Vec2, directionX: int, rayLength: real, layerMask: Mask)
      returns (hits: array<Hit>)
      requires rayLength == HInitialLength(velocity, skinWidth)
      ensures fresh(hits)
      ensures hits[..] == HHits(Config(), world, dimensions.Box(), velocity, directionX, layerMask)
    {
      var side := if directionX == 0 then 1 else directionX;
      var castPoints := new Vec2[3] [BottomPoint(dimensions.Box(), side, skinWidth),
                                     MidPoint(dimensions.Box(), side, skinWidth),
                                     TopPoint(dimensions.Box(), side, skinWidth)];
      assert castPoints[..] == HOrigins(dimensions.Box(), skinWidth, directionX);
      hits := TestPoints(world, myCollider, Vec2(directionX as real, 0.0), castPoints, rayLength, layerMask);
    }

    /** The horizontal loop over the three hits. */
    method HorizontalLoop(world: World, velocity: Velocity, velocityLastFrame: Vec2, directionX: int,
                          hits: array<Hit>, rayLength: real, ghost h0: HSweep)
      returns (didAscendSlope: bool)
      requires hits.Length == 3
      requires h0 == HSweep(velocity.Value, rayLength, collisions.Snapshot(), SlopeSnapshot(), false)
      modifies velocity, collisions, SlopeObjects()
      ensures velocity.Value == HFold(Config(), world, h0, hits[..], 3, directionX, velocityLastFrame).velocity
      ensures collisions.Snapshot() == HFold(Config(), world, h0, hits[..], 3, directionX, velocityLastFrame).contacts
      ensures SlopeSnapshot() == HFold(Config(), world, h0, hits[..], 3, directionX, velocityLastFrame).slope
      ensures didAscendSlope == HFold(Config(), world, h0, hits[..], 3, directionX, velocityLastFrame).ascended
    {
      var rayLength := rayLength;
      didAscendSlope := false;
      for i := 0 to hits.Length
        invariant HSweep(velocity.Value, rayLength, collisions.Snapshot(), SlopeSnapshot(), didAscendSlope) ==
                  HFold(Config(), world, h0, hits[..], i, directionX, velocityLastFrame)
      {
        rayLength, didAscendSlope := HorizontalTurn(world, velocity, velocityLastFrame, directionX, hits[i], i,
                                                    rayLength, didAscendSlope);
      }
    }

    /** One turn of the horizontal loop; each `continue` of the loop is a return here. */
    method HorizontalTurn(world: World, velocity: Velocity, velocityLastFrame: Vec2, directionX: int, hit: Hit,
                          i: nat, rayLength: real, ascended: bool)
      returns (newRayLength: real, didAscendSlope: bool)
      modifies velocity, collisions, SlopeObjects()
      ensures HSweep(velocity.Value, newRayLength, collisions.Snapshot(), SlopeSnapshot(), didAscendSlope) ==
              HStep(Config(), world, HSweep(old(velocity.Value), rayLength, old(collisions.Snapshot()),
                                            old(SlopeSnapshot()), ascended),
                    hit, i, directionX, velocityLastFrame)
    {
      ghost var h := HSweep(velocity.Value, rayLength, collisions.Snapshot(), SlopeSnapshot(), ascended);
      newRayLength, didAscendSlope := rayLength, ascended;
      if !hit.Found() {
        return;
      }
      if hit.distance > rayLength {
        return;
      }
      var skip;
      skip, didAscendSlope := ClimbTurn(world, velocity, velocityLastFrame, directionX, hit, i, ascended, h);
      ghost var c := HClimb(Config(), world, h, hit, i, directionX, velocityLastFrame);
      if skip {
        return;
      }
      newRayLength := WallTurn(world, velocity, directionX, hit);
    }

    /** The slope part of a horizontal turn: the climb on ray 0 of a walkable slope, and whether
        the turn ends there because the character is climbing. */
    method ClimbTurn(world: World, velocity: Velocity, velocityLastFrame: Vec2, directionX: int, hit: Hit, i: nat,
                     ascended: bool, ghost h: HSweep)
      returns (skip: bool, didAscendSlope: bool)
      requires h.velocity == velocity.Value && h.slope == SlopeSnapshot() && h.ascended == ascended
      modifies velocity, SlopeObjects()
      ensures HSweep(velocity.Value, h.rayLength, h.contacts, SlopeSnapshot(), didAscendSlope) ==
              HClimb(Config(), world, h, hit, i, directionX, velocityLastFrame)
      ensures skip == (WalkableHit(Config(), world, hit) && SlopeSnapshot().directionOnSlope == Climbing)
    {
      skip, didAscendSlope := false, ascended;
      if slopeHandler != null {
        var slopeAngle := world.angleFromUp(hit.normal);
        if slopeHandler.CanWalkOnSlope(slopeAngle) {
          if i == 0 {
            var moved;
            moved, didAscendSlope := slopeHandler.HandleClimbing(world.trig, velocity.Value, velocityLastFrame,
                                                                 hit.normal, hit.distance, slopeAngle, skinWidth,
                                                                 directionX);
            velocity.Value := moved;
          }
          skip := slopeHandler.IsClimbing();
        }
      }
    }

    /** The wall part of a horizontal turn. */
    method WallTurn(world: World, velocity: Velocity, directionX: int, hit: Hit) returns (rayLength: real)
      modifies velocity, collisions
      ensures velocity.Value ==
              HCut(Config(), world, old(velocity.Value), old(collisions.Snapshot()), SlopeSnapshot(), hit, directionX).velocity
      ensures collisions.Snapshot() ==
              HCut(Config(), world, old(velocity.Value), old(collisions.Snapshot()), SlopeSnapshot(), hit, directionX).contacts
      ensures rayLength ==
              HCut(Config(), world, old(velocity.Value), old(collisions.Snapshot()), SlopeSnapshot(), hit, directionX).rayLength
    {
      collisions.SetLeft(directionX == -1);
      collisions.SetRight(directionX == 1);
      rayLength := WallCut(world, velocity, directionX, hit, Config(), SlopeSnapshot());
    }

    /** x cut to the wall, the ray shortened, and the wallhug correction while climbing. */
    method WallCut(world: World, velocity: Velocity, directionX: int, hit: Hit, ghost cfg: SweepConfig,
                   ghost slope: SlopeState)
      returns (rayLength: real)
      requires cfg == Config() && slope == SlopeSnapshot()
      modifies velocity
      ensures velocity.Value == HCut(cfg, world, old(velocity.Value), NoContact, slope, hit, directionX).velocity
      ensures rayLength == HCut(cfg, world, old(velocity.Value), NoContact, slope, hit, directionX).rayLength
    {
      var moved := velocity.Value.(x := CutX(hit.distance, skinWidth, velocity.Value.x, directionX));
      rayLength := Min(hit.distance, Abs(moved.x) + skinWidth);
      if slopeHandler != null && slopeHandler.IsClimbing() {
        moved := slopeHandler.PreventWallhugJitters(world.trig, moved);
      }
      velocity.Value := moved;
    }

    method LayerMaskWithSemiSolid(verticalMovementSign: int, fixedDeltaTime: real) returns (tempColMask: Mask)
      modifies TimerObjects()
      ensures MaskTick(tempColMask, FallTimer()) ==
              LayerMaskWithSemiSolidRule(Config(), old(FallTimer()), fixedDeltaTime, verticalMovementSign)
      ensures fallThroughHandler != null ==> fallThroughHandler.ignoredCollider == old(fallThroughHandler.ignoredCollider)
    {
      tempColMask := solid;
      var withSemiSolid := false;
      if verticalMovementSign == -1 {
        if fallThroughHandler != null {
          withSemiSolid := fallThroughHandler.TickTimer(fixedDeltaTime);
        } else {
          withSemiSolid := true;
        }
      }
      if withSemiSolid {
        tempColMask := tempColMask + semiSolid;
      }
    }

    method VerticalCollisions(world: World, velocity: Velocity, fixedDeltaTime: real, ghost cfg: SweepConfig,
                              ghost box: Caster, ghost v0: Vec2, ghost c0: ContactState, ghost s0: SlopeState,
                              ghost t0: real)
      requires cfg == Config() && box == dimensions.Box()
      requires v0 == velocity.Value && c0 == collisions.Snapshot() && s0 == SlopeSnapshot() && t0 == FallTimer()
      requires slopeHandler != null ==> CeilingSafe(world.trig, s0)
      modifies velocity, collisions, SlopeObjects(), TimerObjects()
      ensures var r := VerticalRule(cfg, world, box, fixedDeltaTime, v0, c0, s0, t0);
              velocity.Value == r.velocity && collisions.Snapshot() == r.contacts
      ensures var r := VerticalRule(cfg, world, box, fixedDeltaTime, v0, c0, s0, t0);
              SlopeSnapshot() == r.slope && FallTimer() == r.fallTimer
      ensures fallThroughHandler != null ==> fallThroughHandler.ignoredCollider == old(fallThroughHandler.ignoredCollider)
    {
      var directionY := Sign(velocity.Value.y) as real;
      var rayLength := Abs(velocity.Value.y) + skinWidth;
      var tempColMask, hits := VerticalSetup(world, velocity.Value, fixedDeltaTime, cfg, box);
      ghost var h0 := VSweep(v0, rayLength, c0);
      ghost var f := VLoop(cfg, world, box, fixedDeltaTime, v0, c0, s0, t0);
      assert f == VFold(cfg, world, s0, h0, hits[..], 2, directionY);
      VerticalSweep(world, velocity, hits, tempColMask, directionY, rayLength, s0, h0, f);
      VerticalRuleUnfolds(cfg, world, box, fixedDeltaTime, v0, c0, s0, t0,
                          LayerMaskWithSemiSolidRule(cfg, t0, fixedDeltaTime, Sign(v0.y)), f);
    }

    /** The vertical loop over the cast hits, then the joint-catching correction. */
    method VerticalSweep(world: World, velocity: Velocity, hits: array<Hit>, tempColMask: Mask, directionY: real,
                         rayLength: real, ghost s0: SlopeState, ghost h0: VSweep, ghost f: VSweep)
      requires hits.Length == 2
      requires slopeHandler != null ==> CeilingSafe(world.trig, s0)
      requires SlopeSnapshot() == s0
      requires velocity.Value == h0.velocity && rayLength == h0.rayLength && collisions.Snapshot() == h0.contacts
      requires f == VFold(Config(), world, s0, h0, hits[..], 2, directionY)
      modifies velocity, collisions, SlopeObjects()
      ensures collisions.Snapshot() == f.contacts
      ensures slopeHandler != null ==>
                Adjusted(velocity.Value, SlopeSnapshot()) ==
                CounteractJointCatchingRule(world, f.velocity, s0, skinWidth, tempColMask, dimensions.Box())
      ensures slopeHandler == null ==> velocity.Value == f.velocity && SlopeSnapshot() == s0
    {
      VerticalLoop(world, velocity, hits, directionY, rayLength, s0, h0);
      VerticalFinish(world, velocity, tempColMask, s0, h0, hits[..], directionY);
    }

    /** The mask of the vertical casts (which may tick the fall-through timer), then the casts. */
    method VerticalSetup(world: World, velocity: Vec2, fixedDeltaTime: real, ghost cfg: SweepConfig, ghost box: Caster)
      returns (tempColMask: Mask, hits: array<Hit>)
      requires cfg == Config() && box == dimensions.Box()
      modifies TimerObjects()
      ensures fresh(hits)
      ensures var m := LayerMaskWithSemiSolidRule(cfg, old(FallTimer()), fixedDeltaTime, Sign(velocity.y));
              tempColMask == m.mask && FallTimer() == m.fallTimer && hits[..] == VHits(cfg, world, box, velocity, m.mask)
      ensures fallThroughHandler != null ==> fallThroughHandler.ignoredCollider == old(fallThroughHandler.ignoredCollider)
    {
      tempColMask := LayerMaskWithSemiSolid(Sign(velocity.y), fixedDeltaTime);
      hits := VerticalHits(world, velocity, tempColMask, cfg, box);
    }

    /** The two vertical casts. */
    method VerticalHits(world: World, velocity: Vec2, tempColMask: Mask, ghost cfg: SweepConfig, ghost box: Caster)
      returns (hits: array<Hit>)
      requires cfg == Config() && box == dimensions.Box()
      ensures fresh(hits)
      ensures hits[..] == VHits(cfg, world, box, velocity, tempColMask)
    {
      var castPos := VerticalOrigins(velocity);
      hits := TestPoints(world, myCollider, Vec2(0.0, Sign(velocity.y) as real), castPos, Abs(velocity.y) + skinWidth,
                         tempColMask);
    }

    /** The vertical ray origins: from the top corners when rising and the bottom corners
        otherwise, moved on by the pending x. */
    method VerticalOrigins(velocity: Vec2) returns (castPos: array<Vec2>)
      ensures fresh(castPos)
      ensures castPos[..] == VOrigins(dimensions.Box(), skinWidth, Sign(velocity.y) as real, velocity.x)
    {
      var directionY := Sign(velocity.y) as real;
      if directionY == 1.0 {
        castPos := new Vec2[2] [TopLeft(dimensions.Box(), skinWidth), TopRight(dimensions.Box(), skinWidth)];
      } else {
        castPos := new Vec2[2] [BottomLeft(dimensions.Box(), skinWidth), BottomRight(dimensions.Box(), skinWidth)];
      }
      castPos[0] := castPos[0].(x := castPos[0].x + velocity.x);
      castPos[1] := castPos[1].(x := castPos[1].x + velocity.x);
    }

    /** The vertical loop over both hits. */
    method VerticalLoop(world: World, velocity: Velocity, hits: array<Hit>, directionY: real, rayLength: real,
                        ghost slope0: SlopeState, ghost h0: VSweep)
      requires hits.Length == 2
      requires slopeHandler != null ==> CeilingSafe(world.trig, slope0)
      requires SlopeSnapshot() == slope0
      requires velocity.Value == h0.velocity && rayLength == h0.rayLength && collisions.Snapshot() == h0.contacts
      modifies velocity, collisions
      ensures velocity.Value == VFold(Config(), world, slope0, h0, hits[..], 2, directionY).velocity
      ensures collisions.Snapshot() == VFold(Config(), world, slope0, h0, hits[..], 2, directionY).contacts
    {
      var rayLength := rayLength;
      for i := 0 to hits.Length
        invariant velocity.Value == VFold(Config(), world, slope0, h0, hits[..], i, directionY).velocity
        invariant rayLength == VFold(Config(), world, slope0, h0, hits[..], i, directionY).rayLength
        invariant collisions.Snapshot() == VFold(Config(), world, slope0, h0, hits[..], i, directionY).contacts
      {
        rayLength := VerticalTurn(world, velocity, hits[i], directionY, rayLength);
      }
    }

    /** One turn of the vertical loop. */
    method VerticalTurn(world: World, velocity: Velocity, hit: Hit, directionY: real, rayLength: real)
      returns (newRayLength: real)
      requires slopeHandler != null ==> CeilingSafe(world.trig, SlopeSnapshot())
      modifies velocity, collisions
      ensures velocity.Value ==
              VStep(Config(), world, SlopeSnapshot(), VSweep(old(velocity.Value), rayLength, old(collisions.Snapshot())),
                    hit, directionY).velocity
      ensures newRayLength ==
              VStep(Config(), world, SlopeSnapshot(), VSweep(old(velocity.Value), rayLength, old(collisions.Snapshot())),
                    hit, directionY).rayLength
      ensures collisions.Snapshot() ==
              VStep(Config(), world, SlopeSnapshot(), VSweep(old(velocity.Value), rayLength, old(collisions.Snapshot())),
                    hit, directionY).contacts
    {
      newRayLength := rayLength;
      if hit.Found() && hit.distance <= rayLength {
        var moved := velocity.Value.(y := (hit.distance - skinWidth) * directionY);
        newRayLength := hit.distance;
        if slopeHandler != null {
          moved := slopeHandler.PreventCeilingJitters(world.trig, moved);
        }
        velocity.Value := moved;
        collisions.SetBelow(directionY == -1.0);
        collisions.SetAbove(directionY == 1.0);
      }
    }

    /** After the vertical loop: the joint-catching correction. */
    method VerticalFinish(world: World, velocity: Velocity, tempColMask: Mask, ghost slope0: SlopeState,
                          ghost h0: VSweep, ghost hits: seq<Hit>, ghost directionY: real)
      requires |hits| == 2
      requires Config().hasSlopeHandler ==> CeilingSafe(world.trig, slope0)
      requires SlopeSnapshot() == slope0
      requires velocity.Value == VFold(Config(), world, slope0, h0, hits, 2, directionY).velocity
      modifies velocity, SlopeObjects()
      ensures var r := VFold(Config(), world, slope0, h0, hits, 2, directionY);
              slopeHandler != null ==>
                Adjusted(velocity.Value, SlopeSnapshot()) ==
                CounteractJointCatchingRule(world, r.velocity, slope0, skinWidth, tempColMask, dimensions.Box())
      ensures slopeHandler == null ==> velocity.Value == old(velocity.Value) && SlopeSnapshot() == slope0
    {
      if slopeHandler != null {
        var moved := slopeHandler.CounteractJointCatching(world, velocity.Value, skinWidth, tempColMask,
                                                          dimensions.Box());
        velocity.Value := moved;
      }
    }
  }
}
