/** JumpComponent: coyote time, manual jumps on a rising button edge, forced jumps requested by
    other code, early release on a falling edge, and the choice between the rising and the
    falling gravity. It runs as the listener GravityComponent invokes between its collision
    response and the application of the stored velocity. */
module Jump {
  import opened Num
  import opened Contacts
  import opened GravityStrengths
  import opened Motion

  datatype Option<T> = None | Some(value: T)

  /** ForcedJump: the height a jump reaches at its apex and the time it takes to get there. */
  datatype ForcedJump = ForcedJump(height: real, duration: real)
  {
    predicate NonNegative() { height >= 0.0 && duration >= 0.0 }
  }

  /** default(ForcedJump): what a cleared pending jump holds. */
  const NoForcedJump := ForcedJump(0.0, 0.0)

  /** The ForcedJump(height, duration) constructor: both fields are clamped below at 0. */
  function MakeForcedJump(height: real, duration: real): (j: ForcedJump)
    ensures j.NonNegative()
    ensures height >= 0.0 ==> j.height == height
    ensures duration >= 0.0 ==> j.duration == duration
    ensures height < 0.0 ==> j.height == 0.0
    ensures duration < 0.0 ==> j.duration == 0.0
  {
    ForcedJump(Max(height, 0.0), Max(duration, 0.0))
  }

  /** CombineWith: the larger height and the larger duration of the two. */
  function CombineWith(a: ForcedJump, b: ForcedJump): (c: ForcedJump)
    ensures c.height >= a.height && c.height >= b.height
    ensures c.height == a.height || c.height == b.height
    ensures c.duration >= a.duration && c.duration >= b.duration
    ensures c.duration == a.duration || c.duration == b.duration
  {
    ForcedJump(Max(a.height, b.height), Max(a.duration, b.duration))
  }

  /** The explicit conversion from a float: the value becomes the height and its magnitude the
      duration, with no clamping, so a negative value gives a negative height. */
  function FromFloat(me: real): (j: ForcedJump)
    ensures j.height == me && j.duration == Abs(me) && j.duration >= 0.0
    ensures j.NonNegative() <==> me >= 0.0
  {
    ForcedJump(me, Abs(me))
  }

  /** PrepareForcedJump: the constant gravity that brings a launch to rest at `height` after
      `duration`. A zero duration divides by zero, which the model excludes. */
  function PrepareForcedJump(j: ForcedJump): (gravity: real)
    requires j.duration != 0.0
    ensures gravity * (j.duration * j.duration) == -2.0 * j.height
  {
    -(2.0 * j.height) / (j.duration * j.duration)
  }

  /** Stacking forced jumps does not depend on their order or on repeats, and never yields a
      negative field once either side has none. */
  lemma CombineWithIsJoin(a: ForcedJump, b: ForcedJump, c: ForcedJump)
    ensures CombineWith(a, b) == CombineWith(b, a)
    ensures CombineWith(CombineWith(a, b), c) == CombineWith(a, CombineWith(b, c))
    ensures CombineWith(a, a) == a
    ensures a.NonNegative() || b.NonNegative() ==> CombineWith(a, b).NonNegative()
  {
  }

  /** The inspector values of the component. */
  datatype JumpParams = JumpParams(jumpHeight: real, timeToPeak: real, fallGravityMultiplier: real,
                                   jumpEndReduceSpeedTo: real, coyoteTime: real)

  /** The inspector defaults: 3.2 units high, 0.45 s to the apex, falling gravity 1.5 times the
      rising one, a release keeps 0.4 of the speed, 0.2 s of coyote time. */
  const DefaultJumpParams := JumpParams(3.2, 0.45, 1.5, 0.4, 0.2)

  /** What Awake computes from the parameters. */
  datatype Derived = Derived(gravityRising: real, gravityFalling: real, jumpPower: real)

  /** Awake: the rising gravity that reaches jumpHeight in timeToPeak, the falling gravity, and
      the launch speed. A zero timeToPeak divides by zero, which the model excludes. */
  function Derive(p: JumpParams): (d: Derived)
    requires p.timeToPeak != 0.0
    ensures d.gravityRising * (p.timeToPeak * p.timeToPeak) == -2.0 * p.jumpHeight
    ensures d.gravityFalling == d.gravityRising * p.fallGravityMultiplier
    ensures d.jumpPower == Abs(d.gravityRising) * p.timeToPeak
  {
    var twice := 2.0 * p.jumpHeight;
    var gravityRising := -twice / (p.timeToPeak * p.timeToPeak);
    Derived(gravityRising, gravityRising * p.fallGravityMultiplier, Abs(gravityRising) * p.timeToPeak)
  }

  /** The derivation is the kinematics of a jump: launched at jumpPower under the rising
      gravity, the character stops rising exactly at timeToPeak, having climbed jumpHeight. */
  lemma JumpReachesApex(p: JumpParams)
    requires p.timeToPeak > 0.0 && p.jumpHeight >= 0.0
    ensures var d := Derive(p);
            d.jumpPower + d.gravityRising * p.timeToPeak == 0.0
    ensures var d := Derive(p);
            d.jumpPower * p.timeToPeak + d.gravityRising * p.timeToPeak * p.timeToPeak / 2.0 == p.jumpHeight
  {
    var d := Derive(p);
    var t := p.timeToPeak;
    var g := d.gravityRising;
    assert t * t > 0.0;
    assert g * (t * t) == -2.0 * p.jumpHeight;
    assert g <= 0.0;
    assert d.jumpPower == -g * t;
    assert d.jumpPower + g * t == 0.0;
    assert g * t * t == g * (t * t);
    assert d.jumpPower * t == -(g * (t * t));
  }

  /** With the inspector defaults, the rising gravity is −2·3.2/0.45² and the falling one is
      1.5 times as strong. */
  lemma DefaultGravities()
    ensures Derive(DefaultJumpParams).gravityRising == -6.4 / 0.2025
    ensures Derive(DefaultJumpParams).gravityFalling == Derive(DefaultJumpParams).gravityRising * 1.5
    ensures Derive(DefaultJumpParams).gravityFalling < Derive(DefaultJumpParams).gravityRising < 0.0
  {
    var g := Derive(DefaultJumpParams).gravityRising;
    assert 0.45 * 0.45 == 0.2025;
    assert g == -6.4 / 0.2025;
    assert g < 0.0;
  }

  /** The notifications the component raises, in the order raised. */
  datatype JumpEvent = Jumped | JumpedIntentionally | JumpedInvoluntarily | ReleasedJump

  /** Everything doJump and the other entry points read and write, besides the stored velocity
      and the gravity strength. `forcedHas` and `forced` are the two halves of _forcedJump. */
  datatype JumpState = JumpState(jumpTimer: real, coyoteTimer: real, lastJumpButton: bool,
                                 forcedHas: bool, forced: ForcedJump,
                                 blockManualJumps: bool, blockJumpRelease: bool)
  {
    /** The pending forced jump never has a negative field: it starts as the default and only
        grows by CombineWith. */
    predicate Valid() { forced.NonNegative() }
  }

  /** The field initialisers and Awake: timers at 0, button up, nothing forced, no blocks. */
  const InitialJumpState := JumpState(0.0, 0.0, false, false, NoForcedJump, false, false)

  /** GetForcedJump: the pending forced jump, or nothing. */
  function GetForcedJumpRule(st: JumpState): (r: Option<ForcedJump>)
    ensures r.Some? <==> st.forcedHas
    ensures r.Some? ==> r.value == st.forced
  {
    if st.forcedHas then Some(st.forced) else None
  }

  /** SetForcedJump: ignored in the air; on the ground the jump is marked pending and combined
      into the pending one. */
  function SetForcedJumpRule(st: JumpState, below: bool, j: ForcedJump): (r: JumpState)
    ensures !below ==> r == st
    ensures below ==> r.forcedHas && r.forced == CombineWith(st.forced, j)
    ensures r.jumpTimer == st.jumpTimer && r.blockJumpRelease == st.blockJumpRelease
    ensures st.Valid() ==> r.Valid()
  {
    if !below then st else st.(forcedHas := true, forced := CombineWith(st.forced, j))
  }

  /** clearForcedJump: the OnHitGround listener. */
  function ClearForcedJumpRule(st: JumpState): (r: JumpState)
    ensures !r.forcedHas && r.forced == NoForcedJump && r.Valid()
    ensures r.jumpTimer == st.jumpTimer && r.blockJumpRelease == st.blockJumpRelease
  {
    st.(forcedHas := false, forced := NoForcedJump)
  }

  /** clearJumpTimer: the OnHitCeiling listener. */
  function ClearJumpTimerRule(st: JumpState): (r: JumpState)
    ensures r.jumpTimer == 0.0 && r.forcedHas == st.forcedHas && r.forced == st.forced
    ensures st.Valid() ==> r.Valid()
  {
    st.(jumpTimer := 0.0)
  }

  /** EndAllForcedJumps: with a forced jump pending, it is cleared and the jump timer stopped;
      otherwise nothing happens. */
  function EndAllForcedJumpsRule(st: JumpState): (r: JumpState)
    ensures !st.forcedHas ==> r == st
    ensures st.forcedHas ==> !r.forcedHas && r.forced == NoForcedJump && r.jumpTimer == 0.0
    ensures st.forcedHas ==> r.blockJumpRelease == st.blockJumpRelease && r.lastJumpButton == st.lastJumpButton
    ensures st.Valid() ==> r.Valid()
  {
    if st.forcedHas then ClearJumpTimerRule(ClearForcedJumpRule(st)) else st
  }

  /** isAbleToJump, against the coyote timer `coyoteTimer`. */
  predicate AbleToJump(blockManualJumps: bool, below: bool, coyoteTimer: real)
  {
    !blockManualJumps && (below || coyoteTimer > 0.0)
  }

  /** The coyote timer after the update at the top of doJump. */
  function CoyoteRule(p: JumpParams, below: bool, coyoteTimer: real, dt: real): real
  {
    if below then p.coyoteTime else coyoteTimer - dt
  }

  /** releaseJump: nothing once the timer has run out; otherwise any upward speed is scaled
      down, the timer stopped and the release reported. */
  datatype Release = Release(velocity: real, jumpTimer: real, released: bool)

  function ReleaseRule(velocity: real, jumpTimer: real, jumpEndReduceSpeedTo: real): (r: Release)
    ensures r.released <==> jumpTimer > 0.0
    ensures !r.released ==> r.velocity == velocity && r.jumpTimer == jumpTimer
    ensures r.released ==> r.jumpTimer == 0.0
    ensures r.released && velocity <= 0.0 ==> r.velocity == velocity
  {
    if jumpTimer <= 0.0 then Release(velocity, jumpTimer, false)
    else if velocity > 0.0 then Release(velocity * jumpEndReduceSpeedTo, 0.0, true)
    else Release(velocity, 0.0, true)
  }

  /** With jumpEndReduceSpeedTo at most 1 the release never speeds the rise up, and with it at
      least 0 a rise is never turned into a fall. */
  lemma ReleaseBounds(velocity: real, jumpTimer: real, jumpEndReduceSpeedTo: real)
    ensures jumpEndReduceSpeedTo <= 1.0 ==> ReleaseRule(velocity, jumpTimer, jumpEndReduceSpeedTo).velocity <= velocity
    ensures jumpEndReduceSpeedTo >= 0.0 && velocity >= 0.0 ==>
              ReleaseRule(velocity, jumpTimer, jumpEndReduceSpeedTo).velocity >= 0.0
  {
    if jumpTimer > 0.0 && velocity > 0.0 {
      assert velocity * jumpEndReduceSpeedTo - velocity == velocity * (jumpEndReduceSpeedTo - 1.0);
    }
  }

  /** What one doJump produces. */
  datatype JumpStep = JumpStep(state: JumpState, velocity: real, gravity: real, events: seq<JumpEvent>)

  /** Whether doJump begins a manual jump: a rising button edge while able to jump, judged
      against the already updated coyote timer. */
  predicate ManualJumpTaken(p: JumpParams, st: JumpState, below: bool, button: bool, dt: real)
  {
    button && !st.lastJumpButton && AbleToJump(st.blockManualJumps, below, CoyoteRule(p, below, st.coyoteTimer, dt))
  }

  /** Whether doJump launches the pending forced jump: one is pending and the button was not
      held last step. */
  predicate ForcedJumpTaken(st: JumpState)
  {
    st.forcedHas && !st.lastJumpButton
  }

  /** Whether doJump takes the release path: a falling button edge with neither the release
      block nor a pending forced jump. */
  predicate ReleaseAttempted(st: JumpState, button: bool)
  {
    !button && st.lastJumpButton && !(st.blockJumpRelease || st.forcedHas)
  }

  /** The top of doJump: the coyote timer is refilled on the ground and runs down in the air. */
  function StartPhase(p: JumpParams, st: JumpState, below: bool, dt: real, velocity: real, gravity: real)
    : (r: JumpStep)
    ensures below ==> r.state.coyoteTimer == p.coyoteTime
    ensures !below ==> r.state.coyoteTimer == st.coyoteTimer - dt
    ensures r.state.(coyoteTimer := st.coyoteTimer) == st
    ensures r.velocity == velocity && r.gravity == gravity && r.events == []
  {
    JumpStep(st.(coyoteTimer := CoyoteRule(p, below, st.coyoteTimer, dt)), velocity, gravity, [])
  }

  /** The manual jump: on a rising edge while able to jump, launch at jumpPower for timeToPeak. */
  function ManualPhase(p: JumpParams, d: Derived, s: JumpStep, below: bool, button: bool): (r: JumpStep)
    ensures var taken := button && !s.state.lastJumpButton &&
                         AbleToJump(s.state.blockManualJumps, below, s.state.coyoteTimer);
            (taken ==> r.velocity == d.jumpPower && r.state == s.state.(jumpTimer := p.timeToPeak) &&
                       r.events == s.events + [Jumped, JumpedIntentionally]) &&
            (!taken ==> r == s)
    ensures r.gravity == s.gravity
  {
    if button && !s.state.lastJumpButton && AbleToJump(s.state.blockManualJumps, below, s.state.coyoteTimer) then
      s.(state := s.state.(jumpTimer := p.timeToPeak), velocity := d.jumpPower,
         events := s.events + [Jumped, JumpedIntentionally])
    else s
  }

  /** The forced jump: with one pending and the button up last step, launch at
      |current speed| × duration for its duration, and block the release. */
  function ForcedPhase(s: JumpStep): (r: JumpStep)
    ensures s.state.forcedHas && !s.state.lastJumpButton ==>
              r.state == s.state.(jumpTimer := s.state.forced.duration, blockJumpRelease := true) &&
              r.events == s.events + [Jumped, JumpedInvoluntarily]
    ensures s.state.forcedHas && !s.state.lastJumpButton && s.state.forced.duration >= 0.0 ==> r.velocity >= 0.0
    ensures !(s.state.forcedHas && !s.state.lastJumpButton) ==> r == s
    ensures r.state.forcedHas == s.state.forcedHas && r.state.forced == s.state.forced
  {
    if s.state.forcedHas && !s.state.lastJumpButton then
      s.(state := s.state.(jumpTimer := s.state.forced.duration, blockJumpRelease := true),
         velocity := Abs(s.velocity) * s.state.forced.duration,
         events := s.events + [Jumped, JumpedInvoluntarily])
    else s
  }

  /** The release: on a falling edge, unless blocked or forced, releaseJump. */
  function ReleasePhase(p: JumpParams, s: JumpStep, button: bool): (r: JumpStep)
    ensures !(!button && s.state.lastJumpButton && !(s.state.blockJumpRelease || s.state.forcedHas)) ==> r == s
    ensures r.state == s.state || r.state == s.state.(jumpTimer := 0.0)
    ensures s.velocity <= 0.0 ==> r.velocity == s.velocity
    ensures r.events == s.events || r.events == s.events + [ReleasedJump]
  {
    if !button && s.state.lastJumpButton && !(s.state.blockJumpRelease || s.state.forcedHas) then
      var rel := ReleaseRule(s.velocity, s.state.jumpTimer, p.jumpEndReduceSpeedTo);
      s.(state := s.state.(jumpTimer := rel.jumpTimer), velocity := rel.velocity,
         events := s.events + (if rel.released then [ReleasedJump] else []))
    else s
  }

  /** The bounds of ReleaseBounds, carried through the release phase. */
  lemma ReleasePhaseBounds(p: JumpParams, s: JumpStep, button: bool)
    ensures p.jumpEndReduceSpeedTo <= 1.0 ==> ReleasePhase(p, s, button).velocity <= s.velocity
    ensures p.jumpEndReduceSpeedTo >= 0.0 && s.velocity >= 0.0 ==> ReleasePhase(p, s, button).velocity >= 0.0
  {
    ReleaseBounds(s.velocity, s.state.jumpTimer, p.jumpEndReduceSpeedTo);
  }

  /** The end of doJump: the gravity for this step (rising while the jump timer runs), the
      timer's tick, which stops at 0, and the button state kept for next time. */
  function FinishPhase(d: Derived, s: JumpStep, button: bool, dt: real): (r: JumpStep)
    ensures r.gravity == if s.state.jumpTimer > 0.0 then d.gravityRising else d.gravityFalling
    ensures dt >= 0.0 && s.state.jumpTimer >= 0.0 ==> 0.0 <= r.state.jumpTimer <= s.state.jumpTimer
    ensures r.state.lastJumpButton == button
    ensures r.state.(jumpTimer := s.state.jumpTimer, lastJumpButton := s.state.lastJumpButton) == s.state
    ensures r.velocity == s.velocity && r.events == s.events
  {
    var t := s.state.jumpTimer;
    s.(state := s.state.(jumpTimer := t - Min(t, dt), lastJumpButton := button),
       gravity := if t > 0.0 then d.gravityRising else d.gravityFalling)
  }

  /** doJump: the coyote timer, the manual jump, the forced jump, the release, the gravity and
      the timer's tick, in that order; `gravity` is the strength before the step. */
  function DoJumpRule(p: JumpParams, d: Derived, st: JumpState, below: bool, button: bool, dt: real,
                      velocity: real, gravity: real): (r: JumpStep)
    ensures r.state.lastJumpButton == button
    ensures r.state.forcedHas == st.forcedHas && r.state.forced == st.forced
    ensures r.state.blockManualJumps == st.blockManualJumps
    ensures r.gravity == d.gravityRising || r.gravity == d.gravityFalling
  {
    var s0 := StartPhase(p, st, below, dt, velocity, gravity);
    FinishPhase(d, ReleasePhase(p, ForcedPhase(ManualPhase(p, d, s0, below, button)), button), button, dt)
  }

  /** The coyote window: on the ground the timer is refilled to coyoteTime, in the air it runs
      down by the step; a manual jump needs the ground or a timer still running, and no block. */
  lemma CoyoteTime(p: JumpParams, d: Derived, st: JumpState, below: bool, button: bool, dt: real, velocity: real, gravity: real)
    ensures var r := DoJumpRule(p, d, st, below, button, dt, velocity, gravity);
            r.state.coyoteTimer == (if below then p.coyoteTime else st.coyoteTimer - dt)
    ensures ManualJumpTaken(p, st, below, button, dt) <==>
              button && !st.lastJumpButton && !st.blockManualJumps &&
              (below || st.coyoteTimer - dt > 0.0)
  {
  }

  /** A manual jump is reported exactly when it is taken, and without a forced jump it sets
      the speed to jumpPower; the jump then runs for timeToPeak under the rising gravity. */
  lemma ManualJump(p: JumpParams, d: Derived, st: JumpState, below: bool, button: bool, dt: real, velocity: real, gravity: real)
    ensures var r := DoJumpRule(p, d, st, below, button, dt, velocity, gravity);
            JumpedIntentionally in r.events <==> ManualJumpTaken(p, st, below, button, dt)
    ensures var r := DoJumpRule(p, d, st, below, button, dt, velocity, gravity);
            ManualJumpTaken(p, st, below, button, dt) && !st.forcedHas ==>
              r.velocity == d.jumpPower &&
              r.gravity == (if p.timeToPeak > 0.0 then d.gravityRising else d.gravityFalling) &&
              r.state.jumpTimer == p.timeToPeak - Min(p.timeToPeak, dt)
  {
  }

  /** A forced jump is launched exactly when one is pending and the button was up last step;
      it sets the speed from |speed| × duration, runs the timer for its duration, blocks the
      release for good, and is not consumed: it stays pending until grounding clears it. */
  lemma ForcedJumpLaunch(p: JumpParams, d: Derived, st: JumpState, below: bool, button: bool, dt: real,
                         velocity: real, gravity: real)
    ensures var r := DoJumpRule(p, d, st, below, button, dt, velocity, gravity);
            JumpedInvoluntarily in r.events <==> ForcedJumpTaken(st)
    ensures var r := DoJumpRule(p, d, st, below, button, dt, velocity, gravity);
            var v1 := if ManualJumpTaken(p, st, below, button, dt) then d.jumpPower else velocity;
            ForcedJumpTaken(st) ==>
              r.velocity == Abs(v1) * st.forced.duration && r.state.blockJumpRelease &&
              r.gravity == (if st.forced.duration > 0.0 then d.gravityRising else d.gravityFalling)
    ensures var r := DoJumpRule(p, d, st, below, button, dt, velocity, gravity);
            r.state.forcedHas == st.forcedHas && r.state.forced == st.forced
    ensures var r := DoJumpRule(p, d, st, below, button, dt, velocity, gravity);
            st.blockJumpRelease ==> r.state.blockJumpRelease
  {
  }

  /** A release is reported exactly on a falling edge, unblocked, with the timer still running;
      it keeps only jumpEndReduceSpeedTo of an upward speed, leaves a downward one alone, and
      switches to the falling gravity. A release never happens on a step that jumps. */
  lemma JumpRelease(p: JumpParams, d: Derived, st: JumpState, below: bool, button: bool, dt: real, velocity: real, gravity: real)
    ensures var r := DoJumpRule(p, d, st, below, button, dt, velocity, gravity);
            ReleasedJump in r.events <==> ReleaseAttempted(st, button) && st.jumpTimer > 0.0
    ensures var r := DoJumpRule(p, d, st, below, button, dt, velocity, gravity);
            ReleaseAttempted(st, button) && st.jumpTimer > 0.0 ==>
              r.velocity == (if velocity > 0.0 then velocity * p.jumpEndReduceSpeedTo else velocity) &&
              r.gravity == d.gravityFalling && (dt >= 0.0 ==> r.state.jumpTimer == 0.0)
    ensures var r := DoJumpRule(p, d, st, below, button, dt, velocity, gravity);
            ReleaseAttempted(st, button) && st.jumpTimer <= 0.0 ==> r.velocity == velocity
    ensures var r := DoJumpRule(p, d, st, below, button, dt, velocity, gravity);
            ReleasedJump in r.events ==> Jumped !in r.events
  {
    var r := DoJumpRule(p, d, st, below, button, dt, velocity, gravity);
    if ReleaseAttempted(st, button) {
      assert !ManualJumpTaken(p, st, below, button, dt) && !ForcedJumpTaken(st);
      assert r.events == (if st.jumpTimer > 0.0 then [ReleasedJump] else []);
    }
  }

  /** The gravity of the step is the rising one exactly while the jump timer, after this step's
      jumps and release, is still running; the timer then ticks down without ever going
      negative, and the button state is remembered. */
  lemma GravityFollowsTimer(p: JumpParams, d: Derived, st: JumpState, below: bool, button: bool, dt: real,
                            velocity: real, gravity: real)
    ensures var r := DoJumpRule(p, d, st, below, button, dt, velocity, gravity);
            r.state.jumpTimer >= 0.0 && r.state.lastJumpButton == button
    ensures var r := DoJumpRule(p, d, st, below, button, dt, velocity, gravity);
            !ManualJumpTaken(p, st, below, button, dt) && !ForcedJumpTaken(st) && !ReleaseAttempted(st, button) ==>
              r.velocity == velocity &&
              r.gravity == (if st.jumpTimer > 0.0 then d.gravityRising else d.gravityFalling) &&
              (dt >= 0.0 && st.jumpTimer >= 0.0 ==> r.state.jumpTimer <= st.jumpTimer)
    ensures var r := DoJumpRule(p, d, st, below, button, dt, velocity, gravity);
            st.Valid() ==> r.state.Valid()
  {
  }

  /** Each notification is raised at most once per step, and "jumped" comes with exactly one of
      "intentionally" and "involuntarily" per launch. */
  lemma EventsPerStep(p: JumpParams, d: Derived, st: JumpState, below: bool, button: bool, dt: real, velocity: real, gravity: real)
    ensures var r := DoJumpRule(p, d, st, below, button, dt, velocity, gravity);
            |r.events| <= 4 &&
            (JumpedIntentionally in r.events || JumpedInvoluntarily in r.events <==> Jumped in r.events)
  {
    var r := DoJumpRule(p, d, st, below, button, dt, velocity, gravity);
    if ReleaseAttempted(st, button) {
      assert !ManualJumpTaken(p, st, below, button, dt) && !ForcedJumpTaken(st);
    }
  }

  /** The jump component. `collisions`, `gravityStrength` and `storedVelocity` are the
      components it reads and writes; `events` records its notifications. */
  class JumpComponent {
    const collisions: PlatformerCollisions
    const gravityStrength: GravityStrength
    const storedVelocity: ScalarVelocity
    const params: JumpParams
    const derived: Derived

    var jumpTimer: real
    var coyoteTimer: real
    var lastJumpButton: bool
    var forcedHas: bool
    var forcedValue: ForcedJump
    var blockManualJumps: bool
    var blockJumpRelease: bool
    var events: seq<JumpEvent>

    function State(): JumpState
      reads this
    {
      JumpState(jumpTimer, coyoteTimer, lastJumpButton, forcedHas, forcedValue, blockManualJumps, blockJumpRelease)
    }

    /** The field initialisers and Awake. */
    constructor (collisions: PlatformerCollisions, gravityStrength: GravityStrength, storedVelocity: ScalarVelocity,
                 params: JumpParams)
      requires params.timeToPeak != 0.0
      ensures this.collisions == collisions && this.gravityStrength == gravityStrength
      ensures this.storedVelocity == storedVelocity && this.params == params
      ensures derived == Derive(params)
      ensures State() == InitialJumpState && events == []
    {
      this.collisions := collisions;
      this.gravityStrength := gravityStrength;
      this.storedVelocity := storedVelocity;
      this.params := params;
      derived := Derive(params);
      jumpTimer, coyoteTimer, lastJumpButton := 0.0, 0.0, false;
      forcedHas, forcedValue := false, NoForcedJump;
      blockManualJumps, blockJumpRelease := false, false;
      events := [];
    }

    function GetForcedJump(): (r: Option<ForcedJump>)
      reads this
      ensures r.Some? <==> forcedHas
      ensures r.Some? ==> r.value == forcedValue
    {
      GetForcedJumpRule(State())
    }

    method SetForcedJump(newForcedJump: ForcedJump)
      modifies this
      ensures State() == SetForcedJumpRule(old(State()), collisions.Below(), newForcedJump)
      ensures events == old(events)
    {
      if !collisions.Below() {
        return;
      }
      forcedHas := true;
      forcedValue := CombineWith(forcedValue, newForcedJump);
    }

    method EndAllForcedJumps()
      modifies this
      ensures State() == EndAllForcedJumpsRule(old(State()))
      ensures events == old(events)
    {
      if forcedHas {
        ClearForcedJump();
        ClearJumpTimer();
      }
    }

    method ClearForcedJump()
      modifies this
      ensures State() == ClearForcedJumpRule(old(State()))
      ensures events == old(events)
    {
      forcedHas, forcedValue := false, NoForcedJump;
    }

    method ClearJumpTimer()
      modifies this
      ensures State() == ClearJumpTimerRule(old(State()))
      ensures events == old(events)
    {
      jumpTimer := 0.0;
    }

    predicate IsAbleToJump()
      reads this, collisions
      ensures blockManualJumps ==> !IsAbleToJump()
      ensures !blockManualJumps && collisions.Below() ==> IsAbleToJump()
      ensures IsAbleToJump() && !collisions.Below() ==> coyoteTimer > 0.0
    {
      AbleToJump(blockManualJumps, collisions.Below(), coyoteTimer)
    }

    /** registerNewJump: start the jump timer and hand back the launch speed. */
    method RegisterNewJump(jumpPower: real, jumpTime: real) returns (returner: real)
      modifies this`jumpTimer
      ensures returner == jumpPower && jumpTimer == jumpTime
    {
      returner := jumpPower;
      jumpTimer := jumpTime;
    }

    /** releaseJump. */
    method ReleaseJump(velocity: real, jumpEndReduceSpeedTo: real) returns (result: real)
      modifies this`jumpTimer, this`events
      ensures var r := ReleaseRule(velocity, old(jumpTimer), jumpEndReduceSpeedTo);
              result == r.velocity && jumpTimer == r.jumpTimer &&
              events == old(events) + (if r.released then [ReleasedJump] else [])
    {
      if jumpTimer <= 0.0 {
        return velocity;
      }
      result := velocity;
      if result > 0.0 {
        result := result * jumpEndReduceSpeedTo;
      }
      jumpTimer := 0.0;
      events := events + [ReleasedJump];
    }

    /** The component's state, the stored velocity and the notifications so far are those of
        the step `s`, after the notifications `e0` raised before it. */
    ghost predicate Holds(s: JumpStep, e0: seq<JumpEvent>)
      reads this, storedVelocity
    {
      State() == s.state && storedVelocity.Value == s.velocity && events == e0 + s.events
    }

    method ManualJumpPhase(jumpButton: bool, ghost s: JumpStep, ghost e0: seq<JumpEvent>)
      requires Holds(s, e0)
      modifies this, storedVelocity
      ensures Holds(ManualPhase(params, derived, s, collisions.Below(), jumpButton), e0)
    {
      if jumpButton {
        if !lastJumpButton && IsAbleToJump() {
          storedVelocity.Value := RegisterNewJump(derived.jumpPower, params.timeToPeak);
          events := events + [Jumped, JumpedIntentionally];
        }
      }
    }

    method ForcedJumpPhase(ghost s: JumpStep, ghost e0: seq<JumpEvent>)
      requires Holds(s, e0)
      modifies this, storedVelocity
      ensures Holds(ForcedPhase(s), e0)
    {
      if forcedHas && !lastJumpButton {
        storedVelocity.Value := RegisterNewJump(Abs(storedVelocity.Value) * forcedValue.duration,
                                                forcedValue.duration);
        blockJumpRelease := true;
        events := events + [Jumped, JumpedInvoluntarily];
      }
    }

    method ReleasePhaseStep(jumpButton: bool, ghost s: JumpStep, ghost e0: seq<JumpEvent>)
      requires Holds(s, e0)
      modifies this, storedVelocity
      ensures Holds(ReleasePhase(params, s, jumpButton), e0)
    {
      if (!jumpButton && lastJumpButton) && !(blockJumpRelease || forcedHas) {
        storedVelocity.Value := ReleaseJump(storedVelocity.Value, params.jumpEndReduceSpeedTo);
      }
    }

    method FinishJumpPhase(jumpButton: bool, fixedDeltaTime: real, ghost s: JumpStep, ghost e0: seq<JumpEvent>)
      requires Holds(s, e0)
      modifies this, gravityStrength
      ensures Holds(FinishPhase(derived, s, jumpButton, fixedDeltaTime), e0)
      ensures gravityStrength.Value == FinishPhase(derived, s, jumpButton, fixedDeltaTime).gravity
    {
      gravityStrength.Value := if jumpTimer > 0.0 then derived.gravityRising else derived.gravityFalling;
      jumpTimer := jumpTimer - Min(jumpTimer, fixedDeltaTime);
      lastJumpButton := jumpButton;
    }

    /** doJump, with the jump button's value and Time.fixedDeltaTime as inputs. */
    method DoJump(jumpButton: bool, fixedDeltaTime: real)
      modifies this, storedVelocity, gravityStrength
      ensures var r := DoJumpRule(params, derived, old(State()), collisions.Below(), jumpButton, fixedDeltaTime,
                                  old(storedVelocity.Value), old(gravityStrength.Value));
              State() == r.state && storedVelocity.Value == r.velocity && gravityStrength.Value == r.gravity
      ensures var r := DoJumpRule(params, derived, old(State()), collisions.Below(), jumpButton, fixedDeltaTime,
                                  old(storedVelocity.Value), old(gravityStrength.Value));
              events == old(events) + r.events
    {
      ghost var e0 := events;
      ghost var s := StartPhase(params, State(), collisions.Below(), fixedDeltaTime, storedVelocity.Value,
                                gravityStrength.Value);
      coyoteTimer := if collisions.Below() then params.coyoteTime else coyoteTimer - fixedDeltaTime;
      assert events == e0 + s.events;
      ManualJumpPhase(jumpButton, s, e0);
      s := ManualPhase(params, derived, s, collisions.Below(), jumpButton);
      ForcedJumpPhase(s, e0);
      s := ForcedPhase(s);
      ReleasePhaseStep(jumpButton, s, e0);
      s := ReleasePhase(params, s, jumpButton);
      FinishJumpPhase(jumpButton, fixedDeltaTime, s, e0);
    }
  }
}
