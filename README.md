# ModularPlatformer kinematic core, in Dafny

This project models the per-tick kinematic pipeline of the ModularPlatformer 2D character kit and proves properties of it:

- **Probe-point geometry.** `CharaCasterDimensions` and the `CasterDimensions` record say where the collision box sits around the character. This covers the bottom, mid and top rows of sample points inset by the skin width, the box epicentre, and the timed ramp between two dimension records.
- **The sweep-and-correct engine.**
  - `RaycastCollider2D.ApplyCollisions` clears the contacts, descends slopes and picks the horizontal cast direction. It then rides moving platforms and runs the horizontal sweep and the vertical sweep. At the end it forces the ground flag and writes the collision recoil.
  - Its helpers are `RaycastProducer2D.testPoints`, the slope rules of `RaycastSlopeCollider2D`, and the strong and weak velocity slots of `MovingPlatformHandler`.
- **The vertical state machines.**
  - `GravityComponent.FixedUpdate` runs the collision response and then gravity. Next it runs the jump callback, and only then does it move the character. The landing and ceiling notifications are edge-triggered.
  - `JumpComponent.doJump` covers coyote time, manual jumps and forced jumps. It also handles the jump release and picks the rising or falling gravity.
- **The small state holders.** These are the contact flags, the slope state, the fall-through timer, the gravity strength, the lateral speed table and the force accumulator.

Floats are `real`. The engine is a `Physics.World` value. Its ray and box casts are sequences of hit records. It also says which colliders carry a `Velocity` and with what value, and gives `Vector2.Angle(normal, up)` and the sine, cosine and tangent of degrees as uninterpreted functions. `World.Sound()` states what the engine guarantees and the proofs need:

- angles lie in [0, 180];
- tan is non-zero on (0, 90].

Each component whose fields the code updates is a `class`. Its methods are proved equal to a value-level rule applied to the old state, for example `State() == TakeSpeedXRule(Config(), world, old(State()), candidate, wallHanging)`. The properties are lemmas and `ensures` about those rules.

Some behaviour of the code differs from what a quick reading suggests. The model keeps the code's behaviour, and lemmas state it:

- `PlatformerSlopeCollisions.Clear` zeroes `lastAngle`, and nothing else writes it. So the "angle changed" test in `HandleClimbing` compares against 0.
- `canWalkOnSlope` is the predicate `slopeAngle <= maxSlopeAngle`, modelled as `RaycastSlopeCollider2D.CanWalkOnSlope`.
- `MovingPlatformHandler.resetState` does not reset `strongVelocity`. The handler is reset at the end of every `HandleMovingPlatforms`, so during a step the strong slot never wins and the wall probe has no effect (`ResetHandlerOnlyUsesWeakFloor`). As a result `strongVelocity`, which only a winning wall sets and which offsets the centre of both casts, keeps its initial value.
- A forced jump is not consumed by `doJump`. It launches on every step in which the button was up on the step before, until a landing or `EndAllForcedJumps` clears it (`ForcedJumpLaunch`). `blockJumpRelease` is set by a forced jump and never reset.
- `LayerMaskWithSemiSolid` ticks the fall-through timer. With a moving-platform handler and a falling character, it is called twice per step, so the timer runs down twice as fast (`FallTimerTicksTwice`).
- `SetDimensionsGradual` interpolates with `clamp(i, 0, 1)`, where `i` is the elapsed time in seconds, not the fraction of `timeToComplete`. So a ramp longer than a second reaches the new extents after one second and then holds them until the loop ends (`RampFrame`).
- `GetSpeedBySign` selects the wrong side. `LateralMoveSpeed.GetSpeedBySign` keeps the code's selection, and the documented one is `SpeedBySign`: see "## Findings".

## Model

| member | source | states |
|---|---|---|
| CasterGeometry.FromSize | Scripts/Collisions/CharaCasterDimensions.cs:8 | the record has the requested size and box origin, with no midpoint offset, relative to the middle |
| CasterGeometry.SidePoint | Scripts/Collisions/CharaCasterDimensions.cs:62-77 | y is kept; x moves by sign(side) times the half-width reduced by the skin; side 0 returns the input |
| CasterGeometry.BottomCenter | Scripts/Collisions/CharaCasterDimensions.cs:84-103 | x is the position's x; y is raised by the skin above the box floor, which lies 0, half or all of the height below the anchor for a Bottom, Middle or Top origin |
| CasterGeometry.MidCenterUnaltered | Scripts/Collisions/CharaCasterDimensions.cs:104-117 | the middle of the box, with no skin and no offset: the given position's x, and a y half the box height above the floor its origin puts below the anchor (extents.y up from a Bottom anchor, unchanged for Middle, extents.y down from Top); at the body's own position, midway between the skin-free bottom and top centres |
| CasterGeometry.TopCenter | Scripts/Collisions/CharaCasterDimensions.cs:146-163 | x is the position's x; y is lowered by the skin below the box top; TopCenter.y − BottomCenter.y = height − 2·skin for every origin |
| CasterGeometry.MidCenter | Scripts/Collisions/CharaCasterDimensions.cs:123-140 | x is the position's x; y is the midpoint offset added to BottomCenter, the skin-free middle or TopCenter, as the offset origin selects |
| CasterGeometry.BottomRight | Scripts/Collisions/CharaCasterDimensions.cs:177-179 | the bottom row's y, shifted right by the inner half-width |
| CasterGeometry.BottomLeft | Scripts/Collisions/CharaCasterDimensions.cs:185-187 | the mirror image of BottomRight about BottomCenter |
| CasterGeometry.MidRight | Scripts/Collisions/CharaCasterDimensions.cs:193-195 | the mid row's y, shifted right by the inner half-width |
| CasterGeometry.MidLeft | Scripts/Collisions/CharaCasterDimensions.cs:201-203 | the mirror image of MidRight about MidCenter |
| CasterGeometry.TopRight | Scripts/Collisions/CharaCasterDimensions.cs:209-211 | the top row's y, shifted right by the inner half-width |
| CasterGeometry.TopLeft | Scripts/Collisions/CharaCasterDimensions.cs:217-219 | the mirror image of TopRight about TopCenter |
| CasterGeometry.BoxEpicenter | Scripts/Collisions/CharaCasterDimensions.cs:167-169 | x is the position's x; y lies midway between the skin-free bottom and top centres |
| CasterGeometry.BottomPoint | Scripts/Collisions/CharaCasterDimensions.cs:228-230 | side 0, side > 0 and side < 0 give the bottom centre, the right point and the left point |
| CasterGeometry.MidPoint | Scripts/Collisions/CharaCasterDimensions.cs:239-241 | side 0, side > 0 and side < 0 give the mid centre, the right point and the left point |
| CasterGeometry.TopPoint | Scripts/Collisions/CharaCasterDimensions.cs:250-252 | side 0, side > 0 and side < 0 give the top centre, the right point and the left point |
| CasterGeometry.RowPointsInsideBox | Scripts/Collisions/CharaCasterDimensions.cs:62-103 | with a skin no wider than either half-extent, every bottom and top sample point lies inside the box |
| CasterGeometry.RampFrame | Scripts/Collisions/CharaCasterDimensions.cs:31-43 | a ramp frame changes only the extents; at elapsed ≤ 0 it is the start record; at elapsed ≥ 1 its extents are the target's |
| CasterGeometry.StepsBelowBound | Scripts/Collisions/CharaCasterDimensions.cs:34-40 | the termination bound of the ramp loop: a step count whose elapsed time is still short of t is at most ⌊t / dt⌋ |
| CasterGeometry.CharaCasterDimensions.constructor | Scripts/Collisions/CharaCasterDimensions.cs:8-15 | both the initial and the current record start as the design-time default |
| CasterGeometry.CharaCasterDimensions.SetDimensions | Scripts/Collisions/CharaCasterDimensions.cs:21-23 | the whole record is replaced |
| CasterGeometry.CharaCasterDimensions.RevertDimensions | Scripts/Collisions/CharaCasterDimensions.cs:48-50 | the record goes back to the initial one |
| CasterGeometry.CharaCasterDimensions.SetDimensionsGradual | Scripts/Collisions/CharaCasterDimensions.cs:31-43 | frame k is the ramp frame after k fixed steps; the number of frames is the least count of steps whose time reaches timeToComplete; the record ends as the new one |
| Forces.Accept | Scripts/Forces/DirectionalForces.cs:19-23 | the force is added to ForceRaw and the force times the timestep to ForceWithDeltaTime |
| Forces.AcceptAllSums | Scripts/Forces/DirectionalForces.cs:19-23 | a run of pushes adds the sum of its forces and the sum of its impulses |
| Forces.AcceptAll | Scripts/Forces/DirectionalForces.cs:19-23 | pushes of no force leave both accumulators as they were |
| Forces.DirectionalForces.constructor | Scripts/Forces/DirectionalForces.cs:14-17 | both accumulators start at zero |
| Forces.DirectionalForces.AcceptForce | Scripts/Forces/DirectionalForces.cs:19-23 | the accumulators become Accept of the old ones |
| Forces.DirectionalForces.AcceptForceComponents | Scripts/Forces/DirectionalForces.cs:24-27 | the (x, y, dt) overload is Accept of the vector (x, y) |
| Forces.DirectionalForces.AcceptForceX | Scripts/Forces/DirectionalForces.cs:29 | Accept of (x, 0); both y components are unchanged |
| Forces.DirectionalForces.AcceptForceY | Scripts/Forces/DirectionalForces.cs:30 | Accept of (0, y); both x components are unchanged |
| Forces.DirectionalForces.ClearForce | Scripts/Forces/DirectionalForces.cs:39 | both accumulators are zeroed |
| Forces.DirectionalForces.ClearForceX | Scripts/Forces/DirectionalForces.cs:40 | only the x component of both accumulators is zeroed |
| Forces.DirectionalForces.ClearForceY | Scripts/Forces/DirectionalForces.cs:41 | only the y component of both accumulators is zeroed |
| FallThrough.Ticked | Scripts/Collisions/FallThroughSemiSolid.cs:44-51 | the timer stays ≥ 0; it is 0 exactly when it was at most dt; otherwise it drops by dt; for dt ≥ 0 it never grows |
| FallThrough.TickedAllIsTotalElapsed | Scripts/Collisions/FallThroughSemiSolid.cs:44-51 | a run of non-negative ticks leaves max(0, timer − total elapsed) |
| FallThrough.SumNonNegative | Scripts/Collisions/FallThroughSemiSolid.cs:44-51 | the total elapsed time of non-negative steps is non-negative |
| FallThrough.ExpiredStaysExpired | Scripts/Collisions/FallThroughSemiSolid.cs:44-51 | once expired, the timer stays expired under any further ticks |
| FallThrough.FallThroughSemiSolid.constructor | Scripts/Collisions/FallThroughSemiSolid.cs:21-23 | the wait comes from the inspector; the timer is 0 and nothing is ignored |
| FallThrough.FallThroughSemiSolid.BeginFallThrough | Scripts/Collisions/FallThroughSemiSolid.cs:30-37 | the timer restarts at the wait and the collider to ignore is recorded |
| FallThrough.FallThroughSemiSolid.TickTimer | Scripts/Collisions/FallThroughSemiSolid.cs:44-51 | the timer becomes Ticked of the old one; the result is true exactly when it is ≤ 0 |
| GravityStrengths.GravityStrength.constructor | Scripts/Motors/Jump/GravityStrength.cs:9-14 | the constructor runs on the field initialiser, so the value starts at −50 whatever the inspector holds; the inspector strength is kept for RevertStrength |
| GravityStrengths.GravityStrength.RevertStrength | Scripts/Motors/Jump/GravityStrength.cs:19-21 | the value returns to the inspector strength, which is unchanged |
| Contacts.PlatformerCollisions.constructor | Scripts/Collisions/PlatformerCollisions.cs:11-41 | all eight flags start false |
| Contacts.PlatformerCollisions.SetLeft | Scripts/Collisions/PlatformerCollisions.cs:12-18 | only the left contact flag changes |
| Contacts.PlatformerCollisions.SetRight | Scripts/Collisions/PlatformerCollisions.cs:19-25 | only the right contact flag changes |
| Contacts.PlatformerCollisions.SetAbove | Scripts/Collisions/PlatformerCollisions.cs:26-32 | only the above contact flag changes |
| Contacts.PlatformerCollisions.SetBelow | Scripts/Collisions/PlatformerCollisions.cs:33-39 | only the below contact flag changes |
| Contacts.PlatformerCollisions.SetHitLeft | Scripts/Collisions/PlatformerCollisions.cs:45-51 | only the left hit-by-other flag changes |
| Contacts.PlatformerCollisions.SetHitRight | Scripts/Collisions/PlatformerCollisions.cs:55-61 | only the right hit-by-other flag changes |
| Contacts.PlatformerCollisions.SetHitAbove | Scripts/Collisions/PlatformerCollisions.cs:65-71 | only the above hit-by-other flag changes |
| Contacts.PlatformerCollisions.SetHitBelow | Scripts/Collisions/PlatformerCollisions.cs:75-81 | only the below hit-by-other flag changes |
| Contacts.PlatformerCollisions.Clear | Scripts/Collisions/PlatformerCollisions.cs:83-85 | all four contact flags and all four hit-by-other flags become false |
| SlopeContacts.PlatformerSlopeCollisions.constructor | Scripts/Collisions/PlatformerSlopeCollisions.cs:8-12 | the slope state starts cleared |
| SlopeContacts.PlatformerSlopeCollisions.Clear | Scripts/Collisions/PlatformerSlopeCollisions.cs:14-22 | angle, last angle and normal are zeroed, the direction is None, and so slidingDownMax is false |
| SlopeContacts.PlatformerSlopeCollisions.SlidingDownMax | Scripts/Collisions/PlatformerSlopeCollisions.cs:14-16 | true exactly when the direction is sliding down, so never while climbing or descending |
| Physics.World.Raycast | Scripts/Collisions/RaycastSlopeCollider2D.cs:133-138 | the first hit of the cast, or no hit when the cast finds nothing |
| Physics.World.VelocityOf | Scripts/Collisions/MovingPlatformHandler.cs:137 | a velocity exactly for a real collider that carries one, owned by that collider |
| Physics.World.ValueOf | Scripts/Collisions/MovingPlatformHandler.cs:247-253 | zero for no velocity, otherwise its value |
| Physics.FirstNonSelfHit | Scripts/Collisions/RaycastProducer2D.cs:47 | a hit is found exactly when the buffer holds a hit on another collider, and it is the earliest such entry; otherwise the default hit |
| Physics.Fill | Scripts/Collisions/RaycastProducer2D.cs:39-45 | a non-allocating cast overwrites the leading slots with the hits and keeps the rest |
| Physics.RaycastNonAlloc | Scripts/Collisions/RaycastProducer2D.cs:39-45 | the buffer is Fill of the ray's hits; the count is the smaller of the hits and the buffer size |
| Physics.BoxCastNonAlloc | Scripts/Collisions/MovingPlatformHandler.cs:85-93 | the buffer is Fill of the box cast's hits; the count is the smaller of the hits and the buffer size |
| Physics.ClearBuffer | Scripts/Collisions/RaycastProducer2D.cs:49 | every slot holds the default hit |
| RaycastProducer.Probe | Scripts/Collisions/RaycastProducer2D.cs:37-49 | a hit is found exactly when one of the first two cast hits is on another collider; the hit is then the first of them on another collider, never self; otherwise the default hit |
| RaycastProducer.ProbeAll | Scripts/Collisions/RaycastProducer2D.cs:32-47 | one result per origin, each the probe from that origin with the same direction, length and mask |
| RaycastProducer.TestPoints | Scripts/Collisions/RaycastProducer2D.cs:20-62 | null or empty origins give an empty array; otherwise the array is ProbeAll of the origins |
| RaycastProducer.ProbeInto | Scripts/Collisions/RaycastProducer2D.cs:39-49 | one turn of the loop returns Probe and leaves the scratchpad cleared again |
| RaycastProducer.UnclearedScratchpadLeaks | Scripts/Collisions/RaycastProducer2D.cs:48-49 | why the buffer is cleared: for every hit on another collider left in the second slot and every cast that only hits the caster, an uncleared buffer reports the left-over hit; a cleared one reports nothing |
| MovingPlatforms.Speed | Scripts/Collisions/MovingPlatformHandler.cs:45 | each axis is the strong speed when its used flag is set, otherwise the weak speed; a reset handler reports zero |
| MovingPlatforms.CompareTo | Scripts/Collisions/MovingPlatformHandler.cs:227 | −1, 0 or 1 exactly as a is below, equal to or above b |
| MovingPlatforms.CompareVelocities | Scripts/Collisions/MovingPlatformHandler.cs:222-228 | −1 exactly when wall·sign(my) < my·sign(my); never −1 when my speed is 0; for a moving character, −1 means the wall is slower in my direction |
| MovingPlatforms.AssignWeakColliderRule | Scripts/Collisions/MovingPlatformHandler.cs:234-245 | the candidate takes an empty weak slot; a filled slot is kept |
| MovingPlatforms.ResetStateRule | Scripts/Collisions/MovingPlatformHandler.cs:255-259 | colliders null, speeds zero, used flags false; the strong velocity is kept |
| MovingPlatforms.TakeWeak | Scripts/Collisions/MovingPlatformHandler.cs:159-165 | the strong slot is untouched; the weak slot is first come, first served; the winner's scalar is written to both axes of the weak speed |
| MovingPlatforms.TakeSpeedXRule | Scripts/Collisions/MovingPlatformHandler.cs:132-167 | a null candidate changes nothing; a winner takes the strong x slot, with the used flag only when it has a Velocity, and ends wall hanging when configured to; the weak slot is considered only while still hanging |
| MovingPlatforms.TakeSpeedYRule | Scripts/Collisions/MovingPlatformHandler.cs:173-208 | a null candidate changes nothing; a winner takes the strong y slot with the used flag set unconditionally; the weak slot is considered only when standing on the candidate |
| MovingPlatforms.FinalizeRule | Scripts/Collisions/MovingPlatformHandler.cs:210-214 | returns the current speed and leaves the handler reset |
| MovingPlatforms.HandleMovingPlatformsRule | Scripts/Collisions/MovingPlatformHandler.cs:69-125 | the carried speed is the handler's speed after the wall and floor probes, and the handler ends reset |
| MovingPlatforms.AfterWall | Scripts/Collisions/MovingPlatformHandler.cs:83-101 | without moving-wall support the wall probe changes nothing |
| MovingPlatforms.AfterFloor | Scripts/Collisions/MovingPlatformHandler.cs:103-122 | without moving-floor support the floor probe changes nothing after the wall's |
| MovingPlatforms.WeakSlotKeepsFirstCandidate | Scripts/Collisions/MovingPlatformHandler.cs:159-165 | once the weak slot is filled, no other candidate changes the weak collider or speed, on either axis |
| MovingPlatforms.ResetHandlerOnlyUsesWeakFloor | Scripts/Collisions/MovingPlatformHandler.cs:69-125 | from a reset handler the wall probe changes nothing, and the carried speed is the weak speed of the floor the character stands on |
| MovingPlatforms.MovingPlatformHandler.constructor | Scripts/Collisions/MovingPlatformHandler.cs:40-62 | inspector flags as given, handler reset |
| MovingPlatforms.MovingPlatformHandler.HandleMovingPlatforms | Scripts/Collisions/MovingPlatformHandler.cs:69-125 | the result and new state are HandleMovingPlatformsRule of the old state |
| MovingPlatforms.MovingPlatformHandler.CheckWall | Scripts/Collisions/MovingPlatformHandler.cs:83-101 | the wall cast, its first non-self hit passed to TakeSpeedX, then the buffer is cleared |
| MovingPlatforms.MovingPlatformHandler.CheckFloor | Scripts/Collisions/MovingPlatformHandler.cs:103-122 | the floor cast, its first non-self hit passed to TakeSpeedY with "at or below the feet" as the grounded flag |
| MovingPlatforms.MovingPlatformHandler.TakeSpeedX | Scripts/Collisions/MovingPlatformHandler.cs:132-167 | the state becomes TakeSpeedXRule of the old state |
| MovingPlatforms.MovingPlatformHandler.TakeSpeedY | Scripts/Collisions/MovingPlatformHandler.cs:173-208 | the state becomes TakeSpeedYRule of the old state |
| MovingPlatforms.MovingPlatformHandler.FinalizePlatformMovement | Scripts/Collisions/MovingPlatformHandler.cs:210-214 | result and state are FinalizeRule of the old state |
| MovingPlatforms.MovingPlatformHandler.AssignWeakCollider | Scripts/Collisions/MovingPlatformHandler.cs:234-245 | the state becomes AssignWeakColliderRule of the old state |
| MovingPlatforms.MovingPlatformHandler.ResetState | Scripts/Collisions/MovingPlatformHandler.cs:255-259 | the state becomes ResetStateRule of the old state |
| SlopeCollider.DoClimbFacts | Scripts/Collisions/RaycastSlopeCollider2D.cs:74-100 | a climb is taken exactly when y ≤ sin(θ)·\|x\|; then x = cos(θ)·x, y = sin(θ)·\|x\| and the slope is set to climbing with its angle and normal; otherwise nothing changes |
| SlopeCollider.DoClimbRule | Scripts/Collisions/RaycastSlopeCollider2D.cs:74-100 | an accepted climb sets the slope to climbing with the hit's angle and normal, keeps the last angle, and makes y the climb rise of x; a rejected one changes nothing |
| SlopeCollider.HandleClimbingFacts | Scripts/Collisions/RaycastSlopeCollider2D.cs:47-72 | the climb starts from last step's displacement when descending; the correction d is applied only for a changed angle; accepted: x = cos(θ)(x − d) + d; rejected: the start displacement and the old slope |
| SlopeCollider.HandleClimbingRule | Scripts/Collisions/RaycastSlopeCollider2D.cs:47-72 | accepted: the slope becomes climbing with the hit's angle and normal, the rest kept; rejected: the slope state is unchanged |
| SlopeCollider.PreventWallhugJittersRule | Scripts/Collisions/RaycastSlopeCollider2D.cs:103-106 | x is kept and y = tan(angle)·\|x\|, never negative when the tangent is not |
| SlopeCollider.ProbeSide | Scripts/Collisions/RaycastSlopeCollider2D.cs:128-131 | ±1, the sign of x when x is non-zero |
| SlopeCollider.TestDescendingRule | Scripts/Collisions/RaycastSlopeCollider2D.cs:118-139 | no cast and no hit while sliding down; otherwise the downward unbounded ray from the bottom point on the side of travel |
| SlopeCollider.DoDescendRule | Scripts/Collisions/RaycastSlopeCollider2D.cs:141-172 | accepted exactly for a tilted, walkable slope falling away in the direction of travel and close enough below; then y −= sin(θ)·\|x\| and x = cos(θ)·x from the unmodified x, with the slope set to descending; otherwise nothing changes |
| SlopeCollider.PreventCeilingJittersRule | Scripts/Collisions/RaycastSlopeCollider2D.cs:175-190 | no change unless climbing on a non-zero angle; y is never changed |
| SlopeCollider.CeilingCorrectionFollowsSlope | Scripts/Collisions/RaycastSlopeCollider2D.cs:175-190 | when applied, x·tan(angle) equals y with the sign of the old x; with no sideways motion nothing changes |
| SlopeCollider.CounteractJointCatchingRule | Scripts/Collisions/RaycastSlopeCollider2D.cs:191-221 | changes only while climbing with a hit ahead on a different angle; then x = (d − skin)·sign(x) and the angle and normal are replaced |
| SlopeCollider.HandleSlope | Scripts/Collisions/RaycastSlopeCollider2D.cs:31-44 | x is cos(θ − flat) times the flat move; y is the rise, or y minus the rise when descending |
| SlopeCollider.HandleSlopeMatchesClimbAndDescend | Scripts/Collisions/RaycastSlopeCollider2D.cs:31-44 | an accepted climb or descent moves exactly as HandleSlope on a flat reference |
| SlopeCollider.WalkableClimbHasNonzeroTangent | Scripts/Collisions/RaycastSlopeCollider2D.cs:175-190 | in a sound world the ceiling correction never divides by zero on a walkable climb |
| SlopeCollider.ClimbKeepsWalkable | Scripts/Collisions/RaycastSlopeCollider2D.cs:47-100 | a climb on a walkable angle keeps the climbing slope walkable |
| SlopeCollider.RaycastSlopeCollider2D.constructor | Scripts/Collisions/RaycastSlopeCollider2D.cs:11-18 | inspector values and the slope state as given |
| SlopeCollider.RaycastSlopeCollider2D.IsClimbing | Scripts/Collisions/RaycastSlopeCollider2D.cs:20-22 | true exactly when the slope state's direction is climbing, which excludes sliding down |
| SlopeCollider.RaycastSlopeCollider2D.CanWalkOnSlope | Scripts/Collisions/RaycastSlopeCollider2D.cs:23-25 | flat ground is walkable, the maximum angle itself is walkable, and anything steeper than vertical is not |
| SlopeCollider.RaycastSlopeCollider2D.ClearCollisions | Scripts/Collisions/RaycastSlopeCollider2D.cs:27-29 | the slope state is cleared |
| SlopeCollider.RaycastSlopeCollider2D.DoClimb | Scripts/Collisions/RaycastSlopeCollider2D.cs:74-100 | velocity, slope state and result are DoClimbRule of the old ones |
| SlopeCollider.RaycastSlopeCollider2D.HandleClimbing | Scripts/Collisions/RaycastSlopeCollider2D.cs:47-72 | velocity, slope state and result are HandleClimbingRule of the old ones |
| SlopeCollider.RaycastSlopeCollider2D.PreventWallhugJitters | Scripts/Collisions/RaycastSlopeCollider2D.cs:103-106 | the displacement is PreventWallhugJittersRule of the old one |
| SlopeCollider.RaycastSlopeCollider2D.TestDescending | Scripts/Collisions/RaycastSlopeCollider2D.cs:118-139 | the hit is TestDescendingRule of the slope state |
| SlopeCollider.RaycastSlopeCollider2D.DoDescendSlope | Scripts/Collisions/RaycastSlopeCollider2D.cs:141-172 | velocity, slope state and result are DoDescendRule of the old ones |
| SlopeCollider.RaycastSlopeCollider2D.PreventCeilingJitters | Scripts/Collisions/RaycastSlopeCollider2D.cs:175-190 | the displacement is PreventCeilingJittersRule of the old one |
| SlopeCollider.RaycastSlopeCollider2D.CounteractJointCatching | Scripts/Collisions/RaycastSlopeCollider2D.cs:191-221 | velocity and slope state are CounteractJointCatchingRule of the old ones |
| CharacterCollider.LayerMaskWithSemiSolidRule | Scripts/Collisions/RaycastCollider2D.cs:258-269 | semi-solids are added only when moving down and either there is no fall-through handler or its timer, ticked once, has expired; the timer ticks only in that case |
| CharacterCollider.HStep | Scripts/Collisions/RaycastCollider2D.cs:191-255 | a missing hit or one beyond the ray changes nothing; the ray never grows; only ray 0 can climb; an in-range hit first tries the climb (HClimb); if that leaves a walkable slope being climbed, the turn ends there with contacts and ray unchanged; otherwise the side flags are set, x is cut by CutX from the post-climb x, the ray is no longer than the hit, and while climbing the wallhug correction follows, else y is the post-climb y |
| CharacterCollider.HClimb | Scripts/Collisions/RaycastCollider2D.cs:208-231 | contacts and ray are kept; only ray 0 on a walkable slope with a slope handler changes anything, and then velocity, slope and did-ascend are those of HandleClimbingRule for the hit |
| CharacterCollider.CutX | Scripts/Collisions/RaycastCollider2D.cs:244 | min(d − skin, \|x\|)·dir: for dir ±1 and d ≥ skin, no longer than x and in the direction of travel; 0 when idle |
| CharacterCollider.HStepNeverLengthens | Scripts/Collisions/RaycastCollider2D.cs:237-254 | without a slope handler, a turn whose hit is at least a skin away never lengthens x nor turns it against the direction of travel |
| CharacterCollider.HCut | Scripts/Collisions/RaycastCollider2D.cs:237-254 | the side flags are Left = (dir = −1) and Right = (dir = 1); x is CutX of the old x; the new ray is no longer than the hit; while climbing with a slope handler y = tan(angle)·\|x\|, otherwise y is kept; for a hit at least a skin away x keeps its direction and never lengthens |
| CharacterCollider.HOrigins | Scripts/Collisions/RaycastCollider2D.cs:171-176 | three origins: the bottom, mid and top points of the side faced (right when idle) |
| CharacterCollider.HHits | Scripts/Collisions/RaycastCollider2D.cs:163-185 | three hits, cast with ray length min(\|x\|, skin) + skin |
| CharacterCollider.HorizontalRule | Scripts/Collisions/RaycastCollider2D.cs:155-256 | the ray never exceeds its first length; the side flags stay exclusive; above, below and hit-by-other are untouched; without a slope handler y and the slope state are kept |
| CharacterCollider.HFold | Scripts/Collisions/RaycastCollider2D.cs:191-255 | the ray length never increases across the horizontal loop |
| CharacterCollider.HFoldNeverLengthens | Scripts/Collisions/RaycastCollider2D.cs:237-254 | without a slope handler and with every hit at least a skin away, the horizontal loop never lengthens x and keeps it in the direction of travel |
| CharacterCollider.OnlyFirstRayClimbs | Scripts/Collisions/RaycastCollider2D.cs:215-224 | after ray 0 the did-ascend flag never changes |
| CharacterCollider.FlatSweepKeepsVertical | Scripts/Collisions/RaycastCollider2D.cs:208-254 | without a slope handler the horizontal loop keeps y, the slope state and the did-ascend flag |
| CharacterCollider.HFoldKeepsWalkable | Scripts/Collisions/RaycastCollider2D.cs:208-231 | in a sound world the horizontal loop keeps a climbing slope walkable |
| CharacterCollider.VStep | Scripts/Collisions/RaycastCollider2D.cs:307-323 | a missing or out-of-range hit changes nothing; an in-range hit sets rayLength = d, Below = (dirY = −1) and Above = (dirY = 1); x changes only through the ceiling correction |
| CharacterCollider.VOrigins | Scripts/Collisions/RaycastCollider2D.cs:284-293 | the top corners when rising, otherwise the bottom corners, each shifted by x |
| CharacterCollider.VHits | Scripts/Collisions/RaycastCollider2D.cs:295-302 | two hits, cast with ray length \|y\| + skin |
| CharacterCollider.VFold | Scripts/Collisions/RaycastCollider2D.cs:307-323 | the ray length never increases across the vertical loop |
| CharacterCollider.VerticalRule | Scripts/Collisions/RaycastCollider2D.cs:271-326 | the timer ticks as LayerMaskWithSemiSolid says; left, right and hit-by-other are kept; below and above stay exclusive; a new below needs y < 0 and a new above y > 0 |
| CharacterCollider.VFoldNeverLengthens | Scripts/Collisions/RaycastCollider2D.cs:307-323 | the vertical loop never lengthens the move along the direction of travel or its ray |
| CharacterCollider.VFoldOneVerticalSide | Scripts/Collisions/RaycastCollider2D.cs:320-321 | the vertical loop sets below only when moving down and above only when moving up, never both |
| CharacterCollider.BeginRule | Scripts/Collisions/RaycastCollider2D.cs:62-63 | contacts cleared; with a slope handler the slope state is cleared, so it is not sliding down |
| CharacterCollider.DescendRule | Scripts/Collisions/RaycastCollider2D.cs:85-102 | only when not rising and with a slope handler; a descent records a descending slope |
| CharacterCollider.CastDirection | Scripts/Collisions/RaycastCollider2D.cs:106-108 | the sign of x when x ≠ 0, otherwise the previous direction |
| CharacterCollider.PlatformRule | Scripts/Collisions/RaycastCollider2D.cs:111-121 | no handler changes nothing; a handler ticks the timer as LayerMaskWithSemiSolid says and ends reset |
| CharacterCollider.WithBelowForced | Scripts/Collisions/RaycastCollider2D.cs:141-144 | below is or-ed with the forcing flag; nothing else changes |
| CharacterCollider.PreludeFacts | Scripts/Collisions/RaycastCollider2D.cs:60-121 | after the prelude the contacts are clear, the slope is not climbing, the cast direction follows x, and the platform handler is reset |
| CharacterCollider.PreludeRule | Scripts/Collisions/RaycastCollider2D.cs:60-121 | the contacts are cleared and the grounding override is not yet consumed; a descent happens only with a slope handler and when not rising |
| CharacterCollider.SweptRule | Scripts/Collisions/RaycastCollider2D.cs:125-135 | the sweeps keep hit-by-other and keep the side flags exclusive; without a slope handler the slope state is kept and nothing is ascended |
| CharacterCollider.SweepRule | Scripts/Collisions/RaycastCollider2D.cs:125-149 | velocity plus recoil is the unaltered velocity; the override is consumed; a descent or the override forces below; platform and cast direction are kept |
| CharacterCollider.ApplyCollisionsRule | Scripts/Collisions/RaycastCollider2D.cs:60-151 | velocity plus recoil is the incoming velocity; the override is cleared, and when it was set below holds |
| CharacterCollider.SweepFacts | Scripts/Collisions/RaycastCollider2D.cs:125-149 | the recoil is exactly what the sweeps removed; the override is consumed and forces below; the side flags stay exclusive |
| CharacterCollider.ApplyCollisionsFacts | Scripts/Collisions/RaycastCollider2D.cs:60-151 | recoil = unaltered − final velocity; the override forces below and is cleared; hit-by-other is clear; left and right are exclusive; the cast direction follows x; the timer ticks at most twice |
| CharacterCollider.HFoldSidesApart | Scripts/Collisions/RaycastCollider2D.cs:237-238 | the side flags stay exclusive and nothing else in the contacts changes |
| CharacterCollider.FallTimerTicksTwice | Scripts/Collisions/RaycastCollider2D.cs:111-135 | with platform and fall-through handlers and a falling character, one ApplyCollisions ticks the fall-through timer twice |
| CharacterCollider.RaycastCollider2D.constructor | Scripts/Collisions/RaycastCollider2D.cs:12-53 | components and inspector values as given; no cast direction yet; no grounding override |
| CharacterCollider.RaycastCollider2D.ForceGrounded | Scripts/Collisions/RaycastCollider2D.cs:55-57 | the override is set |
| CharacterCollider.RaycastCollider2D.ApplyCollisions | Scripts/Collisions/RaycastCollider2D.cs:60-151 | the velocity, recoil, contacts, slope, platform and timer state are ApplyCollisionsRule of the old ones |
| CharacterCollider.RaycastCollider2D.StartSweep | Scripts/Collisions/RaycastCollider2D.cs:60-121 | the state after the prelude is PreludeRule of the old one |
| CharacterCollider.RaycastCollider2D.BeginSweep | Scripts/Collisions/RaycastCollider2D.cs:60-108 | clear, descend and pick the cast direction, as BeginRule, DescendRule and CastDirection say |
| CharacterCollider.RaycastCollider2D.FinishSweep | Scripts/Collisions/RaycastCollider2D.cs:125-149 | the end state is SweepRule of the prelude |
| CharacterCollider.RaycastCollider2D.Settle | Scripts/Collisions/RaycastCollider2D.cs:141-149 | the ground flag is forced, the override cleared and the recoil written |
| CharacterCollider.RaycastCollider2D.ForceGround | Scripts/Collisions/RaycastCollider2D.cs:141-146 | below is or-ed with ascended, descended and the override, which is cleared |
| CharacterCollider.RaycastCollider2D.Sweeps | Scripts/Collisions/RaycastCollider2D.cs:125-135 | the result is SweptRule of the old state |
| CharacterCollider.RaycastCollider2D.DescendPhase | Scripts/Collisions/RaycastCollider2D.cs:85-102 | velocity, slope and the descended flag are DescendRule of the old ones |
| CharacterCollider.RaycastCollider2D.PlatformPhase | Scripts/Collisions/RaycastCollider2D.cs:111-121 | velocity, handler and timer are PlatformRule of the old ones |
| CharacterCollider.RaycastCollider2D.HorizontalCollisions | Scripts/Collisions/RaycastCollider2D.cs:155-256 | velocity, contacts, slope and did-ascend are HorizontalRule of the old ones |
| CharacterCollider.RaycastCollider2D.HorizontalHits | Scripts/Collisions/RaycastCollider2D.cs:169-186 | the three hits are HHits |
| CharacterCollider.RaycastCollider2D.HorizontalLoop | Scripts/Collisions/RaycastCollider2D.cs:189-255 | the loop ends in the fold of HStep over the three hits |
| CharacterCollider.RaycastCollider2D.HorizontalTurn | Scripts/Collisions/RaycastCollider2D.cs:193-254 | one turn is HStep |
| CharacterCollider.RaycastCollider2D.ClimbTurn | Scripts/Collisions/RaycastCollider2D.cs:208-231 | the climb attempt on ray 0 of a walkable slope, and the skip exactly while climbing such a slope |
| CharacterCollider.RaycastCollider2D.WallTurn | Scripts/Collisions/RaycastCollider2D.cs:237-254 | the wall part of a turn is HCut |
| CharacterCollider.RaycastCollider2D.WallCut | Scripts/Collisions/RaycastCollider2D.cs:244-254 | x cut to the wall, the ray shortened and the wallhug correction, as HCut says |
| CharacterCollider.RaycastCollider2D.LayerMaskWithSemiSolid | Scripts/Collisions/RaycastCollider2D.cs:258-269 | mask and timer are LayerMaskWithSemiSolidRule of the old timer |
| CharacterCollider.RaycastCollider2D.VerticalCollisions | Scripts/Collisions/RaycastCollider2D.cs:271-326 | velocity, contacts, slope and timer are VerticalRule of the old ones |
| CharacterCollider.RaycastCollider2D.VerticalSetup | Scripts/Collisions/RaycastCollider2D.cs:273-303 | the mask from LayerMaskWithSemiSolidRule, then the two casts |
| CharacterCollider.RaycastCollider2D.VerticalHits | Scripts/Collisions/RaycastCollider2D.cs:295-302 | the two hits are VHits |
| CharacterCollider.RaycastCollider2D.VerticalOrigins | Scripts/Collisions/RaycastCollider2D.cs:284-293 | the origins are VOrigins |
| CharacterCollider.RaycastCollider2D.VerticalLoop | Scripts/Collisions/RaycastCollider2D.cs:307-323 | the loop ends in the fold of VStep over the two hits |
| CharacterCollider.RaycastCollider2D.VerticalTurn | Scripts/Collisions/RaycastCollider2D.cs:309-322 | one turn is VStep |
| CharacterCollider.RaycastCollider2D.VerticalFinish | Scripts/Collisions/RaycastCollider2D.cs:325 | the joint-catching correction after the loop, nothing without a slope handler |
| Jump.CombineWith | Scripts/Motors/Jump/JumpComponent.cs:58-66 | the larger height and the larger duration of the two |
| Jump.CombineWithIsJoin | Scripts/Motors/Jump/JumpComponent.cs:52-53 | combining is commutative, associative and idempotent, and keeps a non-negative jump non-negative |
| Jump.Derive | Scripts/Motors/Jump/JumpComponent.cs:99-105 | gravityRising·timeToPeak² = −2·jumpHeight, gravityFalling = gravityRising·multiplier, jumpPower = \|gravityRising\|·timeToPeak |
| Jump.JumpReachesApex | Scripts/Motors/Jump/JumpComponent.cs:99-105 | launched at jumpPower under the rising gravity, the character stops rising at timeToPeak, having climbed jumpHeight |
| Jump.DefaultGravities | Scripts/Motors/Jump/JumpComponent.cs:26-34 | with the inspector defaults both gravities are negative and falling is 1.5 times the rising one |
| Jump.GetForcedJumpRule | Scripts/Motors/Jump/JumpComponent.cs:42-48 | the pending jump exactly when one is pending |
| Jump.JumpComponent.GetForcedJump | Scripts/Motors/Jump/JumpComponent.cs:46-48 | a value exactly when a forced jump is pending, and then the pending jump |
| Jump.JumpComponent.IsAbleToJump | Scripts/Motors/Jump/JumpComponent.cs:143-145 | never while manual jumps are blocked; always on the ground when not blocked; in the air only with the coyote timer running |
| Jump.SetForcedJumpRule | Scripts/Motors/Jump/JumpComponent.cs:58-67 | in the air nothing changes; on the ground the jump is pending and combined with the old one |
| Jump.ClearForcedJumpRule | Scripts/Motors/Jump/JumpComponent.cs:77-79 | nothing pending, the default jump, timers unchanged |
| Jump.ClearJumpTimerRule | Scripts/Motors/Jump/JumpComponent.cs:108 | the jump timer is 0; the forced jump is kept |
| Jump.EndAllForcedJumpsRule | Scripts/Motors/Jump/JumpComponent.cs:71-76 | with nothing pending, no change; otherwise the forced jump is cleared and the timer zeroed |
| Jump.ReleaseRule | Scripts/Motors/Jump/JumpComponent.cs:236-254 | a release happens exactly while the timer runs; it zeroes the timer and keeps a downward speed |
| Jump.ReleaseBounds | Scripts/Motors/Jump/JumpComponent.cs:236-254 | with jumpEndReduceSpeedTo ≤ 1 the release never speeds the character up; with it ≥ 0 an upward speed never turns downward |
| Jump.CoyoteTime | Scripts/Motors/Jump/JumpComponent.cs:143-153 | the coyote timer is refilled on the ground and runs down by dt in the air; a manual jump needs a rising edge, no block, and the ground or a running coyote timer |
| Jump.StartPhase | Scripts/Motors/Jump/JumpComponent.cs:150 | the coyote timer becomes coyoteTime on the ground and runs down by dt in the air; nothing else changes and no notification is raised |
| Jump.ManualPhase | Scripts/Motors/Jump/JumpComponent.cs:153-166 | a rising edge with the ability to jump sets the speed to jumpPower and the timer to timeToPeak and raises "jumped" and "intentionally"; otherwise nothing changes; the gravity is kept |
| Jump.ForcedPhase | Scripts/Motors/Jump/JumpComponent.cs:168-182 | with a pending jump and the button up last step, the timer becomes its duration, release is blocked and "jumped" and "involuntarily" are raised, with a non-negative speed for a non-negative duration; otherwise nothing changes; the pending jump is kept |
| Jump.ReleasePhase | Scripts/Motors/Jump/JumpComponent.cs:185-187 | only an unblocked falling edge changes anything; then only the timer may be zeroed, a downward speed is kept, and at most "released" is raised |
| Jump.ReleasePhaseBounds | Scripts/Motors/Jump/JumpComponent.cs:185-187 | the release phase never speeds the character up for jumpEndReduceSpeedTo ≤ 1 and never turns a rise into a fall for it ≥ 0 |
| Jump.FinishPhase | Scripts/Motors/Jump/JumpComponent.cs:190-204 | rising gravity while the timer runs, falling otherwise; the timer ticks down but not below 0; the button is remembered; nothing else changes |
| Jump.DoJumpRule | Scripts/Motors/Jump/JumpComponent.cs:148-205 | the button is remembered; the pending forced jump and the manual block are kept; the gravity is the rising or the falling one |
| Jump.ManualJump | Scripts/Motors/Jump/JumpComponent.cs:153-166 | "jumped intentionally" is raised exactly for a manual jump, which sets the speed to jumpPower and the timer to timeToPeak |
| Jump.ForcedJumpLaunch | Scripts/Motors/Jump/JumpComponent.cs:168-182 | launched exactly when pending with the button up on the last step; speed = \|speed\|·duration; the release is blocked for good; the jump stays pending |
| Jump.JumpRelease | Scripts/Motors/Jump/JumpComponent.cs:185-187 | released exactly on an unblocked falling edge with the timer running; an upward speed is scaled and the falling gravity chosen; never on a step that jumps |
| Jump.GravityFollowsTimer | Scripts/Motors/Jump/JumpComponent.cs:190-204 | rising gravity exactly while the timer runs; the timer stays ≥ 0 and never grows; the button is remembered; the pending jump stays non-negative |
| Jump.EventsPerStep | Scripts/Motors/Jump/JumpComponent.cs:148-205 | at most four notifications per step; "jumped" is raised exactly with "intentionally" or "involuntarily" |
| Jump.JumpComponent.constructor | Scripts/Motors/Jump/JumpComponent.cs:91-106 | the derived values are Derive of the parameters; the state starts as the initialisers say, with no notifications |
| Jump.JumpComponent.SetForcedJump | Scripts/Motors/Jump/JumpComponent.cs:58-67 | the state becomes SetForcedJumpRule of the old state |
| Jump.JumpComponent.EndAllForcedJumps | Scripts/Motors/Jump/JumpComponent.cs:71-76 | the state becomes EndAllForcedJumpsRule of the old state |
| Jump.JumpComponent.ClearForcedJump | Scripts/Motors/Jump/JumpComponent.cs:77-79 | the state becomes ClearForcedJumpRule of the old state |
| Jump.JumpComponent.ClearJumpTimer | Scripts/Motors/Jump/JumpComponent.cs:108 | the state becomes ClearJumpTimerRule of the old state |
| Jump.JumpComponent.RegisterNewJump | Scripts/Motors/Jump/JumpComponent.cs:215-225 | the timer starts at the jump time and the launch speed is returned |
| Jump.JumpComponent.ReleaseJump | Scripts/Motors/Jump/JumpComponent.cs:236-254 | speed and timer are ReleaseRule of the old ones |
| Jump.JumpComponent.ManualJumpPhase | Scripts/Motors/Jump/JumpComponent.cs:153-166 | the manual-jump part of doJump, as ManualPhase says |
| Jump.JumpComponent.ForcedJumpPhase | Scripts/Motors/Jump/JumpComponent.cs:168-182 | the forced-jump part of doJump, as ForcedPhase says |
| Jump.JumpComponent.ReleasePhaseStep | Scripts/Motors/Jump/JumpComponent.cs:185-187 | the release part of doJump, as ReleasePhase says |
| Jump.JumpComponent.FinishJumpPhase | Scripts/Motors/Jump/JumpComponent.cs:190-204 | gravity, timer tick and button memory, as FinishPhase says |
| Jump.JumpComponent.DoJump | Scripts/Motors/Jump/JumpComponent.cs:148-205 | state, stored speed, gravity and notifications are DoJumpRule of the old ones |
| Gravity.VCollisionFlags | Scripts/Motors/Jump/GravityComponent.cs:88-122 | HitAbove exactly when stored < 0, HitBelow exactly when stored > 0, other flags kept; the ground and static-ceiling contacts are remembered |
| Gravity.FlagPhase | Scripts/Motors/Jump/GravityComponent.cs:88-90 | HitAbove exactly when stored < 0, HitBelow exactly when stored > 0, never both; the other flags, the speed and the memory are kept, with no notification |
| Gravity.CeilingPhase | Scripts/Motors/Jump/GravityComponent.cs:92-106 | ceilinged exactly with a contact above not flagged as a hit; then the speed is clamped to min(0, speed), else kept; OnHitCeiling exactly when the ceiling contact is new |
| Gravity.GroundPhase | Scripts/Motors/Jump/GravityComponent.cs:108-122 | grounded exactly with a contact below; then the speed is the response, else kept; OnHitGround exactly when the ground contact is new |
| Gravity.ApplyVCollisionsRule | Scripts/Motors/Jump/GravityComponent.cs:78-125 | the ground is remembered; at most two notifications; on the ground the speed is the response to the ceiling-clamped speed; with no contact above or below the speed is kept and nothing is raised |
| Gravity.VCollisionSpeed | Scripts/Motors/Jump/GravityComponent.cs:92-112 | free air keeps the speed; a static ceiling clamps it to ≤ 0; the ground applies the response to the clamped speed, 0 by default |
| Gravity.VCollisionEvents | Scripts/Motors/Jump/GravityComponent.cs:99-118 | OnHitCeiling exactly when a static-ceiling contact begins, OnHitGround exactly when a ground contact begins, the ceiling first |
| Gravity.OncePerContact | Scripts/Motors/Jump/GravityComponent.cs:26-122 | a lasting contact notifies once; starting grounded never reports a landing |
| Gravity.ListenAllAppend | Scripts/Motors/Jump/JumpComponent.cs:110-119 | the listeners run for each notification in order |
| Gravity.ListenAllEffect | Scripts/Motors/Jump/JumpComponent.cs:77-108 | a landing clears the forced jump, a head hit stops the jump timer, and nothing else changes |
| Gravity.GroundedStoresOneStepOfGravity | Scripts/Motors/Jump/GravityComponent.cs:51-74 | the character moves by the final stored speed times dt; on the ground with no jump the stored speed is one step of gravity |
| Gravity.LandingClearsForcedJump | Scripts/Motors/Jump/GravityComponent.cs:51-71 | a landing clears the forced jump before the jump runs, so none launches and none stays pending |
| Gravity.CeilingEndsJump | Scripts/Motors/Jump/GravityComponent.cs:92-106 | a head hit on a static ceiling with no new jump switches to the falling gravity |
| Gravity.GravityComponent.constructor | Scripts/Motors/Jump/GravityComponent.cs:26-41 | the components as given, the default response, lastGrounded true, lastCeilinged false, no listener |
| Gravity.GravityComponent.EnableJump | Scripts/Motors/Jump/JumpComponent.cs:110-119 | the jump component becomes the listener |
| Gravity.GravityComponent.DisableJump | Scripts/Motors/Jump/JumpComponent.cs:121-129 | the gravity strength reverts and the listener is removed |
| Gravity.GravityComponent.OnHitCeiling | Scripts/Motors/Jump/GravityComponent.cs:101 | the notification is logged and the listener runs clearJumpTimer |
| Gravity.GravityComponent.OnHitGround | Scripts/Motors/Jump/GravityComponent.cs:117 | the notification is logged and the listener runs clearForcedJump |
| Gravity.GravityComponent.CeilingResponse | Scripts/Motors/Jump/GravityComponent.cs:92-106 | the ceiling part of applyVCollisions, as CeilingPhase says |
| Gravity.GravityComponent.GroundResponse | Scripts/Motors/Jump/GravityComponent.cs:108-122 | the ground part of applyVCollisions, as GroundPhase says |
| Gravity.GravityComponent.ApplyVCollisions | Scripts/Motors/Jump/GravityComponent.cs:78-125 | speed, flags, memory and notifications are ApplyVCollisionsRule of the old ones |
| Gravity.GravityComponent.RunJump | Scripts/Motors/Jump/GravityComponent.cs:71 | the callback runs doJump when a jump component listens, as RunJumpRule says |
| Gravity.RunJumpRule | Scripts/Motors/Jump/GravityComponent.cs:71 | with no listener the gravity and falling speed pass through unchanged and nothing is raised; with one, its parameters are kept and the button is remembered |
| Gravity.AfterCollisionRule | Scripts/Motors/Jump/GravityComponent.cs:71-74 | the listener is kept or stays absent; with none the gravity is kept and no jump notification is raised |
| Gravity.FixedUpdateRule | Scripts/Motors/Jump/GravityComponent.cs:43-75 | the listener is kept or stays absent; with none the gravity is kept and no jump notification is raised |
| Gravity.GravityComponent.AfterCollision | Scripts/Motors/Jump/GravityComponent.cs:71-74 | the callback, then the vertical move, as AfterCollisionRule says |
| Gravity.GravityComponent.FixedUpdate | Scripts/Motors/Jump/GravityComponent.cs:43-75 | the whole step is FixedUpdateRule: collision response, gravity, jump callback, move |
| LateralSpeed.InitialTable | Scripts/Motors/Lateral/LateralMoveSpeed.cs:7-15 | multipliers (−1, 0, 1) for left, idle and right, added values 0 |
| LateralSpeed.SpeedsAllSigned | Scripts/Motors/Lateral/LateralMoveSpeed.cs:91-96 | x, y and z are the left, idle and right speeds, each speed·multiplier + added value |
| LateralSpeed.SpeedBySignAsWritten | Scripts/Motors/Lateral/LateralMoveSpeed.cs:105-115 | as the code selects: sign 0 gives idle, sign < 0 gives the right speed, sign > 0 the left one |
| LateralSpeed.SpeedBySign | Scripts/Motors/Lateral/LateralMoveSpeed.cs:95-115 | as documented: sign 0 gives idle, sign < 0 left, sign > 0 right |
| LateralSpeed.SpeedBySignFollowsSign | Scripts/Motors/Lateral/LateralMoveSpeed.cs:95-115 | with the initial table and a positive speed, the result has the sign of `sign` and magnitude speed, or 0 |
| LateralSpeed.AsWrittenReversesDirection | Scripts/Motors/Lateral/LateralMoveSpeed.cs:109-113 | with the initial table, a negative sign selects the right-hand speed (+speed) and a positive sign the left-hand one (−speed) |
| LateralSpeed.AsWrittenAgreesOnlyWhenSymmetric | Scripts/Motors/Lateral/LateralMoveSpeed.cs:109-113 | the code and the documentation agree exactly when the sign is 0 or left and right speeds coincide |
| LateralSpeed.LateralMoveSpeed.constructor | Scripts/Motors/Lateral/LateralMoveSpeed.cs:7-15 | the table starts as InitialTable |
| LateralSpeed.LateralMoveSpeed.SetSpeed | Scripts/Motors/Lateral/LateralMoveSpeed.cs:21-23 | only the base speed changes |
| LateralSpeed.LateralMoveSpeed.SetMultipliers | Scripts/Motors/Lateral/LateralMoveSpeed.cs:33-37 | only the three multipliers change, to the arguments |
| LateralSpeed.LateralMoveSpeed.SetMultipliersVector | Scripts/Motors/Lateral/LateralMoveSpeed.cs:46-48 | x, y and z become the left, idle and right multipliers |
| LateralSpeed.LateralMoveSpeed.SetAddedValue | Scripts/Motors/Lateral/LateralMoveSpeed.cs:55-59 | all three added values become the argument |
| LateralSpeed.LateralMoveSpeed.SetAddedValues | Scripts/Motors/Lateral/LateralMoveSpeed.cs:68-72 | the left, right and idle added values become the arguments |
| LateralSpeed.LateralMoveSpeed.SetAddedValueVector | Scripts/Motors/Lateral/LateralMoveSpeed.cs:79-83 | x, y and z become the left, idle and right added values |
| LateralSpeed.LateralMoveSpeed.GetSpeedsAllSigned | Scripts/Motors/Lateral/LateralMoveSpeed.cs:91-96 | the left, idle and right speeds of the current table |
| LateralSpeed.LateralMoveSpeed.GetSpeedBySign | Scripts/Motors/Lateral/LateralMoveSpeed.cs:105-115 | the code's selection, SpeedBySignAsWritten of the current table; with the initial multipliers and no added values a non-zero sign gets the speed in the opposite direction |

## Data records

Four members model the record types declared in files whose names begin with `#DATA_`; their contracts are:

- `CasterGeometry.FromSizeWithMidpoint` models lines 21-32 of `Scripts/Collisions/#DATA_CharaCasterDimensions.cs`: the record has the requested size, box origin and midpoint offset with its origin.
- `Jump.MakeForcedJump` models lines 21-24 of `Scripts/Motors/Jump/#DATA_ForcedJump.cs`: both fields are clamped below at 0 and otherwise kept.
- `Jump.FromFloat` models lines 38-44 of `Scripts/Motors/Jump/#DATA_ForcedJump.cs`: height is the value and duration its magnitude; non-negative exactly for a non-negative value.
- `Jump.PrepareForcedJump` models lines 48-50 of `Scripts/Motors/Jump/#DATA_ForcedJump.cs`: the gravity g with g·duration² = −2·height.

## Left out

- IEEE float rounding: every float is a `real`. Sine, cosine and tangent of degrees, and `Vector2.Angle`, are uninterpreted functions of the `World`. The proofs rely only on `World.Sound()`: angles lie in [0, 180] and the tangent is non-zero on (0, 90].
- `Physics2D.Raycast`, `RaycastNonAlloc` and `BoxCastNonAlloc` are sequences of hits the `World` supplies. `GetComponent<Velocity>()` is the `World`'s velocity lookup.
- `FirstNonSelfHit` is an extension method that is not part of this model. It is taken to return the earliest entry on a non-null collider other than self, or the default hit.
- Unity's null semantics for destroyed objects: a collider reference is either `Null` or an id.
- `Time.fixedDeltaTime` and the jump button's value are parameters. Input polling (Scripts/Input/PlayerPlatformerInput.cs) is not part of this model.
- The `SetDimensionsGradual` coroutine is a loop with one turn per fixed step. The model requires `fixedDeltaTime > 0`; the engine's step is always positive.
- SetDimensionsGradual: runs the coroutine as one uninterrupted loop. In the engine, `SetDimensions` or `RevertDimensions` may run between two fixed steps of a ramp in progress and be overwritten by its next frame; that interleaving with other writers is not modelled.
- UnityEvent plumbing: the notifications are logs. The only listener modelled is the jump component's, registered by `EnableJump` and removed by `DisableJump`. Game code's other listeners, and listeners on the jump component's own events, are not modelled. `FixedUpdate` requires `Wired()`: a registered jump component shares the gravity component's contacts, gravity strength and stored velocity, as it does when the inspector references point at the same components.
- `ref Velocity` is passed as the `Velocity` object the caller owns. No other code writes it during a call.
- The `DirectionalForces` overloads without a timestep (Scripts/Forces/DirectionalForces.cs:32-36) are the timestep overloads applied to the fixed step, with the step as a parameter.
- `Jump.Derive` and `Jump.JumpComponent.constructor` require `timeToPeak != 0`, and `Jump.PrepareForcedJump` requires `duration != 0`: the code would divide by zero there.
- `hasSlopeCollisions` is cached by `RaycastSlopeCollider2D` but never read, so it is not modelled.
- Debug.DrawLine, DrawRay, Log and LogError calls are diagnostics with no effect on state.
- The editor scripts, LateralMoveMotor, AcceptsForces, SetCasterDimensions, ILateralMoveSignal, the acceleration signals, ChangeSpeedOnSlopes, SlideDownMaxSlopes and the Samples are not part of this model. They are inspector UI, glue over components that are not shown, interfaces, or curve-based smoothing.
- Jump.EventsPerStep: bounds the notifications of one step by four, rather than listing every possible sequence.
- Jump.DoJumpRule: its own contract states only what every step keeps; what each part of the step does is the contract of StartPhase, ManualPhase, ForcedPhase, ReleasePhase and FinishPhase, which it chains.
- Gravity.AfterCollisionRule: its own contract covers the listener and the no-listener case only; the vertical move by the stored speed is stated, for the whole step, by Gravity.GroundedStoresOneStepOfGravity.
- Gravity.FixedUpdateRule: its own contract covers the listener and the no-listener case only; the rest of the step is stated by Gravity.GroundedStoresOneStepOfGravity, Gravity.LandingClearsForcedJump and Gravity.CeilingEndsJump.

## Findings

| source | as written | input that shows it | evidently intended | confidence | as-written member | corrected member |
|---|---|---|---|---|---|---|
| Scripts/Motors/Lateral/LateralMoveSpeed.cs:109-113 | `math.select(left, right, sign < 0)` returns the right-hand speed for a negative sign and the left-hand one for a positive sign | initial table, speed 5, sign −1: the result is +5, the right-hand speed | a negative sign selects the left speed and a positive one the right speed, as the method's documentation says; the player input's default X inversion (`invertXInput`, Scripts/Input/PlayerPlatformerInput.cs:28 and 55-56) negates the axis before its sign reaches this method, which masks the swap for player input | not executed | LateralSpeed.SpeedBySignAsWritten, which LateralSpeed.LateralMoveSpeed.GetSpeedBySign returns (shown by LateralSpeed.AsWrittenReversesDirection) | LateralSpeed.SpeedBySign (proved by LateralSpeed.SpeedBySignFollowsSign) |
