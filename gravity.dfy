/** GravityComponent: each fixed step it settles the stored vertical speed against the contact
    flags (a static ceiling stops a rise, the ground applies the grounded response), adds the
    gravity of the step, lets the jump component act, and moves the character by the result.
    Landing and hitting the ceiling are reported once per contact, on the step it begins. */
module Gravity {
  import opened Num
  import opened Contacts
  import opened GravityStrengths
  import opened Motion
  import opened Jump

  /** OnHitCeiling and OnHitGround. */
  datatype GravityEvent = HitCeiling | HitGround

  /** GroundedResponse(timestep, storedVelocity, currentGravity): the stored speed on the ground. */
  type GroundedResponse = (real, real, real) -> real

  /** hitGround, the default response: stored − stored. */
  const StopOnGround: GroundedResponse := (timestep: real, storedVelocity: real, currentGravity: real) =>
    storedVelocity - storedVelocity

  /** What applyVCollisions produces: the stored speed, the contact flags with HitAbove and
      HitBelow written, the remembered contacts and the notifications, in order. */
  datatype VResult = VResult(stored: real, contacts: ContactState, lastGrounded: bool, lastCeilinged: bool,
                             events: seq<GravityEvent>)

  /** Against a static ceiling: the head touches something that is not pushing down. */
  predicate Ceilinged(contacts: ContactState, stored: real)
  {
    contacts.Above() && !(stored < 0.0)
  }

  /** The top of applyVCollisions: HitAbove and HitBelow record that the stored speed points
      away from the contact, so the other body must be the one moving. */
  function FlagPhase(contacts: ContactState, lastGrounded: bool, lastCeilinged: bool, stored: real): (r: VResult)
    ensures r.contacts.HitAbove() <==> stored < 0.0
    ensures r.contacts.HitBelow() <==> stored > 0.0
    ensures !(r.contacts.HitAbove() && r.contacts.HitBelow())
    ensures r.contacts.state == contacts.state && r.contacts.HitLeft() == contacts.HitLeft() &&
            r.contacts.HitRight() == contacts.HitRight()
    ensures r.stored == stored && r.events == []
  {
    VResult(stored, contacts.(hitByOther := contacts.hitByOther.(z := stored < 0.0, w := stored > 0.0)),
            lastGrounded, lastCeilinged, [])
  }

  /** Against a static ceiling the speed is clamped to at most 0, and a new contact is reported. */
  function CeilingPhase(r: VResult): (o: VResult)
    ensures o.lastCeilinged <==> r.contacts.Above() && !r.contacts.HitAbove()
    ensures o.lastCeilinged ==> o.stored == Min(0.0, r.stored)
    ensures !o.lastCeilinged ==> o.stored == r.stored
    ensures o.events == r.events + [HitCeiling] || o.events == r.events
    ensures o.events == r.events + [HitCeiling] <==> o.lastCeilinged && !r.lastCeilinged
    ensures o.contacts == r.contacts && o.lastGrounded == r.lastGrounded
  {
    var ceilinged := r.contacts.Above() && !r.contacts.HitAbove();
    r.(stored := if ceilinged then Min(0.0, r.stored) else r.stored, lastCeilinged := ceilinged,
       events := r.events + (if ceilinged && !r.lastCeilinged then [HitCeiling] else []))
  }

  /** On the ground the speed is replaced by the grounded response, and a new contact is reported. */
  function GroundPhase(response: GroundedResponse, r: VResult, currentGravity: real, deltaTime: real): (o: VResult)
    ensures o.lastGrounded == r.contacts.Below()
    ensures o.lastGrounded ==> o.stored == response(deltaTime, r.stored, currentGravity)
    ensures !o.lastGrounded ==> o.stored == r.stored
    ensures o.events == r.events + [HitGround] || o.events == r.events
    ensures o.events == r.events + [HitGround] <==> o.lastGrounded && !r.lastGrounded
    ensures o.contacts == r.contacts && o.lastCeilinged == r.lastCeilinged
  {
    var grounded := r.contacts.Below();
    r.(stored := if grounded then response(deltaTime, r.stored, currentGravity) else r.stored,
       lastGrounded := grounded, events := r.events + (if grounded && !r.lastGrounded then [HitGround] else []))
  }

  /** applyVCollisions: the flags, the ceiling, then the ground. */
  function ApplyVCollisionsRule(response: GroundedResponse, contacts: ContactState, lastGrounded: bool,
                                lastCeilinged: bool, stored: real, currentGravity: real, deltaTime: real)
    : (r: VResult)
    ensures r.lastGrounded == contacts.Below()
    ensures |r.events| <= 2
    ensures r.contacts.Below() ==> r.stored == response(deltaTime, CeilingPhase(FlagPhase(contacts, lastGrounded,
                                                        lastCeilinged, stored)).stored, currentGravity)
    ensures !contacts.Below() && !contacts.Above() ==> r.stored == stored && r.events == []
  {
    GroundPhase(response, CeilingPhase(FlagPhase(contacts, lastGrounded, lastCeilinged, stored)), currentGravity,
                deltaTime)
  }

  /** The flags applyVCollisions writes: HitAbove exactly when falling, HitBelow exactly when
      rising, every other flag kept; it remembers the ground contact and the static-ceiling
      contact for next time. */
  lemma VCollisionFlags(response: GroundedResponse, contacts: ContactState, lastGrounded: bool, lastCeilinged: bool,
                        stored: real, currentGravity: real, deltaTime: real)
    ensures var r := ApplyVCollisionsRule(response, contacts, lastGrounded, lastCeilinged, stored, currentGravity,
                                          deltaTime);
            (r.contacts.HitAbove() <==> stored < 0.0) && (r.contacts.HitBelow() <==> stored > 0.0) &&
            r.contacts.state == contacts.state &&
            r.contacts.HitLeft() == contacts.HitLeft() && r.contacts.HitRight() == contacts.HitRight()
    ensures var r := ApplyVCollisionsRule(response, contacts, lastGrounded, lastCeilinged, stored, currentGravity,
                                          deltaTime);
            r.lastGrounded == contacts.Below() && r.lastCeilinged == Ceilinged(contacts, stored)
  {
  }

  /** The speed after applyVCollisions: in free air it is kept; under a static ceiling a rise
      is stopped dead, while a fall (something pushing the character down) is kept; on the
      ground it is the grounded response to the speed the ceiling left, which is 0 for the
      default response. */
  lemma VCollisionSpeed(response: GroundedResponse, contacts: ContactState, lastGrounded: bool, lastCeilinged: bool,
                        stored: real, currentGravity: real, deltaTime: real)
    ensures var r := ApplyVCollisionsRule(response, contacts, lastGrounded, lastCeilinged, stored, currentGravity,
                                          deltaTime);
            !contacts.Above() && !contacts.Below() ==> r.stored == stored
    ensures var r := ApplyVCollisionsRule(response, contacts, lastGrounded, lastCeilinged, stored, currentGravity,
                                          deltaTime);
            contacts.Above() && !contacts.Below() ==> r.stored == (if stored < 0.0 then stored else 0.0)
    ensures var r := ApplyVCollisionsRule(response, contacts, lastGrounded, lastCeilinged, stored, currentGravity,
                                          deltaTime);
            contacts.Below() ==>
              r.stored == response(deltaTime, if Ceilinged(contacts, stored) then 0.0 else stored, currentGravity)
    ensures var r := ApplyVCollisionsRule(StopOnGround, contacts, lastGrounded, lastCeilinged, stored,
                                          currentGravity, deltaTime);
            contacts.Below() ==> r.stored == 0.0
  {
  }

  /** OnHitCeiling is raised exactly when a static-ceiling contact begins, OnHitGround exactly
      when a ground contact begins, the ceiling first. */
  lemma VCollisionEvents(response: GroundedResponse, contacts: ContactState, lastGrounded: bool, lastCeilinged: bool,
                         stored: real, currentGravity: real, deltaTime: real)
    ensures var r := ApplyVCollisionsRule(response, contacts, lastGrounded, lastCeilinged, stored, currentGravity,
                                          deltaTime);
            (HitCeiling in r.events <==> Ceilinged(contacts, stored) && !lastCeilinged) &&
            (HitGround in r.events <==> contacts.Below() && !lastGrounded)
    ensures var r := ApplyVCollisionsRule(response, contacts, lastGrounded, lastCeilinged, stored, currentGravity,
                                          deltaTime);
            |r.events| <= 2 && (|r.events| == 2 ==> r.events == [HitCeiling, HitGround])
  {
  }

  /** A contact that lasts raises its notification once: on the step after a grounded step no
      landing is reported, and on the step after a static-ceiling step no head hit. The
      component starts as if grounded, so a character placed on the ground never reports a
      landing it did not make. */
  lemma OncePerContact(response: GroundedResponse, c1: ContactState, c2: ContactState, lastGrounded: bool,
                       lastCeilinged: bool, s1: real, s2: real, g: real, dt: real)
    ensures var r1 := ApplyVCollisionsRule(response, c1, lastGrounded, lastCeilinged, s1, g, dt);
            var r2 := ApplyVCollisionsRule(response, c2, r1.lastGrounded, r1.lastCeilinged, s2, g, dt);
            (c1.Below() ==> HitGround !in r2.events) &&
            (Ceilinged(c1, s1) ==> HitCeiling !in r2.events)
    ensures HitGround !in ApplyVCollisionsRule(response, c1, true, false, s1, g, dt).events
  {
    var r1 := ApplyVCollisionsRule(response, c1, lastGrounded, lastCeilinged, s1, g, dt);
    VCollisionFlags(response, c1, lastGrounded, lastCeilinged, s1, g, dt);
    VCollisionEvents(response, c2, r1.lastGrounded, r1.lastCeilinged, s2, g, dt);
    VCollisionEvents(response, c1, true, false, s1, g, dt);
  }

  /** The jump component's listeners: OnHitCeiling runs clearJumpTimer, OnHitGround runs
      clearForcedJump. */
  function Listen(st: JumpState, e: GravityEvent): JumpState
  {
    match e
    case HitCeiling => ClearJumpTimerRule(st)
    case HitGround => ClearForcedJumpRule(st)
  }

  /** The listeners run for each notification, in order. */
  function ListenAll(st: JumpState, events: seq<GravityEvent>): JumpState
    decreases |events|
  {
    if |events| == 0 then st else ListenAll(Listen(st, events[0]), events[1..])
  }

  lemma {:induction false} ListenAllAppend(st: JumpState, events: seq<GravityEvent>, e: GravityEvent)
    ensures ListenAll(st, events + [e]) == Listen(ListenAll(st, events), e)
    decreases |events|
  {
    if |events| == 0 {
      assert events + [e] == [e];
      assert [e][1..] == [];
    } else {
      assert (events + [e])[1..] == events[1..] + [e];
      ListenAllAppend(Listen(st, events[0]), events[1..], e);
    }
  }

  /** What the listeners do to the jump: a landing clears the pending forced jump, a head hit
      stops the jump timer, and nothing else of the jump's state changes. */
  lemma {:induction false} ListenAllEffect(st: JumpState, events: seq<GravityEvent>)
    ensures var r := ListenAll(st, events);
            (HitGround in events ==> !r.forcedHas && r.forced == NoForcedJump) &&
            (HitGround !in events ==> r.forcedHas == st.forcedHas && r.forced == st.forced)
    ensures var r := ListenAll(st, events);
            (HitCeiling in events ==> r.jumpTimer == 0.0) &&
            (HitCeiling !in events ==> r.jumpTimer == st.jumpTimer)
    ensures var r := ListenAll(st, events);
            r.coyoteTimer == st.coyoteTimer && r.lastJumpButton == st.lastJumpButton &&
            r.blockManualJumps == st.blockManualJumps && r.blockJumpRelease == st.blockJumpRelease
    ensures st.Valid() ==> ListenAll(st, events).Valid()
    decreases |events|
  {
    if |events| > 0 {
      var rest := events[1..];
      assert forall e :: e in events <==> e == events[0] || e in rest;
      ListenAllEffect(Listen(st, events[0]), rest);
      if events[0] == HitGround && HitGround in rest {
        assert HitGround in rest;
      }
    }
  }

  /** The jump component as the gravity component sees it: absent, or listening with its
      parameters, its derived values and its state. */
  datatype JumpLink = Unlinked | Linked(params: JumpParams, derived: Derived, state: JumpState)

  /** What one FixedUpdate produces. */
  datatype Tick = Tick(stored: real, gravity: real, outputY: real, jump: JumpLink, jumpEvents: seq<JumpEvent>)

  /** The jump component after the collision notifications reached its listeners. */
  function ListenLink(jump: JumpLink, events: seq<GravityEvent>): JumpLink
  {
    match jump
    case Unlinked => Unlinked
    case Linked(p, d, st) => Linked(p, d, ListenAll(st, events))
  }

  /** What AfterCollisionBeforeApply leaves: the stored speed, the gravity strength, the jump
      component and its notifications. */
  datatype JumpOutcome = JumpOutcome(stored: real, gravity: real, jump: JumpLink, events: seq<JumpEvent>)

  /** AfterCollisionBeforeApply: doJump when a jump component listens, nothing otherwise. */
  function RunJumpRule(jump: JumpLink, below: bool, falling: real, gravity: real, dt: real, jumpButton: bool)
    : (r: JumpOutcome)
    ensures r.jump.Linked? <==> jump.Linked?
    ensures jump.Unlinked? ==> r.stored == falling && r.gravity == gravity && r.events == []
    ensures jump.Linked? ==> r.jump.params == jump.params && r.jump.derived == jump.derived &&
                             r.jump.state.lastJumpButton == jumpButton
  {
    match jump
    case Unlinked => JumpOutcome(falling, gravity, Unlinked, [])
    case Linked(p, d, st) =>
      var j := DoJumpRule(p, d, st, below, jumpButton, dt, falling, gravity);
      JumpOutcome(j.velocity, j.gravity, Linked(p, d, j.state), j.events)
  }

  /** The rest of FixedUpdate once the gravity of the step is in the stored speed `falling`:
      AfterCollisionBeforeApply, then the vertical output moved by the stored speed. */
  function AfterCollisionRule(below: bool, falling: real, gravity: real, outputY: real, dt: real, jump: JumpLink,
                              jumpButton: bool): (r: Tick)
    ensures r.jump.Linked? <==> jump.Linked?
    ensures jump.Unlinked? ==> r.gravity == gravity && r.jumpEvents == []
  {
    var o := RunJumpRule(jump, below, falling, gravity, dt, jumpButton);
    Tick(o.stored, o.gravity, outputY + o.stored * dt, o.jump, o.events)
  }

  lemma AfterCollisionUnfolds(below: bool, falling: real, gravity: real, outputY: real, dt: real, jump: JumpLink,
                              jumpButton: bool, o: JumpOutcome)
    requires o == RunJumpRule(jump, below, falling, gravity, dt, jumpButton)
    ensures AfterCollisionRule(below, falling, gravity, outputY, dt, jump, jumpButton) ==
            Tick(o.stored, o.gravity, outputY + o.stored * dt, o.jump, o.events)
  {
    var t := AfterCollisionRule(below, falling, gravity, outputY, dt, jump, jumpButton);
    assert t.stored == o.stored && t.outputY == outputY + o.stored * dt;
  }

  /** FixedUpdate: applyVCollisions (whose notifications reach the jump's listeners), the
      gravity of the step added to the stored speed, then AfterCollisionRule. */
  function FixedUpdateRule(response: GroundedResponse, contacts: ContactState, lastGrounded: bool,
                           lastCeilinged: bool, stored: real, gravity: real, outputY: real, dt: real,
                           jump: JumpLink, jumpButton: bool): (r: Tick)
    ensures r.jump.Linked? <==> jump.Linked?
    ensures jump.Unlinked? ==> r.gravity == gravity && r.jumpEvents == []
  {
    var v := ApplyVCollisionsRule(response, contacts, lastGrounded, lastCeilinged, stored, gravity, dt);
    AfterCollisionRule(v.contacts.Below(), v.stored + gravity * dt, gravity, outputY, dt, ListenLink(jump, v.events),
                       jumpButton)
  }

  lemma FixedUpdateUnfolds(response: GroundedResponse, contacts: ContactState, lastGrounded: bool,
                           lastCeilinged: bool, stored: real, gravity: real, outputY: real, dt: real,
                           jump: JumpLink, jumpButton: bool, v: VResult)
    requires v == ApplyVCollisionsRule(response, contacts, lastGrounded, lastCeilinged, stored, gravity, dt)
    ensures FixedUpdateRule(response, contacts, lastGrounded, lastCeilinged, stored, gravity, outputY, dt, jump,
                            jumpButton) ==
            AfterCollisionRule(v.contacts.Below(), v.stored + gravity * dt, gravity, outputY, dt,
                               ListenLink(jump, v.events), jumpButton)
  {
  }

  /** The character moves by the final stored speed over the step. On the ground with the
      default response and no jump, the stored speed is the gravity of one step and never
      rests at 0, as the ordering of FixedUpdate intends. */
  lemma GroundedStoresOneStepOfGravity(contacts: ContactState, lastGrounded: bool, lastCeilinged: bool,
                                       stored: real, gravity: real, outputY: real, dt: real, jump: JumpLink,
                                       jumpButton: bool)
    ensures var r := FixedUpdateRule(StopOnGround, contacts, lastGrounded, lastCeilinged, stored, gravity,
                                     outputY, dt, jump, jumpButton);
            r.outputY == outputY + r.stored * dt
    ensures var r := FixedUpdateRule(StopOnGround, contacts, lastGrounded, lastCeilinged, stored, gravity,
                                     outputY, dt, jump, jumpButton);
            (contacts.Below() && (jump.Linked? ==> !jumpButton && !jump.state.lastJumpButton && !jump.state.forcedHas)
             ==> r.stored == gravity * dt)
  {
    var v := ApplyVCollisionsRule(StopOnGround, contacts, lastGrounded, lastCeilinged, stored, gravity, dt);
    VCollisionSpeed(StopOnGround, contacts, lastGrounded, lastCeilinged, stored, gravity, dt);
    if jump.Linked? {
      ListenAllEffect(jump.state, v.events);
    }
  }

  /** A landing clears the pending forced jump before the jump component runs, so the landing
      step never launches one and none is pending after it. */
  lemma LandingClearsForcedJump(response: GroundedResponse, contacts: ContactState, lastCeilinged: bool,
                                stored: real, gravity: real, outputY: real, dt: real, p: JumpParams, d: Derived,
                                st: JumpState, jumpButton: bool)
    requires contacts.Below()
    ensures var r := FixedUpdateRule(response, contacts, false, lastCeilinged, stored, gravity, outputY, dt,
                                     Linked(p, d, st), jumpButton);
            r.jump.Linked? && !r.jump.state.forcedHas && JumpedInvoluntarily !in r.jumpEvents
  {
    var v := ApplyVCollisionsRule(response, contacts, false, lastCeilinged, stored, gravity, dt);
    VCollisionEvents(response, contacts, false, lastCeilinged, stored, gravity, dt);
    VCollisionFlags(response, contacts, false, lastCeilinged, stored, gravity, dt);
    var st1 := ListenAll(st, v.events);
    ListenAllEffect(st, v.events);
    var falling := v.stored + gravity * dt;
    ForcedJumpLaunch(p, d, st1, v.contacts.Below(), jumpButton, dt, falling, gravity);
  }

  /** A head hit on a static ceiling ends the jump: unless the button starts a new jump or a
      forced jump is pending, the step uses the falling gravity. */
  lemma CeilingEndsJump(response: GroundedResponse, contacts: ContactState, lastGrounded: bool, stored: real,
                        gravity: real, outputY: real, dt: real, p: JumpParams, d: Derived, st: JumpState)
    requires Ceilinged(contacts, stored)
    requires !st.forcedHas
    ensures var r := FixedUpdateRule(response, contacts, lastGrounded, false, stored, gravity, outputY, dt,
                                     Linked(p, d, st), false);
            r.gravity == d.gravityFalling
  {
    var v := ApplyVCollisionsRule(response, contacts, lastGrounded, false, stored, gravity, dt);
    VCollisionEvents(response, contacts, lastGrounded, false, stored, gravity, dt);
    var st1 := ListenAll(st, v.events);
    ListenAllEffect(st, v.events);
    assert st1.jumpTimer == 0.0 && !st1.forcedHas;
  }

  /** The gravity component. `collisions`, `output`, `info` (the gravity strength) and
      `storedVelocity` are the components it works on; `events` records its notifications,
      and `jumpListener` is the jump component registered on them, if any. */
  class GravityComponent {
    const collisions: PlatformerCollisions
    const output: Velocity
    const info: GravityStrength
    const storedVelocity: ScalarVelocity

    var groundedResponse: GroundedResponse
    var lastGrounded: bool
    var lastCeilinged: bool
    var events: seq<GravityEvent>
    var jumpListener: JumpComponent?

    /** A registered jump component shares this component's contacts, gravity strength and
        stored speed, as they sit on the same character. */
    predicate Wired()
      reads this, jumpListener
    {
      jumpListener != null ==>
        jumpListener.collisions == collisions && jumpListener.gravityStrength == info &&
        jumpListener.storedVelocity == storedVelocity
    }

    function Link(): JumpLink
      reads this, jumpListener
    {
      if jumpListener == null then Unlinked
      else Linked(jumpListener.params, jumpListener.derived, jumpListener.State())
    }

    /** The field initialisers and Awake, with the GetComponent results as arguments. */
    constructor (collisions: PlatformerCollisions, output: Velocity, info: GravityStrength,
                 storedVelocity: ScalarVelocity)
      ensures this.collisions == collisions && this.output == output
      ensures this.info == info && this.storedVelocity == storedVelocity
      ensures groundedResponse == StopOnGround && lastGrounded && !lastCeilinged
      ensures events == [] && jumpListener == null
    {
      this.collisions := collisions;
      this.output := output;
      this.info := info;
      this.storedVelocity := storedVelocity;
      groundedResponse := StopOnGround;
      lastGrounded := true;
      lastCeilinged := false;
      events := [];
      jumpListener := null;
    }

    /** JumpComponent.OnEnable: the jump component registers doJump after the collision
        response, clearForcedJump on landing and clearJumpTimer on a head hit. */
    method EnableJump(j: JumpComponent)
      requires j.collisions == collisions && j.gravityStrength == info && j.storedVelocity == storedVelocity
      modifies this`jumpListener
      ensures jumpListener == j && Wired()
    {
      jumpListener := j;
    }

    /** JumpComponent.OnDisable: the gravity strength reverts to its inspector value and the
        jump component's listeners are removed. */
    method DisableJump()
      requires Wired() && jumpListener != null
      modifies this`jumpListener, info
      ensures jumpListener == null && info.Value == info.initialStrength
    {
      jumpListener.gravityStrength.RevertStrength();
      jumpListener := null;
    }

    method OnHitCeiling()
      modifies this`events, jumpListener
      ensures events == old(events) + [HitCeiling]
      ensures jumpListener != null ==>
                jumpListener.State() == ClearJumpTimerRule(old(jumpListener.State())) &&
                jumpListener.events == old(jumpListener.events)
    {
      events := events + [HitCeiling];
      if jumpListener != null {
        jumpListener.ClearJumpTimer();
      }
    }

    method OnHitGround()
      modifies this`events, jumpListener
      ensures events == old(events) + [HitGround]
      ensures jumpListener != null ==>
                jumpListener.State() == ClearForcedJumpRule(old(jumpListener.State())) &&
                jumpListener.events == old(jumpListener.events)
    {
      events := events + [HitGround];
      if jumpListener != null {
        jumpListener.ClearForcedJump();
      }
    }

    /** This component's flags, memory and notifications, together with the registered jump
        component's state, are those of the partial result `r`, after the notifications `e0`
        and from the jump state `st0`. The jump's own notifications stay `je0`. */
    ghost predicate VHolds(r: VResult, result: real, e0: seq<GravityEvent>, st0: JumpState, je0: seq<JumpEvent>)
      reads this, collisions, jumpListener
    {
      result == r.stored && collisions.Snapshot() == r.contacts && lastGrounded == r.lastGrounded &&
      lastCeilinged == r.lastCeilinged && events == e0 + r.events &&
      (jumpListener != null ==> jumpListener.State() == ListenAll(st0, r.events) && jumpListener.events == je0)
    }

    method CeilingResponse(stored: real, ghost r: VResult, ghost e0: seq<GravityEvent>, ghost st0: JumpState,
                           ghost je0: seq<JumpEvent>)
      returns (result: real)
      requires VHolds(r, stored, e0, st0, je0)
      modifies this`lastCeilinged, this`events, jumpListener
      ensures VHolds(CeilingPhase(r), result, e0, st0, je0)
    {
      result := stored;
      var ceilinged := collisions.Above() && !collisions.HitAbove();
      if ceilinged {
        result := Min(0.0, result);
        if !lastCeilinged {
          OnHitCeiling();
          ListenAllAppend(st0, r.events, HitCeiling);
          assert events == e0 + (r.events + [HitCeiling]);
          assert jumpListener != null ==> jumpListener.State() == ListenAll(st0, r.events + [HitCeiling]);
        }
      }
      if !(ceilinged && !lastCeilinged) {
        assert r.events + [] == r.events;
      }
      lastCeilinged := ceilinged;
    }

    method GroundResponse(stored: real, currentGravity: real, deltaTime: real, ghost r: VResult,
                          ghost e0: seq<GravityEvent>, ghost st0: JumpState, ghost je0: seq<JumpEvent>)
      returns (result: real)
      requires VHolds(r, stored, e0, st0, je0)
      modifies this`lastGrounded, this`events, jumpListener
      ensures VHolds(GroundPhase(groundedResponse, r, currentGravity, deltaTime), result, e0, st0, je0)
    {
      result := stored;
      var grounded := collisions.Below();
      if grounded {
        result := groundedResponse(deltaTime, result, currentGravity);
        if !lastGrounded {
          OnHitGround();
          ListenAllAppend(st0, r.events, HitGround);
          assert events == e0 + (r.events + [HitGround]);
          assert jumpListener != null ==> jumpListener.State() == ListenAll(st0, r.events + [HitGround]);
        }
      }
      if !(grounded && !lastGrounded) {
        assert r.events + [] == r.events;
      }
      lastGrounded := grounded;
    }

    /** applyVCollisions. */
    method ApplyVCollisions(stored: real, currentGravity: real, deltaTime: real) returns (result: real)
      modifies this`lastGrounded, this`lastCeilinged, this`events, collisions, jumpListener
      ensures var v := ApplyVCollisionsRule(groundedResponse, old(collisions.Snapshot()), old(lastGrounded),
                                            old(lastCeilinged), stored, currentGravity, deltaTime);
              result == v.stored && collisions.Snapshot() == v.contacts &&
              lastGrounded == v.lastGrounded && lastCeilinged == v.lastCeilinged && events == old(events) + v.events
      ensures var v := ApplyVCollisionsRule(groundedResponse, old(collisions.Snapshot()), old(lastGrounded),
                                            old(lastCeilinged), stored, currentGravity, deltaTime);
              jumpListener != null ==>
                jumpListener.State() == ListenAll(old(jumpListener.State()), v.events) &&
                jumpListener.events == old(jumpListener.events)
    {
      ghost var e0 := events;
      ghost var st0 := if jumpListener != null then jumpListener.State() else InitialJumpState;
      ghost var je0 := if jumpListener != null then jumpListener.events else [];
      ghost var r := FlagPhase(collisions.Snapshot(), lastGrounded, lastCeilinged, stored);
      collisions.SetHitAbove(stored < 0.0);
      collisions.SetHitBelow(stored > 0.0);
      assert VHolds(r, stored, e0, st0, je0);
      result := CeilingResponse(stored, r, e0, st0, je0);
      r := CeilingPhase(r);
      result := GroundResponse(result, currentGravity, deltaTime, r, e0, st0, je0);
    }

    /** AfterCollisionBeforeApply. */
    method RunJump(jumpButton: bool, fixedDeltaTime: real, ghost below: bool, ghost falling: real,
                   ghost gravity: real, ghost link: JumpLink)
      requires Wired() && Link() == link && collisions.Below() == below
      requires storedVelocity.Value == falling && info.Value == gravity
      modifies storedVelocity, info, jumpListener
      ensures storedVelocity.Value == RunJumpRule(link, below, falling, gravity, fixedDeltaTime, jumpButton).stored
      ensures info.Value == RunJumpRule(link, below, falling, gravity, fixedDeltaTime, jumpButton).gravity
      ensures Link() == RunJumpRule(link, below, falling, gravity, fixedDeltaTime, jumpButton).jump
      ensures jumpListener != null ==>
                jumpListener.events ==
                old(jumpListener.events) + RunJumpRule(link, below, falling, gravity, fixedDeltaTime, jumpButton).events
    {
      if jumpListener != null {
        jumpListener.DoJump(jumpButton, fixedDeltaTime);
      }
    }

    /** AfterCollisionBeforeApply and the vertical move, once the stored speed is `falling`. */
    method AfterCollision(jumpButton: bool, fixedDeltaTime: real, ghost below: bool, ghost falling: real,
                          ghost gravity: real, ghost outputY: real, ghost link: JumpLink)
      requires Wired() && Link() == link && collisions.Below() == below
      requires storedVelocity.Value == falling && info.Value == gravity && output.Value.y == outputY
      modifies storedVelocity, output, info, jumpListener
      ensures var t := AfterCollisionRule(below, falling, gravity, outputY, fixedDeltaTime, link, jumpButton);
              storedVelocity.Value == t.stored && info.Value == t.gravity &&
              output.Value == Vec2(old(output.Value.x), t.outputY) && Link() == t.jump
      ensures var t := AfterCollisionRule(below, falling, gravity, outputY, fixedDeltaTime, link, jumpButton);
              jumpListener != null ==> jumpListener.events == old(jumpListener.events) + t.jumpEvents
    {
      ghost var o := RunJumpRule(link, below, falling, gravity, fixedDeltaTime, jumpButton);
      AfterCollisionUnfolds(below, falling, gravity, outputY, fixedDeltaTime, link, jumpButton, o);
      RunJump(jumpButton, fixedDeltaTime, below, falling, gravity, link);
      var stored := storedVelocity.Value;
      assert stored == o.stored && output.Value.y == outputY;
      output.Value := output.Value.(y := output.Value.y + stored * fixedDeltaTime);
    }

    /** FixedUpdate, with the jump button's value and Time.fixedDeltaTime as inputs. */
    method FixedUpdate(jumpButton: bool, fixedDeltaTime: real)
      requires Wired()
      modifies this`lastGrounded, this`lastCeilinged, this`events, collisions, storedVelocity, output, info,
               jumpListener
      ensures var t := FixedUpdateRule(groundedResponse, old(collisions.Snapshot()), old(lastGrounded),
                                       old(lastCeilinged), old(storedVelocity.Value), old(info.Value),
                                       old(output.Value.y), fixedDeltaTime, old(Link()), jumpButton);
              storedVelocity.Value == t.stored && info.Value == t.gravity &&
              output.Value == Vec2(old(output.Value.x), t.outputY) && Link() == t.jump
      ensures var v := ApplyVCollisionsRule(groundedResponse, old(collisions.Snapshot()), old(lastGrounded),
                                            old(lastCeilinged), old(storedVelocity.Value), old(info.Value),
                                            fixedDeltaTime);
              collisions.Snapshot() == v.contacts && lastGrounded == v.lastGrounded &&
              lastCeilinged == v.lastCeilinged && events == old(events) + v.events
      ensures var t := FixedUpdateRule(groundedResponse, old(collisions.Snapshot()), old(lastGrounded),
                                       old(lastCeilinged), old(storedVelocity.Value), old(info.Value),
                                       old(output.Value.y), fixedDeltaTime, old(Link()), jumpButton);
              jumpListener != null ==> jumpListener.events == old(jumpListener.events) + t.jumpEvents
    {
      ghost var link0 := Link();
      ghost var g0 := info.Value;
      ghost var y0 := output.Value.y;
      ghost var r := ApplyVCollisionsRule(groundedResponse, collisions.Snapshot(), lastGrounded, lastCeilinged,
                                          storedVelocity.Value, g0, fixedDeltaTime);
      FixedUpdateUnfolds(groundedResponse, collisions.Snapshot(), lastGrounded, lastCeilinged, storedVelocity.Value,
                         g0, y0, fixedDeltaTime, link0, jumpButton, r);
      var v := ApplyVCollisions(storedVelocity.Value, info.Value, fixedDeltaTime);
      assert Link() == ListenLink(link0, r.events);
      storedVelocity.Value := v;
      storedVelocity.Value := storedVelocity.Value + info.Value * fixedDeltaTime;
      AfterCollision(jumpButton, fixedDeltaTime, r.contacts.Below(), r.stored + g0 * fixedDeltaTime, g0, y0,
                     ListenLink(link0, r.events));
    }
  }
}
