/** DirectionalForces: accumulates the forces applied to the character during a step, both as
    given and multiplied by their timestep, until they are cleared. */
module Forces {
  import opened Num

  /** The two accumulators: ForceRaw and ForceWithDeltaTime. */
  datatype Accumulated = Accumulated(raw: Vec2, withDeltaTime: Vec2)

  const NoForce := Accumulated(Zero2, Zero2)

  /** One AcceptForce(force, timestep). */
  function Accept(a: Accumulated, force: Vec2, timestep: real): (r: Accumulated)
    ensures r.raw.Minus(a.raw) == force
    ensures r.withDeltaTime.Minus(a.withDeltaTime) == force.Scale(timestep)
  {
    Accumulated(a.raw.Plus(force), a.withDeltaTime.Plus(force.Scale(timestep)))
  }

  /** One application of a force during a step. */
  datatype Push = Push(force: Vec2, timestep: real)

  /** Accepting every push in order; pushes of no force leave the accumulators as they were. */
  function AcceptAll(a: Accumulated, pushes: seq<Push>): (r: Accumulated)
    ensures (forall i :: 0 <= i < |pushes| ==> pushes[i].force == Zero2) ==> r == a
    decreases |pushes|
  {
    if |pushes| == 0 then a else AcceptAll(Accept(a, pushes[0].force, pushes[0].timestep), pushes[1..])
  }

  function TotalForce(pushes: seq<Push>): Vec2
    decreases |pushes|
  {
    if |pushes| == 0 then Zero2 else pushes[0].force.Plus(TotalForce(pushes[1..]))
  }

  function TotalImpulse(pushes: seq<Push>): Vec2
    decreases |pushes|
  {
    if |pushes| == 0 then Zero2 else pushes[0].force.Scale(pushes[0].timestep).Plus(TotalImpulse(pushes[1..]))
  }

  /** From a cleared accumulator, a run of pushes leaves the sum of the forces in ForceRaw and
      the sum of force × timestep in ForceWithDeltaTime. */
  lemma {:induction false} AcceptAllSums(a: Accumulated, pushes: seq<Push>)
    ensures AcceptAll(a, pushes) == Accumulated(a.raw.Plus(TotalForce(pushes)),
                                                a.withDeltaTime.Plus(TotalImpulse(pushes)))
    decreases |pushes|
  {
    if |pushes| > 0 {
      AcceptAllSums(Accept(a, pushes[0].force, pushes[0].timestep), pushes[1..]);
    }
  }

  /** The force component. */
  class DirectionalForces {
    var addedForce: Vec2
    var addedForceWithDT: Vec2

    function Snapshot(): Accumulated
      reads this
    {
      Accumulated(addedForce, addedForceWithDT)
    }

    constructor ()
      ensures Snapshot() == NoForce
    {
      addedForce, addedForceWithDT := Zero2, Zero2;
    }

    function ForceRaw(): Vec2 reads this { addedForce }
    function ForceWithDeltaTime(): Vec2 reads this { addedForceWithDT }

    method AcceptForce(force: Vec2, timestep: real)
      modifies this
      ensures Snapshot() == Accept(old(Snapshot()), force, timestep)
    {
      addedForce := addedForce.Plus(force);
      addedForceWithDT := addedForceWithDT.Plus(force.Scale(timestep));
    }

    /** The (forceX, forceY, timestep) overload. */
    method AcceptForceComponents(forceX: real, forceY: real, timestep: real)
      modifies this
      ensures Snapshot() == Accept(old(Snapshot()), Vec2(forceX, forceY), timestep)
    {
      AcceptForce(Vec2(forceX, forceY), timestep);
    }

    method AcceptForceX(forceX: real, timestep: real)
      modifies this
      ensures Snapshot() == Accept(old(Snapshot()), Vec2(forceX, 0.0), timestep)
      ensures addedForce.y == old(addedForce.y) && addedForceWithDT.y == old(addedForceWithDT.y)
    {
      AcceptForceComponents(forceX, 0.0, timestep);
    }

    method AcceptForceY(forceY: real, timestep: real)
      modifies this
      ensures Snapshot() == Accept(old(Snapshot()), Vec2(0.0, forceY), timestep)
      ensures addedForce.x == old(addedForce.x) && addedForceWithDT.x == old(addedForceWithDT.x)
    {
      AcceptForceComponents(0.0, forceY, timestep);
    }

    method ClearForce()
      modifies this
      ensures Snapshot() == NoForce
    {
      addedForceWithDT := Zero2;
      addedForce := addedForceWithDT;
    }

    method ClearForceX()
      modifies this
      ensures addedForce == old(addedForce).(x := 0.0)
      ensures addedForceWithDT == old(addedForceWithDT).(x := 0.0)
    {
      addedForceWithDT := addedForceWithDT.(x := 0.0);
      addedForce := addedForce.(x := addedForceWithDT.x);
    }

    method ClearForceY()
      modifies this
      ensures addedForce == old(addedForce).(y := 0.0)
      ensures addedForceWithDT == old(addedForceWithDT).(y := 0.0)
    {
      addedForceWithDT := addedForceWithDT.(y := 0.0);
      addedForce := addedForce.(y := addedForceWithDT.y);
    }
  }
}
