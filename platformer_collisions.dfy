/** PlatformerCollisions: the four contact flags the sweep writes (Left, Right, Above, Below)
    and the four hit-by-other flags the gravity response writes (HitLeft … HitBelow), each set
    stored as one bool4. */
module Contacts {
  import opened Num

  /** Both bool4 fields: components x, y, z, w are left, right, above, below. */
  datatype ContactState = ContactState(state: Bool4, hitByOther: Bool4)
  {
    predicate Left() { state.x }
    predicate Right() { state.y }
    predicate Above() { state.z }
    predicate Below() { state.w }
    predicate HitLeft() { hitByOther.x }
    predicate HitRight() { hitByOther.y }
    predicate HitAbove() { hitByOther.z }
    predicate HitBelow() { hitByOther.w }
  }

  /** Every flag false: the state after Clear and of a new component. */
  const NoContact := ContactState(AllFalse4, AllFalse4)

  /** The contact-state component. */
  class PlatformerCollisions {
    var state: Bool4
    var hitByOther: Bool4

    function Snapshot(): ContactState
      reads this
    {
      ContactState(state, hitByOther)
    }

    constructor ()
      ensures Snapshot() == NoContact
    {
      state := AllFalse4;
      hitByOther := AllFalse4;
    }

    predicate Left() reads this { state.x }
    predicate Right() reads this { state.y }
    predicate Above() reads this { state.z }
    predicate Below() reads this { state.w }
    predicate HitLeft() reads this { hitByOther.x }
    predicate HitRight() reads this { hitByOther.y }
    predicate HitAbove() reads this { hitByOther.z }
    predicate HitBelow() reads this { hitByOther.w }

    method SetLeft(value: bool)
      modifies this
      ensures state == old(state).(x := value) && hitByOther == old(hitByOther)
    {
      state := state.(x := value);
    }

    method SetRight(value: bool)
      modifies this
      ensures state == old(state).(y := value) && hitByOther == old(hitByOther)
    {
      state := state.(y := value);
    }

    method SetAbove(value: bool)
      modifies this
      ensures state == old(state).(z := value) && hitByOther == old(hitByOther)
    {
      state := state.(z := value);
    }

    method SetBelow(value: bool)
      modifies this
      ensures state == old(state).(w := value) && hitByOther == old(hitByOther)
    {
      state := state.(w := value);
    }

    method SetHitLeft(value: bool)
      modifies this
      ensures hitByOther == old(hitByOther).(x := value) && state == old(state)
    {
      hitByOther := hitByOther.(x := value);
    }

    method SetHitRight(value: bool)
      modifies this
      ensures hitByOther == old(hitByOther).(y := value) && state == old(state)
    {
      hitByOther := hitByOther.(y := value);
    }

    method SetHitAbove(value: bool)
      modifies this
      ensures hitByOther == old(hitByOther).(z := value) && state == old(state)
    {
      hitByOther := hitByOther.(z := value);
    }

    method SetHitBelow(value: bool)
      modifies this
      ensures hitByOther == old(hitByOther).(w := value) && state == old(state)
    {
      hitByOther := hitByOther.(w := value);
    }

    /** Both bool4 fields back to all-false. */
    method Clear()
      modifies this
      ensures Snapshot() == NoContact
    {
      hitByOther := AllFalse4;
      state := AllFalse4;
    }
  }
}
