/** The small value holders other components read and write: the character's 2-D Velocity, a
    one-axis ScalarVelocity, and the CollisionRecoil output of the collision sweep. */
module Motion {
  import opened Num

  /** A Velocity component: a 2-D displacement for the current step. */
  class Velocity {
    var Value: Vec2

    constructor (value: Vec2)
      ensures Value == value
    {
      Value := value;
    }
  }

  /** A ScalarVelocity component: one signed speed. */
  class ScalarVelocity {
    var Value: real

    constructor (value: real)
      ensures Value == value
    {
      Value := value;
    }
  }

  /** A CollisionRecoil component: how much of the requested displacement collisions removed. */
  class CollisionRecoil {
    var Value: Vec2

    constructor ()
      ensures Value == Zero2
    {
      Value := Zero2;
    }
  }
}
