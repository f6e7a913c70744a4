/** LateralMoveSpeed: a base speed with a multiplier and an added constant for each of the three
    lateral directions (left, idle, right). */
module LateralSpeed {
  import opened Num

  /** The component's seven fields. */
  datatype SpeedTable = SpeedTable(speed: real,
                                   mulL: real, mulI: real, mulR: real,
                                   addL: real, addI: real, addR: real)

  /** Field initialisers: base speed from the inspector (5 by default), multipliers
      (−1, 0, 1), nothing added. */
  function InitialTable(speed: real): (t: SpeedTable)
    ensures t.speed == speed
    ensures (t.mulL, t.mulI, t.mulR) == (-1.0, 0.0, 1.0)
    ensures (t.addL, t.addI, t.addR) == (0.0, 0.0, 0.0)
  {
    SpeedTable(speed, -1.0, 0.0, 1.0, 0.0, 0.0, 0.0)
  }

  /** The speed of going in the direction `sign` refers to (negative is left). */
  function Directional(t: SpeedTable, sign: int): real
  {
    if sign < 0 then t.speed * t.mulL + t.addL
    else if sign == 0 then t.speed * t.mulI + t.addI
    else t.speed * t.mulR + t.addR
  }

  /** GetSpeedsAllSigned: x is left, y is idle, z is right. */
  function SpeedsAllSigned(t: SpeedTable): (r: Vec3)
    ensures r == Vec3(Directional(t, -1), Directional(t, 0), Directional(t, 1))
  {
    Vec3(t.speed * t.mulL + t.addL, t.speed * t.mulI + t.addI, t.speed * t.mulR + t.addR)
  }

  /** GetSpeedBySign as the code computes it: math.select(left, right, sign < 0) picks its
      second argument when the condition holds, so a negative sign yields the right-hand speed
      and a positive sign the left-hand one. */
  function SpeedBySignAsWritten(t: SpeedTable, sign: int): (r: real)
    ensures sign == 0 ==> r == SpeedsAllSigned(t).y
    ensures sign < 0 ==> r == SpeedsAllSigned(t).z
    ensures sign > 0 ==> r == SpeedsAllSigned(t).x
  {
    if sign == 0 then t.speed * t.mulI + t.addI
    else if sign < 0 then t.speed * t.mulR + t.addR
    else t.speed * t.mulL + t.addL
  }

  /** GetSpeedBySign as documented: the speed of the direction whose sign matches. */
  function SpeedBySign(t: SpeedTable, sign: int): (r: real)
    ensures sign == 0 ==> r == SpeedsAllSigned(t).y
    ensures sign < 0 ==> r == SpeedsAllSigned(t).x
    ensures sign > 0 ==> r == SpeedsAllSigned(t).z
  {
    if sign == 0 then t.speed * t.mulI + t.addI
    else if sign < 0 then t.speed * t.mulL + t.addL
    else t.speed * t.mulR + t.addR
  }

  /** With the initial multipliers and a positive base speed, the corrected lookup moves in the
      direction asked for, with the base speed. */
  lemma {:induction false} SpeedBySignFollowsSign(speed: real, sign: int)
    requires speed > 0.0
    ensures Sign(SpeedBySign(InitialTable(speed), sign)) == SignOf(sign)
    ensures Abs(SpeedBySign(InitialTable(speed), sign)) == if sign == 0 then 0.0 else speed
  {
  }

  /** The code as written swaps the two sides: a negative sign selects the right-hand speed
      and a positive sign the left-hand one, so with the initial table sign −1 yields +speed and
      sign 1 yields −speed. */
  lemma {:induction false} AsWrittenReversesDirection(speed: real)
    ensures SpeedBySignAsWritten(InitialTable(speed), -1) == speed
    ensures SpeedBySignAsWritten(InitialTable(speed), 1) == -speed
    ensures SpeedBySign(InitialTable(speed), -1) == -speed
  {
  }

  /** The two lookups agree exactly when the left and right speeds coincide or the sign is 0. */
  lemma {:induction false} AsWrittenAgreesOnlyWhenSymmetric(t: SpeedTable, sign: int)
    ensures SpeedBySignAsWritten(t, sign) == SpeedBySign(t, sign) <==>
              sign == 0 || SpeedsAllSigned(t).x == SpeedsAllSigned(t).z
  {
  }

  /** The speed component. */
  class LateralMoveSpeed {
    var speed: real
    var speedMultiply_L: real
    var speedMultiply_I: real
    var speedMultiply_R: real
    var addedValue_L: real
    var addedValue_I: real
    var addedValue_R: real

    function Table(): SpeedTable
      reads this
    {
      SpeedTable(speed, speedMultiply_L, speedMultiply_I, speedMultiply_R,
                 addedValue_L, addedValue_I, addedValue_R)
    }

    constructor (speed: real)
      ensures Table() == InitialTable(speed)
    {
      this.speed := speed;
      speedMultiply_L, speedMultiply_I, speedMultiply_R := -1.0, 0.0, 1.0;
      addedValue_L, addedValue_I, addedValue_R := 0.0, 0.0, 0.0;
    }

    method SetSpeed(newSpeed: real)
      modifies this
      ensures Table() == old(Table()).(speed := newSpeed)
    {
      speed := newSpeed;
    }

    /** SetMultipliers(goingL, goingR, idle); the defaults (−1, 1, 0) are the initial ones. */
    method SetMultipliers(goingL: real, goingR: real, idle: real)
      modifies this
      ensures Table() == old(Table()).(mulL := goingL, mulI := idle, mulR := goingR)
    {
      speedMultiply_L := goingL;
      speedMultiply_I := idle;
      speedMultiply_R := goingR;
    }

    /** SetMultipliers(float3): x is left, y is idle, z is right. */
    method SetMultipliersVector(multipliers: Vec3)
      modifies this
      ensures Table() == old(Table()).(mulL := multipliers.x, mulI := multipliers.y, mulR := multipliers.z)
    {
      SetMultipliers(multipliers.x, multipliers.z, multipliers.y);
    }

    /** SetAddedValue(valToAdd): the same constant in every direction. */
    method SetAddedValue(valToAdd: real)
      modifies this
      ensures Table() == old(Table()).(addL := valToAdd, addI := valToAdd, addR := valToAdd)
    {
      addedValue_L := valToAdd;
      addedValue_I := valToAdd;
      addedValue_R := valToAdd;
    }

    /** SetAddedValue(leftVal, rightVal, idleVal). */
    method SetAddedValues(leftVal: real, rightVal: real, idleVal: real)
      modifies this
      ensures Table() == old(Table()).(addL := leftVal, addI := idleVal, addR := rightVal)
    {
      addedValue_L := leftVal;
      addedValue_I := idleVal;
      addedValue_R := rightVal;
    }

    /** SetAddedValue(float3): x is left, y is idle, z is right. */
    method SetAddedValueVector(vals: Vec3)
      modifies this
      ensures Table() == old(Table()).(addL := vals.x, addI := vals.y, addR := vals.z)
    {
      addedValue_L := vals.x;
      addedValue_I := vals.y;
      addedValue_R := vals.z;
    }

    /** GetSpeedsAllSigned: the left, idle and right speeds of the current table. */
    function GetSpeedsAllSigned(): (r: Vec3)
      reads this
      ensures r == SpeedsAllSigned(Table())
    {
      SpeedsAllSigned(Table())
    }

    /** GetSpeedBySign as the code computes it, with left and right swapped
        (SpeedBySignAsWritten); the documented lookup is SpeedBySign. */
    function GetSpeedBySign(sign: int): (r: real)
      reads this
      ensures r == SpeedBySignAsWritten(Table(), sign)
      ensures (sign != 0 && speedMultiply_L == -1.0 && speedMultiply_R == 1.0 && addedValue_L == 0.0 &&
               addedValue_R == 0.0) ==> r == -(SignOf(sign) as real) * speed
    {
      SpeedBySignAsWritten(Table(), sign)
    }
  }
}
