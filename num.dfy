/** Numeric vocabulary shared by the whole model: Unity.Mathematics' float2/float3/bool2/bool4
    values (floats are modelled as reals), math.sign/abs/min/max/clamp/lerp, trigonometry of
    angles in degrees (an engine service, passed around as a value), and nullable collider
    references. */
module Num {

  /** float2 / Vector2. */
  datatype Vec2 = Vec2(x: real, y: real) {
    function Plus(o: Vec2): Vec2 { Vec2(x + o.x, y + o.y) }
    function Minus(o: Vec2): Vec2 { Vec2(x - o.x, y - o.y) }
    function Scale(k: real): Vec2 { Vec2(x * k, y * k) }
  }

  const Zero2 := Vec2(0.0, 0.0)

  /** float3. */
  datatype Vec3 = Vec3(x: real, y: real, z: real)

  /** bool2. */
  datatype Bool2 = Bool2(x: bool, y: bool)

  /** bool4; `false` converted to a bool4 is all four components false. */
  datatype Bool4 = Bool4(x: bool, y: bool, z: bool, w: bool)

  const AllFalse4 := Bool4(false, false, false, false)

  /** math.sign of a float, converted to an int. */
  function Sign(r: real): (s: int)
    ensures -1 <= s <= 1
    ensures s < 0 <==> r < 0.0
    ensures s == 0 <==> r == 0.0
  {
    if r < 0.0 then -1 else if r > 0.0 then 1 else 0
  }

  /** math.sign of an int. */
  function SignOf(n: int): (s: int)
    ensures -1 <= s <= 1
    ensures s < 0 <==> n < 0
    ensures s == 0 <==> n == 0
  {
    if n < 0 then -1 else if n > 0 then 1 else 0
  }

  function Abs(r: real): (a: real)
    ensures a >= 0.0
    ensures a == r || a == -r
  {
    if r < 0.0 then -r else r
  }

  function Min(a: real, b: real): (m: real)
    ensures m <= a && m <= b
    ensures m == a || m == b
  {
    if a <= b then a else b
  }

  function Max(a: real, b: real): (m: real)
    ensures m >= a && m >= b
    ensures m == a || m == b
  {
    if a >= b then a else b
  }

  /** math.clamp(v, lo, hi). */
  function Clamp(v: real, lo: real, hi: real): (c: real)
    requires lo <= hi
    ensures lo <= c <= hi
    ensures lo <= v <= hi ==> c == v
  {
    if v < lo then lo else if v > hi then hi else v
  }

  /** math.lerp(a, b, t) = a + t·(b − a), component-wise. */
  function Lerp(a: Vec2, b: Vec2, t: real): (r: Vec2)
    ensures t == 0.0 ==> r == a
    ensures t == 1.0 ==> r == b
  {
    a.Plus(b.Minus(a).Scale(t))
  }

  /** math.sin/cos/tan of math.radians(angle): uninterpreted functions of degrees. */
  datatype Trig = Trig(sin: real -> real, cos: real -> real, tan: real -> real)

  /** A Collider2D reference; `Null` is Unity's null. */
  datatype ColliderRef = Null | Ref(id: nat)
}
