/** The engine services the character code consults: Physics2D ray and box casts, the
    RaycastHit2D record, GetComponent<Velocity>() on a hit collider, Vector2.Angle against the
    up vector, and the trigonometry of degrees. A `World` is one fixed answer to every such
    query; the model is proved for every world. */
module Physics {
  import opened Num

  /** One of the engine's 32 physics layers. */
  type Layer = n: nat | n < 32

  /** A LayerMask, as the set of layers whose bits it has set; bitwise or is union. */
  type Mask = set<Layer>

  /** RaycastHit2D: the collider that was hit (Null when nothing was), how far along the cast,
      the surface normal and the contact point. */
  datatype Hit = Hit(collider: ColliderRef, distance: real, normal: Vec2, point: Vec2)
  {
    /** The implicit bool conversion of a hit: true when a collider was hit. */
    predicate Found() { collider.Ref? }
  }

  /** default(RaycastHit2D), which is also what a cleared buffer slot holds. */
  const NoHit := Hit(Null, 0.0, Zero2, Zero2)

  /** How far a ray goes; `Unbounded` is float.PositiveInfinity. */
  datatype Extent = Upto(length: real) | Unbounded

  /** The Velocity component of a collider's object, or null when it has none. */
  datatype VelocityRef = NoVelocity | VelocityOn(owner: nat)

  /** The engine as seen from the character code during one fixed step.
      `ray(origin, direction, extent, mask)` and `box(center, size, direction, distance, mask)`
      list every hit of the cast, nearest first; `hasVelocity`/`velocityValue` answer
      GetComponent<Velocity>() and its Value; `angleFromUp(n)` is Vector2.Angle(n, up). */
  datatype World = World(
    ray: (Vec2, Vec2, Extent, Mask) -> seq<Hit>,
    box: (Vec2, Vec2, Vec2, real, Mask) -> seq<Hit>,
    hasVelocity: nat -> bool,
    velocityValue: nat -> Vec2,
    angleFromUp: Vec2 -> real,
    trig: Trig)
  {
    /** What the engine guarantees and the slope code relies on: an angle between two vectors
        lies in [0, 180], and tan of a non-zero walkable angle is not zero. */
    ghost predicate Sound()
    {
      (forall n :: 0.0 <= angleFromUp(n) <= 180.0) &&
      (forall a :: 0.0 < a <= 90.0 ==> trig.tan(a) != 0.0)
    }

    /** Physics2D.Raycast: the nearest hit, or the default hit when there is none. */
    function Raycast(origin: Vec2, direction: Vec2, extent: Extent, mask: Mask): (h: Hit)
      ensures |ray(origin, direction, extent, mask)| > 0 ==> h == ray(origin, direction, extent, mask)[0]
      ensures |ray(origin, direction, extent, mask)| == 0 ==> h == NoHit
    {
      var hits := ray(origin, direction, extent, mask);
      if |hits| == 0 then NoHit else hits[0]
    }

    /** collider.GetComponent<Velocity>(). */
    function VelocityOf(c: ColliderRef): (v: VelocityRef)
      ensures v.VelocityOn? <==> c.Ref? && hasVelocity(c.id)
      ensures v.VelocityOn? ==> v.owner == c.id
    {
      if c.Ref? && hasVelocity(c.id) then VelocityOn(c.id) else NoVelocity
    }

    /** valueOf: a missing Velocity reads as zero. */
    function ValueOf(v: VelocityRef): (r: Vec2)
      ensures v.NoVelocity? ==> r == Zero2
      ensures v.VelocityOn? ==> r == velocityValue(v.owner)
    {
      match v
      case NoVelocity => Zero2
      case VelocityOn(owner) => velocityValue(owner)
    }
  }

  /** A hit on some collider other than `self`. */
  predicate IsOther(h: Hit, self: ColliderRef)
  {
    h.Found() && h.collider != self
  }

  /** FirstNonSelfHit: the earliest buffer entry that hit a collider other than `self`, or the
      default hit when there is none. */
  function FirstNonSelfHit(buffer: seq<Hit>, self: ColliderRef): (h: Hit)
    ensures h.Found() <==> exists i :: 0 <= i < |buffer| && IsOther(buffer[i], self)
    ensures h.Found() ==> exists i :: 0 <= i < |buffer| && buffer[i] == h && IsOther(h, self) &&
                                        forall j :: 0 <= j < i ==> !IsOther(buffer[j], self)
    ensures !h.Found() ==> h == NoHit
  {
    if |buffer| == 0 then NoHit
    else if IsOther(buffer[0], self) then buffer[0]
    else
      var rest := FirstNonSelfHit(buffer[1..], self);
      assert forall i :: 1 <= i < |buffer| ==> buffer[i] == buffer[1..][i - 1];
      rest
  }

  /** A cleared buffer: every slot holds the default hit. */
  predicate Cleared(buffer: seq<Hit>)
  {
    forall i :: 0 <= i < |buffer| ==> buffer[i] == NoHit
  }

  /** The buffer after a NonAlloc cast: as many hits as fit are written from slot 0 on, and every
      later slot keeps what it held. */
  function Fill(buffer: seq<Hit>, hits: seq<Hit>): (r: seq<Hit>)
    ensures |r| == |buffer|
    ensures forall i :: 0 <= i < |buffer| ==> r[i] == (if i < |hits| then hits[i] else buffer[i])
  {
    if |hits| < |buffer| then hits + buffer[|hits|..] else hits[..|buffer|]
  }

  function MinNat(a: nat, b: nat): nat { if a <= b then a else b }

  /** Physics2D.RaycastNonAlloc into `buffer`; returns how many hits were written. */
  method RaycastNonAlloc(world: World, origin: Vec2, direction: Vec2, buffer: array<Hit>,
                         length: real, mask: Mask)
    returns (count: nat)
    modifies buffer
    ensures buffer[..] == Fill(old(buffer[..]), world.ray(origin, direction, Upto(length), mask))
    ensures count == MinNat(|world.ray(origin, direction, Upto(length), mask)|, buffer.Length)
  {
    var hits := world.ray(origin, direction, Upto(length), mask);
    var k := 0;
    while k < buffer.Length && k < |hits|
      invariant 0 <= k <= buffer.Length && k <= |hits|
      invariant forall i :: 0 <= i < buffer.Length ==>
                  buffer[i] == (if i < k then hits[i] else old(buffer[i]))
    {
      buffer[k] := hits[k];
      k := k + 1;
    }
    count := k;
  }

  /** Physics2D.BoxCastNonAlloc into `buffer` (rotation 0); returns how many hits were written. */
  method BoxCastNonAlloc(world: World, center: Vec2, size: Vec2, direction: Vec2, buffer: array<Hit>,
                         distance: real, mask: Mask)
    returns (count: nat)
    modifies buffer
    ensures buffer[..] == Fill(old(buffer[..]), world.box(center, size, direction, distance, mask))
    ensures count == MinNat(|world.box(center, size, direction, distance, mask)|, buffer.Length)
  {
    var hits := world.box(center, size, direction, distance, mask);
    var k := 0;
    while k < buffer.Length && k < |hits|
      invariant 0 <= k <= buffer.Length && k <= |hits|
      invariant forall i :: 0 <= i < buffer.Length ==>
                  buffer[i] == (if i < k then hits[i] else old(buffer[i]))
    {
      buffer[k] := hits[k];
      k := k + 1;
    }
    count := k;
  }

  /** The extension `Clear()` on a hit buffer: every slot back to the default hit. */
  method ClearBuffer(buffer: array<Hit>)
    modifies buffer
    ensures Cleared(buffer[..])
  {
    var k := 0;
    while k < buffer.Length
      invariant 0 <= k <= buffer.Length
      invariant forall i :: 0 <= i < k ==> buffer[i] == NoHit
    {
      buffer[k] := NoHit;
      k := k + 1;
    }
  }
}
