/** RaycastProducer2D.testPoints: one ray per origin, all in the same direction with the same
    length and mask, each filtered so that the caster's own collider is never reported. */
module RaycastProducer {
  import opened Num
  import opened Physics

  /** Size of the scratch buffer: room for the caster's own collider and one more. */
  const ScratchSize := 2

  /** One probe: the cast from `origin` written into a cleared two-slot scratchpad, then the
      first entry that is not `self`. */
  function Probe(world: World, self: ColliderRef, direction: Vec2, origin: Vec2, length: real,
                 mask: Mask): (h: Hit)
    ensures var hits := world.ray(origin, direction, Upto(length), mask);
            h.Found() <==> exists i :: 0 <= i < ScratchSize && i < |hits| && IsOther(hits[i], self)
    ensures var hits := world.ray(origin, direction, Upto(length), mask);
            h.Found() ==> h.collider != self && exists i :: 0 <= i < ScratchSize && i < |hits| && hits[i] == h
    ensures var hits := world.ray(origin, direction, Upto(length), mask);
            h.Found() ==> exists i :: 0 <= i < ScratchSize && i < |hits| && hits[i] == h &&
                                        forall j :: 0 <= j < i ==> !IsOther(hits[j], self)
    ensures !h.Found() ==> h == NoHit
  {
    var hits := world.ray(origin, direction, Upto(length), mask);
    var scratch := Fill([NoHit, NoHit], hits);
    assert forall i :: 0 <= i < ScratchSize ==> (IsOther(scratch[i], self) <==> i < |hits| && IsOther(hits[i], self));
    FirstNonSelfHit(scratch, self)
  }

  /** What testPoints returns for the origins `origins`. */
  function ProbeAll(world: World, self: ColliderRef, direction: Vec2, origins: seq<Vec2>,
                    length: real, mask: Mask): (r: seq<Hit>)
    ensures |r| == |origins|
    ensures forall i :: 0 <= i < |origins| ==> r[i] == Probe(world, self, direction, origins[i], length, mask)
  {
    seq(|origins|, i requires 0 <= i < |origins| => Probe(world, self, direction, origins[i], length, mask))
  }

  /** testPoints. A null or empty origin array yields an empty result and casts nothing;
      otherwise result[i] is the probe from origins[i]. */
  method TestPoints(world: World, collider: ColliderRef, castDirection: Vec2,
                    castOrigins: array?<Vec2>, rayLength: real, rayLayerMask: Mask)
    returns (returner: array<Hit>)
    ensures fresh(returner)
    ensures castOrigins == null ==> returner.Length == 0
    ensures castOrigins != null ==>
              returner[..] == ProbeAll(world, collider, castDirection, castOrigins[..], rayLength, rayLayerMask)
  {
    if castOrigins == null || castOrigins.Length == 0 {
      returner := new Hit[0];
      return;
    }
    returner := new Hit[castOrigins.Length](_ => NoHit);
    var castScratchpad := new Hit[ScratchSize](_ => NoHit);
    for i := 0 to castOrigins.Length
      invariant Cleared(castScratchpad[..])
      invariant forall j :: 0 <= j < i ==>
                  returner[j] == Probe(world, collider, castDirection, castOrigins[j], rayLength, rayLayerMask)
    {
      returner[i] := ProbeInto(world, collider, castDirection, castOrigins[i], rayLength, rayLayerMask,
                               castScratchpad);
    }
  }

  /** One turn of testPoints: cast into the cleared scratchpad, keep the first entry that is not
      the caster, and clear the scratchpad again. */
  method ProbeInto(world: World, collider: ColliderRef, castDirection: Vec2, origin: Vec2, rayLength: real,
                   rayLayerMask: Mask, castScratchpad: array<Hit>)
    returns (h: Hit)
    requires castScratchpad.Length == ScratchSize && Cleared(castScratchpad[..])
    modifies castScratchpad
    ensures h == Probe(world, collider, castDirection, origin, rayLength, rayLayerMask)
    ensures Cleared(castScratchpad[..])
  {
    ghost var before := castScratchpad[..];
    assert before == [NoHit, NoHit];
    var _ := RaycastNonAlloc(world, origin, castDirection, castScratchpad, rayLength, rayLayerMask);
    h := FirstNonSelfHit(castScratchpad[..], collider);
    ClearBuffer(castScratchpad);
  }

  /** Why the scratchpad is cleared between casts: were a slot left over from the previous cast
      holding another collider's hit, a ray that only hits the caster itself would report that
      earlier hit; from the cleared scratchpad it reports nothing. */
  lemma {:induction false} UnclearedScratchpadLeaks(self: ColliderRef, own: Hit, first: Hit, previous: Hit)
    requires own.collider == self
    requires IsOther(previous, self)
    ensures FirstNonSelfHit(Fill([first, previous], [own]), self) == previous
    ensures FirstNonSelfHit(Fill([NoHit, NoHit], [own]), self) == NoHit
  {
    var stale := Fill([first, previous], [own]);
    assert stale == [own, previous];
    assert !IsOther(stale[0], self);
    assert FirstNonSelfHit(stale[1..], self) == previous;
    var cleared := Fill([NoHit, NoHit], [own]);
    assert cleared == [own, NoHit];
    assert FirstNonSelfHit(cleared[1..], self) == NoHit;
  }
}
