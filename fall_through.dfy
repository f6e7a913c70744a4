/** FallThroughSemiSolid: a count-down during which semi-solid platforms are not collided with
    from above, started by BeginFallThrough and advanced by TickTimer. */
module FallThrough {
  import opened Num

  /** The timer after one TickTimer(dt): reduced by dt, never below zero. */
  function Ticked(timer: real, dt: real): (t: real)
    ensures t >= 0.0
    ensures t == 0.0 <==> timer <= dt
    ensures t > 0.0 ==> t == timer - dt
    ensures dt >= 0.0 ==> t <= Max(timer, 0.0)
  {
    Max(0.0, timer - dt)
  }

  /** The timer after a TickTimer call for each step in `dts`, in order. */
  function TickedAll(timer: real, dts: seq<real>): real
    decreases |dts|
  {
    if |dts| == 0 then timer else TickedAll(Ticked(timer, dts[0]), dts[1..])
  }

  function Sum(dts: seq<real>): real
    decreases |dts|
  {
    if |dts| == 0 then 0.0 else dts[0] + Sum(dts[1..])
  }

  predicate NonNegative(dts: seq<real>)
  {
    forall i :: 0 <= i < |dts| ==> dts[i] >= 0.0
  }

  /** With non-negative steps, a sequence of ticks from a non-negative timer removes exactly the
      total elapsed time, stopping at zero. */
  lemma {:induction false} TickedAllIsTotalElapsed(timer: real, dts: seq<real>)
    requires timer >= 0.0
    requires NonNegative(dts)
    ensures TickedAll(timer, dts) == Max(0.0, timer - Sum(dts))
    decreases |dts|
  {
    if |dts| > 0 {
      assert NonNegative(dts[1..]) by {
        forall i | 0 <= i < |dts[1..]| ensures dts[1..][i] >= 0.0 { assert dts[1..][i] == dts[i + 1]; }
      }
      TickedAllIsTotalElapsed(Ticked(timer, dts[0]), dts[1..]);
      SumNonNegative(dts[1..]);
    }
  }

  lemma {:induction false} SumNonNegative(dts: seq<real>)
    requires NonNegative(dts)
    ensures Sum(dts) >= 0.0
    decreases |dts|
  {
    if |dts| > 0 {
      assert NonNegative(dts[1..]) by {
        forall i | 0 <= i < |dts[1..]| ensures dts[1..][i] >= 0.0 { assert dts[1..][i] == dts[i + 1]; }
      }
      SumNonNegative(dts[1..]);
    }
  }

  /** Once expired, the timer stays expired under any further non-negative steps. */
  lemma {:induction false} ExpiredStaysExpired(timer: real, dts: seq<real>)
    requires timer <= 0.0
    requires NonNegative(dts)
    ensures TickedAll(timer, dts) <= 0.0
    decreases |dts|
  {
    if |dts| > 0 {
      assert Ticked(timer, dts[0]) == 0.0;
      assert NonNegative(dts[1..]) by {
        forall i | 0 <= i < |dts[1..]| ensures dts[1..][i] >= 0.0 { assert dts[1..][i] == dts[i + 1]; }
      }
      ExpiredStaysExpired(0.0, dts[1..]);
    }
  }

  /** The fall-through component. */
  class FallThroughSemiSolid {
    const waitForThisLong: real
    var timer: real
    var ignoredCollider: ColliderRef

    /** Field initialisers; `waitForThisLong` is the inspector value (0.1 by default). */
    constructor (waitForThisLong: real)
      ensures this.waitForThisLong == waitForThisLong
      ensures timer == 0.0 && ignoredCollider == Null
    {
      this.waitForThisLong := waitForThisLong;
      timer := 0.0;
      ignoredCollider := Null;
    }

    /** Restart the count-down; `colToIgnore` may be Null (fall through everything). */
    method BeginFallThrough(colToIgnore: ColliderRef)
      modifies this
      ensures timer == waitForThisLong && ignoredCollider == colToIgnore
    {
      timer := waitForThisLong;
      ignoredCollider := colToIgnore;
    }

    /** Advance the count-down by `timestep`; report whether it has run out. */
    method TickTimer(timestep: real) returns (expired: bool)
      modifies this
      ensures timer == Ticked(old(timer), timestep)
      ensures ignoredCollider == old(ignoredCollider)
      ensures expired <==> timer <= 0.0
    {
      timer := Max(0.0, timer - timestep);
      return timer <= 0.0;
    }
  }
}
