/** The swarm update engine: the canonical velocity formula and the position
    step clamped to the per-dimension bounds. */
module SwarmUpdate {
  import opened Swarm

  function Min(a: real, b: real): real { if a <= b then a else b }
  function Max(a: real, b: real): real { if a >= b then a else b }

  /** The new velocity of a particle at `position`: its old velocity plus a
      pull of weight c1 * r1[i] toward `localPos` and one of weight c2 * r2[i]
      toward `globalPos`, dimension by dimension. r1 and r2 are the random
      draws of one call. */
  function UpdateVelocity(position: seq<real>, velocity: seq<real>, localPos: seq<real>, globalPos: seq<real>,
                          c1: real, c2: real, r1: seq<real>, r2: seq<real>): (v: seq<real>)
    requires |velocity| == |position| && |localPos| == |position| && |globalPos| == |position|
    requires |r1| == |position| && |r2| == |position|
    ensures |v| == |position|
  {
    seq(|position|, i requires 0 <= i < |position| =>
      velocity[i] + c1 * r1[i] * (localPos[i] - position[i]) + c2 * r2[i] * (globalPos[i] - position[i]))
  }

  /** `min` against the upper bound first, then `max` against the lower one.
      For well-formed bounds this is the usual two-sided clamp; for crossed
      bounds the lower bound wins. */
  function Clamp(x: real, lo: real, hi: real): (r: real)
    ensures lo <= hi ==> r == (if x < lo then lo else if hi < x then hi else x)
    ensures hi < lo ==> r == lo
  {
    Max(Min(x, hi), lo)
  }

  /** The position a particle moves to: position + velocity, clamped in every
      dimension. */
  function Stepped(position: seq<real>, velocity: seq<real>, xMin: seq<real>, xMax: seq<real>): (r: seq<real>)
    requires |velocity| == |position| && |position| <= |xMin| && |position| <= |xMax|
    ensures |r| == |position|
    ensures forall i :: 0 <= i < |r| && xMin[i] <= xMax[i] ==> xMin[i] <= r[i] <= xMax[i]
    ensures forall i :: 0 <= i < |r| && xMin[i] <= position[i] + velocity[i] <= xMax[i] ==>
      r[i] == position[i] + velocity[i]
  {
    seq(|position|, i requires 0 <= i < |position| => Clamp(position[i] + velocity[i], xMin[i], xMax[i]))
  }

  /** The source's update_position: a fresh vector position + velocity whose
      entries are overwritten, index by index, first by the min against x_max
      and then by the max against x_min. */
  method UpdatePosition(particle: Particle, xMin: seq<real>, xMax: seq<real>) returns (newPosition: seq<real>)
    requires |particle.velocity| == |particle.position|
    requires |particle.position| <= |xMin| && |particle.position| <= |xMax|
    ensures newPosition == Stepped(particle.position, particle.velocity, xMin, xMax)
  {
    var position, velocity := particle.position, particle.velocity;
    var n := |position|;
    var sum := seq(n, i requires 0 <= i < n => position[i] + velocity[i]);
    var a := new real[n](i requires 0 <= i < n => sum[i]);
    for i := 0 to n
      invariant forall j :: 0 <= j < i ==> a[j] == Clamp(sum[j], xMin[j], xMax[j])
      invariant forall j :: i <= j < n ==> a[j] == sum[j]
    {
      a[i] := Min(a[i], xMax[i]);
      a[i] := Max(a[i], xMin[i]);
    }
    newPosition := a[..];
    assert forall j :: 0 <= j < n ==> newPosition[j] == Stepped(position, velocity, xMin, xMax)[j];
  }

  /** Every entry of x lies within its bounds. */
  predicate InBounds(x: seq<real>, xMin: seq<real>, xMax: seq<real>)
    requires |x| <= |xMin| && |x| <= |xMax|
  {
    forall i :: 0 <= i < |x| ==> xMin[i] <= x[i] <= xMax[i]
  }

  predicate WellFormedBounds(xMin: seq<real>, xMax: seq<real>)
    requires |xMin| == |xMax|
  {
    forall i :: 0 <= i < |xMin| ==> xMin[i] <= xMax[i]
  }

  predicate IsZero(v: seq<real>) {
    forall i :: 0 <= i < |v| ==> v[i] == 0.0
  }

  /** Every random draw lies in [0, 1). */
  predicate UnitDraws(r: seq<real>) {
    forall i :: 0 <= i < |r| ==> 0.0 <= r[i] < 1.0
  }

  /** With both coefficients zero the velocity is kept as it is. */
  lemma {:induction false} VelocityInertiaOnly(position: seq<real>, velocity: seq<real>, localPos: seq<real>,
                                               globalPos: seq<real>, r1: seq<real>, r2: seq<real>)
    requires |velocity| == |position| && |localPos| == |position| && |globalPos| == |position|
    requires |r1| == |position| && |r2| == |position|
    ensures UpdateVelocity(position, velocity, localPos, globalPos, 0.0, 0.0, r1, r2) == velocity
  {
  }

  /** A particle already sitting on both best positions keeps its velocity,
      whatever the coefficients and draws. */
  lemma {:induction false} VelocityAtBest(position: seq<real>, velocity: seq<real>, c1: real, c2: real,
                                          r1: seq<real>, r2: seq<real>)
    requires |velocity| == |position| && |r1| == |position| && |r2| == |position|
    ensures UpdateVelocity(position, velocity, position, position, c1, c2, r1, r2) == velocity
  {
  }

  /** c * r * d for a non-negative coefficient c and a draw r in [0, 1) has
      the sign of d and at most the size of c * d. */
  lemma ScaledPull(c: real, r: real, d: real) returns (pull: real, full: real)
    requires 0.0 <= c && 0.0 <= r < 1.0
    ensures pull == c * r * d && full == c * d
    ensures d >= 0.0 ==> 0.0 <= pull <= full
    ensures d <= 0.0 ==> full <= pull <= 0.0
  {
    pull, full := c * r * d, c * d;
    var rest := 1.0 - r;
    assert 0.0 < rest;
    assert pull == r * full;
    assert full - pull == rest * full;
    if d >= 0.0 {
      assert 0.0 <= full;
      assert 0.0 <= r * full && 0.0 <= rest * full;
    } else {
      assert full <= 0.0;
      assert r * full <= 0.0 && rest * full <= 0.0;
    }
  }

  /** With non-negative coefficients and draws in [0, 1), the velocity change
      in a dimension points toward the best positions when both lie on the
      same side of the particle, and is never larger than the full pulls. */
  lemma {:induction false} VelocityPullsTowardBest(position: seq<real>, velocity: seq<real>, localPos: seq<real>,
                                                   globalPos: seq<real>, c1: real, c2: real,
                                                   r1: seq<real>, r2: seq<real>, i: int)
    requires |velocity| == |position| && |localPos| == |position| && |globalPos| == |position|
    requires |r1| == |position| && |r2| == |position|
    requires 0.0 <= c1 && 0.0 <= c2 && UnitDraws(r1) && UnitDraws(r2)
    requires 0 <= i < |position|
    ensures var dv := UpdateVelocity(position, velocity, localPos, globalPos, c1, c2, r1, r2)[i] - velocity[i];
      && (position[i] <= localPos[i] && position[i] <= globalPos[i] ==>
            0.0 <= dv <= c1 * (localPos[i] - position[i]) + c2 * (globalPos[i] - position[i]))
      && (localPos[i] <= position[i] && globalPos[i] <= position[i] ==>
            c1 * (localPos[i] - position[i]) + c2 * (globalPos[i] - position[i]) <= dv <= 0.0)
  {
    var dl, dg := localPos[i] - position[i], globalPos[i] - position[i];
    var pullLocal, fullLocal := ScaledPull(c1, r1[i], dl);
    var pullGlobal, fullGlobal := ScaledPull(c2, r2[i], dg);
    var v := UpdateVelocity(position, velocity, localPos, globalPos, c1, c2, r1, r2);
    assert v[i] - velocity[i] == pullLocal + pullGlobal;
  }

  /** Zero velocity leaves an in-bounds position where it is. */
  lemma {:induction false} ZeroVelocityKeepsPosition(position: seq<real>, velocity: seq<real>,
                                                     xMin: seq<real>, xMax: seq<real>)
    requires |velocity| == |position| && |position| <= |xMin| && |position| <= |xMax|
    requires IsZero(velocity) && InBounds(position, xMin, xMax)
    ensures Stepped(position, velocity, xMin, xMax) == position
  {
    var r := Stepped(position, velocity, xMin, xMax);
    forall i | 0 <= i < |position|
      ensures r[i] == position[i]
    {
      assert position[i] + velocity[i] == position[i];
    }
  }

  /** A step never leaves well-formed bounds. */
  lemma {:induction false} SteppedInBounds(position: seq<real>, velocity: seq<real>, xMin: seq<real>, xMax: seq<real>)
    requires |velocity| == |position| && |position| == |xMin| == |xMax|
    requires WellFormedBounds(xMin, xMax)
    ensures InBounds(Stepped(position, velocity, xMin, xMax), xMin, xMax)
  {
  }
}
