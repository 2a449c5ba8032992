/**
 The neighbour scan of `UpdateJob.Execute`: each neighbour in the window is
 either so close that the boid jitters its heading by random angles, or far
 enough to push the boid away along the line between them with a strength
 that falls off with distance.
 */
module RepulsionAccumulator {
  import opened Geometry

  /** Below this distance a neighbour causes angular jitter instead of a push. */
  const NearContact: real := 0.02

  /** `SpecialFunc`: the repulsion weight of a neighbour at distance `d`. */
  function Falloff(d: real): (r: real)
    requires d > -1.0
    ensures r > 0.0
    ensures d >= 0.0 ==> r <= 1.0
    ensures r == 1.0 <==> d == 0.0
  {
    var r := 1.0 / (1.0 + d);
    assert r * (1.0 + d) == 1.0;
    assert r > 0.0 by {
      if r <= 0.0 { MulNonPosPos(r, 1.0 + d); }
    }
    assert d >= 0.0 ==> r <= 1.0 by {
      if d >= 0.0 && r > 1.0 { MulPos(r - 1.0, 1.0 + d); }
    }
    r
  }

  lemma MulPos(a: real, b: real)
    requires a > 0.0 && b > 0.0
    ensures a * b > 0.0
  {
  }

  lemma MulNonPosPos(a: real, b: real)
    requires a <= 0.0 && b > 0.0
    ensures a * b <= 0.0
  {
    MulPosMonotone(-a, b);
  }

  lemma MulPosMonotone(a: real, b: real)
    requires a >= 0.0 && b > 0.0
    ensures a * b >= 0.0
  {
    if a > 0.0 { MulPos(a, b); }
  }

  /** The closer the neighbour, the stronger the repulsion. */
  lemma FalloffStrictlyDecreasing(a: real, b: real)
    requires 0.0 <= a < b
    ensures Falloff(b) < Falloff(a)
  {
    var fa, fb := Falloff(a), Falloff(b);
    assert fa * (1.0 + a) == 1.0;
    assert fb * (1.0 + b) == 1.0;
    assert fb * (1.0 + a) < 1.0 by {
      assert fb * (b - a) > 0.0;
    }
  }

  /** The two `Random.NextFloat(-2, 2)` draws a near neighbour consumes. */
  datatype Jitter = Jitter(x: real, y: real)

  predicate ValidJitter(j: Jitter) {
    -2.0 <= j.x < 2.0 && -2.0 <= j.y < 2.0
  }

  /** Accumulated jitter angles (degrees) and the accumulated push direction. */
  datatype Repulsion = Repulsion(angleX: real, angleY: real, direction: Vec3)

  const NoRepulsion: Repulsion := Repulsion(0.0, 0.0, Zero)

  function Plus(a: Repulsion, b: Repulsion): Repulsion {
    Repulsion(a.angleX + b.angleX, a.angleY + b.angleY, Add(a.direction, b.direction))
  }

  /**
   What one boid scans: its own (already advanced) position, the buffer of
   neighbours, the vector length used as distance, one jitter draw per slot,
   and the `RepelAngle` pair scaling the jitter.
   */
  datatype Scan = Scan(self: Vec3, buffer: seq<Trs>, length: Vec3 -> real,
                       jitter: seq<Jitter>, repelX: real, repelY: real)
  {
    predicate Valid() {
      |jitter| == |buffer|
    }

    /** The vector from neighbour `i` to the scanning boid. */
    function Away(i: int): Vec3
      requires 0 <= i < |buffer|
    {
      Sub(self, buffer[i].position)
    }

    function Distance(i: int): real
      requires 0 <= i < |buffer|
    {
      length(Away(i))
    }

    predicate Near(i: int)
      requires 0 <= i < |buffer|
    {
      Distance(i) < NearContact
    }
  }

  /** The loop body for neighbour `i`: exactly one of the two branches. */
  function Contribution(n: Scan, i: int): (c: Repulsion)
    requires n.Valid() && 0 <= i < |n.buffer|
    ensures n.Near(i) ==> c.direction == Zero
    ensures !n.Near(i) ==> c.angleX == 0.0 && c.angleY == 0.0
  {
    if n.Near(i) then
      Repulsion(n.repelX * n.jitter[i].x, n.repelY * n.jitter[i].y, Zero)
    else
      var d := n.Distance(i);
      Repulsion(0.0, 0.0, Scale(Scale(n.Away(i), 1.0 / d), Falloff(d)))
  }

  /** The accumulators after the loop has visited indices `s .. e-1` in order. */
  function Accumulate(n: Scan, s: int, e: int): Repulsion
    requires n.Valid() && 0 <= s && e <= |n.buffer|
    decreases e - s
  {
    if e <= s then NoRepulsion else Plus(Accumulate(n, s, e - 1), Contribution(n, e - 1))
  }

  lemma EmptyWindow(n: Scan, s: int, e: int)
    requires n.Valid() && 0 <= s && e <= |n.buffer| && e <= s
    ensures Accumulate(n, s, e) == NoRepulsion
  {
  }

  // An independent reading of the loop: the jitter angles are the sum over the
  // near neighbours alone, the direction the sum over the far neighbours alone.

  /** The two axes the jitter turns about: local up (`RepelAngle.x`) and local right (`RepelAngle.y`). */
  datatype Axis = Up | Right

  function RepelFactor(n: Scan, axis: Axis): real {
    if axis == Up then n.repelX else n.repelY
  }

  /** The accumulated jitter angle about `axis`. */
  function Angle(r: Repulsion, axis: Axis): real {
    if axis == Up then r.angleX else r.angleY
  }

  function Draw(j: Jitter, axis: Axis): real {
    if axis == Up then j.x else j.y
  }

  /** The jitter angle neighbour `i` adds about `axis`: nothing unless it is near. */
  function JitterTerm(n: Scan, axis: Axis, i: int): real
    requires n.Valid() && 0 <= i < |n.buffer|
  {
    if n.Near(i) then RepelFactor(n, axis) * Draw(n.jitter[i], axis) else 0.0
  }

  /** The push neighbour `i` adds: nothing if it is near. */
  function PushTerm(n: Scan, i: int): Vec3
    requires 0 <= i < |n.buffer|
  {
    if n.Near(i) then Zero
    else
      var d := n.Distance(i);
      Scale(Scale(n.Away(i), 1.0 / d), Falloff(d))
  }

  function NearJitter(n: Scan, axis: Axis, s: int, e: int): real
    requires n.Valid() && 0 <= s && e <= |n.buffer|
    decreases e - s
  {
    if e <= s then 0.0 else NearJitter(n, axis, s, e - 1) + JitterTerm(n, axis, e - 1)
  }

  function FarPush(n: Scan, s: int, e: int): Vec3
    requires 0 <= s && e <= |n.buffer|
    decreases e - s
  {
    if e <= s then Zero else Add(FarPush(n, s, e - 1), PushTerm(n, e - 1))
  }

  lemma ContributionParts(n: Scan, i: int)
    requires n.Valid() && 0 <= i < |n.buffer|
    ensures Contribution(n, i) == Repulsion(JitterTerm(n, Up, i), JitterTerm(n, Right, i), PushTerm(n, i))
  {
    if n.Near(i) {
      assert Add(Zero, Zero) == Zero;
    }
  }

  /** One more neighbour: every accumulator grows by that neighbour's term. */
  lemma ScanStep(n: Scan, s: int, e: int)
    requires n.Valid() && 0 <= s < e <= |n.buffer|
    ensures Accumulate(n, s, e) == Plus(Accumulate(n, s, e - 1), Contribution(n, e - 1))
    ensures NearJitter(n, Up, s, e) == NearJitter(n, Up, s, e - 1) + JitterTerm(n, Up, e - 1)
    ensures NearJitter(n, Right, s, e) == NearJitter(n, Right, s, e - 1) + JitterTerm(n, Right, e - 1)
    ensures FarPush(n, s, e) == Add(FarPush(n, s, e - 1), PushTerm(n, e - 1))
  {
  }

  /** `ScanStep`'s jitter unfolding for an arbitrary axis, for the per-axis bounds. */
  lemma NearJitterStep(n: Scan, axis: Axis, s: int, e: int)
    requires n.Valid() && 0 <= s < e <= |n.buffer|
    ensures NearJitter(n, axis, s, e) == NearJitter(n, axis, s, e - 1) + JitterTerm(n, axis, e - 1)
  {
  }

  /** Each neighbour feeds exactly one accumulator, chosen by the near-contact threshold. */
  lemma {:induction false} AccumulateSplitsByDistance(n: Scan, s: int, e: int)
    requires n.Valid() && 0 <= s && e <= |n.buffer|
    ensures Accumulate(n, s, e) == Repulsion(NearJitter(n, Up, s, e), NearJitter(n, Right, s, e), FarPush(n, s, e))
    decreases e - s
  {
    if s < e {
      AccumulateSplitsByDistance(n, s, e - 1);
      ScanStep(n, s, e);
      ContributionParts(n, e - 1);
    }
  }

  /** Only near neighbours in the window: no push, only jitter. */
  lemma {:induction false} AllNearMeansNoPush(n: Scan, s: int, e: int)
    requires n.Valid() && 0 <= s && e <= |n.buffer|
    requires forall i :: s <= i < e ==> n.Near(i)
    ensures Accumulate(n, s, e).direction == Zero
    decreases e - s
  {
    if s < e {
      AllNearMeansNoPush(n, s, e - 1);
      ScanStep(n, s, e);
    }
  }

  /** No near neighbour in the window: no jitter, only push. */
  lemma {:induction false} NoneNearMeansNoJitter(n: Scan, s: int, e: int)
    requires n.Valid() && 0 <= s && e <= |n.buffer|
    requires forall i :: s <= i < e ==> !n.Near(i)
    ensures Accumulate(n, s, e).angleX == 0.0 && Accumulate(n, s, e).angleY == 0.0
    decreases e - s
  {
    if s < e {
      NoneNearMeansNoJitter(n, s, e - 1);
      ScanStep(n, s, e);
    }
  }

  function Abs(x: real): real {
    if x < 0.0 then -x else x
  }

  lemma JitterTermBound(k: real, draw: real)
    requires -2.0 <= draw < 2.0
    ensures Abs(k * draw) <= 2.0 * Abs(k)
  {
    if k > 0.0 {
      MulPos(k, 2.0 - draw);
      MulPosMonotone(draw + 2.0, k);
    } else if k < 0.0 {
      MulPos(-k, 2.0 - draw);
      MulPosMonotone(draw + 2.0, -k);
    }
  }

  /** At most twice the repel angle per neighbour, since each draw lies in [-2, 2). */
  lemma NeighbourJitterBound(n: Scan, axis: Axis, i: int)
    requires n.Valid() && 0 <= i < |n.buffer| && ValidJitter(n.jitter[i])
    ensures Abs(JitterTerm(n, axis, i)) <= 2.0 * Abs(RepelFactor(n, axis))
  {
    JitterTermBound(RepelFactor(n, axis), Draw(n.jitter[i], axis));
  }

  /** `count` terms of size `b`, added up one at a time. */
  function Cap(b: real, count: int): real
    decreases count
  {
    if count <= 0 then 0.0 else Cap(b, count - 1) + b
  }

  lemma {:induction false} CapIsProduct(b: real, count: nat)
    ensures Cap(b, count) == b * count as real
  {
    if count > 0 {
      CapIsProduct(b, count - 1);
      assert b * count as real == b * (count - 1) as real + b;
    }
  }

  /** The jitter about either axis is at most twice its `RepelAngle` component per scanned neighbour. */
  lemma {:induction false} NearJitterBounded(n: Scan, axis: Axis, s: int, e: int)
    requires n.Valid() && 0 <= s <= e <= |n.buffer|
    requires forall i :: 0 <= i < |n.jitter| ==> ValidJitter(n.jitter[i])
    ensures Abs(NearJitter(n, axis, s, e)) <= Cap(2.0 * Abs(RepelFactor(n, axis)), e - s)
    decreases e - s
  {
    if s < e {
      NearJitterBounded(n, axis, s, e - 1);
      NearJitterStep(n, axis, s, e);
      NeighbourJitterBound(n, axis, e - 1);
    }
  }

  /** The jitter about one axis, bounded by the window size. */
  lemma AxisJitterBounded(n: Scan, axis: Axis, s: int, e: int)
    requires n.Valid() && 0 <= s <= e <= |n.buffer|
    requires forall i :: 0 <= i < |n.jitter| ==> ValidJitter(n.jitter[i])
    ensures Abs(NearJitter(n, axis, s, e)) <= 2.0 * Abs(RepelFactor(n, axis)) * (e - s) as real
  {
    var b := 2.0 * Abs(RepelFactor(n, axis));
    NearJitterBounded(n, axis, s, e);
    CapIsProduct(b, e - s);
    assert Abs(NearJitter(n, axis, s, e)) <= Cap(b, e - s) == b * (e - s) as real;
  }

  /**
   Each near neighbour turns the boid by at most twice `RepelAngle` about
   either axis, so the accumulated jitter is bounded by the window size.
   */
  lemma JitterBounded(n: Scan, axis: Axis, s: int, e: int)
    requires n.Valid() && 0 <= s <= e <= |n.buffer|
    requires forall i :: 0 <= i < |n.jitter| ==> ValidJitter(n.jitter[i])
    ensures Abs(Angle(Accumulate(n, s, e), axis)) <= 2.0 * Abs(RepelFactor(n, axis)) * (e - s) as real
  {
    AccumulateSplitsByDistance(n, s, e);
    AxisJitterBounded(n, axis, s, e);
  }

  /**
   The scan loop of `Execute`: visits `start .. end-1` in order, reading only
   buffer slots inside that range.
   */
  method ScanWindow(n: Scan, start: int, end: int) returns (r: Repulsion)
    requires n.Valid() && 0 <= start <= |n.buffer| && end <= |n.buffer|
    ensures r == Accumulate(n, start, end)
    ensures r == Repulsion(NearJitter(n, Up, start, end), NearJitter(n, Right, start, end), FarPush(n, start, end))
  {
    r := NoRepulsion;
    var i := start;
    while i < end
      invariant start <= i <= |n.buffer|
      invariant if start <= end then i <= end else i == start
      invariant r == Accumulate(n, start, i)
    {
      ScanStep(n, start, i + 1);
      r := Plus(r, Contribution(n, i));
      i := i + 1;
    }
    if end < start {
      EmptyWindow(n, start, i);
      EmptyWindow(n, start, end);
    }
    AccumulateSplitsByDistance(n, start, end);
  }
}
