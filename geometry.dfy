/** Geometry and collision utilities: points, axis-aligned barriers, the
    circle-circle test, the rectangle overlap test and the sampled line of sight. */
module Geometry {
  import opened Common

  const BULLET_SIZE: real := 5.0

  datatype Point = Point(x: real, y: real)

  /** A barrier: an axis-aligned rectangle given by its top-left corner. */
  datatype Rect = Rect(x: real, y: real, width: real, height: real)

  /** isColliding(obj, tank, r): the distance between the centres, as
      Math.hypot gives it, is below half the tank's width plus r. The test is
      strict: circles that only touch do not collide. */
  predicate IsColliding(m: Platform, obj: Point, tank: Point, tankWidth: real, objRadius: real)
    ensures m.hypot(obj.x - tank.x, obj.y - tank.y) >= tankWidth / 2.0 + objRadius ==>
              !IsColliding(m, obj, tank, tankWidth, objRadius)
    ensures m.hypot(obj.x - tank.x, obj.y - tank.y) < tankWidth / 2.0 + objRadius ==>
              IsColliding(m, obj, tank, tankWidth, objRadius)
  {
    m.hypot(obj.x - tank.x, obj.y - tank.y) < tankWidth / 2.0 + objRadius
  }

  /** With a platform whose hypot is the Euclidean length at the centre
      difference, two objects collide exactly when the squared distance
      between their centres is below the squared reach. */
  lemma CollidingWithinReach(m: Platform, obj: Point, tank: Point, tankWidth: real, objRadius: real)
    ensures var dx, dy := obj.x - tank.x, obj.y - tank.y;
            var h, reach := m.hypot(dx, dy), tankWidth / 2.0 + objRadius;
            h >= 0.0 && h * h == dx * dx + dy * dy && reach >= 0.0 ==>
              (IsColliding(m, obj, tank, tankWidth, objRadius) <==> dx * dx + dy * dy < reach * reach)
  {
    var dx, dy := obj.x - tank.x, obj.y - tank.y;
    var h, reach := m.hypot(dx, dy), tankWidth / 2.0 + objRadius;
    if h >= 0.0 && reach >= 0.0 {
      SquaresOrdered(h, reach);
    }
  }

  /** Between non-negative reals, order is the order of the squares. */
  lemma SquaresOrdered(a: real, b: real)
    requires a >= 0.0 && b >= 0.0
    ensures a < b <==> a * a < b * b
  {
    if a < b {
      var d, e := b - a, b + a;
      assert d > 0.0 && e > 0.0;
      assert d * e > 0.0;
      assert b * b - a * a == d * e;
    } else {
      var d, e := a - b, a + b;
      assert d >= 0.0 && e >= 0.0;
      assert d * e >= 0.0;
      assert a * a - b * b == d * e;
    }
  }

  /** isRectColliding: `centred` is centred on (x, y); `r` is a barrier. The
      two overlap, with open edges, exactly when the centre lies strictly
      inside the barrier grown by half the width on the left and right and by
      half the height above and below. */
  predicate IsRectColliding(centred: Rect, r: Rect)
    ensures IsRectColliding(centred, r) <==>
              Inside(Point(centred.x, centred.y),
                     Rect(r.x - centred.width / 2.0, r.y - centred.height / 2.0,
                          r.width + centred.width, r.height + centred.height))
  {
    && centred.x - centred.width / 2.0 < r.x + r.width
    && centred.x + centred.width / 2.0 > r.x
    && centred.y - centred.height / 2.0 < r.y + r.height
    && centred.y + centred.height / 2.0 > r.y
  }

  /** isTankCollidingWithBarriers: the tank, taken as a square of side
      TANK_WIDTH centred on its position, overlaps some barrier; that is, its
      centre lies strictly inside some barrier grown by half a tank width.
      Without barriers nothing is hit. */
  predicate TankHitsBarriers(pos: Point, tankWidth: real, barriers: seq<Rect>)
    ensures TankHitsBarriers(pos, tankWidth, barriers) <==> InsideAny(pos, GrownAll(barriers, tankWidth / 2.0))
    ensures barriers == [] ==> !TankHitsBarriers(pos, tankWidth, barriers)
  {
    exists i :: 0 <= i < |barriers| && IsRectColliding(Rect(pos.x, pos.y, tankWidth, tankWidth), barriers[i])
  }

  /** The point lies strictly inside the rectangle (the test used for bullets
      against barriers, for line of sight and for cover spots). */
  predicate Inside(p: Point, r: Rect)
  {
    p.x > r.x && p.x < r.x + r.width && p.y > r.y && p.y < r.y + r.height
  }

  /** The rectangle grown by `m` on every side. */
  function Grow(r: Rect, m: real): (g: Rect)
    ensures forall p :: Inside(p, g) <==>
      p.x > r.x - m && p.x < r.x + r.width + m && p.y > r.y - m && p.y < r.y + r.height + m
  {
    Rect(r.x - m, r.y - m, r.width + 2.0 * m, r.height + 2.0 * m)
  }

  predicate InsideAny(p: Point, barriers: seq<Rect>)
  {
    exists i :: 0 <= i < |barriers| && Inside(p, barriers[i])
  }

  /** Every barrier grown by `m`. */
  function GrownAll(barriers: seq<Rect>, m: real): (r: seq<Rect>)
    ensures |r| == |barriers|
    ensures forall i :: 0 <= i < |r| ==> r[i] == Grow(barriers[i], m)
  {
    seq(|barriers|, i requires 0 <= i < |barriers| => Grow(barriers[i], m))
  }

  /** Number of samples isLineOfSightClear takes: floor(distance / BULLET_SIZE). */
  function SightSteps(m: Platform, p1: Point, p2: Point): int
  {
    (m.hypot(p2.x - p1.x, p2.y - p1.y) / BULLET_SIZE).Floor
  }

  /** The i-th of `steps` evenly spaced samples between p1 and p2: sample 0
      is p1 and sample `steps` is p2. */
  function Sample(p1: Point, p2: Point, i: int, steps: int): (r: Point)
    requires steps > 0
    ensures i == 0 ==> r == p1
    ensures i == steps ==> r == p2
  {
    Point(p1.x + ((p2.x - p1.x) * (i as real)) / (steps as real),
          p1.y + ((p2.y - p1.y) * (i as real)) / (steps as real))
  }

  predicate SampleBlocked(p1: Point, p2: Point, i: int, steps: int, barriers: seq<Rect>)
    requires steps > 0
  {
    InsideAny(Sample(p1, p2, i, steps), barriers)
  }

  /** isLineOfSightClear: no interior sample point 1 .. steps-1 lies strictly
      inside a barrier. The end points (samples 0 and steps) are not tested, so
      a sight line shorter than two sample steps is always clear, and so is
      every sight line when there are no barriers. */
  predicate LineOfSightClear(m: Platform, barriers: seq<Rect>, p1: Point, p2: Point)
    ensures SightSteps(m, p1, p2) <= 1 ==> LineOfSightClear(m, barriers, p1, p2)
    ensures barriers == [] ==> LineOfSightClear(m, barriers, p1, p2)
  {
    var steps := SightSteps(m, p1, p2);
    forall i :: 1 <= i < steps ==> !SampleBlocked(p1, p2, i, steps, barriers)
  }
}
