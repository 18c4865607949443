/**
 * Points in Cartesian space and the ball query that the steric engine asks of
 * scipy's k-d tree (`cKDTree.query_ball_point`): all points whose Euclidean
 * distance from a centre is at most a radius. Distances are compared squared, so
 * no square root is needed.
 */
module Geometry {

  datatype Axis = X | Y | Z

  datatype Point = Point(x: real, y: real, z: real) {
    function At(a: Axis): real {
      match a
      case X => x
      case Y => y
      case Z => z
    }

    function Plus(o: Point): (r: Point)
      ensures forall a: Axis :: r.At(a) == At(a) + o.At(a)
    {
      Point(x + o.x, y + o.y, z + o.z)
    }
  }

  function Dist2(p: Point, c: Point): (d: real)
    ensures d >= 0.0
  {
    (p.x - c.x) * (p.x - c.x) + (p.y - c.y) * (p.y - c.y) + (p.z - c.z) * (p.z - c.z)
  }

  /** `p` lies in the closed ball of radius `r` about `c`; a negative radius holds nothing. */
  predicate InBall(p: Point, c: Point, r: real)
  {
    r >= 0.0 && Dist2(p, c) <= r * r
  }

  /** A ball holds everything a smaller concentric ball holds. */
  lemma InBallMonotone(p: Point, c: Point, r1: real, r2: real)
    requires r1 <= r2 && InBall(p, c, r1)
    ensures InBall(p, c, r2)
  {
    assert r1 * r1 <= r1 * r2 <= r2 * r2;
  }

  /** `len(cKDTree(pts).query_ball_point(c, r))`: how many entries of `pts` lie within `r` of `c`. */
  function CountWithin(pts: seq<Point>, c: Point, r: real): (n: nat)
    ensures n <= |pts|
    decreases |pts|
  {
    if pts == [] then 0
    else CountWithin(pts[..|pts| - 1], c, r) + (if InBall(pts[|pts| - 1], c, r) then 1 else 0)
  }

  /** The ball count never decreases as the radius grows. */
  lemma {:induction false} CountWithinMonotone(pts: seq<Point>, c: Point, r1: real, r2: real)
    requires r1 <= r2
    ensures CountWithin(pts, c, r1) <= CountWithin(pts, c, r2)
    decreases |pts|
  {
    if pts != [] {
      CountWithinMonotone(pts[..|pts| - 1], c, r1, r2);
      if InBall(pts[|pts| - 1], c, r1) {
        InBallMonotone(pts[|pts| - 1], c, r1, r2);
      }
    }
  }

  /** Removing the entry at `k` lowers the count by one exactly when that entry is in the ball. */
  lemma {:induction false} CountWithinRemove(pts: seq<Point>, c: Point, r: real, k: nat)
    requires k < |pts|
    ensures CountWithin(pts, c, r)
         == CountWithin(pts[..k] + pts[k + 1..], c, r) + (if InBall(pts[k], c, r) then 1 else 0)
    decreases |pts|
  {
    var n := |pts| - 1;
    if k < n {
      var rest := pts[..k] + pts[k + 1..];
      CountWithinRemove(pts[..n], c, r, k);
      assert pts[..n][..k] + pts[..n][k + 1..] == rest[..|rest| - 1];
    } else {
      assert pts[..k] + pts[k + 1..] == pts[..n];
    }
  }

  /** A sub-multiset of points has no more points in any ball. */
  lemma {:induction false} CountWithinSubMultiset(a: seq<Point>, b: seq<Point>, c: Point, r: real)
    requires multiset(a) <= multiset(b)
    ensures CountWithin(a, c, r) <= CountWithin(b, c, r)
    decreases |a|
  {
    if a != [] {
      var n := |a| - 1;
      var x := a[n];
      assert a == a[..n] + [x];
      assert x in multiset(b);
      var k :| 0 <= k < |b| && b[k] == x;
      var rest := b[..k] + b[k + 1..];
      assert b == b[..k] + [x] + b[k + 1..];
      assert multiset(rest) == multiset(b) - multiset{x};
      assert multiset(a[..n]) <= multiset(rest);
      CountWithinSubMultiset(a[..n], rest, c, r);
      CountWithinRemove(b, c, r, k);
    }
  }

  /** A ball of negative radius holds none of the points. */
  lemma {:induction false} CountWithinNegative(pts: seq<Point>, c: Point, r: real)
    requires r < 0.0
    ensures CountWithin(pts, c, r) == 0
    decreases |pts|
  {
    if pts != [] {
      CountWithinNegative(pts[..|pts| - 1], c, r);
    }
  }
}
