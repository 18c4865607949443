/**
 * The occupancy classifier of the steric engine (`dbstep/sterics.py`): which grid
 * points lie inside the molecule, judged by atomic spheres or by electron density.
 */
module Occupancy {
  import opened Wrappers
  import opened Seqs
  import opened Geometry

  /** numpy fancy indexing `s[idx]`: the selected entries, or an `IndexError` (None) if an index is out of range. */
  function Gather<T>(s: seq<T>, idx: seq<nat>): (r: Option<seq<T>>)
    ensures r.Some? <==> forall k :: 0 <= k < |idx| ==> idx[k] < |s|
    ensures r.Some? ==> |r.value| == |idx| && forall k :: 0 <= k < |idx| ==> r.value[k] == s[idx[k]]
  {
    if forall k :: 0 <= k < |idx| ==> idx[k] < |s| then
      Some(seq(|idx|, k requires 0 <= k < |idx| => s[idx[k]]))
    else None
  }

  /**
   * Gathering pairwise distinct indices picks each entry of `s` at most once, so the
   * gathered points are a sub-multiset of `s`.
   */
  lemma {:induction false} GatherDistinct<T>(s: seq<T>, idx: seq<nat>, r: seq<T>)
    requires NoDuplicates(idx) && Gather(s, idx) == Some(r)
    ensures multiset(r) <= multiset(s)
    decreases |s|
  {
    if |idx| == 0 {
      assert r == [];
    } else {
      assert idx[0] < |s|;
      var n := |s| - 1;
      assert s == s[..n] + [s[n]];
      if p :| 0 <= p < |idx| && idx[p] == n {
        var rest := Drop(idx, p);
        DropKeepsDistinct(idx, p);
        GatherDrop(s, idx, r, p);
        GatherPrefix(s, rest, Drop(r, p), n);
        GatherDistinct(s[..n], rest, Drop(r, p));
        MultisetDrop(r, p);
      } else {
        GatherPrefix(s, idx, r, n);
        GatherDistinct(s[..n], idx, r);
      }
    }
  }

  /** `s` without its entry at `p`. */
  function Drop<T>(s: seq<T>, p: nat): (r: seq<T>)
    requires p < |s|
    ensures |r| == |s| - 1
    ensures forall k :: 0 <= k < |r| ==> r[k] == if k < p then s[k] else s[k + 1]
  {
    s[..p] + s[p + 1..]
  }

  lemma MultisetDrop<T>(s: seq<T>, p: nat)
    requires p < |s|
    ensures multiset(s) == multiset(Drop(s, p)) + multiset{s[p]}
  {
    assert s == s[..p] + [s[p]] + s[p + 1..];
  }

  /** Dropping the one index equal to the largest position leaves distinct indices all below it. */
  lemma DropKeepsDistinct(idx: seq<nat>, p: nat)
    requires NoDuplicates(idx) && p < |idx|
    ensures NoDuplicates(Drop(idx, p))
    ensures forall k :: 0 <= k < |Drop(idx, p)| ==> Drop(idx, p)[k] != idx[p]
  {
  }

  /** Gathering without the index at `p` gathers the same entries without the one at `p`. */
  lemma GatherDrop<T>(s: seq<T>, idx: seq<nat>, r: seq<T>, p: nat)
    requires Gather(s, idx) == Some(r) && p < |idx|
    ensures Gather(s, Drop(idx, p)) == Some(Drop(r, p))
  {
    var g := Gather(s, Drop(idx, p));
    assert g.Some?;
    assert g.value == Drop(r, p);
  }

  /** Indices all below `n` gather the same entries from the first `n` entries of `s`. */
  lemma GatherPrefix<T>(s: seq<T>, idx: seq<nat>, r: seq<T>, n: nat)
    requires Gather(s, idx) == Some(r) && n <= |s|
    requires forall k :: 0 <= k < |idx| ==> idx[k] != n && idx[k] <= n
    ensures Gather(s[..n], idx) == Some(r)
  {
    var g := Gather(s[..n], idx);
    assert g.Some?;
    assert g.value == r;
  }

  /** Strictly increasing indices are pairwise distinct. */
  lemma IncreasingNoDuplicates(sel: seq<nat>)
    requires StrictlyIncreasing(sel)
    ensures NoDuplicates(sel)
  {
  }

  /** `query_ball_point(center, r)` on a k-d tree of `grid`: the indices of the grid points in the ball. */
  function BallQuery(grid: seq<Point>, center: Point, r: real): (idx: set<nat>)
    ensures forall i: nat :: i in idx <==> i < |grid| && InBall(grid[i], center, r)
  {
    set i: nat | i < |grid| && InBall(grid[i], center, r)
  }

  /** Grid point `i` lies in the sphere of some atom, centred at the atom's position shifted by `origin`. */
  ghost predicate Covered(grid: seq<Point>, coords: seq<Point>, radii: seq<real>, origin: Point, i: nat)
    requires |coords| <= |radii| && i < |grid|
  {
    exists n :: 0 <= n < |coords| && InBall(grid[i], coords[n].Plus(origin), radii[n])
  }

  /**
   * `occupied`: the grid points inside at least one atomic sphere, each index once.
   * `jdx` is the list of occupied indices; its order is that of a Python set, which nothing relies on.
   */
  method Occupied(grid: seq<Point>, coords: seq<Point>, radii: seq<real>, origin: Point)
    returns (occ: seq<Point>, jdx: seq<nat>)
    requires |coords| <= |radii|
    ensures NoDuplicates(jdx)
    ensures forall i: nat :: i in jdx <==> i < |grid| && Covered(grid, coords, radii, origin, i)
    ensures Gather(grid, jdx) == Some(occ)
  {
    var hits: set<nat> := {};
    var n := 0;
    while n < |coords|
      invariant n <= |coords|
      invariant forall i: nat :: i in hits <==>
        i < |grid| && exists m :: 0 <= m < n && InBall(grid[i], coords[m].Plus(origin), radii[m])
    {
      hits := hits + BallQuery(grid, coords[n].Plus(origin), radii[n]);
      n := n + 1;
    }
    // list(set(jdx)): the union in whatever order the set yields it
    jdx := [];
    var rest := hits;
    while rest != {}
      invariant rest <= hits
      invariant forall i: nat :: i in jdx <==> i in hits && i !in rest
      invariant NoDuplicates(jdx)
      decreases |rest|
    {
      var i :| i in rest;
      jdx := jdx + [i];
      rest := rest - {i};
    }
    assert forall k :: 0 <= k < |jdx| ==> jdx[k] in hits;
    occ := Gather(grid, jdx).value;
  }

  /** `occupied_dens`: the grid points whose density is strictly above the isovalue, in grid order. */
  method OccupiedDens(grid: seq<Point>, dens: seq<real>, isoval: real)
    returns (occ: Option<seq<Point>>, sel: seq<nat>)
    ensures StrictlyIncreasing(sel)
    ensures forall i: nat :: i in sel <==> i < |dens| && dens[i] > isoval
    ensures occ == Gather(grid, sel)
  {
    sel := [];
    var n := 0;
    while n < |dens|
      invariant n <= |dens|
      invariant StrictlyIncreasing(sel)
      invariant forall k :: 0 <= k < |sel| ==> sel[k] < n
      invariant forall i: nat :: i in sel <==> i < n && dens[i] > isoval
    {
      if dens[n] > isoval {
        sel := sel + [n];
      }
      n := n + 1;
    }
    occ := Gather(grid, sel);
  }
}
