/**
 * The Sterimol parameters of the steric engine (`dbstep/sterics.py`): the length L
 * along the z-axis, the largest width B5 (Bmax) and the smallest width B1 (Bmin),
 * measured either from van der Waals spheres (the classic Verloop form) or from an
 * occupancy grid. cos, sin, hypot and sqrt are left uninterpreted: they are passed
 * in as functions, and the lemmas that need their geometry say so in `requires`.
 */
module Sterimol {
  import opened Wrappers
  import opened Numerics
  import opened Seqs
  import opened Geometry
  import Grid

  /** The number of directions of the angular sweep: one per degree, both ends of the circle included. */
  const Increments: nat := 361

  /** `numpy.linspace(-pi, -pi + 2 pi, 361)`: the sweep directions. */
  function SweepAngles(): (r: seq<real>)
    ensures |r| == Increments
    ensures r[0] == -Pi && r[Increments - 1] == Pi
  {
    Grid.Linspace(-Pi, -Pi + 2.0 * Pi, Increments)
  }

  /** The planar projection of a point onto the direction (c, s). */
  function Project(p: Point, c: real, s: real): real {
    p.x * c + p.y * s
  }

  /** The reach of each atom along the direction (c, s): its projection pushed out by its radius. */
  function Reaches(coords: seq<Point>, radii: seq<real>, c: real, s: real): seq<real>
    requires |coords| <= |radii|
  {
    seq(|coords|, i requires 0 <= i < |coords| => Project(coords[i], c, s) + radii[i])
  }

  /** For each sweep direction, the farthest reach of any atom, never below 0.0. */
  function AngleValues(coords: seq<Point>, radii: seq<real>, cos: real -> real, sin: real -> real): seq<real>
    requires |coords| <= |radii|
  {
    var angles := SweepAngles();
    seq(Increments, k requires 0 <= k < Increments =>
      RunningMax(0.0, Reaches(coords, radii, cos(angles[k]), sin(angles[k]))))
  }

  /** The height of each atom above or below the basal plane, pushed out by its radius. */
  function Lengths(coords: seq<Point>, radii: seq<real>): seq<real>
    requires |coords| <= |radii|
  {
    seq(|coords|, i requires 0 <= i < |coords| => Abs(coords[i].z) + radii[i])
  }

  /** The distance of each atom from the z-axis, pushed out by its radius. */
  function Widths(coords: seq<Point>, radii: seq<real>, hypot: (real, real) -> real): seq<real>
    requires |coords| <= |radii|
  {
    seq(|coords|, i requires 0 <= i < |coords| => hypot(coords[i].x, coords[i].y) + radii[i])
  }

  /**
   * `get_classic_sterimol`: L is the largest `|z| + radius`, Bmax the largest
   * `hypot(x, y) + radius`, both never below 0.0; Bmin is the smallest, over the
   * 361 sweep directions, of the farthest reach in that direction. At least one
   * atom is needed: with none, the Bmin marker reads coordinates never assigned.
   */
  method ClassicSterimol(coords: seq<Point>, radii: seq<real>,
                         cos: real -> real, sin: real -> real, hypot: (real, real) -> real)
    returns (L: real, bmax: real, bmin: real, b5Atom: Option<nat>, b1Angle: Option<nat>)
    requires 0 < |coords| <= |radii|
    ensures 0.0 <= L && forall n :: 0 <= n < |coords| ==> Abs(coords[n].z) + radii[n] <= L
    ensures L == 0.0 || exists n :: 0 <= n < |coords| && Abs(coords[n].z) + radii[n] == L
    ensures 0.0 <= bmax && forall n :: 0 <= n < |coords| ==> hypot(coords[n].x, coords[n].y) + radii[n] <= bmax
    ensures bmax == 0.0 || exists n :: 0 <= n < |coords| && hypot(coords[n].x, coords[n].y) + radii[n] == bmax
    ensures bmax == RunningMax(0.0, Widths(coords, radii, hypot))
    ensures IsFirstMax(Widths(coords, radii, hypot), 0.0, bmax, b5Atom)
    ensures bmin == RunningMin(FloatMax, AngleValues(coords, radii, cos, sin))
    ensures IsFirstMin(AngleValues(coords, radii, cos, sin), FloatMax, bmin, b1Angle)
  {
    ghost var lengths, widths := Lengths(coords, radii), Widths(coords, radii, hypot);
    L, bmax := 0.0, 0.0;
    b5Atom := None;
    var n := 0;
    while n < |coords|
      invariant n <= |coords|
      invariant L == RunningMax(0.0, lengths[..n])
      invariant bmax == RunningMax(0.0, widths[..n])
      invariant IsFirstMax(widths[..n], 0.0, bmax, b5Atom)
    {
      var length := Abs(coords[n].z) + radii[n];
      var radius := hypot(coords[n].x, coords[n].y) + radii[n];
      assert length == lengths[n] && radius == widths[n];
      RunningMaxStep(0.0, lengths, n);
      MaxStep(widths, 0.0, bmax, b5Atom, n);
      if length > L {
        L := length;
      }
      if radius > bmax {
        bmax, b5Atom := radius, Some(n);
      }
      n := n + 1;
    }
    assert lengths[..n] == lengths && widths[..n] == widths;
    LengthIsLargest(coords, radii);
    WidthIsLargest(coords, radii, hypot);
    bmin, b1Angle := SweepMin(coords, radii, cos, sin);
  }

  /** The inner loop of the classic sweep: the farthest reach of any atom along (c, s), never below 0.0. */
  method FarthestReach(coords: seq<Point>, radii: seq<real>, c: real, s: real) returns (angleVal: real)
    requires |coords| <= |radii|
    ensures angleVal == RunningMax(0.0, Reaches(coords, radii, c, s))
  {
    ghost var reaches := Reaches(coords, radii, c, s);
    angleVal := 0.0;
    var i := 0;
    while i < |coords|
      invariant i <= |coords|
      invariant angleVal == RunningMax(0.0, reaches[..i])
    {
      RunningMaxStep(0.0, reaches, i);
      var radius := Project(coords[i], c, s) + radii[i];
      if radius > angleVal {
        angleVal := radius;
      }
      i := i + 1;
    }
    assert reaches[..i] == reaches;
  }

  /** L bounds every atom's height plus radius and, unless it is 0.0, is attained by one. */
  lemma LengthIsLargest(coords: seq<Point>, radii: seq<real>)
    requires |coords| <= |radii|
    ensures var L := RunningMax(0.0, Lengths(coords, radii));
      && (forall n :: 0 <= n < |coords| ==> Abs(coords[n].z) + radii[n] <= L)
      && (L == 0.0 || exists n :: 0 <= n < |coords| && Abs(coords[n].z) + radii[n] == L)
  {
    var lengths := Lengths(coords, radii);
    var L := RunningMax(0.0, lengths);
    RunningMaxBounds(0.0, lengths);
    forall n | 0 <= n < |coords| ensures Abs(coords[n].z) + radii[n] <= L {
      assert lengths[n] == Abs(coords[n].z) + radii[n];
    }
    if L != 0.0 {
      var j :| 0 <= j < |lengths| && lengths[j] == L;
      assert Abs(coords[j].z) + radii[j] == L;
    }
  }

  /** Bmax bounds every atom's distance from the axis plus radius and, unless it is 0.0, is attained by one. */
  lemma WidthIsLargest(coords: seq<Point>, radii: seq<real>, hypot: (real, real) -> real)
    requires |coords| <= |radii|
    ensures var bmax := RunningMax(0.0, Widths(coords, radii, hypot));
      && (forall n :: 0 <= n < |coords| ==> hypot(coords[n].x, coords[n].y) + radii[n] <= bmax)
      && (bmax == 0.0 || exists n :: 0 <= n < |coords| && hypot(coords[n].x, coords[n].y) + radii[n] == bmax)
  {
    var widths := Widths(coords, radii, hypot);
    var bmax := RunningMax(0.0, widths);
    RunningMaxBounds(0.0, widths);
    forall n | 0 <= n < |coords| ensures hypot(coords[n].x, coords[n].y) + radii[n] <= bmax {
      assert widths[n] == hypot(coords[n].x, coords[n].y) + radii[n];
    }
    if bmax != 0.0 {
      var j :| 0 <= j < |widths| && widths[j] == bmax;
      assert hypot(coords[j].x, coords[j].y) + radii[j] == bmax;
    }
  }

  /** The angular sweep of `get_classic_sterimol`: the running minimum, from the float maximum, of the per-direction reaches. */
  method SweepMin(coords: seq<Point>, radii: seq<real>, cos: real -> real, sin: real -> real)
    returns (bmin: real, b1Angle: Option<nat>)
    requires |coords| <= |radii|
    ensures bmin == RunningMin(FloatMax, AngleValues(coords, radii, cos, sin))
    ensures IsFirstMin(AngleValues(coords, radii, cos, sin), FloatMax, bmin, b1Angle)
  {
    var angles := SweepAngles();
    ghost var values := AngleValues(coords, radii, cos, sin);
    bmin, b1Angle := FloatMax, None;
    var k := 0;
    while k < Increments
      invariant k <= Increments
      invariant bmin == RunningMin(FloatMax, values[..k])
      invariant IsFirstMin(values[..k], FloatMax, bmin, b1Angle)
    {
      var angleVal := FarthestReach(coords, radii, cos(angles[k]), sin(angles[k]));
      assert values[k] == angleVal;
      MinStep(values, FloatMax, bmin, b1Angle, k);
      if bmin > angleVal {
        bmin, b1Angle := angleVal, Some(k);
      }
      k := k + 1;
    }
    assert values[..k] == values;
  }

  /** The projections of the grid points onto the direction (c, s). */
  function ScanProjections(grid: seq<Point>, c: real, s: real): seq<real> {
    seq(|grid|, i requires 0 <= i < |grid| => Project(grid[i], c, s))
  }

  /**
   * `parallel_grid_scan`: the farthest projection of any grid point onto the
   * direction `angle`, or 0.0 when no point projects forward.
   */
  method ParallelGridScan(grid: seq<Point>, angle: real, cos: real -> real, sin: real -> real)
    returns (rmax: real)
    ensures rmax == RunningMax(0.0, ScanProjections(grid, cos(angle), sin(angle)))
    ensures 0.0 <= rmax
    ensures forall i :: 0 <= i < |grid| ==> Project(grid[i], cos(angle), sin(angle)) <= rmax
    ensures rmax == 0.0 || exists i :: 0 <= i < |grid| && Project(grid[i], cos(angle), sin(angle)) == rmax
  {
    var c, s := cos(angle), sin(angle);
    ghost var proj := ScanProjections(grid, c, s);
    rmax := 0.0;
    var i := 0;
    while i < |grid|
      invariant i <= |grid|
      invariant rmax == RunningMax(0.0, proj[..i])
    {
      RunningMaxStep(0.0, proj, i);
      var r := Project(grid[i], c, s);
      if r > rmax {
        rmax := r;
      }
      i := i + 1;
    }
    assert proj[..i] == proj;
    RunningMaxBounds(0.0, proj);
    forall j | 0 <= j < |grid| ensures Project(grid[j], c, s) <= rmax {
      assert proj[j] == Project(grid[j], c, s);
    }
    if rmax != 0.0 {
      ghost var j :| 0 <= j < |proj| && proj[j] == rmax;
    }
  }

  /** A grid point lies in the horizontal slab of half-width `w` around height `R` (on either side of the plane). */
  predicate InStrip(p: Point, R: real, w: real) {
    Abs(p.z) <= R + w && Abs(p.z) > R - w
  }

  /** The slab mask over a grid. */
  function StripMask(grid: seq<Point>, R: real, w: real): (m: seq<bool>)
    ensures |m| == |grid|
  {
    seq(|grid|, i requires 0 <= i < |grid| => InStrip(grid[i], R, w))
  }

  /** The layer `get_cube_sterimol` works on: the slab when `w` is non-zero, otherwise the whole grid, order kept. */
  function Slab(grid: seq<Point>, R: real, w: real): (r: seq<Point>)
    ensures w == 0.0 ==> r == grid
    ensures forall p :: p in r <==> p in grid && (w != 0.0 ==> InStrip(p, R, w))
  {
    if w != 0.0 then
      SelectElements(grid, StripMask(grid, R, w));
      Select(grid, StripMask(grid, R, w))
    else grid
  }

  /** For each sweep direction, the result of `parallel_grid_scan` on the layer. */
  function GridScans(xy: seq<Point>, cos: real -> real, sin: real -> real): (r: seq<real>)
    ensures |r| == Increments
  {
    var angles := SweepAngles();
    seq(Increments, k requires 0 <= k < Increments =>
      RunningMax(0.0, ScanProjections(xy, cos(angles[k]), sin(angles[k]))))
  }

  /** Which scans are kept: a zero radius is taken to mean that nothing lies in that direction. */
  function NonZero(s: seq<real>): (m: seq<bool>)
    ensures |m| == |s|
  {
    seq(|s|, i requires 0 <= i < |s| => s[i] != 0.0)
  }

  /**
   * `min(max_r)` over the kept scans, or the float maximum when none is kept: Bmin is at
   * most every non-zero scan and is one of them, or it is the float maximum and every scan is zero.
   */
  function CubeBmin(scans: seq<real>): (b: real)
    ensures forall k :: 0 <= k < |scans| && scans[k] != 0.0 ==> b <= scans[k]
    ensures (b == FloatMax && forall k :: 0 <= k < |scans| ==> scans[k] == 0.0)
         || (exists k :: 0 <= k < |scans| && scans[k] != 0.0 && scans[k] == b)
  {
    var kept := Select(scans, NonZero(scans));
    KeptNonZero(scans);
    if |kept| > 0 then Min(kept) else FloatMax
  }

  /** Every non-zero scan is kept, so the kept minimum is below it, and that minimum is itself a non-zero scan. */
  lemma KeptNonZero(scans: seq<real>)
    ensures var kept := Select(scans, NonZero(scans));
      forall k :: 0 <= k < |scans| && scans[k] != 0.0 ==> |kept| > 0 && Min(kept) <= scans[k]
    ensures var kept := Select(scans, NonZero(scans));
      |kept| > 0 ==> exists k :: 0 <= k < |scans| && scans[k] != 0.0 && scans[k] == Min(kept)
  {
    var mask := NonZero(scans);
    var kept := Select(scans, mask);
    forall k | 0 <= k < |scans| && scans[k] != 0.0 ensures |kept| > 0 && Min(kept) <= scans[k] {
      SelectAt(scans, mask, k);
    }
    if |kept| > 0 {
      var j :| 0 <= j < |kept| && kept[j] == Min(kept);
      var i := SelectFrom(scans, mask, j);
    }
  }

  /** The in-plane distance of each layer point from the z-axis. */
  function PlanarRadii(xy: seq<Point>, sqrt: real -> real): seq<real> {
    seq(|xy|, i requires 0 <= i < |xy| => sqrt(NormSquared(xy[i])))
  }

  /** The squared distance of a point from the z-axis. */
  function NormSquared(p: Point): real {
    p.x * p.x + p.y * p.y
  }

  /** The angle loop of `get_cube_sterimol`: the non-zero scans over the 361 directions, in sweep order. */
  method NonZeroScans(xy: seq<Point>, cos: real -> real, sin: real -> real) returns (maxR: seq<real>)
    ensures maxR == Select(GridScans(xy, cos, sin), NonZero(GridScans(xy, cos, sin)))
  {
    var angles := SweepAngles();
    ghost var scans := GridScans(xy, cos, sin);
    maxR := [];
    var k := 0;
    while k < Increments
      invariant k <= Increments
      invariant maxR == Select(scans[..k], NonZero(scans)[..k])
    {
      var rmax := ParallelGridScan(xy, angles[k], cos, sin);
      assert scans[..k + 1][..k] == scans[..k];
      assert NonZero(scans)[..k + 1][..k] == NonZero(scans)[..k];
      if rmax != 0.0 {
        maxR := maxR + [rmax];
      }
      k := k + 1;
    }
    assert scans[..k] == scans && NonZero(scans)[..k] == NonZero(scans);
  }

  /**
   * `get_cube_sterimol`: on an empty layer all three parameters are 0; otherwise
   * Bmax is the largest distance of a layer point from the z-axis, L the largest
   * signed height, and Bmin the smallest non-zero directional scan.
   */
  method CubeSterimol(occGrid: seq<Point>, R: real, w: real,
                      cos: real -> real, sin: real -> real, sqrt: real -> real)
    returns (L: real, bmax: real, bmin: real)
    ensures var xy := Slab(occGrid, R, w);
      |xy| == 0 ==> L == 0.0 && bmax == 0.0 && bmin == 0.0
    ensures var xy := Slab(occGrid, R, w);
      |xy| > 0 ==> (forall i :: 0 <= i < |xy| ==> xy[i].z <= L) && (exists i :: 0 <= i < |xy| && xy[i].z == L)
    ensures var xy := Slab(occGrid, R, w);
      |xy| > 0 ==> bmax == Max(PlanarRadii(xy, sqrt))
    ensures var xy := Slab(occGrid, R, w);
      |xy| > 0 ==> bmin == CubeBmin(GridScans(xy, cos, sin))
  {
    var xy := Slab(occGrid, R, w);
    if |xy| == 0 {
      return 0.0, 0.0, 0.0;
    }
    bmax := Max(PlanarRadii(xy, sqrt));
    var zs := seq(|xy|, i requires 0 <= i < |xy| => xy[i].z);
    L := Max(zs);
    assert forall i :: 0 <= i < |xy| ==> zs[i] == xy[i].z;

    var maxR := NonZeroScans(xy, cos, sin);
    bmin := FloatMax;
    if |maxR| > 0 {
      bmin := Min(maxR);
    }
  }

  /** Cauchy-Schwarz in the plane: no projection onto a unit direction exceeds the distance from the origin. */
  lemma ProjectionWithinHypot(x: real, y: real, c: real, s: real, h: real)
    requires c * c + s * s == 1.0
    requires h >= 0.0 && h * h == x * x + y * y
    ensures x * c + y * s <= h
  {
    var p := x * c + y * s;
    var d := x * s - y * c;
    assert (x * x + y * y) * (c * c + s * s) == p * p + d * d;
    assert d * d >= 0.0;
    assert p * p <= h * h;
    SquareRootMonotone(p, h);
  }

  /** A number whose square is at most the square of a non-negative `h` is at most `h`. */
  lemma SquareRootMonotone(p: real, h: real)
    requires h >= 0.0 && p * p <= h * h
    ensures p <= h
  {
    if p > -h {
      assert (h - p) * (h + p) == h * h - p * p;
      NonNegativeFactor(h - p, h + p);
    }
  }

  /** A point's projection onto a unit direction is at most its hypot. */
  lemma ProjectWithinHypot(p: Point, c: real, s: real, hypot: (real, real) -> real)
    requires c * c + s * s == 1.0
    requires forall x, y :: hypot(x, y) >= 0.0 && hypot(x, y) * hypot(x, y) == x * x + y * y
    ensures Project(p, c, s) <= hypot(p.x, p.y)
  {
    var h := hypot(p.x, p.y);
    assert h >= 0.0 && h * h == p.x * p.x + p.y * p.y;
    ProjectionWithinHypot(p.x, p.y, c, s, h);
  }

  /** Every sweep direction's reach is bounded by Bmax, when hypot is the Euclidean norm and (cos, sin) a unit vector. */
  lemma {:induction false} ReachWithinWidth(coords: seq<Point>, radii: seq<real>, c: real, s: real,
                                            hypot: (real, real) -> real)
    requires |coords| <= |radii|
    requires c * c + s * s == 1.0
    requires forall x, y :: hypot(x, y) >= 0.0 && hypot(x, y) * hypot(x, y) == x * x + y * y
    ensures RunningMax(0.0, Reaches(coords, radii, c, s)) <= RunningMax(0.0, Widths(coords, radii, hypot))
  {
    var reaches, widths := Reaches(coords, radii, c, s), Widths(coords, radii, hypot);
    var m := RunningMax(0.0, reaches);
    RunningMaxBounds(0.0, reaches);
    RunningMaxBounds(0.0, widths);
    if m != 0.0 {
      var i :| 0 <= i < |reaches| && reaches[i] == m;
      ProjectWithinHypot(coords[i], c, s, hypot);
      assert reaches[i] == Project(coords[i], c, s) + radii[i];
      assert widths[i] == hypot(coords[i].x, coords[i].y) + radii[i];
      assert widths[i] <= RunningMax(0.0, widths);
    } else {
      assert 0.0 <= RunningMax(0.0, widths);
    }
  }

  /**
   * The classic B1 never exceeds the classic B5: the narrowest width over the sweep is
   * at most the widest, once hypot is the Euclidean norm and cos and sin lie on the unit circle.
   */
  lemma ClassicBminAtMostBmax(coords: seq<Point>, radii: seq<real>,
                              cos: real -> real, sin: real -> real, hypot: (real, real) -> real)
    requires |coords| <= |radii|
    requires forall t :: cos(t) * cos(t) + sin(t) * sin(t) == 1.0
    requires forall x, y :: hypot(x, y) >= 0.0 && hypot(x, y) * hypot(x, y) == x * x + y * y
    ensures RunningMin(FloatMax, AngleValues(coords, radii, cos, sin)) <= RunningMax(0.0, Widths(coords, radii, hypot))
  {
    var angles := SweepAngles();
    var values := AngleValues(coords, radii, cos, sin);
    ReachWithinWidth(coords, radii, cos(angles[0]), sin(angles[0]), hypot);
    RunningMinBounds(FloatMax, values);
    assert values[0] == RunningMax(0.0, Reaches(coords, radii, cos(angles[0]), sin(angles[0])));
  }

  /** The classic Bmin is never negative: each direction's reach starts from 0.0. */
  lemma ClassicBminNonNegative(coords: seq<Point>, radii: seq<real>, cos: real -> real, sin: real -> real)
    requires |coords| <= |radii|
    ensures 0.0 <= RunningMin(FloatMax, AngleValues(coords, radii, cos, sin))
  {
    var values := AngleValues(coords, radii, cos, sin);
    var m := RunningMin(FloatMax, values);
    RunningMinBounds(FloatMax, values);
    if m != FloatMax {
      var k :| 0 <= k < |values| && values[k] == m;
      RunningMaxBounds(0.0, Reaches(coords, radii, cos(SweepAngles()[k]), sin(SweepAngles()[k])));
    }
  }

  /** A point's projection onto a unit direction is at most its distance from the z-axis, and that distance is not negative. */
  lemma ProjectWithinRadius(p: Point, c: real, s: real, sqrt: real -> real)
    requires c * c + s * s == 1.0
    requires forall v :: v >= 0.0 ==> sqrt(v) >= 0.0 && sqrt(v) * sqrt(v) == v
    ensures 0.0 <= sqrt(NormSquared(p)) && Project(p, c, s) <= sqrt(NormSquared(p))
  {
    var v := NormSquared(p);
    assert v >= 0.0;
    var h := sqrt(v);
    assert h >= 0.0 && h * h == v;
    ProjectionWithinHypot(p.x, p.y, c, s, h);
  }

  /** A scan of a non-empty layer never exceeds the layer's largest distance from the z-axis. */
  lemma {:induction false} ScanWithinRadius(xy: seq<Point>, c: real, s: real, sqrt: real -> real)
    requires |xy| > 0
    requires c * c + s * s == 1.0
    requires forall v :: v >= 0.0 ==> sqrt(v) >= 0.0 && sqrt(v) * sqrt(v) == v
    ensures RunningMax(0.0, ScanProjections(xy, c, s)) <= Max(PlanarRadii(xy, sqrt))
  {
    var proj := ScanProjections(xy, c, s);
    var radii := PlanarRadii(xy, sqrt);
    var m := RunningMax(0.0, proj);
    RunningMaxBounds(0.0, proj);
    var i: nat := 0;
    if m != 0.0 {
      i :| 0 <= i < |proj| && proj[i] == m;
    }
    ProjectWithinRadius(xy[i], c, s, sqrt);
    assert proj[i] == Project(xy[i], c, s) && radii[i] == sqrt(NormSquared(xy[i]));
    assert radii[i] <= Max(radii);
  }

  /**
   * On a non-empty layer whose scan `k` is non-zero, the grid B1 never exceeds the grid
   * B5, once sqrt is the square root and cos and sin lie on the unit circle.
   */
  lemma CubeBminAtMostBmax(xy: seq<Point>, cos: real -> real, sin: real -> real, sqrt: real -> real, k: nat)
    requires |xy| > 0
    requires forall t :: cos(t) * cos(t) + sin(t) * sin(t) == 1.0
    requires forall v :: v >= 0.0 ==> sqrt(v) >= 0.0 && sqrt(v) * sqrt(v) == v
    requires k < Increments && GridScans(xy, cos, sin)[k] != 0.0
    ensures CubeBmin(GridScans(xy, cos, sin)) <= Max(PlanarRadii(xy, sqrt))
  {
    var scans := GridScans(xy, cos, sin);
    var angles := SweepAngles();
    var c, s := cos(angles[k]), sin(angles[k]);
    assert c * c + s * s == 1.0;
    assert scans[k] == RunningMax(0.0, ScanProjections(xy, c, s));
    ScanWithinRadius(xy, c, s, sqrt);
  }
}
