/**
 * The percent buried volume of the steric engine (`dbstep/sterics.py`, `buried_vol`):
 * the fraction of the grid points inside a sphere about the origin that are occupied,
 * with the sphere grown by 10% at a time until its grid volume is within 5% of the
 * exact volume, plus the occupancy of a thin shell when a scan along L is running.
 * Python's ZeroDivisionError is an `Err`; the k-d tree counts are `CountWithin`.
 */
module BuriedVolume {
  import opened Wrappers
  import opened Numerics
  import opened Geometry
  import opened Seqs
  import opened Occupancy

  /** The two divisions that can raise ZeroDivisionError. */
  datatype VolumeError =
    | ZeroTotalVolume    // no grid volume inside the sphere: `occ_vol / tot_vol`
    | ZeroSphereVolume   // the exact sphere has no volume: `... / sphere`

  /** One measurement at a fixed radius. */
  datatype Sample = Sample(count: nat, totVol: real, percent: real, volErr: real)

  /** The state the refinement loop leaves behind: final radius, percent buried and volume error. */
  datatype Outcome = Outcome(R: real, percent: real, volErr: real)

  /** What `buried_vol` returns: the percent buried volume and the percent occupancy of the shell. */
  datatype Burial = Burial(percentBuried: real, percentShell: real)

  /** The loop runs while the volume error exceeds this many percent. */
  const Tolerance: real := 5.0

  /** The relative growth of the radius per pass. */
  const Growth: real := 0.1

  function Cubed(x: real): real {
    x * x * x
  }

  /** A cube has the sign of its base. */
  lemma CubedSign(x: real)
    ensures Cubed(x) > 0.0 <==> x > 0.0
    ensures Cubed(x) == 0.0 <==> x == 0.0
  {
    if x > 0.0 {
      assert x * x > 0.0;
      assert x * x * x > 0.0;
    } else if x < 0.0 {
      assert x * x > 0.0;
      assert x * x * x < 0.0;
    }
  }

  /** `4 / 3 * pi * R ** 3`: positive exactly for a positive radius, zero exactly for a zero one. */
  function SphereVolume(R: real): (v: real)
    ensures v > 0.0 <==> R > 0.0
    ensures v == 0.0 <==> R == 0.0
  {
    CubedSign(R);
    4.0 / 3.0 * Pi * Cubed(R)
  }

  /**
   * `4 / 3 * pi * ((R + w/2) ** 3 - (R - w/2) ** 3)`: the exact volume of the shell, which
   * the difference of cubes reduces to `4 / 3 * pi * w * (3 R^2 + w^2 / 4)`.
   */
  function ShellVolume(R: real, w: real): (v: real)
    ensures v == 4.0 / 3.0 * Pi * (w * (3.0 * R * R + 0.25 * w * w))
  {
    var a := 0.5 * w;
    assert Cubed(R + a) - Cubed(R - a) == 2.0 * a * (3.0 * R * R + a * a);
    4.0 / 3.0 * Pi * (Cubed(R + 0.5 * w) - Cubed(R - 0.5 * w))
  }

  /** The volume of `count` grid cubes of volume `cube` each. */
  function Volume(count: nat, cube: real): real {
    count as real * cube
  }

  /** `part / whole * 100.0`. */
  function Percent(part: real, whole: real): real
    requires whole != 0.0
  {
    part / whole * 100.0
  }

  /** One pass of the loop body up to the error check: count, total volume, percent buried and volume error. */
  function Measure(all: seq<Point>, occ: seq<Point>, origin: Point, R: real, cube: real, sphere: real)
    : (r: Result<Sample, VolumeError>)
    ensures r == Err(ZeroTotalVolume) <==> Volume(CountWithin(all, origin, R), cube) == 0.0
    ensures r == Err(ZeroSphereVolume) <==> Volume(CountWithin(all, origin, R), cube) != 0.0 && sphere == 0.0
    ensures r.Ok? ==> r.value.count == CountWithin(all, origin, R) && r.value.totVol == Volume(r.value.count, cube)
  {
    var n := CountWithin(all, origin, R);
    var tot := Volume(n, cube);
    var occVol := Volume(CountWithin(occ, origin, R), cube);
    if tot == 0.0 then Err(ZeroTotalVolume)
    else
      var percent := Percent(occVol, tot);
      if sphere == 0.0 then Err(ZeroSphereVolume)
      else Ok(Sample(n, tot, percent, Percent(Abs(tot - sphere), sphere)))
  }

  /**
   * The bookkeeping that makes the loop terminate: either no pass has been accepted
   * yet (`prevCount == -1`), or `oldVol` is the volume counted at an earlier, no larger radius `prevR`.
   */
  ghost predicate Tracked(all: seq<Point>, origin: Point, cube: real, R: real, oldVol: real, prevCount: int, prevR: real) {
    || prevCount == -1
    || (0.0 <= prevR <= R && cube != 0.0 && prevCount == CountWithin(all, origin, prevR)
        && oldVol == Volume(prevCount, cube))
  }

  /** An accepted pass counted strictly more points than the previous one, and the grown radius keeps the bookkeeping. */
  lemma Progress(all: seq<Point>, occ: seq<Point>, origin: Point, cube: real, sphere: real,
                 R: real, oldVol: real, prevCount: int, prevR: real)
    requires Tracked(all, origin, cube, R, oldVol, prevCount, prevR)
    requires Measure(all, occ, origin, R, cube, sphere).Ok?
    requires Measure(all, occ, origin, R, cube, sphere).value.totVol != oldVol
    ensures prevCount < Measure(all, occ, origin, R, cube, sphere).value.count
    ensures var s := Measure(all, occ, origin, R, cube, sphere).value;
      Tracked(all, origin, cube, R + R * Growth, s.totVol, s.count, R)
  {
    var s := Measure(all, occ, origin, R, cube, sphere).value;
    if R < 0.0 {
      CountWithinNegative(all, origin, R);
    }
    assert cube != 0.0 && R >= 0.0;
    if prevCount != -1 {
      CountWithinMonotone(all, origin, prevR, R);
      assert prevCount != s.count;
    }
  }

  /**
   * The loop of `buried_vol`, entered with the volume error above the tolerance:
   * measure; stop with the previous percentage if the volume did not change or the
   * error got worse; otherwise accept the pass, grow the radius, and go on while the
   * new error is still too large.
   */
  function Refine(all: seq<Point>, occ: seq<Point>, origin: Point, cube: real, sphere: real,
                  R: real, oldErr: real, oldVol: real, oldPct: real, ghost prevCount: int, ghost prevR: real)
    : (r: Result<Outcome, VolumeError>)
    requires Tracked(all, origin, cube, R, oldVol, prevCount, prevR)
    ensures r.Ok? ==> R <= r.value.R
    decreases |all| + 1 - prevCount
  {
    match Measure(all, occ, origin, R, cube, sphere)
    case Err(e) => Err(e)
    case Ok(s) =>
      if oldVol == s.totVol then Ok(Outcome(R, oldPct, s.volErr))
      else if oldErr < s.volErr then Ok(Outcome(R, oldPct, oldErr))
      else
        var next := R + R * Growth;
        Progress(all, occ, origin, cube, sphere, R, oldVol, prevCount, prevR);
        if Abs(s.volErr) > Tolerance then Refine(all, occ, origin, cube, sphere, next, s.volErr, s.totVol, s.percent, s.count, R)
        else Ok(Outcome(next, s.percent, s.volErr))
  }

  /** The shell occupancy: occupied points between the two radii over the exact shell volume; 0.0 without a strip. */
  function ShellPercent(occ: seq<Point>, origin: Point, R: real, w: real, cube: real): (p: real)
    ensures w == 0.0 ==> p == 0.0
  {
    if w != 0.0 then
      ShellVolumeSign(R, w);
      var shellOcc := CountWithin(occ, origin, R + 0.5 * w) - CountWithin(occ, origin, R - 0.5 * w);
      shellOcc as real * cube / ShellVolume(R, w) * 100.0
    else 0.0
  }

  /** The whole of `buried_vol` as a value. */
  function BuriedVolSpec(occ: seq<Point>, all: seq<Point>, origin: Point, R: real, spacing: real, w: real)
    : (r: Result<Burial, VolumeError>)
    ensures r.Ok? ==> R > 0.0 && spacing != 0.0
    ensures r.Ok? && w == 0.0 ==> r.value.percentShell == 0.0
  {
    var cube := Cubed(spacing);
    FirstPassNeedsVolume(all, occ, origin, R, spacing);
    match Refine(all, occ, origin, cube, SphereVolume(R), R, FloatMax, FloatMax, FloatMax, -1, 0.0)
    case Err(e) => Err(e)
    case Ok(o) => Ok(Burial(o.percent, ShellPercent(occ, origin, o.R, w, cube)))
  }

  /** A first pass that divides without error needs a positive radius and a non-zero spacing. */
  lemma FirstPassNeedsVolume(all: seq<Point>, occ: seq<Point>, origin: Point, R: real, spacing: real)
    ensures Measure(all, occ, origin, R, Cubed(spacing), SphereVolume(R)).Ok? ==> R > 0.0 && spacing != 0.0
  {
    if R < 0.0 {
      CountWithinNegative(all, origin, R);
    }
    CubedSign(spacing);
  }

  /** `buried_vol`: the refinement loop, then the shell. */
  method BuriedVol(occ: seq<Point>, all: seq<Point>, origin: Point, R0: real, spacing: real, w: real)
    returns (r: Result<Burial, VolumeError>)
    ensures r == BuriedVolSpec(occ, all, origin, R0, spacing, w)
  {
    var R := R0;
    var sphere := SphereVolume(R);
    var cube := Cubed(spacing);
    var volErr := 100.0;
    var oldErr, oldVol, oldPct := FloatMax, FloatMax, FloatMax;
    var percent := 0.0;
    ghost var prevCount: int, prevR: real := -1, 0.0;
    ghost var target := Refine(all, occ, origin, cube, sphere, R, oldErr, oldVol, oldPct, prevCount, prevR);
    while Abs(volErr) > Tolerance
      invariant Tracked(all, origin, cube, R, oldVol, prevCount, prevR)
      invariant Abs(volErr) > Tolerance ==> target == Refine(all, occ, origin, cube, sphere, R, oldErr, oldVol, oldPct, prevCount, prevR)
      invariant Abs(volErr) <= Tolerance ==> target == Ok(Outcome(R, percent, volErr))
      decreases |all| + 1 - prevCount
    {
      var nVoxel := CountWithin(all, origin, R);
      var totVol := Volume(nVoxel, cube);
      var occVol := Volume(CountWithin(occ, origin, R), cube);
      if totVol == 0.0 {
        return Err(ZeroTotalVolume);
      }
      percent := Percent(occVol, totVol);
      if sphere == 0.0 {
        return Err(ZeroSphereVolume);
      }
      volErr := Percent(Abs(totVol - sphere), sphere);
      if oldVol == totVol {
        percent := oldPct;
        break;
      } else if oldErr < volErr {
        percent := oldPct;
        volErr := oldErr;
        break;
      } else {
        Progress(all, occ, origin, cube, sphere, R, oldVol, prevCount, prevR);
        oldVol, oldErr, oldPct := totVol, volErr, percent;
        prevCount, prevR := nVoxel, R;
        R := R + R * Growth;
      }
    }
    r := Ok(Burial(percent, ShellPercent(occ, origin, R, w, cube)));
  }

  /** The shell has non-zero volume whenever the strip has non-zero width, with the strip's sign. */
  lemma ShellVolumeSign(R: real, w: real)
    ensures w > 0.0 ==> ShellVolume(R, w) > 0.0
    ensures w < 0.0 ==> ShellVolume(R, w) < 0.0
  {
    var a := 0.5 * w;
    var d := Cubed(R + a) - Cubed(R - a);
    var b := 3.0 * R * R + a * a;
    assert d == 2.0 * a * b;
    if w != 0.0 {
      assert R * R >= 0.0;
      if a > 0.0 {
        PositiveProduct(a, a);
      } else {
        PositiveProduct(-a, -a);
      }
      assert b > 0.0;
      if w > 0.0 {
        PositiveProduct(2.0 * a, b);
      } else {
        PositiveProduct(-2.0 * a, b);
      }
    }
  }

  lemma PositiveProduct(a: real, b: real)
    requires a > 0.0 && b > 0.0
    ensures a * b > 0.0
  {
  }

  /** The percentage of `m` cubes out of `n` lies in [0, 100] when 0 <= m <= n, n > 0 and c is non-zero. */
  lemma RatioPercent(m: nat, n: nat, c: real)
    requires m <= n && n > 0 && c != 0.0
    ensures Volume(n, c) != 0.0
    ensures 0.0 <= Percent(Volume(m, c), Volume(n, c)) <= 100.0
  {
    assert n as real * c != 0.0;
    var q := (m as real * c) / (n as real * c);
    assert q * (n as real * c) == m as real * c;
    assert (q * n as real - m as real) * c == 0.0;
    assert q * n as real == m as real;
  }

  /** A measurement whose occupied points are among the grid points reports a percentage in [0, 100]. */
  lemma MeasurePercentBounds(all: seq<Point>, occ: seq<Point>, origin: Point, R: real, cube: real, sphere: real)
    requires multiset(occ) <= multiset(all)
    requires Measure(all, occ, origin, R, cube, sphere).Ok?
    ensures 0.0 <= Measure(all, occ, origin, R, cube, sphere).value.percent <= 100.0
  {
    var m, n := CountWithin(occ, origin, R), CountWithin(all, origin, R);
    CountWithinSubMultiset(occ, all, origin, R);
    assert Volume(n, cube) != 0.0;
    assert n > 0 && cube != 0.0;
    RatioPercent(m, n, cube);
    assert Measure(all, occ, origin, R, cube, sphere).value.percent == Percent(Volume(m, cube), Volume(n, cube));
  }

  /**
   * The refinement returns a percentage in [0, 100], except that a loop stopped at
   * its very first pass hands back the float maximum it started from.
   */
  lemma {:induction false} RefinePercentBounds(all: seq<Point>, occ: seq<Point>, origin: Point, cube: real, sphere: real,
                                               R: real, oldErr: real, oldVol: real, oldPct: real, prevCount: int, prevR: real)
    requires Tracked(all, origin, cube, R, oldVol, prevCount, prevR)
    requires multiset(occ) <= multiset(all)
    requires prevCount != -1 ==> 0.0 <= oldPct <= 100.0
    ensures var r := Refine(all, occ, origin, cube, sphere, R, oldErr, oldVol, oldPct, prevCount, prevR);
      r.Ok? ==> (0.0 <= r.value.percent <= 100.0) || (prevCount == -1 && r.value.percent == oldPct)
    decreases |all| + 1 - prevCount
  {
    var m := Measure(all, occ, origin, R, cube, sphere);
    if m.Ok? && oldVol != m.value.totVol && !(oldErr < m.value.volErr) {
      MeasurePercentBounds(all, occ, origin, R, cube, sphere);
      Progress(all, occ, origin, cube, sphere, R, oldVol, prevCount, prevR);
      var s := m.value;
      if Abs(s.volErr) > Tolerance {
        RefinePercentBounds(all, occ, origin, cube, sphere, R + R * Growth, s.volErr, s.totVol, s.percent, s.count, R);
      }
    }
  }

  /**
   * The percent buried volume lies in [0, 100] when the occupied points are among the
   * grid points, unless the first pass already stopped the loop (a total volume equal
   * to the float maximum, or an error strictly greater than it), in which case it is
   * that float maximum.
   */
  lemma BuriedPercentBounds(occ: seq<Point>, all: seq<Point>, origin: Point, R: real, spacing: real, w: real)
    requires multiset(occ) <= multiset(all)
    ensures var r := BuriedVolSpec(occ, all, origin, R, spacing, w);
      r.Ok? ==> (0.0 <= r.value.percentBuried <= 100.0) || r.value.percentBuried == FloatMax
  {
    RefinePercentBounds(all, occ, origin, Cubed(spacing), SphereVolume(R), R, FloatMax, FloatMax, FloatMax, -1, 0.0);
  }

  /**
   * The occupied grid that `occupied` returns (distinct indices `jdx` gathered from the
   * grid) meets the bound of `BuriedPercentBounds` without further assumptions.
   */
  lemma OccupiedBuriedBounds(occ: seq<Point>, all: seq<Point>, jdx: seq<nat>, origin: Point, R: real, spacing: real, w: real)
    requires NoDuplicates(jdx) && Gather(all, jdx) == Some(occ)
    ensures var r := BuriedVolSpec(occ, all, origin, R, spacing, w);
      r.Ok? ==> (0.0 <= r.value.percentBuried <= 100.0) || r.value.percentBuried == FloatMax
  {
    GatherDistinct(all, jdx, occ);
    BuriedPercentBounds(occ, all, origin, R, spacing, w);
  }

  /** The same for the grid that `occupied_dens` returns: strictly increasing indices gathered from the grid. */
  lemma DensBuriedBounds(occ: seq<Point>, all: seq<Point>, sel: seq<nat>, origin: Point, R: real, spacing: real, w: real)
    requires StrictlyIncreasing(sel) && Gather(all, sel) == Some(occ)
    ensures var r := BuriedVolSpec(occ, all, origin, R, spacing, w);
      r.Ok? ==> (0.0 <= r.value.percentBuried <= 100.0) || r.value.percentBuried == FloatMax
  {
    IncreasingNoDuplicates(sel);
    OccupiedBuriedBounds(occ, all, sel, origin, R, spacing, w);
  }

  /**
   * A first pass `s` whose volume differs from the starting value `init` and whose error
   * does not exceed it is accepted, and the radius grows. The code starts both old
   * values at the float maximum, so every first pass with a smaller volume and error
   * is accepted.
   */
  lemma FirstPassAccepted(occ: seq<Point>, all: seq<Point>, origin: Point, R: real, spacing: real,
                          init: real, s: Sample)
    requires Measure(all, occ, origin, R, Cubed(spacing), SphereVolume(R)) == Ok(s)
    requires s.totVol != init && s.volErr <= init
    ensures Tracked(all, origin, Cubed(spacing), R + R * Growth, s.totVol, s.count, R)
    ensures Refine(all, occ, origin, Cubed(spacing), SphereVolume(R), R, init, init, init, -1, 0.0)
      == if Abs(s.volErr) > Tolerance
         then Refine(all, occ, origin, Cubed(spacing), SphereVolume(R), R + R * Growth, s.volErr, s.totVol, s.percent, s.count, R)
         else Ok(Outcome(R + R * Growth, s.percent, s.volErr))
  {
    Progress(all, occ, origin, Cubed(spacing), SphereVolume(R), R, init, -1, 0.0);
  }

  /**
   * When the first pass `s` is already within tolerance, its percentage is the answer, and
   * the radius has still been grown by 10% before the shell is measured.
   */
  lemma ConvergedAtOnce(occ: seq<Point>, all: seq<Point>, origin: Point, R: real, spacing: real, w: real, s: Sample)
    requires Measure(all, occ, origin, R, Cubed(spacing), SphereVolume(R)) == Ok(s)
    requires s.totVol != FloatMax && Abs(s.volErr) <= Tolerance
    ensures BuriedVolSpec(occ, all, origin, R, spacing, w)
         == Ok(Burial(s.percent, ShellPercent(occ, origin, R + R * Growth, w, Cubed(spacing))))
  {
    FirstPassAccepted(occ, all, origin, R, spacing, FloatMax, s);
  }

  /** With no grid point inside the starting sphere (or a zero spacing), `buried_vol` fails dividing by the total volume. */
  lemma EmptySphereFails(occ: seq<Point>, all: seq<Point>, origin: Point, R: real, spacing: real, w: real)
    requires CountWithin(all, origin, R) == 0 || spacing == 0.0
    ensures BuriedVolSpec(occ, all, origin, R, spacing, w) == Err(ZeroTotalVolume)
  {
    assert CountWithin(all, origin, R) as real * Cubed(spacing) == 0.0;
  }

  /** A zero starting radius with a grid point at the origin fails dividing by the sphere volume. */
  lemma ZeroRadiusFails(occ: seq<Point>, all: seq<Point>, origin: Point, spacing: real, w: real)
    requires CountWithin(all, origin, 0.0) > 0 && spacing != 0.0
    ensures BuriedVolSpec(occ, all, origin, 0.0, spacing, w) == Err(ZeroSphereVolume)
  {
    assert Cubed(spacing) != 0.0;
    assert CountWithin(all, origin, 0.0) as real * Cubed(spacing) != 0.0;
  }
}
