/**
 * The grid builder of the steric engine (`dbstep/sterics.py`): `grid_round`, the
 * bounding box around the atoms (`max_dim`), the lattice of sample points, and its
 * growth to fit the probe sphere (`resize_grid`).
 */
module Grid {
  import opened Numerics
  import opened Seqs
  import opened Geometry

  /** `v` is a whole number of grid steps from the origin. */
  predicate OnLattice(v: real, spacing: real)
    requires spacing > 0.0
  {
    (v / spacing).Floor as real == v / spacing
  }

  /** Dividing by the reciprocal of the spacing is multiplying by the spacing. */
  lemma Reciprocal(x: real, spacing: real)
    requires spacing > 0.0
    ensures x * (1.0 / spacing) == x / spacing
    ensures x / (1.0 / spacing) == x * spacing
    ensures (x / spacing) * spacing == x
    ensures (x * spacing) / spacing == x
  {
  }

  /** A whole number of steps lies on the lattice. */
  lemma StepsOnLattice(k: int, spacing: real)
    requires spacing > 0.0
    ensures OnLattice(k as real * spacing, spacing)
  {
    Reciprocal(k as real, spacing);
    assert (k as real * spacing) / spacing == k as real;
    assert (k as real).Floor == k;
  }

  /** One step up or down from a lattice point is a lattice point. */
  lemma StepFromLattice(v: real, spacing: real)
    requires spacing > 0.0 && OnLattice(v, spacing)
    ensures OnLattice(v + spacing, spacing) && OnLattice(v - spacing, spacing)
  {
    ShiftByStep(v, spacing);
    var k := (v / spacing).Floor;
    assert v / spacing == k as real;
    assert (v + spacing) / spacing == (k + 1) as real;
    assert (v - spacing) / spacing == (k - 1) as real;
  }

  /** Moving by one spacing moves the number of steps by one. */
  lemma ShiftByStep(v: real, spacing: real)
    requires spacing > 0.0
    ensures (v + spacing) / spacing == v / spacing + 1.0
    ensures (v - spacing) / spacing == v / spacing - 1.0
  {
    var q := v / spacing;
    Reciprocal(v, spacing);
    assert v + spacing == (q + 1.0) * spacing;
    assert v - spacing == (q - 1.0) * spacing;
    Reciprocal(q + 1.0, spacing);
    Reciprocal(q - 1.0, spacing);
  }

  /** `grid_round`: snaps a distance to the nearest multiple of the grid spacing. */
  function GridRound(x: real, spacing: real): (r: real)
    requires spacing > 0.0
    ensures x - spacing / 2.0 <= r <= x + spacing / 2.0
    ensures OnLattice(r, spacing)
  {
    var n := 1.0 / spacing;
    var k := Round(x * n);
    RoundedSteps(x, spacing, k);
    k as real / n
  }

  /** `k` steps, where `k` is `x` in steps rounded to the nearest whole number: on the lattice, within half a step of `x`. */
  lemma RoundedSteps(x: real, spacing: real, k: int)
    requires spacing > 0.0 && -0.5 <= x * (1.0 / spacing) - k as real <= 0.5
    ensures k as real / (1.0 / spacing) == k as real * spacing
    ensures x - spacing / 2.0 <= k as real * spacing <= x + spacing / 2.0
    ensures OnLattice(k as real * spacing, spacing)
  {
    Reciprocal(x, spacing);
    Reciprocal(k as real, spacing);
    var d := x / spacing - k as real;
    assert x - k as real * spacing == d * spacing;
    HalfStep(d, spacing);
    StepsOnLattice(k, spacing);
  }

  /** A rounding error of at most one half, scaled by the spacing, is at most half a spacing. */
  lemma HalfStep(d: real, spacing: real)
    requires spacing > 0.0 && -0.5 <= d <= 0.5
    ensures -spacing / 2.0 <= d * spacing <= spacing / 2.0
  {
    NonnegProduct(d + 0.5, spacing);
    NonnegProduct(0.5 - d, spacing);
  }

  /** A lattice point no lower than half a step below the origin is a whole, non-negative number of steps. */
  lemma WholeSteps(v: real, spacing: real)
    requires spacing > 0.0 && OnLattice(v, spacing) && v >= -spacing / 2.0
    ensures (v / spacing).Floor >= 0
    ensures (v / spacing).Floor as real * spacing == v
  {
    var q := v / spacing;
    Reciprocal(v, spacing);
    assert (q + 0.5) * spacing == v + spacing / 2.0;
    NonNegativeFactor(q + 0.5, spacing);
  }

  /** One upper face of the box seeing one atom face: pushed past it onto the lattice, or kept. */
  function Raise(bound: real, face: real, spacing: real): (r: real)
    requires spacing > 0.0
    ensures bound <= r && face < r
    ensures r == bound || (r >= face + spacing / 2.0 && OnLattice(r, spacing))
    ensures face < bound ==> r == bound
  {
    if face >= bound then
      var g := GridRound(face, spacing);
      StepFromLattice(g, spacing);
      g + spacing
    else bound
  }

  /** One lower face of the box seeing one atom face: pushed past it onto the lattice, or kept. */
  function Lower(bound: real, face: real, spacing: real): (r: real)
    requires spacing > 0.0
    ensures r <= bound && r < face
    ensures r == bound || (r <= face - spacing / 2.0 && OnLattice(r, spacing))
    ensures bound < face ==> r == bound
  {
    if face <= bound then
      var g := GridRound(face, spacing);
      StepFromLattice(g, spacing);
      g - spacing
    else bound
  }

  /**
   * Half-width of the region a buried-volume probe of radius `radius` needs: 10% to spare,
   * so it reaches at least as far as the probe exactly when the probe radius is not negative.
   */
  function ExpandedRadius(radius: real): (r: real)
    ensures radius <= r <==> 0.0 <= radius
    ensures radius < r <==> 0.0 < radius
  {
    radius + radius * 0.1
  }

  /** What the box starts from: the origin alone, or the expanded probe sphere when `resize` is set. */
  function Seed(resize: bool, radius: real): real
  {
    if resize then ExpandedRadius(radius) else 0.0
  }

  /**
   * What `max_dim` keeps true of one upper face `v` after seeing the first `n` atoms along axis `a`:
   * it starts at `seed` or further out, every atom face seen so far lies strictly below it, and unless it
   * is still the seed it sits on the lattice at least half a step past the face of some atom seen.
   */
  ghost predicate UpperFace(v: real, seed: real, coords: seq<Point>, radii: seq<real>, n: nat, spacing: real, a: Axis)
    requires spacing > 0.0 && n <= |coords| <= |radii|
  {
    && seed <= v
    && (forall i :: 0 <= i < n ==> coords[i].At(a) + radii[i] < v)
    && (v == seed ||
        ((exists i :: 0 <= i < n && v >= coords[i].At(a) + radii[i] + spacing / 2.0) && OnLattice(v, spacing)))
  }

  /** The mirror image of `UpperFace` for a lower face. */
  ghost predicate LowerFace(v: real, seed: real, coords: seq<Point>, radii: seq<real>, n: nat, spacing: real, a: Axis)
    requires spacing > 0.0 && n <= |coords| <= |radii|
  {
    && v <= -seed
    && (forall i :: 0 <= i < n ==> v < coords[i].At(a) - radii[i])
    && (v == -seed ||
        ((exists i :: 0 <= i < n && v <= coords[i].At(a) - radii[i] - spacing / 2.0) && OnLattice(v, spacing)))
  }

  lemma RaiseStep(v: real, seed: real, coords: seq<Point>, radii: seq<real>, n: nat, spacing: real, a: Axis)
    requires spacing > 0.0 && n < |coords| <= |radii|
    requires UpperFace(v, seed, coords, radii, n, spacing, a)
    ensures UpperFace(Raise(v, coords[n].At(a) + radii[n], spacing), seed, coords, radii, n + 1, spacing, a)
  {
  }

  lemma LowerStep(v: real, seed: real, coords: seq<Point>, radii: seq<real>, n: nat, spacing: real, a: Axis)
    requires spacing > 0.0 && n < |coords| <= |radii|
    requires LowerFace(v, seed, coords, radii, n, spacing, a)
    ensures LowerFace(Lower(v, coords[n].At(a) - radii[n], spacing), seed, coords, radii, n + 1, spacing, a)
  {
  }

  /** One atom seen on the three upper faces keeps their invariants. */
  lemma UpperFacesStep(hi: Point, plus: Point, seed: real, coords: seq<Point>, radii: seq<real>, n: nat, spacing: real)
    requires spacing > 0.0 && n < |coords| <= |radii|
    requires plus == coords[n].Plus(Point(radii[n], radii[n], radii[n]))
    requires forall a: Axis :: UpperFace(hi.At(a), seed, coords, radii, n, spacing, a)
    ensures forall a: Axis :: UpperFace(RaiseAll(hi, plus, spacing).At(a), seed, coords, radii, n + 1, spacing, a)
  {
    forall a: Axis ensures UpperFace(RaiseAll(hi, plus, spacing).At(a), seed, coords, radii, n + 1, spacing, a) {
      RaiseStep(hi.At(a), seed, coords, radii, n, spacing, a);
    }
  }

  /** One atom seen on the three lower faces keeps their invariants. */
  lemma LowerFacesStep(lo: Point, minus: Point, seed: real, coords: seq<Point>, radii: seq<real>, n: nat, spacing: real)
    requires spacing > 0.0 && n < |coords| <= |radii|
    requires minus == coords[n].Plus(Point(-radii[n], -radii[n], -radii[n]))
    requires forall a: Axis :: LowerFace(lo.At(a), seed, coords, radii, n, spacing, a)
    ensures forall a: Axis :: LowerFace(LowerAll(lo, minus, spacing).At(a), seed, coords, radii, n + 1, spacing, a)
  {
    forall a: Axis ensures LowerFace(LowerAll(lo, minus, spacing).At(a), seed, coords, radii, n + 1, spacing, a) {
      LowerStep(lo.At(a), seed, coords, radii, n, spacing, a);
    }
  }

  /** Unfolds the face invariants of all three axes into the contract of `MaxDim`. */
  lemma FacesContainAtoms(lo: Point, hi: Point, seed: real, coords: seq<Point>, radii: seq<real>, spacing: real)
    requires spacing > 0.0 && |coords| <= |radii|
    requires forall a: Axis :: UpperFace(hi.At(a), seed, coords, radii, |coords|, spacing, a)
    requires forall a: Axis :: LowerFace(lo.At(a), seed, coords, radii, |coords|, spacing, a)
    ensures forall a: Axis, i :: 0 <= i < |coords| ==>
      lo.At(a) < coords[i].At(a) - radii[i] && coords[i].At(a) + radii[i] < hi.At(a)
    ensures forall a: Axis :: seed <= hi.At(a) && lo.At(a) <= -seed
    ensures forall a: Axis :: (hi.At(a) == seed ||
      ((exists i :: 0 <= i < |coords| && hi.At(a) >= coords[i].At(a) + radii[i] + spacing / 2.0)
       && OnLattice(hi.At(a), spacing)))
    ensures forall a: Axis :: (lo.At(a) == -seed ||
      ((exists i :: 0 <= i < |coords| && lo.At(a) <= coords[i].At(a) - radii[i] - spacing / 2.0)
       && OnLattice(lo.At(a), spacing)))
  {
  }

  /** The three `if x_plus >= x_max: ...` updates of one atom, one per axis. */
  function RaiseAll(hi: Point, plus: Point, spacing: real): (r: Point)
    requires spacing > 0.0
    ensures forall a: Axis :: r.At(a) == Raise(hi.At(a), plus.At(a), spacing)
  {
    Point(Raise(hi.x, plus.x, spacing), Raise(hi.y, plus.y, spacing), Raise(hi.z, plus.z, spacing))
  }

  /** The three `if x_minus <= x_min: ...` updates of one atom, one per axis. */
  function LowerAll(lo: Point, minus: Point, spacing: real): (r: Point)
    requires spacing > 0.0
    ensures forall a: Axis :: r.At(a) == Lower(lo.At(a), minus.At(a), spacing)
  {
    Point(Lower(lo.x, minus.x, spacing), Lower(lo.y, minus.y, spacing), Lower(lo.z, minus.z, spacing))
  }

  /** `max(x_max, y_max, z_max, abs(x_min), abs(y_min), abs(z_min))`. */
  function LargestExtent(lo: Point, hi: Point): (m: real)
    ensures forall a: Axis :: hi.At(a) <= m && Abs(lo.At(a)) <= m
    ensures exists a: Axis :: m == hi.At(a) || m == Abs(lo.At(a))
  {
    var extents := [hi.x, hi.y, hi.z, Abs(lo.x), Abs(lo.y), Abs(lo.z)];
    var m := Max(extents);
    assert forall a: Axis :: hi.At(a) in extents && Abs(lo.At(a)) in extents;
    var k :| 0 <= k < 6 && extents[k] == m;
    var a := [X, Y, Z, X, Y, Z][k];
    assert m == hi.At(a) || m == Abs(lo.At(a));
    m
  }

  /** The result of `max_dim`: the box corners and the largest extent along any axis. */
  datatype Box = Box(lo: Point, hi: Point, maxDim: real)

  /** `max_dim`: grows the box atom by atom so that every atomic sphere lies strictly inside it. */
  method MaxDim(coords: seq<Point>, radii: seq<real>, spacing: real, resize: bool, radius: real)
    returns (box: Box)
    requires spacing > 0.0
    requires |coords| <= |radii|
    ensures forall a: Axis, i :: 0 <= i < |coords| ==>
      box.lo.At(a) < coords[i].At(a) - radii[i] && coords[i].At(a) + radii[i] < box.hi.At(a)
    ensures forall a: Axis :: Seed(resize, radius) <= box.hi.At(a) && box.lo.At(a) <= -Seed(resize, radius)
    ensures forall a: Axis :: (box.hi.At(a) == Seed(resize, radius) ||
      ((exists i :: 0 <= i < |coords| && box.hi.At(a) >= coords[i].At(a) + radii[i] + spacing / 2.0)
       && OnLattice(box.hi.At(a), spacing)))
    ensures forall a: Axis :: (box.lo.At(a) == -Seed(resize, radius) ||
      ((exists i :: 0 <= i < |coords| && box.lo.At(a) <= coords[i].At(a) - radii[i] - spacing / 2.0)
       && OnLattice(box.lo.At(a), spacing)))
    ensures forall a: Axis :: box.hi.At(a) <= box.maxDim && Abs(box.lo.At(a)) <= box.maxDim
    ensures exists a: Axis :: box.maxDim == box.hi.At(a) || box.maxDim == Abs(box.lo.At(a))
  {
    var s := Seed(resize, radius);
    var lo, hi := Point(-s, -s, -s), Point(s, s, s);
    var n := 0;
    while n < |coords|
      invariant n <= |coords|
      invariant forall a: Axis :: UpperFace(hi.At(a), s, coords, radii, n, spacing, a)
      invariant forall a: Axis :: LowerFace(lo.At(a), s, coords, radii, n, spacing, a)
    {
      var c, r := coords[n], radii[n];
      var plus, minus := c.Plus(Point(r, r, r)), c.Plus(Point(-r, -r, -r));
      UpperFacesStep(hi, plus, s, coords, radii, n, spacing);
      LowerFacesStep(lo, minus, s, coords, radii, n, spacing);
      hi, lo := RaiseAll(hi, plus, spacing), LowerAll(lo, minus, spacing);
      n := n + 1;
    }
    FacesContainAtoms(lo, hi, s, coords, radii, spacing);
    var m := LargestExtent(lo, hi);
    box := Box(lo, hi, m);
  }

  /** `numpy.linspace(lo, hi, n)`: `n` evenly spaced samples from `lo` to `hi`, both ends included. */
  function Linspace(lo: real, hi: real, n: nat): (r: seq<real>)
    ensures |r| == n
    ensures n >= 1 ==> r[0] == lo
    ensures n >= 2 ==> r[n - 1] == hi
  {
    if n <= 1 then seq(n, k => lo)
    else seq(n, k requires 0 <= k < n => if k == n - 1 then hi else lo + k as real * LinspaceStep(lo, hi, n))
  }

  /** The distance between neighbouring samples of `numpy.linspace(lo, hi, n)`. */
  function LinspaceStep(lo: real, hi: real, n: nat): real
    requires n >= 2
  {
    (hi - lo) / (n - 1) as real
  }

  /** The samples are evenly spaced: neighbours differ by exactly one step, the last one included. */
  lemma LinspaceUniform(lo: real, hi: real, n: nat, k: nat)
    requires n >= 2 && k < n - 1
    ensures Linspace(lo, hi, n)[k + 1] - Linspace(lo, hi, n)[k] == LinspaceStep(lo, hi, n)
  {
    var d, step := (n - 1) as real, LinspaceStep(lo, hi, n);
    assert (k + 1) as real * step == k as real * step + step;
    if k + 1 == n - 1 {
      assert d * step == hi - lo;
    }
  }

  lemma NonnegProduct(a: real, b: real)
    requires a >= 0.0 && b >= 0.0
    ensures a * b >= 0.0
  {
  }

  /** With `lo <= hi` every sample lies between the two ends. */
  lemma LinspaceWithin(lo: real, hi: real, n: nat, k: nat)
    requires lo <= hi && k < n
    ensures lo <= Linspace(lo, hi, n)[k] <= hi
  {
    if n >= 2 && k < n - 1 {
      var d, step := (n - 1) as real, LinspaceStep(lo, hi, n);
      assert d * step == hi - lo;
      assert step >= 0.0 && d - k as real >= 0.0;
      NonnegProduct(d - k as real, step);
    }
  }

  /** `n` copies of `p` laid end to end: the multiplication the grid layout needs, by recursion. */
  function Stride(n: nat, p: nat): nat
  {
    if n == 0 then 0 else p + Stride(n - 1, p)
  }

  lemma {:induction false} StrideIsProduct(n: nat, p: nat)
    ensures Stride(n, p) == n * p
  {
    if n > 0 {
      StrideIsProduct(n - 1, p);
    }
  }

  /** One row of `itertools.product`: `x` and `y` fixed, `z` running. */
  function Line(x: real, y: real, zs: seq<real>): seq<Point>
  {
    seq(|zs|, k requires 0 <= k < |zs| => Point(x, y, zs[k]))
  }

  /** One plane of `itertools.product`: `x` fixed, `y` then `z` running. */
  function Plane(x: real, ys: seq<real>, zs: seq<real>): seq<Point>
    decreases |ys|
  {
    if ys == [] then [] else Line(x, ys[0], zs) + Plane(x, ys[1..], zs)
  }

  /** `itertools.product(xs, ys, zs)`: every combination, `x` outermost and `z` innermost. */
  function Product(xs: seq<real>, ys: seq<real>, zs: seq<real>): seq<Point>
    decreases |xs|
  {
    if xs == [] then [] else Plane(xs[0], ys, zs) + Product(xs[1..], ys, zs)
  }

  lemma {:induction false} PlaneLength(x: real, ys: seq<real>, zs: seq<real>)
    ensures |Plane(x, ys, zs)| == Stride(|ys|, |zs|)
    decreases |ys|
  {
    if ys != [] {
      PlaneLength(x, ys[1..], zs);
    }
  }

  lemma {:induction false} ProductLength(xs: seq<real>, ys: seq<real>, zs: seq<real>)
    ensures |Product(xs, ys, zs)| == Stride(|xs|, Stride(|ys|, |zs|))
    decreases |xs|
  {
    if xs != [] {
      PlaneLength(xs[0], ys, zs);
      ProductLength(xs[1..], ys, zs);
    }
  }

  lemma ConcatAssoc<T>(a: seq<T>, b: seq<T>, c: seq<T>)
    ensures a + (b + c) == (a + b) + c
  {
  }

  lemma ConcatRight<T>(a: seq<T>, b: seq<T>, n: nat)
    requires n < |b|
    ensures (a + b)[|a| + n] == b[n]
  {
  }

  lemma {:induction false} PlaneAt(x: real, ys: seq<real>, zs: seq<real>, j: nat, k: nat)
    requires j < |ys| && k < |zs|
    ensures Stride(j, |zs|) + k < |Plane(x, ys, zs)|
    ensures Plane(x, ys, zs)[Stride(j, |zs|) + k] == Point(x, ys[j], zs[k])
    decreases j
  {
    var line, rest := Line(x, ys[0], zs), Plane(x, ys[1..], zs);
    assert Plane(x, ys, zs) == line + rest;
    if j == 0 {
      assert (line + rest)[k] == line[k];
    } else {
      PlaneAt(x, ys[1..], zs, j - 1, k);
      ConcatRight(line, rest, Stride(j - 1, |zs|) + k);
      assert ys[1..][j - 1] == ys[j];
    }
  }

  /** The first plane of the product comes first. */
  lemma ProductHead(xs: seq<real>, ys: seq<real>, zs: seq<real>, n: nat)
    requires 0 < |xs| && n < |Plane(xs[0], ys, zs)|
    ensures n < |Product(xs, ys, zs)| && Product(xs, ys, zs)[n] == Plane(xs[0], ys, zs)[n]
  {
    assert Product(xs, ys, zs) == Plane(xs[0], ys, zs) + Product(xs[1..], ys, zs);
  }

  /** The product over `xs` is the product over its first `i` samples followed by the product over the rest. */
  lemma {:induction false} ProductSplit(xs: seq<real>, ys: seq<real>, zs: seq<real>, i: nat)
    requires i <= |xs|
    ensures Product(xs, ys, zs) == Product(xs[..i], ys, zs) + Product(xs[i..], ys, zs)
    decreases i
  {
    if i == 0 {
      assert xs[..0] == [] && xs[0..] == xs;
    } else {
      var plane := Plane(xs[0], ys, zs);
      var head, tail := Product(xs[1..][..i - 1], ys, zs), Product(xs[i..], ys, zs);
      ProductSplit(xs[1..], ys, zs, i - 1);
      assert xs[..i][0] == xs[0] && xs[..i][1..] == xs[1..][..i - 1];
      assert xs[1..][i - 1..] == xs[i..];
      ConcatAssoc(plane, head, tail);
      calc {
        Product(xs, ys, zs);
        plane + Product(xs[1..], ys, zs);
        plane + (head + tail);
        (plane + head) + tail;
        Product(xs[..i], ys, zs) + tail;
      }
    }
  }

  lemma ProductAtStride(xs: seq<real>, ys: seq<real>, zs: seq<real>, i: nat, j: nat, k: nat)
    requires i < |xs| && j < |ys| && k < |zs|
    ensures Stride(i, Stride(|ys|, |zs|)) + Stride(j, |zs|) + k < |Product(xs, ys, zs)|
    ensures Product(xs, ys, zs)[Stride(i, Stride(|ys|, |zs|)) + Stride(j, |zs|) + k] == Point(xs[i], ys[j], zs[k])
  {
    var p, inner := Stride(|ys|, |zs|), Stride(j, |zs|) + k;
    var before, after := Product(xs[..i], ys, zs), Product(xs[i..], ys, zs);
    ProductSplit(xs, ys, zs, i);
    ProductLength(xs[..i], ys, zs);
    assert |xs[..i]| == i && xs[i..][0] == xs[i];
    assert |before| == Stride(i, p);
    PlaneAt(xs[i], ys, zs, j, k);
    ProductHead(xs[i..], ys, zs, inner);
    ConcatRight(before, after, inner);
    calc {
      Product(xs, ys, zs)[Stride(i, p) + inner];
      (before + after)[|before| + inner];
      after[inner];
      Plane(xs[i], ys, zs)[inner];
      Point(xs[i], ys[j], zs[k]);
    }
  }

  /** The grid has one point per combination of samples. */
  lemma ProductSize(xs: seq<real>, ys: seq<real>, zs: seq<real>)
    ensures |Product(xs, ys, zs)| == |xs| * (|ys| * |zs|)
  {
    ProductLength(xs, ys, zs);
    StrideIsProduct(|ys|, |zs|);
    StrideIsProduct(|xs|, |ys| * |zs|);
  }

  /** The grid is in x-major order: the point for samples (i, j, k) sits at index i * |ys| * |zs| + j * |zs| + k. */
  lemma ProductAt(xs: seq<real>, ys: seq<real>, zs: seq<real>, i: nat, j: nat, k: nat)
    requires i < |xs| && j < |ys| && k < |zs|
    ensures i * (|ys| * |zs|) + j * |zs| + k < |Product(xs, ys, zs)|
    ensures Product(xs, ys, zs)[i * (|ys| * |zs|) + j * |zs| + k] == Point(xs[i], ys[j], zs[k])
  {
    var p := Stride(|ys|, |zs|);
    ProductAtStride(xs, ys, zs, i, j, k);
    StrideIsProduct(|ys|, |zs|);
    StrideIsProduct(i, p);
    StrideIsProduct(j, |zs|);
    assert i * (|ys| * |zs|) + j * |zs| + k == Stride(i, p) + Stride(j, |zs|) + k;
  }

  /**
   * Lattice points that `resize_grid` adds along an axis when a face moves from `orig` to `target`:
   * `int(grid_round(abs(target - orig)) / spacing)`, the distance moved in whole grid steps, so
   * that the added points span that distance to within half a spacing.
   */
  function AddedPoints(orig: real, target: real, spacing: real): (k: nat)
    requires spacing > 0.0
    ensures k as real * spacing - spacing / 2.0 <= Abs(target - orig) <= k as real * spacing + spacing / 2.0
  {
    var diff := Abs(target - orig);
    var diffRound := GridRound(diff, spacing);
    var newPoints := diffRound / spacing;
    WholeSteps(diffRound, spacing);
    Trunc(newPoints)
  }

  /** Where `resize_grid` leaves an upper face: moved out to `ex` if it fell short, otherwise kept. */
  function ReachUp(bound: real, ex: real): (r: real)
    ensures ex <= r && bound <= r && (r == ex || r == bound)
  {
    if bound < ex then ex else bound
  }

  /** Where `resize_grid` leaves a lower face: moved out to `-ex` if it fell short, otherwise kept. */
  function ReachDown(bound: real, ex: real): (r: real)
    ensures r <= -ex && r <= bound && (r == -ex || r == bound)
  {
    if bound > -ex then -ex else bound
  }

  /** Points added for an upper face that has to reach `ex`; a face already there divides by nothing. */
  function UpperPoints(bound: real, ex: real, spacing: real): nat
    requires ex <= bound || spacing > 0.0
  {
    if bound < ex then AddedPoints(bound, ex, spacing) else 0
  }

  /** Points added for a lower face that has to reach `-ex`; a face already there divides by nothing. */
  function LowerPoints(bound: real, ex: real, spacing: real): nat
    requires bound <= -ex || spacing > 0.0
  {
    if bound > -ex then AddedPoints(bound, -ex, spacing) else 0
  }

  /**
   * One upper-face block of `resize_grid`: a face short of `ex` moves out to `ex`, and
   * the axis gains the lattice points between the old and the new face.
   */
  method ExtendUpper(bound: real, ex: real, dim: int, spacing: real) returns (face: real, newDim: int)
    requires ex <= bound || spacing > 0.0
    ensures face == ReachUp(bound, ex)
    ensures newDim == dim + UpperPoints(bound, ex, spacing)
  {
    face, newDim := bound, dim;
    if face < ex {
      var orig := face;
      face := ex;
      newDim := newDim + AddedPoints(orig, face, spacing);
    }
  }

  /** One lower-face block of `resize_grid`: the mirror of `ExtendUpper`, out to `-ex`. */
  method ExtendLower(bound: real, ex: real, dim: int, spacing: real) returns (face: real, newDim: int)
    requires bound <= -ex || spacing > 0.0
    ensures face == ReachDown(bound, ex)
    ensures newDim == dim + LowerPoints(bound, ex, spacing)
  {
    face, newDim := bound, dim;
    if face > -ex {
      var orig := face;
      face := -ex;
      newDim := newDim + AddedPoints(orig, face, spacing);
    }
  }

  /** The per-axis point counts of the cube-file molecule, the fields `resize_grid` updates. */
  class Mol {
    var xdim: int
    var ydim: int
    var zdim: int

    constructor (xdim: int, ydim: int, zdim: int)
      ensures this.xdim == xdim && this.ydim == ydim && this.zdim == zdim
    {
      this.xdim, this.ydim, this.zdim := xdim, ydim, zdim;
    }
  }

  /**
   * `resize_grid`: pushes every face of the box out to the expanded probe sphere where it falls short,
   * adds the corresponding lattice points to the molecule's counts, and builds the lattice.
   * The resized corners are returned beside the grid.
   */
  method ResizeGrid(hi: Point, lo: Point, radius: real, spacing: real, mol: Mol)
    returns (grid: seq<Point>, ghost newLo: Point, ghost newHi: Point)
    requires spacing > 0.0 || (ExpandedRadius(radius) <= hi.x && ExpandedRadius(radius) <= hi.y
                               && ExpandedRadius(radius) <= hi.z && lo.x <= -ExpandedRadius(radius)
                               && lo.y <= -ExpandedRadius(radius) && lo.z <= -ExpandedRadius(radius))
    requires mol.xdim >= 0 && mol.ydim >= 0 && mol.zdim >= 0
    modifies mol
    ensures newHi == Point(ReachUp(hi.x, ExpandedRadius(radius)), ReachUp(hi.y, ExpandedRadius(radius)),
                           ReachUp(hi.z, ExpandedRadius(radius)))
    ensures newLo == Point(ReachDown(lo.x, ExpandedRadius(radius)), ReachDown(lo.y, ExpandedRadius(radius)),
                           ReachDown(lo.z, ExpandedRadius(radius)))
    ensures forall a: Axis :: ExpandedRadius(radius) <= newHi.At(a) && newLo.At(a) <= -ExpandedRadius(radius)
    ensures mol.xdim == old(mol.xdim) + UpperPoints(hi.x, ExpandedRadius(radius), spacing)
                                      + LowerPoints(lo.x, ExpandedRadius(radius), spacing)
    ensures mol.ydim == old(mol.ydim) + UpperPoints(hi.y, ExpandedRadius(radius), spacing)
                                      + LowerPoints(lo.y, ExpandedRadius(radius), spacing)
    ensures mol.zdim == old(mol.zdim) + UpperPoints(hi.z, ExpandedRadius(radius), spacing)
                                      + LowerPoints(lo.z, ExpandedRadius(radius), spacing)
    ensures old(mol.xdim) <= mol.xdim && old(mol.ydim) <= mol.ydim && old(mol.zdim) <= mol.zdim
    ensures grid == Product(Linspace(newLo.x, newHi.x, mol.xdim), Linspace(newLo.y, newHi.y, mol.ydim),
                            Linspace(newLo.z, newHi.z, mol.zdim))
    ensures |grid| == mol.xdim * (mol.ydim * mol.zdim)
  {
    var ex := ExpandedRadius(radius);
    var xMax, yMax, zMax, xMin, yMin, zMin;
    xMax, mol.xdim := ExtendUpper(hi.x, ex, mol.xdim, spacing);
    yMax, mol.ydim := ExtendUpper(hi.y, ex, mol.ydim, spacing);
    zMax, mol.zdim := ExtendUpper(hi.z, ex, mol.zdim, spacing);
    xMin, mol.xdim := ExtendLower(lo.x, ex, mol.xdim, spacing);
    yMin, mol.ydim := ExtendLower(lo.y, ex, mol.ydim, spacing);
    zMin, mol.zdim := ExtendLower(lo.z, ex, mol.zdim, spacing);
    var xVals := Linspace(xMin, xMax, mol.xdim);
    var yVals := Linspace(yMin, yMax, mol.ydim);
    var zVals := Linspace(zMin, zMax, mol.zdim);
    grid := Product(xVals, yVals, zVals);
    ProductSize(xVals, yVals, zVals);
    newLo, newHi := Point(xMin, yMin, zMin), Point(xMax, yMax, zMax);
    forall a: Axis ensures ex <= newHi.At(a) && newLo.At(a) <= -ex {
      assert ex <= xMax && ex <= yMax && ex <= zMax && xMin <= -ex && yMin <= -ex && zMin <= -ex;
    }
  }
}
