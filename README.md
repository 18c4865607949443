# DBSTEP steric engine in Dafny

DBSTEP computes steric descriptors of a molecule. These are the Sterimol
parameters L, B1 (Bmin) and B5 (Bmax), and the percent buried volume of a
probe sphere. The molecule is given either as atoms with van der Waals radii
or as an electron-density cube. This project models the geometric engine
of `dbstep/sterics.py`:

- the bounding box of the molecule, snapped to the grid spacing (`max_dim`, `grid_round`);
- the growth of a density cube's grid to fit the probe sphere (`resize_grid`);
- the classification of grid points as occupied, by atomic spheres or by a density
  threshold (`occupied`, `occupied_dens`);
- the two forms of the Sterimol sweep (`get_classic_sterimol`, `get_cube_sterimol`,
  `parallel_grid_scan`);
- the self-correcting buried-volume estimate (`buried_vol`).

It also models two parts of `dbstep/parse_data.py`. The first is the hydrogen
filter that the molecule readers apply after parsing; it renumbers the
specified atoms. The second is the periodic-table lookup `element_id`.

Floating point is modelled by exact reals. `math.cos`, `math.sin`,
`numpy.hypot` and `math.sqrt` are function parameters. A lemma that needs
their geometry says so in its `requires`, for example `cos(t)^2 + sin(t)^2 == 1`.
The k-d tree query `query_ball_point(c, r)` is modelled twice. The closed-ball
count `Geometry.CountWithin` stands for its length in `buried_vol`. The index
set `Occupancy.BallQuery` stands for the indices it returns in `occupied`. Python's `ZeroDivisionError` in `buried_vol`
becomes an `Err` result.

Modules, one file each:

- `Wrappers`: Option and Result.
- `Numerics`: pi, the float maximum, Python's `round` and `int`.
- `Seqs`: numpy boolean masks, running maxima and minima.
- `Geometry`: points, balls, ball counts.
- `Grid`: box, rounding, linspace, Cartesian product, resize.
- `Occupancy`: occupied grid points.
- `Sterimol`: L, B1, B5.
- `BuriedVolume`: percent buried volume.
- `ParseData`: hydrogen filter and `element_id`.

Where the code and its comments disagree, the model follows the code.

- The comment at `dbstep/sterics.py:169` says atoms below the basal XY-plane are not
  counted in L. The classic form computes L as the largest `|z| + radius`, so those
  atoms extend L just as atoms above the plane do.
- The docstring at `dbstep/sterics.py:229-230` describes horizontal slices along the
  L-axis. The strip of the grid form keeps points with `R - w < |z| <= R + w`, which
  is a slab on each side of the basal plane, not one slab around height R.

## Model

| member | source | states |
|---|---|---|
| Numerics.Round | dbstep/sterics.py:36 | Python `round`: the integer within one half of `x`, the even one on a tie |
| Numerics.Trunc | dbstep/sterics.py:120 | Python `int` on a float truncates toward zero: for `x >= 0` the largest integer not above `x`, for `x < 0` the smallest integer not below it |
| Grid.GridRound | dbstep/sterics.py:33-36 | the result lies on the spacing lattice and within half a spacing of `x` |
| Grid.Raise | dbstep/sterics.py:58-60 | an upper face meeting an atom face is moved onto the lattice at least half a step beyond that face; otherwise it is kept; it never moves inward |
| Grid.Lower | dbstep/sterics.py:61-63 | the mirror of `Raise` for a lower face |
| Grid.LargestExtent | dbstep/sterics.py:66 | the largest of the upper faces and the absolute lower faces, attained by one of them |
| Grid.MaxDim | dbstep/sterics.py:39-72 | every atomic sphere lies strictly inside the box; the box contains the seed (the probe sphere plus 10% when resizing, else the origin); each face is either the seed or a lattice point at least half a step beyond some atom face; maxDim is the largest extent |
| Grid.Linspace | dbstep/sterics.py:157-159 | `n` samples whose first is `lo` and whose last is `hi` |
| Grid.LinspaceUniform | dbstep/sterics.py:157-159 | neighbouring samples differ by exactly one step `(hi - lo) / (n - 1)` |
| Grid.LinspaceWithin | dbstep/sterics.py:157-159 | with `lo <= hi` every sample lies between the ends |
| Grid.ProductSplit | dbstep/sterics.py:160 | the product over the x samples is the product over the first `i` of them followed by the product over the rest |
| Grid.ProductSize | dbstep/sterics.py:160 | the grid has one point per combination: the product of the three sample counts |
| Grid.ProductAt | dbstep/sterics.py:160 | the grid is in x-major order: point `(xs[i], ys[j], zs[k])` sits at index `(i * ny + j) * nz + k`, with `ny`, `nz` the y and z sample counts |
| Grid.ExpandedRadius | dbstep/sterics.py:47 | the probe radius plus 10%: at least the probe radius exactly when that radius is not negative, and strictly beyond it exactly when it is positive |
| Grid.AddedPoints | dbstep/sterics.py:117-120 | the number of added lattice points times the spacing is within half a spacing of the distance the face moved |
| Grid.ExtendUpper | dbstep/sterics.py:114-120 | one upper-face block: the face ends where `ReachUp` puts it, and the axis count grows by the lattice points added only when the face fell short of the expanded radius |
| Grid.ExtendLower | dbstep/sterics.py:135-141 | one lower-face block: the face ends where `ReachDown` puts it, and the axis count grows by the lattice points added only when the face fell short of minus the expanded radius |
| Grid.ReachUp | dbstep/sterics.py:114-116 | an upper face ends at the expanded radius or beyond, moved there only if it fell short |
| Grid.ReachDown | dbstep/sterics.py:135-137 | a lower face ends at minus the expanded radius or beyond, moved there only if it fell short |
| Grid.ResizeGrid | dbstep/sterics.py:112-162 | every face reaches the expanded probe sphere; each per-axis count grows by the points added at its two faces and never shrinks; the grid is the product of the three linspaces and has `xdim*ydim*zdim` points |
| Geometry.InBallMonotone | dbstep/sterics.py:291 | a larger ball about the same centre holds every point a smaller one holds |
| Geometry.CountWithinMonotone | dbstep/sterics.py:291 | the ball count never decreases as the radius grows |
| Geometry.CountWithinRemove | dbstep/sterics.py:291 | removing one point lowers the count by one exactly when that point lies in the ball |
| Geometry.CountWithinSubMultiset | dbstep/sterics.py:295 | the occupied points, being grid points, never outnumber the grid points in any ball |
| Geometry.CountWithinNegative | dbstep/sterics.py:323 | a ball of negative radius holds no point |
| Occupancy.Gather | dbstep/sterics.py:97 | fancy indexing succeeds exactly when every index is in range, and then picks `s[idx[k]]` for each `k` |
| Occupancy.BallQuery | dbstep/sterics.py:84 | index `i` is returned exactly when grid point `i` lies in the ball |
| Occupancy.Occupied | dbstep/sterics.py:75-97 | `jdx` has no repeated index; an index is in `jdx` exactly when its grid point lies in the sphere of some atom, shifted by `origin`; the result is `grid[jdx]` |
| Occupancy.OccupiedDens | dbstep/sterics.py:100-109 | the selected indices increase strictly; an index is selected exactly when its density is strictly above the isovalue; the result is `grid[sel]` |
| Occupancy.GatherDistinct | dbstep/sterics.py:97 | gathering pairwise distinct indices from the grid yields a sub-multiset of the grid |
| Occupancy.IncreasingNoDuplicates | dbstep/sterics.py:106-107 | the strictly increasing density selection holds no index twice |
| Seqs.CountTrue | dbstep/parse_data.py:132 | `count_nonzero` of a mask never exceeds the mask's length |
| Seqs.Invert | dbstep/parse_data.py:136 | `np.invert` of a mask has the same length and flips every entry |
| Seqs.Select | dbstep/parse_data.py:136 | boolean indexing keeps one entry per marked position |
| Seqs.CountTrueInvert | dbstep/parse_data.py:136 | the entries a mask marks and those its inversion marks together number the whole sequence |
| Seqs.SelectAt | dbstep/parse_data.py:136-137 | a kept entry appears in the filtered sequence at the number of kept entries before it |
| Seqs.SelectFrom | dbstep/parse_data.py:136-137 | every entry of the filtered sequence comes from a kept position |
| Seqs.SelectElements | dbstep/sterics.py:235 | the masked sequence holds exactly the entries whose mask is set |
| Seqs.SelectKeepsOrder | dbstep/parse_data.py:136-137 | the mask filter keeps the relative order of the kept entries |
| Seqs.RunningMaxBounds | dbstep/sterics.py:28-29 | the strict-`>` running maximum from `init`: no entry and not `init` exceeds it, and it is `init` or some entry |
| Seqs.RunningMinBounds | dbstep/sterics.py:218-219 | the strict-`>` running minimum from `init`: it exceeds no entry and not `init`, and it is `init` or some entry |
| Seqs.FirstMaxStep | dbstep/sterics.py:184-185 | the strict `>` update keeps the index of the first entry that reaches the maximum |
| Seqs.FirstMinStep | dbstep/sterics.py:218-219 | the strict `>` update keeps the index of the first direction that reaches the minimum |
| Seqs.MaxStep | dbstep/sterics.py:184-185 | visiting one more entry with the strict `>` update yields the running maximum of the longer prefix and keeps its first position |
| Seqs.MinStep | dbstep/sterics.py:218-219 | visiting one more direction with the strict `>` update yields the running minimum of the longer prefix and keeps its first position |
| Seqs.Max | dbstep/sterics.py:241 | `max` of a non-empty list: bounds every entry and is one of them |
| Seqs.Min | dbstep/sterics.py:262 | `min` of a non-empty list: below or at every entry and is one of them |
| Sterimol.SweepAngles | dbstep/sterics.py:205-206 | 361 directions, from -pi to pi |
| Sterimol.ClassicSterimol | dbstep/sterics.py:165-222 | L is the largest `abs(z) + radius` and Bmax the largest `hypot(x, y) + radius`, both at least 0.0 and attained unless 0.0; `b5Atom` is the first atom reaching Bmax; Bmin is the smallest, over the 361 directions, of the farthest reach in that direction; `b1Angle` is the first direction reaching it |
| Sterimol.LengthIsLargest | dbstep/sterics.py:168-172 | L bounds every atom's `abs(z) + radius` and, unless it is 0.0, equals one of them |
| Sterimol.WidthIsLargest | dbstep/sterics.py:176-185 | Bmax bounds every atom's `hypot(x, y) + radius` and, unless it is 0.0, equals one of them |
| Sterimol.FarthestReach | dbstep/sterics.py:210-216 | the per-direction value is the strict-`>` running maximum, from 0.0, of each atom's projection plus radius |
| Sterimol.SweepMin | dbstep/sterics.py:204-219 | Bmin is the running minimum, from the float maximum, of the per-direction farthest reaches; the first direction attaining it is reported |
| Sterimol.ParallelGridScan | dbstep/sterics.py:22-30 | the farthest projection of any point onto the direction, at least 0.0, attained unless 0.0 |
| Sterimol.Slab | dbstep/sterics.py:234-236 | with a zero strip width the layer is the whole grid; otherwise it holds exactly the grid points in the strip |
| Sterimol.NonZeroScans | dbstep/sterics.py:254-259 | `max_r` holds exactly the non-zero scans over the 361 directions, in sweep order |
| Sterimol.CubeBmin | dbstep/sterics.py:250-262 | grid Bmin is at most every non-zero scan and equals one of them, or it is the float maximum and every scan is zero |
| Sterimol.KeptNonZero | dbstep/sterics.py:257-262 | every non-zero scan is kept in `max_r`, so `min(max_r)` is at most it, and that minimum is itself a non-zero scan |
| Sterimol.CubeSterimol | dbstep/sterics.py:225-277 | on an empty layer L, Bmax and Bmin are all 0; otherwise L is the largest height of a layer point, Bmax the largest planar radius, and Bmin the smallest non-zero scan over the 361 directions |
| Sterimol.ProjectionWithinHypot | dbstep/sterics.py:212 | no projection onto a unit direction (line 212) exceeds the distance `np.hypot(x, y)` from the axis (line 176) |
| Sterimol.ReachWithinWidth | dbstep/sterics.py:212-213 | in every direction each atom's reach `projection + radii[i]` (lines 212-213) is at most the largest atomic width `hypot + radii[n]` (line 176) |
| Sterimol.ClassicBminAtMostBmax | dbstep/sterics.py:176-219 | with true cos, sin and hypot, the classic Bmin never exceeds the classic Bmax |
| Sterimol.ClassicBminNonNegative | dbstep/sterics.py:210-219 | the classic Bmin is never negative |
| Sterimol.ScanWithinRadius | dbstep/sterics.py:27 | each grid scan is at most the largest planar radius |
| Sterimol.CubeBminAtMostBmax | dbstep/sterics.py:240-262 | with true cos, sin and sqrt, a non-zero grid scan, and hence the grid Bmin, never exceeds the grid Bmax |
| BuriedVolume.SphereVolume | dbstep/sterics.py:282 | the exact sphere volume is positive exactly for a positive radius and zero exactly for a zero radius |
| BuriedVolume.ShellVolume | dbstep/sterics.py:321 | the difference of the two cubed radii reduces to `4/3 pi w (3 R^2 + w^2/4)` |
| BuriedVolume.FirstPassNeedsVolume | dbstep/sterics.py:282-300 | a first pass that divides without error has a positive radius and a non-zero spacing |
| BuriedVolume.Measure | dbstep/sterics.py:290-300 | the pass fails on the total volume exactly when no grid volume lies in the sphere, and on the sphere volume exactly when that is zero; otherwise it reports the ball count and its volume |
| BuriedVolume.Progress | dbstep/sterics.py:302-313 | an accepted pass counts strictly more grid points than the previous accepted one, which bounds the number of passes |
| BuriedVolume.ShellPercent | dbstep/sterics.py:320-326 | without a strip the shell occupancy is 0.0 |
| BuriedVolume.BuriedVol | dbstep/sterics.py:280-334 | the loop and the shell compute exactly `BuriedVolSpec`, the recursive refinement with its three stop conditions |
| BuriedVolume.ShellVolumeSign | dbstep/sterics.py:321 | the exact shell volume is non-zero, with the sign of the strip width, whenever the width is non-zero |
| BuriedVolume.MeasurePercentBounds | dbstep/sterics.py:298 | one pass's percent buried lies in [0, 100] when the occupied points are grid points |
| BuriedVolume.RefinePercentBounds | dbstep/sterics.py:288-313 | the refinement's percentage stays in [0, 100], or it is the starting value when the first pass stops the loop |
| BuriedVolume.BuriedPercentBounds | dbstep/sterics.py:280-334 | the percent buried volume lies in [0, 100], or is the float maximum left by a first-pass stop |
| BuriedVolume.OccupiedBuriedBounds | dbstep/sterics.py:75-97 | the occupied grid of `occupied`, distinct indices gathered from the grid, never outnumbers the grid in any ball, so its percent buried volume lies in [0, 100] or is the float maximum |
| BuriedVolume.DensBuriedBounds | dbstep/sterics.py:100-109 | the same bound for the occupied grid of `occupied_dens`, whose indices increase strictly |
| BuriedVolume.Refine | dbstep/sterics.py:288-313 | the loop stops on an unchanged volume, on a worse error, or once within 5%; the radius it ends with is never below the starting one |
| BuriedVolume.BuriedVolSpec | dbstep/sterics.py:280-334 | a successful `buried_vol` had a positive radius and a non-zero spacing, and reports a shell occupancy of 0.0 without a strip |
| BuriedVolume.FirstPassAccepted | dbstep/sterics.py:284-313 | a first pass whose volume differs from the starting old values and whose error does not exceed them is accepted and the radius grows; the code starts both at the float maximum |
| BuriedVolume.ConvergedAtOnce | dbstep/sterics.py:288-326 | a first pass within 5% gives its percentage, and the shell is measured at the radius grown by 10% |
| BuriedVolume.EmptySphereFails | dbstep/sterics.py:298 | no grid point in the starting sphere, or a zero spacing, fails with a division by the zero total volume |
| BuriedVolume.ZeroRadiusFails | dbstep/sterics.py:282-300 | a zero radius with a grid point at the origin fails with a division by the zero sphere volume |
| ParseData.IsHydrogen | dbstep/parse_data.py:129 | the mask marks exactly the atoms whose symbol is "H" |
| ParseData.Renumber | dbstep/parse_data.py:131-133 | an index minus the hydrogens before it: a non-negative index never moves up and stays non-negative, and a negative one never moves up |
| ParseData.KeepMask | dbstep/parse_data.py:129-136 | an atom is kept exactly when its symbol is not "H" |
| ParseData.SliceEnd | dbstep/parse_data.py:132 | the end of the numpy slice `[:k]`, which is `k` itself inside the array |
| ParseData.DropHydrogens | dbstep/parse_data.py:136-137 | the filtered sequence is shorter by the number of hydrogens |
| ParseData.NoHydrogenLeft | dbstep/parse_data.py:136 | no "H" remains, and the symbols left are exactly the non-hydrogen symbols |
| ParseData.KeptBefore | dbstep/parse_data.py:131-133 | the renumbered index is the number of atoms kept before the original one |
| ParseData.RenumberSameAtom | dbstep/parse_data.py:131-137 | a renumbered non-hydrogen index picks the same symbol and the same Cartesian after filtering |
| ParseData.RenumberKeepsOrder | dbstep/parse_data.py:131-133 | renumbering keeps the order of non-hydrogen atoms |
| ParseData.MolData.RemoveHydrogens | dbstep/parse_data.py:128-137 | without `noH` nothing changes; with it the specified atoms are stored, renumbered past earlier hydrogens, and split into the first and the rest; both parallel sequences are filtered by the same mask and no "H" remains |
| ParseData.ElementSymbol | dbstep/parse_data.py:18-25 | the table entry, Python negative indices included, or "XX" on an index out of range |
| ParseData.ElementNumber | dbstep/parse_data.py:18-25 | the first position of the symbol in the table; None exactly when the symbol is absent |
| ParseData.SymbolNumberRoundTrip | dbstep/parse_data.py:18-25 | in a table without repeats, the number of the symbol at position `k` is `k` |
| ParseData.NumberSymbolRoundTrip | dbstep/parse_data.py:18-25 | the symbol at a symbol's number is that symbol |

## Left out

- Floating-point rounding is not modelled; reals are exact. `cos`, `sin`, `hypot` and `sqrt` are uninterpreted parameters.
- `math.pi` and `sys.float_info.max` are their decimal values as exact reals.
- Grid.GridRound and Grid.AddedPoints require a positive spacing. With a zero spacing, `grid_round` raises ZeroDivisionError at `1/spacing` (`dbstep/sterics.py:35`). A negative spacing is accepted by the code but excluded by the model, which does not say what the code computes then. No check in `dbstep/sterics.py` or `dbstep/parse_data.py` rejects a negative spacing.
- Grid.MaxDim requires a positive spacing. With a zero spacing, the code fails on every call.
  - When an atom face meets a bound, it fails in `grid_round` (`dbstep/sterics.py:35`).
  - Otherwise it fails at the latest at `int(cubic_volume / (spacing ** 3))` (`dbstep/sterics.py:71`). That line runs unconditionally and either divides by zero or converts the non-finite result to an integer.
  - A negative spacing is accepted by the code but excluded by the model.
- Grid.ExtendUpper, Grid.ExtendLower and Grid.ResizeGrid require a positive spacing only for a face short of the expanded radius. Only such a face reaches the divisions at `dbstep/sterics.py:114-155`. When every face is already at or past the expanded radius, any spacing is accepted, as in the code, including zero and negative ones. A zero spacing with a short face raises at `dbstep/sterics.py:35`. A negative spacing with a short face is accepted by the code but excluded by the model.
- Grid.MaxDim, Occupancy.Occupied and Sterimol.ClassicSterimol require at least as many radii as coordinates. With fewer, the code raises IndexError at `radii[n]` (`dbstep/sterics.py:56`, `:84`, `:171`), and the model does not model that error.
- Grid.ResizeGrid requires non-negative point counts on the molecule, as the density-cube reader produces.
- Grid.ResizeGrid: the resized corners are ghost outputs; the code keeps them local.
- Grid.MaxDim: the unused `cubic_volume` and `n_points`, and the verbose print, are not modelled.
- Sterimol.ClassicSterimol requires at least one atom. With none, the code reads the Bmin marker coordinates `x`, `y` before they are assigned (an UnboundLocalError at `dbstep/sterics.py:219`).
- Sterimol.ClassicSterimol and Sterimol.CubeSterimol do not model the marker vectors, the PyMol cylinder strings, `theta`, `xmax`/`ymax`/`xmin`/`ymin`, or the `x_hist`/`y_hist`/`rad_hist` lists. They are display output only. The argument `atoms` and the specified-atom arguments are unused by the code.
- Sterimol.CubeSterimol: on a non-empty layer whose every scan is 0.0, Bmin stays the float maximum, as in the code.
- Sterimol.ParallelGridScan is modelled sequentially. The numba `prange` loop updates the running maximum from a shared variable, and its parallel scheduling is not modelled.
- Occupancy.Occupied: the order of `jdx` comes from a Python set and is left unspecified. The k-d tree is replaced by its exact ball query.
- Occupancy.OccupiedDens: the unused `cube` value and the verbose prints are not modelled.
- BuriedVolume.BuriedVol: the verbose prints, the WARNING print and `free_vol` are not modelled. The k-d trees are rebuilt each pass in the code and are replaced by exact ball counts.
- BuriedVolume.BuriedPercentBounds allows the float maximum as a result. Over reals, a first pass stops at once and returns that initial value when its total volume equals the float maximum (`dbstep/sterics.py:302`) or its volume error is strictly greater than it (`old_err < vol_err`, `dbstep/sterics.py:305`).
- Geometry.InBall: a ball of negative radius holds no point. This is a choice of the abstraction. It matters for the inner radius `R - 0.5 * strip_width` of the shell (`dbstep/sterics.py:323`), and the model does not say what the k-d tree returns for a negative radius.
- constants.py is not part of this model. The periodic table is a parameter of ParseData.ElementSymbol and ParseData.ElementNumber.
- ParseData.ElementNumber returns None where `list.index` raises an uncaught ValueError.
- File parsing, cclib and RDKit are not modelled. The three readers share one `noH` block (`dbstep/parse_data.py:128-137`, `163-172`, `207-216`), which is modelled once as ParseData.MolData.RemoveHydrogens.
