/**
 * The molecule readers of `dbstep/parse_data.py`, reduced to what they do after
 * parsing: the optional removal of hydrogens with the renumbering of the specified
 * atoms, and the periodic-table lookup `element_id`. A reader object holds the atom
 * symbols and Cartesians as parallel sequences.
 */
module ParseData {
  import opened Wrappers
  import opened Seqs
  import opened Geometry

  /** `ATOMTYPES == 'H'`: the hydrogen mask. */
  function IsHydrogen(types: seq<string>): (m: seq<bool>)
    ensures |m| == |types|
    ensures forall i :: 0 <= i < |types| ==> (m[i] <==> types[i] == "H")
  {
    seq(|types|, i requires 0 <= i < |types| => types[i] == "H")
  }

  /** `invert(ATOMTYPES == 'H')`: the atoms that stay. */
  function KeepMask(types: seq<string>): (m: seq<bool>)
    ensures |m| == |types|
    ensures forall i :: 0 <= i < |types| ==> (m[i] <==> types[i] != "H")
  {
    Invert(IsHydrogen(types))
  }

  /** Where the numpy slice `a[:k]` of a length-`n` array ends (a negative `k` counts from the end). */
  function SliceEnd(k: int, n: nat): (e: nat)
    ensures e <= n
    ensures 0 <= k <= n ==> e == k
  {
    if k < 0 then (if n + k < 0 then 0 else n + k)
    else if k > n then n
    else k
  }

  /**
   * `k - count_nonzero(is_h[:k])`: an index shifted down by the hydrogens before it, so
   * a non-negative index never moves up and never goes below zero, and a negative one
   * never moves up.
   */
  function Renumber(types: seq<string>, k: int): (r: int)
    ensures 0 <= k ==> 0 <= r <= k
    ensures k < 0 ==> r <= k
  {
    k - CountTrue(IsHydrogen(types)[..SliceEnd(k, |types|)])
  }

  /** The symbols with every hydrogen removed: none left, the count drops by the number of hydrogens. */
  function DropHydrogens<T>(s: seq<T>, types: seq<string>): (r: seq<T>)
    requires |s| == |types|
    ensures |r| == |types| - CountTrue(IsHydrogen(types))
  {
    CountTrueInvert(IsHydrogen(types));
    Select(s, KeepMask(types))
  }

  /** After the filter no symbol is "H", and the symbols left are exactly the non-hydrogen symbols. */
  lemma NoHydrogenLeft(types: seq<string>)
    ensures forall i :: 0 <= i < |DropHydrogens(types, types)| ==> DropHydrogens(types, types)[i] != "H"
    ensures forall x :: x in DropHydrogens(types, types) <==> x in types && x != "H"
  {
    var kept := DropHydrogens(types, types);
    forall i | 0 <= i < |kept| ensures kept[i] != "H" {
      var j := SelectFrom(types, KeepMask(types), i);
    }
    SelectElements(types, KeepMask(types));
  }

  /** The number of atoms kept before position `k`, for an index inside the molecule. */
  lemma KeptBefore(types: seq<string>, k: nat)
    requires k <= |types|
    ensures CountTrue(KeepMask(types)[..k]) == Renumber(types, k)
  {
    assert KeepMask(types)[..k] == Invert(IsHydrogen(types)[..k]);
    CountTrueInvert(IsHydrogen(types)[..k]);
  }

  /**
   * The renumbered index of a non-hydrogen atom selects the same atom: the same
   * symbol and the same Cartesian in the filtered parallel sequences.
   */
  lemma RenumberSameAtom(types: seq<string>, carts: seq<Point>, k: nat)
    requires |types| == |carts| && k < |types| && types[k] != "H"
    ensures 0 <= Renumber(types, k) < |DropHydrogens(types, types)|
    ensures DropHydrogens(types, types)[Renumber(types, k)] == types[k]
    ensures DropHydrogens(carts, types)[Renumber(types, k)] == carts[k]
  {
    KeptBefore(types, k);
    SelectAt(types, KeepMask(types), k);
    SelectAt(carts, KeepMask(types), k);
  }

  /** Renumbering keeps the relative order of non-hydrogen atoms. */
  lemma RenumberKeepsOrder(types: seq<string>, i: nat, j: nat)
    requires i < j < |types| && types[i] != "H" && types[j] != "H"
    ensures Renumber(types, i) < Renumber(types, j)
  {
    KeptBefore(types, i);
    KeptBefore(types, j);
    SelectKeepsOrder(KeepMask(types), i, j);
  }

  /** A parsed molecule: parallel symbols and Cartesians, and the specified atoms once hydrogens are removed. */
  class MolData {
    var atomTypes: seq<string>
    var cartesians: seq<Point>
    var specAtoms: Option<seq<int>>
    var specAtom1: Option<int>
    var specAtom2: Option<seq<int>>

    ghost predicate Valid()
      reads this
    {
      |atomTypes| == |cartesians|
    }

    /** A reader whose parsing produced `types` and `carts`; the specified atoms are not set yet. */
    constructor(types: seq<string>, carts: seq<Point>)
      requires |types| == |carts|
      ensures Valid()
      ensures atomTypes == types && cartesians == carts
      ensures specAtoms.None? && specAtom1.None? && specAtom2.None?
    {
      atomTypes, cartesians := types, carts;
      specAtoms, specAtom1, specAtom2 := None, None, None;
    }

    /**
     * The `noH` block shared by the readers: without `noH` nothing changes; with it the
     * specified atoms are renumbered past the hydrogens before them, and the hydrogens
     * are dropped from both parallel sequences by the same mask.
     */
    method RemoveHydrogens(noH: bool, spec1: int, spec2: seq<int>)
      requires Valid()
      modifies this
      ensures Valid()
      ensures !noH ==> (atomTypes == old(atomTypes) && cartesians == old(cartesians)
                        && specAtoms == old(specAtoms) && specAtom1 == old(specAtom1) && specAtom2 == old(specAtom2))
      ensures noH ==> specAtoms == Some([spec1] + spec2)
      ensures noH ==> specAtom1 == Some(Renumber(old(atomTypes), spec1))
      ensures noH ==> (specAtom2.Some? && |specAtom2.value| == |spec2|
                       && forall i :: 0 <= i < |spec2| ==> specAtom2.value[i] == Renumber(old(atomTypes), spec2[i]))
      ensures noH ==> (atomTypes == DropHydrogens(old(atomTypes), old(atomTypes))
                       && cartesians == DropHydrogens(old(cartesians), old(atomTypes)))
      ensures noH ==> forall i :: 0 <= i < |atomTypes| ==> atomTypes[i] != "H"
    {
      if noH {
        var types := atomTypes;
        var specs := [spec1] + spec2;
        specAtoms := Some(specs);
        var renumbered := seq(|specs|, i requires 0 <= i < |specs| => Renumber(types, specs[i]));
        specAtom1 := Some(renumbered[0]);
        specAtom2 := Some(renumbered[1..]);
        atomTypes := DropHydrogens(types, types);
        cartesians := DropHydrogens(cartesians, types);
        NoHydrogenLeft(types);
      }
    }
  }

  /** `element_id(massno)`: the table entry, Python negative indexing included, or "XX" when out of range. */
  function ElementSymbol(table: seq<string>, massno: int): (r: string)
    ensures 0 <= massno < |table| ==> r == table[massno]
    ensures -|table| <= massno < 0 ==> r == table[|table| + massno]
    ensures (massno >= |table| || massno < -|table|) ==> r == "XX"
  {
    if 0 <= massno < |table| then table[massno]
    else if -|table| <= massno < 0 then table[|table| + massno]
    else "XX"
  }

  /** `element_id(symbol, num=True)`: the first position of the symbol, or None where `list.index` raises ValueError. */
  function ElementNumber(table: seq<string>, symbol: string): (r: Option<nat>)
    ensures r.None? <==> symbol !in table
    ensures r.Some? ==> r.value < |table| && table[r.value] == symbol
                        && forall j :: 0 <= j < r.value ==> table[j] != symbol
    decreases |table|
  {
    if table == [] then None
    else if table[0] == symbol then Some(0)
    else match ElementNumber(table[1..], symbol)
      case None => None
      case Some(k) => Some(k + 1)
  }

  /** Looking a position up and back again returns the position, when the table has no repeated symbol. */
  lemma SymbolNumberRoundTrip(table: seq<string>, k: nat)
    requires k < |table| && NoDuplicates(table)
    ensures ElementNumber(table, ElementSymbol(table, k)) == Some(k)
  {
  }

  /** Looking a symbol up and back again returns the symbol. */
  lemma NumberSymbolRoundTrip(table: seq<string>, symbol: string)
    requires symbol in table
    ensures ElementNumber(table, symbol).Some?
    ensures ElementSymbol(table, ElementNumber(table, symbol).value) == symbol
  {
  }
}
