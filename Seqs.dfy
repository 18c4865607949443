/**
 * Sequence vocabulary shared by the steric engine and the parsers: numpy-style
 * boolean-mask selection, and running maxima and minima with Python's strict `>`
 * tie-break.
 */
module Seqs {
  import opened Wrappers

  /** Number of `true` entries of a mask (numpy `count_nonzero`). */
  function CountTrue(m: seq<bool>): (n: nat)
    ensures n <= |m|
    decreases |m|
  {
    if m == [] then 0 else CountTrue(m[..|m| - 1]) + (if m[|m| - 1] then 1 else 0)
  }

  /** Element-wise negation of a mask (numpy `invert`). */
  function Invert(m: seq<bool>): (r: seq<bool>)
    ensures |r| == |m| && forall i :: 0 <= i < |m| ==> r[i] == !m[i]
  {
    seq(|m|, i requires 0 <= i < |m| => !m[i])
  }

  lemma {:induction false} CountTrueInvert(m: seq<bool>)
    ensures CountTrue(m) + CountTrue(Invert(m)) == |m|
    decreases |m|
  {
    if m != [] {
      var p := m[..|m| - 1];
      assert Invert(m)[..|m| - 1] == Invert(p);
      CountTrueInvert(p);
    }
  }

  /** Counting a longer prefix never gives less, and a marked position adds one. */
  lemma {:induction false} CountTruePrefix(m: seq<bool>, i: nat, j: nat)
    requires i < j <= |m|
    ensures CountTrue(m[..i]) + (if m[i] then 1 else 0) <= CountTrue(m[..j])
    decreases j - i
  {
    assert m[..i + 1][..i] == m[..i];
    if j > i + 1 {
      CountTruePrefix(m, i, j - 1);
      assert m[..j][..j - 1] == m[..j - 1];
    }
  }

  /** The entries of `s` whose mask entry is `true`, in their original order (numpy `s[m]`). */
  function Select<T>(s: seq<T>, m: seq<bool>): (r: seq<T>)
    requires |s| == |m|
    ensures |r| == CountTrue(m)
    decreases |s|
  {
    if s == [] then []
    else Select(s[..|s| - 1], m[..|m| - 1]) + (if m[|m| - 1] then [s[|s| - 1]] else [])
  }

  /** A kept entry lands at the position given by the number of kept entries before it. */
  lemma {:induction false} SelectAt<T>(s: seq<T>, m: seq<bool>, i: nat)
    requires |s| == |m| && i < |s| && m[i]
    ensures CountTrue(m[..i]) < |Select(s, m)|
    ensures Select(s, m)[CountTrue(m[..i])] == s[i]
    decreases |s|
  {
    var n := |s| - 1;
    assert m[..n] == m[..|m| - 1];
    if i < n {
      SelectAt(s[..n], m[..n], i);
      assert m[..n][..i] == m[..i];
    } else {
      assert m[..i] == m[..|m| - 1];
    }
  }

  /** Every selected entry comes from a kept position of `s`. */
  lemma {:induction false} SelectFrom<T>(s: seq<T>, m: seq<bool>, k: nat) returns (i: nat)
    requires |s| == |m| && k < |Select(s, m)|
    ensures i < |s| && m[i] && s[i] == Select(s, m)[k]
    decreases |s|
  {
    var n := |s| - 1;
    var prefix := Select(s[..n], m[..n]);
    assert Select(s, m) == prefix + (if m[n] then [s[n]] else []);
    if k < |prefix| {
      i := SelectFrom(s[..n], m[..n], k);
    } else {
      i := n;
    }
  }

  /** Every entry of the selection is a kept entry of `s`, and every kept entry is selected. */
  lemma SelectElements<T>(s: seq<T>, m: seq<bool>)
    requires |s| == |m|
    ensures forall x :: x in Select(s, m) <==> exists i :: 0 <= i < |s| && m[i] && s[i] == x
  {
    forall x | x in Select(s, m) ensures exists i :: 0 <= i < |s| && m[i] && s[i] == x {
      var k :| 0 <= k < |Select(s, m)| && Select(s, m)[k] == x;
      var i := SelectFrom(s, m, k);
    }
    forall x | exists i :: 0 <= i < |s| && m[i] && s[i] == x ensures x in Select(s, m) {
      var i :| 0 <= i < |s| && m[i] && s[i] == x;
      SelectAt(s, m, i);
    }
  }

  /** Selection keeps relative order: kept entries i < j land at strictly increasing positions. */
  lemma SelectKeepsOrder(m: seq<bool>, i: nat, j: nat)
    requires i < j < |m| && m[i] && m[j]
    ensures CountTrue(m[..i]) < CountTrue(m[..j])
  {
    CountTruePrefix(m, i, j);
  }

  predicate NoDuplicates<T(==)>(s: seq<T>)
  {
    forall i, j :: 0 <= i < j < |s| ==> s[i] != s[j]
  }

  predicate StrictlyIncreasing(s: seq<int>)
  {
    forall i, j :: 0 <= i < j < |s| ==> s[i] < s[j]
  }

  /**
   * A running maximum seeded with `init`, updated with a strict `>` as each entry
   * is visited; `RunningMaxBounds` shows it is the larger of `init` and the largest entry.
   */
  function RunningMax(init: real, s: seq<real>): real
    decreases |s|
  {
    if s == [] then init
    else
      var prev := RunningMax(init, s[..|s| - 1]);
      if s[|s| - 1] > prev then s[|s| - 1] else prev
  }

  /** A running minimum seeded with `init`, updated with a strict `>`; `RunningMinBounds` says what it is. */
  function RunningMin(init: real, s: seq<real>): real
    decreases |s|
  {
    if s == [] then init
    else
      var prev := RunningMin(init, s[..|s| - 1]);
      if prev > s[|s| - 1] then s[|s| - 1] else prev
  }

  /** The running maximum bounds `init` and every entry, and is `init` or one of the entries. */
  lemma {:induction false} RunningMaxBounds(init: real, s: seq<real>)
    ensures init <= RunningMax(init, s)
    ensures forall i :: 0 <= i < |s| ==> s[i] <= RunningMax(init, s)
    ensures RunningMax(init, s) == init || exists i :: 0 <= i < |s| && s[i] == RunningMax(init, s)
    decreases |s|
  {
    if s != [] {
      var prefix := s[..|s| - 1];
      RunningMaxBounds(init, prefix);
      assert forall i :: 0 <= i < |prefix| ==> s[i] == prefix[i];
      if RunningMax(init, prefix) != init && RunningMax(init, s) == RunningMax(init, prefix) {
        var j :| 0 <= j < |prefix| && prefix[j] == RunningMax(init, prefix);
        assert s[j] == RunningMax(init, s);
      }
    }
  }

  /** The running minimum is below or at `init` and every entry, and is `init` or one of the entries. */
  lemma {:induction false} RunningMinBounds(init: real, s: seq<real>)
    ensures RunningMin(init, s) <= init
    ensures forall i :: 0 <= i < |s| ==> RunningMin(init, s) <= s[i]
    ensures RunningMin(init, s) == init || exists i :: 0 <= i < |s| && s[i] == RunningMin(init, s)
    decreases |s|
  {
    if s != [] {
      var prefix := s[..|s| - 1];
      RunningMinBounds(init, prefix);
      assert forall i :: 0 <= i < |prefix| ==> s[i] == prefix[i];
      if RunningMin(init, prefix) != init && RunningMin(init, s) == RunningMin(init, prefix) {
        var j :| 0 <= j < |prefix| && prefix[j] == RunningMin(init, prefix);
        assert s[j] == RunningMin(init, s);
      }
    }
  }

  /** One more step of a running maximum: the next entry replaces it only when strictly larger. */
  lemma RunningMaxStep(init: real, s: seq<real>, i: nat)
    requires i < |s|
    ensures RunningMax(init, s[..i + 1]) == if s[i] > RunningMax(init, s[..i]) then s[i] else RunningMax(init, s[..i])
  {
    assert s[..i + 1][..i] == s[..i];
  }

  /** One more step of a running minimum: the next entry replaces it only when strictly smaller. */
  lemma RunningMinStep(init: real, s: seq<real>, i: nat)
    requires i < |s|
    ensures RunningMin(init, s[..i + 1]) == if RunningMin(init, s[..i]) > s[i] then s[i] else RunningMin(init, s[..i])
  {
    assert s[..i + 1][..i] == s[..i];
  }

  /**
   * `m` is the running maximum of `s` from `init`, and `idx` the position that last
   * raised it: the first entry equal to `m`, every earlier entry strictly below; None
   * when no entry rose above `init`.
   */
  predicate IsFirstMax(s: seq<real>, init: real, m: real, idx: Option<nat>) {
    && (forall i :: 0 <= i < |s| ==> s[i] <= m)
    && match idx
       case None => m == init
       case Some(k) => k < |s| && s[k] == m && init < m && forall i :: 0 <= i < k ==> s[i] < m
  }

  /** The mirror of `IsFirstMax` for a running minimum updated with a strict `>`. */
  predicate IsFirstMin(s: seq<real>, init: real, m: real, idx: Option<nat>) {
    && (forall i :: 0 <= i < |s| ==> m <= s[i])
    && match idx
       case None => m == init
       case Some(k) => k < |s| && s[k] == m && m < init && forall i :: 0 <= i < k ==> m < s[i]
  }

  /** Visiting one more entry with a strict `>` keeps the first position of the maximum. */
  lemma FirstMaxStep(s: seq<real>, init: real, m: real, idx: Option<nat>, n: nat)
    requires n < |s| && IsFirstMax(s[..n], init, m, idx)
    ensures s[n] > m ==> IsFirstMax(s[..n + 1], init, s[n], Some(n))
    ensures !(s[n] > m) ==> IsFirstMax(s[..n + 1], init, m, idx)
  {
    assert forall i :: 0 <= i < n ==> s[..n + 1][i] == s[..n][i];
  }

  /** Visiting one more entry with a strict `>` keeps the first position of the minimum. */
  lemma FirstMinStep(s: seq<real>, init: real, m: real, idx: Option<nat>, n: nat)
    requires n < |s| && IsFirstMin(s[..n], init, m, idx)
    ensures m > s[n] ==> IsFirstMin(s[..n + 1], init, s[n], Some(n))
    ensures !(m > s[n]) ==> IsFirstMin(s[..n + 1], init, m, idx)
  {
    assert forall i :: 0 <= i < n ==> s[..n + 1][i] == s[..n][i];
  }

  /** One visit of a strict-`>` maximum loop: the value and its first position, updated together. */
  lemma MaxStep(s: seq<real>, init: real, m: real, idx: Option<nat>, n: nat)
    requires n < |s| && m == RunningMax(init, s[..n]) && IsFirstMax(s[..n], init, m, idx)
    ensures s[n] > m ==> s[n] == RunningMax(init, s[..n + 1]) && IsFirstMax(s[..n + 1], init, s[n], Some(n))
    ensures !(s[n] > m) ==> m == RunningMax(init, s[..n + 1]) && IsFirstMax(s[..n + 1], init, m, idx)
  {
    RunningMaxStep(init, s, n);
    FirstMaxStep(s, init, m, idx, n);
  }

  /** One visit of a strict-`>` minimum loop: the value and its first position, updated together. */
  lemma MinStep(s: seq<real>, init: real, m: real, idx: Option<nat>, n: nat)
    requires n < |s| && m == RunningMin(init, s[..n]) && IsFirstMin(s[..n], init, m, idx)
    ensures m > s[n] ==> s[n] == RunningMin(init, s[..n + 1]) && IsFirstMin(s[..n + 1], init, s[n], Some(n))
    ensures !(m > s[n]) ==> m == RunningMin(init, s[..n + 1]) && IsFirstMin(s[..n + 1], init, m, idx)
  {
    RunningMinStep(init, s, n);
    FirstMinStep(s, init, m, idx, n);
  }

  /** Python's built-in `max` on a non-empty list. */
  function Max(s: seq<real>): (m: real)
    requires |s| > 0
    ensures forall i :: 0 <= i < |s| ==> s[i] <= m
    ensures exists i :: 0 <= i < |s| && s[i] == m
  {
    var m := RunningMax(s[0], s[1..]);
    RunningMaxBounds(s[0], s[1..]);
    assert forall i :: 1 <= i < |s| ==> s[i] == s[1..][i - 1];
    m
  }

  /** Python's built-in `min` on a non-empty list. */
  function Min(s: seq<real>): (m: real)
    requires |s| > 0
    ensures forall i :: 0 <= i < |s| ==> m <= s[i]
    ensures exists i :: 0 <= i < |s| && s[i] == m
  {
    var m := RunningMin(s[0], s[1..]);
    RunningMinBounds(s[0], s[1..]);
    assert forall i :: 1 <= i < |s| ==> s[i] == s[1..][i - 1];
    m
  }
}
