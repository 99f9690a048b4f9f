/**
 * NumPy boolean masks as the processors use them: `mask = (x >= lo) & (x <= hi)`,
 * selection `s[mask]` (which keeps the original order) and masked assignment
 * `a[mask] = values` (the k-th selected position receives the k-th value).
 */
module Masking {

  /** `(x >= lo) & (x <= hi)` */
  function WindowMask(x: seq<real>, lo: real, hi: real): (m: seq<bool>)
    ensures |m| == |x|
  {
    seq(|x|, i requires 0 <= i < |x| => lo <= x[i] <= hi)
  }

  /** Number of selected positions. */
  function Count(m: seq<bool>): (n: nat)
    ensures n <= |m|
  {
    if |m| == 0 then 0 else (if m[0] then 1 else 0) + Count(m[1..])
  }

  /** Position of the i-th sample inside the selection. */
  function Rank(m: seq<bool>, i: nat): nat
    requires i <= |m|
  {
    Count(m[..i])
  }

  /** `s[mask]` */
  function Select<T>(s: seq<T>, m: seq<bool>): (r: seq<T>)
    requires |s| == |m|
    ensures |r| == Count(m)
  {
    if |s| == 0 then []
    else (if m[0] then [s[0]] else []) + Select(s[1..], m[1..])
  }

  /** `a[mask] = vals` on a copy of `a`. */
  function MaskAssign(a: seq<real>, m: seq<bool>, vals: seq<real>): (r: seq<real>)
    requires |a| == |m| && |vals| == Count(m)
    ensures |r| == |a|
  {
    if |a| == 0 then []
    else if m[0] then [vals[0]] + MaskAssign(a[1..], m[1..], vals[1..])
    else [a[0]] + MaskAssign(a[1..], m[1..], vals)
  }

  lemma {:induction false} CountSnoc(m: seq<bool>, i: nat)
    requires i < |m|
    ensures Count(m[..i + 1]) == Count(m[..i]) + (if m[i] then 1 else 0)
  {
    if i > 0 {
      assert m[..i + 1][1..] == m[1..][..i];
      assert m[..i][1..] == m[1..][..i - 1];
      CountSnoc(m[1..], i - 1);
    }
  }

  /** A selected position makes the count positive. */
  lemma {:induction false} CountAtLeastOne(m: seq<bool>, i: nat)
    requires i < |m| && m[i]
    ensures Count(m) >= 1
  {
    if i > 0 {
      assert m[1..][i - 1] == m[i];
      CountAtLeastOne(m[1..], i - 1);
    }
  }

  /** Two different selected positions make the count at least 2. */
  lemma {:induction false} CountAtLeastTwo(m: seq<bool>, i: nat, j: nat)
    requires i < j < |m| && m[i] && m[j]
    ensures Count(m) >= 2
  {
    assert m[1..][j - 1] == m[j];
    if i == 0 {
      CountAtLeastOne(m[1..], j - 1);
    } else {
      assert m[1..][i - 1] == m[i];
      CountAtLeastTwo(m[1..], i - 1, j - 1);
    }
  }

  /** No selected position, count 0. */
  lemma {:induction false} CountNone(m: seq<bool>)
    requires forall j :: 0 <= j < |m| ==> !m[j]
    ensures Count(m) == 0
  {
    if |m| > 0 {
      CountNone(m[1..]);
    }
  }

  /** When only position i can be selected, the count is at most 1. */
  lemma {:induction false} CountOnly(m: seq<bool>, i: nat)
    requires i < |m|
    requires forall j :: 0 <= j < |m| && m[j] ==> j == i
    ensures Count(m) <= 1
  {
    if i == 0 {
      CountNone(m[1..]);
    } else {
      CountOnly(m[1..], i - 1);
    }
  }

  /** A positive count has a selected position behind it. */
  lemma {:induction false} CountWitness(m: seq<bool>) returns (i: nat)
    requires Count(m) > 0
    ensures i < |m| && m[i]
  {
    if m[0] {
      i := 0;
    } else {
      var k := CountWitness(m[1..]);
      i := k + 1;
    }
  }

  /** A selected position has a rank below the number of selected positions. */
  lemma RankBound(m: seq<bool>, i: nat)
    requires i < |m| && m[i]
    ensures Rank(m, i) < Count(m)
  {
    CountSnoc(m, i);
    CountPrefix(m, i + 1);
  }

  lemma {:induction false} CountPrefix(m: seq<bool>, i: nat)
    requires i <= |m|
    ensures Count(m[..i]) <= Count(m)
  {
    if i > 0 {
      assert m[..i][1..] == m[1..][..i - 1];
      CountPrefix(m[1..], i - 1);
    }
  }

  /** The sample at a selected position lands at its rank in the selection. */
  lemma {:induction false} SelectAt<T>(s: seq<T>, m: seq<bool>, i: nat)
    requires |s| == |m| && i < |m| && m[i]
    ensures Rank(m, i) < |Select(s, m)|
    ensures Select(s, m)[Rank(m, i)] == s[i]
  {
    RankBound(m, i);
    if i > 0 {
      assert m[..i][1..] == m[1..][..i - 1];
      SelectAt(s[1..], m[1..], i - 1);
    }
  }

  /** Every element of a selection is an element at a selected position. */
  lemma {:induction false} SelectFrom<T>(s: seq<T>, m: seq<bool>, k: nat)
    requires |s| == |m| && k < Count(m)
    ensures exists i :: 0 <= i < |s| && m[i] && Select(s, m)[k] == s[i]
  {
    if m[0] {
      if k > 0 {
        SelectFrom(s[1..], m[1..], k - 1);
        var i :| 0 <= i < |s| - 1 && m[1..][i] && Select(s[1..], m[1..])[k - 1] == s[1..][i];
        assert m[i + 1] && Select(s, m)[k] == s[i + 1];
      } else {
        assert Select(s, m)[0] == s[0];
      }
    } else {
      SelectFrom(s[1..], m[1..], k);
      var i :| 0 <= i < |s| - 1 && m[1..][i] && Select(s[1..], m[1..])[k] == s[1..][i];
      assert m[i + 1] && Select(s, m)[k] == s[i + 1];
    }
  }

  /** A mask that selects everything selects the whole sequence. */
  lemma {:induction false} SelectAll<T>(s: seq<T>, m: seq<bool>)
    requires |s| == |m| && forall i :: 0 <= i < |m| ==> m[i]
    ensures Select(s, m) == s
  {
    if |s| > 0 {
      SelectAll(s[1..], m[1..]);
    }
  }

  /** Assigning through a mask that selects everything replaces the whole sequence. */
  lemma {:induction false} MaskAssignAll(a: seq<real>, m: seq<bool>, vals: seq<real>)
    requires |a| == |m| && |vals| == Count(m) && forall i :: 0 <= i < |m| ==> m[i]
    ensures MaskAssign(a, m, vals) == vals
  {
    if |a| > 0 {
      MaskAssignAll(a[1..], m[1..], vals[1..]);
    }
  }

  /** A window reaching from the smallest to the largest x selects every sample. */
  lemma WindowAll(x: seq<real>, lo: real, hi: real)
    requires forall i :: 0 <= i < |x| ==> lo <= x[i] <= hi
    ensures forall i :: 0 <= i < |x| ==> WindowMask(x, lo, hi)[i]
  {
  }

  /** The samples a window mask selects all lie inside the window. */
  lemma WindowSelectBounds(x: seq<real>, lo: real, hi: real)
    ensures forall k :: 0 <= k < |Select(x, WindowMask(x, lo, hi))| ==>
      lo <= Select(x, WindowMask(x, lo, hi))[k] <= hi
  {
    var m := WindowMask(x, lo, hi);
    forall k | 0 <= k < |Select(x, m)|
      ensures lo <= Select(x, m)[k] <= hi
    {
      SelectFrom(x, m, k);
    }
  }

  /** Masked assignment, position by position. */
  lemma {:induction false} MaskAssignAt(a: seq<real>, m: seq<bool>, vals: seq<real>, i: nat)
    requires |a| == |m| && |vals| == Count(m) && i < |a|
    ensures m[i] ==> Rank(m, i) < |vals|
    ensures MaskAssign(a, m, vals)[i] == if m[i] then vals[Rank(m, i)] else a[i]
  {
    if m[i] {
      RankBound(m, i);
    }
    if i > 0 {
      assert m[..i][1..] == m[1..][..i - 1];
      if m[0] {
        MaskAssignAt(a[1..], m[1..], vals[1..], i - 1);
      } else {
        MaskAssignAt(a[1..], m[1..], vals, i - 1);
      }
    }
  }

  /** `a[mask] = vals` performed in place, one position at a time. */
  method AssignMasked(a: array<real>, m: seq<bool>, vals: seq<real>)
    requires a.Length == |m| && |vals| == Count(m)
    modifies a
    ensures a[..] == MaskAssign(old(a[..]), m, vals)
  {
    ghost var a0 := a[..];
    var i, k := 0, 0;
    while i < a.Length
      invariant 0 <= i <= a.Length
      invariant k == Count(m[..i]) && k <= |vals|
      invariant forall j :: 0 <= j < i ==> if m[j] then Rank(m, j) < k && a[j] == vals[Rank(m, j)] else a[j] == a0[j]
      invariant forall j :: i <= j < a.Length ==> a[j] == a0[j]
    {
      CountSnoc(m, i);
      if m[i] {
        RankBound(m, i);
        a[i] := vals[k];
        k := k + 1;
      }
      i := i + 1;
    }
    forall j | 0 <= j < a.Length
      ensures a[j] == MaskAssign(a0, m, vals)[j]
    {
      MaskAssignAt(a0, m, vals, j);
    }
  }
}
