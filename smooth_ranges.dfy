/**
 * The list of smoothing ranges that the main window keeps in a list box
 * (FTIR_Processor.py): each entry is the text "start - end" with both
 * bounds written to two decimals, and every reader parses the text back.
 *
 * Covered here: entering a range (`add_range`), reading the list back
 * (`get_selected_ranges`), merging overlapping or nearby ranges
 * (`_merge_overlapping_ranges`), dragging a boundary (`on_canvas_motion`,
 * `on_canvas_release`), and deleting or clearing entries.
 */
module SmoothRanges {
  import opened Common
  import opened DecimalText

  /** A range as (start, end); the list may hold either order. */
  type Interval = (real, real)

  /** The merge's sort key, `min(start, end)`. */
  function Lo(r: Interval): real
  {
    if r.0 <= r.1 then r.0 else r.1
  }

  function Hi(r: Interval): real
  {
    if r.0 <= r.1 then r.1 else r.0
  }

  /** The swap `if start > end: start, end = end, start`. */
  function Normalize(r: Interval): (n: Interval)
    ensures n.0 <= n.1 && n.0 == Lo(r) && n.1 == Hi(r)
  {
    if r.0 > r.1 then (r.1, r.0) else r
  }

  /** Python's two-argument `max`, which keeps the first of equal values. */
  function Larger(a: real, b: real): (m: real)
    ensures m >= a && m >= b && (m == a || m == b)
  {
    if a >= b then a else b
  }

  function Smaller(a: real, b: real): (m: real)
    ensures m <= a && m <= b && (m == a || m == b)
  {
    if a <= b then a else b
  }

  /** The gap two ranges may leave between them and still be merged. */
  const MergeGap: real := 5.0

  /** The smallest width a drag leaves between the two boundaries. */
  const DragMinWidth: real := 1.0

  // ---------------------------------------------------------------------
  // The list box text
  // ---------------------------------------------------------------------

  /** `f"{start:.2f} - {end:.2f}"` */
  function FormatRange(r: Interval): string
  {
    FormatFixed2(r.0) + " - " + FormatFixed2(r.1)
  }

  /** `s.split(" - ")`: cut at every occurrence, scanning from the left. */
  function Split(s: string): (parts: seq<string>)
    ensures |parts| >= 1
    decreases |s|
  {
    if |s| < 3 then [s]
    else if s[..3] == " - " then [""] + Split(s[3..])
    else
      var rest := Split(s[1..]);
      [[s[0]] + rest[0]] + rest[1..]
  }

  /** `start, end = map(float, s.split(" - "))`; None stands for the ValueError. */
  function ParseRange(s: string): Option<Interval>
  {
    var parts := Split(s);
    if |parts| != 2 then None
    else
      match (ParseFixed2(parts[0]), ParseFixed2(parts[1]))
      case (Some(a), Some(b)) => Some((a, b))
      case _ => None
  }

  /** What `get_selected_ranges` returns for a list of entries, None when it raises. */
  function ParseAll(entries: seq<string>): (r: Option<seq<Interval>>)
    ensures r.Some? ==> |r.value| == |entries|
  {
    CollectAll(ParseRange, entries)
  }

  function FormatAll(rs: seq<Interval>): (es: seq<string>)
    ensures |es| == |rs|
    ensures forall i :: 0 <= i < |rs| ==> es[i] == FormatRange(rs[i])
  {
    seq(|rs|, i requires 0 <= i < |rs| => FormatRange(rs[i]))
  }

  /** Both bounds of every range are exact two-decimal values. */
  predicate AllCents(rs: seq<Interval>)
  {
    forall i :: 0 <= i < |rs| ==> IsCents(rs[i].0) && IsCents(rs[i].1)
  }

  lemma {:induction false} SplitNoSpace(b: string)
    requires NoSpace(b)
    ensures Split(b) == [b]
    decreases |b|
  {
    if |b| >= 3 {
      assert b[..3] != " - " by { assert b[..3][0] == b[0] != ' '; }
      SplitNoSpace(b[1..]);
      assert [b[0]] + b[1..] == b;
    }
  }

  lemma {:induction false} SplitAround(a: string, b: string)
    requires NoSpace(a) && NoSpace(b)
    ensures Split(a + " - " + b) == [a, b]
    decreases |a|
  {
    var s := a + " - " + b;
    if |a| == 0 {
      assert s[..3] == " - ";
      assert s[3..] == b;
      SplitNoSpace(b);
    } else {
      assert s[..3] != " - " by { assert s[..3][0] == a[0] != ' '; }
      assert s[1..] == a[1..] + " - " + b;
      SplitAround(a[1..], b);
      assert [s[0]] + a[1..] == a;
    }
  }

  /** Reading an entry back yields the bounds as they were rounded for display. */
  lemma ParseFormatRange(r: Interval)
    ensures ParseRange(FormatRange(r)) == Some((Round2(r.0), Round2(r.1)))
  {
    FormatNoSpace(r.0);
    FormatNoSpace(r.1);
    SplitAround(FormatFixed2(r.0), FormatFixed2(r.1));
    FormatParse(r.0);
    FormatParse(r.1);
  }

  lemma ParseFormatCents(r: Interval)
    requires IsCents(r.0) && IsCents(r.1)
    ensures ParseRange(FormatRange(r)) == Some(r)
  {
    ParseFormatRange(r);
  }

  lemma ParseAllSnoc(es: seq<string>, e: string)
    ensures ParseAll(es + [e]) ==
      match (ParseAll(es), ParseRange(e))
      case (Some(front), Some(last)) => Some(front + [last])
      case _ => None
  {
    CollectSnoc(ParseRange, es, e);
  }

  /** Written entries of exact two-decimal bounds are read back unchanged. */
  lemma FormatAllParses(rs: seq<Interval>)
    requires AllCents(rs)
    ensures ParseAll(FormatAll(rs)) == Some(rs)
  {
    var es := FormatAll(rs);
    forall i | 0 <= i < |rs|
      ensures ParseRange(es[i]) == Some(rs[i])
    {
      ParseFormatCents(rs[i]);
    }
    ParseAllOfEach(es, rs);
  }

  // ---------------------------------------------------------------------
  // Merging
  // ---------------------------------------------------------------------

  predicate SortedByLo(s: seq<Interval>)
  {
    forall k :: 0 < k < |s| ==> Lo(s[k - 1]) <= Lo(s[k])
  }

  /**
   * Insert e after every element whose key is at most its own: an
   * insertion sort built on it is stable, like Python's `sorted`.
   */
  function Insert(t: seq<Interval>, e: Interval): (r: seq<Interval>)
    ensures multiset(r) == multiset(t) + multiset{e}
    ensures |r| == |t| + 1
    ensures r[|r| - 1] == e || (|t| > 0 && r[|r| - 1] == t[|t| - 1])
    ensures SortedByLo(t) ==> SortedByLo(r)
  {
    if |t| == 0 || Lo(t[|t| - 1]) <= Lo(e) then t + [e]
    else
      var front := Insert(t[..|t| - 1], e);
      assert t[..|t| - 1] + [t[|t| - 1]] == t;
      front + [t[|t| - 1]]
  }

  /** `sorted(ranges, key=lambda r: min(r[0], r[1]))` */
  function SortByLo(s: seq<Interval>): (r: seq<Interval>)
    ensures multiset(r) == multiset(s)
    ensures SortedByLo(r)
  {
    if |s| == 0 then []
    else
      assert s[..|s| - 1] + [s[|s| - 1]] == s;
      Insert(SortByLo(s[..|s| - 1]), s[|s| - 1])
  }

  lemma {:induction false} SortSorted(s: seq<Interval>)
    requires SortedByLo(s)
    ensures SortByLo(s) == s
    decreases |s|
  {
    if |s| > 0 {
      var front := s[..|s| - 1];
      var last := s[|s| - 1];
      assert front + [last] == s;
      assert SortedByLo(front) by {
        forall k | 0 < k < |front|
          ensures Lo(front[k - 1]) <= Lo(front[k])
        {
          assert front[k - 1] == s[k - 1] && front[k] == s[k];
        }
      }
      SortSorted(front);
      assert SortByLo(s) == Insert(SortByLo(front), last);
      assert |front| == 0 || Lo(front[|front| - 1]) <= Lo(last);
      assert Insert(front, last) == front + [last];
    }
  }

  /**
   * The merge loop from position i of the sorted list: `cur` is the running
   * range, `acc` the ranges already flushed, `has` whether anything was
   * absorbed. Returns the merged list and the final `has_merged`.
   */
  function Sweep(s: seq<Interval>, i: nat, cur: Interval, acc: seq<Interval>, has: bool): (seq<Interval>, bool)
    requires i <= |s|
    decreases |s| - i
  {
    if i == |s| then (acc + [cur], has)
    else
      var n := Normalize(s[i]);
      if n.0 <= cur.1 + MergeGap then Sweep(s, i + 1, (cur.0, Larger(cur.1, n.1)), acc, true)
      else Sweep(s, i + 1, n, acc + [cur], has)
  }

  /** The merge loop of `_merge_overlapping_ranges` over the sorted ranges. */
  method SweepSorted(sorted: seq<Interval>) returns (acc: seq<Interval>, hasMerged: bool)
    requires |sorted| >= 1
    ensures (acc, hasMerged) == Sweep(sorted, 1, Normalize(sorted[0]), [], false)
  {
    var curStart, curEnd := sorted[0].0, sorted[0].1;
    if curStart > curEnd {
      curStart, curEnd := curEnd, curStart;
    }
    acc, hasMerged := [], false;
    var i := 1;
    while i < |sorted|
      invariant 1 <= i <= |sorted|
      invariant Sweep(sorted, i, (curStart, curEnd), acc, hasMerged)
             == Sweep(sorted, 1, Normalize(sorted[0]), [], false)
    {
      var nextStart, nextEnd := sorted[i].0, sorted[i].1;
      if nextStart > nextEnd {
        nextStart, nextEnd := nextEnd, nextStart;
      }
      if nextStart <= curEnd + MergeGap {
        curEnd := Larger(curEnd, nextEnd);
        hasMerged := true;
      } else {
        acc := acc + [(curStart, curEnd)];
        curStart, curEnd := nextStart, nextEnd;
      }
      i := i + 1;
    }
    acc := acc + [(curStart, curEnd)];
  }

  /**
   * `_merge_overlapping_ranges` on the parsed list: whether it reports a
   * merge, and the list the box holds afterwards (the input itself when
   * nothing was absorbed, since the box is then left alone).
   */
  function MergeOutcome(rs: seq<Interval>): (seq<Interval>, bool)
  {
    if |rs| <= 1 then (rs, false)
    else
      var sorted := SortByLo(rs);
      var swept := Sweep(sorted, 1, Normalize(sorted[0]), [], false);
      if swept.1 then swept else (rs, false)
  }

  /** Ranges in order, each with start <= end, each more than MergeGap past the previous end. */
  predicate Separated(s: seq<Interval>)
  {
    && (forall k :: 0 <= k < |s| ==> s[k].0 <= s[k].1)
    && (forall k :: 0 < k < |s| ==> s[k - 1].1 + MergeGap < s[k].0)
  }

  /** Some range of `out` contains the range r. */
  predicate Covered(r: Interval, out: seq<Interval>)
  {
    exists o :: o in out && Lo(o) <= Lo(r) && Hi(r) <= Hi(o)
  }

  /** Both ends of o are ends of ranges in s. */
  predicate EndsFrom(o: Interval, s: seq<Interval>)
  {
    (exists r :: r in s && o.0 == Lo(r)) && (exists r :: r in s && o.1 == Hi(r))
  }

  lemma SeparatedWiden(acc: seq<Interval>, cur: Interval, next: Interval)
    requires Separated(acc + [cur])
    requires next.0 == cur.0 && cur.1 <= next.1
    ensures Separated(acc + [next])
  {
    var t, u := acc + [cur], acc + [next];
    forall k | 0 <= k < |u|
      ensures u[k].0 <= u[k].1
    {
      assert k < |acc| ==> u[k] == t[k];
      assert t[|acc|] == cur;
    }
    forall k | 0 < k < |u|
      ensures u[k - 1].1 + MergeGap < u[k].0
    {
      assert u[k - 1] == t[k - 1];
      assert u[k].0 == t[k].0;
    }
  }

  lemma SeparatedSnoc(t: seq<Interval>, n: Interval)
    requires Separated(t) && |t| > 0
    requires n.0 <= n.1 && t[|t| - 1].1 + MergeGap < n.0
    ensures Separated(t + [n])
  {
    var u := t + [n];
    forall k | 0 < k < |u|
      ensures u[k - 1].1 + MergeGap < u[k].0
    {
      if k < |t| {
        assert u[k - 1] == t[k - 1] && u[k] == t[k];
      }
    }
  }

  lemma {:induction false} SweepSeparated(s: seq<Interval>, i: nat, cur: Interval, acc: seq<Interval>, has: bool)
    requires i <= |s|
    requires Separated(acc + [cur])
    ensures Separated(Sweep(s, i, cur, acc, has).0)
    decreases |s| - i
  {
    if i < |s| {
      var n := Normalize(s[i]);
      if n.0 <= cur.1 + MergeGap {
        var next := (cur.0, Larger(cur.1, n.1));
        SeparatedWiden(acc, cur, next);
        SweepSeparated(s, i + 1, next, acc, true);
      } else {
        SeparatedSnoc(acc + [cur], n);
        SweepSeparated(s, i + 1, n, acc + [cur], has);
      }
    }
  }

  lemma {:induction false} SweepCovers(s: seq<Interval>, i: nat, cur: Interval, acc: seq<Interval>, has: bool)
    requires 0 < i <= |s|
    requires SortedByLo(s)
    requires cur.0 <= Lo(s[i - 1]) && Lo(s[i - 1]) <= cur.1
    requires forall j :: 0 <= j < i ==> Covered(s[j], acc + [cur])
    ensures forall j :: 0 <= j < |s| ==> Covered(s[j], Sweep(s, i, cur, acc, has).0)
    decreases |s| - i
  {
    if i < |s| {
      var n := Normalize(s[i]);
      if n.0 <= cur.1 + MergeGap {
        var next := (cur.0, Larger(cur.1, n.1));
        forall j | 0 <= j <= i
          ensures Covered(s[j], acc + [next])
        {
          if j == i {
            assert next in acc + [next];
          } else {
            var o :| o in acc + [cur] && Lo(o) <= Lo(s[j]) && Hi(s[j]) <= Hi(o);
            if o in acc {
              assert o in acc + [next];
            } else {
              assert next in acc + [next];
            }
          }
        }
        SweepCovers(s, i + 1, next, acc, true);
      } else {
        forall j | 0 <= j <= i
          ensures Covered(s[j], acc + [cur] + [n])
        {
          if j == i {
            assert n in acc + [cur] + [n];
          } else {
            var o :| o in acc + [cur] && Lo(o) <= Lo(s[j]) && Hi(s[j]) <= Hi(o);
            assert o in acc + [cur] + [n];
          }
        }
        SweepCovers(s, i + 1, n, acc + [cur], has);
      }
    }
  }

  lemma {:induction false} SweepEnds(s: seq<Interval>, i: nat, cur: Interval, acc: seq<Interval>, has: bool)
    requires i <= |s|
    requires forall o :: o in acc + [cur] ==> EndsFrom(o, s)
    ensures forall o :: o in Sweep(s, i, cur, acc, has).0 ==> EndsFrom(o, s)
    decreases |s| - i
  {
    if i < |s| {
      var n := Normalize(s[i]);
      assert s[i] in s;
      assert EndsFrom(n, s);
      if n.0 <= cur.1 + MergeGap {
        var next := (cur.0, Larger(cur.1, n.1));
        assert cur in acc + [cur];
        assert EndsFrom(next, s);
        forall o | o in acc + [next]
          ensures EndsFrom(o, s)
        {
          if o != next {
            assert o in acc + [cur];
          }
        }
        SweepEnds(s, i + 1, next, acc, true);
      } else {
        forall o | o in acc + [cur] + [n]
          ensures EndsFrom(o, s)
        {
          if o != n {
            assert o in acc + [cur];
          }
        }
        SweepEnds(s, i + 1, n, acc + [cur], has);
      }
    }
  }

  lemma {:induction false} SweepLength(s: seq<Interval>, i: nat, cur: Interval, acc: seq<Interval>, has: bool)
    requires i <= |s|
    ensures var (out, merged) := Sweep(s, i, cur, acc, has);
      && |out| <= |acc| + 1 + (|s| - i)
      && (merged <==> has || |out| < |acc| + 1 + (|s| - i))
    decreases |s| - i
  {
    if i < |s| {
      var n := Normalize(s[i]);
      if n.0 <= cur.1 + MergeGap {
        SweepLength(s, i + 1, (cur.0, Larger(cur.1, n.1)), acc, true);
      } else {
        SweepLength(s, i + 1, n, acc + [cur], has);
      }
    }
  }

  /** On a separated list the loop flushes every range and absorbs none. */
  lemma {:induction false} SweepOfSeparated(s: seq<Interval>, i: nat)
    requires 0 < i <= |s|
    requires Separated(s)
    ensures Sweep(s, i, s[i - 1], s[..i - 1], false) == (s, false)
    decreases |s| - i
  {
    if i == |s| {
      assert s[..i - 1] + [s[i - 1]] == s;
    } else {
      assert Normalize(s[i]) == s[i];
      assert s[..i - 1] + [s[i - 1]] == s[..i];
      SweepOfSeparated(s, i + 1);
    }
  }

  /** After a merge the ranges are ordered, proper and more than 5.0 apart. */
  lemma MergeSeparates(rs: seq<Interval>)
    ensures MergeOutcome(rs).1 ==> Separated(MergeOutcome(rs).0)
  {
    if |rs| > 1 {
      var sorted := SortByLo(rs);
      SweepSeparated(sorted, 1, Normalize(sorted[0]), [], false);
    }
  }

  /** Every range that was in the list lies inside one range of the merged list. */
  lemma MergeCovers(rs: seq<Interval>)
    ensures forall r :: r in rs ==> Covered(r, MergeOutcome(rs).0)
  {
    if |rs| <= 1 {
      forall r | r in rs
        ensures Covered(r, rs)
      {
      }
    } else {
      var sorted := SortByLo(rs);
      var first := Normalize(sorted[0]);
      assert Covered(sorted[0], [] + [first]) by { assert first in [] + [first]; }
      SweepCovers(sorted, 1, first, [], false);
      var out := Sweep(sorted, 1, first, [], false);
      if out.1 {
        forall r | r in rs
          ensures Covered(r, out.0)
        {
          assert r in multiset(sorted);
          var j :| 0 <= j < |sorted| && sorted[j] == r;
        }
      } else {
        forall r | r in rs
          ensures Covered(r, rs)
        {
        }
      }
    }
  }

  /** Merging creates no new boundary: each merged bound is a bound of an original range. */
  lemma MergeEnds(rs: seq<Interval>)
    ensures MergeOutcome(rs).1 ==> forall o :: o in MergeOutcome(rs).0 ==> EndsFrom(o, rs)
  {
    if |rs| > 1 {
      var sorted := SortByLo(rs);
      var first := Normalize(sorted[0]);
      assert sorted[0] in sorted;
      assert EndsFrom(first, sorted);
      SweepEnds(sorted, 1, first, [], false);
      var out := Sweep(sorted, 1, first, [], false);
      if out.1 {
        forall o | o in out.0
          ensures EndsFrom(o, rs)
        {
          assert EndsFrom(o, sorted);
          var a :| a in sorted && o.0 == Lo(a);
          var b :| b in sorted && o.1 == Hi(b);
          assert a in multiset(sorted) && b in multiset(sorted);
        }
      }
    }
  }

  /** A merge is reported exactly when the list got shorter. */
  lemma MergeShortens(rs: seq<Interval>)
    ensures MergeOutcome(rs).1 <==> |MergeOutcome(rs).0| < |rs|
  {
    if |rs| > 1 {
      var sorted := SortByLo(rs);
      assert |multiset(sorted)| == |multiset(rs)|;
      SweepLength(sorted, 1, Normalize(sorted[0]), [], false);
    }
  }

  /** A second merge straight after the first finds nothing to absorb. */
  lemma MergeIdempotent(rs: seq<Interval>)
    ensures !MergeOutcome(MergeOutcome(rs).0).1
  {
    var out := MergeOutcome(rs);
    if out.1 {
      MergeSeparates(rs);
      var s := out.0;
      if |s| > 1 {
        assert SortedByLo(s) by {
          forall k | 0 < k < |s|
            ensures Lo(s[k - 1]) <= Lo(s[k])
          {
          }
        }
        SortSorted(s);
        SweepOfSeparated(s, 1);
        assert s[..0] == [];
        assert Normalize(s[0]) == s[0];
      }
    }
  }

  /** Merging exact two-decimal ranges gives exact two-decimal ranges, so the text holds them exactly. */
  lemma MergeKeepsCents(rs: seq<Interval>)
    requires AllCents(rs)
    ensures AllCents(MergeOutcome(rs).0)
  {
    var out := MergeOutcome(rs);
    if out.1 {
      MergeEnds(rs);
      forall k | 0 <= k < |out.0|
        ensures IsCents(out.0[k].0) && IsCents(out.0[k].1)
      {
        var o := out.0[k];
        assert EndsFrom(o, rs);
        var a :| a in rs && o.0 == Lo(a);
        var b :| b in rs && o.1 == Hi(b);
        var ia :| 0 <= ia < |rs| && rs[ia] == a;
        var ib :| 0 <= ib < |rs| && rs[ib] == b;
      }
    }
  }

  // ---------------------------------------------------------------------
  // Entering a range
  // ---------------------------------------------------------------------

  /** ASCII whitespace as `str.strip()` removes it. */
  predicate IsSpace(c: char)
  {
    c == ' ' || ('\t' <= c <= '\r') || (28 <= c as int <= 31)
  }

  /** `s.lstrip()` */
  function TrimStart(s: string): (r: string)
    ensures |r| <= |s| && r == s[|s| - |r|..]
    ensures |r| > 0 ==> !IsSpace(r[0])
    ensures forall i :: 0 <= i < |s| - |r| ==> IsSpace(s[i])
    decreases |s|
  {
    if |s| > 0 && IsSpace(s[0]) then TrimStart(s[1..]) else s
  }

  /** `s.rstrip()` */
  function TrimEnd(s: string): (r: string)
    ensures |r| <= |s| && r == s[..|r|]
    ensures |r| > 0 ==> !IsSpace(r[|r| - 1])
    ensures forall i :: |r| <= i < |s| ==> IsSpace(s[i])
    decreases |s|
  {
    if |s| > 0 && IsSpace(s[|s| - 1]) then TrimEnd(s[..|s| - 1]) else s
  }

  /** `s.strip()`: empty exactly when s is all whitespace, otherwise trimmed at both ends. */
  function Strip(s: string): (r: string)
    ensures |r| == 0 <==> forall i :: 0 <= i < |s| ==> IsSpace(s[i])
    ensures |r| > 0 ==> !IsSpace(r[0]) && !IsSpace(r[|r| - 1])
  {
    var t := TrimStart(s);
    assert forall i :: |s| - |t| <= i < |s| ==> s[i] == t[i - (|s| - |t|)];
    TrimEnd(t)
  }

  datatype AddError =
    | BlankInput
    | NotANumber
    | StartNotBelowEnd
    | NoData
    | OutsideData(min: real, max: real)

  /**
   * The checks of `add_range` in their order; `parse` is Python's `float`,
   * with None for its ValueError.
   */
  function CheckRangeInput(startText: string, endText: string, parse: string -> Option<real>, x: Option<seq<real>>)
    : Result<Interval, AddError>
  {
    var a := Strip(startText);
    var b := Strip(endText);
    if a == "" || b == "" then Err(BlankInput)
    else
      match (parse(a), parse(b))
      case (Some(start), Some(end)) =>
        if start >= end then Err(StartNotBelowEnd)
        else if x.None? || |x.value| == 0 then Err(NoData)
        else if start < Min(x.value) || end > Max(x.value) then Err(OutsideData(Min(x.value), Max(x.value)))
        else Ok((start, end))
      case _ => Err(NotANumber)
  }

  /** Accepted input is a proper range inside the loaded wavenumbers. */
  lemma CheckAccepts(startText: string, endText: string, parse: string -> Option<real>, x: Option<seq<real>>)
    ensures CheckRangeInput(startText, endText, parse, x).Ok? <==>
      && Strip(startText) != "" && Strip(endText) != ""
      && parse(Strip(startText)).Some? && parse(Strip(endText)).Some?
      && parse(Strip(startText)).value < parse(Strip(endText)).value
      && x.Some? && |x.value| > 0
      && Min(x.value) <= parse(Strip(startText)).value && parse(Strip(endText)).value <= Max(x.value)
    ensures var c := CheckRangeInput(startText, endText, parse, x);
      c.Ok? ==>
        && c.value == (parse(Strip(startText)).value, parse(Strip(endText)).value)
        && Min(x.value) <= c.value.0 < c.value.1 <= Max(x.value)
  {
    var a, b := Strip(startText), Strip(endText);
    var c := CheckRangeInput(startText, endText, parse, x);
    if a == "" || b == "" {
      assert c == Err(BlankInput);
    } else if parse(a).None? || parse(b).None? {
      assert c == Err(NotANumber);
    } else if parse(a).value >= parse(b).value {
      assert c == Err(StartNotBelowEnd);
    } else if x.None? || |x.value| == 0 {
      assert c == Err(NoData);
    } else {
      var lo, hi := Min(x.value), Max(x.value);
      assert c == if parse(a).value < lo || parse(b).value > hi then Err(OutsideData(lo, hi))
                  else Ok((parse(a).value, parse(b).value));
    }
  }

  /** The line written for an accepted range reads back as an ordered range. */
  lemma AcceptedReadsBack(r: Interval)
    requires r.0 < r.1
    ensures ParseRange(FormatRange(r)) == Some((Round2(r.0), Round2(r.1)))
    ensures Round2(r.0) <= Round2(r.1)
  {
    ParseFormatRange(r);
    Round2Monotone(r.0, r.1);
  }

  // ---------------------------------------------------------------------
  // Dragging a boundary
  // ---------------------------------------------------------------------

  datatype Edge = StartEdge | EndEdge

  /**
   * The drag update: the pointer position is clamped to the loaded
   * wavenumbers, then the start moves only to below end - 1.0 and the end
   * only to above start + 1.0.
   */
  function DragTo(r: Interval, edge: Edge, pointer: real, x: Option<seq<real>>): Interval
    requires x.Some? ==> |x.value| > 0
  {
    var p := if x.Some? then Larger(Min(x.value), Smaller(Max(x.value), pointer)) else pointer;
    match edge
    case StartEdge => if p < r.1 - DragMinWidth then (p, r.1) else r
    case EndEdge => if p > r.0 + DragMinWidth then (r.0, p) else r
  }

  lemma CentsShift(v: real, d: int)
    requires IsCents(v)
    ensures IsCents(v + d as real)
  {
    var c := RoundHalfEven(v * 100.0);
    assert v == c as real / 100.0;
    assert v + d as real == (c + 100 * d) as real / 100.0;
    Round2OfCents(c + 100 * d);
  }

  /**
   * A drag touches only the dragged edge; the moved edge lies within the
   * data, and once written to two decimals the range is still at least
   * 1.0 wide.
   */
  lemma DragKeepsWidth(r: Interval, edge: Edge, pointer: real, x: Option<seq<real>>)
    requires x.Some? ==> |x.value| > 0
    requires IsCents(r.0) && IsCents(r.1)
    ensures var d := DragTo(r, edge, pointer, x);
      && (edge == StartEdge ==> d.1 == r.1)
      && (edge == EndEdge ==> d.0 == r.0)
      && (d != r && x.Some? ==>
            Min(x.value) <= (if edge == StartEdge then d.0 else d.1) <= Max(x.value))
      && (d != r ==> Round2(d.1) - Round2(d.0) >= DragMinWidth && d.1 - d.0 > DragMinWidth)
  {
    var d := DragTo(r, edge, pointer, x);
    if d != r {
      if edge == StartEdge {
        CentsShift(r.1, -1);
        Round2Monotone(d.0, r.1 - 1.0);
      } else {
        CentsShift(r.0, 1);
        Round2Monotone(r.0 + 1.0, d.1);
      }
    }
  }

  // ---------------------------------------------------------------------
  // The list box
  // ---------------------------------------------------------------------

  class RangeList {
    /** The list box lines, top to bottom. */
    var entries: seq<string>
    /** `selected_range_index`: the range highlighted on the plot, if any. */
    var selected: Option<nat>

    /** Every line reads back as a range of exact two-decimal bounds. */
    ghost predicate Valid()
      reads this`entries
    {
      ParseAll(entries).Some? && AllCents(ParseAll(entries).value)
    }

    constructor ()
      ensures Valid()
      ensures entries == [] && selected.None?
    {
      entries, selected := [], None;
    }

    /** `get_selected_ranges`: None stands for the ValueError of a malformed line. */
    method GetSelectedRanges() returns (ranges: Option<seq<Interval>>)
      ensures ranges == ParseAll(entries)
      ensures Valid() ==> ranges.Some? && |ranges.value| == |entries|
    {
      var acc: seq<Interval> := [];
      var i := 0;
      while i < |entries|
        invariant 0 <= i <= |entries|
        invariant ParseAll(entries[..i]) == Some(acc)
      {
        assert entries[..i + 1] == entries[..i] + [entries[i]];
        ParseAllSnoc(entries[..i], entries[i]);
        var r := ParseRange(entries[i]);
        if r.None? {
          ParseAllPrefixFails(entries, i + 1);
          return None;
        }
        acc := acc + [r.value];
        i := i + 1;
      }
      assert entries[..i] == entries;
      return Some(acc);
    }

    /** `_merge_overlapping_ranges` */
    method MergeOverlapping() returns (merged: bool)
      requires Valid()
      modifies this
      ensures Valid()
      ensures var rs := ParseAll(old(entries)).value;
        && merged == MergeOutcome(rs).1
        && ParseAll(entries) == Some(MergeOutcome(rs).0)
        && (merged ==> entries == FormatAll(MergeOutcome(rs).0))
        && (!merged ==> entries == old(entries))
      ensures selected == old(selected)
    {
      var found := GetSelectedRanges();
      var ranges := found.value;
      if |ranges| <= 1 {
        return false;
      }
      var sorted := SortByLo(ranges);
      var acc, hasMerged := SweepSorted(sorted);
      if hasMerged {
        MergeKeepsCents(ranges);
        Rewrite(acc);
        FormatAllParses(acc);
        return true;
      }
      return false;
    }

    /** Replace every line: `delete(0, END)`, then one `insert(END, ...)` per range. */
    method Rewrite(rs: seq<Interval>)
      modifies this
      ensures entries == FormatAll(rs)
      ensures selected == old(selected)
    {
      entries := [];
      var j := 0;
      while j < |rs|
        invariant 0 <= j <= |rs|
        invariant entries == FormatAll(rs[..j])
        invariant selected == old(selected)
      {
        assert rs[..j + 1] == rs[..j] + [rs[j]];
        entries := entries + [FormatRange(rs[j])];
        j := j + 1;
      }
      assert rs[..j] == rs;
    }

    /** `add_range`: the entered range is appended, then merged when spectra are loaded. */
    method AddRange(startText: string, endText: string, parse: string -> Option<real>,
                    x: Option<seq<real>>, yLoaded: bool)
      returns (error: Option<AddError>)
      requires Valid()
      modifies this
      ensures Valid()
      ensures selected == old(selected)
      ensures var c := CheckRangeInput(startText, endText, parse, x);
        && (c.Err? ==> error == Some(c.error) && entries == old(entries))
        && (c.Ok? && !yLoaded ==> error.None? && entries == old(entries) + [FormatRange(c.value)])
        && (c.Ok? && yLoaded ==>
              && error.None?
              && ParseAll(entries)
                 == Some(MergeOutcome(ParseAll(old(entries)).value + [(Round2(c.value.0), Round2(c.value.1))]).0))
    {
      var c := CheckRangeInput(startText, endText, parse, x);
      if c.Err? {
        return Some(c.error);
      }
      AppendRange(c.value);
      if yLoaded {
        var merged := MergeOverlapping();
      }
      return None;
    }

    /** `insert(END, f"{start:.2f} - {end:.2f}")`: one more line, read back rounded to cents. */
    method AppendRange(r: Interval)
      requires Valid()
      modifies this`entries
      ensures Valid()
      ensures entries == old(entries) + [FormatRange(r)]
      ensures ParseAll(entries) == Some(ParseAll(old(entries)).value + [(Round2(r.0), Round2(r.1))])
    {
      ParseFormatRange(r);
      Round2Idempotent(r.0);
      Round2Idempotent(r.1);
      ParseAllSnoc(entries, FormatRange(r));
      AllCentsSnoc(ParseAll(entries).value, (Round2(r.0), Round2(r.1)));
      entries := entries + [FormatRange(r)];
    }

    /** The pointer-move step of a boundary drag (`on_canvas_motion`). */
    method DragBoundary(index: nat, edge: Edge, pointer: real, x: Option<seq<real>>)
      requires Valid()
      requires x.Some? ==> |x.value| > 0
      modifies this
      ensures Valid()
      ensures selected == old(selected)
      ensures index >= |old(entries)| ==> entries == old(entries)
      ensures index < |old(entries)| ==>
        var d := DragTo(ParseAll(old(entries)).value[index], edge, pointer, x);
        && entries == old(entries)[index := FormatRange(d)]
        && ParseAll(entries) == Some(ParseAll(old(entries)).value[index := (Round2(d.0), Round2(d.1))])
    {
      var found := GetSelectedRanges();
      var ranges := found.value;
      if index >= |ranges| {
        return;
      }
      var d := DragTo(ranges[index], edge, pointer, x);
      ParseFormatRange(d);
      Round2Idempotent(d.0);
      Round2Idempotent(d.1);
      ParseAllUpdate(entries, index, FormatRange(d));
      entries := entries[index := FormatRange(d)];
    }

    /** The end of a drag (`on_canvas_release`): merge, and drop the highlight when the list changed. */
    method ReleaseDrag() returns (merged: bool)
      requires Valid()
      modifies this
      ensures Valid()
      ensures var rs := ParseAll(old(entries)).value;
        && merged == MergeOutcome(rs).1
        && ParseAll(entries) == Some(MergeOutcome(rs).0)
      ensures selected == (if merged then None else old(selected))
    {
      merged := MergeOverlapping();
      if merged {
        selected := None;
      }
    }

    /** `delete_range`: remove the selected line, if any, and keep the highlight on the same range. */
    method DeleteRange(selection: Option<nat>)
      requires Valid()
      requires selection.Some? ==> selection.value < |entries|
      modifies this
      ensures Valid()
      ensures selection.None? ==> entries == old(entries) && selected == old(selected)
      ensures selection.Some? ==>
        var k := selection.value;
        && entries == old(entries)[..k] + old(entries)[k + 1..]
        && ParseAll(entries) == Some(ParseAll(old(entries)).value[..k] + ParseAll(old(entries)).value[k + 1..])
        && selected == (if old(selected) == Some(k) then None
                        else if old(selected).Some? && old(selected).value > k then Some(old(selected).value - 1)
                        else old(selected))
    {
      if selection.Some? {
        DeleteAt(selection.value);
      }
    }

    /** Remove line k and move the highlight with its range. */
    method DeleteAt(k: nat)
      requires Valid() && k < |entries|
      modifies this
      ensures Valid()
      ensures entries == old(entries)[..k] + old(entries)[k + 1..]
      ensures ParseAll(entries) == Some(ParseAll(old(entries)).value[..k] + ParseAll(old(entries)).value[k + 1..])
      ensures selected == (if old(selected) == Some(k) then None
                          else if old(selected).Some? && old(selected).value > k then Some(old(selected).value - 1)
                          else old(selected))
    {
      RemoveEntry(k);
      FollowRemoval(k);
    }

    /** Drop line k of the text box; the selection is left to the caller. */
    method RemoveEntry(k: nat)
      requires Valid() && k < |entries|
      modifies this
      ensures Valid() && selected == old(selected)
      ensures entries == old(entries)[..k] + old(entries)[k + 1..]
      ensures ParseAll(entries) == Some(ParseAll(old(entries)).value[..k] + ParseAll(old(entries)).value[k + 1..])
    {
      ParseAllRemove(entries, k);
      AllCentsRemove(ParseAll(entries).value, k);
      entries := entries[..k] + entries[k + 1..];
    }

    /** The highlight follows its range when line k goes: cleared if it was k, shifted down if after it. */
    method FollowRemoval(k: nat)
      modifies this`selected
      ensures selected == (if old(selected) == Some(k) then None
                          else if old(selected).Some? && old(selected).value > k then Some(old(selected).value - 1)
                          else old(selected))
    {
      if selected == Some(k) {
        selected := None;
      } else if selected.Some? && selected.value > k {
        selected := Some(selected.value - 1);
      }
    }

    /** `clear_ranges` */
    method ClearRanges()
      modifies this
      ensures Valid()
      ensures entries == [] && selected.None?
    {
      entries, selected := [], None;
    }
  }

  lemma ParseAllPrefixFails(es: seq<string>, i: nat)
    requires 0 < i <= |es| && ParseAll(es[..i]).None?
    ensures ParseAll(es).None?
  {
    CollectPrefixFails(ParseRange, es, i);
  }

  /** A parsed list holds, position by position, what each line parses to. */
  lemma ParseAllAt(es: seq<string>)
    requires ParseAll(es).Some?
    ensures forall i :: 0 <= i < |es| ==> ParseRange(es[i]) == Some(ParseAll(es).value[i])
  {
    CollectAt(ParseRange, es);
  }

  lemma ParseAllOfEach(es: seq<string>, rs: seq<Interval>)
    requires |es| == |rs|
    requires forall i :: 0 <= i < |es| ==> ParseRange(es[i]) == Some(rs[i])
    ensures ParseAll(es) == Some(rs)
  {
    CollectOfEach(ParseRange, es, rs);
  }

  lemma ParseAllUpdate(es: seq<string>, k: nat, e: string)
    requires ParseAll(es).Some? && k < |es| && ParseRange(e).Some?
    ensures ParseAll(es[k := e]) == Some(ParseAll(es).value[k := ParseRange(e).value])
  {
    CollectUpdate(ParseRange, es, k, e);
  }

  lemma AllCentsSnoc(rs: seq<Interval>, r: Interval)
    requires AllCents(rs) && IsCents(r.0) && IsCents(r.1)
    ensures AllCents(rs + [r])
  {
    var grown := rs + [r];
    assert forall i :: 0 <= i < |rs| ==> grown[i] == rs[i];
  }

  lemma AllCentsRemove(rs: seq<Interval>, k: nat)
    requires AllCents(rs) && k < |rs|
    ensures AllCents(rs[..k] + rs[k + 1..])
  {
    var kept := RemoveAt(rs, k);
  }

  lemma ParseAllRemove(es: seq<string>, k: nat)
    requires ParseAll(es).Some? && k < |es|
    ensures ParseAll(es[..k] + es[k + 1..]) == Some(ParseAll(es).value[..k] + ParseAll(es).value[k + 1..])
  {
    CollectRemove(ParseRange, es, k);
  }
}
