/**
 * Peak-by-peak analysis in the main window (FTIR_Processor.py): the gate
 * that lets a range through only when it holds exactly one detected peak
 * (`validate_peak_range`), adding the analysed peak to the result table and
 * to the list of analysed ranges (`add_peak_to_analysis`), and the two ways
 * of deleting an analysis again (`delete_result_record`,
 * `delete_analyzed_range_from_plot`), which find the list entries through a
 * 0.01 tolerance on the bounds.
 *
 * The table shows the wavenumber and the bounds as two-decimal text and is
 * read back with `float`; heights and areas are kept as numbers here.
 */
module PeakRegistry {
  import opened Common
  import opened Masking
  import opened DecimalText
  import opened PeakAnalysis

  /** How far apart two bounds may be and still denote the same range. */
  const MatchTolerance: real := 0.01

  /** The swap `if lower > upper: lower, upper = upper, lower`. */
  function Ordered(lower: real, upper: real): (r: (real, real))
    ensures r.0 <= r.1
    ensures (r.0 == lower && r.1 == upper) || (r.0 == upper && r.1 == lower)
  {
    if lower > upper then (upper, lower) else (lower, upper)
  }

  /** Listed peaks inside the closed range between the two bounds, in either order. */
  function PeaksInRange(listed: seq<real>, lower: real, upper: real): nat
  {
    var (lo, hi) := Ordered(lower, upper);
    Count(WindowMask(listed, lo, hi))
  }

  datatype RangeProblem = NoPeaksListed | NoPeakInRange | SeveralPeaks(count: nat)

  /** The verdict of `validate_peak_range`, None when the range is accepted. */
  function RangeVerdict(listed: seq<real>, lower: real, upper: real): Option<RangeProblem>
  {
    if |listed| == 0 then Some(NoPeaksListed)
    else
      var count := PeaksInRange(listed, lower, upper);
      if count == 0 then Some(NoPeakInRange)
      else if count > 1 then Some(SeveralPeaks(count))
      else None
  }

  predicate Between(v: real, lower: real, upper: real)
  {
    Ordered(lower, upper).0 <= v <= Ordered(lower, upper).1
  }

  /** A range passes exactly when one listed peak, and no other, lies inside it. */
  lemma RangeVerdictExactlyOne(listed: seq<real>, lower: real, upper: real)
    ensures RangeVerdict(listed, lower, upper).None? <==>
      exists i :: 0 <= i < |listed| && Between(listed[i], lower, upper)
        && forall j :: 0 <= j < |listed| && Between(listed[j], lower, upper) ==> j == i
    ensures RangeVerdict(listed, lower, upper) == Some(NoPeakInRange) <==>
      |listed| > 0 && forall i :: 0 <= i < |listed| ==> !Between(listed[i], lower, upper)
  {
    var (lo, hi) := Ordered(lower, upper);
    var m := WindowMask(listed, lo, hi);
    assert forall i :: 0 <= i < |listed| ==> (m[i] <==> Between(listed[i], lower, upper));
    if RangeVerdict(listed, lower, upper).None? {
      var i := CountWitness(m);
      forall j | 0 <= j < |listed| && Between(listed[j], lower, upper)
        ensures j == i
      {
        if j < i {
          CountAtLeastTwo(m, j, i);
        } else if i < j {
          CountAtLeastTwo(m, i, j);
        }
      }
    }
    if exists i :: 0 <= i < |listed| && Between(listed[i], lower, upper) {
      var i :| 0 <= i < |listed| && Between(listed[i], lower, upper);
      CountAtLeastOne(m, i);
      if forall j :: 0 <= j < |listed| && Between(listed[j], lower, upper) ==> j == i {
        CountOnly(m, i);
      }
    } else {
      CountNone(m);
    }
  }

  /** `validate_peak_range`; `listed` are the wavenumbers of the peak table, top to bottom. */
  method ValidatePeakRange(listed: seq<real>, lower: real, upper: real)
    returns (valid: bool, count: nat, problem: Option<RangeProblem>)
    ensures problem == RangeVerdict(listed, lower, upper)
    ensures valid <==> problem.None?
    ensures count == (if |listed| == 0 then 0 else PeaksInRange(listed, lower, upper))
  {
    if |listed| == 0 {
      return false, 0, Some(NoPeaksListed);
    }
    var lo, hi := lower, upper;
    if lo > hi {
      lo, hi := hi, lo;
    }
    ghost var m := WindowMask(listed, lo, hi);
    count := 0;
    var i := 0;
    while i < |listed|
      invariant 0 <= i <= |listed|
      invariant count == Count(m[..i])
    {
      CountSnoc(m, i);
      if lo <= listed[i] <= hi {
        count := count + 1;
      }
      i := i + 1;
    }
    assert m[..i] == m;
    if count == 0 {
      return false, 0, Some(NoPeakInRange);
    } else if count > 1 {
      return false, count, Some(SeveralPeaks(count));
    }
    return true, 1, None;
  }

  /** The first listed peak inside [lo, hi] at or after position i. */
  function FirstFrom(listed: seq<real>, lo: real, hi: real, i: nat): (k: Option<nat>)
    requires i <= |listed|
    ensures k.Some? ==> i <= k.value < |listed| && lo <= listed[k.value] <= hi
    ensures k.Some? ==> forall j :: i <= j < k.value ==> !(lo <= listed[j] <= hi)
    ensures k.None? ==> forall j :: i <= j < |listed| ==> !(lo <= listed[j] <= hi)
    decreases |listed| - i
  {
    if i == |listed| then None
    else if lo <= listed[i] <= hi then Some(i)
    else FirstFrom(listed, lo, hi, i + 1)
  }

  /** The search loop of `add_peak_to_analysis`: the first listed peak in [lo, hi]. */
  method FindPeakInRange(listed: seq<real>, lo: real, hi: real) returns (found: Option<real>)
    ensures var k := FirstFrom(listed, lo, hi, 0);
      found == (if k.Some? then Some(listed[k.value]) else None)
  {
    var i := 0;
    while i < |listed|
      invariant 0 <= i <= |listed|
      invariant FirstFrom(listed, lo, hi, i) == FirstFrom(listed, lo, hi, 0)
    {
      if lo <= listed[i] <= hi {
        return Some(listed[i]);
      }
      i := i + 1;
    }
    return None;
  }

  /** A row of the result table. */
  datatype ResultRow = ResultRow(
    fileName: string,
    number: int,
    wavenumber: string,
    height: real,
    correctedHeight: real,
    lower: string,
    upper: string,
    area: real,
    correctedArea: real)

  /** The file column: the data set's name, or "N/A" when there is none. */
  function ShownName(fileName: Option<string>): string
  {
    if fileName.Some? then fileName.value else "N/A"
  }

  /** `add_result_to_table` */
  function RowOf(number: int, r: PeakResult, fileName: Option<string>): ResultRow
  {
    ResultRow(ShownName(fileName), number, FormatFixed2(r.wavenumber),
              r.uncorrectedHeight, r.correctedHeight,
              FormatFixed2(r.lowerLimit), FormatFixed2(r.upperLimit),
              r.uncorrectedArea, r.correctedArea)
  }

  /** An entry of `analyzed_ranges`: the current four-field shape, the older three-field one, or anything else. */
  datatype AnalyzedRange =
    | Triple(lower: real, upper: real, number: int)
    | Quad(lower: real, upper: real, number: int, fileName: Option<string>)
    | OtherShape

  /** The entry's file name; a three-field entry has none. */
  function StoredFile(e: AnalyzedRange): Option<string>
    requires !e.OtherShape?
  {
    if e.Triple? then None else e.fileName
  }

  /** Bounds within the tolerance and the same peak number. */
  predicate SameRange(e: AnalyzedRange, lower: real, upper: real, number: int)
  {
    && !e.OtherShape?
    && Abs(e.lower - lower) < MatchTolerance
    && Abs(e.upper - upper) < MatchTolerance
    && e.number == number
  }

  /** The match of `delete_result_record`: an entry without a file name matches any file. */
  predicate MatchesRecord(e: AnalyzedRange, lower: real, upper: real, number: int, fileName: string)
  {
    SameRange(e, lower, upper, number) && (StoredFile(e).None? || StoredFile(e).value == fileName)
  }

  /** The match of `delete_analyzed_range_from_plot`: a missing name on either side matches. */
  predicate MatchesPlot(e: AnalyzedRange, lower: real, upper: real, number: int, fileName: Option<string>)
  {
    SameRange(e, lower, upper, number) && (fileName.None? || StoredFile(e).None? || StoredFile(e) == fileName)
  }

  /** The entries the rebuilding loop keeps, in their order. */
  function Retain(es: seq<AnalyzedRange>, keep: AnalyzedRange -> bool): (r: seq<AnalyzedRange>)
    ensures |r| <= |es|
    ensures forall e :: e in r <==> e in es && keep(e)
  {
    if |es| == 0 then []
    else
      var front := Retain(es[..|es| - 1], keep);
      var last := es[|es| - 1];
      assert es == es[..|es| - 1] + [last];
      if keep(last) then front + [last] else front
  }

  /** Entries that `delete_result_record` keeps: well-shaped and not matching. */
  function KeepAfterRecord(lower: real, upper: real, number: int, fileName: string): AnalyzedRange -> bool
  {
    (e: AnalyzedRange) => !e.OtherShape? && !MatchesRecord(e, lower, upper, number, fileName)
  }

  function KeepAfterPlot(lower: real, upper: real, number: int, fileName: Option<string>): AnalyzedRange -> bool
  {
    (e: AnalyzedRange) => !e.OtherShape? && !MatchesPlot(e, lower, upper, number, fileName)
  }

  /** A table row whose number and read-back bounds match. */
  predicate RowMatches(row: ResultRow, lower: real, upper: real, number: int)
  {
    && row.number == number
    && ParseFixed2(row.lower).Some? && Abs(ParseFixed2(row.lower).value - lower) < MatchTolerance
    && ParseFixed2(row.upper).Some? && Abs(ParseFixed2(row.upper).value - upper) < MatchTolerance
  }

  /** The first matching row at or after position i. */
  function FirstRow(rows: seq<ResultRow>, lower: real, upper: real, number: int, i: nat): (k: Option<nat>)
    requires i <= |rows|
    ensures k.Some? ==> i <= k.value < |rows| && RowMatches(rows[k.value], lower, upper, number)
    ensures k.Some? ==> forall j :: i <= j < k.value ==> !RowMatches(rows[j], lower, upper, number)
    ensures k.None? ==> forall j :: i <= j < |rows| ==> !RowMatches(rows[j], lower, upper, number)
    decreases |rows| - i
  {
    if i == |rows| then None
    else if RowMatches(rows[i], lower, upper, number) then Some(i)
    else FirstRow(rows, lower, upper, number, i + 1)
  }

  datatype AddPeakError =
    | MissingLimits
    | NotANumber
    | RangeRejected(problem: RangeProblem)
    | NoPeakFound
    | NoSeriesData
    | AnalysisFailed(reason: AnalyzeError)

  /** What a successful `add_peak_to_analysis` records. */
  datatype Analysed = Analysed(lower: real, upper: real, result: PeakResult)

  /**
   * The steps of `add_peak_to_analysis` up to the analysis: `parse` is
   * Python's `float` (None for its ValueError), `listed` the wavenumbers of
   * the peak table, `series` the y data chosen for analysis.
   */
  function PlanPeak(lowerText: string, upperText: string, parse: string -> Option<real>,
                    listed: seq<real>, x: seq<real>, series: Option<seq<real>>): Result<Analysed, AddPeakError>
  {
    if lowerText == "" || upperText == "" then Err(MissingLimits)
    else if parse(lowerText).None? || parse(upperText).None? then Err(NotANumber)
    else
      var lower, upper := parse(lowerText).value, parse(upperText).value;
      var verdict := RangeVerdict(listed, lower, upper);
      if verdict.Some? then Err(RangeRejected(verdict.value))
      else
        var (lo, hi) := Ordered(lower, upper);
        var k := FirstFrom(listed, lo, hi, 0);
        if k.None? then Err(NoPeakFound)
        // `analyze_peak` checks the limits before it touches the data
        else if series.None? then (if lo >= hi then Err(AnalysisFailed(LimitsNotOrdered)) else Err(NoSeriesData))
        else
          var outcome := AnalyzePeak(x, series.value, listed[k.value], lo, hi, None);
          if outcome.Err? then Err(AnalysisFailed(outcome.error))
          else Ok(Analysed(lo, hi, outcome.value))
  }

  /**
   * An accepted peak is the only listed peak in the range, the range is
   * stored with its bounds in order, and the analysis reports a wavenumber
   * inside it. The "no peak found" branch never fires after the gate.
   */
  lemma PlanPeakSpec(lowerText: string, upperText: string, parse: string -> Option<real>,
                     listed: seq<real>, x: seq<real>, series: Option<seq<real>>)
    ensures PlanPeak(lowerText, upperText, parse, listed, x, series) != Err(NoPeakFound)
    ensures var p := PlanPeak(lowerText, upperText, parse, listed, x, series);
      p.Ok? ==>
        && p.value.lower < p.value.upper
        && p.value.lower <= p.value.result.wavenumber <= p.value.upper
        && p.value.result.lowerLimit == p.value.lower && p.value.result.upperLimit == p.value.upper
        && (exists k :: 0 <= k < |listed| && p.value.lower <= listed[k] <= p.value.upper
             && (forall j :: 0 <= j < |listed| && p.value.lower <= listed[j] <= p.value.upper ==> j == k)
             && Ok(p.value.result) == AnalyzePeak(x, series.value, listed[k], p.value.lower, p.value.upper, None))
  {
    var p := PlanPeak(lowerText, upperText, parse, listed, x, series);
    if lowerText != "" && upperText != "" && parse(lowerText).Some? && parse(upperText).Some? {
      var lower, upper := parse(lowerText).value, parse(upperText).value;
      if RangeVerdict(listed, lower, upper).None? {
        RangeVerdictExactlyOne(listed, lower, upper);
        var (lo, hi) := Ordered(lower, upper);
        var i :| 0 <= i < |listed| && Between(listed[i], lower, upper)
          && forall j :: 0 <= j < |listed| && Between(listed[j], lower, upper) ==> j == i;
        assert lo <= listed[i] <= hi;
        var k := FirstFrom(listed, lo, hi, 0);
        assert k == Some(i);
        if p.Ok? {
          AnalyzePeakInWindow(x, series.value, listed[i], lo, hi, None);
        }
      }
    }
  }

  /**
   * The bounds read back from a row differ from the stored entry by at most
   * 0.005, inside the 0.01 tolerance: deleting the row of an analysis finds
   * its own entry.
   */
  lemma OwnEntryMatches(lower: real, upper: real, number: int, r: PeakResult, fileName: Option<string>)
    requires r.lowerLimit == lower && r.upperLimit == upper
    ensures var row := RowOf(number, r, fileName);
      && ParseFixed2(row.lower) == Some(Round2(lower))
      && ParseFixed2(row.upper) == Some(Round2(upper))
      && MatchesRecord(Quad(lower, upper, number, fileName), Round2(lower), Round2(upper), row.number, row.fileName)
      && RowMatches(row, lower, upper, number)
  {
    FormatParse(lower);
    FormatParse(upper);
    Round2Close(lower);
    Round2Close(upper);
  }

  lemma RowReadsBack(number: int, r: PeakResult, fileName: Option<string>)
    ensures ParseFixed2(RowOf(number, r, fileName).lower) == Some(Round2(r.lowerLimit))
    ensures ParseFixed2(RowOf(number, r, fileName).upper) == Some(Round2(r.upperLimit))
  {
    FormatParse(r.lowerLimit);
    FormatParse(r.upperLimit);
  }

  /** The checks and the analysis of `add_peak_to_analysis`, in their order. */
  method CheckAndAnalyse(lowerText: string, upperText: string, parse: string -> Option<real>,
                         listed: seq<real>, x: seq<real>, series: Option<seq<real>>)
    returns (plan: Result<Analysed, AddPeakError>)
    ensures plan == PlanPeak(lowerText, upperText, parse, listed, x, series)
  {
    if lowerText == "" || upperText == "" {
      return Err(MissingLimits);
    }
    var parsedLower, parsedUpper := parse(lowerText), parse(upperText);
    if parsedLower.None? || parsedUpper.None? {
      return Err(NotANumber);
    }
    var lower, upper := parsedLower.value, parsedUpper.value;
    var valid, count, problem := ValidatePeakRange(listed, lower, upper);
    if !valid {
      return Err(RangeRejected(problem.value));
    }
    if lower > upper {
      lower, upper := upper, lower;
    }
    var peak := FindPeakInRange(listed, lower, upper);
    if peak.None? {
      return Err(NoPeakFound);
    }
    if series.None? {
      if lower >= upper {
        return Err(AnalysisFailed(LimitsNotOrdered));
      }
      return Err(NoSeriesData);
    }
    var outcome := AnalyzePeak(x, series.value, peak.value, lower, upper, None);
    if outcome.Err? {
      return Err(AnalysisFailed(outcome.error));
    }
    return Ok(Analysed(lower, upper, outcome.value));
  }

  class Registry {
    /** The result table, top to bottom. */
    var rows: seq<ResultRow>
    /** `analyzed_ranges` */
    var analyzed: seq<AnalyzedRange>

    /** Every row's bounds read back as numbers. */
    ghost predicate Valid()
      reads this
    {
      forall i :: 0 <= i < |rows| ==> ParseFixed2(rows[i].lower).Some? && ParseFixed2(rows[i].upper).Some?
    }

    constructor ()
      ensures Valid()
      ensures rows == [] && analyzed == []
    {
      rows, analyzed := [], [];
    }

    /** `add_peak_to_analysis`: the new row is numbered one past the current row count. */
    method AddPeakToAnalysis(lowerText: string, upperText: string, parse: string -> Option<real>,
                             listed: seq<real>, x: seq<real>, series: Option<seq<real>>,
                             fileName: Option<string>)
      returns (error: Option<AddPeakError>)
      requires Valid()
      modifies this
      ensures Valid()
      ensures var p := PlanPeak(lowerText, upperText, parse, listed, x, series);
        && (p.Err? ==> error == Some(p.error) && rows == old(rows) && analyzed == old(analyzed))
        && (p.Ok? ==>
              var number := |old(rows)| + 1;
              && error.None?
              && rows == old(rows) + [RowOf(number, p.value.result, fileName)]
              && analyzed == old(analyzed) + [Quad(p.value.lower, p.value.upper, number, fileName)])
    {
      var plan := CheckAndAnalyse(lowerText, upperText, parse, listed, x, series);
      if plan.Err? {
        return Some(plan.error);
      }
      var number := |rows| + 1;
      var row := RowOf(number, plan.value.result, fileName);
      RowReadsBack(number, plan.value.result, fileName);
      rows := rows + [row];
      analyzed := analyzed + [Quad(plan.value.lower, plan.value.upper, number, fileName)];
      return None;
    }

    /** The rebuilding loop shared by both deletions: keep the entries `keep` accepts. */
    method RetainAnalyzed(keep: AnalyzedRange -> bool)
      modifies this
      ensures analyzed == Retain(old(analyzed), keep)
      ensures rows == old(rows)
    {
      var kept: seq<AnalyzedRange> := [];
      var i := 0;
      while i < |analyzed|
        invariant 0 <= i <= |analyzed|
        invariant kept == Retain(analyzed[..i], keep)
      {
        assert analyzed[..i + 1][..i] == analyzed[..i];
        if keep(analyzed[i]) {
          kept := kept + [analyzed[i]];
        }
        i := i + 1;
      }
      assert analyzed[..i] == analyzed;
      analyzed := kept;
    }

    /** `delete_result_record` for the row at `index`, once the user has confirmed. */
    method DeleteResultRecord(index: nat, confirmed: bool)
      requires Valid()
      requires index < |rows|
      modifies this
      ensures Valid()
      ensures !confirmed ==> rows == old(rows) && analyzed == old(analyzed)
      ensures confirmed ==>
        var row := old(rows)[index];
        && rows == old(rows)[..index] + old(rows)[index + 1..]
        && analyzed == Retain(old(analyzed), KeepAfterRecord(ParseFixed2(row.lower).value,
                                                            ParseFixed2(row.upper).value, row.number, row.fileName))
    {
      var row := rows[index];
      var lower, upper := ParseFixed2(row.lower).value, ParseFixed2(row.upper).value;
      if !confirmed {
        return;
      }
      rows := rows[..index] + rows[index + 1..];
      RetainAnalyzed(KeepAfterRecord(lower, upper, row.number, row.fileName));
    }

    /** `delete_analyzed_range_from_plot`: drop the entries, then the first matching table row. */
    method DeleteAnalyzedRangeFromPlot(lower: real, upper: real, number: int, fileName: Option<string>,
                                       confirmed: bool)
      requires Valid()
      modifies this
      ensures Valid()
      ensures !confirmed ==> rows == old(rows) && analyzed == old(analyzed)
      ensures confirmed ==>
        && analyzed == Retain(old(analyzed), KeepAfterPlot(lower, upper, number, fileName))
        && var k := FirstRow(old(rows), lower, upper, number, 0);
           rows == (if k.Some? then old(rows)[..k.value] + old(rows)[k.value + 1..] else old(rows))
    {
      if !confirmed {
        return;
      }
      RetainAnalyzed(KeepAfterPlot(lower, upper, number, fileName));
      DeleteFirstRow(lower, upper, number);
    }

    /** The table loop of `delete_analyzed_range_from_plot`: delete the first matching row and stop. */
    method DeleteFirstRow(lower: real, upper: real, number: int)
      requires Valid()
      modifies this
      ensures Valid()
      ensures analyzed == old(analyzed)
      ensures var k := FirstRow(old(rows), lower, upper, number, 0);
        rows == (if k.Some? then old(rows)[..k.value] + old(rows)[k.value + 1..] else old(rows))
    {
      ghost var first := FirstRow(rows, lower, upper, number, 0);
      var i := 0;
      while i < |rows|
        invariant 0 <= i <= |rows|
        invariant FirstRow(rows, lower, upper, number, i) == first
      {
        var item := rows[i];
        assert ParseFixed2(item.lower).Some? && ParseFixed2(item.upper).Some?;
        if item.number == number
          && Abs(ParseFixed2(item.lower).value - lower) < MatchTolerance
          && Abs(ParseFixed2(item.upper).value - upper) < MatchTolerance
        {
          assert first == Some(i);
          ghost var kept := RemoveAt(rows, i);
          rows := rows[..i] + rows[i + 1..];
          return;
        }
        assert !RowMatches(item, lower, upper, number);
        i := i + 1;
      }
    }

    /** `clear_result_table` */
    method ClearResults()
      modifies this
      ensures Valid()
      ensures rows == [] && analyzed == []
    {
      rows, analyzed := [], [];
    }
  }

  lemma RetainDropLast(before: seq<AnalyzedRange>, e: AnalyzedRange, keep: AnalyzedRange -> bool)
    requires !keep(e)
    ensures Retain(before + [e], keep) == Retain(before, keep)
  {
    assert (before + [e])[..|before|] == before;
  }

  /** Deleting the row an analysis added also removes that analysis's entry. */
  lemma DeleteOwnRecord(before: seq<AnalyzedRange>, lower: real, upper: real, number: int, fileName: Option<string>)
    ensures var keep := KeepAfterRecord(Round2(lower), Round2(upper), number, ShownName(fileName));
      Retain(before + [Quad(lower, upper, number, fileName)], keep) == Retain(before, keep)
  {
    Round2Close(lower);
    Round2Close(upper);
    var keep := KeepAfterRecord(Round2(lower), Round2(upper), number, ShownName(fileName));
    assert !keep(Quad(lower, upper, number, fileName));
    RetainDropLast(before, Quad(lower, upper, number, fileName), keep);
  }
}
