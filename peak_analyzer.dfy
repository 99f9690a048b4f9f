/**
 * Peak search and peak quantification (src/peak_analyzer.py).
 *
 * `AnalyzePeak` quantifies one peak inside an inclusive integration window:
 * it keeps the samples with lower <= x <= upper in their original order,
 * picks the window sample nearest the requested wavenumber, draws a straight
 * baseline through the first and last window samples and reports raw and
 * baseline-corrected height and trapezoid area. Nothing assumes ascending x:
 * a descending spectrum yields signed (negative) areas, exactly as the
 * trapezoid rule gives them.
 */
module PeakAnalysis {
  import opened Common
  import opened Masking

  /** Below this x-span the baseline slope is taken as 0. */
  const SlopeEpsilon: real := 0.0000000001

  datatype PeakResult = PeakResult(
    wavenumber: real,
    uncorrectedHeight: real,
    correctedHeight: real,
    uncorrectedArea: real,
    correctedArea: real,
    lowerLimit: real,
    upperLimit: real)

  datatype AnalyzeError =
    | LimitsNotOrdered    // lower_limit >= upper_limit
    | IndexMismatch       // a boolean mask applied to an array of another length (IndexError)
    | EmptyWindow         // no sample inside [lower, upper]
    | SingleSampleWindow  // one sample only: no baseline can be drawn

  /** `np.trapezoid(y, x)`: signed, in the order the samples are given. */
  function Trapezoid(y: seq<real>, x: seq<real>): real
    requires |y| == |x|
  {
    if |x| < 2 then 0.0
    else (x[1] - x[0]) * (y[0] + y[1]) / 2.0 + Trapezoid(y[1..], x[1..])
  }

  /** The line m*x + c evaluated at every x. */
  function Line(m: real, c: real, xs: seq<real>): (r: seq<real>)
    ensures |r| == |xs|
  {
    seq(|xs|, i requires 0 <= i < |xs| => m * xs[i] + c)
  }

  /**
   * `np.argmin(np.abs(xs - p))`: the index of the sample nearest p; the
   * first such index when several are equally near.
   */
  function NearestIndex(xs: seq<real>, p: real): (k: nat)
    requires |xs| > 0
    ensures IsNearest(xs, p, k)
  {
    if |xs| == 1 then 0
    else
      var k := NearestIndex(xs[..|xs| - 1], p);
      if Abs(xs[|xs| - 1] - p) < Abs(xs[k] - p) then |xs| - 1 else k
  }

  /** Sample k is as near p as any other, and strictly nearer than every earlier one. */
  predicate IsNearest(xs: seq<real>, p: real, k: int)
  {
    && 0 <= k < |xs|
    && (forall i :: 0 <= i < |xs| ==> Abs(xs[k] - p) <= Abs(xs[i] - p))
    && (forall i :: 0 <= i < k ==> Abs(xs[i] - p) > Abs(xs[k] - p))
  }

  /** Slope of the two-point baseline, forced to 0 on a vanishing x-span. */
  function BaselineSlope(x0: real, y0: real, x1: real, y1: real): real
  {
    if Abs(x1 - x0) < SlopeEpsilon then 0.0 else (y1 - y0) / (x1 - x0)
  }

  /** The samples `analyze_peak` integrates over, in their original order. */
  function WindowX(x: seq<real>, lower: real, upper: real): (r: seq<real>)
    ensures |r| == Count(WindowMask(x, lower, upper))
  {
    Select(x, WindowMask(x, lower, upper))
  }

  function WindowY(x: seq<real>, y: seq<real>, lower: real, upper: real): (r: seq<real>)
    requires |x| == |y|
    ensures |r| == Count(WindowMask(x, lower, upper))
  {
    Select(y, WindowMask(x, lower, upper))
  }

  /**
   * The straight baseline through the first and last window samples, at every
   * window sample (slope * x + intercept with intercept = y_first - slope * x_first).
   */
  function TwoPointBaseline(xr: seq<real>, yr: seq<real>): (yb: seq<real>)
    requires |xr| == |yr| >= 1
    ensures |yb| == |xr|
  {
    Line(WindowSlope(xr, yr), WindowIntercept(xr, yr), xr)
  }

  /** The baseline slope between the first and last window samples. */
  function WindowSlope(xr: seq<real>, yr: seq<real>): real
    requires |xr| == |yr| >= 1
  {
    BaselineSlope(xr[0], yr[0], xr[|xr| - 1], yr[|yr| - 1])
  }

  /** The baseline intercept: the line through the first window sample. */
  function WindowIntercept(xr: seq<real>, yr: seq<real>): real
    requires |xr| == |yr| >= 1
  {
    yr[0] - WindowSlope(xr, yr) * xr[0]
  }

  /** The quantities reported for a window (xr, yr) of at least two samples. */
  function Quantify(xr: seq<real>, yr: seq<real>, peak: real, lower: real, upper: real): PeakResult
    requires |xr| == |yr| >= 2
  {
    var (wavenumber, height, corrected) := PointAt(xr, yr, NearestIndex(xr, peak));
    var (area, correctedArea) := WindowAreas(xr, yr);
    PeakResult(wavenumber, height, corrected, area, correctedArea, lower, upper)
  }

  /** Window sample k: its wavenumber, its height, and its height above the baseline. */
  function PointAt(xr: seq<real>, yr: seq<real>, k: nat): (real, real, real)
    requires |xr| == |yr| && k < |xr|
  {
    (xr[k], yr[k], yr[k] - TwoPointBaseline(xr, yr)[k])
  }

  /** The trapezoid areas under the window, raw and minus the baseline. */
  function WindowAreas(xr: seq<real>, yr: seq<real>): (real, real)
    requires |xr| == |yr| >= 1
  {
    (Trapezoid(yr, xr), Trapezoid(Diff(yr, TwoPointBaseline(xr, yr)), xr))
  }

  /** `PeakAnalyzer.analyze_peak` */
  function AnalyzePeak(x: seq<real>, y: seq<real>, peak: real, lower: real, upper: real,
                       baseline: Option<seq<real>>): Result<PeakResult, AnalyzeError>
  {
    if lower >= upper then Err(LimitsNotOrdered)
    else if |y| != |x| then Err(IndexMismatch)
    else
      var xr, yr := WindowX(x, lower, upper), WindowY(x, y, lower, upper);
      if |xr| == 0 then Err(EmptyWindow)
      else if |xr| == 1 then Err(SingleSampleWindow)
      // the optional baseline array is masked too, and only used for that
      else if baseline.Some? && |baseline.value| != |x| then Err(IndexMismatch)
      else Ok(Quantify(xr, yr, peak, lower, upper))
  }

  /** The trapezoid rule is linear in y. */
  lemma {:induction false} TrapezoidDiff(a: seq<real>, b: seq<real>, x: seq<real>)
    requires |a| == |b| == |x|
    ensures Trapezoid(Diff(a, b), x) == Trapezoid(a, x) - Trapezoid(b, x)
  {
    if |x| >= 2 {
      TrapezoidDiff(a[1..], b[1..], x[1..]);
      assert Diff(a, b)[1..] == Diff(a[1..], b[1..]);
      var d := x[1] - x[0];
      assert d * ((a[0] - b[0]) + (a[1] - b[1])) / 2.0 == d * (a[0] + a[1]) / 2.0 - d * (b[0] + b[1]) / 2.0;
    }
  }

  /** The exact integral of m*x + c from a to z. */
  function LineIntegral(m: real, c: real, a: real, z: real): real
  {
    m * (z * z - a * a) / 2.0 + c * (z - a)
  }

  lemma LineStep(m: real, c: real, a: real, b: real)
    ensures (b - a) * ((m * a + c) + (m * b + c)) / 2.0 == LineIntegral(m, c, a, b)
  {
    assert (m * a + c) + (m * b + c) == m * (a + b) + 2.0 * c;
    assert (b - a) * (m * (a + b) + 2.0 * c) == m * ((b - a) * (a + b)) + 2.0 * c * (b - a);
    assert (b - a) * (a + b) == b * b - a * a;
  }

  lemma LineIntegralAdd(m: real, c: real, a: real, b: real, z: real)
    ensures LineIntegral(m, c, a, b) + LineIntegral(m, c, b, z) == LineIntegral(m, c, a, z)
  {
    assert m * (b * b - a * a) / 2.0 + m * (z * z - b * b) / 2.0 == m * (z * z - a * a) / 2.0;
  }

  lemma LineSuffix(m: real, c: real, x: seq<real>)
    requires |x| >= 1
    ensures Line(m, c, x)[1..] == Line(m, c, x[1..])
  {
    var l, t := Line(m, c, x), x[1..];
    forall i | 0 <= i < |t|
      ensures l[1..][i] == Line(m, c, t)[i]
    {
      assert l[1..][i] == l[i + 1] && t[i] == x[i + 1];
    }
  }

  lemma LineHead(m: real, c: real, x: seq<real>)
    requires |x| >= 2
    ensures Trapezoid(Line(m, c, x), x)
            == (x[1] - x[0]) * ((m * x[0] + c) + (m * x[1] + c)) / 2.0 + Trapezoid(Line(m, c, x)[1..], x[1..])
  {
  }

  /** The first trapezoid of a line, and the rest. */
  lemma LineTail(m: real, c: real, x: seq<real>)
    requires |x| >= 2
    ensures Trapezoid(Line(m, c, x), x)
            == LineIntegral(m, c, x[0], x[1]) + Trapezoid(Line(m, c, x)[1..], x[1..])
  {
    LineHead(m, c, x);
    LineStep(m, c, x[0], x[1]);
  }

  /** The trapezoid rule integrates a straight line exactly. */
  lemma {:induction false} TrapezoidLine(m: real, c: real, x: seq<real>)
    requires |x| >= 1
    ensures Trapezoid(Line(m, c, x), x) == LineIntegral(m, c, x[0], x[|x| - 1])
  {
    if |x| >= 2 {
      var t := x[1..];
      TrapezoidLine(m, c, t);
      LineTail(m, c, x);
      LineSuffix(m, c, x);
      assert t[0] == x[1] && t[|t| - 1] == x[|x| - 1];
      LineIntegralAdd(m, c, x[0], x[1], x[|x| - 1]);
    }
  }

  /** The area of the trapezoid under the chord from (a, y0) to (b, y1). */
  function Chord(a: real, b: real, y0: real, y1: real): real
  {
    (b - a) * (y0 + y1) / 2.0
  }

  lemma ChordArith(m: real, c: real, a: real, b: real, y0: real, y1: real)
    requires m * a + c == y0 && m * b + c == y1
    ensures LineIntegral(m, c, a, b) == Chord(a, b, y0, y1)
  {
    var d := b - a;
    assert m * d == y1 - y0;
    assert b * b - a * a == d * (b + a);
    assert LineIntegral(m, c, a, b) == d * (m * (b + a) / 2.0 + c);
    assert m * (b + a) / 2.0 + c == (y0 + y1) / 2.0;
  }

  lemma SlopeSpan(x0: real, y0: real, x1: real, y1: real)
    requires Abs(x1 - x0) >= SlopeEpsilon
    ensures var m := BaselineSlope(x0, y0, x1, y1);
            m * x1 + (y0 - m * x0) == y1
  {
    var m := BaselineSlope(x0, y0, x1, y1);
    assert m * (x1 - x0) == y1 - y0;
  }

  /**
   * A line through (x0, y0) and (x1, y1) encloses (x1 - x0) * (y0 + y1) / 2 under
   * the trapezoid rule, whatever samples lie between.
   */
  lemma ChordArea(xs: seq<real>, m: real, c: real, y0: real, y1: real)
    requires |xs| >= 2 && m * xs[0] + c == y0 && m * xs[|xs| - 1] + c == y1
    ensures Trapezoid(Line(m, c, xs), xs) == Chord(xs[0], xs[|xs| - 1], y0, y1)
  {
    TrapezoidLine(m, c, xs);
    ChordArith(m, c, xs[0], xs[|xs| - 1], y0, y1);
  }

  /**
   * In a window, the reported wavenumber is the sample nearest the requested
   * peak (the first one on ties); the heights are y there, raw and minus the
   * two-point baseline.
   */
  lemma QuantifyPosition(xr: seq<real>, yr: seq<real>, peak: real, lower: real, upper: real)
    requires |xr| == |yr| >= 2
    ensures var r := Quantify(xr, yr, peak, lower, upper);
      exists k :: IsNearest(xr, peak, k)
        && (r.wavenumber, r.uncorrectedHeight, r.correctedHeight) == PointAt(xr, yr, k)
  {
    var k := NearestIndex(xr, peak);
  }

  /** The corrected height at sample k is its height minus the line through the first and last samples. */
  lemma CorrectedHeightAt(xr: seq<real>, yr: seq<real>, k: nat)
    requires |xr| == |yr| && k < |xr|
    ensures PointAt(xr, yr, k).2 == yr[k] - (yr[0] + WindowSlope(xr, yr) * (xr[k] - xr[0]))
  {
    BaselineAt(xr, yr, k);
  }

  /** At most one sample is the nearest and the first of the nearest. */
  lemma NearestUnique(xs: seq<real>, p: real, j: int, k: int)
    requires IsNearest(xs, p, j) && IsNearest(xs, p, k)
    ensures j == k
  {
    // both are nearest, so they are equally near, and neither can be strictly nearer than the other
    assert Abs(xs[j] - p) == Abs(xs[k] - p);
  }

  /** The two-point baseline at window sample k. */
  lemma BaselineAt(xr: seq<real>, yr: seq<real>, k: nat)
    requires |xr| == |yr| >= 1 && k < |xr|
    ensures TwoPointBaseline(xr, yr)[k] == yr[0] + WindowSlope(xr, yr) * (xr[k] - xr[0])
  {
    LineAt(WindowSlope(xr, yr), WindowIntercept(xr, yr), yr[0], xr[0], xr[k]);
  }

  /** The line through (x0, y0) with slope m, evaluated at v. */
  lemma LineAt(m: real, c: real, y0: real, x0: real, v: real)
    requires c == y0 - m * x0
    ensures m * v + c == y0 + m * (v - x0)
  {
  }

  /**
   * The trapezoid area under the two-point baseline: the chord area
   * (x_last - x_first) * (y_first + y_last) / 2, or y_first * (x_last - x_first)
   * when the span is below 1e-10 and the baseline is flat.
   */
  lemma BaselineArea(xr: seq<real>, yr: seq<real>)
    requires |xr| == |yr| >= 2
    ensures var a, b := xr[0], xr[|xr| - 1];
      && (Abs(b - a) >= SlopeEpsilon ==>
            Trapezoid(TwoPointBaseline(xr, yr), xr) == Chord(a, b, yr[0], yr[|yr| - 1]))
      && (Abs(b - a) < SlopeEpsilon ==>
            Trapezoid(TwoPointBaseline(xr, yr), xr) == yr[0] * (b - a))
  {
    if Abs(xr[|xr| - 1] - xr[0]) >= SlopeEpsilon {
      SlopedBaselineArea(xr, yr);
    } else {
      FlatBaselineArea(xr, yr);
    }
  }

  lemma SlopedBaselineArea(xr: seq<real>, yr: seq<real>)
    requires |xr| == |yr| >= 2 && Abs(xr[|xr| - 1] - xr[0]) >= SlopeEpsilon
    ensures Trapezoid(TwoPointBaseline(xr, yr), xr) == Chord(xr[0], xr[|xr| - 1], yr[0], yr[|yr| - 1])
  {
    BaselineThroughEnds(xr, yr);
    ChordArea(xr, WindowSlope(xr, yr), WindowIntercept(xr, yr), yr[0], yr[|yr| - 1]);
  }

  lemma FlatBaselineArea(xr: seq<real>, yr: seq<real>)
    requires |xr| == |yr| >= 2 && Abs(xr[|xr| - 1] - xr[0]) < SlopeEpsilon
    ensures Trapezoid(TwoPointBaseline(xr, yr), xr) == yr[0] * (xr[|xr| - 1] - xr[0])
  {
    FlatBaseline(xr, yr);
    FlatLine(WindowIntercept(xr, yr), xr);
  }

  /** Over a span below 1e-10 the baseline is the horizontal line through the first sample. */
  lemma FlatBaseline(xr: seq<real>, yr: seq<real>)
    requires |xr| == |yr| >= 1 && Abs(xr[|xr| - 1] - xr[0]) < SlopeEpsilon
    ensures WindowSlope(xr, yr) == 0.0 && WindowIntercept(xr, yr) == yr[0]
  {
  }

  /** Over a span of at least 1e-10 the baseline passes through the first and last samples. */
  lemma BaselineThroughEnds(xr: seq<real>, yr: seq<real>)
    requires |xr| == |yr| >= 1 && Abs(xr[|xr| - 1] - xr[0]) >= SlopeEpsilon
    ensures var m, c := WindowSlope(xr, yr), WindowIntercept(xr, yr);
      m * xr[0] + c == yr[0] && m * xr[|xr| - 1] + c == yr[|yr| - 1]
  {
    SlopeSpan(xr[0], yr[0], xr[|xr| - 1], yr[|yr| - 1]);
  }

  /** A flat line at height c encloses c times the span. */
  lemma FlatLine(c: real, xs: seq<real>)
    requires |xs| >= 1
    ensures Trapezoid(Line(0.0, c, xs), xs) == c * (xs[|xs| - 1] - xs[0])
  {
    TrapezoidLine(0.0, c, xs);
  }

  /**
   * In a window, the raw area is the trapezoid area of the samples and the
   * corrected area is the raw one minus the area under the two-point baseline.
   */
  lemma QuantifyAreas(xr: seq<real>, yr: seq<real>)
    requires |xr| == |yr| >= 2
    ensures var (area, correctedArea) := WindowAreas(xr, yr);
      var a, b := xr[0], xr[|xr| - 1];
      && area == Trapezoid(yr, xr)
      && (Abs(b - a) >= SlopeEpsilon ==>
            correctedArea == area - Chord(a, b, yr[0], yr[|yr| - 1]))
      && (Abs(b - a) < SlopeEpsilon ==>
            correctedArea == area - yr[0] * (b - a))
  {
    TrapezoidDiff(yr, TwoPointBaseline(xr, yr), xr);
    BaselineArea(xr, yr);
  }

  /** `analyze_peak` rejects limits that are not strictly ordered. */
  lemma AnalyzeRejectsUnorderedLimits(x: seq<real>, y: seq<real>, peak: real, lower: real, upper: real,
                                      baseline: Option<seq<real>>)
    requires lower >= upper
    ensures AnalyzePeak(x, y, peak, lower, upper, baseline) == Err(LimitsNotOrdered)
  {
  }

  /**
   * `analyze_peak` succeeds exactly when the limits are ordered, the arrays
   * line up and the inclusive window holds at least two samples.
   */
  lemma AnalyzeSucceedsIff(x: seq<real>, y: seq<real>, peak: real, lower: real, upper: real,
                           baseline: Option<seq<real>>)
    ensures AnalyzePeak(x, y, peak, lower, upper, baseline).Ok? <==>
      && lower < upper
      && |x| == |y|
      && Count(WindowMask(x, lower, upper)) >= 2
      && (baseline.Some? ==> |baseline.value| == |x|)
    ensures |x| == |y| && lower < upper && Count(WindowMask(x, lower, upper)) == 0 ==>
      AnalyzePeak(x, y, peak, lower, upper, baseline) == Err(EmptyWindow)
    ensures |x| == |y| && lower < upper && Count(WindowMask(x, lower, upper)) == 1 ==>
      AnalyzePeak(x, y, peak, lower, upper, baseline) == Err(SingleSampleWindow)
  {
  }

  /**
   * A successful analysis reports the window sample nearest the requested
   * wavenumber, so a wavenumber inside [lower, upper], echoes the limits,
   * and its heights and areas are those of the window.
   */
  lemma AnalyzePeakInWindow(x: seq<real>, y: seq<real>, peak: real, lower: real, upper: real,
                            baseline: Option<seq<real>>)
    requires AnalyzePeak(x, y, peak, lower, upper, baseline).Ok?
    ensures var r := AnalyzePeak(x, y, peak, lower, upper, baseline).value;
      && lower <= r.wavenumber <= upper
      && r.lowerLimit == lower && r.upperLimit == upper
      && r == Quantify(WindowX(x, lower, upper), WindowY(x, y, lower, upper), peak, lower, upper)
  {
    var xr, yr := WindowX(x, lower, upper), WindowY(x, y, lower, upper);
    var k := NearestIndex(xr, peak);
    WindowSelectBounds(x, lower, upper);
    assert lower <= xr[k] <= upper;
  }

  /**
   * A baseline array as long as x never changes the result; one of another
   * length makes the analysis fail.
   */
  lemma BaselineArgumentIgnored(x: seq<real>, y: seq<real>, peak: real, lower: real, upper: real,
                                b: seq<real>)
    ensures |b| == |x| ==>
      AnalyzePeak(x, y, peak, lower, upper, Some(b)) == AnalyzePeak(x, y, peak, lower, upper, None)
    ensures |b| != |x| ==> AnalyzePeak(x, y, peak, lower, upper, Some(b)).Err?
  {
  }

  /**
   * The symmetric triangle of height 10 on a base of width 2: flat zero
   * baseline, both heights 10 and both trapezoid areas 10.
   */
  lemma TriangleExample(x: seq<real>, y: seq<real>)
    requires x == [0.0, 1.0, 2.0, 3.0, 4.0] && y == [0.0, 0.0, 10.0, 0.0, 0.0]
    ensures AnalyzePeak(x, y, 2.0, 0.0, 4.0, None) == Ok(PeakResult(2.0, 10.0, 10.0, 10.0, 10.0, 0.0, 4.0))
  {
    var m := WindowMask(x, 0.0, 4.0);
    assert m == [true, true, true, true, true];
    SelectAll(x, m);
    SelectAll(y, m);
    AnalyzeSucceedsIff(x, y, 2.0, 0.0, 4.0, None);
    AnalyzePeakInWindow(x, y, 2.0, 0.0, 4.0, None);
    TriangleWindow(x, y);
  }

  lemma TriangleWindow(x: seq<real>, y: seq<real>)
    requires x == [0.0, 1.0, 2.0, 3.0, 4.0] && y == [0.0, 0.0, 10.0, 0.0, 0.0]
    ensures Quantify(x, y, 2.0, 0.0, 4.0) == PeakResult(2.0, 10.0, 10.0, 10.0, 10.0, 0.0, 4.0)
  {
    var k := NearestIndex(x, 2.0);
    assert Abs(x[k] - 2.0) <= Abs(x[2] - 2.0);
    assert k == 2;
    assert Trapezoid(y[3..], x[3..]) == 0.0;
    assert Trapezoid(y[2..], x[2..]) == 5.0;
    assert Trapezoid(y[1..], x[1..]) == 10.0;
    assert Trapezoid(y, x) == 10.0;
    assert BaselineSlope(0.0, 0.0, 4.0, 0.0) == 0.0;
    assert TwoPointBaseline(x, y)[2] == 0.0;
    QuantifyAreas(x, y);
    assert Chord(0.0, 4.0, 0.0, 0.0) == 0.0;
  }

  /** A sloped baseline from (0, 0) to (4, 10) lies at 5 under the peak at x = 2, so the corrected height is 15. */
  lemma SlopedBaselineExample(x: seq<real>, y: seq<real>)
    requires x == [0.0, 1.0, 2.0, 3.0, 4.0] && y == [0.0, 5.0, 20.0, 15.0, 10.0]
    ensures var r := AnalyzePeak(x, y, 2.0, 0.0, 4.0, None);
      r.Ok? && r.value.uncorrectedHeight == 20.0 && r.value.correctedHeight == 15.0
  {
    var m := WindowMask(x, 0.0, 4.0);
    assert m == [true, true, true, true, true];
    SelectAll(x, m);
    SelectAll(y, m);
    assert NearestIndex(x, 2.0) == 2;
    assert BaselineSlope(0.0, 0.0, 4.0, 10.0) == 2.5;
    assert TwoPointBaseline(x, y)[2] == 5.0;
    var r := Quantify(x, y, 2.0, 0.0, 4.0);
    assert r.uncorrectedHeight == 20.0 && r.correctedHeight == 15.0;
    assert WindowX(x, 0.0, 4.0) == x && WindowY(x, y, 0.0, 4.0) == y;
  }

  /** What scipy's find_peaks returns: peak indices into y and their properties. */
  datatype Detection = Detection(indices: seq<nat>, properties: map<string, seq<real>>)

  /** `find_peaks(y, height=threshold, distance=min_distance)`; None when it raises. */
  type Detector = (seq<real>, real, int) -> Option<Detection>

  datatype FindError =
    | NoData              // y is None or empty
    | NegativeThreshold   // threshold < 0
    | DistanceBelowOne    // min_distance < 1
    | DetectorFailed      // find_peaks raised
    | IndexOutOfRange     // x_data[idx] raised IndexError

  /** The (wavenumber, height) pairs of the detected indices, in index order. */
  ghost predicate IsPeakList(x: seq<real>, y: seq<real>, idx: seq<nat>, list: seq<(real, real)>)
  {
    && |list| == |idx|
    && forall k :: 0 <= k < |idx| ==> idx[k] < |x| && idx[k] < |y| && list[k] == (x[idx[k]], y[idx[k]])
  }

  class PeakAnalyzer {
    var peaks: seq<nat>
    var peakProperties: map<string, seq<real>>

    constructor ()
      ensures peaks == [] && peakProperties == map[]
    {
      peaks := [];
      peakProperties := map[];
    }

    /** `find_peaks_auto` */
    method FindPeaksAuto(x: seq<real>, y: Option<seq<real>>, threshold: real, minDistance: int, detect: Detector)
      returns (ok: bool, peakList: seq<(real, real)>, error: Option<FindError>)
      modifies this
      ensures ok <==> error.None?
      ensures !ok ==> peakList == []
      ensures y.None? || |y.value| == 0 ==> error == Some(NoData) && unchanged(this)
      ensures y.Some? && |y.value| > 0 && threshold < 0.0 ==> error == Some(NegativeThreshold) && unchanged(this)
      ensures y.Some? && |y.value| > 0 && threshold >= 0.0 && minDistance < 1 ==>
        error == Some(DistanceBelowOne) && unchanged(this)
      ensures y.Some? && |y.value| > 0 && threshold >= 0.0 && minDistance >= 1 ==>
        match detect(y.value, threshold, minDistance)
        case None => error == Some(DetectorFailed) && unchanged(this)
        case Some(d) =>
          // the stored peaks are overwritten before the list is built
          && peaks == d.indices && peakProperties == d.properties
          && (ok <==> forall k :: 0 <= k < |d.indices| ==> d.indices[k] < |x| && d.indices[k] < |y.value|)
          && (ok ==> IsPeakList(x, y.value, d.indices, peakList))
          && (!ok ==> error == Some(IndexOutOfRange))
    {
      if y.None? || |y.value| == 0 {
        return false, [], Some(NoData);
      }
      if threshold < 0.0 {
        return false, [], Some(NegativeThreshold);
      }
      if minDistance < 1 {
        return false, [], Some(DistanceBelowOne);
      }
      var found := detect(y.value, threshold, minDistance);
      if found.None? {
        return false, [], Some(DetectorFailed);
      }
      var d := found.value;
      peaks := d.indices;
      peakProperties := d.properties;
      var list: seq<(real, real)> := [];
      var i := 0;
      while i < |d.indices|
        invariant 0 <= i <= |d.indices|
        invariant IsPeakList(x, y.value, d.indices[..i], list)
      {
        var idx := d.indices[i];
        if idx >= |x| || idx >= |y.value| {
          return false, [], Some(IndexOutOfRange);
        }
        list := list + [(x[idx], y.value[idx])];
        i := i + 1;
      }
      assert d.indices[..i] == d.indices;
      return true, list, None;
    }

    /** `get_peak_count` */
    function GetPeakCount(): (n: nat)
      reads this
      ensures n == |peaks|
    {
      |peaks|
    }

    /** `clear_peaks` */
    method ClearPeaks()
      modifies this
      ensures peaks == [] && peakProperties == map[]
    {
      peaks := [];
      peakProperties := map[];
    }
  }


}
