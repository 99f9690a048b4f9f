/**
 * Range-restricted smoothing (src/smoothing_processor.py).
 *
 * The five filters themselves (Savitzky-Golay, LOWESS, moving average,
 * Gaussian, median) are library routines; the model receives them as one
 * function `kernel` that maps a filter with its parameters and a window of
 * samples to the filtered window, or to None when the library raises. What is
 * modelled exactly is everything around them: parameter validation in the
 * order the source performs it, the dispatch on the method name, the window
 * masks, the masked write-back and the failure contract (on any failure the
 * caller gets its input back unchanged).
 */
module Smoothing {
  import opened Common
  import opened Masking
  import opened Validation

  datatype Filter =
    | Savgol(window: int, polyorder: int)
    | Lowess(frac: real, iterations: int)
    | MovingAverage(window: int)
    | Gaussian(sigma: real)
    | Median(window: int)

  /** The library filters: None stands for an exception raised inside them. */
  type Kernel = (Filter, seq<real>, seq<real>) -> Option<seq<real>>

  datatype Param = WindowLength | Polyorder | Frac | Iterations | Sigma

  datatype SmoothError =
    | EvenWindow(window: int)
    | WindowLongerThanData(window: int, n: int)
    | PolyorderNotBelowWindow(polyorder: int, window: int)
    | Invalid(param: Param, violation: Violation)
    | FilterRaised
    | UnknownMethod(name: string)
    | MissingParameter(param: Param)   // KeyError on the keyword dictionary
    | IndexMismatch                    // y indexed with a mask built from an x of another length
    | EmptySpectrum                    // min/max of an empty x
    | ShapeMismatch                    // filtered window of the wrong length written back

  /** The keyword arguments `**params`; an absent key is None. */
  datatype SmoothParams = SmoothParams(
    windowLength: Option<int>,
    polyorder: Option<int>,
    frac: Option<real>,
    iterations: Option<int>,
    sigma: Option<real>)

  /** `validate_savgol_params` */
  function ValidateSavgolParams(window: int, polyorder: int, n: int): (r: Option<SmoothError>)
    ensures r.None? <==> window % 2 == 1 && window <= n && polyorder < window
    ensures window % 2 == 0 ==> r == Some(EvenWindow(window))
  {
    if window % 2 == 0 then Some(EvenWindow(window))
    else if window > n then Some(WindowLongerThanData(window, n))
    else if polyorder >= window then Some(PolyorderNotBelowWindow(polyorder, window))
    else None
  }

  /** A parameter check, with the parameter named on failure. */
  function Check(param: Param, v: Option<Violation>): Option<SmoothError>
  {
    match v
    case None => None
    case Some(violation) => Some(Invalid(param, violation))
  }

  function RunFilter(f: Filter, xr: seq<real>, yr: seq<real>, kernel: Kernel): Result<seq<real>, SmoothError>
  {
    match kernel(f, xr, yr)
    case None => Err(FilterRaised)
    case Some(s) => Ok(s)
  }

  /** `smooth_savgol` */
  function SmoothSavgol(xr: seq<real>, yr: seq<real>, window: int, polyorder: int, kernel: Kernel)
    : Result<seq<real>, SmoothError>
  {
    match ValidateSavgolParams(window, polyorder, |yr|)
    case Some(e) => Err(e)
    case None => RunFilter(Savgol(window, polyorder), xr, yr, kernel)
  }

  /** `smooth_lowess` */
  function SmoothLowess(xr: seq<real>, yr: seq<real>, frac: real, iterations: int, kernel: Kernel)
    : Result<seq<real>, SmoothError>
  {
    match Check(Frac, ValidateRange(frac, 0.0, 1.0))
    case Some(e) => Err(e)
    case None =>
      match Check(Iterations, ValidatePositiveInt(iterations, 1))
      case Some(e) => Err(e)
      case None => RunFilter(Lowess(frac, iterations), xr, yr, kernel)
  }

  /** `smooth_moving_average` */
  function SmoothMovingAverage(xr: seq<real>, yr: seq<real>, window: int, kernel: Kernel)
    : Result<seq<real>, SmoothError>
  {
    match Check(WindowLength, ValidatePositiveInt(window, 1))
    case Some(e) => Err(e)
    case None =>
      if window > |yr| then Err(WindowLongerThanData(window, |yr|))
      else RunFilter(MovingAverage(window), xr, yr, kernel)
  }

  /** `smooth_gaussian` */
  function SmoothGaussian(xr: seq<real>, yr: seq<real>, sigma: real, kernel: Kernel)
    : Result<seq<real>, SmoothError>
  {
    match Check(Sigma, ValidatePositiveFloat(sigma, 0.0))
    case Some(e) => Err(e)
    case None => RunFilter(Gaussian(sigma), xr, yr, kernel)
  }

  /** `smooth_median` */
  function SmoothMedian(xr: seq<real>, yr: seq<real>, window: int, kernel: Kernel)
    : Result<seq<real>, SmoothError>
  {
    match Check(WindowLength, ValidatePositiveInt(window, 1))
    case Some(e) => Err(e)
    case None =>
      if window > |yr| then Err(WindowLongerThanData(window, |yr|))
      else RunFilter(Median(window), xr, yr, kernel)
  }

  /** The dispatch on the method name inside `smooth_data_in_ranges`, for one window. */
  function SmoothWindow(name: string, params: SmoothParams, xr: seq<real>, yr: seq<real>, kernel: Kernel)
    : Result<seq<real>, SmoothError>
  {
    if name == "savgol" then
      if params.windowLength.None? then Err(MissingParameter(WindowLength))
      else if params.polyorder.None? then Err(MissingParameter(Polyorder))
      else SmoothSavgol(xr, yr, params.windowLength.value, params.polyorder.value, kernel)
    else if name == "lowess" then
      if params.frac.None? then Err(MissingParameter(Frac))
      else if params.iterations.None? then Err(MissingParameter(Iterations))
      else SmoothLowess(xr, yr, params.frac.value, params.iterations.value, kernel)
    else if name == "moving_average" then
      if params.windowLength.None? then Err(MissingParameter(WindowLength))
      else SmoothMovingAverage(xr, yr, params.windowLength.value, kernel)
    else if name == "gaussian" then
      if params.sigma.None? then Err(MissingParameter(Sigma))
      else SmoothGaussian(xr, yr, params.sigma.value, kernel)
    else if name == "median" then
      if params.windowLength.None? then Err(MissingParameter(WindowLength))
      else SmoothMedian(xr, yr, params.windowLength.value, kernel)
    else Err(UnknownMethod(name))
  }

  /** The filter a method name and its keyword arguments call for, if any. */
  function FilterOf(name: string, params: SmoothParams): Option<Filter>
  {
    if name == "savgol" then
      if params.windowLength.Some? && params.polyorder.Some?
      then Some(Savgol(params.windowLength.value, params.polyorder.value)) else None
    else if name == "lowess" then
      if params.frac.Some? && params.iterations.Some?
      then Some(Lowess(params.frac.value, params.iterations.value)) else None
    else if name == "moving_average" then
      if params.windowLength.Some? then Some(MovingAverage(params.windowLength.value)) else None
    else if name == "gaussian" then
      if params.sigma.Some? then Some(Gaussian(params.sigma.value)) else None
    else if name == "median" then
      if params.windowLength.Some? then Some(Median(params.windowLength.value)) else None
    else None
  }

  /** The parameter domains of the five filters for a window of n samples. */
  predicate ValidFilter(f: Filter, n: int)
  {
    match f
    case Savgol(w, p) => w % 2 == 1 && p < w <= n
    case Lowess(frac, it) => 0.0 <= frac <= 1.0 && it >= 1
    case MovingAverage(w) => 1 <= w <= n
    case Gaussian(sigma) => sigma > 0.0
    case Median(w) => 1 <= w <= n
  }

  /**
   * A window is smoothed exactly when the method is known, its parameters are
   * present and in their domains, and the library filter does not raise; the
   * result is then that filter's output.
   */
  lemma SmoothWindowSpec(name: string, params: SmoothParams, xr: seq<real>, yr: seq<real>, kernel: Kernel)
    ensures SmoothWindow(name, params, xr, yr, kernel).Ok? <==>
      && FilterOf(name, params).Some?
      && ValidFilter(FilterOf(name, params).value, |yr|)
      && kernel(FilterOf(name, params).value, xr, yr).Some?
    ensures SmoothWindow(name, params, xr, yr, kernel).Ok? ==>
      SmoothWindow(name, params, xr, yr, kernel).value == kernel(FilterOf(name, params).value, xr, yr).value
    ensures FilterOf(name, params).None? && name !in {"savgol", "lowess", "moving_average", "gaussian", "median"} ==>
      SmoothWindow(name, params, xr, yr, kernel) == Err(UnknownMethod(name))
  {
  }

  /** The window of samples of one range, with the mask that selects it. */
  function RangeMask(x: seq<real>, r: (real, real)): (m: seq<bool>)
    ensures |m| == |x|
  {
    WindowMask(x, r.0, r.1)
  }

  /**
   * The loop of `smooth_data_in_ranges` from range i on, with `acc` holding
   * the data so far. Every window is cut from the ORIGINAL y, so a later
   * range that overlaps an earlier one re-smooths the original samples and
   * overwrites the earlier result.
   */
  function SmoothFrom(x: seq<real>, y: seq<real>, rs: seq<(real, real)>, i: nat, acc: seq<real>,
                      name: string, params: SmoothParams, kernel: Kernel): Result<seq<real>, SmoothError>
    requires |x| == |y| == |acc| && i <= |rs|
    decreases |rs| - i
  {
    if i == |rs| then Ok(acc)
    else
      var m := RangeMask(x, rs[i]);
      if Count(m) == 0 then SmoothFrom(x, y, rs, i + 1, acc, name, params, kernel)
      else
        match SmoothWindow(name, params, Select(x, m), Select(y, m), kernel)
        case Err(e) => Err(e)
        case Ok(s) =>
          if |s| != Count(m) then Err(ShapeMismatch)
          else SmoothFrom(x, y, rs, i + 1, MaskAssign(acc, m, s), name, params, kernel)
  }

  /** The ranges actually processed: the given ones, or the whole x extent when none are given. */
  function EffectiveRanges(x: seq<real>, ranges: seq<(real, real)>): seq<(real, real)>
    requires |ranges| > 0 || |x| > 0
  {
    if |ranges| == 0 then [(Min(x), Max(x))] else ranges
  }

  /** `smooth_data_in_ranges`, as the result it computes. */
  function SmoothInRanges(x: seq<real>, y: seq<real>, ranges: seq<(real, real)>,
                          name: string, params: SmoothParams, kernel: Kernel): Result<seq<real>, SmoothError>
  {
    if |ranges| == 0 && |x| == 0 then Err(EmptySpectrum)
    else if |x| != |y| then Err(IndexMismatch)
    else SmoothFrom(x, y, EffectiveRanges(x, ranges), 0, y, name, params, kernel)
  }

  /** `smooth_data_in_ranges`: copy y, then smooth range after range in place. */
  method SmoothDataInRanges(x: seq<real>, y: seq<real>, ranges: seq<(real, real)>,
                            name: string, params: SmoothParams, kernel: Kernel)
    returns (ok: bool, data: seq<real>, error: Option<SmoothError>)
    ensures var r := SmoothInRanges(x, y, ranges, name, params, kernel);
      && ok == r.Ok?
      && data == (if r.Ok? then r.value else y)
      && error == (if r.Ok? then None else Some(r.error))
  {
    if |ranges| == 0 && |x| == 0 {
      return false, y, Some(EmptySpectrum);
    }
    if |x| != |y| {
      return false, y, Some(IndexMismatch);
    }
    var rs := EffectiveRanges(x, ranges);
    var smoothed := new real[|y|](j requires 0 <= j < |y| => y[j]);
    assert smoothed[..] == y;
    var i := 0;
    while i < |rs|
      invariant 0 <= i <= |rs| && smoothed.Length == |y|
      invariant SmoothFrom(x, y, rs, i, smoothed[..], name, params, kernel)
             == SmoothFrom(x, y, rs, 0, y, name, params, kernel)
    {
      var m := RangeMask(x, rs[i]);
      if Count(m) != 0 {
        var res := SmoothWindow(name, params, Select(x, m), Select(y, m), kernel);
        if res.Err? {
          return false, y, Some(res.error);
        }
        if |res.value| != Count(m) {
          return false, y, Some(ShapeMismatch);
        }
        AssignMasked(smoothed, m, res.value);
      }
      i := i + 1;
    }
    return true, smoothed[..], None;
  }

  /** Smoothing never changes the length of the spectrum. */
  lemma {:induction false} SmoothFromLength(x: seq<real>, y: seq<real>, rs: seq<(real, real)>, i: nat,
                                            acc: seq<real>, name: string, params: SmoothParams, kernel: Kernel)
    requires |x| == |y| == |acc| && i <= |rs|
    ensures var r := SmoothFrom(x, y, rs, i, acc, name, params, kernel);
      r.Ok? ==> |r.value| == |y|
    decreases |rs| - i
  {
    if i < |rs| {
      var m := RangeMask(x, rs[i]);
      if Count(m) == 0 {
        SmoothFromLength(x, y, rs, i + 1, acc, name, params, kernel);
      } else {
        var w := SmoothWindow(name, params, Select(x, m), Select(y, m), kernel);
        if w.Ok? && |w.value| == Count(m) {
          SmoothFromLength(x, y, rs, i + 1, MaskAssign(acc, m, w.value), name, params, kernel);
        }
      }
    }
  }

  /** A range covers sample j when x[j] lies inside it. */
  predicate Covers(r: (real, real), v: real)
  {
    r.0 <= v <= r.1
  }

  /**
   * Samples outside every range keep their value, and a sample takes the value
   * that the LAST range covering it computed for it.
   */
  lemma {:induction false} SmoothFromAt(x: seq<real>, y: seq<real>, rs: seq<(real, real)>, i: nat,
                                        acc: seq<real>, name: string, params: SmoothParams, kernel: Kernel, j: nat)
    requires |x| == |y| == |acc| && i <= |rs| && j < |x|
    requires SmoothFrom(x, y, rs, i, acc, name, params, kernel).Ok?
    ensures var d := SmoothFrom(x, y, rs, i, acc, name, params, kernel).value;
      |d| == |y|
      && ((forall k :: i <= k < |rs| ==> !Covers(rs[k], x[j])) ==> d[j] == acc[j])
      && (forall k :: i <= k < |rs| && Covers(rs[k], x[j]) && (forall l :: k < l < |rs| ==> !Covers(rs[l], x[j])) ==>
            var m := RangeMask(x, rs[k]);
            var s := SmoothWindow(name, params, Select(x, m), Select(y, m), kernel);
            s.Ok? && Rank(m, j) < |s.value| && d[j] == s.value[Rank(m, j)])
    decreases |rs| - i
  {
    SmoothFromLength(x, y, rs, i, acc, name, params, kernel);
    if i < |rs| {
      var m := RangeMask(x, rs[i]);
      if Count(m) == 0 {
        SmoothFromAt(x, y, rs, i + 1, acc, name, params, kernel, j);
        if Covers(rs[i], x[j]) {
          assert m[j];
          RankBound(m, j);
        }
      } else {
        var w := SmoothWindow(name, params, Select(x, m), Select(y, m), kernel);
        var acc' := MaskAssign(acc, m, w.value);
        SmoothFromAt(x, y, rs, i + 1, acc', name, params, kernel, j);
        MaskAssignAt(acc, m, w.value, j);
      }
    }
  }

  /** A method name outside the five is only reported once some range holds samples. */
  lemma {:induction false} UnknownMethodOnlyOnData(x: seq<real>, y: seq<real>, rs: seq<(real, real)>, i: nat,
                                                   acc: seq<real>, name: string, params: SmoothParams, kernel: Kernel)
    requires |x| == |y| == |acc| && i <= |rs|
    requires name !in {"savgol", "lowess", "moving_average", "gaussian", "median"}
    ensures (forall k :: i <= k < |rs| ==> Count(RangeMask(x, rs[k])) == 0) ==>
      SmoothFrom(x, y, rs, i, acc, name, params, kernel) == Ok(acc)
    ensures (exists k :: i <= k < |rs| && Count(RangeMask(x, rs[k])) > 0) ==>
      SmoothFrom(x, y, rs, i, acc, name, params, kernel) == Err(UnknownMethod(name))
    decreases |rs| - i
  {
    if i < |rs| {
      UnknownMethodOnlyOnData(x, y, rs, i + 1, acc, name, params, kernel);
    }
  }

  /** With no ranges given, the whole spectrum is one window: the result is the filter applied to all of y. */
  lemma DefaultRangeIsWholeSpectrum(x: seq<real>, y: seq<real>, name: string, params: SmoothParams, kernel: Kernel)
    requires |x| == |y| && |x| > 0
    ensures SmoothInRanges(x, y, [], name, params, kernel) ==
      match SmoothWindow(name, params, x, y, kernel)
      case Err(e) => Err(e)
      case Ok(s) => if |s| != |y| then Err(ShapeMismatch) else Ok(s)
  {
    var r := (Min(x), Max(x));
    var m := RangeMask(x, r);
    WindowAll(x, Min(x), Max(x));
    SelectAll(x, m);
    SelectAll(y, m);
    assert Count(m) == |x|;
    var rs := EffectiveRanges(x, []);
    assert rs == [r] && RangeMask(x, rs[0]) == m;
    var w := SmoothWindow(name, params, x, y, kernel);
    if w.Ok? && |w.value| == |y| {
      MaskAssignAll(y, m, w.value);
      assert SmoothFrom(x, y, rs, 1, w.value, name, params, kernel) == Ok(w.value);
    }
  }

  /** A successful run keeps the length of y; mismatched x and y always fail. */
  lemma SmoothInRangesLength(x: seq<real>, y: seq<real>, ranges: seq<(real, real)>,
                          name: string, params: SmoothParams, kernel: Kernel)
    ensures |x| == |y| && SmoothInRanges(x, y, ranges, name, params, kernel).Ok? ==>
      |SmoothInRanges(x, y, ranges, name, params, kernel).value| == |y|
    ensures |x| != |y| ==> SmoothInRanges(x, y, ranges, name, params, kernel).Err?
  {
    if |x| == |y| && (|ranges| > 0 || |x| > 0) {
      SmoothFromLength(x, y, EffectiveRanges(x, ranges), 0, y, name, params, kernel);
    }
  }
}
