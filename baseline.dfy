/**
 * Baseline correction (src/baseline_corrector.py).
 *
 * The five fitting algorithms come from a library; the model receives them as
 * one function `fitter` from an algorithm with its parameters and the
 * spectrum to the fitted baseline, or to None when the library raises. What
 * is modelled exactly is the input checks (empty data, NaN or infinity),
 * the dispatch with its default parameters, each algorithm's parameter
 * checks in the order the source makes them, the subtraction and the
 * failure contract: on failure the caller gets its y back together with an
 * all-zero baseline of the same length.
 */
module Baseline {
  import opened Common
  import opened Validation

  datatype Fit =
    | Rubberband
    | ModPoly(polyOrder: int)
    | IModPoly(polyOrder: int, maxIter: int)
    | AsLS(lam: real, p: real)
    | MixtureModel(numKnots: int)

  /** The library fitters: None stands for an exception raised inside them. */
  type Fitter = (Fit, seq<real>) -> Option<seq<real>>

  datatype Param = PolyOrder | MaxIter | Lambda | NumKnots

  datatype BaselineError =
    | Invalid(param: Param, violation: Violation)
    | AsymmetryOutOfRange(p: real)            // p outside the open interval (0, 1)
    | TooManyKnots(numKnots: int, limit: int) // more knots than half the samples
    | FitterRaised
    | ShapeMismatch                           // y - baseline with a baseline of another length
    | EmptyData
    | NonFinite                               // some sample is NaN or infinite
    | UnknownMethod(name: string)

  /** The keyword arguments `**params`; an absent key is None. */
  datatype BaselineParams = BaselineParams(
    polyOrder: Option<int>,
    maxIter: Option<int>,
    lam: Option<real>,
    p: Option<real>,
    numKnots: Option<int>)

  const DefaultPolyOrder: int := 2
  const DefaultMaxIter: int := 50
  const DefaultLam: real := 1000000.0
  const DefaultP: real := 0.01
  const DefaultNumKnots: int := 10

  /** A corrected spectrum together with the baseline that was subtracted. */
  datatype Correction = Correction(corrected: seq<real>, baseline: seq<real>)

  /** Run the fitter and subtract its baseline from y. */
  function Subtracted(fit: Fit, y: seq<real>, fitter: Fitter): Result<Correction, BaselineError>
  {
    match fitter(fit, y)
    case None => Err(FitterRaised)
    case Some(b) => if |b| != |y| then Err(ShapeMismatch) else Ok(Correction(Diff(y, b), b))
  }

  function Check(param: Param, v: Option<Violation>): Option<BaselineError>
  {
    match v
    case None => None
    case Some(violation) => Some(Invalid(param, violation))
  }

  /** `correct_rubberband` */
  function CorrectRubberband(y: seq<real>, fitter: Fitter): Result<Correction, BaselineError>
  {
    Subtracted(Rubberband, y, fitter)
  }

  /** `correct_modpoly` */
  function CorrectModpoly(y: seq<real>, polyOrder: int, fitter: Fitter): Result<Correction, BaselineError>
  {
    match Check(PolyOrder, ValidatePositiveInt(polyOrder, 1))
    case Some(e) => Err(e)
    case None => Subtracted(ModPoly(polyOrder), y, fitter)
  }

  /** `correct_imodpoly` */
  function CorrectIModpoly(y: seq<real>, polyOrder: int, maxIter: int, fitter: Fitter)
    : Result<Correction, BaselineError>
  {
    match Check(PolyOrder, ValidatePositiveInt(polyOrder, 1))
    case Some(e) => Err(e)
    case None =>
      match Check(MaxIter, ValidatePositiveInt(maxIter, 1))
      case Some(e) => Err(e)
      case None => Subtracted(IModPoly(polyOrder, maxIter), y, fitter)
  }

  /** `correct_asls` */
  function CorrectAsls(y: seq<real>, lam: real, p: real, fitter: Fitter): Result<Correction, BaselineError>
  {
    match Check(Lambda, ValidatePositiveFloat(lam, 0.0))
    case Some(e) => Err(e)
    case None =>
      if p <= 0.0 || p >= 1.0 then Err(AsymmetryOutOfRange(p))
      else Subtracted(AsLS(lam, p), y, fitter)
  }

  /** `correct_mixture_model`: the knot limit is half the sample count, rounded down. */
  function CorrectMixtureModel(y: seq<real>, numKnots: int, fitter: Fitter): Result<Correction, BaselineError>
  {
    match Check(NumKnots, ValidatePositiveInt(numKnots, 2))
    case Some(e) => Err(e)
    case None =>
      if numKnots > |y| / 2 then Err(TooManyKnots(numKnots, |y| / 2))
      else Subtracted(MixtureModel(numKnots), y, fitter)
  }

  function GetInt(v: Option<int>, default: int): int
  {
    if v.Some? then v.value else default
  }

  function GetReal(v: Option<real>, default: real): real
  {
    if v.Some? then v.value else default
  }

  /** The dispatch on the method name in `correct_baseline`, with `params.get(key, default)`. */
  function Dispatch(name: string, params: BaselineParams, y: seq<real>, fitter: Fitter)
    : Result<Correction, BaselineError>
  {
    if name == "rubberband" then CorrectRubberband(y, fitter)
    else if name == "modpoly" then CorrectModpoly(y, GetInt(params.polyOrder, DefaultPolyOrder), fitter)
    else if name == "imodpoly" then
      CorrectIModpoly(y, GetInt(params.polyOrder, DefaultPolyOrder), GetInt(params.maxIter, DefaultMaxIter), fitter)
    else if name == "asls" then
      CorrectAsls(y, GetReal(params.lam, DefaultLam), GetReal(params.p, DefaultP), fitter)
    else if name == "mixture_model" then
      CorrectMixtureModel(y, GetInt(params.numKnots, DefaultNumKnots), fitter)
    else Err(UnknownMethod(name))
  }

  /** What `correct_baseline` returns: success flag, corrected data, baseline and error. */
  datatype Outcome = Outcome(ok: bool, corrected: seq<Sample>, baseline: seq<real>, error: Option<BaselineError>)

  /** `correct_baseline` */
  function CorrectBaseline(y: seq<Sample>, name: string, params: BaselineParams, fitter: Fitter): Outcome
  {
    var r :=
      if |y| == 0 then Err(EmptyData)
      else if !AllFinite(y) then Err(NonFinite)
      else Dispatch(name, params, Values(y), fitter);
    match r
    case Ok(c) => Outcome(true, Samples(c.corrected), c.baseline, None)
    case Err(e) => Outcome(false, y, Zeros(|y|), Some(e))
  }

  /** The algorithm a method name calls for, its parameters filled in from the defaults. */
  function FitOf(name: string, params: BaselineParams): Option<Fit>
  {
    var order := if params.polyOrder.Some? then params.polyOrder.value else 2;
    if name == "rubberband" then Some(Rubberband)
    else if name == "modpoly" then Some(ModPoly(order))
    else if name == "imodpoly" then
      Some(IModPoly(order, if params.maxIter.Some? then params.maxIter.value else 50))
    else if name == "asls" then
      Some(AsLS(if params.lam.Some? then params.lam.value else 1000000.0,
                if params.p.Some? then params.p.value else 0.01))
    else if name == "mixture_model" then
      Some(MixtureModel(if params.numKnots.Some? then params.numKnots.value else 10))
    else None
  }

  /** The parameter domains of the five algorithms for n samples. */
  predicate ValidFit(fit: Fit, n: int)
  {
    match fit
    case Rubberband => true
    case ModPoly(k) => k >= 1
    case IModPoly(k, it) => k >= 1 && it >= 1
    case AsLS(lam, p) => lam > 0.0 && 0.0 < p < 1.0
    case MixtureModel(k) => 2 <= k && 2 * k <= n
  }

  /**
   * `correct_baseline` succeeds exactly when y is non-empty and finite, the
   * method is known, its parameters (after defaults) are in their domains,
   * and the fitter returns a baseline as long as y; the result is then the
   * fitter's baseline and y minus it.
   */
  lemma CorrectBaselineSpec(y: seq<Sample>, name: string, params: BaselineParams, fitter: Fitter)
    ensures var o := CorrectBaseline(y, name, params, fitter);
      o.ok <==>
        && |y| > 0 && AllFinite(y)
        && FitOf(name, params).Some?
        && ValidFit(FitOf(name, params).value, |y|)
        && fitter(FitOf(name, params).value, Values(y)).Some?
        && |fitter(FitOf(name, params).value, Values(y)).value| == |y|
    ensures var o := CorrectBaseline(y, name, params, fitter);
      o.ok ==> o.baseline == fitter(FitOf(name, params).value, Values(y)).value
  {
    if |y| > 0 && AllFinite(y) && name == "mixture_model" {
      var k := GetInt(params.numKnots, DefaultNumKnots);
      assert (k <= |y| / 2) <==> 2 * k <= |y|;
    }
  }

  /**
   * On success the corrected data plus the baseline gives back y, sample by
   * sample; on failure y comes back untouched with an all-zero baseline.
   */
  lemma CorrectBaselineReconstructs(y: seq<Sample>, name: string, params: BaselineParams, fitter: Fitter)
    ensures var o := CorrectBaseline(y, name, params, fitter);
      |o.corrected| == |o.baseline| == |y|
      && (o.ok ==> AllFinite(o.corrected) && forall i :: 0 <= i < |y| ==> o.corrected[i].v + o.baseline[i] == y[i].v)
      && (!o.ok ==> o.corrected == y && o.baseline == Zeros(|y|) && o.error.Some?)
  {
  }

  /** A spectrum with a NaN or an infinity is rejected before any method runs. */
  lemma NonFiniteRejected(y: seq<Sample>, i: nat, name: string, params: BaselineParams, fitter: Fitter)
    requires i < |y| && !y[i].Finite?
    ensures CorrectBaseline(y, name, params, fitter) == Outcome(false, y, Zeros(|y|), Some(NonFinite))
  {
  }
}
