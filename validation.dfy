/**
 * The parameter checks that the smoothing and the baseline processors both
 * carry (src/smoothing_processor.py and src/baseline_corrector.py hold the
 * same two methods `validate_positive_int` and `validate_positive_float`;
 * the smoothing processor adds `validate_range`). None means the value is
 * accepted; otherwise the violation says which bound it broke.
 */
module Validation {
  import opened Common

  datatype Violation =
    | BelowMinimum(value: int, min: int)
    | NotAboveMinimum(fvalue: real, fmin: real)
    | OutOfRange(fvalue: real, lo: real, hi: real)

  /** `validate_positive_int`: accepts value >= min. */
  function ValidatePositiveInt(value: int, min: int): (r: Option<Violation>)
    ensures r.None? <==> value >= min
    ensures r.Some? ==> r.value == BelowMinimum(value, min)
  {
    if value < min then Some(BelowMinimum(value, min)) else None
  }

  /** `validate_positive_float`: accepts value > min, strictly. */
  function ValidatePositiveFloat(value: real, min: real): (r: Option<Violation>)
    ensures r.None? <==> value > min
    ensures r.Some? ==> r.value == NotAboveMinimum(value, min)
  {
    if value <= min then Some(NotAboveMinimum(value, min)) else None
  }

  /** `validate_range`: accepts lo <= value <= hi, both bounds inclusive. */
  function ValidateRange(value: real, lo: real, hi: real): (r: Option<Violation>)
    ensures r.None? <==> lo <= value <= hi
    ensures r.Some? ==> r.value == OutOfRange(value, lo, hi)
  {
    if value < lo || value > hi then Some(OutOfRange(value, lo, hi)) else None
  }
}
