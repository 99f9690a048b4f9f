/**
 * Two-decimal text as the GUI writes it into its list boxes and tables
 * (Python's `f"{v:.2f}"`) and as it reads it back with `float(...)`.
 *
 * Python formats the exact value correctly rounded to the nearest hundredth,
 * ties to even, and writes the sign separately from the magnitude.
 */
module DecimalText {
  import opened Common

  /** Round to the nearest integer, ties to the even neighbour. */
  function RoundHalfEven(r: real): (n: int)
    ensures n as real - 0.5 <= r <= n as real + 0.5
  {
    var f := r.Floor;
    var d := r - f as real;
    if d < 0.5 then f
    else if d > 0.5 then f + 1
    else if f % 2 == 0 then f
    else f + 1
  }

  /** The value that `f"{v:.2f}"` denotes. */
  function Round2(v: real): real
  {
    RoundHalfEven(v * 100.0) as real / 100.0
  }

  /** A value that two-decimal text represents exactly. */
  predicate IsCents(v: real)
  {
    Round2(v) == v
  }

  function Digit(d: nat): char
    requires d < 10
  {
    "0123456789"[d]
  }

  predicate IsDigit(c: char)
  {
    '0' <= c <= '9'
  }

  function DigitValue(c: char): nat
    requires IsDigit(c)
  {
    (c - '0') as nat
  }

  /** Decimal digits of n, most significant first, without leading zeros. */
  function NatDigits(n: nat): (s: string)
    ensures |s| > 0
    ensures forall i :: 0 <= i < |s| ==> IsDigit(s[i])
    decreases n
  {
    if n < 10 then [Digit(n)] else NatDigits(n / 10) + [Digit(n % 10)]
  }

  function DigitsValue(s: string): nat
    requires forall i :: 0 <= i < |s| ==> IsDigit(s[i])
  {
    if s == [] then 0 else 10 * DigitsValue(s[..|s| - 1]) + DigitValue(s[|s| - 1])
  }

  /** `f"{v:.2f}"` */
  function FormatFixed2(v: real): string
  {
    (if v < 0.0 then "-" else "") + Magnitude(RoundHalfEven(Abs(v) * 100.0))
  }

  /** The unsigned text of m hundredths: whole part, point, two digits. */
  function Magnitude(m: nat): string
  {
    NatDigits(m / 100) + "." + [Digit(m % 100 / 10), Digit(m % 10)]
  }

  /** `float(s)` on the text shape that FormatFixed2 produces; None stands for the ValueError. */
  function ParseFixed2(s: string): Option<real>
  {
    if |s| > 0 && s[0] == '-' then
      match ParseUnsigned(s[1..])
      case Some(m) => Some(-m)
      case None => None
    else ParseUnsigned(s)
  }

  function ParseUnsigned(s: string): Option<real>
  {
    if |s| >= 4 && s[|s| - 3] == '.'
       && (forall i :: 0 <= i < |s| - 3 ==> IsDigit(s[i]))
       && IsDigit(s[|s| - 2]) && IsDigit(s[|s| - 1])
    then
      var whole := DigitsValue(s[..|s| - 3]);
      var cents := 10 * DigitValue(s[|s| - 2]) + DigitValue(s[|s| - 1]);
      Some(whole as real + cents as real / 100.0)
    else None
  }

  predicate NoSpace(s: string)
  {
    forall i :: 0 <= i < |s| ==> s[i] != ' '
  }

  lemma {:induction false} DigitsRoundTrip(n: nat)
    ensures DigitsValue(NatDigits(n)) == n
    decreases n
  {
    var s := NatDigits(n);
    if n >= 10 {
      DigitsRoundTrip(n / 10);
      assert s[..|s| - 1] == NatDigits(n / 10);
    }
  }

  lemma RoundHalfEvenOfInt(c: int)
    ensures RoundHalfEven(c as real) == c
  {
    assert (c as real).Floor == c;
  }

  lemma RoundHalfEvenNeg(r: real)
    ensures RoundHalfEven(-r) == -RoundHalfEven(r)
  {
    var f := r.Floor;
    var d := r - f as real;
    if d == 0.0 {
      assert (-r).Floor == -f;
    } else {
      assert (-r).Floor == -f - 1;
      if d == 0.5 {
        assert (-r) - (-f - 1) as real == 0.5;
        assert (f % 2 == 0) == ((-f - 1) % 2 != 0);
      }
    }
  }

  /** A value that is already a whole number of hundredths survives formatting unchanged. */
  lemma Round2OfCents(c: int)
    ensures Round2(c as real / 100.0) == c as real / 100.0
  {
    assert (c as real / 100.0) * 100.0 == c as real;
    RoundHalfEvenOfInt(c);
  }

  lemma Round2Idempotent(v: real)
    ensures IsCents(Round2(v))
  {
    Round2OfCents(RoundHalfEven(v * 100.0));
  }

  /** Formatting never moves a value by more than half a hundredth. */
  lemma Round2Close(v: real)
    ensures Abs(Round2(v) - v) <= 0.005
  {
  }

  lemma {:induction false} Round2Monotone(a: real, b: real)
    requires a <= b
    ensures Round2(a) <= Round2(b)
  {
    var ra, rb := RoundHalfEven(a * 100.0), RoundHalfEven(b * 100.0);
    if ra > rb {
      assert ra as real - 0.5 >= rb as real + 0.5;
      assert a * 100.0 >= b * 100.0;
      assert a == b;
    }
  }

  lemma FormatNoSpace(v: real)
    ensures NoSpace(FormatFixed2(v))
  {
  }

  lemma MagnitudeShape(m: nat)
    ensures var body := Magnitude(m);
      |body| >= 4 && body[|body| - 3] == '.'
      && body[..|body| - 3] == NatDigits(m / 100)
      && body[|body| - 2] == Digit(m % 100 / 10) && body[|body| - 1] == Digit(m % 10)
  {
  }

  lemma CentsSplit(m: nat)
    ensures (m / 100) as real + (10 * (m % 100 / 10) + m % 10) as real / 100.0 == m as real / 100.0
  {
    var w, c := m / 100, m % 100;
    assert m == 100 * w + c;
    assert 10 * (c / 10) + c % 10 == c;
    assert (m as real) == 100.0 * (w as real) + (c as real);
  }

  lemma MagnitudeParse(m: nat)
    ensures ParseUnsigned(Magnitude(m)) == Some(m as real / 100.0)
  {
    var body := Magnitude(m);
    MagnitudeShape(m);
    DigitsRoundTrip(m / 100);
    assert DigitValue(Digit(m % 100 / 10)) == m % 100 / 10;
    assert DigitValue(Digit(m % 10)) == m % 10;
    CentsSplit(m);
  }

  lemma SignedRound(v: real)
    ensures (if v < 0.0 then -RoundHalfEven(Abs(v) * 100.0) else RoundHalfEven(Abs(v) * 100.0))
            == RoundHalfEven(v * 100.0)
  {
    if v < 0.0 {
      assert Abs(v) * 100.0 == -(v * 100.0);
      RoundHalfEvenNeg(v * 100.0);
    }
  }

  lemma ParseSigned(body: string, neg: bool)
    requires |body| > 0 && body[0] != '-'
    ensures ParseFixed2((if neg then "-" else "") + body)
            == match ParseUnsigned(body)
               case Some(m) => Some(if neg then -m else m)
               case None => None
  {
    if neg {
      assert ("-" + body)[1..] == body;
    } else {
      assert "" + body == body;
    }
  }

  /** `float(f"{v:.2f}") == round(v, 2)` */
  lemma FormatParse(v: real)
    ensures ParseFixed2(FormatFixed2(v)) == Some(Round2(v))
  {
    var m := RoundHalfEven(Abs(v) * 100.0);
    MagnitudeParse(m);
    MagnitudeShape(m);
    ParseSigned(Magnitude(m), v < 0.0);
    SignedRound(v);
  }

  /** Text written from a two-decimal value parses back to exactly that value. */
  lemma FormatParseCents(v: real)
    requires IsCents(v)
    ensures ParseFixed2(FormatFixed2(v)) == Some(v)
  {
    FormatParse(v);
  }
}
