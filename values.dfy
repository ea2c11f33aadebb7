/** Python values the monitoring core handles: numbers that are either ints or
    floats, Python's built-in `round`, and the decimal text `str()` produces. */
module PyValues {

  datatype Option<+T> = None | Some(value: T)

  /** The exceptions the modelled code can raise. */
  datatype PyError =
    | KeyError(key: string)   // a dict lookup with a missing key
    | TypeError               // an arithmetic operator applied to a dict

  datatype Result<+T> = Ok(value: T) | Err(error: PyError)

  /** A JSON number as Python holds it. Ints and floats compare and add alike,
      but `str` writes them differently ("0" against "0.0"). Floats are
      modelled by their exact value. */
  datatype Num = Int(i: int) | Float(x: real) {
    function Real(): real {
      match this
      case Int(i) => i as real
      case Float(x) => x
    }
  }

  /** Python 3 `round(x)` on the exact value of `x`: the nearest integer, ties
      going to the even one. */
  function RoundHalfEven(x: real): (n: int)
    ensures -0.5 <= n as real - x <= 0.5
    ensures (n as real - x == 0.5 || x - n as real == 0.5) ==> n % 2 == 0
  {
    var f := x.Floor;
    var d := x - f as real;
    if d < 0.5 then f
    else if d > 0.5 then f + 1
    else if f % 2 == 0 then f
    else f + 1
  }

  /** The two properties in RoundHalfEven's contract pick out a single integer. */
  lemma RoundHalfEvenUnique(x: real, n: int)
    requires -0.5 <= n as real - x <= 0.5
    requires (n as real - x == 0.5 || x - n as real == 0.5) ==> n % 2 == 0
    ensures n == RoundHalfEven(x)
  {
  }

  /** Rounding leaves whole numbers alone. */
  lemma RoundOfWhole(n: int)
    ensures RoundHalfEven(n as real) == n
  {
    RoundHalfEvenUnique(n as real, n);
  }

  /** Python 3 `round(x, 1)` on the exact value of `x`, as a count of tenths. */
  function RoundTenths(x: real): (t: int)
    ensures -0.05 <= t as real / 10.0 - x <= 0.05
  {
    RoundHalfEven(x * 10.0)
  }

  /** The value handed to `str()` when a state is posted: a Python int, or a
      float holding a whole number of tenths (what `round(x, 1)` yields). */
  datatype State = Whole(n: int) | Tenths(t: int) {
    function Real(): real {
      match this
      case Whole(n) => n as real
      case Tenths(t) => t as real / 10.0
    }
  }

  // ---------------------------------------------------------------------------
  // Decimal text

  predicate IsDigit(c: char) { '0' <= c <= '9' }

  predicate AllDigits(s: string) { forall i :: 0 <= i < |s| ==> IsDigit(s[i]) }

  function DigitChar(d: nat): (c: char)
    requires d < 10
    ensures IsDigit(c)
  {
    ('0' as int + d) as char
  }

  function DigitValue(c: char): (d: nat)
    requires IsDigit(c)
    ensures d < 10
  {
    c as int - '0' as int
  }

  /** Decimal digits of `n`, most significant first, without leading zeros. */
  function NatToString(n: nat): (s: string)
    ensures |s| >= 1 && AllDigits(s)
    ensures n < 10 <==> |s| == 1
  {
    if n < 10 then [DigitChar(n)] else NatToString(n / 10) + [DigitChar(n % 10)]
  }

  function ParseNat(s: string): nat
    requires AllDigits(s)
  {
    if s == [] then 0 else ParseNat(s[..|s| - 1]) * 10 + DigitValue(s[|s| - 1])
  }

  lemma {:induction false} ParseNatToString(n: nat)
    ensures ParseNat(NatToString(n)) == n
  {
    var s := NatToString(n);
    if n >= 10 {
      assert s[..|s| - 1] == NatToString(n / 10);
      ParseNatToString(n / 10);
    }
  }

  /** Python's `str` of an int. */
  function IntToString(i: int): (s: string)
    ensures |s| >= 1
    ensures i < 0 <==> s[0] == '-'
  {
    if i < 0 then "-" + NatToString(-i) else NatToString(i)
  }

  /** At least one digit, read as a number. */
  function ParseDigits(s: string): Option<nat> {
    if |s| > 0 && AllDigits(s) then Some(ParseNat(s)) else None
  }

  /** An optional '-' followed by at least one digit: the sign and the
      magnitude. */
  function ParseSigned(s: string): Option<(bool, nat)> {
    if |s| > 0 && s[0] == '-' then
      match ParseDigits(s[1..])
      case Some(n) => Some((true, n))
      case None => None
    else
      match ParseDigits(s)
      case Some(n) => Some((false, n))
      case None => None
  }

  /** Digits, with or without a leading '-', read back as their sign and
      value. */
  lemma ParseSignedOfDigits(neg: bool, digits: string)
    requires |digits| > 0 && AllDigits(digits)
    ensures ParseSigned((if neg then "-" else "") + digits) == Some((neg, ParseNat(digits)))
  {
    var s := (if neg then "-" else "") + digits;
    if neg {
      assert s[1..] == digits;
    } else {
      assert s == digits;
    }
  }

  /** A magnitude's digits, signed or not, read back as that sign and
      magnitude. */
  lemma ParseSignedOfNat(neg: bool, n: nat)
    ensures ParseSigned((if neg then "-" else "") + NatToString(n)) == Some((neg, n))
  {
    ParseSignedOfDigits(neg, NatToString(n));
    ParseNatToString(n);
  }

  /** Python's `str` of a state: "12" for an int, "12.3", "-0.5" or "7.0"
      for a float holding tenths. */
  function Str(v: State): string {
    match v
    case Whole(n) => IntToString(n)
    case Tenths(t) =>
      var a: nat := if t < 0 then -t else t;
      (if t < 0 then "-" else "") + NatToString(a / 10) + "." + [DigitChar(a % 10)]
  }

  /** Reads a state back: a number with one digit after a point is a float of
      tenths, a number without a point an int. */
  function ParseState(s: string): Option<State> {
    if |s| >= 2 && s[|s| - 2] == '.' && IsDigit(s[|s| - 1]) then
      match ParseSigned(s[..|s| - 2])
      case Some((neg, n)) =>
        var a := n * 10 + DigitValue(s[|s| - 1]);
        Some(Tenths(if neg then -a else a))
      case None => None
    else
      match ParseSigned(s)
      case Some((neg, n)) => Some(Whole(if neg then -(n as int) else n))
      case None => None
  }

  /** No character of an int's text is a decimal point. */
  lemma IntToStringHasNoPoint(n: int, i: int)
    requires 0 <= i < |IntToString(n)|
    ensures IntToString(n)[i] != '.'
  {
    var m: nat := if n < 0 then -n else n;
    if n < 0 && i > 0 {
      assert IntToString(n)[i] == NatToString(m)[i - 1];
    }
  }

  /** An int's text has no decimal point, so it reads back as that int. */
  lemma ParseStateWhole(n: int)
    ensures ParseState(Str(Whole(n))) == Some(Whole(n))
  {
    var s := IntToString(n);
    if |s| >= 2 {
      IntToStringHasNoPoint(n, |s| - 2);
    }
    if n < 0 {
      ParseSignedOfNat(true, -n);
    } else {
      ParseSignedOfNat(false, n);
      assert "" + NatToString(n) == s;
    }
  }

  /** A signed number followed by a point and a digit reads back as tenths. */
  lemma ParseStateOfPoint(head: string, d: nat, neg: bool, n: nat)
    requires d < 10 && ParseSigned(head) == Some((neg, n))
    ensures ParseState(head + "." + [DigitChar(d)]) == Some(Tenths(if neg then -(n * 10 + d) else n * 10 + d))
  {
    var s := head + "." + [DigitChar(d)];
    assert s[..|s| - 2] == head;
    assert s[|s| - 2] == '.' && s[|s| - 1] == DigitChar(d);
  }

  /** A float's text has one digit after the point, and reads back as the same
      number of tenths, negative ones included. */
  lemma ParseStateTenths(t: int)
    ensures ParseState(Str(Tenths(t))) == Some(Tenths(t))
  {
    var a: nat := if t < 0 then -t else t;
    var digits := NatToString(a / 10);
    var head := (if t < 0 then "-" else "") + digits;
    ParseSignedOfNat(t < 0, a / 10);
    ParseStateOfPoint(head, a % 10, t < 0, a / 10);
    if t < 0 {
      assert Str(Tenths(t)) == head + "." + [DigitChar(a % 10)];
      assert -((a / 10) * 10 + a % 10) == t;
    } else {
      assert Str(Tenths(t)) == head + "." + [DigitChar(a % 10)];
      assert (a / 10) * 10 + a % 10 == t;
    }
  }

  /** The text posted for a state determines the state: ints and floats never
      have the same text, and the value reads back exactly. */
  lemma ParseStateStr(v: State)
    ensures ParseState(Str(v)) == Some(v)
  {
    match v
    case Whole(n) => ParseStateWhole(n);
    case Tenths(t) => ParseStateTenths(t);
  }
}
