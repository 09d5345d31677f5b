/**
 * The parts of Python's built-in value conversions that the measurement
 * system relies on: `str(int)`, `int(...)`, `float(...)`, `str(...)` and
 * `str.replace` on single characters.
 *
 * Python floats are modelled as `real`. Rendering a float as text
 * (`repr`) and parsing a float literal (`float(str)`) are only partly
 * pinned down: a `FloatCodec` supplies them, and the model fixes the cases
 * it needs exactly — integral values below 2^53 print as `<digits>.0`, and
 * a plain decimal integer literal parses to its value.
 */
module PyText {
  import opened Wrappers

  predicate IsDigit(c: char) {
    '0' <= c <= '9'
  }

  predicate AllDigits(s: string) {
    forall i :: 0 <= i < |s| ==> IsDigit(s[i])
  }

  function DigitVal(c: char): (d: nat)
    requires IsDigit(c)
    ensures d < 10
  {
    c as int - '0' as int
  }

  function DigitChar(d: nat): (c: char)
    requires d < 10
    ensures IsDigit(c) && DigitVal(c) == d
  {
    ('0' as int + d) as char
  }

  /** Value of a string of decimal digits, most significant first. */
  function DigitsValue(s: string): nat
    requires AllDigits(s)
  {
    if |s| == 0 then 0 else DigitsValue(s[..|s| - 1]) * 10 + DigitVal(s[|s| - 1])
  }

  /** A decimal numeral without superfluous leading zeros. */
  predicate Canonical(s: string) {
    |s| >= 1 && AllDigits(s) && (|s| == 1 || s[0] != '0')
  }

  /** `str(n)` for a non-negative integer. */
  function NatText(n: nat): (s: string)
    ensures |s| >= 1 && AllDigits(s)
    ensures n < 10 <==> |s| == 1
  {
    if n < 10 then [DigitChar(n)] else NatText(n / 10) + [DigitChar(n % 10)]
  }

  lemma {:induction false} NatTextValue(n: nat)
    ensures DigitsValue(NatText(n)) == n
    ensures Canonical(NatText(n))
  {
    if n >= 10 {
      NatTextValue(n / 10);
      var s := NatText(n);
      assert s[..|s| - 1] == NatText(n / 10);
    }
  }

  lemma {:induction false} CanonicalNatText(s: string)
    requires Canonical(s)
    ensures NatText(DigitsValue(s)) == s
    decreases |s|
  {
    if |s| > 1 {
      var p := s[..|s| - 1];
      assert AllDigits(p);
      LeadingDigitBound(p);
      CanonicalNatText(p);
      assert DigitsValue(s) / 10 == DigitsValue(p);
      assert DigitsValue(s) % 10 == DigitVal(s[|s| - 1]);
    }
  }

  /** A numeral of two or more digits that starts with a non-zero digit is at least 1. */
  lemma {:induction false} LeadingDigitBound(s: string)
    requires |s| >= 1 && AllDigits(s) && s[0] != '0'
    ensures DigitsValue(s) >= 1
    decreases |s|
  {
    if |s| > 1 {
      var p := s[..|s| - 1];
      assert p[0] == s[0];
      LeadingDigitBound(p);
    }
  }

  /** `str(i)` for any integer. */
  function IntText(i: int): (s: string)
    ensures |s| >= 1
  {
    if i < 0 then "-" + NatText(-i) else NatText(i)
  }

  /**
   * `int(s)` for a string: an optional sign followed by at least one ASCII
   * digit; anything else is rejected (`None`, which Python reports as
   * `ValueError`).
   */
  function ParseInt(s: string): (r: Option<int>)
    ensures r.Some? <==>
              (|s| >= 1 && AllDigits(s)) ||
              (|s| >= 2 && (s[0] == '-' || s[0] == '+') && AllDigits(s[1..]))
  {
    if |s| >= 1 && (s[0] == '-' || s[0] == '+') then
      var body := s[1..];
      if |body| >= 1 && AllDigits(body) then
        Some(if s[0] == '-' then -(DigitsValue(body) as int) else DigitsValue(body))
      else
        None
    else if |s| >= 1 && AllDigits(s) then
      Some(DigitsValue(s))
    else
      None
  }

  /** `int(str(i)) == i`: the integer text round-trips. */
  lemma IntTextParses(i: int)
    ensures ParseInt(IntText(i)) == Some(i)
  {
    var s := IntText(i);
    if i < 0 {
      var t := NatText(-i);
      NatTextValue(-i);
      assert s == "-" + t;
      assert s[1..] == t;
      assert s[0] == '-';
    } else {
      NatTextValue(i);
      assert IsDigit(s[0]);
    }
  }

  /** Python's `int(x)` on a float truncates toward zero. */
  function Trunc(x: real): (t: int)
    ensures x >= 0.0 ==> t as real <= x < t as real + 1.0
    ensures x < 0.0 ==> t as real - 1.0 < x <= t as real
  {
    if x >= 0.0 then x.Floor else -((-x).Floor)
  }

  predicate Integral(x: real) {
    x.Floor as real == x
  }

  /** 2^53: every integer of smaller magnitude is exactly a double. */
  const Exact: int := 0x20_0000_0000_0000

  predicate ExactInt(i: int) {
    -Exact <= i <= Exact
  }

  /** The parts of float formatting and parsing the model leaves open. */
  datatype FloatCodec = FloatCodec(show: real -> string, read: string -> Option<real>)

  /** `str(x)` for a float: integral doubles print as `<int>.0`. */
  function ShowFloat(fc: FloatCodec, x: real): (s: string)
    ensures Integral(x) && ExactInt(x.Floor) ==> s == IntText(x.Floor) + ".0"
  {
    if Integral(x) && ExactInt(x.Floor) then IntText(x.Floor) + ".0" else fc.show(x)
  }

  predicate HasDigit(s: string) {
    exists i :: 0 <= i < |s| && IsDigit(s[i])
  }

  function Lower(c: char): char {
    if 'A' <= c <= 'Z' then (c as int + 32) as char else c
  }

  function LowerText(s: string): (r: string)
    ensures |r| == |s|
  {
    if |s| == 0 then "" else [Lower(s[0])] + LowerText(s[1..])
  }

  /** The spellings of infinity and NaN that `float()` accepts, with an optional sign. */
  predicate SpecialFloatWord(s: string) {
    var t := if |s| >= 1 && (s[0] == '-' || s[0] == '+') then LowerText(s[1..]) else LowerText(s);
    t in {"inf", "infinity", "nan"}
  }

  /**
   * `float(s)` for a string; `None` stands for `ValueError`. Text without a
   * digit is rejected unless it spells infinity or NaN.
   */
  function FloatOfStr(fc: FloatCodec, s: string): (r: Option<real>)
    ensures ParseInt(s).Some? && ExactInt(ParseInt(s).value) ==> r == Some(ParseInt(s).value as real)
    ensures !HasDigit(s) && !SpecialFloatWord(s) ==> r == None
  {
    if !HasDigit(s) && !SpecialFloatWord(s) then None
    else
    match ParseInt(s)
    case Some(i) =>
      if ExactInt(i) then Some(i as real) else fc.read(s)
    case None =>
      if |s| >= 2 && s[|s| - 2..] == ".0" && ParseInt(s[..|s| - 2]).Some? && ExactInt(ParseInt(s[..|s| - 2]).value) then
        Some(ParseInt(s[..|s| - 2]).value as real)
      else
        fc.read(s)
  }

  /** Printing an exactly representable integral float and reading it back gives the float. */
  lemma ShowFloatReads(fc: FloatCodec, x: real)
    requires Integral(x) && ExactInt(x.Floor)
    ensures FloatOfStr(fc, ShowFloat(fc, x)) == Some(x)
  {
    var s := ShowFloat(fc, x);
    var t := IntText(x.Floor);
    assert s == t + ".0";
    IntTextParses(x.Floor);
    assert s[..|s| - 2] == t;
    assert s[|s| - 2..] == ".0";
    assert s[|s| - 1] == '0' && s[|s| - 2] == '.';
    assert !IsDigit(s[|s| - 2]);
    assert ParseInt(s).None? by {
      if |s| >= 2 && (s[0] == '-' || s[0] == '+') {
        assert s[1..][|s| - 3] == s[|s| - 2];
      }
    }
  }

  /** The Python values that reach the modelled conversions. */
  datatype PyVal = PyNone | PyInt(i: int) | PyFloat(x: real) | PyStr(s: string)

  /** `int(v)`. */
  function IntOf(v: PyVal): (r: Result<int>)
    ensures v.PyNone? ==> r == Err(TypeError)
    ensures v.PyStr? ==> (r.Ok? <==> ParseInt(v.s).Some?)
    ensures r.Err? ==> r.error in {TypeError, ValueError}
  {
    match v
    case PyNone => Err(TypeError)
    case PyInt(i) => Ok(i)
    case PyFloat(x) => Ok(Trunc(x))
    case PyStr(s) =>
      (match ParseInt(s)
       case Some(i) => Ok(i)
       case None => Err(ValueError))
  }

  /** `float(v)`; an integer converts as its decimal text does. */
  function FloatOf(fc: FloatCodec, v: PyVal): (r: Result<real>)
    ensures v.PyNone? ==> r == Err(TypeError)
    ensures v.PyFloat? ==> r == Ok(v.x)
    ensures v.PyInt? && ExactInt(v.i) ==> r == Ok(v.i as real)
    ensures r.Err? ==> r.error in {TypeError, ValueError}
  {
    match v
    case PyNone => Err(TypeError)
    case PyInt(i) =>
      IntTextParses(i);
      (match FloatOfStr(fc, IntText(i))
       case Some(x) => Ok(x)
       case None => Err(ValueError))
    case PyFloat(x) => Ok(x)
    case PyStr(s) =>
      (match FloatOfStr(fc, s)
       case Some(x) => Ok(x)
       case None => Err(ValueError))
  }

  /** `str(v)`. */
  function StrOf(fc: FloatCodec, v: PyVal): (s: string)
    ensures v.PyStr? ==> s == v.s
    ensures v.PyNone? ==> s == "None"
    ensures v.PyInt? ==> ParseInt(s) == Some(v.i)
  {
    match v
    case PyNone => "None"
    case PyInt(i) => IntTextParses(i); IntText(i)
    case PyFloat(x) => ShowFloat(fc, x)
    case PyStr(s) => s
  }

  /** `s.replace(a, b)` for single characters. */
  function ReplaceChar(s: string, a: char, b: char): (r: string)
    ensures |r| == |s|
    ensures forall i :: 0 <= i < |s| ==> r[i] == (if s[i] == a then b else s[i])
  {
    if |s| == 0 then [] else ReplaceChar(s[..|s| - 1], a, b) + [if s[|s| - 1] == a then b else s[|s| - 1]]
  }

  /** `sep.join(parts)`. */
  function Join(parts: seq<string>, sep: string): string {
    if |parts| == 0 then ""
    else if |parts| == 1 then parts[0]
    else Join(parts[..|parts| - 1], sep) + sep + parts[|parts| - 1]
  }
}
