/**
 * JavaScript's `parseFloat` over exact reals: skip leading white space, read an
 * optional sign and the longest decimal literal at the front (digits, an
 * optional fraction, an optional exponent), ignore the rest. No literal at the
 * front is `NaN`, modelled as `None`.
 */
module JsNumber {
  import opened Wrappers
  import opened JsText

  predicate IsDigit(c: char) { '0' <= c <= '9' }

  predicate AllDigits(s: string) { forall i :: 0 <= i < |s| ==> IsDigit(s[i]) }

  function DigitValue(c: char): nat
    requires IsDigit(c)
  {
    c as int - '0' as int
  }

  /** Length of the longest run of decimal digits at the front of `s`. */
  function DigitRun(s: string): (n: nat)
    ensures n <= |s|
    ensures forall i :: 0 <= i < n ==> IsDigit(s[i])
    ensures n == |s| || !IsDigit(s[n])
  {
    if s != [] && IsDigit(s[0]) then 1 + DigitRun(s[1..]) else 0
  }

  /** The value of a string of decimal digits, most significant digit first. */
  function DigitsValue(d: string): nat
    requires AllDigits(d)
  {
    if d == [] then 0 else 10 * DigitsValue(d[..|d| - 1]) + DigitValue(d[|d| - 1])
  }

  function Pow10(n: nat): (r: nat)
    ensures r >= 1
  {
    if n == 0 then 1 else 10 * Pow10(n - 1)
  }

  /**
   * The exponent part at the front of `s` (`e` or `E`, an optional sign, at least
   * one digit), or `None` when `s` does not start with one; a malformed exponent
   * is simply not part of the literal.
   */
  function ExponentPart(s: string): Option<int> {
    if |s| >= 2 && (s[0] == 'e' || s[0] == 'E') then
      var digits := if s[1] == '+' || s[1] == '-' then s[1..][1..] else s[1..];
      var n := DigitRun(digits);
      if n == 0 then None
      else
        var v := DigitsValue(digits[..n]);
        Some(if s[1] == '-' then -(v as int) else v as int)
    else None
  }

  /** The text after leading white space and an optional sign. */
  function Unsigned(s: string): string {
    var t := TrimStart(s);
    if t != [] && (t[0] == '+' || t[0] == '-') then t[1..] else t
  }

  predicate IsNegated(s: string) {
    var t := TrimStart(s);
    t != [] && t[0] == '-'
  }

  /** A decimal literal can be read from `b`: it starts with a digit, or with a point and a digit. */
  predicate StartsNumeric(b: string) {
    (b != [] && IsDigit(b[0])) || (|b| >= 2 && b[0] == '.' && IsDigit(b[1]))
  }

  /** The parts of a decimal literal: integer digits, fraction digits and the exponent (0 when absent). */
  datatype Literal = Literal(whole: string, fraction: string, exponent: int)

  predicate WellFormedLiteral(l: Literal) {
    AllDigits(l.whole) && AllDigits(l.fraction) && (l.whole != [] || l.fraction != [])
  }

  /** Splits the longest decimal literal at the front of `b` (which carries no sign) into its parts. */
  function ScanLiteral(b: string): (l: Literal)
    requires StartsNumeric(b)
    ensures WellFormedLiteral(l)
  {
    var i := DigitRun(b);
    var afterInt := b[i..];
    var hasPoint := afterInt != [] && afterInt[0] == '.';
    var f := if hasPoint then DigitRun(afterInt[1..]) else 0;
    var fraction := if hasPoint then afterInt[1..][..f] else "";
    var rest := if hasPoint then afterInt[1..][f..] else afterInt;
    var e := match ExponentPart(rest) case None => 0 case Some(e) => e;
    Literal(b[..i], fraction, e)
  }

  /** The exact value of `whole.fraction`. */
  function MantissaValue(whole: string, fraction: string): (r: real)
    requires AllDigits(whole) && AllDigits(fraction)
    ensures r >= 0.0
  {
    var w := DigitsValue(whole) as real;
    var q := DigitsValue(fraction) as real / Pow10(|fraction|) as real;
    assert q >= 0.0;
    w + q
  }

  /** `m` times ten to the power `e`. */
  function Scale(m: real, e: int): (r: real)
    ensures m >= 0.0 ==> r >= 0.0
  {
    if e >= 0 then m * Pow10(e) as real else m / Pow10(-e) as real
  }

  function LiteralValue(l: Literal): (r: real)
    requires WellFormedLiteral(l)
    ensures r >= 0.0
  {
    Scale(MantissaValue(l.whole, l.fraction), l.exponent)
  }

  /** `parseFloat(s)`, with `NaN` as `None`. */
  function ParseFloat(s: string): (r: Option<real>)
    ensures r.Some? <==> StartsNumeric(Unsigned(s))
    ensures r.Some? && !IsNegated(s) ==> r.value >= 0.0
    ensures r.Some? && IsNegated(s) ==> r.value <= 0.0
  {
    var b := Unsigned(s);
    if !StartsNumeric(b) then None
    else
      var v := LiteralValue(ScanLiteral(b));
      Some(if IsNegated(s) then -v else v)
  }

  /** The run of digits at the front of `d + rest` is `d` when `rest` does not begin with a digit. */
  lemma {:induction false} DigitRunOfConcat(d: string, rest: string)
    requires AllDigits(d)
    requires rest == [] || !IsDigit(rest[0])
    ensures DigitRun(d + rest) == |d|
  {
    if d != [] {
      assert (d + rest)[1..] == d[1..] + rest;
      DigitRunOfConcat(d[1..], rest);
    } else {
      assert d + rest == rest;
    }
  }

  /** Text that begins with a digit has no white space or sign to skip. */
  lemma UnsignedOfDigitStart(s: string)
    requires s != [] && IsDigit(s[0])
    ensures TrimStart(s) == s && Unsigned(s) == s && !IsNegated(s)
  {
    assert !IsWhiteSpace(s[0]);
    assert s[0] != '+' && s[0] != '-';
  }

  lemma {:induction false} ScanDigits(d: string, rest: string)
    requires d != [] && AllDigits(d)
    requires rest == [] || !(IsDigit(rest[0]) || rest[0] == '.' || rest[0] == 'e' || rest[0] == 'E')
    ensures StartsNumeric(d + rest) && ScanLiteral(d + rest) == Literal(d, "", 0)
  {
    var s := d + rest;
    DigitRunOfConcat(d, rest);
    assert s[..|d|] == d;
    assert s[|d|..] == rest;
    assert ExponentPart(rest).None?;
  }

  lemma WholeValue(d: string)
    requires d != [] && AllDigits(d)
    ensures WellFormedLiteral(Literal(d, "", 0))
    ensures LiteralValue(Literal(d, "", 0)) == DigitsValue(d) as real
  {
    assert Pow10(0) == 1;
    assert MantissaValue(d, "") == DigitsValue(d) as real;
  }

  /**
   * A run of digits followed by text that cannot continue a literal (no digit,
   * point or exponent letter) parses to the value of the digits.
   */
  lemma ParseDigits(d: string, rest: string)
    requires d != [] && AllDigits(d)
    requires rest == [] || !(IsDigit(rest[0]) || rest[0] == '.' || rest[0] == 'e' || rest[0] == 'E')
    ensures ParseFloat(d + rest) == Some(DigitsValue(d) as real)
  {
    var s := d + rest;
    assert s[0] == d[0];
    UnsignedOfDigitStart(s);
    ScanDigits(d, rest);
    WholeValue(d);
  }

  lemma ScanDecimal(whole: string, fraction: string)
    requires AllDigits(whole) && AllDigits(fraction)
    requires whole != [] || fraction != []
    ensures StartsNumeric(whole + "." + fraction)
    ensures ScanLiteral(whole + "." + fraction) == Literal(whole, fraction, 0)
  {
    var s := whole + "." + fraction;
    assert s[|whole|] == '.';
    assert s == whole + ("." + fraction);
    if whole == [] { assert s[1] == fraction[0]; }
    DigitRunOfConcat(whole, "." + fraction);
    assert s[..|whole|] == whole;
    var afterInt := s[|whole|..];
    assert afterInt == "." + fraction;
    assert afterInt[1..] == fraction + "";
    DigitRunOfConcat(fraction, "");
    assert afterInt[1..][..|fraction|] == fraction;
    assert afterInt[1..][|fraction|..] == "";
  }

  /** `whole.fraction`, with nothing after it, parses to its exact decimal value. */
  lemma ParseDecimal(whole: string, fraction: string)
    requires AllDigits(whole) && AllDigits(fraction)
    requires whole != [] || fraction != []
    ensures ParseFloat(whole + "." + fraction) == Some(MantissaValue(whole, fraction))
  {
    var s := whole + "." + fraction;
    if whole != [] {
      assert s[0] == whole[0];
      UnsignedOfDigitStart(s);
    } else {
      assert s[0] == '.';
      assert !IsWhiteSpace(s[0]);
      assert TrimStart(s) == s;
    }
    ScanDecimal(whole, fraction);
    assert Pow10(0) == 1;
  }

  /** The decimal digits of a natural number, as `String(n)` writes it. */
  function DecimalString(n: nat): (s: string)
    ensures s != [] && AllDigits(s)
    decreases n
  {
    var last := ['0' + (n % 10) as char];
    if n < 10 then last else DecimalString(n / 10) + last
  }

  lemma {:induction false} DecimalStringValue(n: nat)
    ensures DigitsValue(DecimalString(n)) == n
    decreases n
  {
    var s := DecimalString(n);
    assert s[|s| - 1] == '0' + (n % 10) as char;
    if n >= 10 {
      assert s[..|s| - 1] == DecimalString(n / 10);
      DecimalStringValue(n / 10);
    } else {
      assert s[..|s| - 1] == [];
    }
  }

  /** Reading back the decimal digits of a natural number gives that number. */
  lemma ParseDecimalString(n: nat)
    ensures ParseFloat(DecimalString(n)) == Some(n as real)
  {
    DecimalStringValue(n);
    assert DecimalString(n) + "" == DecimalString(n);
    ParseDigits(DecimalString(n), "");
  }
}
