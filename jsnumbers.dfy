/**
 * JavaScript numbers as the adapters use them.  A number that comes out of a
 * JSON payload is a finite decimal literal (`Decimal`); a computed number is a
 * `Number`, which is either `NaN` or a finite value.  Values are exact
 * rationals: IEEE rounding, infinities and `-0` are not modelled.
 */
module JsNumbers {
  import opened Wrappers
  import opened JsStrings

  function Pow10(n: nat): (p: nat)
    ensures p >= 1
  {
    if n == 0 then 1 else 10 * Pow10(n - 1)
  }

  /** The number `mantissa / 10^scale`, as written in a JSON document. */
  datatype Decimal = Decimal(mantissa: int, scale: nat)

  function Value(d: Decimal): real {
    d.mantissa as real / Pow10(d.scale) as real
  }

  /** A JavaScript number: `NaN`, or a finite value. */
  datatype Number = NaN | Fin(r: real)

  /** `Math.round(x)`: the nearest integer, halves rounded up. */
  function Round(x: real): (r: int)
    ensures r as real - 0.5 <= x < r as real + 0.5
  {
    (x + 0.5).Floor
  }

  predicate IsDigit(c: char) {
    '0' <= c <= '9'
  }

  predicate AllDigits(s: string) {
    forall i :: 0 <= i < |s| ==> IsDigit(s[i])
  }

  lemma AllDigitsAppend(a: string, b: string)
    requires AllDigits(a) && AllDigits(b)
    ensures AllDigits(a + b)
  {
    assert forall i :: 0 <= i < |a + b| ==> (a + b)[i] == if i < |a| then a[i] else b[i - |a|];
  }

  function DigitChar(d: nat): char
    requires d < 10
  {
    ('0' as int + d) as char
  }

  /**
   * The decimal digits of `n`, most significant first, padded on the left with
   * zeros to at least `width` digits.
   */
  function Digits(n: nat, width: nat): (s: string)
    ensures |s| > 0 && |s| >= width && AllDigits(s)
    decreases n, width
  {
    if n < 10 && width <= 1 then [DigitChar(n)]
    else Digits(n / 10, if width > 0 then width - 1 else 0) + [DigitChar(n % 10)]
  }

  /** The decimal digits of `n` without leading zeros. */
  function NatToString(n: nat): string {
    Digits(n, 1)
  }

  /** `String(i)` for an integer. */
  function IntToString(i: int): string {
    if i < 0 then "-" + NatToString(-i) else NatToString(i)
  }

  /** The value of a string of decimal digits. */
  function DigitsValue(s: string): nat
    requires AllDigits(s)
  {
    if |s| == 0 then 0
    else
      assert IsDigit(s[|s| - 1]);
      10 * DigitsValue(s[..|s| - 1]) + (s[|s| - 1] as int - '0' as int)
  }

  /** The length of the run of digits that `s` starts with. */
  function DigitRun(s: string): (n: nat)
    ensures n <= |s|
    ensures AllDigits(s[..n])
    ensures n < |s| ==> !IsDigit(s[n])
  {
    if |s| > 0 && IsDigit(s[0]) then 1 + DigitRun(s[1..]) else 0
  }

  /** The number of digits after a leading decimal point of `rest`; 0 without one. */
  function FractionRun(rest: string): (f: nat)
    ensures f > 0 ==> 1 + f <= |rest| && rest[0] == '.' && AllDigits(rest[1..1 + f])
  {
    if |rest| > 0 && rest[0] == '.' then
      var f := DigitRun(rest[1..]);
      assert rest[1..][..f] == rest[1..1 + f];
      f
    else 0
  }

  /**
   * The longest prefix `digits [ . digits ]` of `s`, as the decimal it spells,
   * if it has a digit.
   */
  function UnsignedPrefix(s: string): Option<Decimal> {
    var n := DigitRun(s);
    var f := FractionRun(s[n..]);
    if n == 0 && f == 0 then None
    else if f == 0 then Some(Decimal(DigitsValue(s[..n]), 0))
    else
      var digits := s[..n] + s[n..][1..1 + f];
      assert AllDigits(digits) by { AllDigitsAppend(s[..n], s[n..][1..1 + f]); }
      Some(Decimal(DigitsValue(digits), f))
  }

  /**
   * `parseFloat(s)`: leading white space is skipped, then an optional sign and
   * the longest decimal numeral; `NaN` when there is no digit to read.
   */
  function ParseFloat(s: string): (r: Number)
    ensures r.Fin? ==> exists i :: 0 <= i < |s| && IsDigit(s[i])
  {
    var t := TrimStart(s);
    var signed := |t| > 0 && (t[0] == '-' || t[0] == '+');
    var body := if signed then t[1..] else t;
    match UnsignedPrefix(body)
    case None => NaN
    case Some(d) =>
      assert body == s[|s| - |body|..];
      UnsignedPrefixHasDigit(s, |s| - |body|);
      Fin(if signed && t[0] == '-' then -Value(d) else Value(d))
  }

  /** A numeral read from a suffix of `s` has a digit in that suffix. */
  lemma UnsignedPrefixHasDigit(s: string, k: nat)
    requires k <= |s| && UnsignedPrefix(s[k..]).Some?
    ensures exists i :: k <= i < |s| && IsDigit(s[i])
  {
    var body := s[k..];
    var n := DigitRun(body);
    if n > 0 {
      assert IsDigit(s[k]);
    } else {
      var f := FractionRun(body[n..]);
      assert body[n..][1..1 + f][0] == s[k + 1];
      assert IsDigit(s[k + 1]);
    }
  }

  /** There is nothing to read in the empty string. */
  lemma ParseFloatEmpty()
    ensures ParseFloat("") == NaN
  {
    assert TrimStart("") == "";
    assert DigitRun("") == 0;
    assert FractionRun("") == 0;
  }

  /** A string whose first character cannot start a numeral reads as `NaN`. */
  lemma ParseFloatLeadingJunk(s: string)
    requires |s| > 0 && !IsSpace(s[0]) && !IsDigit(s[0]) && s[0] != '-' && s[0] != '+' && s[0] != '.'
    ensures ParseFloat(s) == NaN
  {
    assert TrimStart(s) == s;
    assert DigitRun(s) == 0;
    assert s[0..] == s;
    assert FractionRun(s) == 0;
  }

  /** Strips the trailing zeros of the fraction: `1.50` and `1.5` are the same number. */
  function Normalize(d: Decimal): (n: Decimal)
    ensures Value(n) == Value(d)
    ensures n.scale > 0 ==> n.mantissa % 10 != 0
    decreases d.scale
  {
    if d.scale > 0 && d.mantissa % 10 == 0 then
      var next := Decimal(d.mantissa / 10, d.scale - 1);
      assert Value(next) == Value(d) by {
        assert d.mantissa == 10 * next.mantissa;
        assert Pow10(d.scale) == 10 * Pow10(next.scale);
      }
      Normalize(next)
    else d
  }

  lemma {:induction false} NormalizeZero(scale: nat)
    ensures Normalize(Decimal(0, scale)) == Decimal(0, 0)
    decreases scale
  {
    if scale > 0 {
      NormalizeZero(scale - 1);
    }
  }

  /** `a / 10^scale` written with exactly `scale` digits after the point. */
  function FixedPoint(a: nat, scale: nat): string {
    var digits := Digits(a, scale + 1);
    digits[..|digits| - scale] + "." + digits[|digits| - scale..]
  }

  /** `String(x)` for a JSON number, in plain (not exponential) notation. */
  function DecimalToString(d: Decimal): string {
    var n := Normalize(d);
    if n.scale == 0 then IntToString(n.mantissa)
    else if n.mantissa < 0 then "-" + FixedPoint(-n.mantissa, n.scale)
    else FixedPoint(n.mantissa, n.scale)
  }

  /** Every spelling of zero prints as `0`. */
  lemma DecimalToStringZero(d: Decimal)
    requires d.mantissa == 0
    ensures DecimalToString(d) == "0"
  {
    NormalizeZero(d.scale);
    assert Digits(0, 1) == ['0'];
  }

  // ---- parseFloat reads back what String writes ----

  lemma {:induction false} DigitsValueOfDigits(n: nat, width: nat)
    ensures DigitsValue(Digits(n, width)) == n
    decreases n, width
  {
    if !(n < 10 && width <= 1) {
      var s := Digits(n, width);
      var w := if width > 0 then width - 1 else 0;
      assert s[..|s| - 1] == Digits(n / 10, w);
      DigitsValueOfDigits(n / 10, w);
    }
  }

  lemma {:induction false} DigitRunOfDigits(a: string, b: string)
    requires AllDigits(a)
    requires |b| == 0 || !IsDigit(b[0])
    ensures DigitRun(a + b) == |a|
    decreases |a|
  {
    if |a| > 0 {
      assert (a + b)[1..] == a[1..] + b;
      DigitRunOfDigits(a[1..], b);
    }
  }

  lemma UnsignedPrefixOfNat(n: nat)
    ensures UnsignedPrefix(NatToString(n)) == Some(Decimal(n, 0))
  {
    var s := NatToString(n);
    DigitRunOfDigits(s, "");
    assert s + "" == s;
    assert s[..|s|] == s;
    DigitsValueOfDigits(n, 1);
  }

  /** The decimal read from `w.f` for two runs of digits `w` and `f`. */
  lemma UnsignedPrefixOfPoint(w: string, f: string)
    requires |w| > 0 && AllDigits(w)
    requires |f| > 0 && AllDigits(f)
    ensures UnsignedPrefix(w + "." + f) == Some(Decimal(DigitsValue(w + f), |f|))
  {
    var s := w + "." + f;
    var rest := "." + f;
    assert s == w + rest;
    DigitRunOfDigits(w, rest);
    assert s[..|w|] == w;
    assert s[|w|..] == rest;
    assert rest[1..] == f;
    DigitRunOfDigits(f, "");
    assert f + "" == f;
    assert rest[1..1 + |f|] == f;
  }

  lemma UnsignedPrefixOfFixedPoint(a: nat, scale: nat)
    requires scale >= 1
    ensures UnsignedPrefix(FixedPoint(a, scale)) == Some(Decimal(a, scale))
    ensures |FixedPoint(a, scale)| > 0 && IsDigit(FixedPoint(a, scale)[0])
  {
    var digits := Digits(a, scale + 1);
    DigitsValueOfDigits(a, scale + 1);
    var w, f := digits[..|digits| - scale], digits[|digits| - scale..];
    assert w + f == digits;
    UnsignedPrefixOfPoint(w, f);
  }

  lemma ParseFloatOfDigits(s: string, d: Decimal)
    requires |s| > 0 && IsDigit(s[0]) && UnsignedPrefix(s) == Some(d)
    ensures ParseFloat(s) == Fin(Value(d))
  {
    assert TrimStart(s) == s;
  }

  lemma ParseFloatOfNegatedDigits(s: string, d: Decimal)
    requires |s| > 0 && IsDigit(s[0]) && UnsignedPrefix(s) == Some(d)
    ensures ParseFloat("-" + s) == Fin(-Value(d))
  {
    var t := "-" + s;
    assert TrimStart(t) == t;
    assert t[1..] == s;
  }

  lemma NegatedValue(a: nat, scale: nat)
    ensures -Value(Decimal(a, scale)) == Value(Decimal(-(a as int), scale))
  {
  }

  lemma NormalizedNumeral(n: Decimal, a: nat) returns (numeral: string, magnitude: Decimal)
    requires a as int == n.mantissa || a as int == -n.mantissa
    ensures numeral == if n.scale == 0 then NatToString(a) else FixedPoint(a, n.scale)
    ensures |numeral| > 0 && IsDigit(numeral[0])
    ensures UnsignedPrefix(numeral) == Some(magnitude)
    ensures Value(magnitude) == if a as int == n.mantissa then Value(n) else -Value(n)
  {
    if n.scale == 0 {
      numeral, magnitude := NatToString(a), Decimal(a, 0);
      UnsignedPrefixOfNat(a);
      assert Pow10(0) == 1;
    } else {
      numeral, magnitude := FixedPoint(a, n.scale), Decimal(a, n.scale);
      UnsignedPrefixOfFixedPoint(a, n.scale);
      NegatedValue(a, n.scale);
    }
  }

  /** `String(x)` is an optional minus sign and a numeral that spells `|x|`. */
  lemma DecimalToStringShape(d: Decimal) returns (negative: bool, numeral: string, magnitude: Decimal)
    ensures DecimalToString(d) == if negative then "-" + numeral else numeral
    ensures |numeral| > 0 && IsDigit(numeral[0])
    ensures UnsignedPrefix(numeral) == Some(magnitude)
    ensures Value(d) == if negative then -Value(magnitude) else Value(magnitude)
  {
    var n := Normalize(d);
    negative := n.mantissa < 0;
    var a: nat := if negative then -n.mantissa else n.mantissa;
    numeral, magnitude := NormalizedNumeral(n, a);
  }

  /** `parseFloat(String(x)) == x` for every number a JSON document can hold. */
  lemma ParseFloatDecimalToString(d: Decimal)
    ensures ParseFloat(DecimalToString(d)) == Fin(Value(d))
  {
    var negative, numeral, magnitude := DecimalToStringShape(d);
    if negative {
      ParseFloatOfNegatedDigits(numeral, magnitude);
    } else {
      ParseFloatOfDigits(numeral, magnitude);
    }
  }
}
