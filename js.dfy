/**
 * The part of JavaScript's runtime the two programs lean on: JSON-shaped
 * values with truthiness and property reads, IEEE double results with their
 * non-finite cases, `Number.parseInt(s, 10)`, `Number.parseFloat(s)` and the
 * decimal rendering of an integer in a template literal.
 */
module Js {
  import opened Wrappers

  /** A JavaScript value as it arrives from JSON, plus `undefined`. JSON
      numbers are finite, so `Num` carries a real. */
  datatype Value =
    | Undefined
    | Null
    | Bool(b: bool)
    | Num(n: real)
    | Str(s: string)
    | Arr(items: seq<Value>)
    | Obj(fields: map<string, Value>)

  /** `!!v` */
  predicate Truthy(v: Value) {
    match v
    case Undefined => false
    case Null => false
    case Bool(b) => b
    case Num(n) => n != 0.0
    case Str(s) => s != ""
    case Arr(_) => true
    case Obj(_) => true
  }

  /** The values that `??` and `?.` replace. */
  predicate Nullish(v: Value) {
    v.Undefined? || v.Null?
  }

  /** `v[key]` on a value that is not null or undefined (and `v?.[key]` on
      any value): own fields of an object, `undefined` for everything else. */
  function Get(v: Value, key: string): Value {
    if v.Obj? && key in v.fields then v.fields[key] else Undefined
  }

  /** The result of a numeric conversion: a double, or one of its non-finite values. */
  datatype Number = Finite(value: real) | NaN | PositiveInfinity | NegativeInfinity

  predicate IsIntegral(x: real) {
    x.Floor as real == x
  }

  /** 2^1024 - 2^970: the least magnitude that rounds to an infinity under
      round-to-nearest-even (the largest double is 2^1024 - 2^971). */
  const OverflowBound: int := 179769313486231580793728971405303415079934132710037826936173778980444968292764750946649017977587207096330286416692887910946555547851940402630657488671505820681908902000708383676273854845817711531764475730270069855571366959622842914819860834936475292719074168444365510704342711559699508093042880177904174497792

  /** The double nearest to `x`, up to the rounding of finite values. */
  function ToNumber(x: real): (r: Number)
    ensures r.Finite? <==> -(OverflowBound as real) < x < OverflowBound as real
    ensures r.Finite? ==> r.value == x
    ensures r.PositiveInfinity? <==> x >= OverflowBound as real
    ensures !r.NaN?
  {
    if x >= OverflowBound as real then PositiveInfinity
    else if x <= -(OverflowBound as real) then NegativeInfinity
    else Finite(x)
  }

  /** ECMAScript's StrWhiteSpaceChar: WhiteSpace and LineTerminator code points. */
  predicate IsWhiteSpace(c: char) {
    c == '\t' || c == '\n' || c == '\U{000B}' || c == '\U{000C}' || c == '\r' || c == ' ' ||
    c == '\U{00A0}' || c == '\U{1680}' || ('\U{2000}' <= c <= '\U{200A}') ||
    c == '\U{2028}' || c == '\U{2029}' || c == '\U{202F}' || c == '\U{205F}' || c == '\U{3000}' ||
    c == '\U{FEFF}'
  }

  /** `String.prototype.trimStart` as parseInt and parseFloat apply it. */
  function TrimStart(s: string): (r: string)
    ensures |r| <= |s| && r == s[|s| - |r|..]
  {
    if |s| > 0 && IsWhiteSpace(s[0]) then TrimStart(s[1..]) else s
  }

  /** What TrimStart removes is white space. */
  lemma {:induction false} TrimStartRemovesWhiteSpace(s: string)
    ensures forall i :: 0 <= i < |s| - |TrimStart(s)| ==> IsWhiteSpace(s[i])
  {
    if |s| > 0 && IsWhiteSpace(s[0]) {
      var t := s[1..];
      TrimStartRemovesWhiteSpace(t);
      assert TrimStart(s) == TrimStart(t);
      forall i | 0 < i < |s| - |TrimStart(s)|
        ensures IsWhiteSpace(s[i])
      {
        assert s[i] == t[i - 1];
      }
    }
  }

  /** What TrimStart keeps does not start with white space. */
  lemma {:induction false} TrimStartKeepsNonSpace(s: string)
    ensures TrimStart(s) == [] || !IsWhiteSpace(TrimStart(s)[0])
  {
    if |s| > 0 && IsWhiteSpace(s[0]) {
      TrimStartKeepsNonSpace(s[1..]);
    }
  }

  predicate IsDigit(c: char) {
    '0' <= c <= '9'
  }

  predicate AllDigits(s: string) {
    forall i :: 0 <= i < |s| ==> IsDigit(s[i])
  }

  predicate HasDigit(s: string) {
    exists i :: 0 <= i < |s| && IsDigit(s[i])
  }

  function DigitValue(c: char): (d: nat)
    requires IsDigit(c)
    ensures d < 10
  {
    c as int - '0' as int
  }

  function DigitChar(d: nat): (c: char)
    requires d < 10
    ensures IsDigit(c) && DigitValue(c) == d
  {
    ('0' as int + d) as char
  }

  /** The longest prefix of `s` made of decimal digits. */
  function LeadingDigits(s: string): (r: string)
    ensures |r| <= |s| && r == s[..|r|]
    ensures AllDigits(r)
    ensures |r| < |s| ==> !IsDigit(s[|r|])
  {
    if |s| > 0 && IsDigit(s[0]) then [s[0]] + LeadingDigits(s[1..]) else ""
  }

  /** The value of a string of decimal digits, most significant first. */
  function DigitsValue(d: string): nat
    requires AllDigits(d)
  {
    if |d| == 0 then 0 else DigitsValue(d[..|d| - 1]) * 10 + DigitValue(d[|d| - 1])
  }

  function Pow10(n: nat): (p: nat)
    ensures p >= 1
  {
    if n == 0 then 1 else 10 * Pow10(n - 1)
  }

  /** An optional leading `+` or `-`: whether it was `-`, and what follows it. */
  function SplitSign(s: string): (r: (bool, string))
    ensures |r.1| <= |s| && r.1 == s[|s| - |r.1|..]
    ensures r.0 ==> |s| > 0 && s[0] == '-'
    ensures |s| - |r.1| <= 1
  {
    if |s| > 0 && (s[0] == '+' || s[0] == '-') then (s[0] == '-', s[1..]) else (false, s)
  }

  function Min(a: int, b: int): int {
    if a <= b then a else b
  }

  /** `s.substring(0, n)` and `s.slice(0, n)`: the first `n` characters, or all of a shorter string. */
  function Truncate(s: string, n: nat): (r: string)
    ensures |r| == Min(|s|, n)
    ensures r == s[..|r|]
  {
    s[..Min(|s|, n)]
  }

  /** `Number.parseInt(s, 10)`: skip leading white space, take an optional
      sign and the longest run of decimal digits; NaN when there is none. */
  function ParseInt(s: string): (r: Number)
    ensures r.Finite? ==> IsIntegral(r.value)
  {
    var (negative, body) := SplitSign(TrimStart(s));
    var digits := LeadingDigits(body);
    if |digits| == 0 then NaN
    else
      var v: int := if negative then -(DigitsValue(digits) as int) else DigitsValue(digits);
      assert (v as real).Floor == v;
      ToNumber(v as real)
  }

  /** `m * 10^e` over the reals. */
  function Scale(m: real, e: int): (r: real)
    ensures m >= 0.0 ==> r >= 0.0
  {
    if e >= 0 then m * Pow10(e) as real else m / Pow10(-e) as real
  }

  /** The exponent of a leading ExponentPart (`e` or `E`, optional sign,
      digits) of `tail`, and 0 when `tail` does not start with one. */
  function Exponent(tail: string): int {
    if |tail| >= 2 && (tail[0] == 'e' || tail[0] == 'E') then
      var (negative, rest) := SplitSign(tail[1..]);
      var digits := LeadingDigits(rest);
      if |digits| == 0 then 0
      else if negative then -(DigitsValue(digits) as int) else DigitsValue(digits)
    else 0
  }

  /** After the integer digits of a decimal literal: the digits of a fraction
      introduced by `.`, and what follows them. */
  function Fraction(afterWhole: string): (r: (string, string))
    ensures AllDigits(r.0)
    ensures |r.0| > 0 ==> |afterWhole| > 1 && afterWhole[0] == '.' && IsDigit(afterWhole[1])
  {
    if |afterWhole| > 0 && afterWhole[0] == '.' then
      var digits := LeadingDigits(afterWhole[1..]);
      (digits, afterWhole[1 + |digits|..])
    else ("", afterWhole)
  }

  /** What an unsigned decimal literal starts with: a digit or the `.` of a fraction. */
  predicate StartsDecimal(s: string) {
    |s| > 0 && (IsDigit(s[0]) || s[0] == '.')
  }

  /** The value of `whole.fraction`. */
  function Mantissa(whole: string, fraction: string): (r: real)
    requires AllDigits(whole) && AllDigits(fraction)
    ensures r >= 0.0
  {
    var f := DigitsValue(fraction) as real / Pow10(|fraction|) as real;
    assert f >= 0.0;
    DigitsValue(whole) as real + f
  }

  /** The value of the longest prefix of `s` that is an unsigned decimal
      literal (`12`, `12.`, `12.5`, `.5`, each with an optional exponent),
      or None when `s` has no such prefix. */
  function DecimalPrefix(s: string): (r: Option<real>)
    ensures r.Some? ==> StartsDecimal(s)
    ensures r.Some? ==> r.value >= 0.0
  {
    var whole := LeadingDigits(s);
    var (fraction, tail) := Fraction(s[|whole|..]);
    if |whole| == 0 && |fraction| == 0 then None
    else
      assert |whole| == 0 ==> s[|whole|..] == s;
      Some(Scale(Mantissa(whole, fraction), Exponent(tail)))
  }

  /** `Number.parseFloat(s)`: skip leading white space, take an optional
      sign, then `Infinity` or the longest decimal literal; NaN when there
      is neither. */
  function ParseFloat(s: string): (r: Number)
    ensures r.Finite? ==> -(OverflowBound as real) < r.value < OverflowBound as real
  {
    var (negative, body) := SplitSign(TrimStart(s));
    if |body| >= 8 && body[..8] == "Infinity" then
      (if negative then NegativeInfinity else PositiveInfinity)
    else
      match DecimalPrefix(body)
      case None => NaN
      case Some(x) => ToNumber(if negative then -x else x)
  }

  /** The decimal digits of `n`, as `${n}` writes them. */
  function NatToString(n: nat): (s: string)
    ensures |s| > 0 && AllDigits(s)
  {
    if n < 10 then [DigitChar(n)] else NatToString(n / 10) + [DigitChar(n % 10)]
  }

  /** `${n}` for an integer of fewer than 22 digits. */
  function IntToString(n: int): (s: string)
    ensures |s| > 0
    ensures n >= 0 ==> AllDigits(s)
    ensures n < 0 ==> s[0] == '-' && AllDigits(s[1..])
  {
    if n < 0 then "-" + NatToString(-n) else NatToString(n)
  }

  lemma {:induction false} NatToStringValue(n: nat)
    ensures DigitsValue(NatToString(n)) == n
  {
    var s := NatToString(n);
    if n >= 10 {
      NatToStringValue(n / 10);
      assert s[..|s| - 1] == NatToString(n / 10);
    }
  }

  lemma {:induction false} LeadingDigitsOfDigits(s: string)
    requires AllDigits(s)
    ensures LeadingDigits(s) == s
  {
    if |s| > 0 {
      LeadingDigitsOfDigits(s[1..]);
    }
  }

  lemma TrimStartOfNonSpace(s: string)
    requires |s| > 0 && !IsWhiteSpace(s[0])
    ensures TrimStart(s) == s
  {
  }

  /** parseInt of an optional `-` and a run of digits reads back their signed value. */
  lemma ParseIntOfDigits(s: string, negative: bool, digits: string)
    requires |digits| > 0 && AllDigits(digits) && DigitsValue(digits) < OverflowBound
    requires s == (if negative then "-" else "") + digits
    ensures ParseInt(s) == Finite(if negative then -(DigitsValue(digits) as real) else DigitsValue(digits) as real)
  {
    if negative {
      ParseIntOfNegatedDigits(digits);
    } else {
      assert s == digits;
      ParseIntOfUnsignedDigits(digits);
    }
  }

  lemma ParseIntOfUnsignedDigits(digits: string)
    requires |digits| > 0 && AllDigits(digits) && DigitsValue(digits) < OverflowBound
    ensures ParseInt(digits) == Finite(DigitsValue(digits) as real)
  {
    assert IsDigit(digits[0]);
    assert !IsWhiteSpace(digits[0]);
    TrimStartOfNonSpace(digits);
    assert SplitSign(digits) == (false, digits);
    LeadingDigitsOfDigits(digits);
    ParseIntOfSplit(digits, false, digits);
  }

  lemma ParseIntOfNegatedDigits(digits: string)
    requires |digits| > 0 && AllDigits(digits) && DigitsValue(digits) < OverflowBound
    ensures ParseInt("-" + digits) == Finite(-(DigitsValue(digits) as real))
  {
    var s := "-" + digits;
    assert s[0] == '-' && s[1..] == digits;
    assert !IsWhiteSpace(s[0]);
    TrimStartOfNonSpace(s);
    assert SplitSign(s) == (true, digits);
    LeadingDigitsOfDigits(digits);
    ParseIntOfSplit(s, true, digits);
  }

  /** parseInt once white space and sign are split off. */
  lemma ParseIntOfSplit(s: string, negative: bool, body: string)
    requires SplitSign(TrimStart(s)) == (negative, body)
    requires |LeadingDigits(body)| > 0
    ensures var n := DigitsValue(LeadingDigits(body));
      ParseInt(s) == ToNumber(if negative then -(n as real) else n as real)
  {
  }

  /** Reading back an integer written by `${n}` gives `n`. */
  lemma ParseIntOfIntToString(n: int)
    requires -OverflowBound < n < OverflowBound
    ensures ParseInt(IntToString(n)) == Finite(n as real)
  {
    var m: nat := if n < 0 then -n else n;
    NatToStringValue(m);
    ParseIntOfDigits(IntToString(n), n < 0, NatToString(m));
  }

  lemma MantissaOfWhole(whole: string)
    requires AllDigits(whole)
    ensures Mantissa(whole, "") == DigitsValue(whole) as real
  {
    assert DigitsValue("") == 0;
    assert Pow10(0) == 1;
  }

  lemma DecimalPrefixOfDigits(s: string)
    requires |s| > 0 && AllDigits(s) && LeadingDigits(s) == s
    ensures DecimalPrefix(s) == Some(DigitsValue(s) as real)
  {
    assert s[|LeadingDigits(s)|..] == "";
    assert Fraction("") == ("", "");
    assert Exponent("") == 0;
    assert DecimalPrefix(s) == Some(Scale(Mantissa(s, ""), 0));
    MantissaOfWhole(s);
    ScaleByZero(Mantissa(s, ""));
  }

  /** parseFloat of a run of digits reads back their value. */
  lemma ParseFloatOfDigits(digits: string)
    requires |digits| > 0 && AllDigits(digits) && DigitsValue(digits) < OverflowBound
    ensures ParseFloat(digits) == Finite(DigitsValue(digits) as real)
  {
    LeadingDigitsOfDigits(digits);
    DecimalPrefixOfDigits(digits);
    assert digits == "" + digits;
    ParseFloatOfDecimal(digits, false, digits, DigitsValue(digits) as real);
  }

  /** parseFloat of the digits of a natural number reads that number back. */
  lemma ParseFloatOfNatToString(n: nat)
    requires n < OverflowBound
    ensures ParseFloat(NatToString(n)) == Finite(n as real)
  {
    NatToStringValue(n);
    ParseFloatOfDigits(NatToString(n));
  }

  /** The digit run of `whole + rest` is `whole` when `rest` does not start with a digit. */
  lemma {:induction false} LeadingDigitsUpTo(whole: string, rest: string)
    requires AllDigits(whole)
    requires rest == [] || !IsDigit(rest[0])
    ensures LeadingDigits(whole + rest) == whole
  {
    if whole == [] {
      assert whole + rest == rest;
    } else {
      assert (whole + rest)[1..] == whole[1..] + rest;
      LeadingDigitsUpTo(whole[1..], rest);
    }
  }

  lemma FractionOfDigits(fraction: string)
    requires AllDigits(fraction)
    ensures Fraction("." + fraction) == (fraction, "")
  {
    var a := "." + fraction;
    assert a[0] == '.' && a[1..] == fraction;
    LeadingDigitsOfDigits(fraction);
    assert a[1 + |fraction|..] == [];
  }

  lemma ScaleByZero(m: real)
    ensures Scale(m, 0) == m
  {
    assert Pow10(0) == 1;
  }

  /** The decimal literal `whole.fraction` has the value of its digits. */
  lemma DecimalPrefixOfFixedPoint(whole: string, fraction: string)
    requires |whole| + |fraction| > 0 && AllDigits(whole) && AllDigits(fraction)
    ensures DecimalPrefix(whole + "." + fraction) == Some(Mantissa(whole, fraction))
  {
    var s := whole + "." + fraction;
    assert s == whole + ("." + fraction);
    LeadingDigitsUpTo(whole, "." + fraction);
    assert s[|whole|..] == "." + fraction;
    FractionOfDigits(fraction);
    assert Exponent("") == 0;
    ScaleByZero(Mantissa(whole, fraction));
  }

  lemma TrimStartOfUnsigned(s: string, plus: bool, body: string)
    requires StartsDecimal(body)
    requires s == (if plus then "+" else "") + body
    ensures TrimStart(s) == s
  {
    if plus {
      assert s[0] == '+';
    } else {
      assert s[0] == body[0];
    }
    assert !IsWhiteSpace(s[0]);
    TrimStartOfNonSpace(s);
  }

  lemma SplitSignOfUnsigned(s: string, plus: bool, body: string)
    requires StartsDecimal(body)
    requires s == (if plus then "+" else "") + body
    ensures SplitSign(s) == (false, body)
  {
    if plus {
      assert s[0] == '+' && s[1..] == body;
    }
  }

  lemma NotInfinity(body: string)
    requires StartsDecimal(body)
    ensures !(|body| >= 8 && body[..8] == "Infinity")
  {
    if |body| >= 8 {
      assert body[..8][0] == body[0];
    }
  }

  /** parseFloat of a decimal literal (`12`, `12.5`, `.5`, with an optional
      exponent), optionally after a `+`, is its value. */
  lemma ParseFloatOfDecimal(s: string, plus: bool, body: string, x: real)
    requires DecimalPrefix(body) == Some(x)
    requires 0.0 <= x < OverflowBound as real
    requires s == (if plus then "+" else "") + body
    ensures ParseFloat(s) == Finite(x)
  {
    TrimStartOfUnsigned(s, plus, body);
    SplitSignOfUnsigned(s, plus, body);
    NotInfinity(body);
  }

  /** parseFloat of a decimal literal after a `-` is its negation. */
  lemma ParseFloatOfNegatedDecimal(s: string, body: string, x: real)
    requires DecimalPrefix(body) == Some(x)
    requires 0.0 <= x < OverflowBound as real
    requires s == "-" + body
    ensures ParseFloat(s) == Finite(-x)
  {
    assert s[0] == '-' && s[1..] == body;
    assert !IsWhiteSpace(s[0]);
    TrimStartOfNonSpace(s);
    assert SplitSign(s) == (true, body);
    NotInfinity(body);
  }

  /** Without a digit there is no decimal literal. */
  lemma DecimalPrefixWithoutDigits(s: string)
    requires !HasDigit(s)
    ensures DecimalPrefix(s).None?
  {
    var whole := LeadingDigits(s);
    if |s| > 0 {
      assert !IsDigit(s[0]);
    }
    assert whole == "";
    if |s| > 1 {
      assert !IsDigit(s[1]);
    }
  }

  /** A finite parse comes from a decimal literal after the sign. */
  lemma ParseFloatFiniteDecimal(s: string)
    ensures ParseFloat(s).Finite? ==> DecimalPrefix(SplitSign(TrimStart(s)).1).Some?
  {
    var (negative, body) := SplitSign(TrimStart(s));
    if |body| >= 8 && body[..8] == "Infinity" {
      assert ParseFloat(s) == (if negative then NegativeInfinity else PositiveInfinity);
    } else if DecimalPrefix(body).None? {
      assert ParseFloat(s) == NaN;
    }
  }

  /** What follows the white space and the sign is a suffix of the text. */
  lemma BodyIsSuffix(s: string)
    ensures var body := SplitSign(TrimStart(s)).1;
      |body| <= |s| && body == s[|s| - |body|..]
  {
    var t := TrimStart(s);
    var body := SplitSign(t).1;
    assert t == s[|s| - |t|..];
    assert body == t[|t| - |body|..];
    assert s[|s| - |t|..][|t| - |body|..] == s[|s| - |body|..];
  }

  /** A suffix of a text without digits has none either. */
  lemma SuffixWithoutDigits(s: string, t: string)
    requires |t| <= |s| && t == s[|s| - |t|..] && !HasDigit(s)
    ensures !HasDigit(t)
  {
    forall i | 0 <= i < |t|
      ensures !IsDigit(t[i])
    {
      assert t[i] == s[|s| - |t| + i];
    }
  }

  /** Neither leading space nor a sign contributes a digit. */
  lemma BodyWithoutDigits(s: string)
    requires !HasDigit(s)
    ensures !HasDigit(SplitSign(TrimStart(s)).1)
  {
    var body := SplitSign(TrimStart(s)).1;
    BodyIsSuffix(s);
    assert |body| <= |s| && body == s[|s| - |body|..];
    SuffixWithoutDigits(s, body);
    assert !HasDigit(body);
  }

  /** parseFloat finds no finite number in a text without a digit. */
  lemma ParseFloatWithoutDigits(s: string)
    requires !HasDigit(s)
    ensures !ParseFloat(s).Finite?
  {
    BodyWithoutDigits(s);
    DecimalPrefixWithoutDigits(SplitSign(TrimStart(s)).1);
    ParseFloatFiniteDecimal(s);
  }
}
