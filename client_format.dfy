/**
 * The sign and trend rules of the client's formatters (public/app.js,
 * `formatSignedCurrency`, `formatPercent`, `pickTrendClass`). The digits
 * of `toFixed(2)` are a parameter: `toFixed` renders a non-negative real.
 */
module ClientFormat {
  import opened Js

  const Dash: string := "\U{2014}"

  function Abs(x: real): (r: real)
    ensures r >= 0.0 && (r == x || r == -x)
  {
    if x < 0.0 then -x else x
  }

  /** `value > 0 ? '+' : value < 0 ? '-' : ''` */
  function SignPrefix(x: real): (r: string)
    ensures |r| <= 1
    ensures r == "+" <==> x > 0.0
    ensures r == "-" <==> x < 0.0
    ensures r == "" <==> x == 0.0
  {
    if x > 0.0 then "+" else if x < 0.0 then "-" else ""
  }

  /** `pickTrendClass(value)`: nothing for a value that is not a finite
      number or is zero, otherwise the direction of its sign. */
  function PickTrendClass(v: Value): (r: string)
    ensures r == "positive" <==> v.Num? && v.n > 0.0
    ensures r == "negative" <==> v.Num? && v.n < 0.0
    ensures r == "" <==> !v.Num? || v.n == 0.0
  {
    if !v.Num? || v.n == 0.0 then "" else if v.n > 0.0 then "positive" else "negative"
  }

  /** `formatPercent(value)`: a dash for anything but a number; otherwise
      the sign, then the digits of the magnitude, ending in `%`. */
  function FormatPercent(v: Value, toFixed: real -> string): (r: string)
    ensures !v.Num? ==> r == Dash
    ensures v.Num? ==> |r| == |SignPrefix(v.n)| + |toFixed(Abs(v.n))| + 1 && r[|r| - 1] == '%'
    ensures v.Num? ==> r[..|SignPrefix(v.n)|] == SignPrefix(v.n) && r[|SignPrefix(v.n)|..|r| - 1] == toFixed(Abs(v.n))
  {
    if !v.Num? then Dash else SignPrefix(v.n) + toFixed(Abs(v.n)) + "%"
  }

  /** `formatSignedCurrency(value)`: a dash for anything but a number;
      otherwise the sign, then `$` and the digits of the magnitude. */
  function FormatSignedCurrency(v: Value, toFixed: real -> string): (r: string)
    ensures !v.Num? ==> r == Dash
    ensures v.Num? ==> |r| == |SignPrefix(v.n)| + 1 + |toFixed(Abs(v.n))| && r[|SignPrefix(v.n)|] == '$'
    ensures v.Num? ==> r[..|SignPrefix(v.n)|] == SignPrefix(v.n) && r[|SignPrefix(v.n)| + 1..] == toFixed(Abs(v.n))
  {
    if !v.Num? then Dash else SignPrefix(v.n) + "$" + toFixed(Abs(v.n))
  }

  /** `toFixed` behaves like `Number.prototype.toFixed` on a non-negative
      number as far as the first character goes: it is a digit. */
  ghost predicate DigitFirst(toFixed: real -> string) {
    forall x :: x >= 0.0 ==> |toFixed(x)| > 0 && IsDigit(toFixed(x)[0])
  }

  /** A formatted percentage starts with `+` exactly when the value's trend
      class is `positive`, with `-` exactly when it is `negative`, and with
      neither for zero and for a placeholder. */
  lemma PercentSignMatchesTrend(v: Value, toFixed: real -> string)
    requires DigitFirst(toFixed)
    ensures FormatPercent(v, toFixed)[0] == '+' <==> PickTrendClass(v) == "positive"
    ensures FormatPercent(v, toFixed)[0] == '-' <==> PickTrendClass(v) == "negative"
  {
    if v.Num? {
      var digits := toFixed(Abs(v.n));
      assert |digits| > 0 && IsDigit(digits[0]);
      if v.n == 0.0 {
        assert FormatPercent(v, toFixed) == digits + "%";
      } else {
        assert FormatPercent(v, toFixed)[0] == SignPrefix(v.n)[0];
      }
    }
  }

  /** The same for a signed currency amount. */
  lemma CurrencySignMatchesTrend(v: Value, toFixed: real -> string)
    requires DigitFirst(toFixed)
    ensures FormatSignedCurrency(v, toFixed)[0] == '+' <==> PickTrendClass(v) == "positive"
    ensures FormatSignedCurrency(v, toFixed)[0] == '-' <==> PickTrendClass(v) == "negative"
    ensures FormatSignedCurrency(v, toFixed)[0] == '$' <==> v.Num? && v.n == 0.0
  {
    if v.Num? {
      if v.n == 0.0 {
        assert FormatSignedCurrency(v, toFixed) == "$" + toFixed(0.0);
      } else {
        assert FormatSignedCurrency(v, toFixed)[0] == SignPrefix(v.n)[0];
      }
    }
  }

  /** Opposite values are rendered with the same digits, and only the sign differs. */
  lemma PercentOfNegation(x: real, toFixed: real -> string)
    requires x > 0.0
    ensures FormatPercent(Num(x), toFixed) == "+" + toFixed(x) + "%"
    ensures FormatPercent(Num(-x), toFixed) == "-" + toFixed(x) + "%"
  {
  }

  lemma CurrencyOfNegation(x: real, toFixed: real -> string)
    requires x > 0.0
    ensures FormatSignedCurrency(Num(x), toFixed) == "+$" + toFixed(x)
    ensures FormatSignedCurrency(Num(-x), toFixed) == "-$" + toFixed(x)
  {
  }
}
