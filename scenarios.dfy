/**
 * Worked cases of the fetch: an upstream failure, and the coercion of the
 * price, change and percentage fields of a typical upstream record.
 */
module Scenarios {
  import opened Wrappers
  import opened Js
  import opened Schema
  import opened Normalizer
  import opened Fetcher

  /** A 503 "rate limited" response fails with its status and its whole
      (short) body, whatever the body decodes to. */
  lemma RateLimited(json: Result<Value, string>, limit: nat)
    ensures Digest(UpstreamResponse(503, "rate limited", json), limit) == Err(UpstreamFailed(503, "rate limited"))
  {
    var text := "rate limited";
    assert Truncate(text, UpstreamBodyLimit) == text[..|text|] == text;
  }

  /** A record that carries its price as a JSON number rather than a
      string: `parseNumeric` calls `replace` on it, which throws, and the
      whole fetch fails. */
  lemma NumericPriceFailsFetch(text: string, limit: nat)
    requires limit >= 1
    ensures var record := Obj(map["price" := Num(12.5)]);
      var body := Obj(map["top_gainers" := Arr([record])]);
      Digest(UpstreamResponse(200, text, Ok(body)), limit) == Err(ReplaceNotAFunction)
  {
    var record := Obj(map["price" := Num(12.5)]);
    var body := Obj(map["top_gainers" := Arr([record])]);
    assert ParseNumeric(Get(record, "price")) == Err(ReplaceNotAFunction);
    assert NormalizeEntry(record) == Err(ReplaceNotAFunction);
    assert ListField(body, "top_gainers") == [record];
    assert NormalizeList([record], limit) == Err(ReplaceNotAFunction);
  }

  /** parseNumeric of `s`, once its cleaned form and that form's parse are known. */
  lemma ParseNumericOfParts(s: string, cleaned: string, x: real)
    requires Clean(s) == cleaned && ParseFloat(cleaned) == Finite(x)
    ensures ParseNumeric(Str(s)) == Ok(x)
  {
  }

  lemma PriceMantissa()
    ensures Mantissa("12", "50") == 12.5
  {
    assert DigitsValue("12") == 12;
    assert DigitsValue("50") == 50;
    assert Pow10(2) == 100;
  }

  lemma PriceParse()
    ensures ParseFloat("12.50") == Finite(12.5)
  {
    DecimalPrefixOfFixedPoint("12", "50");
    assert "12" + "." + "50" == "12.50";
    PriceMantissa();
    ParseFloatOfDecimal("12.50", false, "12.50", 12.5);
  }

  /** A literal without integer digits: parseFloat reads `.5` as 0.5. */
  lemma LeadingPointParse()
    ensures ParseFloat(".5") == Finite(0.5)
  {
    DecimalPrefixOfFixedPoint("", "5");
    assert "" + "." + "5" == ".5";
    assert DigitsValue("5") == 5;
    assert Mantissa("", "5") == 0.5;
    ParseFloatOfDecimal(".5", false, ".5", 0.5);
  }

  /** `"$12.50"` coerces to 12.5. */
  lemma PriceExample()
    ensures ParseNumeric(Str("$12.50")) == Ok(12.5)
  {
    assert Clean("$12.50") == "12.50";
    PriceParse();
    ParseNumericOfParts("$12.50", "12.50", 12.5);
  }

  lemma ChangeMantissa()
    ensures Mantissa("1", "10") == 1.1
  {
    assert DigitsValue("1") == 1;
    assert DigitsValue("10") == 10;
    assert Pow10(2) == 100;
  }

  lemma ChangeParse()
    ensures ParseFloat("+1.10") == Finite(1.1)
  {
    DecimalPrefixOfFixedPoint("1", "10");
    assert "1" + "." + "10" == "1.10";
    ChangeMantissa();
    assert "+1.10" == "+" + "1.10";
    ParseFloatOfDecimal("+1.10", true, "1.10", 1.1);
  }

  /** `"+1.10"` coerces to 1.1: a leading `+` is accepted. */
  lemma ChangeExample()
    ensures ParseNumeric(Str("+1.10")) == Ok(1.1)
  {
    assert Clean("+1.10") == "+1.10";
    ChangeParse();
    ParseNumericOfParts("+1.10", "+1.10", 1.1);
  }

  lemma PercentMantissa()
    ensures Mantissa("9", "65") == 9.65
  {
    assert DigitsValue("9") == 9;
    assert DigitsValue("65") == 65;
    assert Pow10(2) == 100;
  }

  lemma PercentParse()
    ensures ParseFloat("9.65") == Finite(9.65)
  {
    DecimalPrefixOfFixedPoint("9", "65");
    assert "9" + "." + "65" == "9.65";
    PercentMantissa();
    ParseFloatOfDecimal("9.65", false, "9.65", 9.65);
  }

  /** `"9.65%"` coerces to 9.65. */
  lemma PercentExample()
    ensures ParseNumeric(Str("9.65%")) == Ok(9.65)
  {
    assert Clean("9.65%") == "9.65";
    PercentParse();
    ParseNumericOfParts("9.65%", "9.65", 9.65);
  }
}
