/**
 * Numeric coercion and row normalisation (dist/server.js, `parseNumeric`
 * and `normalizeList`): loosely formatted upstream strings become numbers,
 * and upstream records become Instrument-shaped objects.
 */
module Normalizer {
  import opened Wrappers
  import opened Js
  import opened Schema

  /** The characters `/[%,$]/g` matches. */
  predicate IsStripped(c: char) {
    c == '%' || c == ',' || c == '$'
  }

  /** `value.replace(/[%,$]/g, '')` */
  function Clean(s: string): (r: string)
    ensures |r| <= |s|
    ensures forall i :: 0 <= i < |r| ==> !IsStripped(r[i])
  {
    if s == [] then []
    else (if IsStripped(s[0]) then [] else [s[0]]) + Clean(s[1..])
  }

  /** The value of a parse when it is finite, and 0 otherwise. */
  function FiniteOrZero(n: Number): real {
    if n.Finite? then n.value else 0.0
  }

  /** `parseNumeric`: a falsy field is 0; a string is cleaned and parsed, a
      parse that is not finite giving 0; a truthy value of another type has
      no `replace` method and throws. */
  function ParseNumeric(value: Value): (r: Result<real, ServerError>)
    ensures r.Err? <==> Truthy(value) && !value.Str?
    ensures r.Err? ==> r.error == ReplaceNotAFunction
    ensures !Truthy(value) ==> r == Ok(0.0)
    ensures value.Str? ==> r == Ok(FiniteOrZero(ParseFloat(Clean(value.s))))
  {
    if !Truthy(value) then Ok(0.0)
    else if value.Str? then Ok(FiniteOrZero(ParseFloat(Clean(value.s))))
    else Err(ReplaceNotAFunction)
  }

  /** `item ?? {}`: a record that is never null or undefined, the item
      itself when it is neither, and otherwise an object without fields. */
  function RecordOf(item: Value): (r: Value)
    ensures !Nullish(r)
    ensures !Nullish(item) ==> r == item
    ensures Nullish(item) ==> forall key :: Get(r, key) == Undefined
  {
    if Nullish(item) then Obj(map[]) else item
  }

  /** `item.ticker ?? 'N/A'`: never null or undefined; the record's ticker
      when it has one, and "N/A" otherwise. */
  function TickerOf(record: Value): (r: Value)
    ensures !Nullish(r)
    ensures !Nullish(Get(record, "ticker")) ==> r == Get(record, "ticker")
    ensures Nullish(Get(record, "ticker")) ==> r == Str("N/A")
  {
    var ticker := Get(record, "ticker");
    if Nullish(ticker) then Str("N/A") else ticker
  }

  /** The row for one upstream record, read field by field in the order the
      object literal lists them; the first field that throws ends it. */
  function NormalizeEntry(item: Value): (r: Result<Value, ServerError>)
    ensures r.Err? ==> r.error == ReplaceNotAFunction
    ensures r.Ok? <==>
      var record := RecordOf(item);
      ParseNumeric(Get(record, "price")).Ok? && ParseNumeric(Get(record, "change_amount")).Ok? &&
      ParseNumeric(Get(record, "change_percentage")).Ok? && ParseNumeric(Get(record, "volume")).Ok?
    ensures r.Ok? ==>
      var record := RecordOf(item);
      r.value == InstrumentObject(TickerOf(record),
        ParseNumeric(Get(record, "price")).value,
        ParseNumeric(Get(record, "change_amount")).value,
        ParseNumeric(Get(record, "change_percentage")).value,
        ParseNumeric(Get(record, "volume")).value)
  {
    var record := RecordOf(item);
    var price :- ParseNumeric(Get(record, "price"));
    var changeAmount :- ParseNumeric(Get(record, "change_amount"));
    var changePercentage :- ParseNumeric(Get(record, "change_percentage"));
    var volume :- ParseNumeric(Get(record, "volume"));
    Ok(InstrumentObject(TickerOf(record), price, changeAmount, changePercentage, volume))
  }

  /** `.map(...)` over the kept records: every row, or the first error. */
  function NormalizeRows(items: seq<Value>): (r: Result<seq<Value>, ServerError>)
    ensures r.Ok? <==> forall i :: 0 <= i < |items| ==> NormalizeEntry(items[i]).Ok?
    ensures r.Ok? ==> (|r.value| == |items| &&
      forall i :: 0 <= i < |items| ==> r.value[i] == NormalizeEntry(items[i]).value)
    ensures r.Err? ==> r.error == ReplaceNotAFunction
  {
    if items == [] then Ok([])
    else
      var first :- NormalizeEntry(items[0]);
      var rest :- NormalizeRows(items[1..]);
      assert forall i :: 1 <= i < |items| ==> items[i] == items[1..][i - 1];
      Ok([first] + rest)
  }

  /** `normalizeList(entries, limit)`: the first `limit` records, in
      upstream order, each normalised. */
  function NormalizeList(entries: seq<Value>, limit: nat): (r: Result<seq<Value>, ServerError>)
    ensures r.Ok? <==> forall i :: 0 <= i < Min(|entries|, limit) ==> NormalizeEntry(entries[i]).Ok?
    ensures r.Ok? ==> (|r.value| == Min(|entries|, limit) &&
      forall i :: 0 <= i < |r.value| ==> r.value[i] == NormalizeEntry(entries[i]).value)
    ensures r.Err? ==> r.error == ReplaceNotAFunction
  {
    var kept := entries[..Min(|entries|, limit)];
    assert forall i :: 0 <= i < |kept| ==> kept[i] == entries[i];
    NormalizeRows(kept)
  }

  /** A record as the upstream is documented to send it: each field absent,
      null or a string. */
  predicate WellTypedRecord(item: Value) {
    var record := RecordOf(item);
    forall key | key in {"ticker", "price", "change_amount", "change_percentage", "volume"} ::
      Get(record, key).Str? || Nullish(Get(record, key))
  }

  /** Cleaning distributes over concatenation, so it keeps the characters it
      does not strip in their original order. */
  lemma {:induction false} CleanAppend(a: string, b: string)
    ensures Clean(a + b) == Clean(a) + Clean(b)
  {
    if a == [] {
      assert a + b == b;
    } else {
      assert (a + b)[1..] == a[1..] + b;
      CleanAppend(a[1..], b);
    }
  }

  /** Cleaning keeps every character that is not stripped, as often as it
      occurs, and removes every `%`, `,` and `$`. */
  lemma {:induction false} CleanCounts(s: string, c: char)
    ensures multiset(Clean(s))[c] == if IsStripped(c) then 0 else multiset(s)[c]
  {
    if s != [] {
      CleanCounts(s[1..], c);
      assert s == [s[0]] + s[1..];
    }
  }

  /** Cleaning leaves a string without those characters untouched. */
  lemma {:induction false} CleanOfUnstripped(s: string)
    requires forall i :: 0 <= i < |s| ==> !IsStripped(s[i])
    ensures Clean(s) == s
  {
    if s != [] {
      CleanOfUnstripped(s[1..]);
    }
  }

  lemma {:induction false} CleanKeepsNoDigit(s: string)
    requires !HasDigit(s)
    ensures !HasDigit(Clean(s))
  {
    if s != [] {
      forall i | 0 <= i < |s[1..]|
        ensures !IsDigit(s[1..][i])
      {
        assert s[1..][i] == s[i + 1];
      }
      CleanKeepsNoDigit(s[1..]);
      var rest := Clean(s[1..]);
      assert Clean(s) == (if IsStripped(s[0]) then [] else [s[0]]) + rest;
      assert !IsDigit(s[0]);
    }
  }

  /** A field without a single digit coerces to exactly 0. */
  lemma ParseNumericWithoutDigits(value: Value)
    requires value.Str? && !HasDigit(value.s)
    ensures ParseNumeric(value) == Ok(0.0)
  {
    CleanKeepsNoDigit(value.s);
    ParseFloatWithoutDigits(Clean(value.s));
  }

  /** The decimal digits of a natural number coerce back to that number. */
  lemma ParseNumericOfNatToString(n: nat)
    requires n < OverflowBound
    ensures ParseNumeric(Str(NatToString(n))) == Ok(n as real)
  {
    CleanOfUnstripped(NatToString(n));
    ParseFloatOfNatToString(n);
  }

  /** A null or undefined record is an empty one: ticker "N/A", all four
      numbers 0. */
  lemma NormalizeNullishEntry(item: Value)
    requires Nullish(item)
    ensures NormalizeEntry(item) == Ok(InstrumentObject(Str("N/A"), 0.0, 0.0, 0.0, 0.0))
  {
    assert RecordOf(item) == Obj(map[]);
  }

  /** The ticker of a normalised row is the record's ticker, or "N/A". */
  lemma NormalizedTicker(item: Value)
    requires NormalizeEntry(item).Ok?
    ensures Get(NormalizeEntry(item).value, "ticker") == TickerOf(RecordOf(item))
  {
    var record := RecordOf(item);
    InstrumentObjectTicker(TickerOf(record),
      ParseNumeric(Get(record, "price")).value,
      ParseNumeric(Get(record, "change_amount")).value,
      ParseNumeric(Get(record, "change_percentage")).value,
      ParseNumeric(Get(record, "volume")).value);
  }

  /** A ticker that is present is passed through unchanged. */
  lemma NormalizeKeepsTicker(item: Value)
    requires item.Obj? && "ticker" in item.fields && !Nullish(item.fields["ticker"])
    requires NormalizeEntry(item).Ok?
    ensures Get(NormalizeEntry(item).value, "ticker") == item.fields["ticker"]
  {
    NormalizedTicker(item);
  }

  /** A well-typed record always normalises, to a row whose ticker is a string. */
  lemma NormalizeWellTypedEntry(item: Value)
    requires WellTypedRecord(item)
    ensures NormalizeEntry(item).Ok?
    ensures Get(NormalizeEntry(item).value, "ticker").Str?
  {
    var record := RecordOf(item);
    assert Get(record, "price").Str? || Nullish(Get(record, "price"));
    assert Get(record, "change_amount").Str? || Nullish(Get(record, "change_amount"));
    assert Get(record, "change_percentage").Str? || Nullish(Get(record, "change_percentage"));
    assert Get(record, "volume").Str? || Nullish(Get(record, "volume"));
    assert Get(record, "ticker").Str? || Nullish(Get(record, "ticker"));
    NormalizedTicker(item);
  }
}
