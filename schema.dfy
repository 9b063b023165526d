/**
 * The typed shapes of the movers service (dist/server.js): the Instrument
 * and payload records, the errors a fetch can end in, and the two schemas
 * the server checks values against: the tool input `{ limit }` and the
 * payload it returns.
 */
module Schema {
  import opened Wrappers
  import opened Js

  const DefaultLimit: int := 5
  const MaxLimit: int := 20
  const Source: string := "Alpha Vantage TOP_GAINERS_LOSERS"

  /** One security's snapshot. */
  datatype Instrument = Instrument(
    ticker: string,
    price: real,
    changeAmount: real,
    changePercentage: real,
    volume: real)

  /** The movers payload; its `source` field is the literal `Source` and is
      therefore not stored. */
  datatype Payload = Payload(
    lastUpdated: Option<string>,
    topGainers: seq<Instrument>,
    topLosers: seq<Instrument>,
    mostActivelyTraded: seq<Instrument>)

  /** The errors a fetch can throw. */
  datatype ServerError =
    | MissingApiKey
    | InvalidToolInput                           // the input schema rejected the arguments
    | FetchFailed(reason: string)                // `fetch` itself rejected
    | UpstreamFailed(status: int, bodyStart: string)
    | UpstreamNotJson(reason: string)            // the upstream body did not decode
    | PropertyOfNullish(isNull: bool)            // the decoded upstream body is null
    | ReplaceNotAFunction                        // a truthy non-string numeric field
    | InvalidOutput                              // the output schema rejected the payload

  const MissingApiKeyMessage: string :=
    "Missing Alpha Vantage API key. Set ALPHA_VANTAGE_API_KEY before calling the topMovers tool."
  const InvalidInputMessage: string := "Invalid topMovers input"
  const UpstreamFailedPrefix: string := "Alpha Vantage request failed with status "
  const ReplaceMessage: string := "value.replace is not a function"
  const InvalidOutputMessage: string := "Invalid topMovers output"

  /** `error.message` for each error: a rejection's own reason passes through
      unchanged, a failed status ends with the start of the body, and the
      messages the server writes itself are never empty. */
  function Message(e: ServerError): (r: string)
    ensures e.FetchFailed? || e.UpstreamNotJson? ==> r == e.reason
    ensures e.UpstreamFailed? ==> |e.bodyStart| <= |r| && r[|r| - |e.bodyStart|..] == e.bodyStart
    ensures !e.FetchFailed? && !e.UpstreamNotJson? ==> |r| > 0
  {
    match e
    case MissingApiKey => MissingApiKeyMessage
    case InvalidToolInput => InvalidInputMessage
    case FetchFailed(reason) => reason
    case UpstreamFailed(status, bodyStart) =>
      var head := UpstreamFailedPrefix + IntToString(status) + ": ";
      assert (head + bodyStart)[|head|..] == bodyStart;
      head + bodyStart
    case UpstreamNotJson(reason) => reason
    case PropertyOfNullish(isNull) =>
      "Cannot read properties of " + (if isNull then "null" else "undefined") + " (reading 'top_gainers')"
    case ReplaceNotAFunction => ReplaceMessage
    case InvalidOutput => InvalidOutputMessage
  }

  /** The object with the five Instrument fields: what the normaliser builds
      for a row, and what an Instrument serialises to. */
  function InstrumentObject(ticker: Value, price: real, changeAmount: real, changePercentage: real, volume: real): Value {
    Obj(map[
      "ticker" := ticker,
      "price" := Num(price),
      "changeAmount" := Num(changeAmount),
      "changePercentage" := Num(changePercentage),
      "volume" := Num(volume)])
  }

  function InstrumentToJson(x: Instrument): Value {
    InstrumentObject(Str(x.ticker), x.price, x.changeAmount, x.changePercentage, x.volume)
  }

  function InstrumentsToJson(xs: seq<Instrument>): (r: seq<Value>)
    ensures |r| == |xs|
    ensures forall i :: 0 <= i < |xs| ==> r[i] == InstrumentToJson(xs[i])
  {
    seq(|xs|, i requires 0 <= i < |xs| => InstrumentToJson(xs[i]))
  }

  function LastUpdatedToJson(lastUpdated: Option<string>): Value {
    match lastUpdated
    case Some(s) => Str(s)
    case None => Null
  }

  /** An object with the five payload fields. */
  function OutputObject(lastUpdated: Value, gainers: seq<Value>, losers: seq<Value>, active: seq<Value>): Value {
    Obj(map[
      "source" := Str(Source),
      "lastUpdated" := lastUpdated,
      "topGainers" := Arr(gainers),
      "topLosers" := Arr(losers),
      "mostActivelyTraded" := Arr(active)])
  }

  /** The payload as the JSON object both transports send. */
  function PayloadToJson(p: Payload): Value {
    OutputObject(LastUpdatedToJson(p.lastUpdated),
      InstrumentsToJson(p.topGainers), InstrumentsToJson(p.topLosers), InstrumentsToJson(p.mostActivelyTraded))
  }

  /** The Instrument schema: an object whose `ticker` is a string and whose
      four numeric fields are numbers. */
  function ParseInstrument(v: Value): (r: Result<Instrument, ServerError>)
    ensures r.Err? ==> r.error == InvalidOutput
  {
    var ticker := Get(v, "ticker");
    var price := Get(v, "price");
    var changeAmount := Get(v, "changeAmount");
    var changePercentage := Get(v, "changePercentage");
    var volume := Get(v, "volume");
    if v.Obj? && ticker.Str? && price.Num? && changeAmount.Num? && changePercentage.Num? && volume.Num? then
      Ok(Instrument(ticker.s, price.n, changeAmount.n, changePercentage.n, volume.n))
    else Err(InvalidOutput)
  }

  /** An array of Instruments: accepted when every element is, element by element. */
  function ParseInstruments(vs: seq<Value>): (r: Result<seq<Instrument>, ServerError>)
    ensures r.Ok? <==> forall i :: 0 <= i < |vs| ==> ParseInstrument(vs[i]).Ok?
    ensures r.Ok? ==> |r.value| == |vs| && forall i :: 0 <= i < |vs| ==> r.value[i] == ParseInstrument(vs[i]).value
    ensures r.Err? ==> r.error == InvalidOutput
  {
    if vs == [] then Ok([])
    else
      var first :- ParseInstrument(vs[0]);
      var rest :- ParseInstruments(vs[1..]);
      assert forall i :: 1 <= i < |vs| ==> vs[i] == vs[1..][i - 1];
      Ok([first] + rest)
  }

  function ParseInstrumentArray(v: Value): (r: Result<seq<Instrument>, ServerError>)
    ensures r.Ok? ==> v.Arr? && r == ParseInstruments(v.items)
  {
    if v.Arr? then ParseInstruments(v.items) else Err(InvalidOutput)
  }

  function ParseLastUpdated(v: Value): (r: Result<Option<string>, ServerError>)
    ensures r.Ok? <==> v.Str? || v.Null?
    ensures r.Ok? ==> LastUpdatedToJson(r.value) == v
  {
    match v
    case Str(s) => Ok(Some(s))
    case Null => Ok(None)
    case _ => Err(InvalidOutput)
  }

  /** The output schema: `source` is the literal, `lastUpdated` a string or
      null, and the three lists are arrays of Instruments. Fields it does not
      name are dropped. */
  function ParseOutput(v: Value): (r: Result<Payload, ServerError>)
    ensures r.Err? ==> r.error == InvalidOutput
  {
    if !v.Obj? || Get(v, "source") != Str(Source) then Err(InvalidOutput)
    else
      var lastUpdated :- ParseLastUpdated(Get(v, "lastUpdated"));
      var gainers :- ParseInstrumentArray(Get(v, "topGainers"));
      var losers :- ParseInstrumentArray(Get(v, "topLosers"));
      var active :- ParseInstrumentArray(Get(v, "mostActivelyTraded"));
      Ok(Payload(lastUpdated, gainers, losers, active))
  }

  /** The tool input schema: `limit` is an integer in [1, MaxLimit] and
      defaults to DefaultLimit when absent; a missing input stands for `{}`. */
  function ParseToolInput(raw: Value): (r: Result<int, ServerError>)
    ensures r.Ok? ==> 1 <= r.value <= MaxLimit
    ensures r.Err? ==> r.error == InvalidToolInput
    ensures Nullish(raw) ==> r == Ok(DefaultLimit)
    ensures raw.Obj? ==>
      var limit := Get(raw, "limit");
      (limit.Undefined? ==> r == Ok(DefaultLimit)) &&
      (limit.Num? ==> (r.Ok? <==> IsIntegral(limit.n) && 1.0 <= limit.n <= MaxLimit as real)) &&
      (r.Ok? && limit.Num? ==> r.value as real == limit.n) &&
      (!limit.Undefined? && !limit.Num? ==> r.Err?)
    ensures !raw.Obj? && !Nullish(raw) ==> r.Err?
  {
    var input := if Nullish(raw) then Obj(map[]) else raw;
    if !input.Obj? then Err(InvalidToolInput)
    else
      var limit := Get(input, "limit");
      if limit.Undefined? then Ok(DefaultLimit)
      else if limit.Num? && IsIntegral(limit.n) && 1.0 <= limit.n <= MaxLimit as real then Ok(limit.n.Floor)
      else Err(InvalidToolInput)
  }

  lemma InstrumentObjectTicker(ticker: Value, price: real, changeAmount: real, changePercentage: real, volume: real)
    ensures Get(InstrumentObject(ticker, price, changeAmount, changePercentage, volume), "ticker") == ticker
  {
  }

  /** Every Instrument passes the Instrument schema unchanged. */
  lemma ParseInstrumentToJson(x: Instrument)
    ensures ParseInstrument(InstrumentToJson(x)) == Ok(x)
  {
    var v := InstrumentToJson(x);
    assert Get(v, "ticker") == Str(x.ticker);
    assert Get(v, "price") == Num(x.price);
    assert Get(v, "changeAmount") == Num(x.changeAmount);
    assert Get(v, "changePercentage") == Num(x.changePercentage);
    assert Get(v, "volume") == Num(x.volume);
  }

  /** The schema accepts a normalised row exactly when its ticker is a string. */
  lemma ParseInstrumentObject(ticker: Value, price: real, changeAmount: real, changePercentage: real, volume: real)
    ensures ParseInstrument(InstrumentObject(ticker, price, changeAmount, changePercentage, volume)) ==
      if ticker.Str? then Ok(Instrument(ticker.s, price, changeAmount, changePercentage, volume)) else Err(InvalidOutput)
  {
    var v := InstrumentObject(ticker, price, changeAmount, changePercentage, volume);
    assert Get(v, "ticker") == ticker;
    assert Get(v, "price") == Num(price);
    assert Get(v, "changeAmount") == Num(changeAmount);
    assert Get(v, "changePercentage") == Num(changePercentage);
    assert Get(v, "volume") == Num(volume);
  }

  lemma ParseInstrumentsToJson(xs: seq<Instrument>)
    ensures ParseInstruments(InstrumentsToJson(xs)) == Ok(xs)
  {
    var vs := InstrumentsToJson(xs);
    forall i | 0 <= i < |xs|
      ensures ParseInstrument(vs[i]) == Ok(xs[i])
    {
      ParseInstrumentToJson(xs[i]);
    }
    var r := ParseInstruments(vs);
    assert r.Ok?;
    assert r.value == xs;
  }

  lemma OutputObjectFields(lastUpdated: Value, gainers: seq<Value>, losers: seq<Value>, active: seq<Value>)
    ensures var v := OutputObject(lastUpdated, gainers, losers, active);
      v.Obj? && Get(v, "source") == Str(Source) && Get(v, "lastUpdated") == lastUpdated &&
      Get(v, "topGainers") == Arr(gainers) && Get(v, "topLosers") == Arr(losers) &&
      Get(v, "mostActivelyTraded") == Arr(active)
  {
  }

  /** The output schema accepts an object whose five fields each pass. */
  lemma ParseOutputOfFields(v: Value, p: Payload)
    requires v.Obj? && Get(v, "source") == Str(Source)
    requires ParseLastUpdated(Get(v, "lastUpdated")) == Ok(p.lastUpdated)
    requires ParseInstrumentArray(Get(v, "topGainers")) == Ok(p.topGainers)
    requires ParseInstrumentArray(Get(v, "topLosers")) == Ok(p.topLosers)
    requires ParseInstrumentArray(Get(v, "mostActivelyTraded")) == Ok(p.mostActivelyTraded)
    ensures ParseOutput(v) == Ok(p)
  {
  }

  /** Encoding a payload as JSON and reading it back through the output
      schema is lossless. */
  lemma ParseOutputOfPayloadToJson(p: Payload)
    ensures ParseOutput(PayloadToJson(p)) == Ok(p)
  {
    var v := PayloadToJson(p);
    OutputObjectFields(LastUpdatedToJson(p.lastUpdated),
      InstrumentsToJson(p.topGainers), InstrumentsToJson(p.topLosers), InstrumentsToJson(p.mostActivelyTraded));
    assert ParseLastUpdated(Get(v, "lastUpdated")) == Ok(p.lastUpdated);
    ParseInstrumentsToJson(p.topGainers);
    assert ParseInstrumentArray(Get(v, "topGainers")) == Ok(p.topGainers);
    ParseInstrumentsToJson(p.topLosers);
    assert ParseInstrumentArray(Get(v, "topLosers")) == Ok(p.topLosers);
    ParseInstrumentsToJson(p.mostActivelyTraded);
    assert ParseInstrumentArray(Get(v, "mostActivelyTraded")) == Ok(p.mostActivelyTraded);
    ParseOutputOfFields(v, p);
  }
}
