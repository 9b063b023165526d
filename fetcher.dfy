/**
 * `fetchTopMovers` (dist/server.js): the credential check, the tool input
 * schema, one upstream request, the status check, the defensive reading of
 * the decoded upstream body, the assembly of the payload and the output
 * schema. The network is a parameter: `upstream` answers the one request
 * the fetch makes, and the result records which requests were made.
 */
module Fetcher {
  import opened Wrappers
  import opened Js
  import opened Schema
  import opened Normalizer

  /** The process environment the fetch reads: `ALPHA_VANTAGE_API_KEY`. */
  datatype Config = Config(apiKey: Option<string>)

  /** `!ALPHA_VANTAGE_API_KEY` is false: the variable is set and not empty. */
  predicate HasApiKey(config: Config) {
    config.apiKey.Some? && config.apiKey.value != ""
  }

  /** The query the fetch sends: `function` and `apikey` search parameters. */
  datatype UpstreamRequest = UpstreamRequest(operation: string, apiKey: string)

  /** How `await fetch(url)` settles: a response with its status, the body
      as text, and the body as decoded JSON or the reason `response.json()`
      rejected; or the reason `fetch` itself rejected (a DNS failure, a
      refused or reset connection). */
  datatype UpstreamResponse =
    | UpstreamResponse(status: int, text: string, json: Result<Value, string>)
    | UpstreamUnreachable(reason: string)

  /** A server computation's reply together with the upstream requests it made, in order. */
  datatype Exchange<T> = Exchange(calls: seq<UpstreamRequest>, reply: Result<T, ServerError>)

  const Operation: string := "TOP_GAINERS_LOSERS"
  const UpstreamBodyLimit: nat := 200

  /** `response.ok` */
  predicate IsOkStatus(status: int) {
    200 <= status <= 299
  }

  /** `Math.min(Math.max(limit, 1), MAX_LIMIT)` */
  function NormalizedLimit(limit: int): (r: nat)
    ensures 1 <= r <= MaxLimit
    ensures 1 <= limit <= MaxLimit ==> r == limit
    ensures limit < 1 ==> r == 1
    ensures limit > MaxLimit ==> r == MaxLimit
  {
    if limit < 1 then 1 else if limit > MaxLimit then MaxLimit else limit
  }

  /** `Array.isArray(payload[key]) ? payload[key] : []` */
  function ListField(payload: Value, key: string): (r: seq<Value>)
    ensures Get(payload, key).Arr? ==> r == Get(payload, key).items
    ensures !Get(payload, key).Arr? ==> r == []
  {
    var field := Get(payload, key);
    if field.Arr? then field.items else []
  }

  /** `typeof payload.last_updated === 'string' ? payload.last_updated : null` */
  function LastUpdatedField(payload: Value): (r: Value)
    ensures r.Str? || r.Null?
    ensures r.Str? <==> Get(payload, "last_updated").Str?
    ensures r.Str? ==> r == Get(payload, "last_updated")
  {
    var field := Get(payload, "last_updated");
    if field.Str? then field else Null
  }

  /** The `output` object literal, built from a decoded body that is not
      null or undefined. Its fields are evaluated in the order written, so
      the first list that throws ends it. */
  function AssembleOutput(payload: Value, limit: nat): (r: Result<Value, ServerError>)
    ensures r.Err? ==> r.error == ReplaceNotAFunction
  {
    var lastUpdated := LastUpdatedField(payload);
    var gainers :- NormalizeList(ListField(payload, "top_gainers"), limit);
    var losers :- NormalizeList(ListField(payload, "top_losers"), limit);
    var active :- NormalizeList(ListField(payload, "top_most_actively_traded"), limit);
    Ok(OutputObject(lastUpdated, gainers, losers, active))
  }

  /** Everything after `await fetch(url)`: the status check, the decoding,
      the property reads on the decoded body, assembly and the output schema. */
  function Digest(response: UpstreamResponse, limit: nat): (r: Result<Payload, ServerError>)
    ensures r.Err? ==> !r.error.MissingApiKey? && !r.error.InvalidToolInput?
  {
    if response.UpstreamUnreachable? then Err(FetchFailed(response.reason))
    else if !IsOkStatus(response.status) then
      Err(UpstreamFailed(response.status, Truncate(response.text, UpstreamBodyLimit)))
    else
      match response.json
      case Err(reason) => Err(UpstreamNotJson(reason))
      case Ok(payload) =>
        if Nullish(payload) then Err(PropertyOfNullish(payload.Null?))
        else
          var output :- AssembleOutput(payload, limit);
          ParseOutput(output)
  }

  /** `fetchTopMovers(rawInput)` under `config`, where `upstream` answers the request. */
  function FetchTopMovers(config: Config, rawInput: Value, upstream: UpstreamRequest -> UpstreamResponse): (r: Exchange<Payload>)
    ensures |r.calls| <= 1
    ensures !HasApiKey(config) ==> r == Exchange([], Err(MissingApiKey))
    ensures HasApiKey(config) && ParseToolInput(rawInput).Err? ==> r == Exchange([], Err(InvalidToolInput))
    ensures |r.calls| == 1 <==> HasApiKey(config) && ParseToolInput(rawInput).Ok?
    ensures |r.calls| == 1 ==> r.calls[0] == UpstreamRequest(Operation, config.apiKey.value)
    ensures |r.calls| == 1 ==>
      r.reply == Digest(upstream(r.calls[0]), ParseToolInput(rawInput).value)
  {
    if !HasApiKey(config) then Exchange([], Err(MissingApiKey))
    else
      match ParseToolInput(rawInput)
      case Err(e) => Exchange([], Err(e))
      case Ok(limit) =>
        var request := UpstreamRequest(Operation, config.apiKey.value);
        Exchange([request], Digest(upstream(request), NormalizedLimit(limit)))
  }

  /** The payload's lists are the first `limit` upstream entries, in
      upstream order, each the Instrument the normaliser makes of it. */
  predicate ListMatches(xs: seq<Instrument>, entries: seq<Value>, limit: nat) {
    |xs| == Min(|entries|, limit) &&
    forall i :: 0 <= i < |xs| ==> NormalizeEntry(entries[i]) == Ok(InstrumentToJson(xs[i]))
  }

  /** The schema clamp on line 67 never changes a limit the input schema let through. */
  lemma NormalizedLimitOfToolInput(rawInput: Value)
    requires ParseToolInput(rawInput).Ok?
    ensures NormalizedLimit(ParseToolInput(rawInput).value) == ParseToolInput(rawInput).value
  {
  }

  /** An out-of-range integral limit is rejected by the schema before any
      request, so the clamp never sees it. */
  lemma OutOfRangeLimitRejected(config: Config, limit: int, upstream: UpstreamRequest -> UpstreamResponse)
    requires HasApiKey(config)
    requires limit < 1 || limit > MaxLimit
    ensures FetchTopMovers(config, Obj(map["limit" := Num(limit as real)]), upstream) == Exchange([], Err(InvalidToolInput))
  {
    var raw := Obj(map["limit" := Num(limit as real)]);
    assert Get(raw, "limit") == Num(limit as real);
  }

  /** A non-OK upstream status fails whatever the body decodes to; the
      message carries the status and the first 200 characters of the body. */
  lemma UpstreamFailure(response: UpstreamResponse, limit: nat)
    requires response.UpstreamResponse? && !IsOkStatus(response.status)
    ensures Digest(response, limit).Err?
    ensures Digest(response, limit).error.UpstreamFailed?
    ensures Message(Digest(response, limit).error) ==
      "Alpha Vantage request failed with status " + IntToString(response.status) + ": " + Truncate(response.text, UpstreamBodyLimit)
    ensures |Digest(response, limit).error.bodyStart| <= UpstreamBodyLimit
    ensures Digest(response, limit).error.bodyStart <= response.text
  {
  }

  /** A rejected `fetch` is not retried: the fetch fails with the rejection's
      own message. */
  lemma UpstreamUnreachableFails(reason: string, limit: nat)
    ensures Digest(UpstreamUnreachable(reason), limit) == Err(FetchFailed(reason))
    ensures Message(Digest(UpstreamUnreachable(reason), limit).error) == reason
  {
  }

  /** The schema accepts a row the normaliser made just when its ticker is a
      string, and the Instrument it reads serialises back to that row. */
  lemma ParseNormalizedEntry(item: Value)
    requires NormalizeEntry(item).Ok?
    ensures ParseInstrument(NormalizeEntry(item).value).Ok? <==> TickerOf(RecordOf(item)).Str?
    ensures ParseInstrument(NormalizeEntry(item).value).Ok? ==>
      InstrumentToJson(ParseInstrument(NormalizeEntry(item).value).value) == NormalizeEntry(item).value
  {
    var record := RecordOf(item);
    ParseInstrumentObject(TickerOf(record),
      ParseNumeric(Get(record, "price")).value,
      ParseNumeric(Get(record, "change_amount")).value,
      ParseNumeric(Get(record, "change_percentage")).value,
      ParseNumeric(Get(record, "volume")).value);
  }

  /** Reading the normalised rows of `entries` back through the Instrument
      schema yields Instruments that match the entries one by one. */
  lemma ParseNormalizedList(entries: seq<Value>, limit: nat, xs: seq<Instrument>)
    requires NormalizeList(entries, limit).Ok?
    requires ParseInstruments(NormalizeList(entries, limit).value) == Ok(xs)
    ensures ListMatches(xs, entries, limit)
  {
    var rows := NormalizeList(entries, limit).value;
    forall i | 0 <= i < |xs|
      ensures NormalizeEntry(entries[i]) == Ok(InstrumentToJson(xs[i]))
    {
      assert rows[i] == NormalizeEntry(entries[i]).value;
      ParseNormalizedEntry(entries[i]);
    }
  }

  /** The facts a successful Digest rests on. */
  lemma DigestOk(response: UpstreamResponse, limit: nat)
    requires Digest(response, limit).Ok?
    ensures response.UpstreamResponse? && IsOkStatus(response.status)
    ensures response.json.Ok? && !Nullish(response.json.value)
    ensures AssembleOutput(response.json.value, limit).Ok?
    ensures Digest(response, limit) == ParseOutput(AssembleOutput(response.json.value, limit).value)
  {
  }

  /** The assembled object's fields. */
  lemma AssembleOutputFields(payload: Value, limit: nat)
    requires AssembleOutput(payload, limit).Ok?
    ensures NormalizeList(ListField(payload, "top_gainers"), limit).Ok?
    ensures NormalizeList(ListField(payload, "top_losers"), limit).Ok?
    ensures NormalizeList(ListField(payload, "top_most_actively_traded"), limit).Ok?
    ensures var output := AssembleOutput(payload, limit).value;
      output.Obj? &&
      Get(output, "source") == Str(Source) &&
      Get(output, "lastUpdated") == LastUpdatedField(payload) &&
      Get(output, "topGainers") == Arr(NormalizeList(ListField(payload, "top_gainers"), limit).value) &&
      Get(output, "topLosers") == Arr(NormalizeList(ListField(payload, "top_losers"), limit).value) &&
      Get(output, "mostActivelyTraded") == Arr(NormalizeList(ListField(payload, "top_most_actively_traded"), limit).value)
  {
    OutputObjectFields(LastUpdatedField(payload),
      NormalizeList(ListField(payload, "top_gainers"), limit).value,
      NormalizeList(ListField(payload, "top_losers"), limit).value,
      NormalizeList(ListField(payload, "top_most_actively_traded"), limit).value);
  }

  /** What the output schema accepts from the assembled object. */
  lemma ParseAssembledOutput(payload: Value, limit: nat, p: Payload)
    requires AssembleOutput(payload, limit).Ok?
    requires ParseOutput(AssembleOutput(payload, limit).value) == Ok(p)
    ensures p.lastUpdated.Some? <==> Get(payload, "last_updated").Str?
    ensures p.lastUpdated.Some? ==> Get(payload, "last_updated") == Str(p.lastUpdated.value)
    ensures ListMatches(p.topGainers, ListField(payload, "top_gainers"), limit)
    ensures ListMatches(p.topLosers, ListField(payload, "top_losers"), limit)
    ensures ListMatches(p.mostActivelyTraded, ListField(payload, "top_most_actively_traded"), limit)
  {
    AssembleOutputFields(payload, limit);
    var output := AssembleOutput(payload, limit).value;
    assert ParseLastUpdated(Get(output, "lastUpdated")) == Ok(p.lastUpdated);
    assert ParseInstrumentArray(Get(output, "topGainers")) == Ok(p.topGainers);
    assert ParseInstrumentArray(Get(output, "topLosers")) == Ok(p.topLosers);
    assert ParseInstrumentArray(Get(output, "mostActivelyTraded")) == Ok(p.mostActivelyTraded);
    ParseNormalizedList(ListField(payload, "top_gainers"), limit, p.topGainers);
    ParseNormalizedList(ListField(payload, "top_losers"), limit, p.topLosers);
    ParseNormalizedList(ListField(payload, "top_most_actively_traded"), limit, p.mostActivelyTraded);
  }

  /** A successful fetch: the key was present, exactly one request was made,
      and the payload's `lastUpdated` is the upstream string or null while
      each list holds the first `limit` upstream entries (none when the
      field is absent or not an array), normalised, in upstream order. */
  lemma FetchSuccess(config: Config, rawInput: Value, upstream: UpstreamRequest -> UpstreamResponse, p: Payload)
    requires FetchTopMovers(config, rawInput, upstream).reply == Ok(p)
    ensures HasApiKey(config) && ParseToolInput(rawInput).Ok?
    ensures FetchTopMovers(config, rawInput, upstream).calls == [UpstreamRequest(Operation, config.apiKey.value)]
    ensures var response := upstream(UpstreamRequest(Operation, config.apiKey.value));
      var limit := ParseToolInput(rawInput).value;
      response.UpstreamResponse? && IsOkStatus(response.status) && response.json.Ok? &&
      var payload := response.json.value;
      (p.lastUpdated.Some? <==> Get(payload, "last_updated").Str?) &&
      (p.lastUpdated.Some? ==> Get(payload, "last_updated") == Str(p.lastUpdated.value)) &&
      ListMatches(p.topGainers, ListField(payload, "top_gainers"), limit) &&
      ListMatches(p.topLosers, ListField(payload, "top_losers"), limit) &&
      ListMatches(p.mostActivelyTraded, ListField(payload, "top_most_actively_traded"), limit)
    ensures |p.topGainers| <= MaxLimit && |p.topLosers| <= MaxLimit && |p.mostActivelyTraded| <= MaxLimit
  {
    var response := upstream(UpstreamRequest(Operation, config.apiKey.value));
    var limit := ParseToolInput(rawInput).value;
    DigestOk(response, limit);
    ParseAssembledOutput(response.json.value, limit, p);
  }

  /** A decoded body in which every list entry is a well-typed record, or
      absent, or not an array. */
  predicate WellTypedPayload(payload: Value) {
    !Nullish(payload) &&
    (forall i :: 0 <= i < |ListField(payload, "top_gainers")| ==> WellTypedRecord(ListField(payload, "top_gainers")[i])) &&
    (forall i :: 0 <= i < |ListField(payload, "top_losers")| ==> WellTypedRecord(ListField(payload, "top_losers")[i])) &&
    (forall i :: 0 <= i < |ListField(payload, "top_most_actively_traded")| ==>
      WellTypedRecord(ListField(payload, "top_most_actively_traded")[i]))
  }

  /** A list of well-typed records normalises, and every row passes the Instrument schema. */
  lemma WellTypedListParses(entries: seq<Value>, limit: nat)
    requires forall i :: 0 <= i < |entries| ==> WellTypedRecord(entries[i])
    ensures NormalizeList(entries, limit).Ok?
    ensures ParseInstruments(NormalizeList(entries, limit).value).Ok?
  {
    forall i | 0 <= i < Min(|entries|, limit)
      ensures NormalizeEntry(entries[i]).Ok?
      ensures ParseInstrument(NormalizeEntry(entries[i]).value).Ok?
    {
      NormalizeWellTypedEntry(entries[i]);
      InstrumentTickerString(entries[i]);
    }
  }

  lemma InstrumentTickerString(item: Value)
    requires NormalizeEntry(item).Ok? && Get(NormalizeEntry(item).value, "ticker").Str?
    ensures ParseInstrument(NormalizeEntry(item).value).Ok?
  {
    NormalizedTicker(item);
    ParseNormalizedEntry(item);
  }

  /** An OK response whose body decodes to a well-typed record always
      yields a payload. */
  lemma WellTypedResponseSucceeds(response: UpstreamResponse, limit: nat)
    requires response.UpstreamResponse? && IsOkStatus(response.status)
    requires response.json.Ok? && WellTypedPayload(response.json.value)
    ensures Digest(response, limit).Ok?
  {
    var payload := response.json.value;
    WellTypedListParses(ListField(payload, "top_gainers"), limit);
    WellTypedListParses(ListField(payload, "top_losers"), limit);
    WellTypedListParses(ListField(payload, "top_most_actively_traded"), limit);
    AssembleOutputFields(payload, limit);
    var output := AssembleOutput(payload, limit).value;
    assert ParseLastUpdated(Get(output, "lastUpdated")).Ok?;
  }
}
