/**
 * The two ways the server exposes `fetchTopMovers` (dist/server.js): the
 * `topMovers` tool, whose result carries the payload both as JSON text and
 * as structured content, and `GET /api/top-movers`, which reads its limit
 * from the query string, clamps it, and maps a failure to a 500 response.
 */
module Transport {
  import opened Wrappers
  import opened Js
  import opened Schema
  import opened Normalizer
  import opened Fetcher

  /** The value the tool handler returns for a payload; `stringify` stands
      for `JSON.stringify(data, null, 2)`. */
  function ToolEnvelope(data: Payload, stringify: Value -> string): (r: Value)
    ensures Get(r, "structuredContent") == PayloadToJson(data)
    ensures Get(r, "content") == Arr([Obj(map["type" := Str("text"), "text" := Str(stringify(PayloadToJson(data)))])])
  {
    var structured := PayloadToJson(data);
    Obj(map[
      "content" := Arr([Obj(map["type" := Str("text"), "text" := Str(stringify(structured))])]),
      "structuredContent" := structured])
  }

  /** The `topMovers` tool handler: the fetch for `args`, wrapped in the envelope. */
  function TopMoversTool(config: Config, args: Value, upstream: UpstreamRequest -> UpstreamResponse,
                         stringify: Value -> string): (r: Result<Value, ServerError>)
    ensures r.Err? <==> FetchTopMovers(config, args, upstream).reply.Err?
    ensures r.Err? ==> r.error == FetchTopMovers(config, args, upstream).reply.error
    ensures r.Ok? ==> r.value == ToolEnvelope(FetchTopMovers(config, args, upstream).reply.value, stringify)
  {
    match FetchTopMovers(config, args, upstream).reply
    case Ok(data) => Ok(ToolEnvelope(data, stringify))
    case Err(e) => Err(e)
  }

  /** `req.query.limit` as the query-string parser produces it: a single
      string, the strings of a repeated parameter, or a nested object. */
  datatype QueryValue = QString(s: string) | QList(items: seq<string>) | QObject

  /** `limitCandidate`: the string itself, `String()` of the first element
      of a list (of an empty one, `String(undefined)`), otherwise undefined. */
  function LimitCandidate(query: Option<QueryValue>): (r: Option<string>)
    ensures query.Some? && query.value.QString? ==> r == Some(query.value.s)
    ensures query.Some? && query.value.QList? && |query.value.items| > 0 ==> r == Some(query.value.items[0])
    ensures query.Some? && query.value.QList? && |query.value.items| == 0 ==> r == Some("undefined")
    ensures query.None? || query.value.QObject? ==> r.None?
  {
    match query
    case None => None
    case Some(QString(s)) => Some(s)
    case Some(QList(items)) => Some(if |items| > 0 then items[0] else "undefined")
    case Some(QObject) => None
  }

  /** `Number.parseInt(limitCandidate ?? '5', 10)`, then the clamp to
      [1, MAX_LIMIT] of a finite result and DEFAULT_LIMIT otherwise. */
  function RestLimit(query: Option<QueryValue>): (r: int)
    ensures 1 <= r <= MaxLimit
  {
    var candidate := LimitCandidate(query).GetOr(IntToString(DefaultLimit));
    var parsed := ParseInt(candidate);
    if parsed.Finite? then NormalizedLimit(parsed.value.Floor) else DefaultLimit
  }

  /** `{ limit }`, the input the handler passes to the fetch: its limit is
      always an integer in [1, MAX_LIMIT]. */
  function RestInput(query: Option<QueryValue>): (r: Value)
    ensures Get(r, "limit").Num? && IsIntegral(Get(r, "limit").n)
    ensures 1.0 <= Get(r, "limit").n <= MaxLimit as real
  {
    Obj(map["limit" := Num(RestLimit(query) as real)])
  }

  /** An HTTP response: a status and a JSON body. */
  datatype HttpResponse = HttpResponse(status: int, body: Value)

  /** The body of the 500 response: `{ error: error.message }`, an object
      with that one field. */
  function ErrorBody(e: ServerError): (r: Value)
    ensures r.Obj? && r.fields.Keys == {"error"}
    ensures Get(r, "error") == Str(Message(e))
  {
    Obj(map["error" := Str(Message(e))])
  }

  /** `GET /api/top-movers`: the fetch with `{ limit }`, answered with the
      payload or with a 500 carrying the error's message. */
  function RestTopMovers(config: Config, query: Option<QueryValue>, upstream: UpstreamRequest -> UpstreamResponse):
    (r: (seq<UpstreamRequest>, HttpResponse))
    ensures var fetched := FetchTopMovers(config, RestInput(query), upstream);
      r.0 == fetched.calls &&
      (fetched.reply.Ok? ==> r.1 == HttpResponse(200, PayloadToJson(fetched.reply.value))) &&
      (fetched.reply.Err? ==> r.1 == HttpResponse(500, ErrorBody(fetched.reply.error)))
  {
    var fetched := FetchTopMovers(config, RestInput(query), upstream);
    match fetched.reply
    case Ok(payload) => (fetched.calls, HttpResponse(200, PayloadToJson(payload)))
    case Err(e) => (fetched.calls, HttpResponse(500, ErrorBody(e)))
  }

  /** Without a usable limit parameter the REST limit is DEFAULT_LIMIT. */
  lemma RestLimitDefault(query: Option<QueryValue>)
    requires query.None? || query.value.QObject?
    ensures RestLimit(query) == DefaultLimit
  {
    ParseIntOfIntToString(DefaultLimit);
  }

  /** A parameter parseInt finds no number in gives DEFAULT_LIMIT. */
  lemma RestLimitNotNumeric(s: string)
    requires !ParseInt(s).Finite?
    ensures RestLimit(Some(QString(s))) == DefaultLimit
    ensures RestLimit(Some(QList([s]))) == DefaultLimit
  {
  }

  /** A numeric parameter is clamped: below 1 gives 1, above MAX_LIMIT gives
      MAX_LIMIT, and one in range is kept. */
  lemma RestLimitClamps(s: string)
    requires ParseInt(s).Finite?
    ensures var n := ParseInt(s).value;
      (n < 1.0 ==> RestLimit(Some(QString(s))) == 1) &&
      (n > MaxLimit as real ==> RestLimit(Some(QString(s))) == MaxLimit) &&
      (1.0 <= n <= MaxLimit as real ==> RestLimit(Some(QString(s))) as real == n)
  {
  }

  /** Of a repeated parameter only the first occurrence matters. */
  lemma RestLimitFirstOfList(items: seq<string>)
    requires |items| > 0
    ensures RestLimit(Some(QList(items))) == RestLimit(Some(QString(items[0])))
  {
  }

  /** The REST handler's input always passes the tool input schema with its
      own limit. */
  lemma RestInputAccepted(query: Option<QueryValue>)
    ensures ParseToolInput(RestInput(query)) == Ok(RestLimit(query))
  {
    assert Get(RestInput(query), "limit") == Num(RestLimit(query) as real);
    assert IsIntegral(RestLimit(query) as real);
  }

  /** So the fetch behind the REST handler never fails on its input. */
  lemma RestNeverInvalidInput(config: Config, query: Option<QueryValue>, upstream: UpstreamRequest -> UpstreamResponse)
    ensures FetchTopMovers(config, RestInput(query), upstream).reply != Err(InvalidToolInput)
  {
    RestInputAccepted(query);
  }

  /** Without the key the handler makes no request and answers 500 with
      the missing-key message. */
  lemma RestMissingKey(config: Config, query: Option<QueryValue>, upstream: UpstreamRequest -> UpstreamResponse)
    requires !HasApiKey(config)
    ensures RestTopMovers(config, query, upstream) == ([], HttpResponse(500, ErrorBody(MissingApiKey)))
  {
  }

  /** When `fetch` rejects, the handler answers 500 with the rejection's
      reason as its `error`. */
  lemma RestUpstreamUnreachable(config: Config, query: Option<QueryValue>, upstream: UpstreamRequest -> UpstreamResponse, reason: string)
    requires HasApiKey(config)
    requires upstream(UpstreamRequest(Operation, config.apiKey.value)) == UpstreamUnreachable(reason)
    ensures RestTopMovers(config, query, upstream) ==
      ([UpstreamRequest(Operation, config.apiKey.value)], HttpResponse(500, Obj(map["error" := Str(reason)])))
  {
    RestInputAccepted(query);
    assert ErrorBody(FetchFailed(reason)) == Obj(map["error" := Str(reason)]);
  }

  /** The tool and the REST handler make the same request and reach the same
      payload or error for a parameter that reads as a limit in range. */
  lemma RestAgreesWithTool(config: Config, s: string, upstream: UpstreamRequest -> UpstreamResponse)
    requires ParseInt(s).Finite? && 1.0 <= ParseInt(s).value <= MaxLimit as real
    ensures var limit := ParseInt(s).value.Floor;
      var viaTool := FetchTopMovers(config, Obj(map["limit" := Num(limit as real)]), upstream);
      RestTopMovers(config, Some(QString(s)), upstream).0 == viaTool.calls &&
      (viaTool.reply.Ok? ==> RestTopMovers(config, Some(QString(s)), upstream).1.body == PayloadToJson(viaTool.reply.value))
    ensures var limit := ParseInt(s).value.Floor;
      var viaTool := FetchTopMovers(config, Obj(map["limit" := Num(limit as real)]), upstream);
      (RestTopMovers(config, Some(QString(s)), upstream).1.status == 200 <==> viaTool.reply.Ok?) &&
      (viaTool.reply.Err? ==> RestTopMovers(config, Some(QString(s)), upstream).1 == HttpResponse(500, ErrorBody(viaTool.reply.error)))
  {
    var query := Some(QString(s));
    var limit := ParseInt(s).value.Floor;
    RestLimitClamps(s);
    assert RestLimit(query) == limit;
    assert RestInput(query) == Obj(map["limit" := Num(limit as real)]);
  }
}
