/**
 * The client's data access (public/app.js): the `loadMovers` clamp,
 * `parseStructuredContent`, `fetchViaTool`, `fetchViaRest`, the one
 * failure rendering can throw, and the status each load ends with. The
 * tool bridge, `fetch` and `JSON.parse` are parameters of `Environment`.
 */
module ClientData {
  import opened Wrappers
  import opened Js
  import opened Schema

  /** What a failed step throws: an `Error` with its message, or some other value. */
  datatype Thrown = Thrown(message: string) | ThrownNonError

  /** How `window.openai.callTool` settles. */
  datatype ToolReply = ToolResolved(result: Value) | ToolRejected(thrown: Thrown)

  /** How `fetch(url)` settles: rejected, or a response with its status, its
      text and the outcome of `response.json()`. */
  datatype RestReply =
    | RestUnreachable(thrown: Thrown)
    | RestResponse(status: int, text: string, json: Result<Value, Thrown>)

  /** The page's surroundings: the tool bridge when the host provides one
      (answering the arguments of a `topMovers` call), the server behind
      `fetch` (answering a URL), and `JSON.parse` (None where it throws). */
  datatype Environment = Environment(
    bridge: Option<Value -> ToolReply>,
    rest: string -> RestReply,
    jsonParse: string -> Option<Value>)

  /** A request the page sends. */
  datatype Request = ToolCall(args: Value) | RestGet(url: string)

  const RestBodyLimit: nat := 120
  const RestQuery: string := "/api/top-movers?limit="
  const NoBridgeMessage: string := "window.openai.callTool is not available."
  const NoContentMessage: string := "The topMovers tool did not return structured content."
  const FallbackMessage: string := "Failed to load top movers."

  /** `Math.min(Math.max(Number(limit) || DEFAULT_LIMIT, 1), MAX_LIMIT)`,
      where None is an absent argument. */
  function ClampLimit(limit: Option<Number>): (r: real)
    ensures 1.0 <= r <= MaxLimit as real
    ensures limit.None? || limit.value.NaN? || limit.value == Finite(0.0) ==> r == DefaultLimit as real
    ensures limit == Some(PositiveInfinity) ==> r == MaxLimit as real
    ensures limit == Some(NegativeInfinity) ==> r == 1.0
    ensures limit.Some? && limit.value.Finite? && limit.value.value != 0.0 ==>
      (limit.value.value < 1.0 ==> r == 1.0) &&
      (limit.value.value > MaxLimit as real ==> r == MaxLimit as real) &&
      (1.0 <= limit.value.value <= MaxLimit as real ==> r == limit.value.value)
  {
    var n := if limit.None? then NaN else limit.value;
    match n
    case NaN => DefaultLimit as real
    case PositiveInfinity => MaxLimit as real
    case NegativeInfinity => 1.0
    case Finite(x) =>
      if x == 0.0 then DefaultLimit as real
      else if x < 1.0 then 1.0
      else if x > MaxLimit as real then MaxLimit as real
      else x
  }

  /** The arguments every caller of `loadMovers` passes: nothing, a
      non-finite number, or an integer. */
  predicate LimitArgument(limit: Option<Number>) {
    limit.None? || !limit.value.Finite? || IsIntegral(limit.value.value)
  }

  /** Such an argument clamps to an integer. */
  lemma ClampLimitIntegral(limit: Option<Number>)
    requires LimitArgument(limit)
    ensures IsIntegral(ClampLimit(limit))
  {
  }

  /** What one content chunk yields: a truthy `json` field, or else the
      parse of a string `text` field; None where the scan moves on. */
  function ChunkMatch(chunk: Value, jsonParse: string -> Option<Value>): (r: Option<Value>)
    ensures Truthy(Get(chunk, "json")) ==> r == Some(Get(chunk, "json"))
    ensures !Truthy(Get(chunk, "json")) && Get(chunk, "text").Str? ==> r == jsonParse(Get(chunk, "text").s)
    ensures !Truthy(Get(chunk, "json")) && !Get(chunk, "text").Str? ==> r.None?
  {
    var json := Get(chunk, "json");
    if Truthy(json) then Some(json)
    else
      var text := Get(chunk, "text");
      if text.Str? then jsonParse(text.s) else None
  }

  /** The position of the first chunk that yields a value, or |chunks|. */
  function FirstMatch(chunks: seq<Value>, jsonParse: string -> Option<Value>): (k: nat)
    ensures k <= |chunks|
    ensures forall j :: 0 <= j < k ==> ChunkMatch(chunks[j], jsonParse).None?
    ensures k < |chunks| ==> ChunkMatch(chunks[k], jsonParse).Some?
  {
    if chunks == [] then 0
    else if ChunkMatch(chunks[0], jsonParse).Some? then 0
    else 1 + FirstMatch(chunks[1..], jsonParse)
  }

  /** `parseStructuredContent(result)` as a value: null for a falsy result,
      a truthy `structuredContent` first, otherwise what the first yielding
      chunk of an array `content` yields, and null when none does. */
  function StructuredContent(result: Value, jsonParse: string -> Option<Value>): (r: Value)
    ensures !Truthy(result) ==> r == Null
    ensures Truthy(result) && Truthy(Get(result, "structuredContent")) ==> r == Get(result, "structuredContent")
    ensures Truthy(result) && !Truthy(Get(result, "structuredContent")) && !Get(result, "content").Arr? ==> r == Null
  {
    if !Truthy(result) then Null
    else if Truthy(Get(result, "structuredContent")) then Get(result, "structuredContent")
    else
      var content := Get(result, "content");
      if !content.Arr? then Null
      else
        var k := FirstMatch(content.items, jsonParse);
        if k < |content.items| then ChunkMatch(content.items[k], jsonParse).value else Null
  }

  /** The scan finds the first chunk that yields, wherever later chunks would yield too. */
  lemma {:induction false} FirstMatchIsFirst(chunks: seq<Value>, jsonParse: string -> Option<Value>, i: nat)
    requires i < |chunks| && ChunkMatch(chunks[i], jsonParse).Some?
    requires forall j :: 0 <= j < i ==> ChunkMatch(chunks[j], jsonParse).None?
    ensures FirstMatch(chunks, jsonParse) == i
  {
    if i > 0 {
      assert ChunkMatch(chunks[0], jsonParse).None?;
      forall j | 0 <= j < i - 1
        ensures ChunkMatch(chunks[1..][j], jsonParse).None?
      {
        assert chunks[1..][j] == chunks[j + 1];
      }
      FirstMatchIsFirst(chunks[1..], jsonParse, i - 1);
    }
  }

  /** A chunk whose text does not parse, and which has no truthy `json`, is skipped. */
  lemma SkipUnparseable(chunk: Value, rest: seq<Value>, jsonParse: string -> Option<Value>)
    requires !Truthy(Get(chunk, "json")) && Get(chunk, "text").Str? && jsonParse(Get(chunk, "text").s).None?
    ensures FirstMatch([chunk] + rest, jsonParse) == 1 + FirstMatch(rest, jsonParse)
  {
    assert ([chunk] + rest)[1..] == rest;
  }

  /** `parseStructuredContent(result)`: the loop over `result.content`,
      returning at the first chunk that yields and moving on past a text
      that does not parse. */
  method ParseStructuredContent(result: Value, jsonParse: string -> Option<Value>) returns (r: Value)
    ensures r == StructuredContent(result, jsonParse)
  {
    if !Truthy(result) {
      return Null;
    }
    var structured := Get(result, "structuredContent");
    if Truthy(structured) {
      return structured;
    }
    var content := Get(result, "content");
    if content.Arr? {
      var chunks := content.items;
      var i := 0;
      while i < |chunks|
        invariant 0 <= i <= |chunks|
        invariant forall j :: 0 <= j < i ==> ChunkMatch(chunks[j], jsonParse).None?
      {
        var chunk := chunks[i];
        var json := Get(chunk, "json");
        if Truthy(json) {
          FirstMatchIsFirst(chunks, jsonParse, i);
          return json;
        }
        var text := Get(chunk, "text");
        if text.Str? {
          var parsed := jsonParse(text.s);
          if parsed.Some? {
            FirstMatchIsFirst(chunks, jsonParse, i);
            return parsed.value;
          }
        }
        i := i + 1;
      }
    }
    return Null;
  }

  /** `callTool` settled, then `parseStructuredContent` and the check that it found something. */
  function ToolOutcome(reply: ToolReply, jsonParse: string -> Option<Value>): (r: Result<Value, Thrown>)
    ensures reply.ToolRejected? ==> r == Err(reply.thrown)
    ensures reply.ToolResolved? ==>
      (r.Ok? <==> Truthy(StructuredContent(reply.result, jsonParse))) &&
      (r.Ok? ==> r.value == StructuredContent(reply.result, jsonParse)) &&
      (r.Err? ==> r.error == Thrown(NoContentMessage))
  {
    match reply
    case ToolRejected(thrown) => Err(thrown)
    case ToolResolved(result) =>
      var structured := StructuredContent(result, jsonParse);
      if !Truthy(structured) then Err(Thrown(NoContentMessage)) else Ok(structured)
  }

  /** The arguments of the `topMovers` call: `{ limit }`. */
  function ToolArgs(limit: int): Value {
    Obj(map["limit" := Num(limit as real)])
  }

  /** `fetchViaTool(limit)` */
  method FetchViaTool(limit: int, env: Environment) returns (r: Result<Value, Thrown>)
    ensures env.bridge.None? ==> r == Err(Thrown(NoBridgeMessage))
    ensures env.bridge.Some? ==> r == ToolOutcome(env.bridge.value(ToolArgs(limit)), env.jsonParse)
  {
    if env.bridge.None? {
      return Err(Thrown(NoBridgeMessage));
    }
    var reply := env.bridge.value(ToolArgs(limit));
    if reply.ToolRejected? {
      return Err(reply.thrown);
    }
    var structured := ParseStructuredContent(reply.result, env.jsonParse);
    if !Truthy(structured) {
      return Err(Thrown(NoContentMessage));
    }
    return Ok(structured);
  }

  /** `/api/top-movers?limit=${limit}`: the endpoint's path and its `limit`
      parameter, which reads back as the limit. */
  function RestUrl(limit: int): (r: string)
    ensures |RestQuery| < |r| && r[..|RestQuery|] == RestQuery
    ensures 1 <= limit <= MaxLimit ==> ParseInt(r[|RestQuery|..]) == Finite(limit as real)
  {
    var r := RestQuery + IntToString(limit);
    assert r[..|RestQuery|] == RestQuery && r[|RestQuery|..] == IntToString(limit);
    if 1 <= limit <= MaxLimit then
      assert OverflowBound > MaxLimit;
      ParseIntOfIntToString(limit);
      r
    else r
  }

  /** `fetchViaRest(limit)` once `fetch` settled: a non-OK response fails
      with its status and the first 120 characters of its body. */
  function RestOutcome(reply: RestReply): (r: Result<Value, Thrown>)
    ensures reply.RestUnreachable? ==> r == Err(reply.thrown)
    ensures reply.RestResponse? && !(200 <= reply.status <= 299) ==>
      r == Err(Thrown("REST fallback failed with status " + IntToString(reply.status) + ": " + Truncate(reply.text, RestBodyLimit)))
    ensures reply.RestResponse? && 200 <= reply.status <= 299 ==> r == reply.json
  {
    match reply
    case RestUnreachable(thrown) => Err(thrown)
    case RestResponse(status, text, json) =>
      if !(200 <= status <= 299) then
        Err(Thrown("REST fallback failed with status " + IntToString(status) + ": " + Truncate(text, RestBodyLimit)))
      else json
  }

  lemma RestFailureMessage(reply: RestReply)
    requires reply.RestResponse? && !(200 <= reply.status <= 299)
    ensures RestOutcome(reply).Err? && RestOutcome(reply).error.Thrown?
    ensures |RestOutcome(reply).error.message| <=
      |"REST fallback failed with status " + IntToString(reply.status) + ": "| + RestBodyLimit
    ensures Truncate(reply.text, RestBodyLimit) <= reply.text
  {
  }

  /** The rows `renderTables` walks for one section: the array, or none. */
  function SectionRows(data: Value, key: string): (r: seq<Value>)
    ensures data.Obj? && key in data.fields && data.fields[key].Arr? ==> r == data.fields[key].items
  {
    var field := Get(data, key);
    if field.Arr? then field.items else []
  }

  /** The first null or undefined row among `rows`, if any. */
  function FirstNullishRow(rows: seq<Value>): (r: Option<Value>)
    ensures r.None? <==> forall i :: 0 <= i < |rows| ==> !Nullish(rows[i])
    ensures r.Some? ==> Nullish(r.value)
  {
    if rows == [] then None
    else if Nullish(rows[0]) then Some(rows[0])
    else FirstNullishRow(rows[1..])
  }

  /** `row.ticker` on a nullish row throws a TypeError. */
  function NullishRowError(row: Value): Thrown {
    Thrown("Cannot read properties of " + (if row.Null? then "null" else "undefined") + " (reading 'ticker')")
  }

  /** What `renderData(data)` throws: nothing, unless a table row is null or
      undefined; only `renderTables` reads a property of a row unguarded,
      section by section. */
  function RenderFailure(data: Value): (r: Option<Thrown>)
    ensures r.None? <==>
      (forall i :: 0 <= i < |SectionRows(data, "topGainers")| ==> !Nullish(SectionRows(data, "topGainers")[i])) &&
      (forall i :: 0 <= i < |SectionRows(data, "topLosers")| ==> !Nullish(SectionRows(data, "topLosers")[i])) &&
      (forall i :: 0 <= i < |SectionRows(data, "mostActivelyTraded")| ==> !Nullish(SectionRows(data, "mostActivelyTraded")[i]))
  {
    var gainers := FirstNullishRow(SectionRows(data, "topGainers"));
    var losers := FirstNullishRow(SectionRows(data, "topLosers"));
    var active := FirstNullishRow(SectionRows(data, "mostActivelyTraded"));
    if gainers.Some? then Some(NullishRowError(gainers.value))
    else if losers.Some? then Some(NullishRowError(losers.value))
    else if active.Some? then Some(NullishRowError(active.value))
    else None
  }

  /** The three status variants. */
  datatype Variant = Accent | Success | Error

  function VariantName(v: Variant): string {
    match v
    case Accent => "accent"
    case Success => "success"
    case Error => "error"
  }

  /** `error instanceof Error ? error.message : 'Failed to load top movers.'` */
  function ErrorMessage(t: Thrown): (r: string)
    ensures t.Thrown? ==> r == t.message
    ensures !t.Thrown? ==> r == FallbackMessage
  {
    if t.Thrown? then t.message else FallbackMessage
  }

  /** One load: the request it sends and what it ends with, data rendered or a thrown error. */
  datatype Outcome = Outcome(request: Request, result: Result<Value, Thrown>)

  /** What the transport `loadMovers` picks delivers: `fetchViaTool` with a
      bridge, `fetchViaRest` without one. */
  function Transported(clamped: int, env: Environment): Result<Value, Thrown> {
    if env.bridge.Some? then ToolOutcome(env.bridge.value(ToolArgs(clamped)), env.jsonParse)
    else RestOutcome(env.rest(RestUrl(clamped)))
  }

  /** The request `loadMovers(limit)` sends and how the `try` block ends: a
      transport error, or the TypeError rendering raises, becomes the load's
      error; otherwise the data is rendered. */
  function LoadOutcome(clamped: int, env: Environment): (r: Outcome)
    ensures env.bridge.Some? ==> r.request == ToolCall(ToolArgs(clamped))
    ensures env.bridge.None? ==> r.request == RestGet(RestUrl(clamped))
    ensures r.result.Ok? <==> Transported(clamped, env).Ok? && RenderFailure(Transported(clamped, env).value).None?
    ensures r.result.Ok? ==> r.result == Transported(clamped, env)
    ensures Transported(clamped, env).Err? ==> r.result == Transported(clamped, env)
    ensures Transported(clamped, env).Ok? && RenderFailure(Transported(clamped, env).value).Some? ==>
      r.result == Err(RenderFailure(Transported(clamped, env).value).value)
  {
    var request := if env.bridge.Some? then ToolCall(ToolArgs(clamped)) else RestGet(RestUrl(clamped));
    var fetched := Transported(clamped, env);
    match fetched
    case Err(t) => Outcome(request, Err(t))
    case Ok(data) =>
      match RenderFailure(data)
      case Some(t) => Outcome(request, Err(t))
      case None => Outcome(request, Ok(data))
  }

  /** The message, variant and tag text of the last `setStatus` of a load. */
  datatype Status = Status(message: string, variant: Variant, tag: string)

  const Bullet: string := "\U{2022}"

  function FinalStatus(clamped: int, viaTool: bool, result: Result<Value, Thrown>): (r: Status)
    ensures result.Err? <==> r.variant == Error
    ensures result.Err? ==> r == Status(ErrorMessage(result.error), Error, "Load failed")
    ensures result.Ok? && viaTool ==> r.variant == Success && r.tag == "Live via ChatGPT tool"
    ensures result.Ok? && !viaTool ==> r.variant == Accent && r.tag == "Preview mode (REST fallback)"
  {
    match result
    case Err(t) => Status(ErrorMessage(t), Error, "Load failed")
    case Ok(_) =>
      if viaTool then
        Status("Live via ChatGPT tool " + Bullet + " " + IntToString(clamped) + " rows per table.", Success, "Live via ChatGPT tool")
      else
        Status("Preview mode (REST fallback) " + Bullet + " " + IntToString(clamped) + " rows per table.", Accent,
               "Preview mode (REST fallback)")
  }

  /** The tool path fails for a resolved result without structured content. */
  lemma ToolWithoutContentFails(clamped: int, env: Environment)
    requires env.bridge.Some?
    requires env.bridge.value(ToolArgs(clamped)).ToolResolved?
    requires !Truthy(StructuredContent(env.bridge.value(ToolArgs(clamped)).result, env.jsonParse))
    ensures FinalStatus(clamped, true, LoadOutcome(clamped, env).result) == Status(NoContentMessage, Error, "Load failed")
  {
  }

  /** A load that does not throw renders the data the transport produced. */
  lemma LoadOutcomeData(clamped: int, env: Environment)
    requires LoadOutcome(clamped, env).result.Ok?
    ensures env.bridge.Some? ==>
      Ok(LoadOutcome(clamped, env).result.value) == ToolOutcome(env.bridge.value(ToolArgs(clamped)), env.jsonParse)
    ensures env.bridge.None? ==>
      Ok(LoadOutcome(clamped, env).result.value) == RestOutcome(env.rest(RestUrl(clamped)))
  {
  }
}
