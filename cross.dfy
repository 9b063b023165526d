/**
 * How the client (public/app.js) and the server (dist/server.js) fit
 * together: the limit the client puts in its REST URL is the one the
 * server reads back, the client finds the payload in the server's tool
 * result whether it reads `structuredContent` or the JSON text, and the
 * two clamps disagree on a zero limit.
 */
module EndToEnd {
  import opened Wrappers
  import opened Js
  import opened Schema
  import opened Transport
  import opened ClientData

  /** The server reads back the limit the client writes into its REST URL
      (`?limit=${clamped}`, a single string parameter). */
  lemma RestUrlLimitRoundTrip(clamped: int)
    requires 1 <= clamped <= MaxLimit
    ensures RestUrl(clamped) == "/api/top-movers?limit=" + IntToString(clamped)
    ensures RestLimit(Some(QString(IntToString(clamped)))) == clamped
  {
    assert OverflowBound > MaxLimit;
    ParseIntOfIntToString(clamped);
  }

  /** `structuredContent` of the server's tool result is the payload, and the
      client takes it. */
  lemma ClientReadsToolEnvelope(data: Payload, stringify: Value -> string, jsonParse: string -> Option<Value>)
    ensures StructuredContent(ToolEnvelope(data, stringify), jsonParse) == PayloadToJson(data)
    ensures ToolOutcome(ToolResolved(ToolEnvelope(data, stringify)), jsonParse) == Ok(PayloadToJson(data))
  {
    assert Truthy(PayloadToJson(data));
  }

  /** The tool result with only its `content`: when `JSON.parse` reads back
      what `JSON.stringify` wrote, the client finds the same payload in the
      text chunk. */
  lemma ClientReadsToolText(data: Payload, stringify: Value -> string, jsonParse: string -> Option<Value>)
    requires jsonParse(stringify(PayloadToJson(data))) == Some(PayloadToJson(data))
    ensures var textOnly := Obj(map["content" := Get(ToolEnvelope(data, stringify), "content")]);
      StructuredContent(textOnly, jsonParse) == PayloadToJson(data)
  {
    var chunk := Obj(map["type" := Str("text"), "text" := Str(stringify(PayloadToJson(data)))]);
    var textOnly := Obj(map["content" := Get(ToolEnvelope(data, stringify), "content")]);
    assert Get(textOnly, "content") == Arr([chunk]);
    assert Get(textOnly, "structuredContent") == Undefined;
    assert Get(chunk, "json") == Undefined;
    assert ChunkMatch(chunk, jsonParse) == Some(PayloadToJson(data));
    assert FirstMatch([chunk], jsonParse) == 0;
  }

  /** A zero limit: the REST handler raises it to 1, the client's clamp
      replaces it with DEFAULT_LIMIT. */
  lemma ZeroLimitClampsDiffer()
    ensures RestLimit(Some(QString("0"))) == 1
    ensures ClampLimit(Some(Finite(0.0))) == DefaultLimit as real
  {
    ParseIntOfDigits("0", false, "0");
  }

  /** On the integers in range both clamps are the identity. */
  lemma ClampsAgreeInRange(n: int)
    requires 1 <= n <= MaxLimit
    ensures RestLimit(Some(QString(IntToString(n)))) == n
    ensures ClampLimit(Some(Finite(n as real))) == n as real
  {
    RestUrlLimitRoundTrip(n);
  }
}
