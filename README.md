# Top movers: a Dafny model

This project models the two parts of the "top market movers" app that can be reasoned about.

**The server pipeline.** This is `dist/server.js`:
- `parseNumeric` turns loosely formatted upstream strings into numbers.
- `normalizeList` turns upstream records into Instrument rows.
- `fetchTopMovers` does four things in order:
  - checks the credential;
  - checks the tool input schema;
  - makes one upstream request;
  - reads the decoded body defensively and checks the result against the output schema.
- The `topMovers` tool wraps the result in an envelope.
- The `GET /api/top-movers` handler parses and clamps its query limit, and maps a failure to a 500.

**The client data layer.** This is `public/app.js`:
- the `loadMovers` clamp;
- the form's limit check;
- `parseStructuredContent`;
- `fetchViaTool` and `fetchViaRest`;
- `setStatus`, and the status a load ends with;
- the sign and trend rules of the formatters.

The server code is expression-shaped, so it is modelled with functions. `Fetcher.FetchTopMovers` and `Transport.RestTopMovers` return their reply together with the upstream requests they made.

The client page's state is the class `ClientApp.Page`. Its fields are:
- the module-level `lastLimit`;
- the limit input's value;
- the status line, its colour, the status tag's classes and its text;
- what the data area shows;
- the requests sent.

`setStatus`, `loadMovers`, the submit handler and the `DOMContentLoaded` handler are its methods. `parseStructuredContent` keeps its loop: method `ClientData.ParseStructuredContent` is proved against the function `ClientData.StructuredContent`.

## Modules

- `wrappers.dfy` (`Wrappers`): `Option` and `Result`.
- `js.dfy` (`Js`): the JavaScript runtime the programs rely on.
  - JSON values, truthiness, nullishness and property reads.
  - Numbers with their non-finite cases.
  - `Number.parseInt(s, 10)` and `Number.parseFloat(s)` as decimal-prefix grammars, including white-space skipping, the sign, `Infinity`, fractions, exponents and overflow to an infinity.
  - `${n}` for integers.
  - `substring(0, n)`.
- `schema.dfy` (`Schema`):
  - the constants `DEFAULT_LIMIT`, `MAX_LIMIT` and the literal `source`;
  - the Instrument and payload records and the server's errors;
  - the tool input and output schemas;
  - the payload's JSON form.
- `normalizer.dfy` (`Normalizer`): `parseNumeric`, its cleaning step, and `normalizeList`.
- `fetcher.dfy` (`Fetcher`): `fetchTopMovers`. The upstream `fetch` is a function parameter.
- `transport.dfy` (`Transport`): the tool envelope and the REST handler.
- `scenarios.dfy` (`Scenarios`): a rate-limited upstream response, a record with a numeric price, the parse of `.5`, and the coercion of a typical record's price, change and percentage strings.
- `client_format.dfy` (`ClientFormat`): `pickTrendClass`, `formatPercent` and `formatSignedCurrency`. The digits come from a `toFixed` parameter.
- `client_data.dfy` (`ClientData`):
  - the client's clamp, the content scan and the two transports;
  - the one failure rendering can raise;
  - the status a load ends with.
- `client.dfy` (`ClientApp`): the page state and its event handlers.
- `cross.dfy` (`EndToEnd`): how client and server fit together.

## Where the code and its description differ

The clamp on `dist/server.js:67` reads as if an out-of-range tool limit were meant to be clamped into [1, 20].

It never is. The input schema (`dist/server.js:17`, applied at line 66) rejects any limit that is not an integer in [1, 20] first, before a request is made. The clamp therefore never changes a value.

The model follows the code:
- `Fetcher.OutOfRangeLimitRejected` proves the rejection.
- `Fetcher.NormalizedLimitOfToolInput` proves the clamp is the identity.

`parseNumeric` (`dist/server.js:42-49`) calls `replace` on any truthy value that is not a string. A record carrying a field as a JSON number, such as `"price": 12.5`, therefore makes the whole fetch fail on both transports. `Scenarios.NumericPriceFailsFetch` shows this. The upstream sends these fields as strings, so the model keeps the code's behaviour rather than correcting it.

The REST handler clamps a zero limit to 1, while the client's `Number(limit) || 5` turns zero into 5. `EndToEnd.ZeroLimitClampsDiffer` states both.

## Model

| member | source | states |
|---|---|---|
| Js.ToNumber | dist/server.js:47-48 | a real becomes a finite number exactly below the overflow bound in magnitude, and keeps its value; above it, an infinity of its sign; never NaN |
| Js.TrimStart | dist/server.js:47 | the white-space-trimmed text is a suffix of the input |
| Js.TrimStartRemovesWhiteSpace | dist/server.js:47 | everything trimmed is ECMAScript white space |
| Js.TrimStartKeepsNonSpace | dist/server.js:47 | what is kept is empty or starts with something other than white space |
| Js.LeadingDigits | dist/server.js:134 | the digit run is a prefix, all digits, and maximal |
| Js.SplitSign | dist/server.js:134 | an optional sign is removed: the rest is a suffix at most one char shorter, and "negative" implies a leading '-' |
| Js.Truncate | dist/server.js:74 | `substring(0, n)` is the prefix of length min(len, n) |
| Js.ParseInt | dist/server.js:134 | a finite parseInt result is an integer |
| Js.Fraction | dist/server.js:47 | the fraction digits are digits, and are non-empty only after a '.' followed by a digit |
| Js.DecimalPrefix | dist/server.js:47 | a decimal literal starts with a digit or '.', and its value is never negative |
| Js.ParseFloat | dist/server.js:47 | a finite parseFloat result lies strictly within the overflow bound |
| Js.NatToString | dist/server.js:74 | `${n}` of a natural number is a non-empty digit string |
| Js.IntToString | public/app.js:384 | `${n}` is digits, with a leading '-' for a negative number |
| Js.NatToStringValue | public/app.js:332 | the digits written for n have value n |
| Js.LeadingDigitsOfDigits | dist/server.js:134 | the digit run of an all-digit string is the whole string |
| Js.ParseIntOfDigits | dist/server.js:134 | parseInt of an optional '-' and digits is their signed value |
| Js.ParseIntOfIntToString | dist/server.js:134 | parseInt reads back any integer `${n}` wrote (round trip) |
| Js.ParseFloatOfDigits | dist/server.js:47 | parseFloat of a digit string is its value |
| Js.ParseFloatOfNatToString | dist/server.js:47 | parseFloat reads back the digits of a natural number |
| Js.DecimalPrefixOfFixedPoint | dist/server.js:47 | the literal `whole.fraction` (either part may be empty, not both) has the value whole + fraction / 10^len |
| Js.ParseFloatOfDecimal | dist/server.js:47 | parseFloat of a decimal literal (`12`, `12.5` or `.5`, with an optional exponent), optionally after '+', is its value when it is below the overflow bound |
| Js.ParseFloatFiniteDecimal | dist/server.js:47 | a finite parseFloat result comes from a decimal literal after the sign (not from `Infinity`) |
| Js.ParseFloatOfNegatedDecimal | dist/server.js:47 | parseFloat of a decimal literal after '-' is the negation of its value when that value is below the overflow bound |
| Js.ParseFloatWithoutDigits | dist/server.js:47-48 | text without a digit never parses to a finite number |
| Schema.InstrumentsToJson | dist/server.js:29-31 | each Instrument's JSON form, element by element |
| Schema.ParseInstrument | dist/server.js:19-25 | the Instrument schema fails only with the output validation error |
| Schema.ParseInstruments | dist/server.js:29-31 | an array passes exactly when every element does, with the elements read in order |
| Schema.ParseInstrumentArray | dist/server.js:29-31 | only an array can pass |
| Schema.ParseLastUpdated | dist/server.js:28 | `lastUpdated` passes exactly when it is a string or null, and serialises back unchanged |
| Schema.ParseOutput | dist/server.js:26-34 | the output schema fails only with the output validation error |
| Schema.Message | dist/server.js:63-75 | `error.message`: a rejected fetch's or failed decode's reason passes through unchanged, a failed-status message ends with the body's start, and every message the server writes itself is non-empty |
| Schema.ParseToolInput | dist/server.js:16-18 | defaults a missing input or limit to 5; accepts a number exactly when it is an integer in [1, 20], and keeps it; rejects every other input |
| Schema.InstrumentObjectTicker | dist/server.js:55 | the row object's ticker is the one it was built with |
| Schema.ParseInstrumentToJson | dist/server.js:19-25 | every Instrument passes its schema unchanged (round trip) |
| Schema.ParseInstrumentObject | dist/server.js:19-25 | a normalised row passes exactly when its ticker is a string |
| Schema.ParseInstrumentsToJson | dist/server.js:29-31 | every Instrument list passes unchanged |
| Schema.OutputObjectFields | dist/server.js:82-88 | the payload object has the literal source and the given `lastUpdated` and lists |
| Schema.ParseOutputOfFields | dist/server.js:26-34 | an object whose five fields pass yields the payload they describe |
| Schema.ParseOutputOfPayloadToJson | dist/server.js:26-34 | encoding a payload and parsing it back is lossless |
| Normalizer.Clean | dist/server.js:46 | the cleaned text is no longer and contains no '%', ',' or '$' |
| Normalizer.ParseNumeric | dist/server.js:42-49 | falsy gives 0; a string gives its cleaned parse when finite, else 0; a truthy non-string throws |
| Normalizer.RecordOf | dist/server.js:53 | `item ?? {}` is never nullish: the item itself, or an object without fields |
| Normalizer.TickerOf | dist/server.js:55 | `item.ticker ?? 'N/A'` is never nullish: the record's ticker when present, else "N/A" |
| Normalizer.NormalizeEntry | dist/server.js:53-60 | a row is built exactly when all four numeric fields coerce, with the ticker or "N/A" and the four coerced numbers |
| Normalizer.NormalizeRows | dist/server.js:54-60 | every record normalises or the map throws; output i is the row of record i |
| Normalizer.NormalizeList | dist/server.js:50-61 | the first min(len, limit) records, in order, each normalised; errors only when one of them throws |
| Normalizer.CleanAppend | dist/server.js:46 | cleaning distributes over concatenation, so it keeps order |
| Normalizer.CleanCounts | dist/server.js:46 | cleaning removes every '%', ',' and '$' and keeps every other character as often as it occurs |
| Normalizer.CleanOfUnstripped | dist/server.js:46 | text without those characters is untouched |
| Normalizer.CleanKeepsNoDigit | dist/server.js:46 | cleaning adds no digit |
| Normalizer.ParseNumericWithoutDigits | dist/server.js:42-49 | a string without a digit coerces to exactly 0 |
| Normalizer.ParseNumericOfNatToString | dist/server.js:42-49 | the digits of a natural number coerce to that number |
| Normalizer.NormalizeNullishEntry | dist/server.js:53-59 | a null or undefined record gives ticker "N/A" and four zeros |
| Normalizer.NormalizedTicker | dist/server.js:55 | a row's ticker is the record's ticker, or "N/A" when that is nullish |
| Normalizer.NormalizeKeepsTicker | dist/server.js:55 | a present ticker is passed through unchanged |
| Normalizer.NormalizeWellTypedEntry | dist/server.js:53-59 | a record whose fields are strings or nullish always normalises, to a row with a string ticker |
| Fetcher.NormalizedLimit | dist/server.js:67 | the clamp lies in [1, 20] and is the identity in range |
| Fetcher.ListField | dist/server.js:77-81 | an array field is read as is; anything else as the empty list |
| Fetcher.LastUpdatedField | dist/server.js:84 | `lastUpdated` is the upstream string, or null when the field is not a string |
| Fetcher.AssembleOutput | dist/server.js:82-88 | assembling the payload fails only when a numeric field throws |
| Fetcher.Digest | dist/server.js:71-89 | after the request, the fetch never fails with the credential or input error |
| Fetcher.FetchTopMovers | dist/server.js:62-90 | at most one request; none and the credential error without a key; none and the input error for a rejected input; otherwise one request for TOP_GAINERS_LOSERS with the key, whose response decides the reply |
| Fetcher.NormalizedLimitOfToolInput | dist/server.js:66-67 | the clamp never changes a limit the schema accepted |
| Fetcher.OutOfRangeLimitRejected | dist/server.js:62-67 | an integral limit outside [1, 20] is rejected before any request |
| Fetcher.UpstreamUnreachableFails | dist/server.js:71 | a rejected `fetch` is not retried: the fetch fails at once with the rejection's own message |
| Fetcher.UpstreamFailure | dist/server.js:72-75 | a non-OK status fails with a message carrying the status and at most the first 200 chars of the body |
| Fetcher.ParseNormalizedEntry | dist/server.js:54-60 | a normalised row passes the Instrument schema exactly when its ticker is a string, and the Instrument serialises back to the row |
| Fetcher.ParseNormalizedList | dist/server.js:50-61 | the Instruments read back match the upstream entries one by one |
| Fetcher.DigestOk | dist/server.js:71-89 | success needs a response (not a rejected `fetch`) with an OK status, a decoded body that is not nullish, and successful assembly |
| Fetcher.AssembleOutputFields | dist/server.js:76-88 | the assembled object's five fields: source literal, `lastUpdated`, and the three normalised lists |
| Fetcher.ParseAssembledOutput | dist/server.js:76-89 | the payload's `lastUpdated` and lists are what the upstream body determines |
| Fetcher.FetchSuccess | dist/server.js:62-90 | a success had a key, a valid input and exactly one request; `lastUpdated` is the upstream string or null; each list is the first `limit` upstream entries, normalised and in order (empty when the field is absent or not an array), with at most 20 rows |
| Fetcher.WellTypedListParses | dist/server.js:50-61 | a list of string-or-nullish records normalises, and every row passes the schema |
| Fetcher.InstrumentTickerString | dist/server.js:55 | a row with a string ticker passes the schema |
| Fetcher.WellTypedResponseSucceeds | dist/server.js:76-89 | an OK response whose records are string-or-nullish always yields a payload |
| Transport.ToolEnvelope | dist/server.js:98-106 | the tool result's `structuredContent` is the payload, and its `content` is one text chunk with the stringified payload |
| Transport.TopMoversTool | dist/server.js:96-107 | the tool fails exactly when the fetch fails, with its error; otherwise it returns the envelope of the payload |
| Transport.LimitCandidate | dist/server.js:128-133 | a string is used as is, a non-empty list's first element, an empty list "undefined" (`String(undefined)`); an absent or object parameter gives no candidate |
| Transport.RestLimit | dist/server.js:128-137 | the REST limit always lies in [1, 20] |
| Transport.RestTopMovers | dist/server.js:138-145 | the handler makes the fetch's requests and answers 200 with the payload or 500 with the error's message |
| Transport.RestLimitDefault | dist/server.js:134-137 | an absent (or object) parameter gives 5 |
| Transport.RestLimitNotNumeric | dist/server.js:134-137 | a parameter parseInt finds no number in gives 5 |
| Transport.RestLimitClamps | dist/server.js:135-137 | below 1 gives 1, above 20 gives 20, in range is kept |
| Transport.RestLimitFirstOfList | dist/server.js:131-132 | of a repeated parameter only the first counts |
| Transport.RestInput | dist/server.js:139 | the handler's `{ limit }` carries an integer in [1, 20] |
| Transport.ErrorBody | dist/server.js:144 | the 500 body is an object whose one field `error` is the error's message |
| Transport.RestMissingKey | dist/server.js:142-144 | without the key no request is made and the answer is 500 with the missing-key message |
| Transport.RestUpstreamUnreachable | dist/server.js:142-144 | when `fetch` rejects, the one request was made and the answer is 500 with the rejection's reason |
| Transport.RestInputAccepted | dist/server.js:135-139 | the handler's `{ limit }` always passes the tool input schema |
| Transport.RestNeverInvalidInput | dist/server.js:135-139 | so the REST fetch never fails on its input |
| Transport.RestAgreesWithTool | dist/server.js:127-146 | a REST parameter reading as a limit in range makes the same request as the tool with that limit; it answers 200 exactly when the tool succeeds, with the same payload, and otherwise 500 with the tool's error message |
| Scenarios.RateLimited | dist/server.js:72-75 | a 503 "rate limited" response fails with status 503 and body "rate limited", whatever it decodes to |
| Scenarios.NumericPriceFailsFetch | dist/server.js:46 | an OK body whose first gainer has a JSON-number price fails the whole fetch with the `replace` TypeError |
| Scenarios.LeadingPointParse | dist/server.js:47 | parseFloat reads `.5`, a literal without integer digits, as 0.5 |
| Scenarios.PriceExample | dist/server.js:42-49 | "$12.50" coerces to 12.5 |
| Scenarios.ChangeExample | dist/server.js:42-49 | "+1.10" coerces to 1.1 |
| Scenarios.PercentExample | dist/server.js:42-49 | "9.65%" coerces to 9.65 |
| ClientFormat.Abs | public/app.js:59 | the absolute value is non-negative and equals x or -x |
| ClientFormat.SignPrefix | public/app.js:58 | '+' exactly for positive, '-' exactly for negative, nothing exactly for zero |
| ClientFormat.FormatPercent | public/app.js:62-66 | a dash for a non-number; otherwise exactly the sign prefix, then the magnitude's `toFixed(2)` digits, then a closing '%' |
| ClientFormat.FormatSignedCurrency | public/app.js:56-60 | a dash for a non-number; otherwise exactly the sign prefix, then '$', then the magnitude's `toFixed(2)` digits |
| ClientFormat.PickTrendClass | public/app.js:71-74 | "positive" exactly for a positive number, "negative" exactly for a negative, "" for zero or a non-number |
| ClientFormat.PercentSignMatchesTrend | public/app.js:62-66 | a percentage starts with '+' or '-' exactly when its trend class is positive or negative |
| ClientFormat.CurrencySignMatchesTrend | public/app.js:56-60 | the same for a signed amount, which starts with '$' exactly for zero |
| ClientFormat.PercentOfNegation | public/app.js:62-66 | opposite values show the same digits with opposite signs |
| ClientFormat.CurrencyOfNegation | public/app.js:56-60 | the same for a signed amount |
| ClientData.ClampLimit | public/app.js:345 | lies in [1, 20]; an absent argument, NaN or 0 gives 5; +Infinity gives 20, -Infinity gives 1; other finite values are clamped |
| ClientData.ClampLimitIntegral | public/app.js:345 | an integral (or absent or non-finite) argument clamps to an integer |
| ClientData.ChunkMatch | public/app.js:303-312 | a truthy `json` is taken; otherwise a string `text` is parsed; otherwise the chunk is skipped |
| ClientData.FirstMatch | public/app.js:302-313 | the position found is the first chunk that yields a value, or the end |
| ClientData.StructuredContent | public/app.js:292-317 | null for a falsy result; a truthy `structuredContent` first; null when `content` is not an array |
| ClientData.FirstMatchIsFirst | public/app.js:302-313 | the scan stops at the first yielding chunk whatever follows it |
| ClientData.SkipUnparseable | public/app.js:306-311 | a chunk whose text does not parse is skipped |
| ClientData.ParseStructuredContent | public/app.js:292-317 | the loop returns what `StructuredContent` describes |
| ClientData.ToolOutcome | public/app.js:323-328 | a rejected call fails with its error; a resolved one yields truthy extracted content or fails with "did not return structured content" |
| ClientData.FetchViaTool | public/app.js:319-329 | without a bridge it fails with "callTool is not available"; otherwise it is the outcome of the call |
| ClientData.RestUrl | public/app.js:332 | the URL is the endpoint's path with a `limit` parameter that parseInt reads back as the limit |
| ClientData.RestOutcome | public/app.js:331-340 | a non-2xx response fails with its status and the first 120 chars of its body; a 2xx one yields its decoded body |
| ClientData.RestFailureMessage | public/app.js:333-337 | that message is bounded by the prefix plus 120 characters, and the body part is a prefix of the body |
| ClientData.SectionRows | public/app.js:220 | an array section is walked as is |
| ClientData.FirstNullishRow | public/app.js:256-259 | none exactly when no row is null or undefined |
| ClientData.RenderFailure | public/app.js:217-266 | rendering throws exactly when some table row is null or undefined |
| ClientData.LoadOutcome | public/app.js:350-369 | with a bridge the page sends the tool call, else the REST request; the load succeeds exactly when that transport's result (`ClientData.Transported`: `fetchViaTool` with a bridge, `fetchViaRest` without) succeeds and its data renders without a TypeError; otherwise the transport's error, or else the rendering TypeError, is the load's error |
| ClientData.FinalStatus | public/app.js:352-375 | failure gives the error variant, the error's message and "Load failed"; success over the tool gives "success" and "Live via ChatGPT tool"; over REST, "accent" and "Preview mode (REST fallback)" |
| ClientData.ToolWithoutContentFails | public/app.js:324-327 | a tool result without structured content ends in the "did not return structured content" error status |
| ClientData.ErrorMessage | public/app.js:371-372 | an `Error`'s own message, and "Failed to load top movers." for anything else thrown |
| ClientData.LoadOutcomeData | public/app.js:352-362 | a successful load renders the data its transport produced |
| ClientApp.TagClass | public/app.js:288 | the class added is one of the three status classes |
| ClientApp.UpdatedTagClasses | public/app.js:287-288 | afterwards exactly one status class is present, `tag--<variant>`, and the other classes are untouched |
| ClientApp.UpdatedTagClassesOverride | public/app.js:287-288 | a second `setStatus` overrides the first's class |
| ClientApp.SubmittedLimit | public/app.js:380-381 | accepted exactly when parseInt gives a finite value in [1, 20], and that value is used |
| ClientApp.LimitReadsBack | public/app.js:380-384 | the input a rejection restores, `String(lastLimit)`, is accepted by the submit check and parses back to that limit |
| ClientApp.Page.constructor | public/app.js:342 | `lastLimit` starts at 5, nothing has been requested |
| ClientApp.Page.SetStatus | public/app.js:283-290 | sets the message, red exactly for errors, the tag's classes, the tag text (`tagText ?? message`); nothing else changes |
| ClientApp.Page.LoadMovers | public/app.js:344-376 | `lastLimit` becomes the clamp, one request is sent (tool call with a bridge, REST URL otherwise), the final status and view follow the outcome, and the input is untouched |
| ClientApp.Page.RejectLimit | public/app.js:381-386 | the invalid-limit error status, the input reset to `lastLimit`, no request and no other change |
| ClientApp.Page.Submit | public/app.js:378-388 | an unacceptable input is rejected as above, and the restored input is itself acceptable and reads back as the last limit; an acceptable one loads exactly that limit |
| ClientApp.Page.OnContentLoaded | public/app.js:390-395 | the input shows 5 and a load of 5 rows follows |
| EndToEnd.RestUrlLimitRoundTrip | public/app.js:332 | the server reads back the limit the client writes into its REST URL |
| EndToEnd.ClientReadsToolEnvelope | public/app.js:297-298 | the client takes the server's payload from `structuredContent` |
| EndToEnd.ClientReadsToolText | public/app.js:301-313 | with only the text chunk, the client still finds the payload when `JSON.parse` inverts `JSON.stringify` |
| EndToEnd.ZeroLimitClampsDiffer | public/app.js:345 | a zero limit becomes 1 on the server and 5 in the client |
| EndToEnd.ClampsAgreeInRange | dist/server.js:135-137 | on integers in [1, 20] both clamps are the identity |

## Left out

- The Express setup, static files, the SPA fallback, `listen` and the port parse (dist/server.js:39-41, 147-162) are left out. They are I/O.
- The `/mcp` endpoint (dist/server.js:108-126) and the MCP SDK's wiring are left out. They are a foreign library and the network. A tool error is modelled as the `Err` reply the SDK turns into a tool failure.
- Console logging and the startup warning about a missing key are left out.
- The upstream `fetch` is the parameter `upstream`. For the one request, identified by its operation and key, it gives either a response (a status, a text and the outcome of `response.json()`) or the reason `fetch` rejected. The URL building is not modelled.
- `JSON.stringify` and `JSON.parse` are parameters. Only their round trip is assumed, where a lemma says so.
- Zod's internals and its error texts are left out. The schemas are functions, and the two validation errors carry fixed placeholder messages.
- Numbers are reals. Finite results are not rounded to doubles: parseFloat yields the exact decimal, and no double rounding is modelled. Overflow to an infinity uses the round-to-nearest threshold.
- Strings are sequences of code points. `substring` and `slice` count UTF-16 units, so the 200- and 120-character cuts differ on text outside the Basic Multilingual Plane.
- Js.IntToString: writes every integer in plain digits. JavaScript switches to exponent notation from 10^21 on, but the model only writes HTTP statuses and limits.
- All DOM construction and rendering is left out. The only part modelled is the `TypeError` that `renderTables` throws on a null or undefined row, which ends a load in the error state.
- `toFixed`, `Intl.NumberFormat` and `Math.round` are left out. `formatPercent` and `formatSignedCurrency` take the digits as a parameter. `formatPrice` and `formatVolume` have no sign rule and are not modelled.
- ClientApp.Page.LoadMovers: requires an absent, non-finite or integral argument. Every caller passes `parseInt`'s result or 5, and the status text writes the clamp as an integer.
- One load at a time: the `async` steps of `loadMovers` run as one method. The race between overlapping loads is not modelled.
- The model reads no property of `window` other than the presence of `openai.callTool`.
- `src/tunnel.ts` is not part of this model.
- No lemma computes `parseNumeric("1,234,500")`. `Normalizer.CleanCounts` covers the removal of the separators and `Normalizer.ParseNumericOfNatToString` covers the digits.
- Transport.TopMoversTool: models the handler body only. `registerTool` passes `inputSchema: toolInputShape` (dist/server.js:94), and the SDK checks the arguments against it before calling the handler. Over MCP an invalid limit is therefore rejected even when the key is missing; that ordering belongs to the SDK and is not modelled.
