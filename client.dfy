/**
 * The client page's state and event handlers (public/app.js): the
 * module-level `lastLimit`, the limit input's value, the status line and
 * status tag that `setStatus` writes, what is on display, and the requests
 * the page has sent. `loadMovers`, the form's `submit` handler and the
 * `DOMContentLoaded` handler are methods; the transports' answers come in
 * through an `Environment`.
 */
module ClientApp {
  import opened Wrappers
  import opened Js
  import opened Schema
  import opened ClientData

  /** The classes `setStatus` removes before adding the current one. */
  const StatusTagClasses: set<string> := {"tag--accent", "tag--success", "tag--error"}

  const LoadingMessage: string := "Loading data\U{2026}"
  const InvalidLimitMessage: string := "Limit must be between 1 and 20."
  const ErrorColor: string := "var(--loss)"

  function TagClass(v: Variant): (r: string)
    ensures r in StatusTagClasses
  {
    var r := "tag--" + VariantName(v);
    match v
    case Accent => assert r == "tag--accent"; r
    case Success => assert r == "tag--success"; r
    case Error => assert r == "tag--error"; r
  }

  /** `classList.remove('tag--accent', 'tag--success', 'tag--error')`, then
      `classList.add('tag--' + variant)`. */
  function UpdatedTagClasses(classes: set<string>, v: Variant): (r: set<string>)
    ensures r * StatusTagClasses == {TagClass(v)}
    ensures r - StatusTagClasses == classes - StatusTagClasses
  {
    (classes - StatusTagClasses) + {TagClass(v)}
  }

  /** A later `setStatus` overrides an earlier one: the classes depend only
      on the last variant set. */
  lemma UpdatedTagClassesOverride(classes: set<string>, v: Variant, w: Variant)
    ensures UpdatedTagClasses(UpdatedTagClasses(classes, w), v) == UpdatedTagClasses(classes, v)
  {
  }

  /** The limit the `submit` handler accepts from the input's text: the
      parseInt result when it is finite and in [1, MAX_LIMIT], else None. */
  function SubmittedLimit(input: string): (r: Option<int>)
    ensures r.Some? <==> ParseInt(input).Finite? && 1.0 <= ParseInt(input).value <= MaxLimit as real
    ensures r.Some? ==> 1 <= r.value <= MaxLimit && ParseInt(input) == Finite(r.value as real)
  {
    var next := ParseInt(input);
    if !next.Finite? || next.value < 1.0 || next.value > MaxLimit as real then None
    else Some(next.value.Floor)
  }

  /** A limit in range written back into the input is itself accepted. */
  lemma LimitReadsBack(n: int)
    requires 1 <= n <= MaxLimit
    ensures SubmittedLimit(IntToString(n)) == Some(n)
  {
    assert MaxLimit < OverflowBound;
    ParseIntOfIntToString(n);
  }

  /** What the data area shows. */
  datatype View = Blank | Loading | Rendered(data: Value) | Failed(message: string)

  class Page {
    var lastLimit: int
    var inputValue: string
    var statusText: string
    var statusColor: string
    var tagClasses: set<string>
    var tagText: string
    var view: View
    var requests: seq<Request>

    ghost predicate Valid()
      reads this
    {
      1 <= lastLimit <= MaxLimit
    }

    /** The page as the script starts: `lastLimit` is DEFAULT_LIMIT; the
        input and the tag's classes are whatever the markup holds. */
    constructor (initialInput: string, initialTagClasses: set<string>)
      ensures Valid()
      ensures lastLimit == DefaultLimit && inputValue == initialInput
      ensures statusText == "" && statusColor == "" && tagClasses == initialTagClasses && tagText == ""
      ensures view == Blank && requests == []
    {
      lastLimit := DefaultLimit;
      inputValue := initialInput;
      statusText := "";
      statusColor := "";
      tagClasses := initialTagClasses;
      tagText := "";
      view := Blank;
      requests := [];
    }

    /** `setStatus(message, variant, tagText)`; None is an omitted tag text. */
    method SetStatus(message: string, variant: Variant, tag: Option<string>)
      modifies this
      ensures statusText == message
      ensures statusColor == (if variant == Error then ErrorColor else "")
      ensures tagClasses == UpdatedTagClasses(old(tagClasses), variant)
      ensures tagText == tag.GetOr(message)
      ensures lastLimit == old(lastLimit) && inputValue == old(inputValue)
      ensures view == old(view) && requests == old(requests)
    {
      statusText := message;
      statusColor := if variant == Error then ErrorColor else "";
      tagClasses := tagClasses - StatusTagClasses;
      tagClasses := tagClasses + {TagClass(variant)};
      tagText := if tag.Some? then tag.value else message;
    }

    /** The status a load ends with, written by one `setStatus`. */
    ghost predicate ShowsStatus(s: Status, classesBefore: set<string>)
      reads this
    {
      statusText == s.message &&
      statusColor == (if s.variant == Error then ErrorColor else "") &&
      tagClasses == UpdatedTagClasses(classesBefore, s.variant) &&
      tagText == s.tag
    }

    /** What a load of `limit` rows leaves behind: the limit recorded, one
        more request, the final status written over the classes the tag had
        before, and the data or the error on display. */
    ghost predicate Loaded(limit: int, env: Environment, requestsBefore: seq<Request>, classesBefore: set<string>)
      reads this
    {
      var outcome := LoadOutcome(limit, env);
      lastLimit == limit &&
      requests == requestsBefore + [outcome.request] &&
      ShowsStatus(FinalStatus(limit, env.bridge.Some?, outcome.result), classesBefore) &&
      view == (if outcome.result.Ok? then Rendered(outcome.result.value) else Failed(ErrorMessage(outcome.result.error)))
    }

    /** `loadMovers(limit)`: clamp, record the limit, show the loading state,
        then fetch through the bridge when there is one and through REST
        otherwise, render, and report the outcome. */
    method LoadMovers(limit: Option<Number>, env: Environment)
      requires LimitArgument(limit)
      modifies this
      ensures Valid()
      ensures lastLimit as real == ClampLimit(limit)
      ensures Loaded(lastLimit, env, old(requests), old(tagClasses))
      ensures inputValue == old(inputValue)
    {
      ClampLimitIntegral(limit);
      var clamped := ClampLimit(limit).Floor;
      lastLimit := clamped;
      view := Loading;
      SetStatus(LoadingMessage, Accent, None);
      var fetched: Result<Value, Thrown>;
      if env.bridge.Some? {
        requests := requests + [ToolCall(ToolArgs(clamped))];
        fetched := FetchViaTool(clamped, env);
      } else {
        requests := requests + [RestGet(RestUrl(clamped))];
        fetched := RestOutcome(env.rest(RestUrl(clamped)));
      }
      var result := fetched;
      if fetched.Ok? {
        var failure := RenderFailure(fetched.value);
        if failure.Some? {
          result := Err(failure.value);
        }
      }
      assert result == LoadOutcome(clamped, env).result;
      if result.Ok? {
        view := Rendered(result.value);
      } else {
        view := Failed(ErrorMessage(result.error));
      }
      var status := FinalStatus(clamped, env.bridge.Some?, result);
      SetStatus(status.message, status.variant, Some(status.tag));
      UpdatedTagClassesOverride(old(tagClasses), status.variant, Accent);
    }

    /** The `submit` handler's answer to a limit out of range: an error
        status, and the input reset to the last limit loaded. */
    method RejectLimit()
      modifies this
      ensures ShowsStatus(Status(InvalidLimitMessage, Error, "Invalid limit"), old(tagClasses))
      ensures inputValue == IntToString(old(lastLimit))
      ensures lastLimit == old(lastLimit) && requests == old(requests) && view == old(view)
    {
      SetStatus(InvalidLimitMessage, Error, Some("Invalid limit"));
      inputValue := IntToString(lastLimit);
    }

    /** The form's `submit` handler. */
    method Submit(env: Environment)
      requires Valid()
      modifies this
      ensures Valid()
      ensures SubmittedLimit(old(inputValue)).None? ==>
        ShowsStatus(Status(InvalidLimitMessage, Error, "Invalid limit"), old(tagClasses)) &&
        inputValue == IntToString(old(lastLimit)) &&
        lastLimit == old(lastLimit) && requests == old(requests) && view == old(view)
      ensures SubmittedLimit(old(inputValue)).None? ==> SubmittedLimit(inputValue) == Some(lastLimit)
      ensures SubmittedLimit(old(inputValue)).Some? ==>
        Loaded(SubmittedLimit(old(inputValue)).value, env, old(requests), old(tagClasses)) &&
        inputValue == old(inputValue)
    {
      var next := SubmittedLimit(inputValue);
      if next.None? {
        RejectLimit();
        LimitReadsBack(lastLimit);
      } else {
        var limit := Some(Finite(next.value as real));
        assert ClampLimit(limit) == next.value as real;
        LoadMovers(limit, env);
      }
    }

    /** The `DOMContentLoaded` handler: reset the input, show the loading
        state and load DEFAULT_LIMIT rows. */
    method OnContentLoaded(env: Environment)
      modifies this
      ensures Valid()
      ensures inputValue == IntToString(DefaultLimit)
      ensures Loaded(DefaultLimit, env, old(requests), old(tagClasses))
    {
      inputValue := IntToString(DefaultLimit);
      view := Loading;
      SetStatus(LoadingMessage, Accent, None);
      LoadMovers(Some(Finite(DefaultLimit as real)), env);
      UpdatedTagClassesOverride(old(tagClasses), FinalStatus(DefaultLimit, env.bridge.Some?, LoadOutcome(DefaultLimit, env).result).variant, Accent);
    }
  }
}
