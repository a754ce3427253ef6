/** The Gemini engine of `gemini.ts`: the response schema sent with every
    request, the reconciliation of the model's answer with the batch, the
    tier gate in front of the limiter, and what construction configures.
    The Google client itself is reduced to the outcome of its call, and the
    prompt module's `parseResponse` to a function parameter `parse`. */
module Gemini {
  import opened Wrappers
  import JsText
  import RateLimit
  import Custom

  /** `batchSize`: the schema's key count and the host's `maxRequestLength`. */
  const BATCH_SIZE: nat := 25
  /** `SchemaType.OBJECT` and the property type of every key. */
  const OBJECT_TYPE: string := "object"
  const STRING_TYPE: string := "string"
  /** The text the model echoes for a schema key it has nothing for. */
  const SENTINEL: string := "string"
  const DEFAULT_MODEL_NAME: string := "gemini-1.5-flash"
  const PRO_MARKER: string := "pro"
  const BLOCKED: string := "BLOCKED"
  const BAD_BODY_STATUS: int := 200
  const PRO_ON_FREE_ALERT: string := "Cannot use a pro model with a free key! Rate limit is too low (50 requests per day)."
  /** The free tier's quota: 15 requests per 60 seconds. */
  const FREE_TIER_POLICY: RateLimit.Policy := RateLimit.Policy(15, 60)
  /** The `batchDelay` passed to the host (0 would be read as "use the default"). */
  const BATCH_DELAY: nat := 1

  /** One entry `key: { type }` of the schema's `properties` object. */
  datatype Property = Property(key: string, propertyType: string)

  /** `responseSchema`; `properties` in the object's key order. */
  datatype ResponseSchema = ResponseSchema(schemaType: string, properties: seq<Property>, required: seq<string>)

  /** `Object.keys`. */
  function Keys(props: seq<Property>): (ks: seq<string>)
    ensures |ks| == |props|
    ensures forall i :: 0 <= i < |props| ==> ks[i] == props[i].key
  {
    if props == [] then [] else Keys(props[..|props| - 1]) + [props[|props| - 1].key]
  }

  /** `obj[key] = { type }`: overwrites the entry of an existing key in place,
      otherwise appends a new one. */
  function SetProperty(props: seq<Property>, key: string, propertyType: string): (r: seq<Property>)
    ensures key !in Keys(props) ==> r == props + [Property(key, propertyType)]
    ensures key in Keys(props) ==> |r| == |props| && Keys(r) == Keys(props)
    ensures key in Keys(props) ==> forall i :: 0 <= i < |r| ==>
      r[i].propertyType == (if props[i].key == key then propertyType else props[i].propertyType)
  {
    if key in Keys(props) then
      seq(|props|, i requires 0 <= i < |props| =>
        if props[i].key == key then Property(key, propertyType) else props[i])
    else props + [Property(key, propertyType)]
  }

  /** The module-level loop that fills `properties` with the keys "0".."24",
      each of type "string", then sets `required` to the keys. */
  method BuildResponseSchema() returns (schema: ResponseSchema)
    ensures schema.schemaType == OBJECT_TYPE
    ensures |schema.properties| == BATCH_SIZE
    ensures forall i :: 0 <= i < BATCH_SIZE ==>
      schema.properties[i] == Property(JsText.DecimalText(i), STRING_TYPE)
    ensures |schema.required| == BATCH_SIZE
    ensures forall i :: 0 <= i < BATCH_SIZE ==>
      schema.required[i] == schema.properties[i].key && JsText.DecimalValue(schema.required[i]) == i
    ensures forall i, j :: 0 <= i < j < |schema.required| ==> schema.required[i] != schema.required[j]
  {
    var properties: seq<Property> := [];
    var i := 0;
    while i < BATCH_SIZE
      invariant 0 <= i <= BATCH_SIZE
      invariant |properties| == i
      invariant forall j :: 0 <= j < i ==> properties[j] == Property(JsText.DecimalText(j), STRING_TYPE)
    {
      var key := JsText.DecimalText(i);
      assert key !in Keys(properties) by {
        forall j | 0 <= j < i ensures Keys(properties)[j] != key {
          JsText.DecimalTextInjective(j, i);
        }
      }
      properties := SetProperty(properties, key, STRING_TYPE);
      i := i + 1;
    }
    var required := Keys(properties);
    forall k | 0 <= k < BATCH_SIZE ensures JsText.DecimalValue(required[k]) == k {
      JsText.DecimalRoundTrip(k);
    }
    forall k, j | 0 <= k < j < |required| ensures required[k] != required[j] {
      JsText.DecimalTextInjective(k, j);
    }
    schema := ResponseSchema(OBJECT_TYPE, properties, required);
  }

  /** `.filter(text => text !== "string")`. */
  function DropSentinel(xs: seq<string>): (r: seq<string>)
    ensures |r| <= |xs|
    ensures forall s :: s in r <==> s in xs && s != SENTINEL
  {
    if xs == [] then []
    else if xs[0] == SENTINEL then DropSentinel(xs[1..])
    else [xs[0]] + DropSentinel(xs[1..])
  }

  /** The filter keeps order: it works piece by piece. */
  lemma {:induction false} DropSentinelAppend(xs: seq<string>, ys: seq<string>)
    ensures DropSentinel(xs + ys) == DropSentinel(xs) + DropSentinel(ys)
  {
    if xs == [] {
      assert xs + ys == ys;
    } else {
      assert (xs + ys)[1..] == xs[1..] + ys;
      DropSentinelAppend(xs[1..], ys);
    }
  }

  /** The filter changes nothing exactly when there is no sentinel to drop. */
  lemma {:induction false} DropSentinelIdentity(xs: seq<string>)
    ensures DropSentinel(xs) == xs <==> SENTINEL !in xs
  {
    if xs != [] {
      DropSentinelIdentity(xs[1..]);
      if xs[0] == SENTINEL {
        assert |DropSentinel(xs)| < |xs| by {
          assert |DropSentinel(xs[1..])| <= |xs[1..]|;
        }
      } else {
        assert [xs[0]] + xs[1..] == xs;
      }
    }
  }

  /** The filter drops every sentinel. */
  lemma {:induction false} DropSentinelPadding(xs: seq<string>)
    requires forall i :: 0 <= i < |xs| ==> xs[i] == SENTINEL
    ensures DropSentinel(xs) == []
  {
    if xs != [] {
      DropSentinelPadding(xs[1..]);
    }
  }

  /** How the `generateContent` call settled, as far as the engine can see:
      answered with a text; rejected, with the prompt feedback's block
      reason when there is one; or answered with a response whose `text()`
      throws (that error is not caught and propagates as it is). */
  datatype ApiOutcome =
    | Responded(text: string)
    | CallFailed(message: string, blockReason: Option<string>)
    | TextFailed(message: string)

  /** The diagnostic for an answer that does not match the batch. */
  function MismatchMessage(found: nat, expected: nat, response: string): string
  {
    if found == 0 then
      "Failed to parse: " + response
    else
      "Unexpected error: length " + JsText.DecimalText(found) + " out of "
      + JsText.DecimalText(expected) + ".\n\n" + response
  }

  /** `fetcher` after the API call: drop the schema echoes from the parsed
      answer and accept it only when it has one string per source string. */
  function Fetcher(texts: seq<string>, api: ApiOutcome, parse: string -> seq<string>)
    : (r: Result<seq<string>, Custom.EngineError>)
    ensures api.CallFailed? ==> r == Failure(Custom.TranslationFailException(api.message,
      Custom.StatusText(api.blockReason.GetOr(BLOCKED))))
    ensures api.TextFailed? ==> r == Failure(Custom.ErrorThrown(api.message))
    ensures api.Responded? ==> (r.Success? <==> |DropSentinel(parse(api.text))| == |texts|)
    ensures r.Success? ==> api.Responded? && r.value == DropSentinel(parse(api.text))
    ensures r.Success? ==> |r.value| == |texts| && SENTINEL !in r.value
    ensures api.Responded? && r.Failure? ==>
      var found := DropSentinel(parse(api.text));
      r.error == Custom.TranslationFailException(MismatchMessage(|found|, |texts|, api.text),
        Custom.StatusCode(BAD_BODY_STATUS))
  {
    match api
    case CallFailed(message, blockReason) =>
      Failure(Custom.TranslationFailException(message, Custom.StatusText(blockReason.GetOr(BLOCKED))))
    case TextFailed(message) =>
      Failure(Custom.ErrorThrown(message))
    case Responded(response) =>
      var result := DropSentinel(parse(response));
      if |result| != |texts| then
        Failure(Custom.TranslationFailException(MismatchMessage(|result|, |texts|, response),
          Custom.StatusCode(BAD_BODY_STATUS)))
      else Success(result)
  }

  /** The error `new` raises on `undefined`: the module at `custom.ts` exports
      only `CustomEngine`, so the `TranslationFailException` destructured from
      it is `undefined`. */
  const NOT_A_CONSTRUCTOR: string := "TranslationFailException is not a constructor"

  /** `fetcher` as the text stands: both `throw new TranslationFailException(…)`
      sites raise the `TypeError` instead, so no status reaches the caller. */
  function FetcherAsWritten(texts: seq<string>, api: ApiOutcome, parse: string -> seq<string>)
    : (r: Result<seq<string>, Custom.EngineError>)
    ensures r.Failure? ==> !r.error.TranslationFailException?
    ensures api.CallFailed? ==> r == Failure(Custom.ErrorThrown(NOT_A_CONSTRUCTOR))
    ensures api.Responded? ==> (r.Success? <==> |DropSentinel(parse(api.text))| == |texts|)
    ensures api.Responded? && r.Failure? ==> r == Failure(Custom.ErrorThrown(NOT_A_CONSTRUCTOR))
    ensures api.TextFailed? ==> r == Failure(Custom.ErrorThrown(api.message))
    ensures r.Success? ==> api.Responded? && r.value == DropSentinel(parse(api.text))
  {
    match api
    case CallFailed(_, _) => Failure(Custom.ErrorThrown(NOT_A_CONSTRUCTOR))
    case TextFailed(message) => Failure(Custom.ErrorThrown(message))
    case Responded(response) =>
      var result := DropSentinel(parse(response));
      if |result| != |texts| then Failure(Custom.ErrorThrown(NOT_A_CONSTRUCTOR))
      else Success(result)
  }

  /** The two differ exactly on the failures that should carry a status: a
      rejected call and an answer of the wrong length. Elsewhere they agree. */
  lemma UnexportedExceptionLosesStatus(texts: seq<string>, api: ApiOutcome, parse: string -> seq<string>)
    ensures FetcherAsWritten(texts, api, parse) != Fetcher(texts, api, parse) <==>
      Fetcher(texts, api, parse).Failure? && Fetcher(texts, api, parse).error.TranslationFailException?
    ensures api == CallFailed("m", Some("SAFETY")) ==>
      Fetcher(texts, api, parse) == Failure(Custom.TranslationFailException("m", Custom.StatusText("SAFETY"))) &&
      FetcherAsWritten(texts, api, parse) == Failure(Custom.ErrorThrown(NOT_A_CONSTRUCTOR))
    ensures api.Responded? && |DropSentinel(parse(api.text))| != |texts| ==>
      Fetcher(texts, api, parse).error.status == Custom.StatusCode(BAD_BODY_STATUS) &&
      FetcherAsWritten(texts, api, parse) == Failure(Custom.ErrorThrown(NOT_A_CONSTRUCTOR))
  {
  }

  /** A batch smaller than the schema comes back with its translations first
      and a schema echo for every unused key; the filter strips the echoes
      and the batch is accepted with exactly its translations. */
  lemma PaddedAnswerAccepted(texts: seq<string>, translations: seq<string>, padding: seq<string>,
                             response: string, parse: string -> seq<string>)
    requires |translations| == |texts| && SENTINEL !in translations
    requires forall i :: 0 <= i < |padding| ==> padding[i] == SENTINEL
    requires parse(response) == translations + padding
    ensures Fetcher(texts, Responded(response), parse) == Success(translations)
  {
    DropSentinelAppend(translations, padding);
    DropSentinelIdentity(translations);
    DropSentinelPadding(padding);
    assert translations + [] == translations;
  }

  /** A translation that is itself the text "string" is dropped with the
      echoes, so an otherwise complete answer is rejected as too short. */
  lemma SentinelTranslationRejected(texts: seq<string>, response: string, parse: string -> seq<string>)
    requires |parse(response)| == |texts| && SENTINEL in parse(response)
    ensures Fetcher(texts, Responded(response), parse).Failure?
  {
    DropSentinelIdentity(parse(response));
    assert |DropSentinel(parse(response))| < |parse(response)| by {
      var xs := parse(response);
      var i :| 0 <= i < |xs| && xs[i] == SENTINEL;
      assert xs == xs[..i] + [SENTINEL] + xs[i + 1..];
      DropSentinelAppend(xs[..i] + [SENTINEL], xs[i + 1..]);
      DropSentinelAppend(xs[..i], [SENTINEL]);
    }
  }

  /** `model_name`, "gemini-1.5-flash" when unset. */
  function ModelName(engine: Custom.CustomEngine): (name: string)
    reads engine
    ensures "model_name" !in engine.options ==> name == DEFAULT_MODEL_NAME
    ensures "model_name" in engine.options ==> name == engine.options["model_name"]
  {
    engine.OptionOr("model_name", DEFAULT_MODEL_NAME)
  }

  /** A free key with a model whose name contains "pro". */
  predicate ProModelOnFreeTier(engine: Custom.CustomEngine)
    reads engine
  {
    engine.ApiType() == "free" && JsText.Includes(ModelName(engine), PRO_MARKER)
  }

  /** What `execute` settles with: `undefined` after the abort, or the result. */
  datatype ExecuteOutcome = Aborted(alert: string) | Completed(result: Result<Custom.TranslationResult, Custom.EngineError>)

  /** `execute`: a pro model on a free key is refused before any request; a
      free key goes through the limiter with 15 requests per 60 seconds;
      any other tier requests directly. `fetchStarted` tells whether the
      fetcher was called. */
  method Execute(engine: Custom.CustomEngine, texts: seq<string>, now: int,
                 api: ApiOutcome, parse: string -> seq<string>)
    returns (outcome: ExecuteOutcome, fetchStarted: bool, delay: nat)
    requires engine.Valid()
    modifies engine`step, engine`startTime
    ensures engine.Valid()
    ensures ProModelOnFreeTier(engine) ==>
      outcome == Aborted(PRO_ON_FREE_ALERT) && !fetchStarted && delay == 0 &&
      engine.Progress() == old(engine.Progress())
    ensures !ProModelOnFreeTier(engine) ==>
      fetchStarted && outcome == Completed(Custom.BuildTranslationResult(texts, Fetcher(texts, api, parse)))
    ensures !ProModelOnFreeTier(engine) && engine.ApiType() == "free" ==>
      (engine.Progress(), delay) == RateLimit.Gate(old(engine.Progress()), now, FREE_TIER_POLICY)
    ensures engine.ApiType() != "free" ==> delay == 0 && engine.Progress() == old(engine.Progress())
    ensures outcome.Completed? && outcome.result.Success? ==>
      outcome.result.value.source == texts && |outcome.result.value.translation| == |texts|
  {
    if engine.ApiType() == "free" && JsText.Includes(ModelName(engine), PRO_MARKER) {
      return Aborted(PRO_ON_FREE_ALERT), false, 0;
    }
    var fetched := Fetcher(texts, api, parse);
    fetchStarted := true;
    var result;
    if engine.ApiType() == "free" {
      result, delay := engine.ExecuteWithRateLimit(texts, FREE_TIER_POLICY, now, fetched);
    } else {
      result := Custom.BuildTranslationResult(texts, fetched);
      delay := 0;
    }
    outcome := Completed(result);
  }

  /** The `EngineClient` constructor: the host's request length becomes the
      schema's batch size, the batch delay is 1 ms and no window is open. */
  method NewEngineClient(options: map<string, string>) returns (engine: Custom.CustomEngine)
    ensures fresh(engine)
    ensures engine.Valid() && engine.Progress() == RateLimit.CLEARED
    ensures engine.options == options
    ensures engine.maxRequestLength == BATCH_SIZE && engine.batchDelay == BATCH_DELAY
  {
    engine := new Custom.CustomEngine(options, BATCH_SIZE, BATCH_DELAY);
  }
}
