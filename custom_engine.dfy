/** The generic engine of `custom.ts`: its options, the `progress` record of
    the rate limiter, result packaging and the (mock) `translate` entry point.
    The provider-specific `fetcher` is not called here: its settled outcome
    is passed in as `fetched`. */
module Custom {
  import opened Wrappers
  import JsText
  import RateLimit

  /** The `status` of a `TranslationFailException`: a block reason text or a number. */
  datatype Status = StatusText(text: string) | StatusCode(code: int)

  /** What a failed request rejects with: a `TranslationFailException`, or
      any other error raised on the way (its message only). */
  datatype EngineError =
    | TranslationFailException(message: string, status: Status)
    | ErrorThrown(message: string)

  /** `TranslatorEngineResults`. */
  datatype TranslationResult = TranslationResult(
    sourceText: string,
    translationText: string,
    source: seq<string>,
    translation: seq<string>)

  /** What the host sees from `translate`. */
  datatype HostEvent =
    | Alert(message: string)
    | AfterLoading(result: TranslationResult)
    | OnError(reason: EngineError)

  const NO_API_KEY_ALERT: string := "No API key specified!"
  const DEFAULT_TARGET_LANGUAGE: string := "English - US"
  const DEFAULT_API_TYPE: string := "free"
  const MOCK_TRANSLATION: string := "b"

  /** `buildTranslationResult`: awaits the fetcher and packs the source list
      and the translated list with their comma-joined texts; a rejected
      fetch rejects the result with the same error. */
  function BuildTranslationResult(texts: seq<string>, fetched: Result<seq<string>, EngineError>)
    : (r: Result<TranslationResult, EngineError>)
    ensures r.Success? <==> fetched.Success?
    ensures r.Failure? ==> r.error == fetched.error
    ensures r.Success? ==> r.value.source == texts && r.value.translation == fetched.value
    ensures r.Success? ==> r.value.sourceText == JsText.Join(texts)
    ensures r.Success? ==> r.value.translationText == JsText.Join(fetched.value)
  {
    match fetched
    case Failure(e) => Failure(e)
    case Success(translated) =>
      Success(TranslationResult(JsText.Join(texts), JsText.Join(translated), texts, translated))
  }

  /** The joined texts of a built result hold its lists: splitting them at
      the commas gives the lists back when no string holds a comma. */
  lemma ResultTextsSplit(texts: seq<string>, fetched: Result<seq<string>, EngineError>)
    requires BuildTranslationResult(texts, fetched).Success?
    requires |texts| >= 1 && JsText.SeparatorFree(texts)
    requires |fetched.value| >= 1 && JsText.SeparatorFree(fetched.value)
    ensures var r := BuildTranslationResult(texts, fetched).value;
      JsText.Split(r.sourceText) == r.source && JsText.Split(r.translationText) == r.translation
  {
    JsText.SplitJoin(texts);
    JsText.SplitJoin(fetched.value);
  }

  /** `mockTranslate`: a result whose translation is one "b" per source string. */
  function MockTranslate(texts: seq<string>): (r: TranslationResult)
    ensures r.source == texts
    ensures |r.translation| == |texts|
    ensures forall i :: 0 <= i < |r.translation| ==> r.translation[i] == MOCK_TRANSLATION
    ensures r.sourceText == JsText.Join(texts)
    ensures r.translationText == JsText.Join(r.translation)
  {
    var mock := seq(|texts|, _ => MOCK_TRANSLATION);
    TranslationResult(JsText.Join(texts), JsText.Join(mock), texts, mock)
  }

  /** The engine object: the host's option values, the limiter's `progress`
      record and the `started` flag set by the mock translation. */
  class CustomEngine {
    var options: map<string, string>
    var step: nat
    var startTime: int
    var started: bool
    const maxRequestLength: nat
    const batchDelay: nat

    /** The `progress` record. */
    function Progress(): RateLimit.Progress
      reads this
    {
      RateLimit.Progress(step, startTime)
    }

    ghost predicate Valid()
      reads this
    {
      RateLimit.Reachable(Progress())
    }

    /** A new engine with the host's options and an empty `progress` record. */
    constructor (options: map<string, string>, maxRequestLength: nat, batchDelay: nat)
      ensures Valid() && Progress() == RateLimit.CLEARED && !started
      ensures this.options == options
      ensures this.maxRequestLength == maxRequestLength && this.batchDelay == batchDelay
    {
      this.options := options;
      this.maxRequestLength := maxRequestLength;
      this.batchDelay := batchDelay;
      step := 0;
      startTime := 0;
      started := false;
    }

    /** `getOptions(key) ?? default`. */
    function OptionOr(key: string, default: string): (v: string)
      reads this
      ensures key in options ==> v == options[key]
      ensures key !in options ==> v == default
    {
      if key in options then options[key] else default
    }

    /** `api_key`: the stored key, or `null`. */
    function ApiKey(): (k: Option<string>)
      reads this
      ensures k.Some? <==> "api_key" in options
      ensures k.Some? ==> k.value == options["api_key"]
    {
      if "api_key" in options then Some(options["api_key"]) else None
    }

    /** `!this.api_key`: no key, or the empty (falsy) string. */
    predicate ApiKeyMissing()
      reads this
    {
      ApiKey().None? || ApiKey().value == ""
    }

    /** `target_language`, "English - US" when unset. */
    function TargetLanguage(): (language: string)
      reads this
      ensures "target_language" !in options ==> language == DEFAULT_TARGET_LANGUAGE
      ensures "target_language" in options ==> language == options["target_language"]
    {
      OptionOr("target_language", DEFAULT_TARGET_LANGUAGE)
    }

    /** `api_type`, "free" when unset; any stored text is passed through. */
    function ApiType(): (apiType: string)
      reads this
      ensures "api_type" !in options ==> apiType == DEFAULT_API_TYPE
      ensures "api_type" in options ==> apiType == options["api_type"]
    {
      OptionOr("api_type", DEFAULT_API_TYPE)
    }

    /** `update(option, value)`: the host stores the value, which every getter
      reads from then on; nothing else changes. */
    method Update(option: string, value: string)
      requires Valid()
      modifies this`options
      ensures Valid() && Progress() == old(Progress())
      ensures options == old(options)[option := value]
      ensures OptionOr(option, "") == value
      ensures option == "api_key" ==> ApiKey() == Some(value)
      ensures option == "target_language" ==> TargetLanguage() == value
      ensures option == "api_type" ==> ApiType() == value
      ensures forall k :: k != option ==> OptionOr(k, "") == old(OptionOr(k, ""))
    {
      options := options[option := value];
    }

    /** `translate`: without a key it only alerts (neither result nor error
      callback runs); with one it settles the mock translation, which never
      rejects, and marks the engine as started. The host's `onAfterLoading`
      may itself throw (`afterLoadingThrows`): the `.catch` chained after the
      `.then` then hands that error to `onError`. */
    method Translate(texts: seq<string>, afterLoadingThrows: Option<string>) returns (events: seq<HostEvent>)
      requires Valid()
      modifies this`started
      ensures Valid() && Progress() == old(Progress())
      ensures ApiKeyMissing() ==> events == [Alert(NO_API_KEY_ALERT)] && started == old(started)
      ensures !ApiKeyMissing() && afterLoadingThrows.None? ==>
        events == [AfterLoading(MockTranslate(texts))] && started
      ensures !ApiKeyMissing() && afterLoadingThrows.Some? ==>
        events == [AfterLoading(MockTranslate(texts)), OnError(ErrorThrown(afterLoadingThrows.value))] && started
      ensures forall e :: e in events && e.OnError? ==> afterLoadingThrows == Some(e.reason.message)
    {
      if ApiKeyMissing() {
        return [Alert(NO_API_KEY_ALERT)];
      }
      started := true;
      var result := MockTranslate(texts);
      events := [AfterLoading(result)];
      if afterLoadingThrows.Some? {
        events := events + [OnError(ErrorThrown(afterLoadingThrows.value))];
      }
    }

    /** `executeWithRateLimit`: the request is started first, then the gate
      runs; the gate's wait only delays the return. The result is exactly
      the unthrottled one, and `progress` moves as `Gate` says. */
    method ExecuteWithRateLimit(texts: seq<string>, policy: RateLimit.Policy, now: int,
                                fetched: Result<seq<string>, EngineError>)
      returns (r: Result<TranslationResult, EngineError>, delay: nat)
      requires Valid()
      modifies this`step, this`startTime
      ensures Valid()
      ensures r == BuildTranslationResult(texts, fetched)
      ensures (Progress(), delay) == RateLimit.Gate(old(Progress()), now, policy)
    {
      r := BuildTranslationResult(texts, fetched);
      delay := 0;
      if step == 0 {
        step := 1;
        startTime := now;
      } else if step == policy.requests {
        var execTime := now - startTime;
        var remaining := 1000 * policy.seconds - execTime;
        delay := if remaining > 0 then remaining else 0;
        step, startTime := 0, 0;
      }
      if step != 0 {
        step := step + 1;
      }
    }
  }
}
