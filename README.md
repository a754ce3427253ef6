# Gemini translation engine — a Dafny model

This project models the core of a translation-engine addon that sends
batches of strings to Google's Gemini API and maps the answers back onto
the batch. Two source files hold that core:

- `src/Engine/custom.ts`, the generic `CustomEngine`:
  - its option getters;
  - `formatInput`, which cuts the input into batches;
  - the fixed-window rate limiter `executeWithRateLimit` and its `progress` record;
  - result packaging (`buildTranslationResult`, `mockTranslate`);
  - the `translate` entry point and its API-key guard.
- `src/Engine/gemini.ts`, the Gemini `EngineClient`:
  - the response schema built at load time;
  - the post-processing in `fetcher` (sentinel filter, length check, diagnostics, status codes);
  - the tier gate in `execute`;
  - the `model_name` getter and what the constructor configures.

Files and modules:

- `wrappers.dfy` (`Wrappers`): `Option` for `undefined`/`null` and the `??` operator, `Result` for a settled promise.
- `js_text.dfy` (`JsText`): the JavaScript string built-ins the engine relies on:
  - `Array.prototype.join()` with its default comma, and splitting on that comma (to state what a join keeps);
  - the decimal text of a template literal `${i}`;
  - `String.prototype.includes`.
- `batching.dfy` (`Batching`): `formatInput`, proved against the specification function `Chunks`.
- `rate_limit.dfy` (`RateLimit`):
  - the limiter as a pure step `Gate(progress, now, policy) -> (progress', delay)`;
  - `Run`, for a series of calls, with the lemmas about whole windows.
- `custom_engine.dfy` (`Custom`): the class `CustomEngine` and its fields:
  - `options`, the host's option values;
  - `step` and `startTime`, the `progress` record;
  - `started`, the flag set by the mock.
  Its methods update those fields in place. `ExecuteWithRateLimit` is tied to `RateLimit.Gate`.
- `gemini.dfy` (`Gemini`): the schema loop, `Fetcher`, `Execute` (which works on a `CustomEngine`) and the client construction.

Modelling choices:

- Time is an integer number of milliseconds, passed in as `now`. The `setTimeout` wait is returned as `delay`.
- The empty `progress` record `{}` is `step == 0` (a falsy step) with `startTime` cleared to 0.
- The request is started before the gate. The model keeps this: the result of `ExecuteWithRateLimit` is the unthrottled result, whatever the gate decides. The wait only delays the return.
- Which fetcher runs is left open: its settled outcome is a parameter (`fetched`). For Gemini it is `Fetcher(texts, api, parse)`. There, `api` is how the Google call settled, and `parse` stands for the prompt module's `parseResponse`, which is not part of this model.
- The schema's `properties` object is an ordered list of entries with JavaScript property-assignment semantics: an existing key is overwritten in place, a new key is appended. `Object.keys` lists integer-like keys in ascending order. For "0".."24" that is the insertion order, which the model uses.
- `SchemaType.OBJECT` is the text "object".

Behaviours of the code that a reader might not expect, all kept by the model:

- `formatInput` of an empty list gives `undefined` (`None`), not an empty list. A single batch comes back unwrapped (`One`).
- The counter is off by one. A fresh window leaves `step == 2`, so the call that waits is call number `requests`. With `requests <= 1` the limiter never waits (`RateLimit.Counting`).
- A pro model on a free key always aborts (no fetch, no limiter change). It never proceeds with a warning.
- `translate` runs `mockTranslate`. It does not call `execute`.

## Model

| member | source | states |
|---|---|---|
| `Batching.FormatInput` | src/Engine/custom.ts:95-103 | the loop yields exactly the batches of `Chunks`, and they concatenate back to the input; `None` exactly for empty input, `One` (holding the whole input) exactly for 1..n strings, `Many` exactly beyond n |
| `Batching.ChunksFlatten` | src/Engine/custom.ts:95-100 | concatenating the batches in order reproduces the input exactly |
| `Batching.ChunksBounds` | src/Engine/custom.ts:97-99 | every batch has 1..n strings and every batch but the last has exactly n |
| `Batching.ChunksShape` | src/Engine/custom.ts:102 | no batches exactly for an empty list; exactly one batch, the whole list, for 1..n strings |
| `Batching.ChunksCount` | src/Engine/custom.ts:97-99 | there are ceil(\|texts\| / n) batches |
| `RateLimit.Gate` | src/Engine/custom.ts:69-79 | opening a window records `now`, waits 0 and leaves step 2; a non-quota call adds 1 and waits 0; the quota call clears the record; only the quota call can wait; reachable states (step never 1) are preserved |
| `RateLimit.ThrottleDelay` | src/Engine/custom.ts:73-75 | the wait never ends before the window's end and never overshoots it; it is at most one window when the clock has not gone back, and 0 once the window is over |
| `RateLimit.RunPrefix` | src/Engine/custom.ts:67-81 | the waits of the first k calls do not depend on later calls |
| `RateLimit.Counting` | src/Engine/custom.ts:69-79 | after k calls below the quota, step is k+1, the window started at the first call, and no call waited; with a quota of 1 or less this holds for every k |
| `RateLimit.Throttling` | src/Engine/custom.ts:73-79 | call number `requests` waits max(0, window − elapsed since the first call), the calls before it do not wait, and the record is cleared |
| `RateLimit.FreshWindow` | src/Engine/custom.ts:69-79 | the call after a throttled one opens a new window at its own time and does not wait |
| `RateLimit.QuotaRespected` | src/Engine/custom.ts:67-81 | with serial calls, the call after a window's `requests` calls starts no earlier than the window's end |
| `Custom.BuildTranslationResult` | src/Engine/custom.ts:83-93 | succeeds exactly when the fetch did; `source` is the input, `translation` the fetched list, the texts their comma-joins; a fetch error is passed on unchanged |
| `Custom.ResultTextsSplit` | src/Engine/custom.ts:86-87 | the joined texts split back into `source` and `translation` when no string holds a comma |
| `Custom.MockTranslate` | src/Engine/custom.ts:47-61 | `source` is the input and `translation` has one "b" per source string |
| `Custom.CustomEngine.constructor` | src/Engine/custom.ts:8-11 | a new engine starts with an empty `progress` record and the host's options |
| `Custom.CustomEngine.OptionOr` | src/Engine/custom.ts:22-24 | an option's stored value, or the default when unset |
| `Custom.CustomEngine.ApiKey` | src/Engine/custom.ts:22 | the API key is present exactly when stored, and then it is the stored text |
| `Custom.CustomEngine.TargetLanguage` | src/Engine/custom.ts:23 | the stored target language, "English - US" when unset |
| `Custom.CustomEngine.ApiType` | src/Engine/custom.ts:24 | the stored api type, "free" when unset |
| `Custom.CustomEngine.Update` | src/Engine/custom.ts:26-28 | the updated option reads back as the new value through every getter, no other option changes, and the limiter state and its invariant are untouched |
| `Custom.CustomEngine.Translate` | src/Engine/custom.ts:39-45 | a missing or empty key only alerts (no result or error callback); otherwise the mock result is delivered, and `onError` follows only when the host's `onAfterLoading` throws, with that error (the mock itself never rejects); the limiter state and its invariant are untouched |
| `Custom.CustomEngine.ExecuteWithRateLimit` | src/Engine/custom.ts:67-81 | the result is the unthrottled `buildTranslationResult`; the new `progress` and the wait are those of `Gate`; the reachable-state invariant is kept |
| `JsText.SplitJoin` | src/Engine/custom.ts:86-87 | splitting a comma-join gives the list back (non-empty, comma-free elements) |
| `JsText.DecimalText` | src/Engine/gemini.ts:50 | the key text of an index is a non-empty run of digits with no leading zero |
| `JsText.DecimalRoundTrip` | src/Engine/gemini.ts:50 | reading a key back as a number gives its index |
| `JsText.DecimalTextInjective` | src/Engine/gemini.ts:49-51 | distinct indices give distinct keys |
| `JsText.IncludesOccurs` | src/Engine/gemini.ts:172 | `includes` holds exactly when the text occurs at some position |
| `Gemini.Keys` | src/Engine/gemini.ts:52 | `Object.keys` lists every entry's key, in order |
| `Gemini.SetProperty` | src/Engine/gemini.ts:50 | assigning a new key appends an entry; assigning an existing key keeps the keys and their order, gives that key the new type and leaves every other entry's type alone |
| `Gemini.BuildResponseSchema` | src/Engine/gemini.ts:40-52 | an object schema with exactly 25 properties "0".."24" of type "string", in index order; `required` lists those keys in order, each reading back as its index, all distinct |
| `Gemini.DropSentinel` | src/Engine/gemini.ts:157 | the filtered list holds exactly the non-"string" elements and is no longer than the input |
| `Gemini.DropSentinelAppend` | src/Engine/gemini.ts:157 | the filter keeps order: it works piece by piece over a concatenation |
| `Gemini.DropSentinelIdentity` | src/Engine/gemini.ts:157 | the filter leaves a list unchanged exactly when it holds no "string" |
| `Gemini.DropSentinelPadding` | src/Engine/gemini.ts:157 | a run of schema echoes filters to nothing |
| `Gemini.Fetcher` | src/Engine/gemini.ts:149-168 | a rejected call fails with the block reason as status, or "BLOCKED" when there is none; a failing `text()` passes its error on; an answer succeeds exactly when the filtered list has one string per source; a success holds no "string"; a mismatch fails with status 200 and "Failed to parse: …" when nothing is left, else "Unexpected error: length X out of Y." |
| `Gemini.FetcherAsWritten` | src/Engine/gemini.ts:149-168 | as the text stands: no failure is a `TranslationFailException`; a rejected call and a wrong-length answer both fail with the `TypeError` of constructing `undefined`; a failing `text()` passes its error on; success exactly when the filtered answer has one string per source, and then it is that filtered answer |
| `Gemini.UnexportedExceptionLosesStatus` | src/Engine/gemini.ts:10 | the as-written and intended fetchers differ exactly on the failures that should carry a status: a call blocked for "SAFETY" gets its block reason only in the intended one, and a wrong-length answer gets status 200 there but the `TypeError` as written |
| `Gemini.PaddedAnswerAccepted` | src/Engine/gemini.ts:157-168 | an answer of the translations followed by schema echoes is accepted with exactly the translations |
| `Gemini.SentinelTranslationRejected` | src/Engine/gemini.ts:157-165 | a complete answer in which some translation is literally "string" is rejected |
| `Gemini.ModelName` | src/Engine/gemini.ts:56 | the stored model name, "gemini-1.5-flash" when unset |
| `Gemini.Execute` | src/Engine/gemini.ts:171-184 | a free key with a "pro" model aborts without fetching or touching the limiter; another free-tier call goes through `Gate` with 15 requests per 60 s; any other tier fetches directly with no wait and no limiter change; a success has `source` equal to the input and one translation per source |
| `Gemini.NewEngineClient` | src/Engine/gemini.ts:58-68 | the client's request length is 25 (the schema size), its batch delay 1, and no window is open |

## Findings

| source | as written | input that shows it | evidently intended | confidence | as-written member | corrected member |
|---|---|---|---|---|---|---|
| src/Engine/gemini.ts:10 | `TranslationFailException` is destructured from the module of `custom.ts`, whose export (custom.ts:108-111) holds only `CustomEngine`; the name is `undefined`, so `new TranslationFailException(…)` at gemini.ts:150 and gemini.ts:162 throws a `TypeError` | a call rejected with block reason "SAFETY", or any answer of the wrong length | a `TranslationFailException` carrying the block reason (or "BLOCKED") or status 200 with the diagnostic | medium, not executed | `Gemini.FetcherAsWritten` | `Gemini.Fetcher` |

`Gemini.Execute` uses the corrected `Gemini.Fetcher`.

## Left out

- The Google client (`GoogleGenerativeAI`, `getGenerativeModel`, `generateContent`), the prompt and the `safetySettings` constants are foreign library calls. The model keeps only how the call settles: text, a rejection with an optional block reason, or a `text()` that throws.
- `Gemini.Fetcher`: follows the evident intent that both failure paths raise a `TranslationFailException` (see Findings). Also, an error response that carries `response` but no `promptFeedback` would make line 152 throw a `TypeError` while the catch handler runs. The model gives every rejection a block-reason option and does not model that `TypeError`.
- `parseResponse`, `systemPrompt` and `userPrompt` come from `Prompt.js`, which is not part of this model. `parseResponse` is a function parameter and the prompts are not modelled.
- Real time and asynchrony:
  - `performance.now()` (a float) is an integer parameter.
  - The `setTimeout` wait is a returned delay.
  - Promise scheduling is not modelled.
- `Custom.CustomEngine.Translate`: the completion callback passed to `.finally` is not modelled. It is invoked eagerly, while the promise chain is built, and that ordering is promise-scheduling behaviour. A throw in `onAfterLoading` is modelled only by its message (`afterLoadingThrows`), as an `ErrorThrown` handed to `onError`.
- `ui.log` in `mockTranslate`, `alert`, the options form and its `onChange` handler are UI. The alerts are kept only as returned texts.
- Host wiring: the `TranslatorEngine` binding in the constructor, `init`, the no-op `abort`/`pause`/`resume`, and the global `trans.config` mutation. Only the configured values 25 and 1 are kept.
- The base `execute` of `custom.ts` (lines 63-65) and its `fetcher` stub (lines 35-37) are not separate members. The base `execute` only forwards to `buildTranslationResult` (`Custom.BuildTranslationResult`). The stub always throws.
- Option values are strings. The host may store other types; only the `??` defaulting is modelled.
- `esbuild.config.mjs` is build configuration with no logic.
