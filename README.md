# Video script writer: the request handler, modelled in Dafny

The repository is one serverless HTTP handler, `api/script.js`. It takes a
short form (topic, description, duration, format, tone). It fills in a
prompt template, sends the prompt to a completion endpoint, and returns the
text of the reply's content blocks. This project models the handler's
deterministic parts and proves what they promise:

- `JsValues` covers the JavaScript value rules the handler relies on:
  truthiness of a string-or-undefined field, `a || b`, concatenating
  `undefined`, and how a template literal writes an integer. The integer
  rendering and the reading of numerals are proved to be exact inverses.
- `Prompt` holds the two fragment tables and the defaulting of format,
  tone, duration and description. It also holds the duration text and the
  prompt template as thirteen lines.
- `Extraction` has the content-block datatype and the extraction loop, a
  method proved against the fold `Extracted`.
- `Handler` holds the order of the checks (preflight, method, topic, key)
  and the relaying of the endpoint's reply. The endpoint is a function from
  the prompt to what the call produced. `Handle` returns the answer together
  with the prompt it sent, if any, so "the endpoint is not called" is
  something the lemmas can state.

On these edge cases the model follows the code exactly. A parsed
duration of 0 is replaced by 180, like NaN. A negative duration is kept and
written as, for example, "-5 seconds". Seconds are never singular: 1 gives
"1 seconds". Only minutes take the plural rule.

## Model

| member | source | states |
|---|---|---|
| `JsValues.Or` | api/script.js:52-53 | a truthy value is kept; a falsy one (absent or empty) gives the fallback |
| `JsValues.IntToStringReadsBack` | api/script.js:60-61 | the decimal text written for an integer parses back to that integer |
| `JsValues.ReadCanonicalIntWritesBack` | api/script.js:60-61 | a numeral is read exactly when it is written the way a template literal writes an integer, and then it is that integer's written form |
| `JsValues.IntToStringInjective` | api/script.js:60-61 | two integers with the same written text are equal |
| `Prompt.SelectedFormat` | api/script.js:52 | a truthy format name is used as given; otherwise "tutorial" |
| `Prompt.SelectedTone` | api/script.js:53 | a truthy tone name is used as given; otherwise "professional" |
| `Prompt.FormatFragment` | api/script.js:56 | a known format gives its fragment; every other name gives the tutorial fragment |
| `Prompt.ToneFragment` | api/script.js:57 | a known tone gives its fragment; every other name gives the professional fragment |
| `Prompt.FormatFallsBack` | api/script.js:52-56 | a falsy or unknown format name selects the tutorial fragment |
| `Prompt.ToneFallsBack` | api/script.js:53-57 | a falsy or unknown tone name selects the professional fragment |
| `Prompt.FragmentsAlwaysFromTables` | api/script.js:52-57 | whatever the request holds, both chosen fragments are entries of their tables, so no selection fails |
| `Prompt.FormatFragmentAsWritten` | api/script.js:56 | the lookup as written always yields an own fragment or an inherited member, never undefined |
| `Prompt.ToneFragmentAsWritten` | api/script.js:57 | the lookup as written always yields an own fragment or an inherited member, never undefined |
| `Prompt.InheritedKeySkipsFallback` | api/script.js:56-57 | "constructor" is in neither table, yet the as-written lookup returns the inherited member instead of the fallback fragment |
| `Prompt.AsWrittenMissesFallbackOnPrototype` | api/script.js:56-57 | for every `Object.prototype` member name the as-written lookup yields that inherited member |
| `Prompt.AsWrittenAgreesOffPrototype` | api/script.js:56-57 | for every other name the as-written lookup and the corrected lookup give the same fragment |
| `Prompt.DurationSeconds` | api/script.js:54 | NaN and 0 become 180; every other parsed integer, negative ones included, is kept; the result is never 0 |
| `Prompt.DurationTextReadsBack` | api/script.js:59-61 | under 60 the text states the exact seconds; from 60 on it states the whole minutes m (60m <= n < 60m+60) and ends in "s" exactly when m >= 2 |
| `Prompt.NonCanonicalDurationRejected` | api/script.js:59-61 | texts with a leading zero, "-0" or no number are not read as durations |
| `Prompt.DurationTextExamples` | api/script.js:59-61 | 90 and 60 and 119 give "1 minute", 120 gives "2 minutes", 180 gives "3 minutes", 45 gives "45 seconds", -5 gives "-5 seconds" |
| `Prompt.DefaultDurationIsThreeMinutes` | api/script.js:54-61 | without a usable duration the prompt says "3 minutes" |
| `Prompt.UserPrompt` | api/script.js:63-75 | the prompt begins with the "Create a ... video script about: <topic>" line and ends with the closing sentence naming the selected tone |
| `Prompt.PromptIsTemplateLines` | api/script.js:63-75 | with newline-free values the prompt splits into exactly the thirteen template lines |
| `Prompt.UnknownNamesFallBack` | api/script.js:52-75 | for a falsy or unknown format and tone, the Format and Tone lines carry the tutorial and professional fragments while the closing sentence names the raw tone |
| `Prompt.MissingDescriptionUsesPlaceholder` | api/script.js:65 | a falsy description puts "No description provided" on the Description line |
| `Prompt.BuildPromptOpensWithTopic` | api/script.js:63 | the assembled prompt opens with the defaulted duration text and the topic |
| `Extraction.ExtractResult` | api/script.js:115-122 | the loop's accumulated result equals the in-order fold of the pieces of all blocks |
| `Extraction.ExtractedSnoc` | api/script.js:116-121 | each further block appends exactly its piece to the result so far |
| `Extraction.MissingTextAppendsUndefined` | api/script.js:117-118 | a text block without a `text` field appends the word "undefined" |
| `Extraction.MissingThinkingAppendsUndefined` | api/script.js:119-120 | a thinking block without a `thinking` field appends the word "undefined" |
| `Extraction.PresentPayloadAppended` | api/script.js:117-121 | a text block appends its `text` and a thinking block its `thinking`, whatever the other field holds |
| `Extraction.UntaggedBlocksGiveEmpty` | api/script.js:115-122 | blocks none of which has type "text" or "thinking" give the empty result |
| `Extraction.ExtractedAppend` | api/script.js:115-122 | extracting two runs of blocks is the first run's result followed by the second's |
| `Extraction.ExtractedIsConcatenationOfPieces` | api/script.js:115-122 | the fold equals the front-to-back concatenation of the pieces |
| `Extraction.IgnoredBlockAddsNothing` | api/script.js:116-121 | a block of any other type can be removed from any position without changing the result |
| `Extraction.ExtractedExample` | api/script.js:115-122 | [text "A", thinking "B", text "C"] gives "ABC" |
| `Handler.Handle` | api/script.js:29-124 | the endpoint is called exactly for a POST with a truthy topic and a configured key, with the assembled prompt, and then the answer is the relayed reply |
| `Handler.PreflightAlwaysSucceeds` | api/script.js:29-31 | OPTIONS is answered 200 with no body, whatever the body, key or endpoint |
| `Handler.OtherMethodsRefused` | api/script.js:33-35 | any method other than POST and OPTIONS gets 405 "Method not allowed" and no call |
| `Handler.TopicCheckedBeforeKey` | api/script.js:40-50 | 400 "Topic is required" is answered exactly for a POST with a falsy topic, whether or not the key is set; the endpoint is not called |
| `Handler.MissingKeyRefused` | api/script.js:44-50 | a POST with a topic but no key gets 500 "API key not configured" with the guidance message and no call |
| `Handler.UpstreamStatusPassedThrough` | api/script.js:103-109 | a non-ok reply's status is the answer's status, with the reply's body as details |
| `Handler.UpstreamExceptionAnswered500` | api/script.js:126-128 | an exception while calling the endpoint or reading its reply is answered 500 with the exception's message |
| `Handler.DeliveryAnswered200` | api/script.js:112-124 | delivered blocks are answered 200 with the text extracted from them |
| `Handler.OkStatusOnlyForPreflightOrDelivery` | api/script.js:29-124 | the answer is 2xx exactly for a preflight or a delivered reply, and then it is 200 |
| `Handler.DeliveredExample` | api/script.js:112-124 | a reply with [text "A", thinking "B", text "C"] is answered 200 with "ABC" |

## Left out

- CORS headers and the `res.setHeader` / `res.status().json()` calls (api/script.js:25-27): framework output. The model gives the status and the JSON body as values.
- The outbound request itself (api/script.js:78-101): URL, headers, model identifier, token cap, system text, body serialisation. This is network I/O. The endpoint is a function from the prompt to `Threw`, `Rejected` or `Delivered`.
- Reading the key from the process environment (api/script.js:4): the key is a parameter, absent or a string.
- JavaScript `parseInt` on arbitrary values (api/script.js:54): its outcome is an input, `None` for NaN. Numbers beyond 2^53 are left out, and so is their exponent notation when written out. `Math.floor` of the floating-point quotient equals integer division for these integers.
- Body fields that are not strings or absent (numbers, objects, `null`, booleans): each field is a string or absent. A request without a parsed body makes the destructuring throw; that case is not modelled.
- Logging with `console.error`, and the `async`/`await` suspensions: no effect on the answer.
- The catch-all (api/script.js:126-129): any exception during the call or while reading the reply is `Threw(message)` and is answered 500 with that message. An ok reply whose `content` is not iterable (absent, `null`, a number, a boolean, a plain object), or holds a `null` element, makes the loop throw, and it is represented the same way. A `content` string is iterated character by character and no character has a `type`, so it gives the empty result with status 200; the model represents it as `Delivered` of blocks of neither type (`Extraction.UntaggedBlocksGiveEmpty`).
- Block payloads that are neither strings nor missing: a payload field is a string or absent.
- What an inherited member looks like once written into the prompt (the source text of a built-in function): the as-written lookup stops at which member was found.
- The generated script: it comes from the language model.
- Handler.Handle: for a format or tone named after an `Object.prototype` member ("constructor", "toString" and the others in `Prompt.ObjectPrototypeMembers`), the prompt it sends uses the corrected lookup and so carries the tutorial or professional fragment, whereas the source would write the inherited member into the prompt (see Findings).

## Findings

| source | as written | input that shows it | evidently intended | confidence | as-written member | corrected member |
|---|---|---|---|---|---|---|
| api/script.js:56 | The format lookup reads the fragment table as a plain object. It also finds members inherited from `Object.prototype`, which are truthy, so the tutorial fallback is skipped. | format "constructor" (also "toString", "valueOf", "__proto__" and the other inherited names) | every name that is not one of the five formats selects the tutorial fragment | high; not executed | `Prompt.FormatFragmentAsWritten` (counterexample `Prompt.InheritedKeySkipsFallback`) | `Prompt.FormatFragment` (proved by `Prompt.FragmentsAlwaysFromTables` and `Prompt.UnknownNamesFallBack`) |
| api/script.js:57 | The tone lookup has the same flaw: an inherited member name skips the professional fallback. | tone "constructor" | every name that is not one of the four tones selects the professional fragment | high; not executed | `Prompt.ToneFragmentAsWritten` (counterexample `Prompt.InheritedKeySkipsFallback`) | `Prompt.ToneFragment` (proved by `Prompt.FragmentsAlwaysFromTables` and `Prompt.UnknownNamesFallBack`) |

The prompt the rest of the model builds (`Prompt.BuildPrompt`) uses the corrected lookups.
