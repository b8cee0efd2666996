# Agent relay — a Dafny model

The repository is a small Next.js application whose one piece of logic is an
HTTP relay (`app/api/agent/route.ts`): a caller describes a request (url,
method, headers, body), the relay sends it with a 20-second deadline and
answers with one uniform record — `ok`, `status`, `statusText`, `headers`,
`data` or `text`, `error`, `durationMs` — whatever happened upstream.

This project models that relay in Dafny and proves what it promises:

- `wrappers.dfy` — `Option` and `Result`.
- `js.dfy` (module `Js`) — the JavaScript semantics the relay leans on:
  JSON values plus `undefined`, truthiness, `== null`, `typeof`, `String(v)`,
  `Object.entries`, property reads, `includes`, `startsWith`, `toUpperCase`.
- `platform.dfy` (module `Platform`) — the runtime around the relay: the
  shape of a `fetch` outcome (a response whose body read may itself reject,
  or a rejection), a `Transport` class standing for the network that records
  every request it is asked to send, and a `TimerTable` class standing for
  `setTimeout`/`clearTimeout` with its set of pending handles.
- `route.dfy` (module `Route`) — `normalizeHeaders` (a loop, proved against
  a specification function), `fetchWithTimeout` (a method that arms the
  timer, sends once, builds the record and clears the timer, proved against
  the function `Settled`), and the `POST` and `GET` handlers.
- `route_as_written.dfy` (module `RouteAsWritten`) — two places where the
  code, as the runtime evaluates it, does not do what it sets out to do (see
  "## Findings"); the rest of the model uses the intended behaviour.

Inputs the relay cannot see are parameters: the outcome of the network call
(fixed per `Transport`), JSON parsing (`parse: string -> Option<JsValue>`,
`None` for a syntax error) and the clock (a `Clock` value with the three
`Date.now()` readings the code can take: at the start, when `fetch`
resolves, and in the `catch`).

Behaviour of the code that a reader might not expect, and which the model keeps:

- `ok` is the upstream response's own flag (status 200 to 299, section 2.2.3
  of the WHATWG Fetch Standard), not "the exchange completed": a 404 gives
  `ok: false` with status 404 and no error (`Route.NotFoundIsNotOk`). What
  always holds is `ok ==> 200 <= status <= 299`, and an error comes with
  status 0 (`Route.Uniform`).
- Neither handler passes a deadline, so every request runs under the default
  20000 ms; a `timeoutMs` in the request body is ignored.
- JSON is recognised by a case-sensitive substring test for
  `application/json`; `text/*` and every other type are read as text alike.
- `durationMs` on a completed exchange is measured when `fetch` resolves,
  before the body is read; on a failure it is measured in the `catch`.
- A response header list is taken in the order the runtime's `Headers`
  object iterates it; a repeated name (only `set-cookie` repeats) keeps its
  last value.

## Model

| member | source | states |
|---|---|---|
| `Route.NormalizedHeaders` | app/api/agent/route.ts:6-13 | a null, undefined or non-object input gives the empty record; otherwise no key outside the input's entry keys |
| `Route.HeadersFrom` | app/api/agent/route.ts:8-13 | the record the loop fills never holds a key that is not one of the visited entries' keys |
| `Route.NormalizeHeaders` | app/api/agent/route.ts:6-14 | the loop over `Object.entries` returns exactly `NormalizedHeaders(input)` |
| `Route.HeadersFromEntries` | app/api/agent/route.ts:9-12 | over distinct keys, a key is in the record iff its value is neither null nor undefined, and then it maps to `String(value)` |
| `Route.NormalizedHeadersEntries` | app/api/agent/route.ts:6-14 | the same for `normalizeHeaders` on any object, and on an array keyed by its indices |
| `Js.ArrayEntriesDistinct` | app/api/agent/route.ts:9 | the entries of an array have distinct keys ("0", "1", ...), by the round trip of decimal printing |
| `Route.NormalizeExample` | app/api/agent/route.ts:6-14 | `{"A":"1","B":null,"C":2}` normalises to `{"A":"1","C":"2"}` |
| `Js.ToJsString` | app/api/agent/route.ts:11 | `String(v)` of a string is the string itself |
| `Route.CollectedHeaders` | app/api/agent/route.ts:25-26 | the header record's keys are exactly the response's header names |
| `Route.CollectedHeadersLastWins` | app/api/agent/route.ts:26 | each name maps to the value of its last pair |
| `Route.CollectedHeadersHoldEveryPair` | app/api/agent/route.ts:25-26 | with distinct names, every upstream header pair is in the record |
| `Route.CollectHeaders` | app/api/agent/route.ts:25-26 | the `forEach` loop returns exactly `CollectedHeaders(pairs)` |
| `Platform.HeaderGet` | app/api/agent/route.ts:28 | `headers.get(name)` returns the value of a pair with that name, and nothing only when no pair has it |
| `Route.Classify` | app/api/agent/route.ts:31-33 | JSON exactly when the content type contains `application/json`; text exactly when it does not and starts with `text/`; a type starting with `application/json` is JSON |
| `Route.ContentTypeOf` | app/api/agent/route.ts:28 | the empty string when no `content-type` header is present; when one is present, the type is the value of a `content-type` pair, and a non-empty type always is |
| `Js.Includes` | app/api/agent/route.ts:31 | a string that starts with `sub` includes it, and `sub` is never longer than a string that includes it |
| `Js.IncludesOccurrence` | app/api/agent/route.ts:31 | `s.includes(sub)` holds exactly when some suffix of `s` starts with `sub` |
| `Js.StartsWith` | app/api/agent/route.ts:33 | `s.startsWith(prefix)` holds exactly when `s` agrees with `prefix` at each of its positions, and then `s` is `prefix` followed by the rest |
| `Platform.BodyText` | app/api/agent/route.ts:32-36 | a null body reads as the empty string, a read body as its text |
| `Route.Decode` | app/api/agent/route.ts:28-37 | a read or null body gives exactly one of data and text; data iff declared JSON and the parse of its text succeeds, and then the parsed value; text is otherwise the raw body ("" for a null body); a rejected read is passed on |
| `Route.ErrorText` | app/api/agent/route.ts:56 | the error text is the message, or the error's name when the message is empty; it is empty only when both are |
| `Route.FailureResult` | app/api/agent/route.ts:48-58 | the `catch` record: ok false, status 0, no headers, error set, `Timeout` exactly for an `AbortError` and `FetchError` otherwise |
| `Route.Completion` | app/api/agent/route.ts:39-47 | the record built once the body is read is uniform |
| `Route.Settled` | app/api/agent/route.ts:21-58 | every record is uniform; an error exactly when fetch or the body read rejects, then Timeout/FetchError and the `catch` duration; otherwise ok, status, statusText copied, all headers collected, duration taken when fetch resolves, data/text by content type |
| `Route.FetchWithTimeout` | app/api/agent/route.ts:16-62 | arms one timer with the deadline (default 20000), sends the request once, answers 200 with `Settled(outcome)`, and leaves no timer of its own pending on any path |
| `Platform.Response.Ok` | app/api/agent/route.ts:40 | `res.ok` holds exactly for the 2xx statuses |
| `Route.NotFoundIsNotOk` | app/api/agent/route.ts:40-41 | a completed 404 yields ok false, status 404 and no error |
| `Route.SettledDependsOnClockOnlyInDuration` | app/api/agent/route.ts:20-23 | the same outcome gives the same record under any clock, apart from `durationMs` |
| `Route.RequestBody` | app/api/agent/route.ts:65 | a body that is not JSON stands for `{}` (which has no url); otherwise the parsed value |
| `Route.WithoutBody` | app/api/agent/route.ts:78 | true exactly for the methods `GET` and `HEAD` |
| `Js.Entries` | app/api/agent/route.ts:9 | `Object.entries` of an array pairs each index, printed in decimal, with its element; of an object, its fields in order |
| `Js.Property` | app/api/agent/route.ts:66-69 | a non-object has no properties; a property found is one of the object's fields, and with distinct keys it is the value of the field of that name |
| `Js.FieldLookup` | app/api/agent/route.ts:66-69 | a value found belongs to a field of that name; with distinct keys it is that field's value |
| `Js.Nullish` | app/api/agent/route.ts:10 | `v == null` holds of null and undefined and of nothing else; every boolean, number, string, array and object is not nullish (also the test at line 69) |
| `Js.Truthy` | app/api/agent/route.ts:7 | a truthy value is neither null nor undefined; arrays and objects are truthy |
| `Js.TypeofObject` | app/api/agent/route.ts:7 | `typeof v === "object"` together with truthiness holds exactly of arrays and objects |
| `Js.ToUpperCase` | app/api/agent/route.ts:67 | same length, no lower-case ASCII letter left, each lower-case letter raised and every other character kept |
| `Route.UrlOf` | app/api/agent/route.ts:66 | a falsy url gives the empty string; a string url is kept as is |
| `Route.MethodOf` | app/api/agent/route.ts:67 | the method has no lower-case ASCII letter; a falsy method gives `GET`; a non-empty string method is upper-cased |
| `Route.RawBodyOf` | app/api/agent/route.ts:69 | the raw body is absent exactly when `body` is null or undefined; a string body is kept as is |
| `Route.PrepareRequest` | app/api/agent/route.ts:66-78 | no request exactly when the url is empty; otherwise url, method and normalised headers as above, and the body withheld exactly for GET and HEAD |
| `Route.BodyWithheldForGet` | app/api/agent/route.ts:67-78 | any spelling of `get`, or no method at all, sends GET without a body |
| `Route.NonObjectBodyIsBadRequest` | app/api/agent/route.ts:65-73 | a request body that is not a JSON object (`null`, a number, a string, an array), or one that is not JSON at all, is answered as a missing url |
| `Route.ParsedBodyHeaders` | app/api/agent/route.ts:65-68 | on a body `req.json()` can produce, an object under `headers` has distinct keys, and every header with a non-null value is relayed as its string, no other |
| `Route.Post` | app/api/agent/route.ts:64-81 | an empty url answers 400 with the fixed BadRequest record, sends nothing and arms no timer; otherwise sends the prepared request once and answers 200 with `Settled`, timer cleared |
| `Route.Get` | app/api/agent/route.ts:83-90 | a missing or empty `url` parameter answers 400 with the fixed record and sends nothing; otherwise sends a plain GET without headers or body and answers 200 with `Settled` |
| `Platform.Transport.Send` | app/api/agent/route.ts:22 | one `fetch` call: the request is appended to the sent list and the outcome returned |
| `Platform.TimerTable.SetTimeout` | app/api/agent/route.ts:19 | a fresh handle, pending, armed with the given delay |
| `Platform.TimerTable.ClearTimeout` | app/api/agent/route.ts:60 | the handle is no longer pending; nothing else changes |
| `RouteAsWritten.PropertyAsWritten` | app/api/agent/route.ts:66 | reading a property of null or undefined throws a TypeError; otherwise it is `Js.Property` |
| `RouteAsWritten.PrepareAsWritten` | app/api/agent/route.ts:65-69 | POST's preparation throws exactly when `req.json()` gives null |
| `RouteAsWritten.NullBodyThrowsAsWritten` | app/api/agent/route.ts:65-73 | the body `null` throws as written, while the intended preparation answers it as a missing url |
| `RouteAsWritten.PrepareAsWrittenAgrees` | app/api/agent/route.ts:65-78 | on every other body the code as written and the model agree |
| `RouteAsWritten.DecodeAsWritten` | app/api/agent/route.ts:31-37 | as written, a declared-JSON body succeeds exactly when it is null (then text "", as in `Route.Decode`) or reads and parses; for a non-null body that fails to read or parse, `res.text()` on the used body rejects with a TypeError; other types read as in `Route.Decode` |
| `RouteAsWritten.SettledAsWritten` | app/api/agent/route.ts:21-58 | the record with the body read as written, null bodies included, is still uniform |
| `RouteAsWritten.UnparsableJsonAsWritten` | app/api/agent/route.ts:31-32 | a 200 `application/json` response with body `not-json` is reported as FetchError with status 0 as written, and as ok with `text: "not-json"` as intended |
| `RouteAsWritten.AbortDuringJsonReadAsWritten` | app/api/agent/route.ts:31-32 | an abort while a JSON body is read is reported as FetchError as written, and as Timeout as intended |
| `RouteAsWritten.NullBodyJsonAsWritten` | app/api/agent/route.ts:31-32 | a JSON-typed response with a null body (HEAD, 204) gives, as written and as intended alike, a record without error, with its status, no data and text "" |
| `RouteAsWritten.SettledAsWrittenAgrees` | app/api/agent/route.ts:21-58 | whenever the body is not declared JSON, is null, or reads and parses, as written and intended agree |

## Left out

- The network itself, redirect following and the `AbortController`: the
  transport is a stub with a fixed outcome; an abort by the deadline appears
  only as an outcome, or a body read, that rejects with `AbortError`.
- When the timer fires: `TimerTable` records that a handle is armed and
  cleared, not the passage of time.
- `Date.now()` arithmetic: the clock readings are parameters, and only which
  readings are subtracted is modelled.
- `JSON.parse` is the parameter `parse`; its grammar is not modelled.
- `String(v)` of non-integer numbers, of integers above 2^53 in magnitude
  (printed with their shortest round-trip digits) and of those of magnitude
  10^21 or more (exponent notation), `NaN` and `Infinity`; numbers are
  integers and print exactly.
- The key order of `Object.entries` (integer-like keys first, ascending):
  object fields are kept in the order of the JSON text, and the relay only
  turns them into a map over distinct keys, where order does not show.
- `toUpperCase` beyond ASCII (for example `ß` to `SS`).
- A key or header named `__proto__`: JavaScript's object assignment on lines
  11 and 26 would hit the prototype setter and drop it; here it is stored
  like any other key.
- `String(err)` for a thrown value that is not an `Error`; `fetch` only
  rejects with errors.
- The order of keys in the JSON records; records are maps.
- The `NextRequest`/`NextResponse` serialisation and `new URL(req.url)`: the
  POST handler takes the result of `req.json()` (`None` when it rejects) and
  the GET handler the `url` search parameter.
- `app/page.tsx` and `app/layout.tsx`: the form, its `safeParse` helper and
  its own "Network Error" record are UI code outside the relay.

## Findings

| source | as written | input that shows it | evidently intended | confidence | as-written member | corrected member |
|---|---|---|---|---|---|---|
| app/api/agent/route.ts:65-66 | `body.url` is read from whatever `req.json()` produced; for the JSON value `null` this throws, outside any `try`, so POST answers with no record at all | a POST whose body is `null` | treat it like any other body without a url: 400 with the BadRequest record | high, not executed | `RouteAsWritten.PrepareAsWritten` | `Route.PrepareRequest` |
| app/api/agent/route.ts:31-32 | for a non-null body, `res.json()` consumes the body before parsing, so the `res.text()` in its `catch` rejects ("Body is unusable"); the outer `catch` then reports FetchError with status 0, and an abort during a JSON read is reported as FetchError rather than Timeout | a 200 response with `content-type: application/json` and body `not-json` | keep the exchange and return the raw body as `text`; report an abort as Timeout (a null body, which is never consumed, already reads as text "") | high, not executed | `RouteAsWritten.DecodeAsWritten` | `Route.Decode` |
