/** The relay of app/api/agent/route.ts: header normalisation, the
    timeout-bounded fetch that turns every outcome into one uniform result,
    and the POST and GET handlers that validate and prepare the request. */
module Route {
  import opened Wrappers
  import opened Js
  import opened Platform

  /** The deadline `fetchWithTimeout` arms when its caller names none; neither
      handler names one. */
  const DefaultTimeoutMs := 20000

  // ===========================================================================
  // normalizeHeaders

  function EntryKeys(entries: seq<(string, JsValue)>): set<string> {
    set i | 0 <= i < |entries| :: entries[i].0
  }

  /** The record the loop of `normalizeHeaders` has filled after visiting
      `entries`: null and undefined values are skipped, every other value is
      stored as its string under its key. It never holds a key that is not
      one of the entries' keys. */
  function HeadersFrom(entries: seq<(string, JsValue)>): (out: map<string, string>)
    ensures out.Keys <= EntryKeys(entries)
  {
    if entries == [] then map[]
    else
      var prefix := entries[..|entries| - 1];
      var (k, v) := entries[|entries| - 1];
      assert forall i :: 0 <= i < |prefix| ==> prefix[i] == entries[i];
      if Nullish(v) then HeadersFrom(prefix) else HeadersFrom(prefix)[k := ToJsString(v)]
  }

  /** What `normalizeHeaders(input)` returns: nothing for a falsy or
      non-object input, otherwise the record built from `Object.entries`. */
  function NormalizedHeaders(input: JsValue): (out: map<string, string>)
    ensures !(input.Array? || input.Object?) ==> out == map[]
    ensures input.Array? || input.Object? ==> out.Keys <= EntryKeys(Entries(input))
  {
    if !Truthy(input) || !TypeofObject(input) then map[] else HeadersFrom(Entries(input))
  }

  method NormalizeHeaders(input: JsValue) returns (out: map<string, string>)
    ensures out == NormalizedHeaders(input)
  {
    if !Truthy(input) || !TypeofObject(input) {
      return map[];
    }
    var entries := Entries(input);
    out := map[];
    for i := 0 to |entries|
      invariant out == HeadersFrom(entries[..i])
    {
      assert entries[..i + 1][..i] == entries[..i];
      assert entries[..i + 1][i] == entries[i];
      var (k, v) := entries[i];
      if Nullish(v) {
        assert HeadersFrom(entries[..i + 1]) == HeadersFrom(entries[..i]);
        continue;
      }
      assert HeadersFrom(entries[..i + 1]) == HeadersFrom(entries[..i])[k := ToJsString(v)];
      out := out[k := ToJsString(v)];
    }
    assert entries[..|entries|] == entries;
  }

  /** Over entries with distinct keys (those of any JavaScript object), an
      entry's key is in the record exactly when its value is neither null nor
      undefined, and then it maps to that value's string. */
  lemma {:induction false} HeadersFromEntries(entries: seq<(string, JsValue)>)
    requires DistinctKeys(entries)
    ensures forall i :: 0 <= i < |entries| ==>
      (entries[i].0 in HeadersFrom(entries) <==> !Nullish(entries[i].1))
    ensures forall i :: 0 <= i < |entries| && !Nullish(entries[i].1) ==>
      HeadersFrom(entries)[entries[i].0] == ToJsString(entries[i].1)
  {
    if entries != [] {
      var n := |entries| - 1;
      var prefix := entries[..n];
      var (k, v) := entries[n];
      assert DistinctKeys(prefix) by {
        forall i, j | 0 <= i < j < n ensures prefix[i].0 != prefix[j].0 {
          assert prefix[i] == entries[i] && prefix[j] == entries[j];
        }
      }
      HeadersFromEntries(prefix);
      var before := HeadersFrom(prefix);
      assert k !in EntryKeys(prefix) by {
        forall i | 0 <= i < n ensures prefix[i].0 != k {
          assert prefix[i] == entries[i];
        }
      }
      assert HeadersFrom(entries) == if Nullish(v) then before else before[k := ToJsString(v)];
      forall i | 0 <= i < |entries|
        ensures entries[i].0 in HeadersFrom(entries) <==> !Nullish(entries[i].1)
        ensures !Nullish(entries[i].1) ==> HeadersFrom(entries)[entries[i].0] == ToJsString(entries[i].1)
      {
        if i < n {
          assert prefix[i] == entries[i];
          assert entries[i].0 != k;
        }
      }
    }
  }

  /** The same for `normalizeHeaders` itself, on an array (keyed by its
      indices) or an object. */
  lemma NormalizedHeadersEntries(input: JsValue)
    requires input.Array? || input.Object?
    requires input.Object? ==> DistinctKeys(input.fields)
    ensures forall i :: 0 <= i < |Entries(input)| ==>
      (Entries(input)[i].0 in NormalizedHeaders(input) <==> !Nullish(Entries(input)[i].1))
    ensures forall i :: 0 <= i < |Entries(input)| && !Nullish(Entries(input)[i].1) ==>
      NormalizedHeaders(input)[Entries(input)[i].0] == ToJsString(Entries(input)[i].1)
  {
    if input.Array? {
      ArrayEntriesDistinct(input.items);
    }
    HeadersFromEntries(Entries(input));
  }

  /** `{"A": "1", "B": null, "C": 2}` normalises to `{"A": "1", "C": "2"}`. */
  lemma NormalizeExample()
    ensures NormalizedHeaders(Object([("A", Str("1")), ("B", Null), ("C", Number(2))]))
         == map["A" := "1", "C" := "2"]
  {
    var entries := [("A", Str("1")), ("B", Null), ("C", Number(2))];
    assert Entries(Object(entries)) == entries;
    assert entries[..2][..1] == [("A", Str("1"))];
    assert [("A", Str("1"))][..0] == [];
    assert HeadersFrom([("A", Str("1"))]) == map["A" := "1"];
    assert entries[..2] == [("A", Str("1")), ("B", Null)];
    assert HeadersFrom(entries[..2]) == map["A" := "1"];
    assert ToJsString(Number(2)) == "2";
  }

  // ===========================================================================
  // fetchWithTimeout

  /** The record a handler answers with; a `None` field is absent from the JSON. */
  datatype RelayResult = RelayResult(
    ok: bool,
    status: int,
    statusText: string,
    headers: map<string, string>,
    data: Option<JsValue>,
    text: Option<string>,
    error: Option<string>,
    durationMs: int)

  /** A handler's JSON response: its own HTTP status and the record. */
  datatype Reply = Reply(httpStatus: int, result: RelayResult)

  /** The readings of `Date.now()` an attempt can take: when it starts, when
      `fetch` resolves, and in the `catch`. Only their differences are used. */
  datatype Clock = Clock(startedAt: int, respondedAt: int, caughtAt: int)

  /** The shape every record has. An error comes with `ok` false, status 0,
      no headers and no body; without an error exactly one of `data` and
      `text` is present; `ok` is only ever true with an ok status. */
  predicate Uniform(r: RelayResult) {
    && (r.error.Some? ==> !r.ok && r.status == 0 && r.headers == map[] && r.data.None? && r.text.None?)
    && (r.error.None? ==> r.data.Some? != r.text.Some?)
    && (r.ok ==> 200 <= r.status <= 299)
  }

  /** The record both handlers answer a missing url with. */
  const BadRequestResult := RelayResult(false, 0, "BadRequest", map[], None, None, Some("Missing url"), 0)

  /** `String(err?.message || err)`: the message, or, when it is empty, what
      `Error.prototype.toString` gives for an empty message, the name. */
  function ErrorText(e: Thrown): (s: string)
    ensures e.message != "" ==> s == e.message
    ensures e.message == "" ==> s == e.name
    ensures s == "" <==> e.name == "" && e.message == ""
  {
    if e.message != "" then e.message else e.name
  }

  /** The record of the `catch` block. */
  function FailureResult(e: Thrown, durationMs: int): (r: RelayResult)
    ensures Uniform(r) && r.error == Some(ErrorText(e)) && r.durationMs == durationMs
    ensures r.statusText == "Timeout" <==> e.name == "AbortError"
    ensures r.statusText == "Timeout" || r.statusText == "FetchError"
  {
    RelayResult(false, 0, if e.name == "AbortError" then "Timeout" else "FetchError",
                map[], None, None, Some(ErrorText(e)), durationMs)
  }

  function NameSet(pairs: seq<(string, string)>): set<string> {
    set i | 0 <= i < |pairs| :: pairs[i].0
  }

  /** The record `res.headers.forEach((value, key) => headers[key] = value)`
      fills: a later pair overwrites an earlier one of the same name, and
      every name of the response is present. */
  function CollectedHeaders(pairs: seq<(string, string)>): (headers: map<string, string>)
    ensures headers.Keys == NameSet(pairs)
  {
    if pairs == [] then map[]
    else
      var prefix := pairs[..|pairs| - 1];
      var (name, value) := pairs[|pairs| - 1];
      assert forall i :: 0 <= i < |prefix| ==> prefix[i] == pairs[i];
      assert NameSet(pairs) == NameSet(prefix) + {name};
      CollectedHeaders(prefix)[name := value]
  }

  /** No later pair has the same name as pair `i`. */
  predicate LastOfName(pairs: seq<(string, string)>, i: nat)
    requires i < |pairs|
  {
    forall j :: i < j < |pairs| ==> pairs[j].0 != pairs[i].0
  }

  /** Each name maps to the value of its last pair. */
  lemma {:induction false} CollectedHeadersLastWins(pairs: seq<(string, string)>)
    ensures forall i :: 0 <= i < |pairs| && LastOfName(pairs, i) ==>
      CollectedHeaders(pairs)[pairs[i].0] == pairs[i].1
  {
    if pairs != [] {
      var n := |pairs| - 1;
      var prefix := pairs[..n];
      CollectedHeadersLastWins(prefix);
      forall i | 0 <= i < |pairs| && LastOfName(pairs, i)
        ensures CollectedHeaders(pairs)[pairs[i].0] == pairs[i].1
      {
        if i < n {
          assert pairs[i].0 != pairs[n].0;
          assert prefix[i] == pairs[i];
          assert LastOfName(prefix, i) by {
            forall j | i < j < n ensures prefix[j].0 != prefix[i].0 {
              assert prefix[j] == pairs[j];
            }
          }
        }
      }
    }
  }

  /** With distinct names (all but repeated `set-cookie` headers), every
      upstream pair is in the record. */
  lemma CollectedHeadersHoldEveryPair(pairs: seq<(string, string)>)
    requires DistinctKeys(pairs)
    ensures forall i :: 0 <= i < |pairs| ==> CollectedHeaders(pairs)[pairs[i].0] == pairs[i].1
  {
    CollectedHeadersLastWins(pairs);
    forall i | 0 <= i < |pairs| ensures LastOfName(pairs, i) {
    }
  }

  method CollectHeaders(pairs: seq<(string, string)>) returns (headers: map<string, string>)
    ensures headers == CollectedHeaders(pairs)
  {
    headers := map[];
    for i := 0 to |pairs|
      invariant headers == CollectedHeaders(pairs[..i])
    {
      assert pairs[..i + 1][..i] == pairs[..i];
      headers := headers[pairs[i].0 := pairs[i].1];
    }
    assert pairs[..|pairs|] == pairs;
  }

  /** The three ways the body is read, chosen by the content type. */
  datatype BodyKind = Json | Textual | Unrecognised

  /** The dispatch of lines 31-37: JSON when `application/json` occurs
      anywhere in the type (so `application/json; charset=utf-8` too), else
      textual for `text/...`, else unrecognised. */
  function Classify(contentType: string): (kind: BodyKind)
    ensures kind == Json <==> Includes(contentType, "application/json")
    ensures kind == Textual <==> !Includes(contentType, "application/json") && StartsWith(contentType, "text/")
    ensures StartsWith(contentType, "application/json") ==> kind == Json
  {
    if Includes(contentType, "application/json") then Json
    else if StartsWith(contentType, "text/") then Textual
    else Unrecognised
  }

  /** `res.headers.get('content-type') || ''`. */
  function ContentTypeOf(res: Response): (contentType: string)
    ensures (forall i :: 0 <= i < |res.headers| ==> res.headers[i].0 != "content-type") ==> contentType == ""
    ensures contentType != "" ==> exists i :: 0 <= i < |res.headers| && res.headers[i] == ("content-type", contentType)
    ensures (exists i :: 0 <= i < |res.headers| && res.headers[i].0 == "content-type") ==>
      exists i :: 0 <= i < |res.headers| && res.headers[i] == ("content-type", contentType)
  {
    HeaderGet(res.headers, "content-type").GetOr("")
  }

  /** The locals `data` and `text` once the body has been read. */
  datatype Payload = Payload(data: Option<JsValue>, text: Option<string>)

  /** Reading the body by its kind. A JSON body that parses becomes `data`;
      one that does not, and any other body, becomes `text`; so exactly one of
      them is set. A rejected read is rethrown to the outer `catch`. */
  function Decode(kind: BodyKind, body: BodyRead, parse: string -> Option<JsValue>): (r: Result<Payload, Thrown>)
    ensures r.Failure? <==> body.ReadFailed?
    ensures r.Failure? ==> r.error == body.error
    ensures r.Success? ==> (r.value.data.Some? != r.value.text.Some?)
    ensures r.Success? ==> (r.value.data.Some? <==> kind == Json && parse(BodyText(body)).Some?)
    ensures r.Success? && r.value.data.Some? ==> r.value.data == parse(BodyText(body))
    ensures r.Success? && r.value.text.Some? ==> r.value.text.value == BodyText(body)
  {
    match body
    case ReadFailed(e) => Failure(e)
    case _ =>
      var t := BodyText(body);
      match kind
      case Json =>
        (match parse(t)
         case Some(v) => Success(Payload(Some(v), None))
         case None => Success(Payload(None, Some(t))))
      case Textual => Success(Payload(None, Some(t)))
      case Unrecognised => Success(Payload(None, Some(t)))
  }

  /** The error an attempt ends in, if any: a rejected `fetch` or a rejected
      body read. */
  function FailureOf(outcome: Outcome): Option<Thrown> {
    match outcome
    case Rejected(e) => Some(e)
    case Resolved(res) => if res.body.ReadFailed? then Some(res.body.error) else None
  }

  /** The record once the body has been read, or has failed to be. */
  function Completion(res: Response, decoded: Result<Payload, Thrown>, clock: Clock): (r: RelayResult)
    requires decoded.Success? ==> decoded.value.data.Some? != decoded.value.text.Some?
    ensures Uniform(r)
  {
    match decoded
    case Failure(e) => FailureResult(e, clock.caughtAt - clock.startedAt)
    case Success(p) =>
      RelayResult(res.Ok(), res.status, res.statusText, CollectedHeaders(res.headers),
                  p.data, p.text, None, clock.respondedAt - clock.startedAt)
  }

  /** The record `fetchWithTimeout` answers with for a given outcome. */
  function Settled(outcome: Outcome, clock: Clock, parse: string -> Option<JsValue>): (r: RelayResult)
    ensures Uniform(r)
    ensures r.error.Some? <==> FailureOf(outcome).Some?
    ensures FailureOf(outcome).Some? ==>
      && r.error == Some(ErrorText(FailureOf(outcome).value))
      && (r.statusText == "Timeout" <==> FailureOf(outcome).value.name == "AbortError")
      && (r.statusText == "Timeout" || r.statusText == "FetchError")
      && r.durationMs == clock.caughtAt - clock.startedAt
    ensures FailureOf(outcome).None? ==>
      && r.ok == outcome.response.Ok()
      && r.status == outcome.response.status
      && r.statusText == outcome.response.statusText
      && r.headers == CollectedHeaders(outcome.response.headers)
      && r.durationMs == clock.respondedAt - clock.startedAt
      && (r.data.Some? <==> Classify(ContentTypeOf(outcome.response)) == Json && parse(BodyText(outcome.response.body)).Some?)
      && (r.data.Some? ==> r.data == parse(BodyText(outcome.response.body)))
      && (r.text.Some? ==> r.text.value == BodyText(outcome.response.body))
  {
    match outcome
    case Rejected(e) => FailureResult(e, clock.caughtAt - clock.startedAt)
    case Resolved(res) => Completion(res, Decode(Classify(ContentTypeOf(res)), res.body, parse), clock)
  }

  /** Arms the deadline, sends the request once, builds the record from the
      outcome, and clears the deadline on every path (the `finally`). */
  method FetchWithTimeout(request: Outbound, timeoutMs: Option<int>, transport: Transport, timers: TimerTable,
                          clock: Clock, parse: string -> Option<JsValue>) returns (reply: Reply)
    requires timers.Valid()
    modifies transport, timers
    ensures timers.Valid() && timers.pending == old(timers.pending)
    ensures timers.delays == old(timers.delays) + [timeoutMs.GetOr(DefaultTimeoutMs)]
    ensures transport.sent == old(transport.sent) + [request]
    ensures reply == Reply(200, Settled(transport.outcome, clock, parse))
  {
    var id := timers.SetTimeout(timeoutMs.GetOr(DefaultTimeoutMs));
    var outcome := transport.Send(request);
    var result: RelayResult;
    match outcome {
      case Rejected(e) =>
        result := FailureResult(e, clock.caughtAt - clock.startedAt);
      case Resolved(res) =>
        var durationMs := clock.respondedAt - clock.startedAt;
        var headers := CollectHeaders(res.headers);
        var contentType := HeaderGet(res.headers, "content-type").GetOr("");
        var data: Option<JsValue> := None;
        var text: Option<string> := None;
        var thrown: Option<Thrown> := None;
        if Includes(contentType, "application/json") {
          match res.body {
            case ReadFailed(e) => thrown := Some(e);
            case _ =>
              var t := BodyText(res.body);
              match parse(t) {
                case Some(v) => data := Some(v);
                case None => text := Some(t);
              }
          }
        } else if StartsWith(contentType, "text/") {
          match res.body {
            case ReadFailed(e) => thrown := Some(e);
            case _ => text := Some(BodyText(res.body));
          }
        } else {
          match res.body {
            case ReadFailed(e) => thrown := Some(e);
            case _ => text := Some(BodyText(res.body));
          }
        }
        if thrown.Some? {
          result := FailureResult(thrown.value, clock.caughtAt - clock.startedAt);
        } else {
          result := RelayResult(res.Ok(), res.status, res.statusText, headers, data, text, None, durationMs);
        }
    }
    timers.ClearTimeout(id);
    reply := Reply(200, result);
  }

  /** A completed exchange with a 404 is not `ok`, yet its status is not 0
      and it carries no error: `ok` is the response's own flag. */
  lemma NotFoundIsNotOk(headers: seq<(string, string)>, text: string, clock: Clock, parse: string -> Option<JsValue>)
    ensures var r := Settled(Resolved(Response(404, "Not Found", headers, Read(text))), clock, parse);
      !r.ok && r.status == 404 && r.error.None?
  {
  }

  /** Two attempts with the same outcome give the same record but for the
      duration. */
  lemma SettledDependsOnClockOnlyInDuration(outcome: Outcome, c1: Clock, c2: Clock, parse: string -> Option<JsValue>)
    ensures Settled(outcome, c1, parse).(durationMs := 0) == Settled(outcome, c2, parse).(durationMs := 0)
  {
  }

  // ===========================================================================
  // POST and GET

  /** `await req.json().catch(() => ({}))`: the parsed request body, or an
      empty object when it is not JSON. */
  function RequestBody(parsed: Option<JsValue>): (body: JsValue)
    ensures parsed.None? ==> body == Object([]) && UrlOf(body) == ""
    ensures parsed.Some? ==> body == parsed.value
  {
    parsed.GetOr(Object([]))
  }

  /** `String(body.url || '')`. */
  function UrlOf(body: JsValue): (url: string)
    ensures !Truthy(Property(body, "url")) ==> url == ""
    ensures Property(body, "url").Str? ==> url == Property(body, "url").s
  {
    var u := Property(body, "url");
    if Truthy(u) then ToJsString(u) else ""
  }

  /** `String(body.method || 'GET').toUpperCase()`. */
  function MethodOf(body: JsValue): (verb: string)
    ensures forall i :: 0 <= i < |verb| ==> !IsLowerAscii(verb[i])
    ensures !Truthy(Property(body, "method")) ==> verb == "GET"
    ensures Property(body, "method").Str? && Property(body, "method").s != "" ==>
      verb == ToUpperCase(Property(body, "method").s)
  {
    var m := Property(body, "method");
    ToUpperCase(if Truthy(m) then ToJsString(m) else "GET")
  }

  /** `body.body != null ? String(body.body) : undefined`. */
  function RawBodyOf(body: JsValue): (raw: Option<string>)
    ensures raw.None? <==> Nullish(Property(body, "body"))
    ensures Property(body, "body").Str? ==> raw == Some(Property(body, "body").s)
  {
    var b := Property(body, "body");
    if !Nullish(b) then Some(ToJsString(b)) else None
  }

  /** `['GET', 'HEAD'].includes(method)`. */
  predicate WithoutBody(verb: string)
    ensures WithoutBody(verb) <==> verb == "GET" || verb == "HEAD"
  {
    verb in ["GET", "HEAD"]
  }

  /** The request POST hands to `fetchWithTimeout`, or `None` when the url
      is empty and the handler answers 400 instead. */
  function PrepareRequest(body: JsValue): (r: Option<Outbound>)
    ensures r.None? <==> UrlOf(body) == ""
    ensures r.Some? ==> r.value.url == UrlOf(body) && r.value.url != ""
    ensures r.Some? ==> r.value.verb == MethodOf(body)
    ensures r.Some? ==> r.value.headers == NormalizedHeaders(Property(body, "headers"))
    ensures r.Some? && WithoutBody(r.value.verb) ==> r.value.body.None?
    ensures r.Some? && !WithoutBody(r.value.verb) ==> r.value.body == RawBodyOf(body)
  {
    var url := UrlOf(body);
    var verb := MethodOf(body);
    if url == "" then None
    else Some(Outbound(url, verb, NormalizedHeaders(Property(body, "headers")),
                       if WithoutBody(verb) then None else RawBodyOf(body)))
  }

  /** A body sent with `get`, `Get` or any other spelling of GET, or with no
      method at all, is withheld. */
  lemma BodyWithheldForGet(body: JsValue)
    requires UrlOf(body) != ""
    requires !Truthy(Property(body, "method"))
          || (Property(body, "method").Str? && ToUpperCase(Property(body, "method").s) == "GET")
    ensures PrepareRequest(body).value.verb == "GET" && PrepareRequest(body).value.body.None?
  {
  }

  /** A request body that is not an object (not JSON at all, `null`, a number,
      a string, an array) has no url, so it is answered 400. */
  lemma NonObjectBodyIsBadRequest(parsed: Option<JsValue>)
    requires parsed.Some? ==> !parsed.value.Object?
    ensures PrepareRequest(RequestBody(parsed)).None?
  {
  }

  /** On a body `req.json()` can produce, an object under `headers` has
      distinct keys, so each header the caller sent with a value that is
      neither null nor undefined is relayed as its string, and no other. */
  lemma {:induction false} ParsedBodyHeaders(parsed: Option<JsValue>)
    requires parsed.Some? && WellFormed(parsed.value)
    ensures var h := Property(parsed.value, "headers");
      h.Object? ==>
        && DistinctKeys(h.fields)
        && (forall i :: 0 <= i < |h.fields| ==> (h.fields[i].0 in NormalizedHeaders(h) <==> !Nullish(h.fields[i].1)))
        && (forall i :: 0 <= i < |h.fields| && !Nullish(h.fields[i].1) ==>
              NormalizedHeaders(h)[h.fields[i].0] == ToJsString(h.fields[i].1))
  {
    var h := Property(parsed.value, "headers");
    if h.Object? {
      var fields := parsed.value.fields;
      var i :| 0 <= i < |fields| && fields[i] == ("headers", h);
      assert WellFormed(fields[i].1);
      NormalizedHeadersEntries(h);
    }
  }

  /** The POST handler: it validates, prepares and relays the request. A
      missing url answers 400 with the fixed record and never reaches the
      network or arms a timer. */
  method Post(parsed: Option<JsValue>, transport: Transport, timers: TimerTable,
              clock: Clock, parse: string -> Option<JsValue>) returns (reply: Reply)
    requires timers.Valid()
    modifies transport, timers
    ensures timers.Valid() && timers.pending == old(timers.pending)
    ensures Uniform(reply.result)
    ensures match PrepareRequest(RequestBody(parsed))
      case None =>
        && reply == Reply(400, BadRequestResult)
        && transport.sent == old(transport.sent)
        && timers.delays == old(timers.delays)
      case Some(request) =>
        && reply == Reply(200, Settled(transport.outcome, clock, parse))
        && transport.sent == old(transport.sent) + [request]
        && timers.delays == old(timers.delays) + [DefaultTimeoutMs]
  {
    var body := RequestBody(parsed);
    var url := UrlOf(body);
    var verb := MethodOf(body);
    var headers := NormalizeHeaders(Property(body, "headers"));
    var rawBody := RawBodyOf(body);
    if url == "" {
      return Reply(400, BadRequestResult);
    }
    reply := FetchWithTimeout(Outbound(url, verb, headers, if WithoutBody(verb) then None else rawBody),
                              None, transport, timers, clock, parse);
  }

  /** The GET handler: `?url=` is relayed as a plain GET without headers or
      body; a missing or empty parameter answers 400 without a network call. */
  method Get(urlParam: Option<string>, transport: Transport, timers: TimerTable,
             clock: Clock, parse: string -> Option<JsValue>) returns (reply: Reply)
    requires timers.Valid()
    modifies transport, timers
    ensures timers.Valid() && timers.pending == old(timers.pending)
    ensures Uniform(reply.result)
    ensures urlParam.None? || urlParam.value == "" ==>
      && reply == Reply(400, BadRequestResult)
      && transport.sent == old(transport.sent)
      && timers.delays == old(timers.delays)
    ensures urlParam.Some? && urlParam.value != "" ==>
      && reply == Reply(200, Settled(transport.outcome, clock, parse))
      && transport.sent == old(transport.sent) + [Outbound(urlParam.value, "GET", map[], None)]
      && timers.delays == old(timers.delays) + [DefaultTimeoutMs]
  {
    if urlParam.None? || urlParam.value == "" {
      return Reply(400, BadRequestResult);
    }
    reply := FetchWithTimeout(Outbound(urlParam.value, "GET", map[], None), None, transport, timers, clock, parse);
  }
}
