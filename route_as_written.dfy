/** Two places where app/api/agent/route.ts, as the JavaScript runtime
    evaluates it, departs from what its own structure sets out to do. The
    members here follow the code as written; `Route` models the intended
    behaviour, and the lemmas name an input on which the two differ. */
module RouteAsWritten {
  import opened Wrappers
  import opened Js
  import opened Platform
  import opened Route

  // ===========================================================================
  // A request body of `null` (route.ts:65-69)

  /** `v[name]` as JavaScript evaluates it: reading a property of `null` or
      `undefined` throws a TypeError. */
  function PropertyAsWritten(v: JsValue, name: string): (r: Result<JsValue, Thrown>)
    ensures r.Failure? <==> Nullish(v)
    ensures r.Failure? ==> r.error.name == "TypeError"
    ensures r.Success? ==> r.value == Property(v, name)
  {
    if Nullish(v) then Failure(Thrown("TypeError", "Cannot read properties of null (reading '" + name + "')"))
    else Success(Property(v, name))
  }

  /** POST's preparation as written: `body.url` is read before anything checks
      that `req.json()` produced an object, and nothing catches what it throws. */
  function PrepareAsWritten(parsed: Option<JsValue>): (r: Result<Option<Outbound>, Thrown>)
    ensures r.Failure? <==> parsed == Some(Null) || parsed == Some(Undefined)
  {
    var body := RequestBody(parsed);
    match PropertyAsWritten(body, "url")
    case Failure(e) => Failure(e)
    case Success(_) => Success(PrepareRequest(body))
  }

  /** The request body `null` is valid JSON, yet POST throws on it instead of
      answering with a record; the intended reading of the same body is a
      missing url, answered 400. */
  lemma NullBodyThrowsAsWritten()
    ensures PrepareAsWritten(Some(Null)).Failure?
    ensures PrepareRequest(RequestBody(Some(Null))).None?
  {
  }

  /** On every other body the code as written and the model agree. */
  lemma PrepareAsWrittenAgrees(parsed: Option<JsValue>)
    requires parsed != Some(Null) && parsed != Some(Undefined)
    ensures PrepareAsWritten(parsed) == Success(PrepareRequest(RequestBody(parsed)))
  {
  }

  // ===========================================================================
  // The fallback from JSON to text (route.ts:31-32)

  /** What `res.text()` rejects with once `res.json()` has consumed the body. */
  const UnusableBody := Thrown("TypeError", "Body is unusable")

  /** The body read as written. `res.json()` reads a body to its end before
      parsing, so when parsing (or the read itself) fails, the `res.text()` in
      its `catch` finds the body used and rejects, and that error reaches the
      outer `catch`. A null body is never used up: there `res.text()` gives
      the empty string, as in the model. */
  function DecodeAsWritten(kind: BodyKind, body: BodyRead, parse: string -> Option<JsValue>): (r: Result<Payload, Thrown>)
    ensures kind != Json || body.NoBody? ==> r == Decode(kind, body, parse)
    ensures kind == Json ==> (r.Success? <==> body.NoBody? || (body.Read? && parse(body.text).Some?))
    ensures kind == Json && r.Failure? ==> r.error == UnusableBody
    ensures r.Success? ==> r.value.data.Some? != r.value.text.Some?
  {
    match kind
    case Json =>
      (match body
       case Read(t) => if parse(t).Some? then Success(Payload(parse(t), None)) else Failure(UnusableBody)
       case NoBody => Decode(kind, body, parse)
       case ReadFailed(_) => Failure(UnusableBody))
    case Textual => Decode(kind, body, parse)
    case Unrecognised => Decode(kind, body, parse)
  }

  /** `fetchWithTimeout`'s record with the body read as written. */
  function SettledAsWritten(outcome: Outcome, clock: Clock, parse: string -> Option<JsValue>): (r: RelayResult)
    ensures Uniform(r)
  {
    match outcome
    case Rejected(e) => FailureResult(e, clock.caughtAt - clock.startedAt)
    case Resolved(res) => Completion(res, DecodeAsWritten(Classify(ContentTypeOf(res)), res.body, parse), clock)
  }

  /** A 200 response declared `application/json` whose body is `not-json`:
      as written the exchange is reported as a failed fetch with status 0 and
      no body; the intended record keeps the status and falls back to the text. */
  lemma UnparsableJsonAsWritten(clock: Clock, parse: string -> Option<JsValue>)
    requires parse("not-json").None?
    ensures var res := Response(200, "OK", [("content-type", "application/json")], Read("not-json"));
      var written := SettledAsWritten(Resolved(res), clock, parse);
      var intended := Settled(Resolved(res), clock, parse);
      && !written.ok && written.status == 0 && written.statusText == "FetchError" && written.text.None?
      && intended.ok && intended.status == 200 && intended.data.None? && intended.text == Some("not-json")
  {
    assert Classify("application/json") == Json by {
      assert StartsWith("application/json", "application/json");
    }
  }

  /** A deadline that fires while a JSON body is being read: as written it is
      reported as `FetchError`, the intended record reports `Timeout`. */
  lemma AbortDuringJsonReadAsWritten(clock: Clock, parse: string -> Option<JsValue>)
    ensures var abort := Thrown("AbortError", "This operation was aborted");
      var res := Response(200, "OK", [("content-type", "application/json")], ReadFailed(abort));
      && SettledAsWritten(Resolved(res), clock, parse).statusText == "FetchError"
      && Settled(Resolved(res), clock, parse).statusText == "Timeout"
  {
    assert Classify("application/json") == Json by {
      assert StartsWith("application/json", "application/json");
    }
  }

  /** A JSON-typed response without a body (the answer to HEAD, or a 204):
      `res.json()` fails on the empty text, but `res.text()` still reads the
      null body, so as written and as intended the record is ok with text "". */
  lemma NullBodyJsonAsWritten(status: int, clock: Clock, parse: string -> Option<JsValue>)
    requires parse("").None?
    ensures var res := Response(status, "", [("content-type", "application/json")], NoBody);
      var written := SettledAsWritten(Resolved(res), clock, parse);
      && written == Settled(Resolved(res), clock, parse)
      && written.error.None? && written.status == status && written.data.None? && written.text == Some("")
  {
    assert Classify("application/json") == Json by {
      assert StartsWith("application/json", "application/json");
    }
  }

  /** Whenever the body is not JSON, is absent, or is JSON that reads and
      parses, the code as written and the model give the same record. */
  lemma SettledAsWrittenAgrees(outcome: Outcome, clock: Clock, parse: string -> Option<JsValue>)
    requires outcome.Resolved? && Classify(ContentTypeOf(outcome.response)) == Json ==>
      outcome.response.body.NoBody? || (outcome.response.body.Read? && parse(outcome.response.body.text).Some?)
    ensures SettledAsWritten(outcome, clock, parse) == Settled(outcome, clock, parse)
  {
  }
}
