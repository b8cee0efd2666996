/** What the relay uses from its runtime: the network transport behind `fetch`
    (as a stub that records every request it is asked to send and answers with
    a fixed outcome) and the timer table behind `setTimeout`/`clearTimeout`. */
module Platform {
  import opened Wrappers

  /** A thrown JavaScript error: its `name` and `message` properties. */
  datatype Thrown = Thrown(name: string, message: string)

  /** Reading a response body as text: the decoded text of a body; no body at
      all (a null body: the response to HEAD, or a 101, 103, 204, 205 or 304
      status, which `text()` reads as the empty string and which is never
      "used up"); or the rejection of the read (the deadline's abort arriving
      mid-body, a dropped connection). */
  datatype BodyRead = Read(text: string) | NoBody | ReadFailed(error: Thrown)

  /** The text a body read that did not reject yields. */
  function BodyText(body: BodyRead): (t: string)
    requires !body.ReadFailed?
    ensures body.NoBody? ==> t == ""
    ensures body.Read? ==> t == body.text
  {
    if body.Read? then body.text else ""
  }

  /** A response as `fetch` resolves it. `headers` lists the pairs in the order
      the runtime's `Headers` object iterates them: lower-cased names, one pair
      per name except `set-cookie`, which yields one pair per cookie. */
  datatype Response = Response(status: int, statusText: string, headers: seq<(string, string)>, body: BodyRead)
  {
    /** `res.ok`: an ok status is one in 200 to 299, as section 2.2.3
        (Statuses) of the WHATWG Fetch Standard defines it. */
    predicate Ok()
      ensures Ok() <==> status / 100 == 2
    {
      200 <= status <= 299
    }
  }

  /** The settled promise of `fetch`: a response, or the error it rejected with. */
  datatype Outcome = Resolved(response: Response) | Rejected(error: Thrown)

  /** A request as handed to `fetch`; redirects are followed. */
  datatype Outbound = Outbound(url: string, verb: string, headers: map<string, string>, body: Option<string>)

  /** `headers.get(name)` over a header list in iteration form. */
  function HeaderGet(pairs: seq<(string, string)>, name: string): (r: Option<string>)
    ensures r.Some? ==> exists i :: 0 <= i < |pairs| && pairs[i] == (name, r.value)
    ensures r.None? ==> forall i :: 0 <= i < |pairs| ==> pairs[i].0 != name
  {
    if pairs == [] then None
    else if pairs[0].0 == name then Some(pairs[0].1)
    else HeaderGet(pairs[1..], name)
  }

  /** The network as the relay sees it: each `Send` is one `fetch` call. */
  class Transport {
    var sent: seq<Outbound>
    const outcome: Outcome

    constructor (outcome: Outcome)
      ensures sent == [] && this.outcome == outcome
    {
      sent := [];
      this.outcome := outcome;
    }

    method Send(request: Outbound) returns (o: Outcome)
      modifies this
      ensures sent == old(sent) + [request]
      ensures o == outcome
    {
      sent := sent + [request];
      o := outcome;
    }
  }

  /** The runtime's timers: handle `id` was armed with delay `delays[id]`, and
      the handles in `pending` have been neither fired nor cleared. */
  class TimerTable {
    var delays: seq<int>
    var pending: set<nat>

    ghost predicate Valid()
      reads this
    {
      forall id :: id in pending ==> id < |delays|
    }

    constructor ()
      ensures Valid() && delays == [] && pending == {}
    {
      delays := [];
      pending := {};
    }

    /** `setTimeout(callback, ms)`: a fresh handle. */
    method SetTimeout(ms: int) returns (id: nat)
      requires Valid()
      modifies this
      ensures Valid()
      ensures id == |old(delays)| && id !in old(pending)
      ensures delays == old(delays) + [ms] && pending == old(pending) + {id}
    {
      id := |delays|;
      delays := delays + [ms];
      pending := pending + {id};
    }

    /** `clearTimeout(id)`. */
    method ClearTimeout(id: nat)
      requires Valid()
      modifies this
      ensures Valid()
      ensures delays == old(delays) && pending == old(pending) - {id}
    {
      pending := pending - {id};
    }
  }
}
