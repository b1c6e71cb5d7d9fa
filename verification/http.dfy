/** The boundary between the routers and the network. Every outbound httpx call is
    a `Request` value; what the call produced is an `Outcome` value supplied from
    outside (the model never performs I/O). Route results are `Reply` values. */
module Http {
  import opened Wrappers

  /** A decoded JSON document. Integral numbers are `JNum`, the others `JReal`
      (exact decimals: no floating-point rounding is modelled). */
  datatype Json =
    | JNull
    | JBool(b: bool)
    | JNum(n: int)
    | JReal(x: real)
    | JStr(s: string)
    | JArr(items: seq<Json>)
    | JObj(fields: map<string, Json>)

  type Headers = map<string, string>

  /** One outbound HTTP request: method, URL, query parameters (in insertion order),
      headers and optional JSON body. */
  datatype Request = Request(
    verb: string,
    url: string,
    query: seq<(string, string)>,
    headers: Headers,
    body: Option<Json>)

  /** What one httpx call produced.
      `TimedOut` is httpx.TimeoutException, `Unreachable` any other httpx.RequestError,
      `Crashed` an exception outside httpx.RequestError (an invalid URL, say).
      `json` is None when the response text is not a JSON document. */
  datatype Outcome =
    | Responded(status: int, text: string, json: Option<Json>)
    | TimedOut(reason: string)
    | Unreachable(reason: string)
    | Crashed(reason: string)

  /** The exception a route observes. */
  datatype Fault =
    | StatusFault(status: int, text: string)       // httpx.HTTPStatusError from raise_for_status()
    | RequestFault(timedOut: bool, reason: string) // httpx.RequestError
    | DecodeFault(text: string)                    // response.json() on a non-JSON body
    | OtherFault(reason: string)                   // any other exception

  /** Result of running a step that may raise. */
  datatype Attempt<T> = Done(value: T) | Threw(fault: Fault)

  /** How a route answered: a value (HTTP 200), an explicit HTTPException, or an
      exception that escaped the route (FastAPI answers 500). */
  datatype Reply<T> = Ok(value: T) | HttpError(code: int, detail: string) | ServerError(fault: Fault)

  /** A route's reply together with the outbound requests it made, in order. */
  datatype Handled<T> = Handled(reply: Reply<T>, sent: seq<Request>)

  /** httpx's `Response.is_success`: raise_for_status() raises for every other code. */
  predicate IsSuccess(status: int) {
    200 <= status <= 299
  }

  predicate Passed(o: Outcome) {
    o.Responded? && IsSuccess(o.status)
  }

  /** The exception raised by a call that did not pass raise_for_status(). */
  function Raised(o: Outcome): (f: Fault)
    requires !Passed(o)
    ensures f.StatusFault? <==> o.Responded?
    ensures f.RequestFault? <==> o.TimedOut? || o.Unreachable?
    ensures f.RequestFault? ==> (f.timedOut <==> o.TimedOut?)
    ensures f.OtherFault? <==> o.Crashed?
  {
    match o
    case Responded(s, t, _) => StatusFault(s, t)
    case TimedOut(m) => RequestFault(true, m)
    case Unreachable(m) => RequestFault(false, m)
    case Crashed(m) => OtherFault(m)
  }

  /** The call, then `response.raise_for_status()`, then `response.json()`. */
  function Fetch(o: Outcome): (r: Attempt<Json>)
    ensures r.Done? <==> Passed(o) && o.json.Some?
    ensures r.Done? ==> r.value == o.json.value
    ensures r.Threw? && r.fault.StatusFault? <==> o.Responded? && !IsSuccess(o.status)
    ensures r.Threw? && r.fault.RequestFault? <==> o.TimedOut? || o.Unreachable?
    ensures r.Threw? && r.fault.DecodeFault? <==> Passed(o) && o.json.None?
  {
    if Passed(o) then
      (if o.json.Some? then Done(o.json.value) else Threw(DecodeFault(o.text)))
    else Threw(Raised(o))
  }

  /** The call, then `response.raise_for_status()` (the body is not read). */
  function Deliver(o: Outcome): (r: Option<Fault>)
    ensures r.None? <==> Passed(o)
    ensures r.Some? ==> r.value.StatusFault? || r.value.RequestFault? || r.value.OtherFault?
  {
    if Passed(o) then None else Some(Raised(o))
  }

  function Get(url: string, query: seq<(string, string)>, headers: Headers): Request {
    Request("GET", url, query, headers, None)
  }

  function Post(url: string, headers: Headers, body: Json): Request {
    Request("POST", url, [], headers, Some(body))
  }

  /** The call, `raise_for_status()` and `json()` inside `try ... except Exception`,
      answering `fallback` whatever went wrong. */
  function FetchOr(o: Outcome, fallback: Json): (r: Json)
    ensures Passed(o) && o.json.Some? ==> r == o.json.value
    ensures !(Passed(o) && o.json.Some?) ==> r == fallback
  {
    match Fetch(o)
    case Done(j) => j
    case Threw(_) => fallback
  }

  /** How a route whose only handler is `except Exception: <fallback>` answers the
      outcome of its one call: a decoded 2xx body is the reply, and every failure
      (an error status, a timeout or other transport error, any other exception, a
      body that is not JSON) gives the fallback. The route never fails. */
  predicate FallsBack(o: Outcome, reply: Reply<Json>, fallback: Json) {
    && (Passed(o) && o.json.Some? ==> reply == Ok(o.json.value))
    && (o.Responded? && !IsSuccess(o.status) ==> reply == Ok(fallback))
    && (o.TimedOut? || o.Unreachable? ==> reply == Ok(fallback))
    && (o.Crashed? ==> reply == Ok(fallback))
    && (Passed(o) && o.json.None? ==> reply == Ok(fallback))
  }

  /** The cases of FallsBack cover every outcome, so it fixes the reply. */
  lemma FallsBackDeterminesReply(o: Outcome, a: Reply<Json>, b: Reply<Json>, fallback: Json)
    requires FallsBack(o, a, fallback) && FallsBack(o, b, fallback)
    ensures a == b && a.Ok?
  {
  }

  /** Answering with FetchOr is falling back. */
  lemma FetchOrFallsBack(o: Outcome, fallback: Json)
    ensures FallsBack(o, Ok(FetchOr(o, fallback)), fallback)
  {
  }

  /** `j` is an object whose `key` holds `v`. */
  predicate HasField(j: Json, key: string, v: Json) {
    j.JObj? && key in j.fields && j.fields[key] == v
  }

  /** A list of strings as a JSON array. */
  function Strings(xs: seq<string>): (j: Json)
    ensures j.JArr? && |j.items| == |xs|
    ensures forall i :: 0 <= i < |xs| ==> j.items[i] == JStr(xs[i])
  {
    if |xs| == 0 then JArr([]) else JArr(Strings(xs[..|xs| - 1]).items + [JStr(xs[|xs| - 1])])
  }

  /** Adds `key=value` to a parameter list when the value is truthy
      (`if value: params[key] = value`, in insertion order). */
  function AddParam(ps: seq<(string, string)>, key: string, v: Option<string>): (r: seq<(string, string)>)
    ensures PresentText(v) ==> r == ps + [(key, v.value)]
    ensures !PresentText(v) ==> r == ps
  {
    if PresentText(v) then ps + [(key, v.value)] else ps
  }

  /** The value of the first parameter named `key`. */
  function Lookup(ps: seq<(string, string)>, key: string): (r: Option<string>)
    ensures r.Some? <==> exists i :: 0 <= i < |ps| && ps[i].0 == key
    ensures r.Some? ==> (key, r.value) in ps
  {
    if |ps| == 0 then None
    else if ps[0].0 == key then Some(ps[0].1)
    else
      var rest := Lookup(ps[1..], key);
      assert forall i :: 0 < i < |ps| ==> ps[i] == ps[1..][i - 1];
      assert rest.Some? ==> exists i :: 0 <= i < |ps| - 1 && ps[1..][i].0 == key;
      rest
  }

  /** A parameter added under a new key is found under that key, and every other key
      reads as before. */
  lemma {:induction false} LookupSnoc(ps: seq<(string, string)>, key: string, value: string, k: string)
    requires Lookup(ps, key).None?
    ensures Lookup(ps + [(key, value)], k) == if k == key then Some(value) else Lookup(ps, k)
  {
    if |ps| > 0 {
      assert (ps + [(key, value)])[1..] == ps[1..] + [(key, value)];
      if ps[0].0 != key {
        assert Lookup(ps[1..], key).None?;
        LookupSnoc(ps[1..], key, value, k);
      }
    }
  }
}
