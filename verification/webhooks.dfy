/** The in-memory webhook registry: a dict from id to record, kept here as an
    explicit value (keys in insertion order plus the records) that every operation
    takes and returns. */
module Webhooks {
  import opened Wrappers
  import opened Text
  import opened Http
  import opened Filters

  /** The events a webhook may subscribe to at creation. */
  const ValidEvents: seq<string> := [
    "ndvi.alert",
    "ndvi.analysis.complete",
    "prediction.complete",
    "pest.detected",
    "robot.mission.start",
    "robot.mission.complete",
    "robot.error",
    "odoo.sync.complete",
    "notification.sent"
  ]

  datatype Webhook = Webhook(
    id: string,
    name: string,
    url: string,
    secret: Option<string>,
    events: seq<string>,
    active: bool,
    lastTriggered: Option<string>,
    failureCount: int)

  datatype WebhookCreate = WebhookCreate(
    name: string,
    url: string,
    secret: Option<string>,
    events: seq<string>,
    active: bool)

  /** A partial update: None leaves the field as it is. */
  datatype WebhookUpdate = WebhookUpdate(
    name: Option<string>,
    url: Option<string>,
    secret: Option<string>,
    events: Option<seq<string>>,
    active: Option<bool>)

  /** The registry: record ids in dict insertion order, and the records by id. */
  datatype Store = Store(order: seq<string>, records: map<string, Webhook>)

  /** A registry operation's result: the registry afterwards and the route's reply. */
  datatype Change<T> = Change(store: Store, reply: Reply<T>)

  ghost predicate Distinct(xs: seq<string>) {
    forall i, j :: 0 <= i < j < |xs| ==> xs[i] != xs[j]
  }

  /** Every key is listed once in the order, and each record carries its own key as id. */
  ghost predicate Valid(st: Store) {
    && Distinct(st.order)
    && (forall k :: k in st.records <==> k in st.order)
    && (forall k :: k in st.records ==> st.records[k].id == k)
  }

  /** The two records the registry starts with. */
  const Seed: Store := Store(
    ["wh-001", "wh-002"],
    map[
      "wh-001" := Webhook("wh-001", "NDVI Alert Webhook", "https://example.com/webhooks/ndvi",
                          None, ["ndvi.alert", "ndvi.analysis.complete"], true, Some("2025-01-12T08:30:00Z"), 0),
      "wh-002" := Webhook("wh-002", "Robot Status Webhook", "https://example.com/webhooks/robots",
                          None, ["robot.mission.complete", "robot.error"], true, Some("2025-01-11T16:45:00Z"), 0)])

  lemma SeedValid()
    ensures Valid(Seed)
  {
    assert Seed.order[0][5] != Seed.order[1][5];
  }

  /** A duplicate-free listing has as many entries as distinct elements. */
  lemma {:induction false} DistinctCardinality(xs: seq<string>)
    requires Distinct(xs)
    ensures |set k | k in xs| == |xs|
  {
    if |xs| > 0 {
      var init := xs[..|xs| - 1];
      var last := xs[|xs| - 1];
      DistinctCardinality(init);
      assert (set k | k in xs) == (set k | k in init) + {last};
      assert forall i :: 0 <= i < |init| ==> init[i] == xs[i] && xs[i] != xs[|xs| - 1];
      assert last !in init;
    }
  }

  lemma ValidCardinality(st: Store)
    requires Valid(st)
    ensures |st.records| == |st.order|
  {
    DistinctCardinality(st.order);
    assert st.records.Keys == set k | k in st.order;
  }

  /** `GET /webhooks`: every record once, in insertion order. */
  function ListWebhooks(st: Store): (r: seq<Webhook>)
    requires Valid(st)
    ensures |r| == |st.records| == |st.order|
    ensures forall i :: 0 <= i < |r| ==> r[i] == st.records[st.order[i]]
    ensures forall k :: k in st.records ==> st.records[k] in r
  {
    ValidCardinality(st);
    var r := seq(|st.order|, i requires 0 <= i < |st.order| => st.records[st.order[i]]);
    assert forall k :: k in st.records ==> st.records[k] in r by {
      forall k | k in st.records
        ensures st.records[k] in r
      {
        var i :| 0 <= i < |st.order| && st.order[i] == k;
        assert r[i] == st.records[k];
      }
    }
    r
  }

  /** Position of the first event outside the allow-list; |events| when there is none. */
  function FirstInvalid(events: seq<string>): (n: nat)
    ensures n <= |events|
    ensures forall j :: 0 <= j < n ==> events[j] in ValidEvents
    ensures n < |events| ==> events[n] !in ValidEvents
  {
    if |events| == 0 then 0
    else if events[0] !in ValidEvents then 0
    else 1 + FirstInvalid(events[1..])
  }

  function InvalidEventDetail(event: string): string {
    "Invalid event '" + event + "'. Valid events: " + ListRepr(ValidEvents)
  }

  function NotFoundDetail(id: string): string {
    "Webhook " + id + " not found"
  }

  /** Inserts or overwrites a record, as a dict assignment does. */
  function Put(st: Store, id: string, w: Webhook): (r: Store)
    requires Valid(st) && w.id == id
    ensures Valid(r)
    ensures r.records == st.records[id := w]
    ensures id in st.records ==> r.order == st.order
    ensures id !in st.records ==> r.order == st.order + [id]
    ensures r.records.Keys == st.records.Keys + {id}
    ensures id !in st.records ==> |r.records| == |st.records| + 1
  {
    if id in st.records then Store(st.order, st.records[id := w])
    else Store(st.order + [id], st.records[id := w])
  }

  /** `POST /webhooks`: every event must be in the allow-list (the first offender
      is named in a 400 and nothing is stored); otherwise a record with id
      "wh-" + `suffix` is stored (`suffix` stands for the first eight characters
      of a random UUID). */
  function CreateWebhook(st: Store, req: WebhookCreate, suffix: string): (r: Change<Webhook>)
    requires Valid(st)
    ensures Valid(r.store)
    ensures r.reply.Ok? <==> forall e :: e in req.events ==> e in ValidEvents
    ensures !r.reply.Ok? ==> r.store == st
    ensures !r.reply.Ok? ==> r.reply == HttpError(400, InvalidEventDetail(req.events[FirstInvalid(req.events)]))
    ensures r.reply.Ok? ==> var w := r.reply.value;
      && w.id == "wh-" + suffix && IsPrefix("wh-", w.id)
      && w.name == req.name && w.url == req.url && w.secret == req.secret
      && w.events == req.events && w.active == req.active
      && w.lastTriggered.None? && w.failureCount == 0
      && r.store.records == st.records[w.id := w]
      && r.store.records.Keys == st.records.Keys + {w.id}
      && (w.id !in st.records ==> |r.store.records| == |st.records| + 1 && r.store.order == st.order + [w.id])
      && (w.id in st.records ==> r.store.order == st.order)
  {
    var n := FirstInvalid(req.events);
    if n < |req.events| then
      Change(st, HttpError(400, InvalidEventDetail(req.events[n])))
    else
      var id := "wh-" + suffix;
      PrefixOfConcat("wh-", suffix);
      var w := Webhook(id, req.name, req.url, req.secret, req.events, req.active, None, 0);
      var st' := Put(st, id, w);
      Change(st', Ok(w))
  }

  /** Field-by-field application of a partial update. */
  function Apply(w: Webhook, u: WebhookUpdate): (w': Webhook)
    ensures w'.id == w.id && w'.lastTriggered == w.lastTriggered && w'.failureCount == w.failureCount
    ensures w'.name == (if u.name.Some? then u.name.value else w.name)
    ensures w'.url == (if u.url.Some? then u.url.value else w.url)
    ensures w'.secret == (if u.secret.Some? then u.secret else w.secret)
    ensures w'.events == (if u.events.Some? then u.events.value else w.events)
    ensures w'.active == (if u.active.Some? then u.active.value else w.active)
  {
    var w1 := if u.name.Some? then w.(name := u.name.value) else w;
    var w2 := if u.url.Some? then w1.(url := u.url.value) else w1;
    var w3 := if u.secret.Some? then w2.(secret := u.secret) else w2;
    var w4 := if u.events.Some? then w3.(events := u.events.value) else w3;
    if u.active.Some? then w4.(active := u.active.value) else w4
  }

  /** `PUT /webhooks/{id}`: 404 for an unknown id; otherwise the record is patched
      in place. Unlike creation, new events are not checked against the allow-list. */
  function UpdateWebhook(st: Store, id: string, u: WebhookUpdate): (r: Change<Webhook>)
    requires Valid(st)
    ensures Valid(r.store)
    ensures id !in st.records ==> r == Change(st, HttpError(404, NotFoundDetail(id)))
    ensures id in st.records ==> r.reply == Ok(Apply(st.records[id], u))
    ensures id in st.records ==> r.store.order == st.order && r.store.records == st.records[id := Apply(st.records[id], u)]
  {
    if id !in st.records then Change(st, HttpError(404, NotFoundDetail(id)))
    else
      var w := Apply(st.records[id], u);
      Change(Store(st.order, st.records[id := w]), Ok(w))
  }

  /** `DELETE /webhooks/{id}`: 404 for an unknown id; otherwise exactly that key goes. */
  function DeleteWebhook(st: Store, id: string): (r: Change<string>)
    requires Valid(st)
    ensures Valid(r.store)
    ensures id !in st.records ==> r == Change(st, HttpError(404, NotFoundDetail(id)))
    ensures id in st.records ==> r.reply == Ok("Webhook " + id + " deleted")
    ensures id in st.records ==> r.store.records.Keys == st.records.Keys - {id}
    ensures id in st.records ==> |r.store.records| == |st.records| - 1
    ensures forall k :: k in r.store.records ==> k in st.records && r.store.records[k] == st.records[k]
    ensures id in st.records ==> r.store == Store(Filter(st.order, Other(id)), st.records - {id})
  {
    if id !in st.records then Change(st, HttpError(404, NotFoundDetail(id)))
    else
      var order := Filter(st.order, Other(id));
      FilterKeepsDistinct(st.order, Other(id));
      Change(Store(order, st.records - {id}), Ok("Webhook " + id + " deleted"))
  }

  function Other(id: string): (p: string -> bool)
    ensures forall k :: p(k) <==> k != id
  {
    k => k != id
  }

  /** A filtered duplicate-free listing stays duplicate-free. */
  lemma FilterKeepsDistinct(xs: seq<string>, p: string -> bool)
    requires Distinct(xs)
    ensures Distinct(Filter(xs, p))
  {
    FilterIsSubsequence(xs, p);
  }

  /** What the test endpoint reports. */
  datatype TestReport = TestReport(
    success: bool,
    statusCode: Option<int>,
    response: Option<string>,
    error: Option<string>)

  const TestPayloadLimit: nat := 500

  /** The test POST: JSON headers, plus the secret header only for a non-empty secret. */
  function TestRequest(w: Webhook, userEmail: string): (q: Request)
    ensures q.verb == "POST" && q.url == w.url
    ensures "Content-Type" in q.headers && q.headers["Content-Type"] == "application/json"
    ensures "X-Webhook-Secret" in q.headers <==> PresentText(w.secret)
    ensures PresentText(w.secret) ==> q.headers["X-Webhook-Secret"] == w.secret.value
  {
    var headers := map["Content-Type" := "application/json"];
    var payload := JObj(map[
      "event" := JStr("test"),
      "timestamp" := JStr("2025-01-12T10:00:00Z"),
      "data" := JObj(map[
        "message" := JStr("This is a test webhook from n8n Integration Hub"),
        "triggeredBy" := JStr(userEmail)])]);
    Post(w.url, if PresentText(w.secret) then headers["X-Webhook-Secret" := w.secret.value] else headers, payload)
  }

  /** `POST /webhooks/{id}/test`: 404 for an unknown id (nothing sent); otherwise one
      POST, reported successful exactly when the status code is below 400, with the
      response text cut to 500 characters. Transport errors become a failed report;
      any other exception escapes. */
  function TestWebhook(st: Store, id: string, userEmail: string, send: Request -> Outcome): (r: Handled<TestReport>)
    ensures id !in st.records ==> r == Handled(HttpError(404, NotFoundDetail(id)), [])
    ensures id in st.records ==> r.sent == [TestRequest(st.records[id], userEmail)]
    ensures id in st.records ==> var o := send(TestRequest(st.records[id], userEmail));
      && (r.reply.ServerError? <==> o.Crashed?)
      && (r.reply.Ok? ==> (r.reply.value.success <==> o.Responded? && o.status < 400))
      && (r.reply.Ok? && o.Responded? ==> r.reply.value.statusCode == Some(o.status) && r.reply.value.error.None?)
      && (r.reply.Ok? && o.Responded? ==> (r.reply.value.response.None? <==> o.text == ""))
      && (r.reply.Ok? && r.reply.value.response.Some? ==>
            (o.Responded? && |r.reply.value.response.value| <= TestPayloadLimit && IsPrefix(r.reply.value.response.value, o.text)))
      && (r.reply.Ok? && o.Responded? && o.text != "" && |o.text| <= TestPayloadLimit ==> r.reply.value.response == Some(o.text))
      && (o.TimedOut? || o.Unreachable? ==> r.reply == Ok(TestReport(false, None, None, Some(o.reason))))
      && (o.Responded? ==> r.reply.Ok?)
      && (o.Responded? && o.text != "" ==> r.reply.value.response == Some(Take(o.text, TestPayloadLimit)))
      && (o.Responded? && |o.text| > TestPayloadLimit ==> r.reply.value.response == Some(o.text[..TestPayloadLimit]))
      && (o.Crashed? ==> r.reply == ServerError(OtherFault(o.reason)))
  {
    if id !in st.records then Handled(HttpError(404, NotFoundDetail(id)), [])
    else
      var q := TestRequest(st.records[id], userEmail);
      var reply := match send(q)
        case Responded(code, text, _) =>
          Ok(TestReport(code < 400, Some(code),
                        if text == "" then None
                        else Some(Take(text, TestPayloadLimit)),
                        None))
        case TimedOut(reason) => Ok(TestReport(false, None, None, Some(reason)))
        case Unreachable(reason) => Ok(TestReport(false, None, None, Some(reason)))
        case Crashed(reason) => ServerError(OtherFault(reason));
      Handled(reply, [q])
  }

  /** Applying the same update twice is the same as applying it once. */
  lemma ApplyIdempotent(w: Webhook, u: WebhookUpdate)
    ensures Apply(Apply(w, u), u) == Apply(w, u)
  {
  }

  /** An update that sets no field leaves the record as it was. */
  lemma ApplyNothingIsIdentity(w: Webhook)
    ensures Apply(w, WebhookUpdate(None, None, None, None, None)) == w
  {
  }

  /** Repeating an update request leaves the registry and the reply as after the first. */
  lemma UpdateIdempotent(st: Store, id: string, u: WebhookUpdate)
    requires Valid(st)
    ensures UpdateWebhook(UpdateWebhook(st, id, u).store, id, u) == UpdateWebhook(st, id, u)
  {
    if id in st.records {
      ApplyIdempotent(st.records[id], u);
    }
  }

  /** Create and update disagree on validation: the events create rejects with a 400,
      update stores without complaint. */
  lemma UpdateSkipsEventValidation(bogus: string)
    requires bogus !in ValidEvents
    ensures Valid(Seed)
    ensures CreateWebhook(Seed, WebhookCreate("n", "u", None, [bogus], true), "00000000").reply.HttpError?
    ensures UpdateWebhook(Seed, "wh-001", WebhookUpdate(None, None, None, Some([bogus]), None)).reply.Ok?
    ensures UpdateWebhook(Seed, "wh-001", WebhookUpdate(None, None, None, Some([bogus]), None)).store.records["wh-001"].events == [bogus]
  {
    SeedValid();
    assert FirstInvalid([bogus]) == 0;
    var w := Seed.records["wh-001"];
    var u := WebhookUpdate(None, None, None, Some([bogus]), None);
    assert Apply(w, u).events == [bogus];
  }

  /** A failed create, update or delete leaves the registry exactly as it was. */
  lemma ErrorsLeaveStoreUnchanged(st: Store, req: WebhookCreate, suffix: string, id: string, u: WebhookUpdate)
    requires Valid(st)
    ensures !CreateWebhook(st, req, suffix).reply.Ok? ==> CreateWebhook(st, req, suffix).store == st
    ensures !UpdateWebhook(st, id, u).reply.Ok? ==> UpdateWebhook(st, id, u).store == st
    ensures !DeleteWebhook(st, id).reply.Ok? ==> DeleteWebhook(st, id).store == st
  {
  }

  /** Deleting a freshly created record restores the registry's records and order. */
  lemma {:induction false} DeleteUndoesCreate(st: Store, req: WebhookCreate, suffix: string)
    requires Valid(st)
    requires "wh-" + suffix !in st.records
    requires CreateWebhook(st, req, suffix).reply.Ok?
    ensures DeleteWebhook(CreateWebhook(st, req, suffix).store, "wh-" + suffix).store == st
  {
    var id := "wh-" + suffix;
    var c := CreateWebhook(st, req, suffix);
    var st1 := c.store;
    assert c.reply.value.id == id;
    assert st1.order == st.order + [id];
    assert st1.records == st.records[id := c.reply.value];
    RemoveAppended(st.order, id);
    RemovePut(st.records, id, c.reply.value);
  }

  /** Removing a key that was just added restores the map. */
  lemma RemovePut(m: map<string, Webhook>, id: string, w: Webhook)
    requires id !in m
    ensures m[id := w] - {id} == m
  {
    var m' := m[id := w] - {id};
    assert m'.Keys == m.Keys;
  }

  /** Removing a key that was appended to a listing not containing it restores the listing. */
  lemma RemoveAppended(order: seq<string>, id: string)
    requires id !in order
    ensures Filter(order + [id], Other(id)) == order
  {
    var p := Other(id);
    assert (order + [id])[..|order + [id]| - 1] == order;
    assert Filter(order + [id], p) == Filter(order, p);
    FilterKeepsAll(order, p);
  }
}
