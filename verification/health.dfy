/** Integration health: one probe per configured service, classified into a
    status, aggregated into a fixed six-entry list, and looked up by id. */
module Health {
  import opened Wrappers
  import opened Text
  import opened Http
  import opened Filters
  import Config

  datatype Status = Healthy | Degraded | Unhealthy | Unknown

  datatype IntegrationHealth = IntegrationHealth(
    id: string,
    name: string,
    status: Status,
    latency: Option<int>,
    message: Option<string>)

  /** A probed service: id, display name, base URL and health path. */
  datatype Service = Service(id: string, name: string, url: string, healthPath: string)

  /** The ids of the aggregate, in the order it lists them. */
  const IntegrationIds: seq<string> := ["n8n", "intelligence", "sentinel", "notifications", "ros2", "odoo"]

  /** The five services that are probed over HTTP (Odoo is handled apart). */
  function Services(s: Config.Settings): (r: seq<Service>)
    ensures |r| == 5
    ensures forall i :: 0 <= i < 5 ==> r[i].id == IntegrationIds[i]
  {
    [ Service("n8n", "n8n Core", s.n8nUrl, "/healthz"),
      Service("intelligence", "Intelligence AI", s.intelligenceUrl, "/health"),
      Service("sentinel", "Sentinel/NDVI", s.ndviWorkerUrl, "/health"),
      Service("notifications", "Notifications", s.emailServiceUrl, "/health"),
      Service("ros2", "ROS2 Robotics", s.ros2BridgeUrl, "/health") ]
  }

  /** The GET a probe sends: the health path appended to the base URL. */
  function ProbeRequest(svc: Service): (q: Request)
    ensures q.verb == "GET" && q.body.None?
    ensures IsPrefix(svc.url, q.url) && IsSuffix(svc.healthPath, q.url)
    ensures |q.url| == |svc.url| + |svc.healthPath|
    ensures q.query == [] && q.headers == map[]
  {
    PrefixOfConcat(svc.url, svc.healthPath);
    SuffixOfConcat(svc.url, svc.healthPath);
    Get(svc.url + svc.healthPath, [], map[])
  }

  /** Classifies one probe. `latency` is the elapsed time the route measured
      around the call; it is reported only when the service answered. */
  function CheckService(svc: Service, o: Outcome, latency: int): (h: IntegrationHealth)
    ensures h.id == svc.id && h.name == svc.name
    ensures h.status == Healthy <==> o.Responded? && o.status == 200
    ensures h.status == Degraded <==> o.Responded? && o.status != 200
    ensures h.status == Unhealthy <==> o.TimedOut?
    ensures h.status == Unknown <==> o.Unreachable? || o.Crashed?
    ensures h.latency.Some? <==> o.Responded?
    ensures h.latency.Some? ==> h.latency.value == latency
    ensures h.status == Healthy ==> h.message.None?
    ensures h.status == Degraded ==> h.message == Some("HTTP " + IntToString(o.status))
    ensures h.status == Unhealthy ==> h.message == Some("Timeout")
    ensures h.status == Unknown ==> h.message == Some(o.reason)
  {
    match o
    case Responded(code, _, _) =>
      if code == 200 then IntegrationHealth(svc.id, svc.name, Healthy, Some(latency), None)
      else IntegrationHealth(svc.id, svc.name, Degraded, Some(latency), Some("HTTP " + IntToString(code)))
    case TimedOut(_) => IntegrationHealth(svc.id, svc.name, Unhealthy, None, Some("Timeout"))
    case Unreachable(reason) => IntegrationHealth(svc.id, svc.name, Unknown, None, Some(reason))
    case Crashed(reason) => IntegrationHealth(svc.id, svc.name, Unknown, None, Some(reason))
  }

  predicate Configured(svc: Service) {
    svc.url != ""
  }

  /** The entry for one service: probed when it has a URL, "Not configured" otherwise. */
  function Assess(svc: Service, send: Request -> Outcome, latency: Request -> int): (h: IntegrationHealth)
    ensures h.id == svc.id && h.name == svc.name
    ensures !Configured(svc) ==> h == IntegrationHealth(svc.id, svc.name, Unknown, None, Some("Not configured"))
    ensures Configured(svc) ==> h == CheckService(svc, send(ProbeRequest(svc)), latency(ProbeRequest(svc)))
  {
    if Configured(svc) then
      var q := ProbeRequest(svc);
      CheckService(svc, send(q), latency(q))
    else IntegrationHealth(svc.id, svc.name, Unknown, None, Some("Not configured"))
  }

  function ProbeRequests(svcs: seq<Service>): (r: seq<Request>)
    ensures |r| == |svcs|
    ensures forall i :: 0 <= i < |svcs| ==> r[i] == ProbeRequest(svcs[i])
  {
    if |svcs| == 0 then [] else ProbeRequests(svcs[..|svcs| - 1]) + [ProbeRequest(svcs[|svcs| - 1])]
  }

  lemma ProbeRequestsAppend(svcs: seq<Service>, more: seq<Service>)
    requires |more| <= 1
    ensures ProbeRequests(svcs + more) == ProbeRequests(svcs) + ProbeRequests(more)
  {
    if |more| == 1 {
      assert (svcs + more)[..|svcs + more| - 1] == svcs;
    } else {
      assert svcs + more == svcs;
    }
  }

  /** Walks the services in order: one entry each, and one probe per configured service. */
  function Survey(svcs: seq<Service>, send: Request -> Outcome, latency: Request -> int): (r: (seq<IntegrationHealth>, seq<Request>))
    ensures |r.0| == |svcs|
    ensures forall i :: 0 <= i < |svcs| ==> r.0[i] == Assess(svcs[i], send, latency)
    ensures r.1 == ProbeRequests(Filter(svcs, Configured))
  {
    if |svcs| == 0 then ([], [])
    else
      var init := svcs[..|svcs| - 1];
      var svc := svcs[|svcs| - 1];
      var rest := Survey(init, send, latency);
      var more := if Configured(svc) then [svc] else [];
      SurveyStep(svcs, more);
      (rest.0 + [Assess(svc, send, latency)], rest.1 + ProbeRequests(more))
  }

  lemma SurveyStep(svcs: seq<Service>, more: seq<Service>)
    requires |svcs| > 0
    requires more == if Configured(svcs[|svcs| - 1]) then [svcs[|svcs| - 1]] else []
    ensures ProbeRequests(Filter(svcs, Configured)) == ProbeRequests(Filter(svcs[..|svcs| - 1], Configured)) + ProbeRequests(more)
  {
    assert Filter(svcs, Configured) == Filter(svcs[..|svcs| - 1], Configured) + more;
    ProbeRequestsAppend(Filter(svcs[..|svcs| - 1], Configured), more);
  }

  /** Odoo is never probed: it is reported healthy exactly when a URL is configured. */
  function OdooHealth(s: Config.Settings): (h: IntegrationHealth)
    ensures h.id == "odoo" && h.name == "Odoo ERP" && h.latency.None?
    ensures h.status == Healthy <==> s.odooUrl != ""
    ensures h.status != Healthy ==> h.status == Unknown && h.message == Some("Not configured")
    ensures h.status == Healthy ==> h.message == Some("Configured")
  {
    if s.odooUrl != "" then IntegrationHealth("odoo", "Odoo ERP", Healthy, None, Some("Configured"))
    else IntegrationHealth("odoo", "Odoo ERP", Unknown, None, Some("Not configured"))
  }

  /** `GET /health/integrations`: six entries in a fixed order; the route never fails. */
  function IntegrationsHealth(s: Config.Settings, send: Request -> Outcome, latency: Request -> int): (r: Handled<seq<IntegrationHealth>>)
    ensures r.reply.Ok?
    ensures |r.reply.value| == 6
    ensures forall i :: 0 <= i < 6 ==> r.reply.value[i].id == IntegrationIds[i]
    ensures forall i :: 0 <= i < 5 ==> r.reply.value[i] == Assess(Services(s)[i], send, latency)
    ensures r.reply.value[5] == OdooHealth(s)
    ensures r.sent == ProbeRequests(Filter(Services(s), Configured))
    ensures |r.sent| <= 5
  {
    var svcs := Services(s);
    var (entries, probes) := Survey(svcs, send, latency);
    var all := entries + [OdooHealth(s)];
    assert |all| == 6 && all[5] == OdooHealth(s);
    assert forall i :: 0 <= i < 5 ==> all[i] == entries[i] && all[i].id == svcs[i].id;
    Handled(Ok(all), probes)
  }

  /** The six ids are pairwise distinct, so the aggregate has one entry per id. */
  lemma IntegrationIdsDistinct()
    ensures forall i, j :: 0 <= i < j < |IntegrationIds| ==> IntegrationIds[i] != IntegrationIds[j]
  {
    assert IntegrationIds[0][0] == 'n' && IntegrationIds[1][0] == 'i' && IntegrationIds[2][0] == 's';
    assert IntegrationIds[3][0] == 'n' && IntegrationIds[4][0] == 'r' && IntegrationIds[5][0] == 'o';
    assert |IntegrationIds[0]| != |IntegrationIds[3]|;
  }

  /** The aggregate depends on the network only through the probes it sends:
      networks that agree on those requests yield the same list. */
  lemma AggregateDependsOnlyOnProbes(s: Config.Settings, send1: Request -> Outcome, send2: Request -> Outcome, latency: Request -> int)
    requires forall q :: q in IntegrationsHealth(s, send1, latency).sent ==> send1(q) == send2(q)
    ensures IntegrationsHealth(s, send1, latency) == IntegrationsHealth(s, send2, latency)
  {
    var svcs := Services(s);
    var r1, r2 := IntegrationsHealth(s, send1, latency), IntegrationsHealth(s, send2, latency);
    forall i | 0 <= i < 5
      ensures r1.reply.value[i] == r2.reply.value[i]
    {
      if Configured(svcs[i]) {
        var configured := Filter(svcs, Configured);
        assert svcs[i] in configured;
        var k :| 0 <= k < |configured| && configured[k] == svcs[i];
        assert ProbeRequests(configured)[k] == ProbeRequest(svcs[i]);
      }
    }
    assert r1.reply.value == r2.reply.value;
  }

  /** First entry carrying `id`, if any. */
  function FindById(entries: seq<IntegrationHealth>, id: string): (r: Option<IntegrationHealth>)
    ensures r.Some? ==> r.value in entries && r.value.id == id
    ensures r.None? <==> forall i :: 0 <= i < |entries| ==> entries[i].id != id
    ensures forall i :: 0 <= i < |entries| && entries[i].id == id && (forall j :: 0 <= j < i ==> entries[j].id != id) ==> r == Some(entries[i])
  {
    if |entries| == 0 then None
    else if entries[0].id == id then Some(entries[0])
    else FindById(entries[1..], id)
  }

  /** `GET /health/integrations/{id}`: re-runs the aggregate and picks the entry with
      that id; an id outside the six yields an "Integration not found" placeholder. */
  function IntegrationHealthById(s: Config.Settings, send: Request -> Outcome, latency: Request -> int, id: string): (r: Handled<IntegrationHealth>)
    ensures r.reply.Ok?
    ensures r.sent == IntegrationsHealth(s, send, latency).sent
    ensures forall i :: 0 <= i < 6 && IntegrationIds[i] == id ==> r.reply.value == IntegrationsHealth(s, send, latency).reply.value[i]
    ensures id !in IntegrationIds ==> r.reply.value == IntegrationHealth(id, id, Unknown, None, Some("Integration not found"))
  {
    var all := IntegrationsHealth(s, send, latency);
    IntegrationIdsDistinct();
    match FindById(all.reply.value, id)
    case Some(h) => Handled(Ok(h), all.sent)
    case None => Handled(Ok(IntegrationHealth(id, id, Unknown, None, Some("Integration not found"))), all.sent)
  }
}
