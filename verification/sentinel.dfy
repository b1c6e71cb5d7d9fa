/** The Sentinel/NDVI router: analysis requests and result queries forwarded to the
    NDVI worker, a filtered alert listing, and threshold updates written to Orion-LD. */
module Sentinel {
  import opened Wrappers
  import opened Http
  import Config
  import Filters

  function TenantHeaders(tenant: string): Headers {
    map["fiware-service" := tenant]
  }

  // ---------------------------------------------------------------------------
  // Analysis
  // ---------------------------------------------------------------------------

  datatype AnalysisRequest = AnalysisRequest(
    parcelId: string,
    startDate: string,
    endDate: string,
    indices: seq<string>,
    cloudCoverMax: Option<real>)

  /** A request that names only the parcel and the dates takes the model's defaults. */
  function WithDefaults(parcelId: string, startDate: string, endDate: string): (a: AnalysisRequest)
    ensures a.indices == ["NDVI"] && a.cloudCoverMax == Some(30.0)
  {
    AnalysisRequest(parcelId, startDate, endDate, ["NDVI"], Some(30.0))
  }

  function AnalyzeRequest(s: Config.Settings, tenant: string, a: AnalysisRequest): Request {
    Post(s.ndviWorkerUrl + "/api/analyze", TenantHeaders(tenant),
         JObj(map["parcel_id" := JStr(a.parcelId), "start_date" := JStr(a.startDate), "end_date" := JStr(a.endDate),
                  "indices" := Strings(a.indices),
                  "cloud_cover_max" := (if a.cloudCoverMax.Some? then JReal(a.cloudCoverMax.value) else JNull),
                  "tenant_id" := JStr(tenant)]))
  }

  /** The development answer to an unreachable worker: a queued job echoing the request. */
  function QueuedJob(jobId: string, a: AnalysisRequest): (j: Json)
    ensures HasField(j, "status", JStr("queued")) && HasField(j, "jobId", JStr(jobId))
    ensures HasField(j, "parcelId", JStr(a.parcelId)) && HasField(j, "indices", Strings(a.indices))
  {
    JObj(map["jobId" := JStr(jobId), "status" := JStr("queued"), "parcelId" := JStr(a.parcelId),
             "indices" := Strings(a.indices), "message" := JStr("Analysis job queued")])
  }

  function WorkerErrorDetail(text: string): string {
    "NDVI service error: " + text
  }

  /** How the analysis route answers the outcome `o` of its call to the worker: the
      decoded 2xx document; an HTTPException keeping the worker's status code and text;
      the queued job `queued` for a timeout or other transport error; and a 500 carrying
      the exception for anything else (a body that is not JSON, a non-httpx error). */
  predicate Relays(o: Outcome, reply: Reply<Json>, queued: Json) {
    && (Passed(o) && o.json.Some? ==> reply == Ok(o.json.value))
    && (o.Responded? && !IsSuccess(o.status) ==> reply == HttpError(o.status, WorkerErrorDetail(o.text)))
    && (o.TimedOut? || o.Unreachable? ==> reply == Ok(queued))
    && (o.Crashed? ==> reply == ServerError(OtherFault(o.reason)))
    && (Passed(o) && o.json.None? ==> reply == ServerError(DecodeFault(o.text)))
  }

  /** The cases of Relays cover every outcome, so it fixes the reply. */
  lemma RelaysDeterminesReply(o: Outcome, a: Reply<Json>, b: Reply<Json>, queued: Json)
    requires Relays(o, a, queued) && Relays(o, b, queued)
    ensures a == b
  {
  }

  /** `POST /sentinel/analyze`: a worker status error keeps its code, a transport error
      yields a queued job, and any other exception escapes. `jobId` stands for the
      fresh uuid. */
  function RequestAnalysis(s: Config.Settings, tenant: string, a: AnalysisRequest, jobId: string,
                           send: Request -> Outcome): (r: Handled<Json>)
    ensures r.sent == [AnalyzeRequest(s, tenant, a)]
    ensures Passed(send(r.sent[0])) && send(r.sent[0]).json.Some? ==> r.reply == Ok(send(r.sent[0]).json.value)
    ensures send(r.sent[0]).Responded? && !IsSuccess(send(r.sent[0]).status) ==>
      r.reply == HttpError(send(r.sent[0]).status, WorkerErrorDetail(send(r.sent[0]).text))
    ensures send(r.sent[0]).TimedOut? || send(r.sent[0]).Unreachable? ==> r.reply == Ok(QueuedJob(jobId, a))
    ensures r.reply.ServerError? <==> send(r.sent[0]).Crashed? || (Passed(send(r.sent[0])) && send(r.sent[0]).json.None?)
    ensures Relays(send(r.sent[0]), r.reply, QueuedJob(jobId, a))
  {
    var q := AnalyzeRequest(s, tenant, a);
    var reply := match Fetch(send(q))
      case Done(j) => Ok(j)
      case Threw(StatusFault(code, text)) => HttpError(code, WorkerErrorDetail(text))
      case Threw(RequestFault(_, _)) => Ok(QueuedJob(jobId, a))
      case Threw(f) => ServerError(f);
    Handled(reply, [q])
  }

  // ---------------------------------------------------------------------------
  // Results
  // ---------------------------------------------------------------------------

  /** The worker query parameters: each of start_date, end_date and index when given, in that order. */
  function ResultParams(startDate: Option<string>, endDate: Option<string>, index: Option<string>): (ps: seq<(string, string)>)
    ensures |ps| == (if PresentText(startDate) then 1 else 0) + (if PresentText(endDate) then 1 else 0) + (if PresentText(index) then 1 else 0)
    ensures forall i :: 0 <= i < |ps| ==> ps[i].0 in {"start_date", "end_date", "index"}
  {
    AddParam(AddParam(AddParam([], "start_date", startDate), "end_date", endDate), "index", index)
  }

  /** Exactly the supplied parameters are sent, each under its own name. */
  lemma ResultParamsExact(startDate: Option<string>, endDate: Option<string>, index: Option<string>)
    ensures Lookup(ResultParams(startDate, endDate, index), "start_date") == (if PresentText(startDate) then startDate else None)
    ensures Lookup(ResultParams(startDate, endDate, index), "end_date") == (if PresentText(endDate) then endDate else None)
    ensures Lookup(ResultParams(startDate, endDate, index), "index") == (if PresentText(index) then index else None)
  {
    var p1 := AddParam([], "start_date", startDate);
    var p2 := AddParam(p1, "end_date", endDate);
    var p3 := AddParam(p2, "index", index);
    assert Lookup(p1, "end_date").None? && Lookup(p1, "index").None?;
    if PresentText(startDate) {
      assert Lookup(p1, "start_date") == startDate;
    }
    if PresentText(endDate) {
      LookupSnoc(p1, "end_date", endDate.value, "start_date");
      LookupSnoc(p1, "end_date", endDate.value, "end_date");
      LookupSnoc(p1, "end_date", endDate.value, "index");
    }
    if PresentText(index) {
      LookupSnoc(p2, "index", index.value, "start_date");
      LookupSnoc(p2, "index", index.value, "end_date");
      LookupSnoc(p2, "index", index.value, "index");
    }
  }

  function ResultsRequest(s: Config.Settings, tenant: string, parcelId: string,
                          startDate: Option<string>, endDate: Option<string>, index: Option<string>): Request {
    Get(s.ndviWorkerUrl + "/api/parcels/" + parcelId + "/results", ResultParams(startDate, endDate, index), TenantHeaders(tenant))
  }

  function MockResult(parcelId: string, date: string, value: real, cloudCover: real): Json {
    JObj(map["parcelId" := JStr(parcelId), "date" := JStr(date), "index" := JStr("NDVI"),
             "value" := JReal(value), "cloudCover" := JReal(cloudCover)])
  }

  /** The development results: three NDVI readings, each echoing the parcel. */
  function MockResults(parcelId: string): (j: Json)
    ensures j.JObj? && "results" in j.fields && j.fields["results"].JArr?
    ensures var rs := j.fields["results"].items;
      |rs| == 3 && forall i :: 0 <= i < |rs| ==> HasField(rs[i], "parcelId", JStr(parcelId))
  {
    JObj(map["results" := JArr([
      MockResult(parcelId, "2025-01-10T00:00:00Z", 0.72, 5.2),
      MockResult(parcelId, "2025-01-05T00:00:00Z", 0.68, 12.1),
      MockResult(parcelId, "2025-01-01T00:00:00Z", 0.65, 8.3)])])
  }

  /** `GET /sentinel/parcels/{id}/results`: the worker's answer, or the mock results on any exception. */
  function GetAnalysisResults(s: Config.Settings, tenant: string, parcelId: string,
                              startDate: Option<string>, endDate: Option<string>, index: Option<string>,
                              send: Request -> Outcome): (r: Handled<Json>)
    ensures r.sent == [ResultsRequest(s, tenant, parcelId, startDate, endDate, index)]
    ensures r.reply.Ok?
    ensures Passed(send(r.sent[0])) && send(r.sent[0]).json.Some? ==> r.reply.value == send(r.sent[0]).json.value
    ensures !(Passed(send(r.sent[0])) && send(r.sent[0]).json.Some?) ==> r.reply.value == MockResults(parcelId)
    ensures FallsBack(send(r.sent[0]), r.reply, MockResults(parcelId))
  {
    var q := ResultsRequest(s, tenant, parcelId, startDate, endDate, index);
    Handled(Ok(FetchOr(send(q), MockResults(parcelId))), [q])
  }

  // ---------------------------------------------------------------------------
  // Alerts
  // ---------------------------------------------------------------------------

  datatype Alert = Alert(
    id: string,
    parcelId: string,
    alertType: string,
    severity: string,
    currentValue: real,
    threshold: real,
    message: string,
    createdAt: string)

  /** The fixed alerts the listing route filters. */
  function ActiveAlerts(): seq<Alert> {
    [Alert("alert-1", "urn:ngsi-ld:AgriParcel:parcel-001", "low_ndvi", "medium", 0.28, 0.3,
           "NDVI below healthy threshold", "2025-01-12T08:00:00Z"),
     Alert("alert-2", "urn:ngsi-ld:AgriParcel:parcel-003", "rapid_decline", "high", -0.18, 0.15,
           "Rapid NDVI decline detected (18% drop in 5 days)", "2025-01-11T14:30:00Z")]
  }

  function ParcelOf(a: Alert): string {
    a.parcelId
  }

  function SeverityOf(a: Alert): string {
    a.severity
  }

  /** The route's two comprehensions: by parcel when given, then by severity when given. */
  function FilterAlerts(alerts: seq<Alert>, parcelId: Option<string>, severity: Option<string>): (r: seq<Alert>)
    ensures !PresentText(parcelId) && !PresentText(severity) ==> r == alerts
    ensures forall a :: a in r <==>
      a in alerts && Filters.Matches(a, ParcelOf, parcelId) && Filters.Matches(a, SeverityOf, severity)
  {
    Filters.Where(Filters.Where(alerts, ParcelOf, parcelId), SeverityOf, severity)
  }

  /** `GET /sentinel/alerts`: the alerts, narrowed. No call is made. */
  function GetNdviAlerts(parcelId: Option<string>, severity: Option<string>): (r: seq<Alert>)
    ensures !PresentText(parcelId) && !PresentText(severity) ==> r == ActiveAlerts()
    ensures forall a :: a in r <==>
      a in ActiveAlerts() && Filters.Matches(a, ParcelOf, parcelId) && Filters.Matches(a, SeverityOf, severity)
  {
    FilterAlerts(ActiveAlerts(), parcelId, severity)
  }

  /** The two filters form one conjunctive filter, so the result is an order-preserving
      subsequence of the alerts. */
  lemma FilterAlertsOrdered(alerts: seq<Alert>, parcelId: Option<string>, severity: Option<string>)
    ensures var both := a => Filters.Matches(a, ParcelOf, parcelId) && Filters.Matches(a, SeverityOf, severity);
      && FilterAlerts(alerts, parcelId, severity) == Filters.Filter(alerts, both)
      && Filters.SubsequenceAt(FilterAlerts(alerts, parcelId, severity), alerts, Filters.Kept(alerts, both))
  {
    var both := a => Filters.Matches(a, ParcelOf, parcelId) && Filters.Matches(a, SeverityOf, severity);
    Filters.WhereWhere(alerts, ParcelOf, parcelId, SeverityOf, severity);
    Filters.FilterIsSubsequence(alerts, both);
  }

  // ---------------------------------------------------------------------------
  // Thresholds
  // ---------------------------------------------------------------------------

  datatype Thresholds = Thresholds(lowNdvi: Option<real>, rapidDecline: Option<real>)

  const DefaultThresholds := Thresholds(Some(0.3), Some(0.15))

  datatype ThresholdsUpdate = ThresholdsUpdate(parcelId: string, thresholds: Thresholds, message: string)

  function OptionalReal(x: Option<real>): Json {
    if x.Some? then JReal(x.value) else JNull
  }

  /** The NGSI-LD PATCH of the parcel's `ndviThresholds` property. */
  function ThresholdsRequest(s: Config.Settings, tenant: string, parcelId: string, t: Thresholds): Request {
    Request("PATCH", s.orionUrl + "/ngsi-ld/v1/entities/" + parcelId + "/attrs", [],
            map["Content-Type" := "application/json", "NGSILD-Tenant" := tenant,
                "Link" := "<" + s.contextUrl + ">; rel=\"http://www.w3.org/ns/json-ld#context\"; type=\"application/ld+json\""],
            Some(JObj(map["ndviThresholds" := JObj(map["type" := JStr("Property"),
              "value" := JObj(map["lowNdvi" := OptionalReal(t.lowNdvi), "rapidDecline" := OptionalReal(t.rapidDecline)])])])))
  }

  /** `PUT /sentinel/parcels/{id}/thresholds`: one PATCH is attempted and its outcome is
      ignored; the reply always echoes the parcel and the thresholds. */
  function SetAlertThresholds(s: Config.Settings, tenant: string, parcelId: string, t: Thresholds,
                              send: Request -> Outcome): (r: Handled<ThresholdsUpdate>)
    ensures r.sent == [ThresholdsRequest(s, tenant, parcelId, t)]
    ensures r.reply.Ok?
    ensures r.reply.value.parcelId == parcelId && r.reply.value.thresholds == t
    ensures r.reply.value.message == "Thresholds updated"
  {
    var q := ThresholdsRequest(s, tenant, parcelId, t);
    Handled(Ok(ThresholdsUpdate(parcelId, t, "Thresholds updated")), [q])
  }

  /** The reply does not depend on what Orion-LD answered. */
  lemma ThresholdsIgnoreOutcome(s: Config.Settings, tenant: string, parcelId: string, t: Thresholds,
                                send1: Request -> Outcome, send2: Request -> Outcome)
    ensures SetAlertThresholds(s, tenant, parcelId, t, send1) == SetAlertThresholds(s, tenant, parcelId, t, send2)
  {
  }
}
