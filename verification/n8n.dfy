/** The n8n router: an authenticated client for the n8n REST API and the workflow and
    execution routes built on it. Every route lets an HTTP error from the client
    through unchanged and replaces any other exception by a fallback. */
module N8n {
  import opened Wrappers
  import opened Http
  import opened Text
  import Config
  import Filters

  const ApiPrefix := "/api/v1"
  const KeyHeader := "X-N8N-API-KEY"

  /** The client's headers: the API key, only when one is configured. */
  function ApiHeaders(s: Config.Settings): (h: Headers)
    ensures KeyHeader in h <==> s.n8nApiKey != ""
    ensures KeyHeader in h ==> h[KeyHeader] == s.n8nApiKey
    ensures forall k :: k in h ==> k == KeyHeader
  {
    if s.n8nApiKey != "" then map[KeyHeader := s.n8nApiKey] else map[]
  }

  /** The request `n8n_request(method, path, json_data)` sends. */
  function ApiRequest(s: Config.Settings, verb: string, path: string, body: Option<Json>): (q: Request)
    ensures q.verb == verb && q.body == body && q.query == [] && q.headers == ApiHeaders(s)
    ensures |q.url| == |s.n8nUrl| + |ApiPrefix| + |path|
  {
    Request(verb, s.n8nUrl + ApiPrefix + path, [], ApiHeaders(s), body)
  }

  /** The URL is the configured base, then `/api/v1`, then the route's path. */
  lemma ApiRequestUrl(s: Config.Settings, verb: string, path: string, body: Option<Json>)
    ensures IsPrefix(s.n8nUrl + ApiPrefix, ApiRequest(s, verb, path, body).url)
    ensures IsSuffix(path, ApiRequest(s, verb, path, body).url)
  {
    PrefixOfConcat(s.n8nUrl + ApiPrefix, path);
    SuffixOfConcat(s.n8nUrl + ApiPrefix, path);
  }

  function ApiErrorDetail(text: string): string {
    "n8n API error: " + text
  }

  function UnavailableDetail(reason: string): string {
    "n8n service unavailable: " + reason
  }

  /** What `n8n_request` makes of one outcome: the decoded body, an HTTPException
      carrying the upstream status, a 503 for a transport failure, or an escaping
      exception (a non-JSON body, an error outside httpx.RequestError). */
  function ApiCall(o: Outcome): (r: Reply<Json>)
    ensures r.Ok? <==> Passed(o) && o.json.Some?
    ensures r.Ok? ==> r.value == o.json.value
    ensures o.Responded? && !IsSuccess(o.status) ==> r == HttpError(o.status, ApiErrorDetail(o.text))
    ensures o.TimedOut? || o.Unreachable? ==> r == HttpError(503, UnavailableDetail(o.reason))
    ensures r.ServerError? <==> o.Crashed? || (Passed(o) && o.json.None?)
  {
    match Fetch(o)
    case Done(j) => Ok(j)
    case Threw(StatusFault(code, text)) => HttpError(code, ApiErrorDetail(text))
    case Threw(RequestFault(_, reason)) => HttpError(503, UnavailableDetail(reason))
    case Threw(f) => ServerError(f)
  }

  /** `except HTTPException: raise` followed by `except Exception: <fallback>`. */
  function Rescue<T>(r: Reply<T>, fallback: Reply<T>): (r': Reply<T>)
    ensures !r.ServerError? ==> r' == r
    ensures r.ServerError? ==> r' == fallback
  {
    if r.ServerError? then fallback else r
  }

  /** How a route that returns n8n's answer reacts to the outcome `o` of its one call:
      a decoded 2xx body is the reply; an upstream status error keeps its code and a
      transport error becomes 503 (both raised by the client and re-raised by the
      route); any other exception is replaced by the route's `fallback`. */
  predicate Forwards(o: Outcome, reply: Reply<Json>, fallback: Reply<Json>) {
    && (Passed(o) && o.json.Some? ==> reply == Ok(o.json.value))
    && (o.Responded? && !IsSuccess(o.status) ==> reply == HttpError(o.status, ApiErrorDetail(o.text)))
    && (o.TimedOut? || o.Unreachable? ==> reply == HttpError(503, UnavailableDetail(o.reason)))
    && (o.Crashed? || (Passed(o) && o.json.None?) ==> reply == fallback)
  }

  // ---------------------------------------------------------------------------
  // Workflows
  // ---------------------------------------------------------------------------

  /** `w.get("active") == active` for a decoded workflow. JSON numbers 1 and 0 compare
      equal to True and False in Python (1.0 and 0.0 as well), so they match too. */
  predicate ActiveMatches(w: Json, flag: bool) {
    && w.JObj?
    && "active" in w.fields
    && (|| w.fields["active"] == JBool(flag)
        || w.fields["active"] == JNum(if flag then 1 else 0)
        || w.fields["active"] == JReal(if flag then 1.0 else 0.0))
  }

  function ActiveIs(flag: bool): (p: Json -> bool)
    ensures forall w :: p(w) <==> ActiveMatches(w, flag)
  {
    w => ActiveMatches(w, flag)
  }

  /** `[w for w in workflows if w.get("active") == active]` on whatever `data["data"]`
      held. None when the comprehension raises: iterating a scalar, or calling `.get`
      on an element that is not an object (the characters of a string and the keys of
      an object are such elements, so only the empty string and object pass). */
  function Narrow(ws: Json, flag: bool): (r: Option<Json>)
    ensures r.Some? ==> r.value.JArr?
    ensures ws.JArr? ==> (r.Some? <==> forall i :: 0 <= i < |ws.items| ==> ws.items[i].JObj?)
    ensures ws.JArr? && r.Some? ==> forall w :: w in r.value.items <==> w in ws.items && ActiveMatches(w, flag)
    ensures !ws.JArr? && r.Some? ==> r.value.items == []
  {
    match ws
    case JArr(items) =>
      if forall i :: 0 <= i < |items| ==> items[i].JObj? then Some(JArr(Filters.Filter(items, ActiveIs(flag)))) else None
    case JObj(fields) => if |fields| == 0 then Some(JArr([])) else None
    case JStr(t) => if |t| == 0 then Some(JArr([])) else None
    case _ => None
  }

  /** `data.get("data", [])` and the optional filter; None when either step raises
      (a body that is not an object has no `.get`). */
  function SelectWorkflows(data: Json, active: Option<bool>): (r: Option<Json>)
    ensures !data.JObj? ==> r.None?
    ensures data.JObj? && "data" !in data.fields ==> r == Some(JArr([]))
    ensures data.JObj? && "data" in data.fields && active.None? ==> r == Some(data.fields["data"])
  {
    if !data.JObj? then None
    else
      var ws := if "data" in data.fields then data.fields["data"] else JArr([]);
      if active.None? then Some(ws) else Narrow(ws, active.value)
  }

  function MockWorkflow(id: string, name: string): Json {
    JObj(map["id" := JStr(id), "name" := JStr(name), "active" := JBool(true),
             "createdAt" := JStr("2025-01-01T00:00:00.000Z"),
             "updatedAt" := JStr("2025-01-10T00:00:00.000Z")])
  }

  /** The development fallback listing: four active workflows. */
  function MockWorkflows(): (r: Json)
    ensures r.JArr? && |r.items| == 4
    ensures forall i :: 0 <= i < |r.items| ==> ActiveMatches(r.items[i], true)
  {
    JArr([MockWorkflow("1", "NDVI Alert Pipeline"), MockWorkflow("2", "Production Prediction"),
          MockWorkflow("3", "Pest Detection Alerts"), MockWorkflow("4", "Risk Notifications")])
  }

  /** `GET /n8n/workflows`: the listing that the response carries under "workflows". */
  function ListWorkflows(s: Config.Settings, active: Option<bool>, send: Request -> Outcome): (r: Handled<Json>)
    ensures r.sent == [ApiRequest(s, "GET", "/workflows", None)]
    ensures !r.reply.ServerError?
    ensures r.reply.HttpError? <==> !Passed(send(r.sent[0])) && !send(r.sent[0]).Crashed?
    ensures r.reply.HttpError? ==> r.reply == ApiCall(send(r.sent[0]))
    ensures var o := send(r.sent[0]);
      Passed(o) && o.json.Some? && SelectWorkflows(o.json.value, active).Some? ==>
        r.reply == Ok(SelectWorkflows(o.json.value, active).value)
    ensures var o := send(r.sent[0]);
      o.Crashed? || (Passed(o) && (o.json.None? || SelectWorkflows(o.json.value, active).None?)) ==>
        r.reply == Ok(MockWorkflows())
  {
    var q := ApiRequest(s, "GET", "/workflows", None);
    var listed := match ApiCall(send(q))
      case Ok(data) => (match SelectWorkflows(data, active) case Some(ws) => Ok(ws) case None => Ok(MockWorkflows()))
      case other => other;
    Handled(Rescue(listed, Ok(MockWorkflows())), [q])
  }

  /** With a flag, a well-formed listing keeps exactly the workflows whose "active" equals
      the flag, in their original order. */
  lemma ListWorkflowsFilters(s: Config.Settings, flag: bool, send: Request -> Outcome,
                             fields: map<string, Json>, items: seq<Json>)
    requires Passed(send(ApiRequest(s, "GET", "/workflows", None)))
    requires send(ApiRequest(s, "GET", "/workflows", None)).json == Some(JObj(fields))
    requires "data" in fields && fields["data"] == JArr(items)
    requires forall i :: 0 <= i < |items| ==> items[i].JObj?
    ensures var r := ListWorkflows(s, Some(flag), send);
      && r.reply.Ok? && r.reply.value.JArr?
      && (forall w :: w in r.reply.value.items <==> w in items && ActiveMatches(w, flag))
      && Filters.SubsequenceAt(r.reply.value.items, items, Filters.Kept(items, ActiveIs(flag)))
  {
    var q := ApiRequest(s, "GET", "/workflows", None);
    var kept := Filters.Filter(items, ActiveIs(flag));
    assert ApiCall(send(q)) == Ok(JObj(fields));
    assert Narrow(JArr(items), flag) == Some(JArr(kept));
    assert ListWorkflows(s, Some(flag), send).reply == Ok(JArr(kept));
    Filters.FilterIsSubsequence(items, ActiveIs(flag));
  }

  /** Without a flag the listing is passed through; a body without "data" lists nothing. */
  lemma ListWorkflowsUnfiltered(s: Config.Settings, active: Option<bool>, send: Request -> Outcome, fields: map<string, Json>)
    requires Passed(send(ApiRequest(s, "GET", "/workflows", None)))
    requires send(ApiRequest(s, "GET", "/workflows", None)).json == Some(JObj(fields))
    ensures active.None? && "data" in fields ==> ListWorkflows(s, active, send).reply == Ok(fields["data"])
    ensures "data" !in fields ==> ListWorkflows(s, active, send).reply == Ok(JArr([]))
  {
  }

  function WorkflowNotFound(id: string): string {
    "Workflow " + id + " not found"
  }

  /** `GET /n8n/workflows/{id}`: n8n's document; an exception other than the client's
      HTTP errors becomes 404. */
  function GetWorkflow(s: Config.Settings, id: string, send: Request -> Outcome): (r: Handled<Json>)
    ensures r.sent == [ApiRequest(s, "GET", "/workflows/" + id, None)]
    ensures Forwards(send(r.sent[0]), r.reply, HttpError(404, WorkflowNotFound(id)))
    ensures !r.reply.ServerError?
    ensures r.reply.Ok? <==> Passed(send(r.sent[0])) && send(r.sent[0]).json.Some?
    ensures send(r.sent[0]).Crashed? || (Passed(send(r.sent[0])) && send(r.sent[0]).json.None?) ==>
      r.reply == HttpError(404, WorkflowNotFound(id))
    ensures send(r.sent[0]).Responded? && !IsSuccess(send(r.sent[0]).status) ==> r.reply.code == send(r.sent[0]).status
  {
    var q := ApiRequest(s, "GET", "/workflows/" + id, None);
    Handled(Rescue(ApiCall(send(q)), HttpError(404, WorkflowNotFound(id))), [q])
  }

  function TogglePath(id: string, active: bool): string {
    "/workflows/" + id + (if active then "/activate" else "/deactivate")
  }

  function ToggleEcho(id: string, active: bool): Json {
    JObj(map["id" := JStr(id), "active" := JBool(active), "message" := JStr("Workflow status updated (mock)")])
  }

  /** `PUT /n8n/workflows/{id}/active`: POSTs without a body to the path chosen by the
      flag (see ToggleTargets); any exception other than the client's HTTP errors
      yields a mock echo of the id and flag. */
  function ToggleWorkflow(s: Config.Settings, id: string, active: bool, send: Request -> Outcome): (r: Handled<Json>)
    ensures r.sent == [ApiRequest(s, "POST", TogglePath(id, active), None)]
    ensures Forwards(send(r.sent[0]), r.reply, Ok(ToggleEcho(id, active)))
    ensures !r.reply.ServerError?
    ensures r.reply.Ok? <==> Passed(send(r.sent[0])) || send(r.sent[0]).Crashed?
    ensures send(r.sent[0]).Crashed? || (Passed(send(r.sent[0])) && send(r.sent[0]).json.None?) ==>
      r.reply == Ok(ToggleEcho(id, active))
  {
    var q := ApiRequest(s, "POST", TogglePath(id, active), None);
    Handled(Rescue(ApiCall(send(q)), Ok(ToggleEcho(id, active))), [q])
  }

  /** Activation targets `/activate` and deactivation `/deactivate`, never the other. */
  lemma ToggleTargets(s: Config.Settings, id: string, active: bool)
    ensures IsSuffix("/activate", ApiRequest(s, "POST", TogglePath(id, active), None).url) <==> active
    ensures IsSuffix("/deactivate", ApiRequest(s, "POST", TogglePath(id, active), None).url) <==> !active
  {
    var base := s.n8nUrl + ApiPrefix + "/workflows/" + id;
    assert ApiRequest(s, "POST", TogglePath(id, active), None).url == base + (if active then "/activate" else "/deactivate");
    ToggleSuffixes(base);
  }

  /** The two toggle targets are told apart by their last segment. */
  lemma ToggleSuffixes(base: string)
    ensures IsSuffix("/activate", base + "/activate") && !IsSuffix("/deactivate", base + "/activate")
    ensures IsSuffix("/deactivate", base + "/deactivate") && !IsSuffix("/activate", base + "/deactivate")
  {
    var a, d := base + "/activate", base + "/deactivate";
    SuffixOfConcat(base, "/activate");
    SuffixOfConcat(base, "/deactivate");
    assert d[|d| - 9] == 'e';
  }

  // ---------------------------------------------------------------------------
  // Execution
  // ---------------------------------------------------------------------------

  datatype ExecuteRequest = ExecuteRequest(
    entityId: Option<string>,
    entityType: Option<string>,
    data: Option<map<string, Json>>)

  /** The caller-supplied `data` that is merged into the payload (a missing or empty dict merges nothing). */
  function Extra(req: Option<ExecuteRequest>): map<string, Json> {
    if req.Some? && req.value.data.Some? then req.value.data.value else map[]
  }

  /** The body sent to `/workflows/{id}/run`: the caller's identity, then the truthy
      entity fields, then the caller's `data`, whose keys win. */
  function ExecutionPayload(tenant: string, userId: string, userEmail: string, req: Option<ExecuteRequest>): (p: map<string, Json>)
    ensures forall k :: k in Extra(req) ==> k in p && p[k] == Extra(req)[k]
    ensures "tenantId" in p && "userId" in p && "userEmail" in p
    ensures "tenantId" !in Extra(req) ==> p["tenantId"] == JStr(tenant)
    ensures "userId" !in Extra(req) ==> p["userId"] == JStr(userId)
    ensures "userEmail" !in Extra(req) ==> p["userEmail"] == JStr(userEmail)
    ensures "entityId" !in Extra(req) ==>
      ("entityId" in p <==> req.Some? && PresentText(req.value.entityId)) &&
      ("entityId" in p ==> p["entityId"] == JStr(req.value.entityId.value))
    ensures "entityType" !in Extra(req) ==>
      ("entityType" in p <==> req.Some? && PresentText(req.value.entityType)) &&
      ("entityType" in p ==> p["entityType"] == JStr(req.value.entityType.value))
    ensures forall k :: k in p ==> k in Extra(req) || k in {"tenantId", "userId", "userEmail", "entityId", "entityType"}
  {
    var base := map["tenantId" := JStr(tenant), "userId" := JStr(userId), "userEmail" := JStr(userEmail)];
    if req.None? then base
    else
      var r := req.value;
      var withId := if PresentText(r.entityId) then base["entityId" := JStr(r.entityId.value)] else base;
      var withType := if PresentText(r.entityType) then withId["entityType" := JStr(r.entityType.value)] else withId;
      if r.data.Some? && |r.data.value| > 0 then withType + r.data.value else withType
  }

  function MockExecution(workflowId: string, executionId: string): Json {
    JObj(map["executionId" := JStr(executionId), "workflowId" := JStr(workflowId),
             "status" := JStr("running"), "startedAt" := JStr("2025-01-12T00:00:00.000Z")])
  }

  /** `POST /n8n/workflows/{id}/execute`; `executionId` stands for the fresh uuid of the fallback. */
  function ExecuteWorkflow(s: Config.Settings, id: string, tenant: string, userId: string, userEmail: string,
                           req: Option<ExecuteRequest>, executionId: string, send: Request -> Outcome): (r: Handled<Json>)
    ensures r.sent == [ApiRequest(s, "POST", "/workflows/" + id + "/run", Some(JObj(ExecutionPayload(tenant, userId, userEmail, req))))]
    ensures Forwards(send(r.sent[0]), r.reply, Ok(MockExecution(id, executionId)))
    ensures !r.reply.ServerError?
    ensures r.reply.Ok? && !Passed(send(r.sent[0])) ==> r.reply.value == MockExecution(id, executionId)
    ensures send(r.sent[0]).Crashed? ==> r.reply.Ok?
  {
    var q := ApiRequest(s, "POST", "/workflows/" + id + "/run", Some(JObj(ExecutionPayload(tenant, userId, userEmail, req))));
    Handled(Rescue(ApiCall(send(q)), Ok(MockExecution(id, executionId))), [q])
  }

  // ---------------------------------------------------------------------------
  // Executions
  // ---------------------------------------------------------------------------

  /** `params += f"&{key}={value}"`, done only when the value is truthy. */
  function AppendParam(q: string, key: string, v: Option<string>): string {
    if PresentText(v) then q + "&" + key + "=" + v.value else q
  }

  /** The query string `list_executions` builds by appending to `?limit=...`
      (see ExecutionsQueryRendersParams for its order). */
  function ExecutionsQuery(limit: int, workflowId: Option<string>, status: Option<string>): (q: string)
    ensures IsPrefix("?limit=" + IntToString(limit), q)
  {
    var head := "?limit=" + IntToString(limit);
    var withId := AppendParam(head, "workflowId", workflowId);
    AppendParamExtends(head, "workflowId", workflowId);
    AppendParamExtends(withId, "status", status);
    PrefixTransitive(head, withId, AppendParam(withId, "status", status));
    AppendParam(withId, "status", status)
  }

  /** Appending never disturbs what is already there. */
  lemma AppendParamExtends(q: string, key: string, v: Option<string>)
    ensures IsPrefix(q, AppendParam(q, key, v))
  {
    if PresentText(v) {
      assert q + "&" + key + "=" + v.value == q + ("&" + key + "=" + v.value);
      PrefixOfConcat(q, "&" + key + "=" + v.value);
    } else {
      assert q[..|q|] == q;
    }
  }

  /** The executions query string always starts with `?limit=<limit>`. */
  lemma ExecutionsQueryStartsWithLimit(limit: int, workflowId: Option<string>, status: Option<string>)
    ensures IsPrefix("?limit=" + IntToString(limit), ExecutionsQuery(limit, workflowId, status))
  {
    var head := "?limit=" + IntToString(limit);
    AppendParamExtends(head, "workflowId", workflowId);
    AppendParamExtends(AppendParam(head, "workflowId", workflowId), "status", status);
    PrefixTransitive(head, AppendParam(head, "workflowId", workflowId), ExecutionsQuery(limit, workflowId, status));
  }

  /** The parameters of `list_executions`, in the order they are appended. */
  function ExecutionsParams(limit: int, workflowId: Option<string>, status: Option<string>): (ps: seq<(string, string)>)
    ensures |ps| == 1 + (if PresentText(workflowId) then 1 else 0) + (if PresentText(status) then 1 else 0)
    ensures ps[0] == ("limit", IntToString(limit))
    ensures PresentText(workflowId) ==> ps[1] == ("workflowId", workflowId.value)
    ensures PresentText(status) ==> ps[|ps| - 1] == ("status", status.value)
    ensures forall i :: 1 <= i < |ps| ==> ps[i].0 != "limit"
  {
    AddParam(AddParam([("limit", IntToString(limit))], "workflowId", workflowId), "status", status)
  }

  /** The limit is always first and reads back as the given number. */
  lemma ExecutionsLimitFirst(limit: int, workflowId: Option<string>, status: Option<string>)
    ensures ParseInt(ExecutionsParams(limit, workflowId, status)[0].1) == limit
  {
    IntToStringRoundTrip(limit);
  }

  function Assignments(ps: seq<(string, string)>): (r: seq<string>)
    ensures |r| == |ps|
    ensures forall i :: 0 <= i < |ps| ==> r[i] == ps[i].0 + "=" + ps[i].1
  {
    if |ps| == 0 then [] else Assignments(ps[..|ps| - 1]) + [ps[|ps| - 1].0 + "=" + ps[|ps| - 1].1]
  }

  /** The standard rendering of an ordered parameter list as a query string. */
  function RenderQuery(ps: seq<(string, string)>): string {
    if |ps| == 0 then "" else "?" + Join("&", Assignments(ps))
  }

  /** The hand-built query string is the standard rendering of the ordered parameters:
      limit first, then workflowId, then status, each only when given. */
  lemma ExecutionsQueryRendersParams(limit: int, workflowId: Option<string>, status: Option<string>)
    ensures ExecutionsQuery(limit, workflowId, status) == RenderQuery(ExecutionsParams(limit, workflowId, status))
  {
    var first := [("limit", IntToString(limit))];
    assert first[..0] == [];
    assert "?limit=" == "?" + "limit" + "=";
    assert RenderQuery(first) == "?limit=" + IntToString(limit);
    RenderAddParam(first, "workflowId", workflowId);
    RenderAddParam(AddParam(first, "workflowId", workflowId), "status", status);
  }

  /** Adding a parameter to the list appends it to the rendering. */
  lemma RenderAddParam(ps: seq<(string, string)>, key: string, v: Option<string>)
    requires |ps| > 0
    ensures RenderQuery(AddParam(ps, key, v)) == AppendParam(RenderQuery(ps), key, v)
  {
    if PresentText(v) {
      var p := (key, v.value);
      AssignmentsSnoc(ps, p);
      JoinAppend("&", Assignments(ps), key + "=" + v.value);
      Reassociate(Join("&", Assignments(ps)), key, v.value);
    }
  }

  lemma AssignmentsSnoc(ps: seq<(string, string)>, p: (string, string))
    ensures Assignments(ps + [p]) == Assignments(ps) + [p.0 + "=" + p.1]
  {
    assert (ps + [p])[..|ps|] == ps;
  }

  lemma Reassociate(j: string, key: string, value: string)
    ensures "?" + (j + "&" + (key + "=" + value)) == ("?" + j) + "&" + key + "=" + value
  {
  }

  function MockExecutions(): Json {
    JObj(map["executions" := JArr([
      JObj(map["id" := JStr("exec-1"), "workflowId" := JStr("1"), "finished" := JBool(true),
               "mode" := JStr("trigger"), "startedAt" := JStr("2025-01-12T10:00:00.000Z"),
               "stoppedAt" := JStr("2025-01-12T10:00:05.000Z"), "status" := JStr("success")]),
      JObj(map["id" := JStr("exec-2"), "workflowId" := JStr("2"), "finished" := JBool(false),
               "mode" := JStr("webhook"), "startedAt" := JStr("2025-01-12T10:05:00.000Z"),
               "status" := JStr("running")])])])
  }

  /** The page size `list_executions` asks for when the caller gives none. */
  const DefaultExecutionsLimit: int := 20

  /** Without arguments, the executions route asks n8n for twenty executions and nothing else. */
  lemma DefaultExecutionsQuery()
    ensures ExecutionsQuery(DefaultExecutionsLimit, None, None) == "?limit=20"
    ensures ExecutionsParams(DefaultExecutionsLimit, None, None) == [("limit", "20")]
  {
    assert DigitChar(2) == '2' && DigitChar(0) == '0';
    assert NatToString(2) == "2";
    assert IntToString(20) == NatToString(2) + [DigitChar(0)] == "20";
  }

  /** `GET /n8n/executions`: the query string rides in the path; any exception other
      than the client's HTTP errors yields the mock listing. */
  function ListExecutions(s: Config.Settings, workflowId: Option<string>, status: Option<string>, limit: int,
                          send: Request -> Outcome): (r: Handled<Json>)
    ensures r.sent == [ApiRequest(s, "GET", "/executions" + ExecutionsQuery(limit, workflowId, status), None)]
    ensures Forwards(send(r.sent[0]), r.reply, Ok(MockExecutions()))
    ensures !r.reply.ServerError?
    ensures r.reply.Ok? <==> Passed(send(r.sent[0])) || send(r.sent[0]).Crashed?
    ensures r.reply.Ok? && !(Passed(send(r.sent[0])) && send(r.sent[0]).json.Some?) ==> r.reply.value == MockExecutions()
  {
    var q := ApiRequest(s, "GET", "/executions" + ExecutionsQuery(limit, workflowId, status), None);
    Handled(Rescue(ApiCall(send(q)), Ok(MockExecutions())), [q])
  }

  function ExecutionNotFound(id: string): string {
    "Execution " + id + " not found"
  }

  /** `GET /n8n/executions/{id}`: as GetWorkflow, with its own 404 detail. */
  function GetExecution(s: Config.Settings, id: string, send: Request -> Outcome): (r: Handled<Json>)
    ensures r.sent == [ApiRequest(s, "GET", "/executions/" + id, None)]
    ensures Forwards(send(r.sent[0]), r.reply, HttpError(404, ExecutionNotFound(id)))
    ensures !r.reply.ServerError?
    ensures r.reply.Ok? <==> Passed(send(r.sent[0])) && send(r.sent[0]).json.Some?
    ensures send(r.sent[0]).Crashed? || (Passed(send(r.sent[0])) && send(r.sent[0]).json.None?) ==>
      r.reply == HttpError(404, ExecutionNotFound(id))
    ensures send(r.sent[0]).Responded? && !IsSuccess(send(r.sent[0]).status) ==> r.reply.code == send(r.sent[0]).status
  {
    var q := ApiRequest(s, "GET", "/executions/" + id, None);
    Handled(Rescue(ApiCall(send(q)), HttpError(404, ExecutionNotFound(id))), [q])
  }
}
