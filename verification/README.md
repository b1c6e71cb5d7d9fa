# Integration hub backend — Dafny model

This project models the request-handling rules of a FastAPI backend. The backend
fronts several agricultural integrations:

- the n8n workflow engine;
- a ROS 2 robot bridge;
- Odoo ERP;
- a Sentinel-2 NDVI worker;
- an email notification service;
- an in-memory webhook registry.

Almost every route forwards one HTTP call and falls back to fixed development data
when the call fails. The model replaces each call by an input:

- `send: Request -> Outcome` gives what the network answered: a response with status, text and decoded JSON, a timeout, another transport error, or a non-httpx exception.
- Each route returns `Handled(reply, sent)`. `reply` is the route's answer: a value, an explicit `HTTPException`, or an escaped exception that FastAPI turns into a 500. `sent` is the exact list of outbound requests.
- "Validated before any outbound call" is therefore `sent == []`.
- Exceptions are kept structured as `Http.Fault` values.

Modules follow the source layout:

| module | what it models |
|---|---|
| `Config` | the settings and their derived URLs |
| `Health` | probe classification, the six-entry aggregate and lookup by id |
| `Webhooks` | the ordered registry: ids in insertion order plus a map from id to record |
| `Notifications` | the channel×recipient fan-out and the test send |
| `N8n` | the n8n client and its routes |
| `Ros2` | the ROS 2 bridge routes |
| `Odoo` | the Odoo routes |
| `Sentinel` | the Sentinel worker routes |

Shared modules:

| module | contents |
|---|---|
| `Wrappers` | `Option`, and Python truthiness of optional strings and numbers |
| `Text` | decimal rendering and parsing, `join`, Python list `repr`, prefix and suffix |
| `Filters` | the order-preserving list comprehension with its subsequence witness, and the optional-field filter `Where` |
| `Http` | JSON, requests, outcomes, `raise_for_status`, query parameter lists |

Python's truthiness is written out explicitly:

- `if x:` on an optional string means present and non-empty;
- on an optional number it means present and non-zero.

httpx's `raise_for_status()` accepts exactly the 2xx codes.

The model follows the code as written, including where the routes' own comments and
docstrings suggest otherwise. Two examples:

- In the n8n client, a transport error is turned into an `HTTPException(503)` inside `n8n_request`. The routes re-raise every `HTTPException`. So the development fallbacks of the n8n routes fire only on other exceptions (an undecodable body, a crash), not when n8n is unreachable.
- An `odoo/sync` body whose `entities` is null does not fall back to the defaults. See Findings.

## Model

| member | source | states |
|---|---|---|
| Config.JwtIssuerUrl | backend/app/config.py:71-76 | an explicit issuer is returned unchanged; otherwise the issuer starts with the Keycloak URL followed by "/realms/", ends with the realm, and has exactly the length of those three parts |
| Config.JwksUrl | backend/app/config.py:78-81 | the key-set URL is the issuer followed by the OpenID Connect certificate path |
| Config.IntelligenceBaseUrl | backend/app/config.py:83-86 | the intelligence base is the service URL followed by its API prefix |
| Config.IssuerOverrideIgnoresKeycloak | backend/app/config.py:71-81 | with an explicit issuer, changing the Keycloak URL or realm changes neither the issuer nor the key-set URL |
| Config.JwksUrlRecoversIssuer | backend/app/config.py:78-81 | removing the certificate path from the key-set URL gives back the issuer |
| Config.DefaultsDeriveIssuer | backend/app/config.py:11-76 | by default Odoo has no URL and the issuer is derived from Keycloak |
| Health.Services | backend/app/routers/health.py:69-75 | five probed services, in the order n8n, intelligence, sentinel, notifications, ros2 |
| Health.ProbeRequest | backend/app/routers/health.py:26-31 | a probe is a bodiless GET, without query or headers, of exactly the base URL followed by the health path |
| Health.CheckService | backend/app/routers/health.py:26-66 | a 200 is healthy; any other code is degraded with "HTTP code"; a timeout is unhealthy with "Timeout"; any other failure is unknown with its text; only a response carries a latency; the probe never raises, given a clock that does not fail |
| Health.Assess | backend/app/routers/health.py:77-87 | a service without a URL is unknown with "Not configured"; a configured service's entry is the classification of the answer to its own probe |
| Health.ProbeRequests | backend/app/routers/health.py:77-87 | one probe per service, in the services' order |
| Health.Survey | backend/app/routers/health.py:77-87 | one entry per service in order, and probes are sent exactly for the configured services, in order |
| Health.OdooHealth | backend/app/routers/health.py:89-103 | Odoo is healthy if and only if its URL is set, otherwise unknown with "Not configured"; it carries no latency |
| Health.IntegrationsHealth | backend/app/routers/health.py:14-105 | six entries, ids in the fixed order, Odoo last; at most five probes, exactly for the configured services; the route never fails |
| Health.IntegrationIdsDistinct | backend/app/routers/health.py:69-103 | the six ids are pairwise distinct |
| Health.AggregateDependsOnlyOnProbes | backend/app/routers/health.py:77-103 | two networks that agree on the probes actually sent give the same aggregate |
| Health.FindById | backend/app/routers/health.py:117-119 | the first entry with the id, or none exactly when no entry has it |
| Health.IntegrationHealthById | backend/app/routers/health.py:108-126 | a known id returns that aggregate entry; an unknown id returns unknown, named by the id, with "Integration not found" |
| Webhooks.SeedValid | backend/app/routers/webhooks.py:43-62 | the two seed records form a consistent registry |
| Webhooks.ValidCardinality | backend/app/routers/webhooks.py:43-62 | in a consistent registry the listing order has one id per record |
| Webhooks.ListWebhooks | backend/app/routers/webhooks.py:69-75 | every record exactly once, in insertion order |
| Webhooks.FirstInvalid | backend/app/routers/webhooks.py:97-102 | the position of the first event outside the allow-list, all earlier events being allowed |
| Webhooks.Put | backend/app/routers/webhooks.py:116 | a dict assignment: the key gets the record, a new key goes last, an existing key keeps its place |
| Webhooks.CreateWebhook | backend/app/routers/webhooks.py:78-118 | succeeds if and only if every event is allowed; on failure, 400 naming the first bad event and the registry untouched; on success one "wh-" record with the request's fields, no trigger time and zero failures, stored under its id: a new id is listed last, a colliding id keeps its place and the listing order is otherwise unchanged |
| Webhooks.Apply | backend/app/routers/webhooks.py:137-146 | exactly the fields given in the update change; id, last trigger and failure count never do |
| Webhooks.UpdateWebhook | backend/app/routers/webhooks.py:121-148 | 404 with the registry untouched for an unknown id; otherwise only that record is patched, in place |
| Webhooks.DeleteWebhook | backend/app/routers/webhooks.py:151-165 | 404 with the registry untouched for an unknown id; otherwise exactly that key is removed and every other record and its order are kept |
| Webhooks.FilterKeepsDistinct | backend/app/routers/webhooks.py:164 | removing ids keeps the listing duplicate-free |
| Webhooks.TestRequest | backend/app/routers/webhooks.py:183-197 | a JSON POST to the record's URL; the secret header is present if and only if a non-empty secret is set |
| Webhooks.TestWebhook | backend/app/routers/webhooks.py:168-213 | 404 and no call for an unknown id; every response is reported, successful if and only if below 400, with its status code and its text as Python's `text[:500]` (Text.Take), none for an empty text; a transport error becomes a failed report with its text; any other exception escapes as a 500 |
| Webhooks.ApplyIdempotent | backend/app/routers/webhooks.py:137-146 | applying an update twice equals applying it once |
| Webhooks.ApplyNothingIsIdentity | backend/app/routers/webhooks.py:137-146 | an update with no field set leaves the record unchanged |
| Webhooks.UpdateIdempotent | backend/app/routers/webhooks.py:121-148 | repeating an update request yields the same registry and reply |
| Webhooks.UpdateSkipsEventValidation | backend/app/routers/webhooks.py:97-102 | an event that create rejects is accepted by update |
| Webhooks.ErrorsLeaveStoreUnchanged | backend/app/routers/webhooks.py:85-165 | a failed create, update or delete leaves the registry as it was |
| Webhooks.DeleteUndoesCreate | backend/app/routers/webhooks.py:104-165 | deleting a freshly created record restores the registry exactly |
| Notifications.Dispatch | backend/app/routers/notifications.py:60-94 | an email pair sends one POST and is sent if and only if it passes; any other channel is sent without a call; only failed rows carry an error |
| Notifications.Row | backend/app/routers/notifications.py:60-94 | one result per recipient, in recipient order, all email to the email service |
| Notifications.FanOutShape | backend/app/routers/notifications.py:59-94 | every result echoes a requested channel and recipient, is failed exactly when it carries an error, and every call goes to the email service |
| Notifications.FanOut | backend/app/routers/notifications.py:57-96 | the reference fan-out: the channels' rows of results and calls, in channel order; no channel or no recipient gives nothing, and every call goes to the email service |
| Notifications.FanOutLength | backend/app/routers/notifications.py:59-96 | exactly channels × recipients results |
| Notifications.FanOutAtPair | backend/app/routers/notifications.py:59-94 | position i·|recipients|+j holds channel i's attempt for recipient j |
| Notifications.FanOutAt | backend/app/routers/notifications.py:59-94 | the results are ordered channel-major, recipient-minor |
| Notifications.FanOutSnoc | backend/app/routers/notifications.py:59-94 | one more channel appends that channel's row of results and calls |
| Notifications.RowSnoc | backend/app/routers/notifications.py:60-94 | one more recipient appends that recipient's result and call |
| Notifications.SendRow | backend/app/routers/notifications.py:60-94 | the loop over one channel's recipients computes that channel's row |
| Notifications.SendNotification | backend/app/routers/notifications.py:40-96 | the nested loop computes the channel-major fan-out, channels × recipients results |
| Notifications.PairIsolation | backend/app/routers/notifications.py:61-94 | a pair's result depends only on the answer to its own request, whatever happens to the other pairs |
| Notifications.TestNotificationChannel | backend/app/routers/notifications.py:146-189 | echoes channel and recipient; a non-email channel is sent without a call; email is sent if and only if its POST passes, with "Test notification sent successfully"; only failures carry an error, and they carry no message |
| Notifications.TestAgreesWithDispatch | backend/app/routers/notifications.py:59-94 | given the same answer from the email service, testing a channel succeeds or fails, with the same exception and as many calls, as one pair of a send |
| N8n.ApiHeaders | backend/app/routers/n8n.py:44-47 | the API-key header is present if and only if a key is configured, and no other header is sent |
| N8n.ApiRequest | backend/app/routers/n8n.py:36-57 | the call keeps the route's method and body and the configured headers; the URL has the length of base + "/api/v1" + path |
| N8n.ApiRequestUrl | backend/app/routers/n8n.py:43 | the URL starts with the base followed by "/api/v1" and ends with the route's path |
| N8n.ApiCall | backend/app/routers/n8n.py:36-68 | a passed call with a JSON body yields that body; a status error keeps its code; a transport error becomes 503; anything else escapes |
| N8n.Narrow | backend/app/routers/n8n.py:87-90 | on a list of objects, keeps exactly the workflows whose "active" equals the flag; fails on a list that holds a non-object |
| N8n.SelectWorkflows | backend/app/routers/n8n.py:85-90 | a missing "data" key lists nothing; without a flag "data" passes through; a non-object body fails |
| N8n.MockWorkflows | backend/app/routers/n8n.py:95-128 | the fallback listing has four workflows, all active |
| N8n.ListWorkflows | backend/app/routers/n8n.py:75-128 | one GET of /workflows; an n8n status or transport error is re-raised; any other failure gives the fallback |
| N8n.ListWorkflowsFilters | backend/app/routers/n8n.py:85-92 | with a flag, the listing holds exactly the workflows whose "active" equals it, in their original order |
| N8n.ListWorkflowsUnfiltered | backend/app/routers/n8n.py:85-92 | without a flag the listing passes through; without "data" it is empty |
| N8n.GetWorkflow | backend/app/routers/n8n.py:131-146 | n8n's document on success; an n8n error keeps its code; any other failure is 404 naming the workflow |
| N8n.ToggleWorkflow | backend/app/routers/n8n.py:149-169 | one bodiless POST to the chosen path; it answers with a value exactly when the call passed or crashed |
| N8n.ToggleTargets | backend/app/routers/n8n.py:158-161 | activation targets "/activate" and deactivation "/deactivate", never the other |
| N8n.ToggleSuffixes | backend/app/routers/n8n.py:158-161 | the two targets are distinguished by their last segment |
| N8n.ExecutionPayload | backend/app/routers/n8n.py:184-196 | tenantId, userId and userEmail are always present; entityId and entityType only when non-empty; the caller's data is merged last and wins; no other keys |
| N8n.ExecuteWorkflow | backend/app/routers/n8n.py:172-216 | one POST of the payload to /workflows/{id}/run; only a non-httpx failure gives the "running" fallback |
| N8n.AppendParamExtends | backend/app/routers/n8n.py:237-240 | appending a parameter never disturbs the query built so far |
| N8n.ExecutionsQueryStartsWithLimit | backend/app/routers/n8n.py:236-240 | the executions query always starts with "?limit=" and the limit |
| N8n.ExecutionsParams | backend/app/routers/n8n.py:236-240 | limit first, then workflowId when given, then status when given, and nothing else |
| N8n.ExecutionsLimitFirst | backend/app/routers/n8n.py:236 | the first parameter reads back as the given limit |
| N8n.Assignments | backend/app/routers/n8n.py:236-240 | each parameter is rendered as key=value, in order |
| N8n.ExecutionsQuery | backend/app/routers/n8n.py:236-240 | the executions query string begins with "?limit=" and the limit, whatever else is appended |
| N8n.ExecutionsQueryRendersParams | backend/app/routers/n8n.py:236-240 | the hand-built query string is the standard rendering of the ordered parameter list |
| N8n.RenderAddParam | backend/app/routers/n8n.py:237-240 | adding a parameter to the list appends "&key=value" to its rendering |
| N8n.DefaultExecutionsQuery | backend/app/routers/n8n.py:227-240 | with no arguments the route asks for `limit=20` and no other parameter |
| N8n.ListExecutions | backend/app/routers/n8n.py:223-267 | one GET of /executions with the query; n8n errors are re-raised; any other failure gives the fallback listing |
| N8n.GetExecution | backend/app/routers/n8n.py:270-285 | n8n's document on success; an n8n error keeps its code; any other failure is 404 naming the execution |
| Ros2.ListRobots | backend/app/routers/ros2.py:40-88 | one tenant-scoped GET, answered as Http.FallsBack prescribes with the development listing as fallback |
| Ros2.RobotUnavailable | backend/app/routers/ros2.py:107-114 | the placeholder names the robot with status "unknown" and "Robot data unavailable" |
| Ros2.GetRobot | backend/app/routers/ros2.py:91-114 | one tenant-scoped GET, answered as Http.FallsBack prescribes with the "unknown" placeholder as fallback |
| Ros2.CommandEcho | backend/app/routers/ros2.py:156-162 | the fallback echoes robotId and command with accepted = true |
| Ros2.SendRobotCommand | backend/app/routers/ros2.py:117-162 | a command outside the six allowed ones is refused with 400 if and only if no call is made; otherwise one POST, answered as Http.FallsBack prescribes with the acceptance echo as fallback |
| Ros2.CommandParametersDefault | backend/app/routers/ros2.py:144-153 | a command without parameters is forwarded with an empty parameter object |
| Ros2.ListMissions | backend/app/routers/ros2.py:165-212 | a catalogue mission is listed if and only if it matches each given filter; without filters, the whole catalogue |
| Ros2.FilterMissions | backend/app/routers/ros2.py:207-212 | a mission is listed if and only if it is in the catalogue and matches each given filter; without filters, the whole list |
| Ros2.FilterMissionsOrdered | backend/app/routers/ros2.py:207-212 | the two filters equal one conjunctive filter, and the result is an order-preserving subsequence |
| Ros2.PendingMission | backend/app/routers/ros2.py:246-257 | the fallback mission is pending with progress 0, echoes name, robot, type and parcels, and has an 8-character id prefix |
| Ros2.CreateMission | backend/app/routers/ros2.py:215-257 | a type outside the five allowed ones is refused with 400 if and only if no call is made; otherwise one POST, answered as Http.FallsBack prescribes with the pending mission as fallback |
| Ros2.TelemetryStream | backend/app/routers/ros2.py:260-276 | the socket URL is the fixed prefix, the robot id, then "/telemetry/ws" |
| Ros2.TelemetryUrlsDistinct | backend/app/routers/ros2.py:270-276 | different robots get different sockets |
| Odoo.GetSyncStatus | backend/app/routers/odoo.py:34-57 | "not configured" if and only if no Odoo URL is set |
| Odoo.DefaultsNotConfigured | backend/app/config.py:51 | with default settings Odoo reports itself unconfigured |
| Odoo.TriggerSyncAsWritten | backend/app/routers/odoo.py:60-91 | 400 whenever unconfigured; without a body the three default entities; a body's list is used verbatim; a body without a list fails with 500 |
| Odoo.EmptySyncBodyFails | backend/app/routers/odoo.py:82-90 | the body `{}` makes the configured route fail |
| Odoo.TriggerSync | backend/app/routers/odoo.py:60-91 | the corrected route: 400 if and only if unconfigured, never 500, and the message names the synced entities |
| Odoo.TriggerSyncRefinesAsWritten | backend/app/routers/odoo.py:76-91 | the corrected route agrees with the written one wherever that one answers, and uses the defaults where it failed |
| Odoo.SyncMessageListsEntities | backend/app/routers/odoo.py:86-90 | the message lists the entities separated by ", " |
| Odoo.FilterHarvests | backend/app/routers/odoo.py:162-163 | a missing or zero parcel id filters nothing; otherwise exactly the records on that parcel |
| Odoo.FilterHarvestsOrdered | backend/app/routers/odoo.py:162-163 | the filtered harvests are an order-preserving subsequence |
| Odoo.PushToOdoo | backend/app/routers/odoo.py:168-204 | configuration is checked before the model; succeeds if and only if configured and the model is one of the four; the id lies in [1000, 9999] |
| Odoo.ConfigurationCheckedFirst | backend/app/routers/odoo.py:184-195 | unconfigured with a bad model reports the configuration error, which differs from the model error |
| Sentinel.WithDefaults | backend/app/routers/sentinel.py:21-27 | an analysis request defaults to NDVI and a 30% cloud-cover limit |
| Sentinel.QueuedJob | backend/app/routers/sentinel.py:78-87 | the fallback job is queued and echoes job id, parcel and indices |
| Sentinel.Relays | backend/app/routers/sentinel.py:71-87 | reference for the analysis route: a decoded 2xx document is the reply; a status error keeps the worker's code and text; a transport error gives the queued job; a crash or a body that is not JSON escapes as a 500 with that exception |
| Sentinel.RelaysDeterminesReply | backend/app/routers/sentinel.py:71-87 | the cases of Relays cover every outcome, so it fixes the reply |
| Sentinel.RequestAnalysis | backend/app/routers/sentinel.py:40-87 | one POST to the worker, answered exactly as Sentinel.Relays prescribes with the queued job for the request |
| Sentinel.ResultParams | backend/app/routers/sentinel.py:106-112 | one parameter per supplied value, each named start_date, end_date or index |
| Sentinel.ResultParamsExact | backend/app/routers/sentinel.py:106-112 | each of the three names is sent exactly when its value was supplied, with that value |
| Sentinel.MockResults | backend/app/routers/sentinel.py:122-148 | the fallback results each echo the parcel |
| Sentinel.GetAnalysisResults | backend/app/routers/sentinel.py:90-148 | one GET with the parameters; the worker's answer on success, the fallback on any failure, as Http.FallsBack prescribes |
| Sentinel.GetNdviAlerts | backend/app/routers/sentinel.py:151-192 | an active alert is listed if and only if it matches each given filter; without filters, all alerts |
| Sentinel.FilterAlerts | backend/app/routers/sentinel.py:187-192 | an alert is listed if and only if it matches each given filter; without filters, all alerts |
| Sentinel.FilterAlertsOrdered | backend/app/routers/sentinel.py:187-192 | the two filters equal one conjunctive filter, and the result is an order-preserving subsequence |
| Sentinel.SetAlertThresholds | backend/app/routers/sentinel.py:195-235 | one PATCH is attempted; the reply always echoes parcel and thresholds with "Thresholds updated" |
| Sentinel.ThresholdsIgnoreOutcome | backend/app/routers/sentinel.py:228-235 | the reply does not depend on what the context broker answered |
| Http.Fetch | backend/app/routers/sentinel.py:71-87 | `raise_for_status()` then `json()`: a value exactly for a 2xx decodable body, otherwise the fault that is raised |
| Http.FallsBack | backend/app/routers/ros2.py:47-57 | reference for the routes with only `except Exception: <fallback>`: a decoded 2xx body is the reply; an error status, a transport error, any other exception or a body that is not JSON all give the fallback |
| Http.FallsBackDeterminesReply | backend/app/routers/ros2.py:47-57 | the cases of FallsBack cover every outcome, so it fixes the reply, which is never an error |
| Http.FetchOrFallsBack | backend/app/routers/ros2.py:47-57 | the call followed by `raise_for_status()` and `json()` under `except Exception` falls back as FallsBack says |
| Text.Take | backend/app/routers/webhooks.py:207 | Python's `text[:n]`: a prefix of the text, of length n when the text is long enough, the whole text otherwise |
| Http.LookupSnoc | backend/app/routers/sentinel.py:106-112 | adding a parameter under a new name makes it readable under that name and leaves every other name as it was |
| Text.IntToStringRoundTrip | backend/app/routers/n8n.py:236 | a rendered integer parses back to itself |
| Text.JoinAppend | backend/app/routers/odoo.py:90 | joining one more item appends the separator and the item |
| Filters.FilterIsSubsequence | backend/app/routers/ros2.py:207-212 | a list comprehension's result is an order-preserving subsequence of its input |
| Filters.FilterFilter | backend/app/routers/sentinel.py:187-192 | two successive comprehensions equal one comprehension with the conjunction |

## Left out

- backend/app/routers/intelligence.py: thin forwarding with the same error-to-fallback pattern as the n8n and Sentinel routers; not part of this model.
- Authentication and roles (`get_current_user`, `require_roles`, `get_tenant_id`): the middleware module is not part of this model. The tenant id and user fields are plain parameters.
- FastAPI routing, CORS and app wiring in main.py, and the package `__init__` modules: no request-handling logic.
- Network calls, timeouts and the async client context managers: each call is an input `Outcome`. `send` is a function, so two identical requests within one route get identical answers.
- Rendering of exception text (`str(e)`): faults keep their status, text or reason as structured values.
- Latency measurement and timestamps: the probe latency is a parameter, and timestamps are fixed strings or omitted.
- Health.CheckService: the probe reads the clock (`httpx.utils.current_timestamp()`, health.py:30, 40, 57 and 65), twice inside its own `except` handlers. The model assumes these calls do not raise; if one did, that exception would escape the probe instead of being classified.
- `uuid4` and `random.randint` draws: parameters. `OdooId` records the range of the draw.
- Print logging, including the inbound webhook handler `handle_inbound_webhook`. That handler only logs and echoes the event name.
- The module-level webhook store as state shared between concurrent requests: the registry is passed in and returned.
- The seed records have no "secret" key; the model gives them an absent secret, which is what `webhook.get("secret")` reads.
- Development mock payloads are trimmed to the fields the rules mention:
  - robot names, positions and last-seen times;
  - the n8n webhook listing `list_webhooks`;
  - the Odoo parcel listing `get_odoo_parcels`;
  - the notification templates `get_notification_templates`.

  These are fixed literals with no logic.
- Odoo.GetHarvests: the `start_date` and `end_date` arguments are accepted and ignored, as in the source.
- Floating-point values (cloud cover, NDVI values and thresholds) are exact reals. No rounding is modelled.
- JSON object key order: objects are maps, so the order in which keys are inserted into a dict is not observable in the model.
- Ros2.CreateMission: the forwarded mission body is built with its parameters defaulted to an empty object, but no property beyond the validation and the fallback is stated about the body.

## Findings

| source | as written | input that shows it | evidently intended | confidence | as-written member | corrected member |
|---|---|---|---|---|---|---|
| backend/app/routers/odoo.py:82-90 | `entities = request.entities if request else [...]` takes the body's `entities` even when it is null, and `", ".join(None)` then raises, so the route answers 500 | `POST /odoo/sync` with body `{}` while `odoo_url` is set | a missing entity list falls back to parcels, harvests and inventory, as when there is no body | not executed | Odoo.TriggerSyncAsWritten (shown by Odoo.EmptySyncBodyFails) | Odoo.TriggerSync (related by Odoo.TriggerSyncRefinesAsWritten) |
