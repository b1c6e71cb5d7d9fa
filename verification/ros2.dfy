/** The ROS2 router: robots, commands and missions forwarded to the ROS2 bridge.
    Commands and mission types are checked against fixed allow-lists before any
    call; every bridge failure is answered with a development fallback. */
module Ros2 {
  import opened Wrappers
  import opened Http
  import opened Text
  import Config
  import Filters

  const ValidCommands: seq<string> := ["start", "stop", "pause", "resume", "return_home", "emergency_stop"]
  const ValidMissionTypes: seq<string> := ["spray", "harvest", "seed", "survey", "transport"]

  function TenantHeaders(tenant: string): Headers {
    map["fiware-service" := tenant]
  }

  /** A GET to the bridge, scoped to the tenant. */
  function BridgeGet(s: Config.Settings, tenant: string, path: string): Request {
    Get(s.ros2BridgeUrl + path, [], TenantHeaders(tenant))
  }

  /** The development robot listing (ids, kinds, states and battery levels only). */
  function MockRobots(): Json {
    JObj(map["robots" := JArr([
      JObj(map["id" := JStr("robot-001"), "type" := JStr("tractor"), "status" := JStr("idle"), "batteryLevel" := JNum(85)]),
      JObj(map["id" := JStr("robot-002"), "type" := JStr("drone"), "status" := JStr("working"), "batteryLevel" := JNum(62),
               "currentMission" := JStr("mission-001")]),
      JObj(map["id" := JStr("robot-003"), "type" := JStr("sprayer"), "status" := JStr("charging"), "batteryLevel" := JNum(23)])])])
  }

  /** `GET /ros2/robots`: the bridge's listing, or the mock listing on any exception. */
  function ListRobots(s: Config.Settings, tenant: string, send: Request -> Outcome): (r: Handled<Json>)
    ensures r.sent == [BridgeGet(s, tenant, "/api/robots")]
    ensures r.reply.Ok?
    ensures r.reply.value == (if Passed(send(r.sent[0])) && send(r.sent[0]).json.Some? then send(r.sent[0]).json.value else MockRobots())
    ensures FallsBack(send(r.sent[0]), r.reply, MockRobots())
  {
    var q := BridgeGet(s, tenant, "/api/robots");
    Handled(Ok(FetchOr(send(q), MockRobots())), [q])
  }

  /** The placeholder for a robot the bridge could not describe. */
  function RobotUnavailable(robotId: string): (j: Json)
    ensures HasField(j, "id", JStr(robotId)) && HasField(j, "status", JStr("unknown"))
    ensures HasField(j, "message", JStr("Robot data unavailable"))
  {
    JObj(map["id" := JStr(robotId), "name" := JStr("Robot"), "type" := JStr("tractor"),
             "status" := JStr("unknown"), "message" := JStr("Robot data unavailable")])
  }

  /** `GET /ros2/robots/{id}`: the bridge's record, or an "unknown" placeholder on any exception. */
  function GetRobot(s: Config.Settings, tenant: string, robotId: string, send: Request -> Outcome): (r: Handled<Json>)
    ensures r.sent == [BridgeGet(s, tenant, "/api/robots/" + robotId)]
    ensures r.reply.Ok?
    ensures !(Passed(send(r.sent[0])) && send(r.sent[0]).json.Some?) ==>
      HasField(r.reply.value, "id", JStr(robotId)) && HasField(r.reply.value, "status", JStr("unknown"))
    ensures Passed(send(r.sent[0])) && send(r.sent[0]).json.Some? ==> r.reply.value == send(r.sent[0]).json.value
    ensures FallsBack(send(r.sent[0]), r.reply, RobotUnavailable(robotId))
  {
    var q := BridgeGet(s, tenant, "/api/robots/" + robotId);
    Handled(Ok(FetchOr(send(q), RobotUnavailable(robotId))), [q])
  }

  // ---------------------------------------------------------------------------
  // Commands
  // ---------------------------------------------------------------------------

  datatype RobotCommand = RobotCommand(robotId: string, command: string, parameters: Option<map<string, Json>>)

  /** `parameters or {}`: a missing parameter dict is sent as an empty one. */
  function ParametersOrEmpty(p: Option<map<string, Json>>): (m: map<string, Json>)
    ensures p.None? ==> m == map[]
    ensures p.Some? ==> m == p.value
  {
    if p.Some? then p.value else map[]
  }

  function CommandBody(cmd: RobotCommand, userEmail: string): Json {
    JObj(map["robot_id" := JStr(cmd.robotId), "command" := JStr(cmd.command),
             "parameters" := JObj(ParametersOrEmpty(cmd.parameters)), "issued_by" := JStr(userEmail)])
  }

  function CommandRequest(s: Config.Settings, tenant: string, cmd: RobotCommand, userEmail: string): Request {
    Post(s.ros2BridgeUrl + "/api/commands", TenantHeaders(tenant), CommandBody(cmd, userEmail))
  }

  /** The fallback acknowledgement: the command is reported accepted. */
  function CommandEcho(cmd: RobotCommand): (j: Json)
    ensures HasField(j, "robotId", JStr(cmd.robotId)) && HasField(j, "command", JStr(cmd.command))
    ensures HasField(j, "accepted", JBool(true))
  {
    JObj(map["robotId" := JStr(cmd.robotId), "command" := JStr(cmd.command), "accepted" := JBool(true),
             "message" := JStr("Command '" + cmd.command + "' sent (mock)")])
  }

  function InvalidCommandDetail(): string {
    "Invalid command. Must be one of: " + ListRepr(ValidCommands)
  }

  /** `POST /ros2/commands`: an unknown command is refused with 400 before anything
      is sent; a known one is forwarded once, falling back to an acceptance echo. */
  function SendRobotCommand(s: Config.Settings, tenant: string, userEmail: string, cmd: RobotCommand,
                            send: Request -> Outcome): (r: Handled<Json>)
    ensures cmd.command !in ValidCommands <==> r.sent == []
    ensures cmd.command !in ValidCommands <==> r.reply.HttpError?
    ensures r.reply.HttpError? ==> r.reply == HttpError(400, InvalidCommandDetail())
    ensures r.sent != [] ==> r.sent == [CommandRequest(s, tenant, cmd, userEmail)]
    ensures r.reply.Ok? && !(Passed(send(r.sent[0])) && send(r.sent[0]).json.Some?) ==> r.reply.value == CommandEcho(cmd)
    ensures r.sent != [] && Passed(send(r.sent[0])) && send(r.sent[0]).json.Some? ==> r.reply == Ok(send(r.sent[0]).json.value)
    ensures !r.reply.ServerError?
    ensures r.sent != [] ==> FallsBack(send(r.sent[0]), r.reply, CommandEcho(cmd))
  {
    if cmd.command !in ValidCommands then Handled(HttpError(400, InvalidCommandDetail()), [])
    else
      var q := CommandRequest(s, tenant, cmd, userEmail);
      Handled(Ok(FetchOr(send(q), CommandEcho(cmd))), [q])
  }

  /** The forwarded command always carries a parameter object, empty when none was given. */
  lemma CommandParametersDefault(s: Config.Settings, tenant: string, userEmail: string, robotId: string, command: string)
    ensures var q := CommandRequest(s, tenant, RobotCommand(robotId, command, None), userEmail);
      q.body.Some? && HasField(q.body.value, "parameters", JObj(map[]))
  {
  }

  // ---------------------------------------------------------------------------
  // Missions
  // ---------------------------------------------------------------------------

  datatype Mission = Mission(
    id: string,
    name: string,
    robotId: string,
    kind: string,
    status: string,
    parcelIds: seq<string>,
    progress: int,
    startedAt: Option<string>,
    completedAt: Option<string>)

  /** The fixed mission catalogue the listing route filters. */
  function Catalogue(): seq<Mission> {
    [Mission("mission-001", "Survey Parcela Norte", "robot-002", "survey", "running",
             ["urn:ngsi-ld:AgriParcel:parcel-001"], 65, Some("2025-01-12T09:30:00Z"), None),
     Mission("mission-002", "Spray Treatment", "robot-003", "spray", "completed",
             ["urn:ngsi-ld:AgriParcel:parcel-002"], 100, Some("2025-01-12T07:00:00Z"), Some("2025-01-12T09:15:00Z")),
     Mission("mission-003", "Soil Sampling", "robot-001", "survey", "pending",
             ["urn:ngsi-ld:AgriParcel:parcel-001", "urn:ngsi-ld:AgriParcel:parcel-002"], 0, None, None)]
  }

  function RobotOf(m: Mission): string {
    m.robotId
  }

  function StatusOf(m: Mission): string {
    m.status
  }

  /** The route's two comprehensions: by robot when given, then by status when given. */
  function FilterMissions(ms: seq<Mission>, robotId: Option<string>, status: Option<string>): (r: seq<Mission>)
    ensures !PresentText(robotId) && !PresentText(status) ==> r == ms
    ensures forall m :: m in r <==>
      m in ms && Filters.Matches(m, RobotOf, robotId) && Filters.Matches(m, StatusOf, status)
  {
    Filters.Where(Filters.Where(ms, RobotOf, robotId), StatusOf, status)
  }

  /** `GET /ros2/missions`: the catalogue, narrowed. No call is made. */
  function ListMissions(robotId: Option<string>, status: Option<string>): (r: seq<Mission>)
    ensures !PresentText(robotId) && !PresentText(status) ==> r == Catalogue()
    ensures forall m :: m in r <==>
      m in Catalogue() && Filters.Matches(m, RobotOf, robotId) && Filters.Matches(m, StatusOf, status)
  {
    FilterMissions(Catalogue(), robotId, status)
  }

  /** The two filters form one conjunctive filter, so the result is an order-preserving
      subsequence of the listing. */
  lemma FilterMissionsOrdered(ms: seq<Mission>, robotId: Option<string>, status: Option<string>)
    ensures var both := m => Filters.Matches(m, RobotOf, robotId) && Filters.Matches(m, StatusOf, status);
      && FilterMissions(ms, robotId, status) == Filters.Filter(ms, both)
      && Filters.SubsequenceAt(FilterMissions(ms, robotId, status), ms, Filters.Kept(ms, both))
  {
    var both := m => Filters.Matches(m, RobotOf, robotId) && Filters.Matches(m, StatusOf, status);
    Filters.WhereWhere(ms, RobotOf, robotId, StatusOf, status);
    Filters.FilterIsSubsequence(ms, both);
  }

  datatype MissionCreate = MissionCreate(
    name: string,
    robotId: string,
    kind: string,
    parcelIds: seq<string>,
    parameters: Option<map<string, Json>>)

  function MissionBody(m: MissionCreate, userEmail: string): Json {
    JObj(map["name" := JStr(m.name), "robot_id" := JStr(m.robotId), "type" := JStr(m.kind),
             "parcel_ids" := Strings(m.parcelIds), "parameters" := JObj(ParametersOrEmpty(m.parameters)),
             "created_by" := JStr(userEmail)])
  }

  function MissionRequest(s: Config.Settings, tenant: string, m: MissionCreate, userEmail: string): Request {
    Post(s.ros2BridgeUrl + "/api/missions", TenantHeaders(tenant), MissionBody(m, userEmail))
  }

  /** The fallback mission: pending, no progress, echoing the request; its id is the
      first eight characters of a fresh uuid. */
  function PendingMission(m: MissionCreate, uuid: string): (j: Json)
    ensures HasField(j, "status", JStr("pending")) && HasField(j, "progress", JNum(0))
    ensures HasField(j, "name", JStr(m.name)) && HasField(j, "robotId", JStr(m.robotId))
    ensures HasField(j, "type", JStr(m.kind)) && HasField(j, "parcelIds", Strings(m.parcelIds))
    ensures HasField(j, "id", JStr(Take(uuid, 8)))
  {
    JObj(map["id" := JStr(Take(uuid, 8)), "name" := JStr(m.name), "robotId" := JStr(m.robotId),
             "type" := JStr(m.kind), "status" := JStr("pending"), "parcelIds" := Strings(m.parcelIds),
             "progress" := JNum(0), "message" := JStr("Mission created (mock)")])
  }

  function InvalidMissionTypeDetail(): string {
    "Invalid mission type. Must be one of: " + ListRepr(ValidMissionTypes)
  }

  /** `POST /ros2/missions`: an unknown mission type is refused with 400 before anything
      is sent; otherwise the mission is forwarded, falling back to a pending mock. */
  function CreateMission(s: Config.Settings, tenant: string, userEmail: string, m: MissionCreate, uuid: string,
                         send: Request -> Outcome): (r: Handled<Json>)
    ensures m.kind !in ValidMissionTypes <==> r.sent == []
    ensures m.kind !in ValidMissionTypes <==> r.reply.HttpError?
    ensures r.reply.HttpError? ==> r.reply == HttpError(400, InvalidMissionTypeDetail())
    ensures r.sent != [] ==> r.sent == [MissionRequest(s, tenant, m, userEmail)]
    ensures r.reply.Ok? && !(Passed(send(r.sent[0])) && send(r.sent[0]).json.Some?) ==> r.reply.value == PendingMission(m, uuid)
    ensures r.sent != [] && Passed(send(r.sent[0])) && send(r.sent[0]).json.Some? ==> r.reply == Ok(send(r.sent[0]).json.value)
    ensures !r.reply.ServerError?
    ensures r.sent != [] ==> FallsBack(send(r.sent[0]), r.reply, PendingMission(m, uuid))
  {
    if m.kind !in ValidMissionTypes then Handled(HttpError(400, InvalidMissionTypeDetail()), [])
    else
      var q := MissionRequest(s, tenant, m, userEmail);
      Handled(Ok(FetchOr(send(q), PendingMission(m, uuid))), [q])
  }

  // ---------------------------------------------------------------------------
  // Telemetry
  // ---------------------------------------------------------------------------

  const TelemetryPrefix := "wss://nkz.artotxiki.com/api/n8n-nkz/ros2/robots/"
  const TelemetrySuffix := "/telemetry/ws"

  datatype TelemetryInfo = TelemetryInfo(
    robotId: string,
    websocketUrl: string,
    protocol: string,
    updateInterval: string,
    fields: seq<string>)

  /** `GET /ros2/robots/{id}/telemetry/stream`: where to connect; the robot id sits
      between the fixed prefix and suffix of the socket URL. */
  function TelemetryStream(robotId: string): (t: TelemetryInfo)
    ensures t.robotId == robotId
    ensures |t.websocketUrl| == |TelemetryPrefix| + |robotId| + |TelemetrySuffix|
    ensures t.websocketUrl[..|TelemetryPrefix|] == TelemetryPrefix
    ensures t.websocketUrl[|TelemetryPrefix|..|TelemetryPrefix| + |robotId|] == robotId
    ensures t.websocketUrl[|TelemetryPrefix| + |robotId|..] == TelemetrySuffix
  {
    var url := TelemetryPrefix + robotId + TelemetrySuffix;
    assert url[..|TelemetryPrefix|] == TelemetryPrefix;
    assert url[|TelemetryPrefix|..|TelemetryPrefix| + |robotId|] == robotId;
    assert url[|TelemetryPrefix| + |robotId|..] == TelemetrySuffix;
    TelemetryInfo(robotId, url, "json", "100ms", ["position", "heading", "speed", "batteryLevel", "sensors"])
  }

  /** Different robots get different telemetry sockets. */
  lemma TelemetryUrlsDistinct(a: string, b: string)
    requires a != b
    ensures TelemetryStream(a).websocketUrl != TelemetryStream(b).websocketUrl
  {
  }
}
