/** The `Cluster` endpoint group of aioarangodb/cluster.py: for each of its
    eight methods, the request it builds and the response handler it defines.
    A handler maps a response either to the value the method returns or to the
    exception it raises. */
module Cluster {
  import opened Wrappers
  import opened JsonData
  import opened Requests
  import opened Responses

  // ---------------------------------------------------------------------------
  // Operations and the requests they build
  // ---------------------------------------------------------------------------

  /** One constructor per method of `Cluster`, carrying that method's arguments. */
  datatype Operation =
    | ServerId
    | ServerRole
    | ServerVersion(serverId: string)
    | ServerEngine(serverId: string)
    | ServerStatistics(serverId: string)
    | Health
    | ToggleMaintenanceMode(mode: string)
    | Endpoints

  const ServerIdPath: string := "/_admin/server/id"
  const ServerRolePath: string := "/_admin/server/role"
  const NodeVersionPath: string := "/_admin/cluster/nodeVersion"
  const NodeEnginePath: string := "/_admin/cluster/nodeEngine"
  const NodeStatisticsPath: string := "/_admin/cluster/nodeStatistics"
  const HealthPath: string := "/_admin/cluster/health"
  const MaintenancePath: string := "/_admin/cluster/maintenance"
  const EndpointsPath: string := "/_api/cluster/endpoints"

  /** The query parameter naming the server a per-node query is about. */
  const ServerIdParam: string := "ServerID"

  /** The operations that query one node and so carry its id. */
  predicate TakesServerId(op: Operation)
  {
    op.ServerVersion? || op.ServerEngine? || op.ServerStatistics?
  }

  /** The endpoint path each operation calls. */
  function PathOf(op: Operation): string
  {
    match op
    case ServerId => ServerIdPath
    case ServerRole => ServerRolePath
    case ServerVersion(_) => NodeVersionPath
    case ServerEngine(_) => NodeEnginePath
    case ServerStatistics(_) => NodeStatisticsPath
    case Health => HealthPath
    case ToggleMaintenanceMode(_) => MaintenancePath
    case Endpoints => EndpointsPath
  }

  /** `'"{}"'.format(mode)`: the mode wrapped in double quotes, with no check
      that it is "on" or "off". */
  function Quote(mode: string): (d: string)
    ensures |d| == |mode| + 2
    ensures d[0] == '"' && d[|d| - 1] == '"'
    ensures d[1..|d| - 1] == mode
  {
    "\"" + mode + "\""
  }

  /** The inverse of `Quote`: strips one double quote from each end. */
  function Unquote(d: string): (m: Option<string>)
    ensures m.Some? <==> |d| >= 2 && d[0] == '"' && d[|d| - 1] == '"'
    ensures m.Some? ==> Quote(m.value) == d
  {
    if |d| >= 2 && d[0] == '"' && d[|d| - 1] == '"' then
      assert d == "\"" + d[1..|d| - 1] + "\"";
      Some(d[1..|d| - 1])
    else
      None
  }

  /** The `Request` each method of `Cluster` builds. */
  function BuildRequest(op: Operation): (r: Request)
    ensures r.endpoint == PathOf(op)
    ensures r.httpMethod == (if op.ToggleMaintenanceMode? then "put" else "get")
    ensures r.params.Some? <==> TakesServerId(op)
    ensures TakesServerId(op) ==> r.params.value == map[ServerIdParam := op.serverId]
    ensures r.data.Some? <==> op.ToggleMaintenanceMode?
    ensures op.ToggleMaintenanceMode? ==> Unquote(r.data.value) == Some(op.mode)
  {
    match op
    case ServerId => Request("get", ServerIdPath, None, None)
    case ServerRole => Request("get", ServerRolePath, None, None)
    case ServerVersion(id) => Request("get", NodeVersionPath, Some(map[ServerIdParam := id]), None)
    case ServerEngine(id) => Request("get", NodeEnginePath, Some(map[ServerIdParam := id]), None)
    case ServerStatistics(id) => Request("get", NodeStatisticsPath, Some(map[ServerIdParam := id]), None)
    case Health => Request("get", HealthPath, None, None)
    case ToggleMaintenanceMode(mode) => Request("put", MaintenancePath, None, Some(Quote(mode)))
    case Endpoints => Request("get", EndpointsPath, None, None)
  }

  /** The server id carried by a per-node query's parameters, if they are exactly
      `{'ServerID': id}`. */
  function ServerIdOf(params: Option<map<string, string>>): (id: Option<string>)
    ensures id.Some? ==> params == Some(map[ServerIdParam := id.value])
    ensures id.None? ==> forall s :: params != Some(map[ServerIdParam := s])
  {
    if params.Some? && params.value.Keys == {ServerIdParam} then
      var id := params.value[ServerIdParam];
      assert params.value == map[ServerIdParam := id];
      Some(id)
    else
      None
  }

  /** Recognises which `Cluster` method built a request: the partner of `BuildRequest`. */
  function OperationOf(r: Request): Option<Operation>
  {
    if r.httpMethod == "get" && r.data.None? then
      if r.params.None? then
        if r.endpoint == ServerIdPath then Some(ServerId)
        else if r.endpoint == ServerRolePath then Some(ServerRole)
        else if r.endpoint == HealthPath then Some(Health)
        else if r.endpoint == EndpointsPath then Some(Endpoints)
        else None
      else
        match ServerIdOf(r.params)
        case None => None
        case Some(id) =>
          if r.endpoint == NodeVersionPath then Some(ServerVersion(id))
          else if r.endpoint == NodeEnginePath then Some(ServerEngine(id))
          else if r.endpoint == NodeStatisticsPath then Some(ServerStatistics(id))
          else None
    else if r.httpMethod == "put" && r.endpoint == MaintenancePath && r.params.None? && r.data.Some? then
      match Unquote(r.data.value)
      case None => None
      case Some(mode) => Some(ToggleMaintenanceMode(mode))
    else
      None
  }

  // ---------------------------------------------------------------------------
  // Errors
  // ---------------------------------------------------------------------------

  /** The exceptions a handler can raise. The first eight are the dedicated
      exception classes of the eight methods, each carrying the response and the
      originating request. `BodyKeyError` is not one of them: it stands for the
      Python `KeyError`/`TypeError` raised when a successful response's body does
      not have the shape the handler reads, naming the key being read. */
  datatype ClusterError =
    | ServerIdError(resp: Response, request: Request)
    | ServerRoleError(resp: Response, request: Request)
    | ServerVersionError(resp: Response, request: Request)
    | ServerEngineError(resp: Response, request: Request)
    | ServerStatisticsError(resp: Response, request: Request)
    | HealthError(resp: Response, request: Request)
    | MaintenanceModeError(resp: Response, request: Request)
    | EndpointsError(resp: Response, request: Request)
    | BodyKeyError(key: string)

  /** The exception class dedicated to each operation. */
  function DedicatedError(op: Operation, resp: Response, request: Request): ClusterError
  {
    match op
    case ServerId => ServerIdError(resp, request)
    case ServerRole => ServerRoleError(resp, request)
    case ServerVersion(_) => ServerVersionError(resp, request)
    case ServerEngine(_) => ServerEngineError(resp, request)
    case ServerStatistics(_) => ServerStatisticsError(resp, request)
    case Health => HealthError(resp, request)
    case ToggleMaintenanceMode(_) => MaintenanceModeError(resp, request)
    case Endpoints => EndpointsError(resp, request)
  }

  // ---------------------------------------------------------------------------
  // Reading the body
  // ---------------------------------------------------------------------------

  /** Python truthiness of `resp.is_success`: an unset flag counts as false. */
  predicate Succeeded(resp: Response)
  {
    resp.isSuccess == Some(true)
  }

  /** The Python value of `resp.body`: an unset body and a JSON null are both `None`. */
  function BodyValue(resp: Response): Json
  {
    match resp.body
    case None => JNull
    case Some(j) => j
  }

  /** `j[key]`: the field's value when `j` is an object holding `key`, the raised
      error otherwise. */
  function Subscript(j: Json, key: string): (r: Result<Json, ClusterError>)
    ensures r.Success? <==> HasKey(j, key)
    ensures r.Success? ==> r.value == j.fields[key]
    ensures r.Failure? ==> r.error == BodyKeyError(key)
  {
    if HasKey(j, key) then Success(j.fields[key]) else Failure(BodyKeyError(key))
  }

  /** `names` holds, position by position, the `key` field of each item. */
  predicate IsProjection(items: seq<Json>, key: string, names: seq<Json>)
  {
    && |names| == |items|
    && forall i :: 0 <= i < |items| ==> HasKey(items[i], key) && names[i] == items[i].fields[key]
  }

  /** `[item[key] for item in items]`: evaluated left to right, so the first item
      lacking `key` raises. */
  function ProjectField(items: seq<Json>, key: string): (r: Result<seq<Json>, ClusterError>)
    ensures r.Success? <==> forall i :: 0 <= i < |items| ==> HasKey(items[i], key)
    ensures r.Success? ==> IsProjection(items, key, r.value)
    ensures r.Failure? ==> r.error == BodyKeyError(key)
  {
    if items == [] then Success([])
    else
      match Subscript(items[0], key)
      case Failure(e) => Failure(e)
      case Success(v) =>
        match ProjectField(items[1..], key)
        case Failure(e) => Failure(e)
        case Success(vs) => Success([v] + vs)
  }

  /** The comprehension over `body['endpoints']`, by what Python iterates it as:
      a list yields its items; an empty dict or empty string yields nothing; a
      non-empty dict or string yields strings, and subscripting a string with
      'endpoint' raises; any other value is not iterable and raises. */
  function ProjectEndpoints(list: Json): (r: Result<seq<Json>, ClusterError>)
    ensures list.JArr? ==> r == ProjectField(list.items, "endpoint")
    ensures list.JObj? ==> (r.Success? <==> list.fields == map[])
    ensures list.JStr? ==> (r.Success? <==> list.s == "")
    ensures (list.JObj? || list.JStr?) && r.Success? ==> r.value == []
    ensures list.JNull? || list.JBool? || list.JInt? ==> r.Failure?
  {
    match list
    case JArr(items) => ProjectField(items, "endpoint")
    case JObj(fields) => if fields == map[] then Success([]) else Failure(BodyKeyError("endpoint"))
    case JStr(s) => if s == "" then Success([]) else Failure(BodyKeyError("endpoint"))
    case _ => Failure(BodyKeyError("endpoints"))
  }

  // ---------------------------------------------------------------------------
  // The eight response handlers
  // ---------------------------------------------------------------------------

  /** `server_id`: the body's 'id' field. */
  function HandleServerId(request: Request, resp: Response): (r: Result<Json, ClusterError>)
    ensures !Succeeded(resp) ==> r == Failure(ServerIdError(resp, request))
    ensures r.Success? <==> Succeeded(resp) && HasKey(BodyValue(resp), "id")
    ensures r.Success? ==> r.value == BodyValue(resp).fields["id"]
  {
    if Succeeded(resp) then Subscript(BodyValue(resp), "id")
    else Failure(ServerIdError(resp, request))
  }

  /** `server_role`: the body's 'role' field. */
  function HandleServerRole(request: Request, resp: Response): (r: Result<Json, ClusterError>)
    ensures !Succeeded(resp) ==> r == Failure(ServerRoleError(resp, request))
    ensures r.Success? <==> Succeeded(resp) && HasKey(BodyValue(resp), "role")
    ensures r.Success? ==> r.value == BodyValue(resp).fields["role"]
  {
    if Succeeded(resp) then Subscript(BodyValue(resp), "role")
    else Failure(ServerRoleError(resp, request))
  }

  /** The handler shape shared by `server_version`, `server_engine`,
      `server_statistics` and `toggle_maintenance_mode`: the whole body, or the
      given dedicated error. */
  function PassBody(resp: Response, err: ClusterError): (r: Result<Json, ClusterError>)
    ensures r.Success? <==> Succeeded(resp)
    ensures r.Success? ==> r.value == BodyValue(resp)
    ensures r.Failure? ==> r.error == err
  {
    if Succeeded(resp) then Success(BodyValue(resp)) else Failure(err)
  }

  /** `health`: the body with 'error' popped, then 'code' popped. */
  function HandleHealth(request: Request, resp: Response): (r: Result<Json, ClusterError>)
    ensures !Succeeded(resp) ==> r == Failure(HealthError(resp, request))
    ensures r.Success? <==> Succeeded(resp) && HasKey(BodyValue(resp), "error") && HasKey(BodyValue(resp), "code")
    ensures r.Success? ==> r.value.JObj?
    ensures r.Success? ==> r.value.fields.Keys == BodyValue(resp).fields.Keys - {"error", "code"}
    ensures r.Success? ==> forall k :: k in r.value.fields ==> r.value.fields[k] == BodyValue(resp).fields[k]
    ensures Succeeded(resp) && !HasKey(BodyValue(resp), "error") ==> r == Failure(BodyKeyError("error"))
    ensures Succeeded(resp) && HasKey(BodyValue(resp), "error") && !HasKey(BodyValue(resp), "code") ==>
              r == Failure(BodyKeyError("code"))
  {
    if Succeeded(resp) then
      var body := BodyValue(resp);
      if !HasKey(body, "error") then Failure(BodyKeyError("error"))
      else
        var rest := body.fields - {"error"};
        if "code" !in rest then Failure(BodyKeyError("code"))
        else Success(JObj(rest - {"code"}))
    else
      Failure(HealthError(resp, request))
  }

  /** `endpoints`: the 'endpoint' field of each item of the body's 'endpoints'
      list. The failure check comes before any read of the body. */
  function HandleEndpoints(request: Request, resp: Response): (r: Result<Json, ClusterError>)
    ensures !Succeeded(resp) ==> r == Failure(EndpointsError(resp, request))
    ensures Succeeded(resp) && !HasKey(BodyValue(resp), "endpoints") ==> r == Failure(BodyKeyError("endpoints"))
    ensures r.Success? <==>
              Succeeded(resp) && HasKey(BodyValue(resp), "endpoints")
              && ProjectEndpoints(BodyValue(resp).fields["endpoints"]).Success?
    ensures r.Success? ==> r == Success(JArr(ProjectEndpoints(BodyValue(resp).fields["endpoints"]).value))
  {
    if !Succeeded(resp) then Failure(EndpointsError(resp, request))
    else
      match Subscript(BodyValue(resp), "endpoints")
      case Failure(e) => Failure(e)
      case Success(list) =>
        match ProjectEndpoints(list)
        case Failure(e) => Failure(e)
        case Success(names) => Success(JArr(names))
  }

  /** The handler each operation's method defines, with the request it closes over. */
  function Handle(op: Operation, request: Request, resp: Response): Result<Json, ClusterError>
  {
    match op
    case ServerId => HandleServerId(request, resp)
    case ServerRole => HandleServerRole(request, resp)
    case ServerVersion(_) => PassBody(resp, ServerVersionError(resp, request))
    case ServerEngine(_) => PassBody(resp, ServerEngineError(resp, request))
    case ServerStatistics(_) => PassBody(resp, ServerStatisticsError(resp, request))
    case Health => HandleHealth(request, resp)
    case ToggleMaintenanceMode(_) => PassBody(resp, MaintenanceModeError(resp, request))
    case Endpoints => HandleEndpoints(request, resp)
  }

  /** One call of a `Cluster` method, with an executor that sends the built
      request and applies the handler directly to the response it gets back. */
  function Execute(op: Operation, resp: Response): Result<Json, ClusterError>
  {
    Handle(op, BuildRequest(op), resp)
  }
}
