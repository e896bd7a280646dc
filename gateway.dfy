/**
 * `mcp_endpoint`: the per-client gate and method routing of POST /mcp/{client_id}.
 * The gate's HTTPExceptions are raised before the `try` and reach the client
 * as HTTP errors; everything raised while routing or running a tool is caught
 * and returned in the `error` field of an ordinary response.
 */
module Gateway {
  import opened Wrappers
  import opened PyJson
  import opened Protocol
  import opened Tools

  /** The routing inside the `try`, for a client record that passed the gate. */
  function Route(clientId: string, record: Json, request: Request): (r: MCPResponse)
    ensures r.result.Some? != r.error.Some?
    ensures r.error.Some? && r.error.value.UnknownMethod? <==>
      request.methodName !in {"tools/list", "tools/call"}
    ensures r.error.Some? && r.error.value.UnknownMethod? ==>
      r.error.value.methodName == request.methodName
    ensures r.result.Some? && r.result.value.ToolList? <==> request.methodName == "tools/list"
    ensures request.methodName == "tools/list" ==> r.result == Some(ToolList(ListTools(clientId)))
  {
    if request.methodName == "tools/list" then
      MCPResponse(Some(ToolList(ListTools(clientId))), None)
    else if request.methodName == "tools/call" then
      match CallTool(record, request.params)
      case Ok(payload) => MCPResponse(Some(payload), None)
      case Err(failure) => MCPResponse(None, Some(failure))
    else
      MCPResponse(None, Some(UnknownMethod(request.methodName)))
  }

  /**
   * The whole endpoint over the loaded configuration `config`. The gate
   * reads `config.get('clients', {})`, tests `client_id in` it, fetches the
   * record and reads its `active` flag (missing counts as false), in that
   * order; any Python exception on that path escapes the handler.
   */
  function Endpoint(config: Json, clientId: string, request: Request): (o: Outcome)
    ensures o.Rejected? ==> o == NotFound || o == Forbidden
    ensures o.Responded? ==> o.response.result.Some? != o.response.error.Some?
    ensures Status(o) in {200, 403, 404, 500}
  {
    match Get(config, "clients", EmptyObject)
    case Err(e) => Crashed(e)
    case Ok(clients) =>
      match Contains(clients, clientId)
      case Err(e) => Crashed(e)
      case Ok(known) =>
        if !known then NotFound
        else
          match Subscript(clients, clientId)
          case Err(e) => Crashed(e)
          case Ok(record) =>
            match Get(record, "active", JBool(false))
            case Err(e) => Crashed(e)
            case Ok(active) =>
              if !Truthy(active) then Forbidden
              else Responded(Route(clientId, record, request))
  }

  /** The shape `mcp_endpoint` expects: a dict whose `clients`, if present, is a dict of client records. */
  predicate DictConfig(config: Json) {
    config.JObj? && ("clients" in config.fields ==> config.fields["clients"].JObj?)
  }

  /** The client table of such a configuration (`{}` when `clients` is absent). */
  function Table(config: Json): map<string, Json>
    requires DictConfig(config)
  {
    if "clients" in config.fields then config.fields["clients"].fields else map[]
  }

  /** The client passes the gate: it is in the table and its record's `active` is truthy. */
  predicate Admitted(config: Json, clientId: string)
    requires DictConfig(config)
  {
    && clientId in Table(config)
    && Table(config)[clientId].JObj?
    && "active" in Table(config)[clientId].fields
    && Truthy(Table(config)[clientId].fields["active"])
  }

  /**
   * 404 "Client not found" exactly when the client id is not a key of the
   * table, whatever the request says.
   */
  lemma NotFoundIffUnknown(config: Json, clientId: string, request: Request)
    requires DictConfig(config)
    ensures Endpoint(config, clientId, request) == NotFound <==> clientId !in Table(config)
  {
  }

  /**
   * 403 "Client account inactive" exactly for a known client whose record
   * has no `active` or a false one.
   */
  lemma ForbiddenIffInactive(config: Json, clientId: string, request: Request)
    requires DictConfig(config)
    ensures Endpoint(config, clientId, request) == Forbidden <==>
      && clientId in Table(config)
      && Table(config)[clientId].JObj?
      && !("active" in Table(config)[clientId].fields && Truthy(Table(config)[clientId].fields["active"]))
  {
  }

  /**
   * The asymmetry of the two error paths: an admitted client always gets a
   * 200 response, whatever the method, the parameters or the shape of the
   * rest of its record; nobody else ever does.
   */
  lemma RespondsIffAdmitted(config: Json, clientId: string, request: Request)
    requires DictConfig(config)
    ensures Endpoint(config, clientId, request).Responded? <==> Admitted(config, clientId)
    ensures Status(Endpoint(config, clientId, request)) == 200 <==> Admitted(config, clientId)
  {
  }

  /** The gate looks at no part of the request: every non-200 outcome is the same for all requests. */
  lemma GateIgnoresRequest(config: Json, clientId: string, r1: Request, r2: Request)
    requires !Endpoint(config, clientId, r1).Responded?
    ensures Endpoint(config, clientId, r2) == Endpoint(config, clientId, r1)
  {
  }

  /** Any other method is answered with an error response naming it, never with a result. */
  lemma UnknownMethodResponse(config: Json, clientId: string, request: Request)
    requires DictConfig(config) && Admitted(config, clientId)
    requires request.methodName != "tools/list" && request.methodName != "tools/call"
    ensures Endpoint(config, clientId, request) ==
      Responded(MCPResponse(None, Some(UnknownMethod(request.methodName))))
  {
  }

  /**
   * A `tools/call` whose name is missing or unknown is answered with an
   * error response naming the requested tool, never with a result.
   */
  lemma UnknownToolResponse(config: Json, clientId: string, request: Request)
    requires DictConfig(config) && Admitted(config, clientId)
    requires request.methodName == "tools/call"
    requires ToolName(request.params) != Some(JStr(ListAccountsName))
    requires ToolName(request.params) != Some(JStr(CampaignPerformanceName))
    ensures Endpoint(config, clientId, request) ==
      Responded(MCPResponse(None, Some(UnknownTool(ToolName(request.params)))))
  {
  }

  /**
   * An admitted client's `tools/call` is answered with 200 and a body that
   * carries `call_tool`'s payload in `result`, or whatever it raised in
   * `error`.
   */
  lemma ToolCallResponse(config: Json, clientId: string, request: Request)
    requires DictConfig(config) && Admitted(config, clientId)
    requires request.methodName == "tools/call"
    ensures Endpoint(config, clientId, request) ==
      Responded(
        match CallTool(Table(config)[clientId], request.params)
        case Ok(p) => MCPResponse(Some(p), None)
        case Err(f) => MCPResponse(None, Some(f)))
  {
  }

  /**
   * Every exception a malformed record of an admitted client raises in
   * `call_tool` (a `KeyError` for `google_ads`, `customer_id` or `name`, a
   * `TypeError` for a `google_ads` that is not a dict) surfaces as an error
   * response with status 200, not as an HTTP error.
   */
  lemma MalformedRecordResponse(config: Json, clientId: string, request: Request, e: PyError)
    requires DictConfig(config) && Admitted(config, clientId)
    requires request.methodName == "tools/call"
    requires CallTool(Table(config)[clientId], request.params) == Err(Raised(e))
    ensures Endpoint(config, clientId, request) == Responded(MCPResponse(None, Some(Raised(e))))
    ensures Status(Endpoint(config, clientId, request)) == 200
    ensures e in {KeyError("google_ads"), KeyError("customer_id"), KeyError("name"),
                  NotSubscriptable("customer_id")}
  {
  }

  /** `tools/list` gives every admitted client the same two-tool catalog, whatever the parameters. */
  lemma ToolsListUniform(config: Json, a: string, b: string, r1: Request, r2: Request)
    requires DictConfig(config) && Admitted(config, a) && Admitted(config, b)
    requires r1.methodName == "tools/list" && r2.methodName == "tools/list"
    ensures Endpoint(config, a, r1) == Endpoint(config, b, r2)
    ensures Endpoint(config, a, r1) == Responded(MCPResponse(Some(ToolList(ListTools(a))), None))
  {
  }
}
