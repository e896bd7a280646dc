/**
 * The messages of the per-client MCP endpoint: the request body, the
 * response body, and the values the two tools and the catalog produce.
 */
module Protocol {
  import opened Wrappers
  import opened PyJson

  /** The request body: a method name and its parameters (an empty object when omitted). */
  datatype Request = Request(methodName: string, params: map<string, Json>)

  /** One named input of a tool, with its JSON-schema type and description. */
  datatype Property = Property(name: string, jsonType: string, description: string)

  /** A tool's input contract: an object schema with its properties, in order, and the required ones. */
  datatype Schema = Schema(jsonType: string, properties: seq<Property>, required: seq<string>)

  datatype ToolDescriptor = ToolDescriptor(name: string, description: string, inputSchema: Schema)

  /** An f-string `f"{value}{literal}"`, kept as its two parts. */
  datatype FString = FString(value: Json, literal: string) {
    /** The text Python produces, when `str(value)` is modelled. */
    function Text(): Option<string> {
      match Str(value)
      case Some(s) => Some(s + literal)
      case None => None
    }
  }

  /** One entry of the `list_accounts` result. */
  datatype Account = Account(id: Json, name: FString, status: string)

  /** The canned campaign row of `get_campaign_performance` (its float `ctr` is not modelled). */
  datatype Campaign = Campaign(
    id: string, name: string, status: string,
    impressions: int, clicks: int, costMicros: int, conversions: int)

  /** What a successful method call puts in the response's `result`. */
  datatype Payload =
    | ToolList(tools: seq<ToolDescriptor>)
    | AccountList(accounts: seq<Account>)
    | Performance(campaigns: seq<Campaign>, client: Json)

  /** What a failed method call puts in the response's `error`. */
  datatype Failure =
    | UnknownMethod(methodName: string)     // the HTTPException(400) raised for any other method
    | UnknownTool(name: Option<Json>)   // the HTTPException(400) raised by call_tool; None: no "name"
    | Raised(e: PyError)                // a KeyError or TypeError from a malformed client record

  /** The response body: exactly one of the two fields is set by the endpoint. */
  datatype MCPResponse = MCPResponse(result: Option<Payload>, error: Option<Failure>)

  /**
   * What the HTTP layer sees of one request: an HTTPException raised before
   * routing (status and detail), a response body (status 200), or an
   * exception nobody catches, which the framework turns into a 500.
   */
  datatype Outcome =
    | Rejected(status: int, detail: string)
    | Responded(response: MCPResponse)
    | Crashed(fault: PyError)

  /** The HTTP status code the client receives for an outcome. */
  function Status(o: Outcome): int {
    match o
    case Rejected(status, _) => status
    case Responded(_) => 200
    case Crashed(_) => 500
  }

  const NotFound: Outcome := Rejected(404, "Client not found")
  const Forbidden: Outcome := Rejected(403, "Client account inactive")
}
