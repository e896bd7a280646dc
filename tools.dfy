/**
 * The tool catalog (`list_tools`) and the tool dispatcher (`call_tool`).
 * Both tools answer with canned data built from the caller's client record.
 */
module Tools {
  import opened Wrappers
  import opened PyJson
  import opened Protocol

  const ListAccountsName := "list_accounts"
  const CampaignPerformanceName := "get_campaign_performance"
  const AccountSuffix := " - Google Ads"

  /** The single canned row every `get_campaign_performance` call returns. */
  const SampleCampaign := Campaign("123456789", "Sample Campaign", "ENABLED", 10000, 500, 50000000, 25)

  /** Every name the schema lists as required is one of its declared properties. */
  predicate RequiredDeclared(schema: Schema) {
    forall k | k in schema.required :: exists p | p in schema.properties :: p.name == k
  }

  /**
   * The static catalog. The client id is accepted and ignored, so every
   * client sees the same two tools in the same order.
   */
  function ListTools(clientId: string): (r: seq<ToolDescriptor>)
    ensures |r| == 2
    ensures r[0].name == ListAccountsName && r[1].name == CampaignPerformanceName
    ensures r[0].inputSchema.properties == [] && r[0].inputSchema.required == []
    ensures r[1].inputSchema.required == ["customer_id"]
    ensures forall t | t in r :: t.inputSchema.jsonType == "object" && RequiredDeclared(t.inputSchema)
  {
    var customerId := Property("customer_id", "string", "Google Ads customer ID");
    var dateRange := Property("date_range", "string", "Date range (LAST_7_DAYS, LAST_30_DAYS, etc.)");
    assert customerId in [customerId, dateRange];
    [
      ToolDescriptor(ListAccountsName, "List all Google Ads accounts",
        Schema("object", [], [])),
      ToolDescriptor(CampaignPerformanceName, "Get campaign performance data",
        Schema("object", [customerId, dateRange], ["customer_id"]))
    ]
  }

  /**
   * `params.get("name")`: the requested tool. Python gives `None` both when
   * the key is absent and when it holds JSON null, and so does this.
   */
  function ToolName(params: map<string, Json>): Option<Json> {
    if "name" in params && params["name"] != JNull then Some(params["name"]) else None
  }

  /** `record[key]`, with an exception turned into a failed call. */
  function Field(record: Json, key: string): Result<Json, Failure> {
    match Subscript(record, key)
    case Ok(v) => Ok(v)
    case Err(e) => Err(Raised(e))
  }

  /**
   * `call_tool`: picks the tool by name and builds its result from the
   * client's record. The call's "arguments" are read by `call_tool` and never
   * used, so they are not consulted here. A record without the fields a tool
   * needs makes the call fail with the Python exception.
   */
  function CallTool(record: Json, params: map<string, Json>): (r: Result<Payload, Failure>)
    ensures r.Err? ==> !r.error.UnknownMethod?
    ensures (r.Err? && r.error.UnknownTool?) <==>
      ToolName(params) !in {Some(JStr(ListAccountsName)), Some(JStr(CampaignPerformanceName))}
    ensures r.Ok? ==> (r.value.AccountList? <==> ToolName(params) == Some(JStr(ListAccountsName)))
    ensures r.Ok? ==> (r.value.Performance? <==> ToolName(params) == Some(JStr(CampaignPerformanceName)))
    ensures r.Ok? ==> !r.value.ToolList?
  {
    var toolName := ToolName(params);
    if toolName == Some(JStr(ListAccountsName)) then
      var ads :- Field(record, "google_ads");
      var customerId :- Field(ads, "customer_id");
      var name :- Field(record, "name");
      Ok(AccountList([Account(customerId, FString(name, AccountSuffix), "ACTIVE")]))
    else if toolName == Some(JStr(CampaignPerformanceName)) then
      var name :- Field(record, "name");
      Ok(Performance([SampleCampaign], name))
    else
      Err(UnknownTool(toolName))
  }

  /** The fields `list_accounts` reads: `google_ads.customer_id` and `name`. */
  predicate HasAccountFields(record: Json) {
    && record.JObj?
    && "google_ads" in record.fields
    && record.fields["google_ads"].JObj?
    && "customer_id" in record.fields["google_ads"].fields
    && "name" in record.fields
  }

  /**
   * `list_accounts` succeeds exactly on records that carry its fields, and
   * then returns one active account whose id is the client's customer id and
   * whose name is the client's name followed by " - Google Ads".
   */
  lemma ListAccountsResult(record: Json, params: map<string, Json>)
    requires ToolName(params) == Some(JStr(ListAccountsName))
    ensures CallTool(record, params).Ok? <==> HasAccountFields(record)
    ensures CallTool(record, params).Ok? ==>
      var accounts := CallTool(record, params).value.accounts;
      && |accounts| == 1
      && accounts[0].id == record.fields["google_ads"].fields["customer_id"]
      && accounts[0].status == "ACTIVE"
      && accounts[0].name == FString(record.fields["name"], AccountSuffix)
      && (Str(record.fields["name"]).Some? ==>
            accounts[0].name.Text() == Some(Str(record.fields["name"]).value + " - Google Ads"))
  {
  }

  /**
   * A malformed record makes `list_accounts` fail with the exception of the
   * first lookup that fails, in the order the Python code evaluates them: `google_ads`, then
   * `customer_id`, then `name`.
   */
  lemma ListAccountsMalformed(record: Json, params: map<string, Json>)
    requires ToolName(params) == Some(JStr(ListAccountsName))
    requires record.JObj?
    ensures "google_ads" !in record.fields ==>
      CallTool(record, params) == Err(Raised(KeyError("google_ads")))
    ensures "google_ads" in record.fields && !record.fields["google_ads"].JObj? ==>
      CallTool(record, params) == Err(Raised(NotSubscriptable("customer_id")))
    ensures "google_ads" in record.fields && record.fields["google_ads"].JObj?
            && "customer_id" !in record.fields["google_ads"].fields ==>
      CallTool(record, params) == Err(Raised(KeyError("customer_id")))
    ensures "google_ads" in record.fields && record.fields["google_ads"].JObj?
            && "customer_id" in record.fields["google_ads"].fields && "name" !in record.fields ==>
      CallTool(record, params) == Err(Raised(KeyError("name")))
  {
  }

  /**
   * `get_campaign_performance` succeeds exactly on records with a `name`,
   * and returns the canned campaign together with that name.
   */
  lemma CampaignPerformanceResult(record: Json, params: map<string, Json>)
    requires ToolName(params) == Some(JStr(CampaignPerformanceName))
    ensures CallTool(record, params).Ok? <==> record.JObj? && "name" in record.fields
    ensures CallTool(record, params).Ok? ==>
      CallTool(record, params).value == Performance([SampleCampaign], record.fields["name"])
    ensures record.JObj? && "name" !in record.fields ==>
      CallTool(record, params) == Err(Raised(KeyError("name")))
  {
  }

  /** A missing or unrecognised tool name fails, naming what was asked for. */
  lemma UnknownToolRejected(record: Json, params: map<string, Json>)
    requires ToolName(params) != Some(JStr(ListAccountsName))
    requires ToolName(params) != Some(JStr(CampaignPerformanceName))
    ensures CallTool(record, params) == Err(UnknownTool(ToolName(params)))
    ensures "name" !in params || params["name"] == JNull ==>
      CallTool(record, params) == Err(UnknownTool(None))
  {
  }

  /** The result depends on the tool name and the record, never on the call's arguments. */
  lemma CallToolIgnoresArguments(record: Json, p: map<string, Json>, q: map<string, Json>)
    requires ToolName(p) == ToolName(q)
    ensures CallTool(record, p) == CallTool(record, q)
  {
  }

  /** Repeated catalog requests, from any clients, return equal catalogs. */
  lemma ListToolsIgnoresClient(a: string, b: string)
    ensures ListTools(a) == ListTools(b)
  {
  }
}
