# Google Ads MCP service: per-client gate and tool dispatch

This project models the core of the multi-tenant MCP endpoint in
`src/server.py`. A client posts `{method, params}` to `/mcp/{client_id}`.
The server looks the client up in a client table loaded at startup from a
JSON configuration file. It rejects unknown clients with 404 and inactive
ones with 403. It then routes `tools/list` to a static two-tool catalog and
`tools/call` to one of two canned tools, `list_accounts` and
`get_campaign_performance`, which build their answer from the client's
record.

The gate's two rejections are raised before the handler's `try`, so they
reach the caller as HTTP errors. Every failure raised during routing is
caught and returned in the `error` field of an ordinary 200 response. That
covers an unknown method, an unknown tool, and a `KeyError` or `TypeError`
from a malformed client record. The model keeps this asymmetry explicit.

Modules:

- `Wrappers` (wrappers.dfy): `Option` and `Result`.
- `PyJson` (pyjson.dfy): decoded JSON values and the Python operations the server applies to them: truthiness, `get`, `[]`, `in` (key, element or substring test) and f-string rendering. Of these, `get`, `[]` and `in` can raise, and they return the exception as a `PyError`.
- `Protocol` (protocol.dfy): the request body, the `MCPResponse` body (`result` or `error`), the tool descriptors, the tool payloads, and the `Outcome` the HTTP layer sees. An `Outcome` is a rejection with status and detail, a 200 response, or an uncaught exception (500).
- `Tools` (tools.dfy): `list_tools` and `call_tool`.
- `Gateway` (gateway.dfy): `mcp_endpoint` as a function of the loaded configuration, the client id and the request.
- `Startup` (startup.dfy): the global configuration as a `Server` object. `startup_event` is the method that sets it, and `Post` runs the endpoint on it.

## Model

| member | source | states |
|---|---|---|
| `PyJson.SubstringIff` | src/server.py:77 | Python's `in` on a string client table, modelled as a prefix scan, is true exactly when the id occurs at some position (both directions) |
| `PyJson.Digits` | src/server.py:139 | the decimal rendering of a number interpolated into the account name is non-empty and all digits, with no leading zero; 0 is rendered as exactly "0" |
| `PyJson.DigitsRoundTrip` | src/server.py:139 | reading back the decimal rendering of a number gives the number |
| `Tools.ListTools` | src/server.py:100-124 | the catalog has exactly two tools, `list_accounts` then `get_campaign_performance`; the first has no properties and no required inputs; the second requires exactly `customer_id`; every required input is a declared property of an object schema |
| `Tools.ListToolsIgnoresClient` | src/server.py:100-102 | the catalog is the same for every client id |
| `Tools.CallTool` | src/server.py:126-164 | a call fails with `UnknownTool` exactly when the name is neither known tool; an account list comes only from `list_accounts` and performance data only from `get_campaign_performance`; a call never fails with `UnknownMethod` |
| `Tools.ListAccountsResult` | src/server.py:133-143 | `list_accounts` succeeds exactly on records with `google_ads.customer_id` and `name`; it then returns one account whose id is the customer id, whose name is the f-string of the client's `name` followed by " - Google Ads" (rendered text pinned whenever `str()` of the name is modelled: string, number, bool, null), and whose status is "ACTIVE" |
| `Tools.ListAccountsMalformed` | src/server.py:136-143 | on a malformed record, `list_accounts` fails with the exception of the first failing lookup, in the order `google_ads`, `customer_id`, `name`: `KeyError('google_ads')`, a `TypeError` for a `google_ads` that is not a dict, `KeyError('customer_id')`, `KeyError('name')` |
| `Tools.CampaignPerformanceResult` | src/server.py:145-161 | `get_campaign_performance` succeeds exactly on records with a `name`; it returns the canned campaign with that name as `client`, and otherwise fails with `KeyError('name')` |
| `Tools.UnknownToolRejected` | src/server.py:163-164 | a missing or unrecognised tool name fails with `UnknownTool` carrying that name (`None` when absent or null) |
| `Tools.CallToolIgnoresArguments` | src/server.py:128-129 | two calls with the same tool name on the same record give the same result, whatever their arguments |
| `Gateway.Route` | src/server.py:87-98 | a routed response sets exactly one of `result` and `error`; it is an `UnknownMethod` error naming the method exactly when the method is neither `tools/list` nor `tools/call`; its `result` is exactly the catalog for `tools/list` |
| `Gateway.Endpoint` | src/server.py:72-98 | the only HTTP rejections are 404 "Client not found" and 403 "Client account inactive"; a 200 response sets exactly one of `result` and `error`; the status is always 200, 403, 404 or 500 |
| `Gateway.NotFoundIffUnknown` | src/server.py:77-78 | for a dict client table, the outcome is 404 "Client not found" exactly when the id is not a key, whatever the request |
| `Gateway.ForbiddenIffInactive` | src/server.py:80-83 | the outcome is 403 "Client account inactive" exactly when the client is known, its record is a dict, and its `active` is missing or falsy |
| `Gateway.RespondsIffAdmitted` | src/server.py:77-98 | a client gets a 200 response, for any method, parameters or record contents, exactly when it is in the table with a truthy `active` |
| `Gateway.GateIgnoresRequest` | src/server.py:76-83 | every non-200 outcome is decided before the request is looked at, so it is the same for all requests |
| `Gateway.UnknownMethodResponse` | src/server.py:93-98 | an admitted client's unknown method yields a response whose `error` names the method and whose `result` is absent |
| `Gateway.UnknownToolResponse` | src/server.py:91-98 | an admitted client's `tools/call` with a missing or unknown tool yields a response whose `error` names the tool and whose `result` is absent |
| `Gateway.ToolCallResponse` | src/server.py:91-98 | an admitted client's `tools/call` gets a 200 response carrying `call_tool`'s payload in `result`, or the failure it raised in `error` |
| `Gateway.MalformedRecordResponse` | src/server.py:92-98 | every exception `call_tool` raises on an admitted client's malformed record (`KeyError` for `google_ads`, `customer_id` or `name`, or a `TypeError` for a non-dict `google_ads`) becomes a 200 error response, not an HTTP error |
| `Gateway.ToolsListUniform` | src/server.py:89-90 | `tools/list` gives every admitted client, for any parameters, the same response carrying the catalog |
| `Startup.LoadedConfig` | src/server.py:33-46 | after startup, the configuration is a dict whose `clients`, if present, is a dict, list or string; a usable document is kept as is; otherwise the client table is empty |
| `Startup.Server.constructor` | src/server.py:30 | before startup, the configuration is the empty dict |
| `Startup.Server.Startup` | src/server.py:33-46 | the configuration becomes the loaded one and keeps the shape invariant |
| `Startup.Server.Post` | src/server.py:72-98 | the endpoint on the current configuration; on a loaded configuration, only two exceptions escape: indexing a list or string table, and a record that is not a dict |
| `Startup.FailedLoadRejectsAll` | src/server.py:41-46 | if the configuration file is missing or unreadable, every later request is rejected with 404 |
| `Startup.UnloadableDocRejectsAll` | src/server.py:39-46 | if the document is not a dict, or its `clients` has no length, every later request is rejected with 404 |
| `Startup.NonDictTableOutcome` | src/server.py:77-80 | with a list or string client table, an id the membership test accepts gets a 500 from the failing lookup; every other id gets a 404 |

## Left out

- FastAPI and uvicorn routing, the CORS middleware, pydantic parsing of the request body and the `async` machinery are framework code outside `src/server.py`. An uncaught exception is modelled as `Crashed`, which the framework answers with a 500.
- Reading the file named by `CLIENT_CONFIG_PATH` and decoding its JSON are a parameter, `Startup.ConfigSource`: file missing, read or parse failure, or the decoded document.
- The text of `str(e)` for an `HTTPException` or a Python exception is not modelled. An error carries the method name, the tool name or the exception kind and key.
- JSON numbers are integers. Fractional numbers, their truthiness and their rendering are not modelled. The same goes for the float `ctr` field of the canned campaign.
- `Protocol.FString.Text`: the f-string rendering of a client `name` that is a list or a dict goes through Python's `repr` and is not modelled (it gives `None`).
- The `/` and `/health` endpoints return constants and are not modelled.
- Logging is not modelled, except that the startup log line raises on a malformed document.
- The `__main__` port handling is not modelled.
- `call_tool` reads `client_config['clients'][client_id]` again. The model passes it the record the gate fetched, which is the same value because nothing changes the configuration in between.
- The tool call's `arguments` are read and never used by `call_tool`, so the model does not read them.
