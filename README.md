# Business-server MCP bridge, modelled in Dafny

The system is a small Model Context Protocol (revision 2024-11-05) bridge in front of
a toy business back end. It has four parts:

- **HTTP MCP server** (`mcp_server_http.py`). Its `handle_mcp_request` is a JSON-RPC 2.0
  dispatcher for `initialize`, `notifications/initialized`, `tools/list` and `tools/call`.
  It keeps a per-peer session store:
  - `connected_clients`, a set of peers;
  - `client_sessions`, holding a request counter and the list of tool calls for each peer.

  Any other method, and any exception, is answered with the JSON-RPC error -32603
  "Internal error". `call_tool` routes a tool name and its arguments to a business
  operation and turns the outcome into a text. `TOOLS` is the five-entry
  tool catalog.
- **Stdio MCP server** (`mcp_server.py`). It offers the same catalog
  (`handle_list_tools`) and the same gateway (`handle_call_tool`), wrapped in a
  one-element list of text content.
- **Business back end** (`business_server.py`). It holds an in-memory agent registry:
  - register stores an agent under a fresh id;
  - status reports and task lookups answer 404 "Agent not found" for unknown ids;
  - the adder answers n + 1.
- **Chat client** (`mcp_client.py`). Its parts are:
  - the MCP connection manager, which uses fixed request ids 1, 2 and 3 and reads
    texts and the tool list out of the answers;
  - the LLM request payload;
  - the agent-id parse after registration;
  - the chat loop that runs proposed tool calls and grows the conversation history.

## How the model is organised

| module (file) | what it holds |
|---|---|
| `Wrappers` (wrappers.dfy) | `Option` and `Result` (with `:-`). |
| `Json` (json.dfy) | Decoded JSON values. A dict is an insertion-ordered sequence of pairs. `Lookup` finds the first pair with a key. |
| `Py` (py.dfy) | Python's behaviour on such values: `str()`, truthiness, `in`, `d[k]`, `.get`, iteration, and the exception texts. |
| `Text` (text.dfy) | Decimal text, `str.find`, `in`, `split`, `join`, `strip`. |
| `Registry` (registry.dfy) | `TOOLS`. |
| `Gateway` (gateway.dfy) | `call_tool` of the HTTP server, over an abstract downstream. |
| `Dispatcher` (dispatcher.dfy) | `handle_mcp_request`, as two functions (`NextStore`, `Respond`) and a class that updates the store in place. |
| `Business` (business.dfy) | `business_server.py`. |
| `StdioServer` (stdio_server.dfy) | `mcp_server.py`. |
| `Client` (client.dfy) | `mcp_client.py`. |
| `Bridge` (bridge.dfy) | Properties of the parts working together. |

Everything outside the program is a parameter:

- **The business server as seen over HTTP** is `Gateway.Downstream`. It gives the
  decoded reply body, or the text of the error the HTTP client raised.
- **`json.dumps(…, indent=2)`** is `Gateway.Dumps`.
- **Clock readings** are `now` strings.
- **`uuid4()`** is the id given to `RegisterAgent`.
- **The MCP server as seen by the client** is `Client.Transport`. It gives the reply,
  or None where `_send_request` swallows an error.
- **`OpenRouterClient.chat_completion`** is `Client.Llm`. It maps the request payload
  to the value the method returns: a text, or a message holding `tool_calls`.
- **`json.loads` of tool arguments** is `Client.Decode`.

`Downstream`, `Transport` and `Llm` are functions of the request alone, so the same
request always gets the same reply. For example, two `register_agent` calls in one
chat turn get the same reply in the model, while the business server would hand
out two distinct uuids.

## Model

| member | source | states |
|---|---|---|
| Dispatcher.McpHttpServer.constructor | mcp_server_http.py:29-30 | The store starts with no peers and no sessions, and satisfies the store invariant. |
| Dispatcher.McpHttpServer.HandleMcpRequest | mcp_server_http.py:236-359 | Handles one request in place. The new store is `NextStore` of the old one and the answer is `Respond`. The invariant `connected_clients == client_sessions.keys()` is kept. |
| Dispatcher.ConsistentPreserved | mcp_server_http.py:253-259 | Every request keeps the peer set equal to the session keys. No request removes a peer or a session. |
| Dispatcher.FirstInitialize | mcp_server_http.py:251-264 | The first initialize from a new peer adds it and opens its session with count 1 and no tool calls. Other sessions are unchanged. |
| Dispatcher.RepeatInitialize | mcp_server_http.py:251-264 | A repeated initialize keeps the session's start time and calls, and adds exactly 1 to its count. |
| Dispatcher.InitializeResponse | mcp_server_http.py:266-286 | initialize answers the fixed descriptor with the id echoed. If params (or its clientInfo) is not a dict, the `.get` raises and the answer is the internal error. |
| Dispatcher.InitializedNotification | mcp_server_http.py:288-291 | The notification is answered with `{"jsonrpc": "2.0"}`, which has no id, result or error. The store is unchanged. |
| Dispatcher.ToolsList | mcp_server_http.py:293-304 | tools/list answers the whole catalog whatever the store, so a second call answers the same. The count goes up by 1 only for a peer that has a session. |
| Dispatcher.ToolsCall | mcp_server_http.py:306-343 | tools/call (params a dict) answers one text block holding the gateway's text. For a tracked peer it adds 1 to the count and appends one record at the end of the peer's calls, whatever the outcome. Untracked peers leave the store unchanged. |
| Dispatcher.ToolsCallParamsNotDict | mcp_server_http.py:306-359 | tools/call whose params is not a dict: `params.get` raises AttributeError before any session is touched, so the store is unchanged. The answer is error -32603 with str(e) as data and the id echoed. |
| Dispatcher.UnknownMethod | mcp_server_http.py:345-359 | Any other method gets error -32603 "Internal error" with data "400: Unknown method: <m>" and the id echoed. The store is unchanged. |
| Dispatcher.TrackedPeerHistory | mcp_server_http.py:251-343 | Over any sequence of requests from any peers, a tracked peer keeps its start time. Its count grows by exactly the number of its own counted requests. Its call list is the old list followed by its own tools/call records, in order. |
| Registry.Tools | mcp_server_http.py:144-226 | The list tools/list sends has five entries, in catalog order. Each has a string "name" and an "inputSchema" whose "required" items are all keys of its "properties", read by key. The "name" values are pairwise distinct. |
| Registry.EncodeWellFormed | mcp_server_http.py:144-226 | A tool whose required names are all declared properties encodes to an entry that reads back its name and has a well-formed schema. |
| Registry.RequiredOf | mcp_server_http.py:144-226 | The required-argument list of a catalog tool is the one its entry declares. |
| Registry.CatalogWellFormed | mcp_server_http.py:144-226 | There are five tools with pairwise distinct names. Every required name is a declared property. |
| Gateway.CallTool | mcp_server_http.py:361-414 | A business operation is issued only for the tool of that name. |
| Gateway.FirstMissing | mcp_server_http.py:367-395 | Gives the first required key, in "required" order, that the argument dict lacks: every required key before it is present. None exactly when all are present. |
| Gateway.PrepareMissing | mcp_server_http.py:367-395 | The argument reads of a catalog tool raise KeyError on exactly that first missing key. |
| Gateway.UnknownTool | mcp_server_http.py:408-410 | A name outside the catalog gets "Unknown tool: <name>" and no downstream call. |
| Gateway.MissingRequiredArgument | mcp_server_http.py:367-414 | A missing required argument fails with KeyError on the first missing key, in "required" order, before any downstream call: "Error executing <name>: '<key>'". |
| Gateway.CompleteArguments | mcp_server_http.py:367-395 | With all required arguments present, exactly one downstream call is issued: the operation of that tool, carrying the argument values in "required" order. |
| Gateway.DownstreamFailure | mcp_server_http.py:412-414 | A downstream failure with cause c reads "Error executing <name>: c". |
| Gateway.ExceptionsBecomeErrorText | mcp_server_http.py:364-414 | An exception e raised while reading the arguments gives "Error executing <name>: str(e)" and no downstream call. An exception raised while formatting the reply gives the same text, after the call was issued. |
| Gateway.NonDictArguments | mcp_server_http.py:367-395 | Arguments that are not a dict make the first required read raise TypeError, before any downstream call, and the text is "Error executing <name>: <that TypeError>". |
| Gateway.FormatNeedsDict | mcp_server_http.py:372-404 | Every tool's formatting starts with `result.get(...)`, so a reply body that is not a dict raises AttributeError "'<type>' object has no attribute 'get'". |
| Gateway.UnreadableReply | mcp_server_http.py:367-414 | An issued call whose reply body is not a dict reads "Error executing <name>: '<type>' object has no attribute 'get'". |
| Gateway.ReportStatusText | mcp_server_http.py:376-385 | report_status answered with a dict reads "Status reported successfully: " followed by str of its "message" (None when absent). |
| Gateway.JokeText | mcp_server_http.py:400-406 | get_joke, whatever its arguments, answered with a dict reads "Here's a joke for you:\n\nSetup: <setup>\nPunchline: <punchline>", each part "" when absent. |
| Gateway.JokeDefaults | mcp_server_http.py:400-406 | An empty joke reply reads "Here's a joke for you:\n\nSetup: \nPunchline: ". |
| Gateway.AddNumberText | mcp_server_http.py:394-398 | add_number on n, answered `{"result": n+1}`, reads "Result: n + 1 = n+1". |
| Business.BusinessServer.RegisterAgent | business_server.py:31-35 | Stores {name, version} under the id and answers `{"agent_id": id}`. For a fresh id the key set grows by exactly that id, and existing entries are unchanged. |
| Business.BusinessServer.ReportStatus | business_server.py:37-41 | Fails with 404 "Agent not found" if and only if the id is unknown. Otherwise it answers only "Status received for agent <id>". |
| Business.BusinessServer.GetTasks | business_server.py:43-47 | Fails with 404 if and only if the id is unknown. Otherwise it answers only the whole task table. |
| Business.Adder | business_server.py:49-51 | Answers only `{"result": number + 1}`. |
| Business.RegisterThenServe | business_server.py:31-47 | After an id is registered, and another registration follows, a status report and a task lookup for the first id both succeed. |
| StdioServer.ListToolsMatchesHttp | mcp_server.py:133-217 | The stdio catalog has five tools. Each tool's name, description and schema match the HTTP `TOOLS` entry at the same position. |
| StdioServer.ListToolsWellFormed | mcp_server.py:136-216 | Tool names are pairwise distinct. In every tool's input schema, read by key, each "required" item is a key of "properties". |
| StdioServer.HandleCallTool | mcp_server.py:220-281 | Gives exactly one text item whatever happens. An exception gives "Error executing <name>: <cause>". |
| StdioServer.SameTextAsHttp | mcp_server.py:220-281 | For the same name, arguments and downstream, the text is exactly the HTTP gateway's. |
| StdioServer.UnknownTool | mcp_server.py:270-274 | An unknown name gives "Unknown tool: <name>" and reaches no business operation. |
| Client.RequestIds | mcp_client.py:79-137 | initialize carries id 1, tools/list id 2 and tools/call id 3. The notification has no id. tools/call carries {name, arguments}. |
| Client.ResultMember | mcp_client.py:141-143 | Reading `response["result"][key]` gives None for no reply. For a dict reply it gives exactly the lookup of key in the result dict. |
| Client.ToolCallText | mcp_client.py:140-147 | No reply reads "No response from tool". Reading the text never raises RuntimeError. |
| Client.ToolCallTextReads | mcp_client.py:140-147 | For a reply dict: no "result", or a result dict without "content", reads "No response from tool". A non-empty content list gives the first block's "text", or str(content) when the block has none; a first block that is not a dict raises. Any other content gives str(content). A reply that is not a dict reads "No response from tool" when it is falsy or has no "result" in it, and raises TypeError otherwise. |
| Client.ToolsFrom | mcp_client.py:117-123 | Gives one Tool per entry, in order, if and only if every entry has the three fields. Otherwise the error of the first failing entry. |
| Client.CatalogFromResponse | mcp_client.py:115-126 | No reply leaves the tool list as it was. |
| Client.CatalogFromResponseReads | mcp_client.py:115-126 | For a reply dict: no "result", or a result dict without "tools", leaves the tool list as it was. A "tools" list becomes the Tools read from its entries (`ToolsFrom`), or the error of the first failing entry. A reply that is not a dict leaves the list as it was when it is falsy or has no "result" in it, and raises TypeError otherwise. |
| Client.CallToolReply | mcp_client.py:128-152 | call_tool fails with RuntimeError "Not connected to MCP server" exactly when there is no connection. |
| Client.McpServerManager.SendRequest | mcp_client.py:149-164 | Raises RuntimeError before connecting. Afterwards it gives the transport's reply, with every transport error as None. |
| Client.McpServerManager.CallTool | mcp_client.py:128-147 | The reply is `CallToolReply`: RuntimeError before connecting, otherwise the text read from the reply as `ToolCallTextReads` states. |
| Client.McpServerManager.GetTools | mcp_client.py:107-126 | RuntimeError before connecting. Otherwise it replaces the tool list with the Tools read from result.tools, as `CatalogFromResponseReads` states, and leaves it unchanged when the reply has no result.tools; the first entry that cannot be read is returned as its error (KeyError for a missing field). |
| Client.McpServerManager.ConnectToServer | mcp_client.py:49-126 | Leaves the manager connected. Its tool list and error are those `GetTools` gives on a connected manager. |
| Client.CompletionPayload | mcp_client.py:195-222 | The payload names the model. It has "tools" if and only if the tool list is non-empty, and "tool_choice" "auto" exactly then. |
| Client.PayloadRoundTrip | mcp_client.py:199-221 | Reading the payload back gives exactly the messages, as {role, content}, and the tools, in function-calling form, both in their original order. |
| Client.MessagesRoundTrip | mcp_client.py:199 | Decoding the encoded message list gives the messages back. |
| Client.ToolsRoundTrip | mcp_client.py:211-221 | Decoding the encoded tool list gives the tools back. |
| Client.ParseAgentId | mcp_client.py:287-297 | An id is kept only from a text reply containing "Agent ID:". Its ends are not whitespace. |
| Client.Summaries | mcp_client.py:334-343 | One summary line per proposed call, in order, if and only if every call succeeds. Otherwise the error of the first failing call, with all earlier calls succeeding. |
| Client.SummaryReads | mcp_client.py:335-343 | One proposed call gives "Tool '<name>' result: <text>", with name and arguments read from its "function" and the text from call_tool. A missing "function", "name" or "arguments" raises KeyError on that key; a decoding error and call_tool's exception, such as RuntimeError when not connected, are passed on. |
| Client.ChatBot.Invoke | mcp_client.py:335-343 | Reads and sends one proposed call. The result is `Summary` of that call, the line or the exception `SummaryReads` describes. |
| Client.ChatBot.InvokeProposed | mcp_client.py:333-343 | The loop over the proposed calls gives exactly `Summaries`. |
| Client.ChatTurn | mcp_client.py:317-372 | A turn adds at most two messages after the user's, and the last one added is the reply. A turn that adds none answers "Error processing your request: …". |
| Client.ChatTurnReply | mcp_client.py:317-372 | Before initialize a turn adds nothing and answers the error prefix and the `'NoneType' object has no attribute 'chat_completion'` text. A completion without "tool_calls" is answered with `str(response)`. |
| Client.ToolTurn | mcp_client.py:345-362 | On the tool path, an error adds nothing. Success adds the summary message (the preamble and the joined lines), then one more message. |
| Client.ToolTurnReply | mcp_client.py:345-372 | On the tool path, an error answers the error prefix and str(e). Success answers, and adds last, `str` of the LLM's reply to the history with the summary and the follow-up question, sent without tools. |
| Client.ChatBot.Chat | mcp_client.py:317-372 | The history becomes the old history, the user message and what `ChatTurn` adds. The reply is `ChatTurn`'s. |
| Client.HistoryGrowth | mcp_client.py:317-372 | History grows by 3 (user, summary, answer) exactly when tools are proposed and all of them run; the summary joins one line per call, in proposal order. It grows by 2 exactly for a direct answer, and by 1 otherwise. |
| Client.ChatBot.Initialize | mcp_client.py:273-315 | Connects and loads the tools. On success it keeps the agent id parsed from the registration reply, if any, and appends the system prompt. |
| Bridge.ToolCallEndToEnd | mcp_client.py:128-147 | A client tools/call served by the HTTP dispatcher reads back exactly the gateway's text, whatever the tool did. |
| Bridge.ErrorReadsAsNoResponse | mcp_client.py:141-147 | An error envelope from the server reads as "No response from tool". |
| Bridge.CatalogEndToEnd | mcp_client.py:115-126 | From the server's tools/list answer the client rebuilds the whole catalog, in order, with each schema kept. |
| Bridge.RegistrationTextParses | mcp_client.py:294-295 | For an id with no "Agent ID: " inside and no whitespace at its ends, the registration text `"Agent registered successfully. Agent ID: " + id` parses back to exactly that id. |
| Bridge.RegistrationEndToEnd | mcp_client.py:287-295 | The registration that initialize performs, served by the dispatcher over a back end that answers `{"agent_id": id}`, leaves the client holding that id. |
| Bridge.AddNumberThroughBusiness | mcp_server_http.py:394-398 | add_number served by the business adder reads "Result: n + 1 = n+1". |
| Bridge.UnknownAgentReport | mcp_server_http.py:376-385 | A status report for an unregistered agent reads "Error executing report_status: <text of the 404>". |
| Bridge.KnownAgentReport | mcp_server_http.py:376-385 | A status report for a registered agent, served by the business server, reads "Status reported successfully: Status received for agent <id>". |
| Bridge.KnownAgentTasks | mcp_server_http.py:387-392 | get_tasks for a registered agent reads "Tasks for agent <id>:\n" followed by the serialised task table. |
| Bridge.HandshakeSteps | mcp_server_http.py:251-321 | For a new peer, any initialize, notification, tools/list and tools/call (params a dict) in that order leave its session with count 3 and exactly the one record of the call, and add the peer to the peer set. |
| Bridge.HandshakeSession | mcp_server_http.py:251-321 | A new peer's initialize, notification, tools/list and one tools/call leave its session with count 3 and exactly one call record. |

## Left out

- Transport and wiring are not modelled: FastAPI, uvicorn, CORS, the `/health`, `/stats` and `/clients` views, and the startup and shutdown hooks. They only serve, log or close connections.
- `BusinessServerMCP`, in both servers, and its httpx calls are the `Downstream` parameter. URL building, status checks and body decoding are inside it.
- Logging and execution-time measurement have no effect on answers or state and are left out. `datetime.now()` is a `now` parameter.
- `json.dumps(…, indent=2)` is the opaque `Dumps` parameter, so the exact layout of the task text is not modelled.
- `business_server.get_joke` is left out: it is an external HTTP fetch with a 503 fallback. The gateway's joke formatting is modelled over whatever the downstream answers.
- `uuid4()` is not modelled. The id is a parameter of `RegisterAgent`; freshness is an assumption of its "grows by one" clause, not a precondition.
- Request-body validation by pydantic (types of name, version, agent_id, status, number) is not modelled. Bodies reach the business operations already typed.
- Float values (`cpu_usage`, `memory_usage`, `temperature`) are opaque. The business server accepts the usage figures and does not use them.
- Py.Repr: `repr()` of strings inside containers is written without Python's escaping of quotes and backslashes. It only shows up in error texts and in `str(content)` of unusual replies.
- The exception texts that come from third-party libraries are not modelled: the HTTP client's errors, the business server's `HTTPException` replies as the client reports them, and pydantic's. They are carried as strings by the `Downstream` oracle. `Bridge.UnknownAgentReport` takes the text of an `HttpError` as a parameter. One such text is modelled: the dispatcher's own `str(HTTPException(400, d))` is written `"400: " + d` (`Dispatcher.UnknownMethodError`), which rests on Starlette's `HTTPException.__str__` giving "<status_code>: <detail>".
- `MCPServerManager._check_server_health` is left out. A non-200 status, and any other error, is logged and ignored. An unreachable server (`httpx.ConnectError`) raises "Cannot connect to MCP server at <host>:<port>. Make sure it's running.", which `connect_to_server` logs and re-raises; the model assumes the server is reachable. `disconnect`, `cleanup` and `close` are also left out; they only close clients.
- Client.McpServerManager.ConnectToServer: the health probe is not modelled (see above), and the replies to initialize and the notification are not used, as in the source.
- Client.ChatBot.Initialize: models the path where `OPEN_ROUTER_KEY` is set. The `ValueError` for a missing key is not modelled, and neither is the "Cannot connect to MCP server at …" exception that `connect_to_server` re-raises from the health probe. A tool-loading error is returned instead.
- `ChatBot.openrouter_client` being None before initialize is modelled as `llmReady == false`. The resulting `AttributeError` text is the one `chat` reports.
- Inside `OpenRouterClient.chat_completion`, the HTTP post, its headers with the API key, and the parsing of `choices` into a text or a tool-call message are the `Llm` parameter. Only the payload is modelled.
- `json.loads` of tool arguments is the `Decode` parameter.
- `Downstream`, `Transport` and `Llm` are functions of the request alone: the model cannot give two different replies to the same request, as a server handing out fresh uuids does.
- Duplicate keys in a JSON object are not modelled. Every dict the model builds has distinct keys, and inbound objects are taken to have them too. `Lookup` reads the first pair with a key, while `json.loads` keeps the last, so the two differ only on an object with a repeated key (`Json.LookupDistinct`).
- The interactive `main` loops, `start_chat.py` and the three test scripts are not part of this model.
- async/await and concurrent peers are not modelled. Requests are handled one after the other, as `Dispatcher.Run` does.
