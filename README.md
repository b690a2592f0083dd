# DiagramAI MCP bridge, modelled in Dafny

This project models the core of `mcp-server-diagramai`. That program is a bridge: it
exposes a collaborative-diagram service as eight tools of the Model Context Protocol.
Each tool call becomes an `agent_operation` message on a WebSocket, and the bridge
matches each reply to its call by `request_id`. The model covers four parts:

- **`DiagramWebSocketClient`** (`client.dfy`, module `WebSocketClient`): the
  pending-request registry and how inbound frames affect it; the guarded, bounded
  connect-retry loop; and the cleanup that rejects every pending request when the
  connection goes away. Each promise's settlement is recorded in the `settled` map.
  An id that is still pending has not been settled, and the class keeps that invariant.
  Emitted `message` events are an appended `notifications` sequence.
- **`DiagramTools`** (`schemas.dfy`, `tools.dfy`, `tool_facts.dfy`): the eight zod
  argument schemas, as an interpreter for the subset of zod they use:
  - strings with length bounds and the UUID shape;
  - bounded numbers, enums, booleans and arrays of `any`;
  - objects that strip unknown keys;
  - `.optional()` and `.default(..)`.

  This part also covers the tool catalog and the message each handler builds.
  `executeTool` is modelled twice. `Execute` is a reference function. `ExecuteTool` is
  the method that runs step by step and is proved equal to it. The order of checks is
  authentication, rate limit, tool name, argument schema, capability, then send. The
  audit-logging rules are covered too.
- **`DiagramAIMCPServer`** (`config.dfy`, `server.dfy`): config normalization through
  `||` defaults and the derived `wsUrl`. It also covers `initialize`, where the
  `isInitialized` flag is set only after every step succeeded, and the two request
  handlers that this flag guards. A tool error becomes an `isError` result. The model
  also includes `close`, `healthCheck`, `getConfig` and `getStats`.
- **`AuthService`** (`auth.dfy`): the `da_` key-prefix check behind `ready`, plus
  `isReady`, `close` and the authentication headers.

`js.dfy` holds the slice of JavaScript semantics these rely on:
- JSON values;
- thrown values;
- truthiness, behind `||`;
- property reads, including the `TypeError` a read from `null` raises.

Each event handler runs to completion on one cooperative event loop, so a synchronous
handler is one atomic step. `connect`, `initialize` and `executeTool` await, and other
events can run between their steps. The model still treats each of them as one step:
nothing else happens to the client or the server while it runs. "## Left out" says what
this hides.

The collaborators that `executeTool` calls are not defined in the modelled files:
`isAuthenticated`, `checkRateLimit`, `checkPermission`, `logOperation` and
`sendMessage`. They are inputs here: the `Collaborators` record gives their answers, and
the calls made to them come back as a trace of `Call`s. In the same way, the socket's
outcome for each connect attempt is an input `attempt: nat -> Attempt`. The API health
check used in `initialize` is an input `apiReachable: bool`.

### Notes on the code

- `executeTool` checks authentication and the rate limit first, outside its `try`
  block (`src/tools/diagramTools.ts:257-265`). Only then does it check the tool name and
  the arguments. Each handler checks its capability after the arguments have been
  validated.
- Not every call reaches the audit log. A call refused by authentication or by the rate
  limit is never logged. A call with `null` arguments throws a `TypeError` where the log
  entry reads `args.diagram_uuid` (line 325, in the `catch`; every schema's `parse`, and the
  unknown-name case, throws before the read at line 304), so it is not logged either. A success whose log
  call throws is logged a second time, as a failure.
- The `style` and `data` members of nodes and edges are declared as `z.object({})`
  (`src/tools/diagramTools.ts:25-26`, 39-40, 56). Zod strips every key an object schema
  does not declare, so a present `style` or `data` always reaches the message as `{}`,
  whatever it held.

## Model

| member | source | states |
|---|---|---|
| Js.OrWithTruthyDefault | src/websocket/client.ts:151 | with a truthy default such as `'Unknown error'`, `a || default` is truthy whatever `a` is, so a rejection reason is never falsy |
| Js.NatToString | src/websocket/client.ts:41 | the decimal rendering of a timestamp is a non-empty string of digits, one digit long exactly for values below 10 |
| ServerConfig.Normalize | src/mcpServer.ts:41-48 | a truthy `wsUrl`, `requestTimeout`, `maxRetries` or `retryDelay` is kept. A falsy one becomes the derived URL, 30000, 3 or 1000. `debug` becomes `true` exactly when it was `true`. `apiUrl` and `apiKey` are unchanged |
| ServerConfig.DeriveWsUrlSchemes | src/mcpServer.ts:43 | the derived URL turns `http…` into `ws…` and `https…` into `wss…`, keeping the rest |
| ServerConfig.DeriveWsUrlOnlyLeading | src/mcpServer.ts:43 | a URL not starting with `http` is left unchanged, and only the leading `http` is replaced |
| ServerConfig.NormalizeIdempotent | src/mcpServer.ts:41-48 | normalizing an already normalized configuration changes nothing |
| ServerConfig.NormalizedNumbersAreSet | src/mcpServer.ts:45-47 | after normalization the timeout is set and non-zero, and the client's own defaulting of `maxRetries` (to 3) and `retryDelay` (to 1000) reads back the normalized values |
| Auth.AuthService.constructor | src/auth/authService.ts:5-9 | a fresh service keeps its configuration and is not ready |
| Auth.AuthService.Initialize | src/auth/authService.ts:11-17 | a key starting with `da_` makes the service ready. Any other key throws the invalid-format error and leaves `ready` as it was |
| Auth.AuthService.Close | src/auth/authService.ts:69-71 | after `close` the service is not ready and `isReady` is false |
| Auth.AuthService.GetAuthHeaders | src/auth/authService.ts:39-44 | exactly two headers: `Authorization`, which is `Bearer ` followed by the API key, and `Content-Type: application/json` |
| Auth.ReadinessLifecycle | src/auth/authService.ts:65-71 | a fresh service is not ready, is ready after initializing with a well-formed key, and is not ready after `close` |
| WebSocketClient.LostAllSplit | src/websocket/client.ts:167-173 | the settlements the cleanup gives do not depend on the order of visiting the pending ids: two groups of ids settled one after the other give the same result as all at once, in either order |
| WebSocketClient.SettlementOf | src/websocket/client.ts:150-154 | a reply rejects its request exactly when its `type` is `error` or its `error` is truthy, and the rejection reason is then truthy. Any other reply resolves the request with the reply itself |
| WebSocketClient.RunFromSpec | src/websocket/client.ts:49-70 | from attempt `k`, the run stops within the limit; every attempt before its last failed; it succeeds exactly when its last attempt opened; a failed run used every attempt and reports the last attempt's error |
| WebSocketClient.ConnectRunSpec | src/websocket/client.ts:52-62 | a limit of 0 or less makes no attempt and reports success. Otherwise at least one and at most `limit` attempts are made, stopping at the first that opens, and exhaustion gives the last error |
| WebSocketClient.DiagramWebSocketClient.constructor | src/websocket/client.ts:38-42 | a new client has no socket, no pending or settled request and no notification, and its agent id is `mcp-agent-` followed by the construction time |
| WebSocketClient.DiagramWebSocketClient.Register | src/websocket/client.ts:32-36 | an assumed insertion of a fresh id: it adds exactly that entry and changes nothing else |
| WebSocketClient.DiagramWebSocketClient.Connect | src/websocket/client.ts:44-71 | a no-op while connecting or when open. Otherwise the outcome and attempt count are those of `ConnectRun` for `maxRetries` attempts (3 when falsy), and one `retryDelay` pause (1000 when falsy) separates consecutive attempts, so pauses = attempts − 1. With a positive limit `isConnecting` ends false, and the client is connected exactly when the outcome is a success. A limit of 0 or less makes no attempt and no pause, leaves the socket as it was and leaves `isConnecting` true. The registry and the notifications are untouched |
| WebSocketClient.DiagramWebSocketClient.Cleanup | src/websocket/client.ts:167-173 | every pending request is rejected with `WebSocket connection lost`, the registry ends empty and nothing else changes |
| WebSocketClient.DiagramWebSocketClient.Disconnect | src/websocket/client.ts:121-131 | the socket is dropped, every pending request is rejected as lost, and the registry ends empty |
| WebSocketClient.DiagramWebSocketClient.OnClose | src/websocket/client.ts:95-100 | a `close` event always runs the cleanup. Only the close of the socket the client holds marks it closed, so the client is no longer connected. The close of a socket an earlier `disconnect` dropped leaves the held socket, and the connection, as they were |
| WebSocketClient.DiagramWebSocketClient.HandleMessage | src/websocket/client.ts:137-165 | an unparseable or `null` frame changes nothing. A reply whose truthy `request_id` is pending removes exactly that entry and settles it once: rejected with `error`, or `'Unknown error'` when that is falsy, when `type` is `'error'` or `error` is truthy, resolved with the reply otherwise. Any other message is appended to the notifications, and the registry is unchanged |
| WebSocketClient.DuplicateReply | src/websocket/client.ts:145-158 | of two messages carrying the same pending id, the first settles the request and removes it from the registry, and adds exactly that id to the settled ones. The second, whatever its contents, is only emitted as a notification, and the first settlement stands |
| WebSocketClient.StaleCloseKeepsConnection | src/websocket/client.ts:95-100 | when a socket the client no longer holds closes, every pending request is rejected as lost, and an open connection stays open |
| WebSocketClient.DisconnectTwice | src/websocket/client.ts:121-131 | calling `disconnect` twice settles no more than calling it once |
| Schemas.ParseShapeAccepts | src/tools/diagramTools.ts:7-77 | an object schema accepts its input exactly when every declared field parses |
| Schemas.ParseShapeOutput | src/tools/diagramTools.ts:7-77 | an object schema produces only declared keys, each present exactly when its field produced a value, and with that value |
| Schemas.ParseObjectStrips | src/tools/diagramTools.ts:7-77 | an object schema accepts only objects and drops every undeclared key |
| Schemas.ParseValue | src/tools/diagramTools.ts:7-77 | parsing a present value never changes its JSON kind, returns scalars unchanged, keeps an array's length, and reports a failure at a path that extends the current one |
| Schemas.ParseSlot | src/tools/diagramTools.ts:7-77 | a present value parses only to a present value of the same kind. An absent value parses to absent exactly for `.optional()` and `any`, and a failure's path extends the current one |
| Schemas.ParseItems | src/tools/diagramTools.ts:12-13 | an accepted array keeps its length, and a failure is reported inside the array's path |
| SchemaFacts.SlotArrayOfAny | src/tools/diagramTools.ts:12-13 | an optional array of anything accepts exactly an absent value or an array, and passes it through unchanged |
| SchemaFacts.ItemsOfAny | src/tools/diagramTools.ts:12-13 | every element of an array of `any` passes unchanged |
| SchemaFacts.CreateDiagramAccepts | src/tools/diagramTools.ts:7-14 | `create_diagram` accepts exactly objects whose `title` is a 1..255-character string, whose `format` is absent, `reactflow` or `mermaid`, and whose other members are absent or of their declared kinds |
| SchemaFacts.CreateDiagramDefaults | src/tools/diagramTools.ts:7-14 | the parsed arguments keep the title and carry `format`, which is `reactflow` when none was given |
| SchemaFacts.ReadDiagramArguments | src/tools/diagramTools.ts:65-68 | `read_diagram` accepts exactly objects whose `diagram_uuid` is a UUID string and whose `include_metadata` is absent or boolean. That flag defaults to `false` |
| SchemaFacts.FilterSlot | src/tools/diagramTools.ts:73-76 | a `filter` is accepted exactly when it is absent or an object with an optional known `format` and an optional boolean `agent_accessible` |
| SchemaFacts.ListDiagramsAccepts | src/tools/diagramTools.ts:70-77 | `list_diagrams` accepts exactly objects whose `limit` is absent or in 1..100, whose `offset` is absent or at least 0, and whose `filter` is well-formed |
| SchemaFacts.ListDiagramsDefaults | src/tools/diagramTools.ts:70-77 | the parsed arguments always carry `limit` (10 by default) and `offset` (0 by default), within their bounds |
| SchemaFacts.MandatoryFieldParsed | src/tools/diagramTools.ts:16-63 | once accepted, every field without `.optional()` or `.default()` was present and is in the result. Plain strings come through unchanged, and UUID fields are well-formed UUIDs |
| SchemaFacts.TextSlot | src/tools/diagramTools.ts:8 | a string field accepts exactly a present string within its length bounds, and keeps it unchanged |
| SchemaFacts.UuidSlot | src/tools/diagramTools.ts:17 | a `.uuid()` field accepts exactly a present string in the 8-4-4-4-12 hexadecimal shape, and keeps it unchanged |
| SchemaFacts.OptionalSlot | src/tools/diagramTools.ts:9 | `.optional()` lets an absent value through as absent and checks a present one against the inner schema |
| SchemaFacts.OptionalObjectSlot | src/tools/diagramTools.ts:25-26 | `z.object({}).optional()` accepts exactly an absent value or any object, and a present object always parses to `{}`: every member it had is stripped |
| SchemaFacts.PositionAccepts | src/tools/diagramTools.ts:21-24 | a position is accepted exactly when it is an object with numeric `x` and `y` |
| SchemaFacts.NodeDataAccepts | src/tools/diagramTools.ts:18-27 | `node_data` is accepted exactly when it is an object with string `type` and `label`, a valid position, and `style` and `data` each absent or an object |
| SchemaFacts.NodeUpdatesAccepts | src/tools/diagramTools.ts:33-41 | `updates` is accepted exactly when it is an object whose `label`, `position`, `style` and `data` are each absent or of their declared kind |
| SchemaFacts.EdgeDataAccepts | src/tools/diagramTools.ts:51-57 | `edge_data` is accepted exactly when it is an object with string `source` and `target`, `label` and `type` each absent or a string, and `style` absent or an object |
| SchemaFacts.AddNodeAccepts | src/tools/diagramTools.ts:16-28 | `add_node` accepts exactly objects with a UUID `diagram_uuid` and a valid `node_data` |
| SchemaFacts.UpdateNodeAccepts | src/tools/diagramTools.ts:30-42 | `update_node` accepts exactly objects with a UUID `diagram_uuid`, a string `node_id` and valid `updates` |
| SchemaFacts.DeleteNodeAccepts | src/tools/diagramTools.ts:44-47 | `delete_node` accepts exactly objects with a UUID `diagram_uuid` and a string `node_id` |
| SchemaFacts.AddEdgeAccepts | src/tools/diagramTools.ts:49-58 | `add_edge` accepts exactly objects with a UUID `diagram_uuid` and a valid `edge_data` |
| SchemaFacts.DeleteEdgeAccepts | src/tools/diagramTools.ts:60-63 | `delete_edge` accepts exactly objects with a UUID `diagram_uuid` and a string `edge_id` |
| DiagramTools.ToolNamed | src/tools/diagramTools.ts:270-297 | the `switch` selects the operation whose tool name is exactly the given name, and no operation for any other name |
| DiagramTools.DiagramTools.constructor | src/tools/diagramTools.ts:84-88 | construction builds the catalog |
| DiagramTools.DiagramTools.GetToolCount | src/tools/diagramTools.ts:250-252 | the catalog holds 8 tools |
| DiagramTools.DiagramTools.GetAvailableTools | src/tools/diagramTools.ts:246-248 | the listed tools are the eight of the catalog, in catalog order, each under the name that selects its operation in `executeTool` |
| DiagramTools.DiagramTools.ExecuteTool | src/tools/diagramTools.ts:254-334 | the step-by-step `executeTool` makes the same collaborator calls, in the same order, and ends with the same result or error as the reference `Execute` |
| ToolFacts.CatalogMatchesSwitch | src/tools/diagramTools.ts:96-243 | the catalog lists 8 tools under distinct names, in catalog order. Each name selects the matching `switch` case, and every operation is listed |
| ToolFacts.CatalogAdvertisesSchemas | src/tools/diagramTools.ts:96-243 | each advertised input schema lists the properties of the validating schema in the same order, and marks as required exactly the fields that are neither optional nor defaulted |
| ToolFacts.MessagesAreAgentOperations | src/tools/diagramTools.ts:341-345 | every outbound message has type `agent_operation` and the tool's own name as `operation` |
| ToolFacts.WholeArgumentsMessage | src/tools/diagramTools.ts:341-373 | create, read and list send the parsed arguments as `data`, without a diagram UUID |
| ToolFacts.ScopedMessageNamesDiagram | src/tools/diagramTools.ts:383-448 | node and edge operations accept only a UUID `diagram_uuid`, and send it unchanged |
| ToolFacts.AddNodeMessage | src/tools/diagramTools.ts:383-388 | `add_node` sends the parsed `node_data` object |
| ToolFacts.UpdateNodeMessage | src/tools/diagramTools.ts:398-403 | `update_node` sends exactly `{node_id, updates}`, with `node_id` as given |
| ToolFacts.DeleteNodeMessage | src/tools/diagramTools.ts:413-418 | `delete_node` sends exactly `{node_id}` |
| ToolFacts.AddEdgeMessage | src/tools/diagramTools.ts:428-433 | `add_edge` sends the parsed `edge_data` object |
| ToolFacts.DeleteEdgeMessage | src/tools/diagramTools.ts:443-448 | `delete_edge` sends exactly `{edge_id}` |
| ToolFacts.AuthenticationComesFirst | src/tools/diagramTools.ts:257-260 | authentication is the first call. An unauthenticated call stops there with `Not authenticated`, having checked no rate limit, sent nothing and logged nothing |
| ToolFacts.RateLimitComesSecond | src/tools/diagramTools.ts:262-265 | the rate limit is checked second, for the tool's name. An exceeded limit stops with `Rate limit exceeded` after those two calls |
| ToolFacts.UnknownToolIsLoggedNotSent | src/tools/diagramTools.ts:295-332 | an unknown name is logged once as a failure with a `null` result and nothing is sent. `Unknown tool: <name>` is rethrown |
| ToolFacts.InvalidArgumentsAreNotSent | src/tools/diagramTools.ts:270-333 | arguments the schema rejects are logged once as a failure, with no permission check and no send, and the parse error is rethrown |
| ToolFacts.DeniedCallSendsNothing | src/tools/diagramTools.ts:336-451 | a missing capability stops the handler before it sends. The denial is logged once and rethrown |
| ToolFacts.SwitchSendsAtMostOnce | src/tools/diagramTools.ts:270-297 | the `switch` sends at most one message, and only right after the capability of a known tool with valid arguments was granted |
| ToolFacts.ExecuteTraceShape | src/tools/diagramTools.ts:267-333 | past the two guards, the calls are the `switch`'s calls followed only by log calls |
| ToolFacts.SendOnlyAfterValidationAndPermission | src/tools/diagramTools.ts:254-451 | a call sends at most once, and only after authentication, the rate limit, a known name, a valid parse and a granted capability, in that order. What it sends is the message built from the parsed arguments |
| ToolFacts.SuccessIsLoggedOnce | src/tools/diagramTools.ts:299-317 | a successful call was logged exactly once, last, as a success with target `diagram_uuid`, or `'new'` when that is falsy. Its result is the `result` of the reply to the message built from the validated arguments |
| ToolFacts.FailureIsLoggedAndRethrown | src/tools/diagramTools.ts:319-333 | when the `switch` fails, the failure is logged exactly once, last, with target `diagram_uuid`, or `'unknown'` when that is falsy and a `null` result. The same error is rethrown unless the log call itself throws |
| ToolFacts.RejectedSuccessLogIsLoggedAgain | src/tools/diagramTools.ts:301-333 | when logging a success throws, the call is logged a second time, as a failure, and the log's error is rethrown |
| ToolFacts.NullArgumentsEscapeUnlogged | src/tools/diagramTools.ts:304-325 | with `null` arguments, the call ends with the `TypeError` of reading `diagram_uuid` and nothing is logged |
| McpServer.ArgumentsOrEmpty | src/mcpServer.ts:136 | defaulting `args` to `{}` keeps truthy arguments, replaces the others with `{}`, and is never `null` |
| McpServer.DiagramAIMCPServer.constructor | src/mcpServer.ts:28-55 | the server normalizes its configuration, gives it to every service, and starts uninitialized with auth not ready and the client idle |
| McpServer.DiagramAIMCPServer.Initialize | src/mcpServer.ts:69-103 | a no-op once initialized. Otherwise the key check, then the API check, then `connect` run in order, and the first failure propagates. The flag is set exactly when every step succeeded. With a retry limit of 0 or less the client is left connecting, with its socket as it was |
| McpServer.DiagramAIMCPServer.ListTools | src/mcpServer.ts:107-119 | refuses with `Server not initialized` before initialization and lists the 8 catalog tools after it |
| McpServer.DiagramAIMCPServer.CallTool | src/mcpServer.ts:122-168 | refuses with `Server not initialized` (and calls nothing) before initialization. After it, the call runs `executeTool` on the arguments, defaulted to `{}`, and reports the outcome, never throwing |
| McpServer.DiagramAIMCPServer.Close | src/mcpServer.ts:171-190 | ends uninitialized, with auth not ready, no socket and every pending request rejected as lost. The notifications and `isConnecting` are untouched. The health check is false afterwards |
| McpServer.DiagramAIMCPServer.GetConfig | src/mcpServer.ts:224-233 | the public configuration has every normalized field but the key, and its optional fields are all set |
| McpServer.DiagramAIMCPServer.GetStats | src/mcpServer.ts:206-221 | the statistics report 8 tools; `initialized`, `websocketConnected` and `authServiceReady` each read from the server flag, the client's `isConnected` and the service's `isReady` (together they are the health check); and the configuration's `apiUrl`, `wsUrl`, `debug` and `requestTimeout` |
| McpServer.PublicConfigOmitsKey | src/mcpServer.ts:224-233 | two configurations have the same public view exactly when they differ at most in the API key |
| McpServer.ServedCallsAreAudited | src/mcpServer.ts:136 | a served call that passes authentication and the rate limit always ends with its audit log call, for the call's tool and arguments, which records whether it succeeded |
| McpServer.ToolErrorsBecomeResults | src/mcpServer.ts:129-167 | for arguments that are not `null`, a call is reported as an `isError` record naming the tool exactly when one of the conditions fails: authenticated, within the rate limit, a known tool, accepted arguments, the capability granted, a non-`null` answer, and a log call that does not throw. Otherwise the result is the tool's success record with the answer's `result` |
| McpServer.HealthLifecycle | src/mcpServer.ts:193-203 | the health check is false on a fresh server. With a good key, a reachable API and a socket that opens, it is true after `initialize` and false again after `close` |

## Left out

- The `ws` library, its events and `readyState` are abstract. An attempt's outcome is an input. A socket's `close` event is the method `OnClose`, told whether the closing socket is the one the client holds. `isConnected` reads the modelled socket state.
- The connect timeout timer (`client.ts:109-113`), `setTimeout` and `clearTimeout` are left out. A timed-out attempt counts as a failed attempt whose socket ends closed; the real socket may still be connecting.
- The retry pauses are returned as a sequence of durations, not slept.
- `sendMessage`, per-request timeouts and `generateRequestId` are not part of this model, because they are not in the modelled files. `Register` stands in for the sender's insertion under the assumption of fresh ids.
- `EventEmitter.emit` listeners are left out. An emitted message is appended to `notifications`.
- `JSON.parse` and `JSON.stringify` are left out. `HandleMessage` receives the parse result, with `None` when parsing throws. Tool results are data, not JSON text.
- Rejection errors are recorded as the value passed to `new Error(..)`, not as the formatted message.
- The cleanup rejects every pending request; the order of `Map` iteration is not modelled.
- Zod's error text is left out. `ZodMessage` is a stand-in that names the path of the first offending value.
- String lengths count Unicode scalar values, not UTF-16 code units.
- Numbers are mathematical reals; floating point, `NaN` and infinities are left out.
- `testConnection`, `fetch` and `makeAuthenticatedRequest` are network I/O. The health check's answer is the input `apiReachable`.
- `process.uptime` and `memoryUsage` in `getStats` are left out, as are the timestamps in results. The `Date.now` durations are one input, `duration`, used for both audit entries; the source reads the clock again in the `catch` (`diagramTools.ts:320`), so when a success log throws, the source's failure entry carries a later duration than the success entry.
- Console logging and debug output are left out.
- The MCP SDK `Server`, `setRequestHandler` and the stdio transport are a foreign framework. The two handlers are the methods `ListTools` and `CallTool`.
- `src/index.ts` is not part of this model: process lifecycle, environment parsing and signals.
- `connect`, `initialize` and `executeTool` await, but each is modelled as one atomic step. Events that run between their steps are left out. In particular, the `close` event of a failed attempt's socket runs `cleanup` during `connect`, so requests pending at that time are rejected; the model's `Connect` leaves the registry unchanged. A `new WebSocket(..)` that throws synchronously (`client.ts:82`, caught at line 115) leaves `ws` as it was, while the model gives every failed attempt a closed socket.
- The advertised tool schemas are reduced to their property and required-property names. Their types, enums, the UUID format, bounds, descriptions and nested object schemas (`diagramTools.ts:101-241`) are left out of `Tool`.
- The numeric options are integers. A fractional `maxRetries` such as 2.5, which allows 3 attempts in the source, cannot be expressed. The callers in `src/index.ts` pass the results of `parseInt`, which are integers or `NaN`; a `NaN` is falsy and falls back to the default like an absent value.
- McpServer.DiagramAIMCPServer.Close: in the model neither teardown step can throw, so the source's swallowing `catch` has nothing to catch.
- McpServer.DiagramAIMCPServer.Initialize: `diagramTools.initialize()` only logs, so it is a no-op step.
