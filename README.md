# superglue MCP server, modelled in Dafny

This project models the core of superglue's MCP server, `packages/core/mcp/mcp-server.ts`. It covers:

- the input checks of the static tools (`validateToolExecution`, `validateToolBuilding`) and the "exactly one of" refinements on the request schemas;
- `generatePlaceholders`, which turns a workflow's input schema into example payload and credentials objects;
- the credential flattening of `superglue_run_instruction`;
- the backend calls each tool handler makes, including the "Validation failed" rejection;
- the tool registry: the four static tools, one `execute_<workflow id>` tool per saved workflow, and the hook that registers a freshly built workflow and announces the change;
- the per-server log fan-out, filtered by organisation;
- the session manager: the `transports` map from session id to transport, routing of POST requests (`mcpHandler`) and of GET/DELETE requests (`handleMcpSessionRequest`), insertion on session initialisation and deletion on close.

JavaScript values are a `Json` datatype. `Truthy`, `Nullish`, `IsObjectType`, `Get`, `Entries` and `TemplateString` give the parts of JavaScript semantics the code relies on. These are truthiness, `typeof … === 'object'`, property reads including `length`, `Object.entries`/`Object.keys`, and `${…}`.

Code that updates state step by step is imperative Dafny. Each such method is proved against a specification function:

- the `forEach` loops of the validator and of `generatePlaceholders`;
- the `for` loop of `createDynamicTools`;
- the registration loops;
- the `transports` dictionary, as class `Sessions.SessionManager`;
- the tool registry, as class `Tools.ToolRegistry`;
- the log subscription, as class `LogFanout.LogSubscription`.

The backend client (`SuperglueClient`) is not modelled. A handler's effect is the list of backend calls it makes, with the request objects it sends. The backend's answers are parameters.

Files: `json.dfy`, `wrappers.dfy`, `maps.dfy`, `validation.dfy`, `placeholders.dfy`, `credentials.dfy`, `dispatch.dfy`, `tools.dfy`, `logs.dfy`, `sessions.dfy`.

## Model

| member | source | states |
|---|---|---|
| Validation.ValidateToolExecution | packages/core/mcp/mcp-server.ts:228-240 | The id error is reported iff `id` is falsy. The credentials error is reported iff credentials are truthy and not of type object. At most two errors, id error first. |
| Validation.ExecutionMessagesDiffer | packages/core/mcp/mcp-server.ts:232-236 | The two execution error texts differ, so the text tells which check failed. |
| Validation.BuildingValidation | packages/core/mcp/mcp-server.ts:242-263 | If validation passes with no errors, `systems` is a non-empty array with no nullish element. |
| Validation.ValidateToolBuilding | packages/core/mcp/mcp-server.ts:242-263 | The push-by-push validator returns exactly the specified outcome: the error list, or the TypeError it throws. |
| Validation.CheckSystems | packages/core/mcp/mcp-server.ts:253-260 | The `forEach` over systems throws if any system is nullish. Otherwise it appends each system's urlHost and credentials errors in index order. |
| Validation.CheckSystem | packages/core/mcp/mcp-server.ts:254-259 | One step of the loop appends the system's urlHost error, then its credentials error, each exactly when its condition holds. |
| Validation.MessageOpensWithSystem | packages/core/mcp/mcp-server.ts:255-258 | A per-system error text opens with `System <index>:`. |
| Validation.MessageNamesSystem | packages/core/mcp/mcp-server.ts:255-258 | Two per-system error texts of the same kind that read the same name the same system. |
| Validation.SystemMessageInjective | packages/core/mcp/mcp-server.ts:255-258 | The system index can be read back from a `System <index>:` message. |
| Validation.PerSystemErrorsShape | packages/core/mcp/mcp-server.ts:253-260 | The per-system errors number at most 2·\|systems\|. They are strictly ordered by (index, urlHost before credentials) and all rank after the two head errors. |
| Validation.UrlHostMissingIn | packages/core/mcp/mcp-server.ts:254-256 | `System i: urlHost…` appears iff system i exists and its urlHost is falsy. |
| Validation.CredentialsMissingIn | packages/core/mcp/mcp-server.ts:257-259 | `System i: credentials…` appears iff system i exists and its credentials are falsy or have no keys. |
| Validation.BuildingErrorsOrdered | packages/core/mcp/mcp-server.ts:242-263 | A returned list has at most 2 + 2·\|systems\| errors, in push order. |
| Validation.BuildingErrorsIff | packages/core/mcp/mcp-server.ts:242-263 | The instruction error is reported iff the instruction is missing or shorter than 10. The systems error is reported iff systems is not a non-empty array. Each per-system error is reported iff its condition holds. |
| Validation.BuildingThrowsIff | packages/core/mcp/mcp-server.ts:253 | The validator throws iff `systems` is non-nullish and either is not an array or holds a nullish system. |
| Validation.EmptySystemDrawsBothErrors | packages/core/mcp/mcp-server.ts:253-260 | One system with an empty urlHost and empty credentials yields exactly `[UrlHostMissing(0), CredentialsMissing(0)]`. |
| Validation.TransformRequestValid | packages/core/mcp/mcp-server.ts:52-54 | A transform request is accepted iff exactly one of `endpoint` and `id` is truthy. |
| Validation.ToolRequestValid | packages/core/mcp/mcp-server.ts:103-105 | A tool request is accepted iff exactly one of `tool` and `id` is truthy. |
| Placeholders.ExampleValueByType | packages/core/mcp/mcp-server.ts:188-192 | A string property gets `"example_<key>"`. Every other type gets a value that depends on the type alone. Unknown types get `{}`. |
| Placeholders.FillPlaceholders | packages/core/mcp/mcp-server.ts:187-193 | The output has exactly the declared keys except `__proto__`, which an assignment on `{}` does not create. Each key holds the example value for its type. It throws (None) iff some property is nullish. |
| Placeholders.GeneratePlaceholders | packages/core/mcp/mcp-server.ts:180-205 | A falsy schema or falsy `properties` gives empty objects. Otherwise payload and credentials each hold one example per declared property, `__proto__` excepted. It throws (None) iff a declared property is nullish. |
| Maps.UnionAll | packages/core/mcp/mcp-server.ts:438-440 | The left-to-right spread fold holds exactly the keys of the merged maps. |
| Maps.UnionAllLastWins | packages/core/mcp/mcp-server.ts:438-440 | A merged key carries the value from the last map that has it. |
| Credentials.Contribution | packages/core/mcp/mcp-server.ts:439 | One system contributes exactly `<id>_<name>` for each of its credentials, mapped to that credential's value. |
| Credentials.FlattenCredentials | packages/core/mcp/mcp-server.ts:438-440 | The outer `reduce`: a key is present iff some system contributes it. |
| Credentials.FlattenedKeys | packages/core/mcp/mcp-server.ts:438-440 | A flattened key exists iff it is `<id>_<name>` for some credential of some system. |
| Credentials.FlattenedLastWins | packages/core/mcp/mcp-server.ts:438-440 | On a key clash between systems, the later system's value wins. |
| Dispatch.ValidationFailure | packages/core/mcp/mcp-server.ts:284 | The thrown message is `Validation failed:\n` followed by the messages joined by newlines. With a single error, it is that prefix followed by the error. |
| Dispatch.ValidationFailureSnoc | packages/core/mcp/mcp-server.ts:284 | One more pushed error adds a newline and its message at the end of the thrown message. |
| Json.JoinSnoc | packages/core/mcp/mcp-server.ts:284 | Joining one more part appends the separator and that part, as `join('\n')` does. |
| Dispatch.Persist | packages/core/mcp/mcp-server.ts:296-297 | One upsert of the reported config under the config's own `id`, exactly when the run succeeded and the config can be read. |
| Dispatch.ExecuteTool | packages/core/mcp/mcp-server.ts:281-308 | Rejected with the joined messages iff validation reports errors. Otherwise it executes first with the arguments as given, and upserts iff the run succeeded with a readable config. |
| Dispatch.BuildRequest | packages/core/mcp/mcp-server.ts:334-339 | The build request passes `instruction` and `systems` through. `payload` and `responseSchema` are the caller's values when truthy and `{}` otherwise, so both are always truthy. |
| Dispatch.BuildTool | packages/core/mcp/mcp-server.ts:326-352 | A validator TypeError escapes with no call. Listed errors reject with the joined messages. Otherwise exactly one build call is made, with the build request. |
| Dispatch.RunRequest | packages/core/mcp/mcp-server.ts:443-447 | The execution request carries the built workflow, the payload as given, and the flattened credentials. |
| Dispatch.RunInstruction | packages/core/mcp/mcp-server.ts:422-465 | It throws iff validation throws, with no call. It rejects with the joined messages iff validation lists errors. Otherwise every system can be read and it makes the calls of `RunCalls`. |
| Dispatch.RunCalls | packages/core/mcp/mcp-server.ts:429-449 | After validation passes, it makes an unsaved build, then one execution iff the build answered. It never upserts. |
| Dispatch.DynamicRequest | packages/core/mcp/mcp-server.ts:514-519 | A dynamic tool sends its own workflow id plus the caller's `payload`, `credentials` and `options`. |
| Dispatch.DynamicInvocation | packages/core/mcp/mcp-server.ts:513-532 | It always executes its own workflow first. It makes exactly one more call, the upsert under the config's `id`, iff the run succeeded with a readable config. It throws iff the execution threw, a success carries no config, or the upsert failed. |
| Dispatch.RejectedMakesNoCall | packages/core/mcp/mcp-server.ts:281-285 | When validation fails, the execute, build and run-instruction handlers make no backend call (see also lines 326-330 and 422-426). |
| Dispatch.RunBuildsUnsaved | packages/core/mcp/mcp-server.ts:431-437 | The run-instruction build request is the build-tool request plus `save: false`. |
| Tools.ToolName | packages/core/mcp/mcp-server.ts:510 | A dynamic name is `execute_` followed by the id, so distinct ids get distinct names. |
| Tools.DynamicNeverStatic | packages/core/mcp/mcp-server.ts:510 | No dynamic tool name equals a static tool name. |
| Tools.Description | packages/core/mcp/mcp-server.ts:511 | The description is the instruction if it is non-empty, else `Execute tool: <id>`. It is never empty. |
| Tools.FallbackShape | packages/core/mcp/mcp-server.ts:496-507 | The fallback shape is exactly `payload`, `credentials` (optional any) and `options` (request options). |
| Tools.InputShape | packages/core/mcp/mcp-server.ts:476-508 | A falsy schema or a failed translation gives the fallback shape. A successful translation gives the schema's properties plus `options`, which always overrides. |
| Tools.CreateDynamicTools | packages/core/mcp/mcp-server.ts:470-537 | The loop builds exactly the specified record of dynamic tools. |
| Tools.DynamicToolNamed | packages/core/mcp/mcp-server.ts:473-534 | Every dynamic tool is named after a listed workflow. |
| Tools.WorkflowHasTool | packages/core/mcp/mcp-server.ts:473-534 | Every listed workflow has a tool. |
| Tools.DynamicToolsAtMostOnePerWorkflow | packages/core/mcp/mcp-server.ts:473-534 | The record holds at most one tool per listed workflow. |
| Tools.DynamicToolsNames | packages/core/mcp/mcp-server.ts:470-537 | The record's names are exactly the workflows' `execute_<id>` names. |
| Tools.DynamicToolsEntry | packages/core/mcp/mcp-server.ts:510-533 | A workflow whose id no later workflow repeats keeps its own tool. Otherwise the later one replaces it. |
| Tools.StaticEntries | packages/core/mcp/mcp-server.ts:602-604 | The static record has exactly the given names, each with its static tool. |
| Tools.ToolRegistry.constructor | packages/core/mcp/mcp-server.ts:541-570 | A new server has no tools and has sent no list-changed notification. |
| Tools.ToolRegistry.Register | packages/core/mcp/mcp-server.ts:615-620 | Registering replaces by key. Nothing else changes. |
| Tools.ToolRegistry.RegisterStatic | packages/core/mcp/mcp-server.ts:602-636 | Adds a static tool under each name. |
| Tools.ToolRegistry.RegisterAll | packages/core/mcp/mcp-server.ts:642-649 | Adds every entry of the record under its name. |
| Tools.ToolRegistry.RegisterListed | packages/core/mcp/mcp-server.ts:639-653 | A failed listing adds nothing. Otherwise it adds exactly the listed workflows' dynamic tools. |
| Tools.ToolRegistry.AfterStaticCall | packages/core/mcp/mcp-server.ts:611-623 | Only a successful `superglue_build_new_tool` result registers the built tool and sends two list-changed notifications. Anything else leaves the registry unchanged. |
| Tools.BuiltToolReplaces | packages/core/mcp/mcp-server.ts:613-620 | The hook adds at most one name and never touches a static tool. Repeating it with the same workflow is idempotent. |
| Tools.StaticToolsSurvive | packages/core/mcp/mcp-server.ts:602-653 | No listed workflow's tool displaces a static tool. |
| Tools.StartServer | packages/core/mcp/mcp-server.ts:602-653 | After start, all four static tools are present under their own names, beside the listed workflows' tools. |
| LogFanout.ShouldForward | packages/core/mcp/mcp-server.ts:579-581 | An entry is forwarded iff its organisation and the session's are the same tenant. An absent id and an empty id count as the same default tenant. |
| LogFanout.ToLower | packages/core/mcp/mcp-server.ts:583 | Lower-casing keeps the length and changes only ASCII capitals, each to its lower-case letter. |
| LogFanout.Notification | packages/core/mcp/mcp-server.ts:582-586 | The notification carries the entry's message, the logger name `superglue-server`, and the entry's level lower-cased by `ToLower` (same length, no capitals, each capital mapped to its lower-case letter). |
| LogFanout.LogSubscription.constructor | packages/core/mcp/mcp-server.ts:591 | A new subscription is active and has sent nothing. |
| LogFanout.LogSubscription.OnLog | packages/core/mcp/mcp-server.ts:579-588 | While subscribed, a matching entry is sent exactly once and a mismatching one never. |
| LogFanout.LogSubscription.Unsubscribe | packages/core/mcp/mcp-server.ts:593-599 | Afterwards nothing is forwarded. Repeating it is a no-op. |
| Sessions.BadSession | packages/core/mcp/mcp-server.ts:689-697 | The reply is HTTP 400 with JSON-RPC version 2.0, error code exactly -32000, the source's message, and `id: null`. The code lies in the implementation-defined server-error range. |
| Sessions.InvalidSession | packages/core/mcp/mcp-server.ts:709 | GET/DELETE without a known session get a plain 400. |
| Sessions.Route | packages/core/mcp/mcp-server.ts:664-698 | Reuse iff the id is non-empty and stored. A session starts iff there is no id and the body is an initialize request. Otherwise the request is rejected, including an unknown id on an initialize request. |
| Sessions.SessionQuery | packages/core/mcp/mcp-server.ts:706-715 | Reuse iff the id is non-empty and stored. Otherwise a 400. It never starts a session. |
| Sessions.RouteAsWritten | packages/core/mcp/mcp-server.ts:664-698 | As written, the POST handler throws iff the id is non-empty, not stored, and the name of an inherited `Object.prototype` member. It starts a session iff there is no id and the body is an initialize request. |
| Sessions.SessionQueryAsWritten | packages/core/mcp/mcp-server.ts:706-715 | As written, the GET/DELETE handler throws iff the id is non-empty, not stored, and an inherited member name. It never starts a session. |
| Sessions.InheritedIdBreaksPost | packages/core/mcp/mcp-server.ts:664 | As written, a `toString` session id makes the POST handler throw instead of rejecting. |
| Sessions.InheritedIdBreaksQuery | packages/core/mcp/mcp-server.ts:708 | As written, a `constructor` session id makes the GET/DELETE handler throw instead of answering 400. |
| Sessions.AsWrittenAgreesOtherwise | packages/core/mcp/mcp-server.ts:664-698 | For every other header, the lookup as written and the corrected routing agree. |
| Sessions.SessionManager.constructor | packages/core/mcp/mcp-server.ts:657 | The map starts empty. |
| Sessions.SessionManager.HandlePost | packages/core/mcp/mcp-server.ts:659-703 | It decides as the corrected `Route` does, not as the source's lookup (`RouteAsWritten`; see Findings), and never changes the map. Only a new session creates a transport. |
| Sessions.SessionManager.SessionInitialized | packages/core/mcp/mcp-server.ts:671-674 | It inserts the transport under its fresh id. Every stored transport stays under its own id, and ids stay unique. |
| Sessions.SessionManager.Close | packages/core/mcp/mcp-server.ts:678-682 | It removes only the closing transport's own non-empty id. Every other session keeps its transport. |
| Sessions.SessionLifecycle | packages/core/mcp/mcp-server.ts:659-715 | A session is started by an initialize request without an id, reused under its id, and rejected after it closes. An unknown id on an initialize request is rejected. |

## Left out

- The MCP SDK is not modelled: `McpServer`, `StreamableHTTPServerTransport`, the wire protocol, `handleRequest`, `sendLoggingMessage` and `sendToolListChanged`. Transports are numbered tokens, and notifications are a counter or a list.
- The SDK's own reaction to registering a name twice is not visible, so the registry replaces by key.
- `SuperglueClient` is not modelled: `executeWorkflow`, `buildWorkflow`, `upsertWorkflow`, `listWorkflows`, `getWorkflow`. Its answers are parameters (`ExecuteResponse`, `built`, `listing`, `upsertFails`).
- `listWorkflows(100, 0)` is modelled as the page it returns, or `None` on failure. The page size is not modelled.
- `validateToken` and the organisation lookup are not modelled. The session's organisation is a constructor parameter.
- `superglue_get_integration_code` is not modelled: `generateSDKCode`, `getSDKCode` and the code templates (lines 173-225 and 356-406). Only `generatePlaceholders` is modelled.
- In `generateSDKCode`, `JSON.parse` of a string input schema (lines 207-209) is not modelled. `GeneratePlaceholders` takes the parsed schema.
- Tools.InputShape: `jsonSchemaToZod`, the regex match and the `eval` (lines 477-492) are not modelled. They are a `translate` parameter that yields the property names or fails; the field validators themselves are not modelled.
- The zod schema declarations (lines 20-158) are not modelled, apart from the two refinements. The SDK checks a call's arguments against them before a handler runs; the modelled handlers and validators accept any arguments, which covers every argument that passes those checks.
- The result objects a handler returns are not modelled. This covers `error`, `suggestion`, `usage_tip`, `next_steps` and the `JSON.stringify` wrapping. A handler is modelled only by its backend calls and by whether it returns, throws or rejects.
- Dispatch.ExecuteTool: the request is `args` as validated. The `client` field that the static-tool wrapper adds to `args` is not modelled.
- Tools.ToolRegistry.AfterStaticCall: a static tool's result is reduced to success plus the workflow it describes (`id`, `instruction`, `inputSchema`). A missing `instruction` is `""`.
- Express `req`/`res`, HTTP headers other than `mcp-session-id`, `isInitializeRequest` (a boolean parameter), `randomUUID` and async interleaving are not modelled. A fresh session id is assumed unused, and a transport is assumed to be initialised at most once (a guarantee of the SDK transport, not checked at lines 671-674); `SessionInitialized`'s precondition states both.
- Numbers are integers. Floating point, `NaN` and `-0` are not modelled.
- Json.LessThanTen: the numeric coercion of a string or object `length` in `instruction.length < 10` is not modelled. Only numbers, `null` and booleans compare.
- LogFanout.ToLower: only ASCII letters are lower-cased.
- Json.Get: strings are sequences of characters, not of UTF-16 code units, so the `length` of a string with characters outside the Basic Multilingual Plane (emoji, for example) is smaller than in JavaScript. An instruction of five such characters fails the length check in the model but passes it in the source.
- Dispatch.DynamicInvocation: a nullish result from `executeWorkflow` is not modelled separately from a call that throws.
- Tools.ToolRegistry.AfterStaticCall: the `{ success: true, ...tool }` spread could in principle let a built workflow override `success`. This is not modelled.

## Findings

| source | as written | input that shows it | evidently intended | confidence | as-written member | corrected member |
|---|---|---|---|---|---|---|
| packages/core/mcp/mcp-server.ts:664 | `transports[sessionId]` reads a plain object, so an id naming an `Object.prototype` member (`toString`, `constructor`, `__proto__`, …) passes the "known session" test, and the handler then calls `handleRequest` on that member and throws | POST with header `mcp-session-id: toString` and any body | reply 400 with error -32000 and `id: null`, as for any unknown id | not executed | Sessions.InheritedIdBreaksPost | Sessions.Route |
| packages/core/mcp/mcp-server.ts:708 | the same lookup in the GET/DELETE handler | GET with header `mcp-session-id: constructor` | reply 400 `Invalid or missing session ID` | not executed | Sessions.InheritedIdBreaksQuery | Sessions.SessionQuery |
