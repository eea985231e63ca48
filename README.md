# ManusAI agent backend and sandbox, modelled in Dafny

ManusAI is an autonomous agent service with two parts. The **backend** lets users sign up and log in. It gives them access and refresh tokens and signed file URLs, and sends e-mail verification codes. It runs a *plan-act flow*: a planner agent turns the user's message into a plan of steps, an execution agent carries the steps out one by one with tools, and after each step the planner revises the rest of the plan. Each agent keeps a message memory, calls a language model and dispatches its tool calls, including the tools of MCP (Model Context Protocol) servers. The **sandbox** is a container that the backend creates or reuses. Inside it, small services run shell sessions, read and write files, and keep an inactivity timeout that a middleware extends on every API request.

This project models those parts one Dafny module per source file and proves what their code promises:

- **Shared helpers.** `Wrappers` holds Option and Result. `PyStr` gives Python's string semantics where the source relies on them: slicing with negative indices, `strip`, `splitlines`, `count`/`replace`, `startswith`, `lower` and `int()`. `Json` holds JSON values.
- **Data models.** `Events`, `ToolResults`, `Plans`, `Memories`, `Sessions` and `UserModel` model the backend's records and their small operations.
- **Agents.** `BaseAgent`, `Execution`, `Planner`, `ToolsBase`, `Mcp` and `JsonParser` model the agents, their tools and the parsing of model replies. `PlanAct` models the status machine of the flow.
- **Authentication.** `AuthSchemas`, `AuthService`, `TokenService` and `EmailVerification` model request validation and the rules of the authentication services.
- **Sandbox.** `DockerSandbox` models the backend's sandbox client. `Shell`, `SandboxFiles`, `Supervisor` and `Middleware` model the services inside the sandbox.

Objects whose fields the source updates are Dafny classes with `modifies` frames: the agent, its memory, the flow, the shell table, the supervisor, the MCP client manager and tool, and the sandbox. Loops are methods proved against specification functions. Everything outside the process is a parameter:

- the language model, tools and MCP servers;
- the clock, the HTTP status endpoint and Docker;
- the user and token stores, the cache and SMTP;
- hashing and HMAC, JSON decoding and regular expressions.

## Model

| member | source | states |
|---|---|---|
| PyStr.LeadingSpacesFacts | backend/app/domain/models/user.py:29 | `str.strip` removes exactly the whitespace characters in front, up to the first non-space |
| PyStr.TrailingStartFacts | backend/app/domain/models/user.py:29 | `str.strip` removes exactly the whitespace characters at the back, down to the last non-space |
| PyStr.Strip | backend/app/domain/models/user.py:29 | stripping never lengthens a string |
| PyStr.LStripFacts | backend/app/domain/models/user.py:29 | the left-stripped string is a suffix of the original, what was removed is all whitespace, and it does not start with whitespace |
| PyStr.RStripFacts | backend/app/domain/models/user.py:29 | the right-stripped string is a prefix of the original, what was removed is all whitespace, and it does not end with whitespace |
| PyStr.StripEnds | backend/app/domain/models/user.py:29 | a stripped string is empty or starts and ends with a non-space |
| PyStr.StripNoSpace | backend/app/domain/models/user.py:29 | a string that starts and ends with a non-space is left alone by strip |
| PyStr.StripSpaceCons | backend/app/domain/models/user.py:29 | a leading space makes no difference to strip |
| PyStr.StripIdempotent | backend/app/domain/models/user.py:29 | stripping twice is the same as stripping once |
| PyStr.StripKeeps | backend/app/domain/models/user.py:29-36 | a non-space character survives stripping (so an `@` in an address stays) |
| PyStr.LowerStripped | backend/app/domain/models/user.py:36 | lower-casing a stripped string leaves it stripped |
| PyStr.Lower | backend/app/domain/models/user.py:36 | `str.lower` keeps the length and maps each character on its own |
| PyStr.LowerNoUpper | backend/app/domain/models/user.py:36 | a string without capitals is unchanged by lower |
| PyStr.LowerCons | backend/app/domain/models/user.py:36 | lower works character by character from the front |
| PyStr.LowerIdempotent | backend/app/domain/models/user.py:36 | lower-casing twice is the same as once |
| PyStr.SliceIndex | backend/app/domain/models/memory.py:39 | a Python slice bound is clamped into the sequence, and a negative one counts from the end |
| PyStr.Slice | backend/app/domain/models/memory.py:39 | a slice is never longer than the sequence, and the full slice is the sequence |
| PyStr.Take | backend/app/infrastructure/utils/llm_json_parser.py:79 | `s[:n]` is the first n elements, or all of a shorter sequence |
| PyStr.FindFrom | backend/app/infrastructure/utils/llm_json_parser.py:88-95 | the first position at or after the start where the pattern occurs, absent exactly when there is none |
| PyStr.ReplaceFirst | sandbox/app/services/shell.py:40 | `replace(old, new, 1)` on a string starting with old puts new in front of the rest, and changes nothing when old does not occur |
| PyStr.ReplaceLength | sandbox/app/services/file.py:181 | `str.replace` changes the length by the count of occurrences times the length difference |
| PyStr.InsertEverywhereLength | sandbox/app/services/file.py:181 | replacing the empty string inserts the new text before every character and at the end |
| PyStr.ReplaceFromLength | sandbox/app/services/file.py:181 | for a non-empty pattern the length changes by the non-overlapping count times the difference |
| PyStr.CountZeroIff | sandbox/app/services/file.py:173-181 | the count of a non-empty pattern is zero exactly when it does not occur, and then replace changes nothing |
| PyStr.ReplaceUnchanged | sandbox/app/services/file.py:181 | with no occurrence the replacement is the original string |
| PyStr.FirstBreak | sandbox/app/services/file.py:68 | the first line boundary of `splitlines`, or the end when there is none |
| PyStr.SplitLines | sandbox/app/services/file.py:68 | no line that `splitlines` returns contains a line boundary |
| PyStr.SplitLinesAtNewline | sandbox/app/services/file.py:68 | a text whose first boundary is `\n` splits into the text before it followed by the lines after it |
| PyStr.JoinCons | sandbox/app/services/file.py:71 | `sep.join` puts the separator between the first part and the rest |
| PyStr.JoinSplitLines | sandbox/app/services/file.py:68-71 | for text whose only boundaries are `\n` and that does not end in one, joining its lines with `\n` gives it back |
| PyStr.NatToStr | backend/app/application/services/token_service.py:207 | `str` of a natural number is a non-empty string of digits |
| PyStr.NatToStrLength | backend/app/application/services/email_service.py:29 | a number with k digits prints with k characters and no leading zero |
| PyStr.DigitsOfNatToStr | backend/app/application/services/token_service.py:207 | the printed digits read back as the number |
| PyStr.ParseDigits | backend/app/application/services/token_service.py:247 | `int` of a string of digits is their value |
| PyStr.ParseNegativeDigits | backend/app/application/services/token_service.py:247 | `int` of a minus sign and digits is the negated value |
| PyStr.ParseIntToStr | backend/app/application/services/token_service.py:207-247 | `int(str(n)) == n` for every integer |
| PyStr.Utf8Length | sandbox/app/services/file.py:118 | the UTF-8 length of a string is between one and four bytes per character |
| PyStr.Utf8LengthAppend | sandbox/app/services/file.py:118 | the UTF-8 length of a concatenation is the sum of the lengths |
| PyStr.Utf8LengthAscii | sandbox/app/services/file.py:118 | an ASCII string has as many UTF-8 bytes as characters |
| Json.Unescape | backend/app/domain/services/agents/base.py:123-129 | reading a string literal's inside never yields more characters than it has, and fails at a bare quote, a raw control character or a malformed escape |
| Json.UnescapeEscape | backend/app/domain/services/agents/base.py:123-129 | a string rendered into a tool reply reads back as exactly that string |
| Json.EscapeNoControl | backend/app/domain/services/agents/base.py:123-129 | a rendered string literal holds no raw control character; backspace and form feed are written `\b` and `\f`, the others below space as `\u00XX` |
| Json.Lookup | backend/app/domain/services/agents/execution.py:90 | the value of a field with that key, absent exactly when no field has it |
| Json.Escape | backend/app/domain/services/agents/base.py:123-129 | escaping never shortens a string |
| Json.Quote | backend/app/domain/services/agents/base.py:123-129 | a quoted string begins and ends with a double quote |
| Json.Render | backend/app/domain/services/agents/base.py:123-129 | rendering is never empty; a string renders in quotes, an array in brackets and an object in braces |
| ToolResults.DumpSuccess | backend/app/domain/models/tool_result.py:6-9 | a dumped tool result opens with its `success` field, `true` exactly when the call succeeded |
| ToolResults.Dump | backend/app/domain/services/agents/base.py:123-129 | a dumped result is a JSON object text, in braces |
| Events.ChatInput.Dump | backend/app/domain/services/agents/base.py:208-214 | a dumped chat input is a JSON object text, in braces |
| UserModel.ValidateFullname | backend/app/domain/models/user.py:24-29 | accepted exactly when the stripped name has two characters or more, and then the stripped name is stored; otherwise the full-name error |
| UserModel.ValidateEmail | backend/app/domain/models/user.py:31-36 | accepted exactly when the address contains `@`, and then the stripped lower-cased address is stored; otherwise the e-mail error |
| UserModel.FullnameIdempotent | backend/app/domain/models/user.py:24-29 | a validated name is in normal form and validating it again changes nothing |
| UserModel.EmailIdempotent | backend/app/domain/models/user.py:31-36 | a validated address is in normal form and validating it again changes nothing |
| UserModel.NewUser | backend/app/domain/models/user.py:12-36 | a user is built exactly when both validators pass, with the validated name and address and every other field as given |
| UserModel.NewUserValid | backend/app/domain/models/user.py:12-36 | every user built this way is in normal form |
| UserModel.NormalFullnameFixed | backend/app/domain/models/user.py:24-29 | a name in normal form passes validation unchanged |
| UserModel.NormalEmailFixed | backend/app/domain/models/user.py:31-36 | an address in normal form passes validation unchanged |
| UserModel.RebuildFixed | backend/app/domain/models/user.py:12-36 | a record whose name and address validate to themselves is rebuilt unchanged |
| UserModel.RebuildValid | backend/app/domain/models/user.py:12-36 | a record in normal form is rebuilt unchanged, so re-validating stored users is harmless |
| UserModel.WithDefaults | backend/app/domain/models/user.py:17-22 | with the optional fields left out the user is active, has no password and no last login, and both timestamps are the class-definition time |
| UserModel.User.constructor | backend/app/domain/models/user.py:12-22 | the object holds the given record |
| UserModel.User.Data | backend/app/domain/models/user.py:12-22 | the record of the object's fields; the constructor and the update methods are stated with it |
| UserModel.User.UpdateLastLogin | backend/app/domain/models/user.py:38-41 | only the last-login and updated times change, both to now |
| UserModel.User.Deactivate | backend/app/domain/models/user.py:43-46 | only the active flag (cleared) and the updated time change |
| UserModel.User.Activate | backend/app/domain/models/user.py:48-51 | only the active flag (set) and the updated time change |
| Plans.Plan.NextStep | backend/app/domain/models/plan.py:38-42 | absent exactly when every step is done; otherwise a step that is not done and is preceded only by done steps |
| Plans.FirstPending | backend/app/domain/models/plan.py:38-42 | the index of the first step that is not done, absent exactly when all are done |
| Plans.NewStep | backend/app/domain/models/plan.py:12-19 | a new step is pending, unsuccessful, with no result, error or attachments |
| Plans.Step.IsDone | backend/app/domain/models/plan.py:21-22 | a step is done when it completed or failed; `NextStep`, `FirstPending` and `DonePrefix` are stated with it |
| Plans.Plan.IsDone | backend/app/domain/models/plan.py:35-36 | a plan is done when it completed or failed |
| Plans.NewPlan | backend/app/domain/models/plan.py:24-33 | a new plan is pending, in English, with no title, goal, steps or message |
| Plans.NextStepOfFreshPlan | backend/app/domain/models/plan.py:38-42 | in a plan whose steps are all pending the next step is the first one, and none for an empty plan |
| Sessions.NewSession | backend/app/domain/models/session.py:19-34 | a new session is pending, with no events, files, title or unread messages, and so no plan |
| Sessions.LastPlan | backend/app/domain/models/session.py:36-41 | the plan of the last plan event, searching backwards; `LastPlanSpec`, `LastPlanIgnoresTail` and `LastPlanOfAppended` state its properties |
| Sessions.LastPlanSpec | backend/app/domain/models/session.py:36-41 | no plan exactly when no event is a plan event; otherwise the plan of the last plan event |
| Sessions.LastPlanIgnoresTail | backend/app/domain/models/session.py:36-41 | appending events that are not plan events does not change the last plan |
| Sessions.LastPlanOfAppended | backend/app/domain/models/session.py:36-41 | after appending a plan event its plan is the last plan |
| Middleware.TimeoutRoutesExempt | sandbox/app/core/middleware.py:20-24 | a request to a timeout-management route never extends the timeout |
| Middleware.Handle | sandbox/app/core/middleware.py:11-32 | the request is always forwarded unchanged; when the guard holds the timeout is renewed to the default minutes from now, otherwise the state is untouched; auto-expand is never changed |
| Memories.Compacted | backend/app/domain/models/memory.py:41-47 | compaction keeps length and every message except tool results of `browser_view`/`browser_navigate`, whose content becomes the `(removed)` result |
| Memories.CompactIdempotent | backend/app/domain/models/memory.py:41-47 | compacting twice is the same as compacting once |
| Memories.DropLastSlice | backend/app/domain/models/memory.py:37-39 | `messages[:-1]` is empty for an empty list and otherwise puts the last message back to give the original list |
| Memories.Memory.constructor | backend/app/domain/models/memory.py:13 | a new memory holds no messages |
| Memories.Memory.LastMessage | backend/app/domain/models/memory.py:31-35 | absent exactly when the memory is empty, otherwise the last message |
| Memories.Memory.AddMessage | backend/app/domain/models/memory.py:19-21 | appends the message |
| Memories.Memory.AddMessages | backend/app/domain/models/memory.py:23-25 | appends the messages in order |
| Memories.Memory.RollBack | backend/app/domain/models/memory.py:37-39 | drops exactly the last message, and does nothing to an empty memory |
| Memories.Memory.Compact | backend/app/domain/models/memory.py:41-47 | the messages become their compacted form |
| Memories.CompactMessage | backend/app/domain/models/memory.py:41-47 | only the content changes; a compactable message gets the removed-content marker and any other message stays as it was |
| Supervisor.EffectiveMinutes | sandbox/app/services/supervisor.py:165 | an explicit non-zero number of minutes wins; a missing or zero one falls back to the configured default |
| Supervisor.Remaining | sandbox/app/services/supervisor.py:241-242 | the remaining time is never negative and is either zero or the time left until shutdown |
| Supervisor.SupervisorService.constructor | sandbox/app/services/supervisor.py:42-57 | a timeout is active exactly when a default is configured, and then shutdown is that many minutes from now; auto-expand starts enabled |
| Supervisor.SupervisorService.SetTimeout | sandbox/app/services/supervisor.py:157-209 | with no usable minutes the call fails and changes nothing; otherwise the timeout is active, shutdown is the chosen minutes from now and the report carries them |
| Supervisor.SupervisorService.ActivateTimeout | sandbox/app/services/supervisor.py:157-182 | as SetTimeout, with status `timeout_activated` |
| Supervisor.SupervisorService.ExtendTimeout | sandbox/app/services/supervisor.py:184-209 | as SetTimeout, with status `timeout_extended` (the new time counts from now, not from the old shutdown time) |
| Supervisor.SupervisorService.CancelTimeout | sandbox/app/services/supervisor.py:211-233 | with no active timeout nothing changes and `no_timeout_active` is reported; otherwise timer and shutdown time are cleared and auto-expand is re-enabled |
| Supervisor.SupervisorService.TimeoutStatus | sandbox/app/services/supervisor.py:235-249 | inactive reports carry nothing; active ones carry the shutdown time and a non-negative remaining time |
| Supervisor.SupervisorService.DisableAutoExpand | sandbox/app/services/supervisor.py:63-65 | only the auto-expand flag is cleared |
| Supervisor.SupervisorService.TimeoutRoute | sandbox/app/api/v1/supervisor.py:64-94 | without minutes and without a default nothing changes and the request fails; otherwise auto-expand is disabled, the timeout is active, the shutdown time is now plus the minutes, and the report says activated or extended with that time |
| Supervisor.CancelThenStatus | sandbox/app/api/v1/supervisor.py:96-116 | after a cancel the status is inactive and a second cancel finds no active timeout |
| ToolsBase.Decorate | backend/app/domain/services/tools/base.py:5-44 | the decorated method carries the name and description, and its schema reads back as exactly the name, description, parameters and required list given |
| ToolsBase.StrListOfJStrs | backend/app/domain/services/tools/base.py:24-35 | the `required` list stored in a schema reads back unchanged |
| ToolsBase.Schemas | backend/app/domain/services/tools/base.py:64-67 | the schemas listed are exactly those of the decorated methods |
| ToolsBase.FindMethod | backend/app/domain/services/tools/base.py:72-84 | absent exactly when no method implements the name; otherwise the first method that does |
| ToolsBase.Filtered | backend/app/domain/services/tools/base.py:86-105 | the filtered arguments are exactly the given ones whose names the method declares |
| ToolsBase.FilterParameters | backend/app/domain/services/tools/base.py:100-105 | the loop builds exactly the filtered arguments |
| ToolsBase.AttemptDispatch | backend/app/domain/services/tools/base.py:120-126 | an unknown name raises; a known one runs the first implementing method on the arguments it declares |
| ToolsBase.BaseTool.constructor | backend/app/domain/services/tools/base.py:51-53 | a new tool has no schema cache |
| ToolsBase.BaseTool.GetTools | backend/app/domain/services/tools/base.py:55-70 | returns the decorated schemas and caches them; once cached the cached list is returned |
| ToolsBase.BaseTool.InvokeFunction | backend/app/domain/services/tools/base.py:107-126 | fails with the not-found error exactly when no method implements the name; otherwise returns what that method does |
| Mcp.Prefix | backend/app/domain/services/tools/mcp.py:255 | a server's prefix starts with `mcp_`: the name itself when it already does, otherwise `mcp_` and the name |
| Mcp.ExposedNameShape | backend/app/domain/services/tools/mcp.py:227-231 | an exposed tool name is the server's prefix, `_` and the tool name |
| Mcp.ToolSchemaName | backend/app/domain/services/tools/mcp.py:234-241 | a tool's schema carries its exposed name |
| Mcp.ServerSchemas | backend/app/domain/services/tools/mcp.py:226-242 | one schema per tool of a server, in order |
| Mcp.SchemaNames | backend/app/domain/services/tools/mcp.py:340-343 | the names that schemas carry |
| Mcp.SchemaNamesAppend | backend/app/domain/services/tools/mcp.py:225-242 | the names of two schema lists together are the names of each |
| Mcp.ServerSchemaNames | backend/app/domain/services/tools/mcp.py:226-242 | a server's schemas carry exactly the exposed names of its tools |
| Mcp.AllSchemasNames | backend/app/domain/services/tools/mcp.py:221-244 | all schemas carry exactly the exposed names of every cached tool |
| Mcp.AllSchemas | backend/app/domain/services/tools/mcp.py:221-244 | the schemas of every cached tool, server by server; `AllSchemasNames` and `GetAllTools` state it |
| Mcp.MatchServer | backend/app/domain/services/tools/mcp.py:254-259 | the first configured server whose prefix and `_` start the tool name, absent exactly when none does |
| Mcp.ParseToolName | backend/app/domain/services/tools/mcp.py:250-259 | the loop computes the server and the rest of the name |
| Mcp.MatchFirst | backend/app/domain/services/tools/mcp.py:254-259 | the first server whose prefix matches is the one chosen |
| Mcp.ParseExposedName | backend/app/domain/services/tools/mcp.py:254-259 | an exposed name parses back to its server and tool when no earlier server's prefix matches it |
| Mcp.ExposedNamesCollide | backend/app/domain/services/tools/mcp.py:227-259 | server `a` with tool `b_c` and server `a_b` with tool `c` expose the same name, and a call by that name goes to `a` |
| Mcp.ContentText | backend/app/domain/services/tools/mcp.py:276-288 | a result without content is reported with the fixed success text |
| Mcp.ClientManager.constructor | backend/app/domain/services/tools/mcp.py:22-27 | a new manager has no clients, an empty cache and is not initialised |
| Mcp.ClientManager.Outcome | backend/app/domain/services/tools/mcp.py:50-77 | a disabled server is skipped; a connected one is enabled and reachable, and its tools are empty when listing them fails |
| Mcp.ClientManager.CacheEntriesIff | backend/app/domain/services/tools/mcp.py:48-59 | a server and its tools are cached exactly when it is configured and connects with those tools |
| Mcp.ClientManager.CacheEntries | backend/app/domain/services/tools/mcp.py:48-59 | the cache entries of the servers that connect, in order; `CacheEntriesIff` and `ConnectServers` state it |
| Mcp.ClientManager.CacheNames | backend/app/domain/services/tools/mcp.py:112 | the connected servers are exactly those in the cache |
| Mcp.ClientManager.CacheNamesAppend | backend/app/domain/services/tools/mcp.py:209-219 | caching a server adds its name |
| Mcp.ClientManager.ConnectServers | backend/app/domain/services/tools/mcp.py:48-59 | the cache grows by exactly the connected servers' tools, and the clients by their names |
| Mcp.ClientManager.Initialize | backend/app/domain/services/tools/mcp.py:29-45 | a second call changes nothing; without a configuration it fails and nothing is connected; otherwise every enabled reachable server is connected and cached |
| Mcp.ClientManager.GetAllTools | backend/app/domain/services/tools/mcp.py:221-244 | the list of schemas of every cached tool, server by server |
| Mcp.ClientManager.CallTool | backend/app/domain/services/tools/mcp.py:246-300 | a name that does not parse, a server that is not connected and a failed call each give their failure; otherwise success with the joined content text |
| Mcp.ClientManager.Cleanup | backend/app/domain/services/tools/mcp.py:302-312 | a successful close clears clients and cache and resets initialisation; a failed one changes nothing |
| Mcp.McpTool.constructor | backend/app/domain/services/tools/mcp.py:320-323 | a new tool is not initialised and offers nothing |
| Mcp.McpTool.Initialized | backend/app/domain/services/tools/mcp.py:325-331 | the first call builds and initialises a manager and takes its schemas as the tools; later calls change nothing |
| Mcp.McpTool.HasFunction | backend/app/domain/services/tools/mcp.py:337-343 | a function exists exactly when a tool schema carries its name |
| Mcp.McpTool.InvokeFunction | backend/app/domain/services/tools/mcp.py:345-347 | a call before initialisation fails, since the manager attribute does not exist yet; a successful call carries data |
| Mcp.McpTool.Cleanup | backend/app/domain/services/tools/mcp.py:349-352 | before initialisation the call fails for the same reason; otherwise the manager is cleaned up and the tool itself is unchanged |
| Mcp.InitializedOffers | backend/app/domain/services/tools/mcp.py:325-343 | after initialisation a function exists exactly when it is the exposed name of a cached tool |
| Mcp.ExposedName | backend/app/domain/services/tools/mcp.py:227-231 | the name a tool is exposed under, the server's prefix, `_` and the tool's name; `ExposedNameShape` states it |
| Mcp.ToolSchema | backend/app/domain/services/tools/mcp.py:234-241 | the function schema of one tool; `ToolSchemaName` proves that it carries the exposed name |
| Mcp.ParseSpec | backend/app/domain/services/tools/mcp.py:250-259 | absent exactly when no server's prefix followed by `_` starts the name; otherwise a configured server whose exposed name for the rest is the given name |
| JsonParser.Value | backend/app/infrastructure/utils/llm_json_parser.py:66-69 | a decoded JSON `null` counts as no result, any other value as itself |
| JsonParser.WsEnd | backend/app/infrastructure/utils/llm_json_parser.py:89 | `\s*` consumes exactly the run of whitespace that follows |
| JsonParser.FirstClose | backend/app/infrastructure/utils/llm_json_parser.py:89-90 | the lazy `(.*?)\n```` body ends at the first closing fence after its start, absent exactly when there is none |
| JsonParser.NewlineClose | backend/app/infrastructure/utils/llm_json_parser.py:89-90 | the body starts after a newline and the fence that closes it is the first one after that newline |
| JsonParser.MatchFence | backend/app/infrastructure/utils/llm_json_parser.py:89-90 | a fenced block that matches ends after where it started and inside the text |
| JsonParser.FindFences | backend/app/infrastructure/utils/llm_json_parser.py:89-90 | the matches of a fenced pattern found left to right, each from `MatchFence`, which `FirstClose` and `NewlineClose` pin to the first closing fence |
| JsonParser.NextBacktick | backend/app/infrastructure/utils/llm_json_parser.py:91 | the next backtick at or after a position, absent exactly when there is none |
| JsonParser.FindInline | backend/app/infrastructure/utils/llm_json_parser.py:91 | the inline matches of ``([^`]*)`` contain no backtick |
| JsonParser.MarkdownCandidates | backend/app/infrastructure/utils/llm_json_parser.py:88-95 | the candidates of the three patterns, in the order they are tried; `TryMarkdown` is proved against them |
| JsonParser.Decode | backend/app/infrastructure/utils/llm_json_parser.py:98 | a candidate decodes as `json.loads` of its stripped text; `FirstDecodingIndex` and `TryMatches` are stated with it |
| JsonParser.FirstDecodingIndex | backend/app/infrastructure/utils/llm_json_parser.py:96-100 | the first match that decodes, every earlier one having failed |
| JsonParser.FirstDecoding | backend/app/infrastructure/utils/llm_json_parser.py:96-100 | no value exactly when no match decodes |
| JsonParser.FirstOfPatterns | backend/app/infrastructure/utils/llm_json_parser.py:94-102 | the markdown strategy never yields `null` as a result |
| JsonParser.MarkdownSpec | backend/app/infrastructure/utils/llm_json_parser.py:85-102 | the markdown strategy never yields `null` as a result |
| JsonParser.TryMarkdown | backend/app/infrastructure/utils/llm_json_parser.py:85-102 | the markdown strategy's loops compute its specification |
| JsonParser.TryPatterns | backend/app/infrastructure/utils/llm_json_parser.py:94-100 | the loop over patterns returns the first pattern's decoded match |
| JsonParser.TryMatches | backend/app/infrastructure/utils/llm_json_parser.py:96-100 | the loop over matches returns the first one that decodes |
| JsonParser.DropPrefixes | backend/app/infrastructure/utils/llm_json_parser.py:131-133 | removing prefixes never lengthens the text, and text with none of them is unchanged; `DropFirstPrefix` states the removal |
| JsonParser.DropSuffixes | backend/app/infrastructure/utils/llm_json_parser.py:136-138 | removing suffixes never lengthens the text, and text with none of them is unchanged; `DropFirstSuffix` states the removal |
| JsonParser.Cleaned | backend/app/infrastructure/utils/llm_json_parser.py:125-138 | the cleaned text is no longer than the input, and equal to it when it has none of the prefixes or suffixes; `CleanedBoth` states the removal of a prefix and a suffix |
| JsonParser.DropFirstPrefix | backend/app/infrastructure/utils/llm_json_parser.py:131-133 | the prefix loop removes the first listed prefix the text starts with, ignoring case, and strips the rest; when no later prefix starts that rest nothing more is removed |
| JsonParser.DropFirstSuffix | backend/app/infrastructure/utils/llm_json_parser.py:136-138 | the suffix loop removes the first listed suffix the text ends with and strips what is left; when no later suffix ends that nothing more is removed |
| JsonParser.CleanedBoth | backend/app/infrastructure/utils/llm_json_parser.py:125-138 | text with one matching prefix and then one matching suffix is cleaned to the text with both removed, each removal followed by a strip |
| JsonParser.CleanupAsWritten | backend/app/infrastructure/utils/llm_json_parser.py:237 | as written the cleanup strategy always raises, because the look-behind `(?<=[\[,]\s*)` has no fixed width |
| JsonParser.CleanupSpec | backend/app/infrastructure/utils/llm_json_parser.py:122-146 | the intended cleanup strategy never raises and yields the decoded cleaned text |
| JsonParser.CleanupFinding | backend/app/infrastructure/utils/llm_json_parser.py:122-146 | for text whose cleaned form decodes, the strategy as written raises while the intended one returns the value |
| JsonParser.LlmSpec | backend/app/infrastructure/utils/llm_json_parser.py:148-194 | the LLM strategy never yields `null` as a result |
| JsonParser.StrategySpec | backend/app/infrastructure/utils/llm_json_parser.py:81-194 | the four strategies, the cleanup one as written; none yields `null` as a result |
| JsonParser.RunStrategy | backend/app/infrastructure/utils/llm_json_parser.py:64-72 | running one strategy, the cleanup one as written, computes its specification |
| JsonParser.FirstResult | backend/app/infrastructure/utils/llm_json_parser.py:64-72 | the result of the first strategy that gives one, every earlier strategy having raised or given none; none exactly when no strategy gives a result |
| JsonParser.ParseSpec | backend/app/infrastructure/utils/llm_json_parser.py:39-79 | empty input gives the default or the "Empty input string" error; otherwise the strategies run in order on the stripped text, cleanup as written; a failure happens only without a default, and a result other than the default is never `null` |
| JsonParser.Parse | backend/app/infrastructure/utils/llm_json_parser.py:39-79 | the parser, with the cleanup strategy as written, computes its specification |
| JsonParser.DirectWins | backend/app/infrastructure/utils/llm_json_parser.py:61-69 | text that decodes directly to a non-null value yields that value whatever else it contains |
| JsonParser.FallsToLlm | backend/app/infrastructure/utils/llm_json_parser.py:55-79 | text that decodes neither directly nor from a fenced or inline block passes the cleanup step, which always raises as written, to the LLM strategy; without its result comes the default, or else the failure message with the first 1000 characters of the text |
| BaseAgent.InvokeTool | backend/app/domain/services/agents/base.py:67-83 | the loop settles on the result and try count of `Invoked`, pausing once between consecutive tries |
| BaseAgent.Invoked | backend/app/domain/services/agents/base.py:67-83 | at least one and never more than `left + 1` attempts |
| BaseAgent.InvokedRetries | backend/app/domain/services/agents/base.py:67-83 | every attempt before the one settled on raised; a returning attempt gives its result; a raising last attempt is the `left + 1`-th and gives the failure with its error |
| BaseAgent.GetTool | backend/app/domain/services/agents/base.py:60-65 | the first tool that has the function, absent exactly when none has it |
| BaseAgent.FilterReply | backend/app/domain/services/agents/base.py:169-186 | a non-assistant reply is kept as it is; an assistant reply keeps role and content and only its first tool call |
| BaseAgent.WellPairedConcat | backend/app/domain/services/agents/base.py:103-121 | runs of calling/called tool-event pairs stay paired when put together |
| BaseAgent.WellPairedAppend | backend/app/domain/services/agents/base.py:103-121 | adding one calling/called pair keeps the events paired |
| BaseAgent.RolledBack | backend/app/domain/services/agents/base.py:199-217 | memory without a pending tool call is unchanged; a pending `message_ask_user` call is answered with the user's message; any other pending call is dropped |
| BaseAgent.RollBackAnswersOnce | backend/app/domain/services/agents/base.py:199-217 | once the ask-user call is answered, a second roll-back changes nothing |
| BaseAgent.Agent.constructor | backend/app/domain/services/agents/base.py:30-51 | a new agent has the given prompt, tools and memory, and 100 iterations and 3 retries |
| BaseAgent.Agent.AddToMemory | backend/app/domain/services/agents/base.py:141-149 | the messages are appended, after the system prompt when memory was empty |
| BaseAgent.Agent.AskWithMessages | backend/app/domain/services/agents/base.py:156-190 | the model is asked at most `max_retries` times; every empty assistant reply before the last is retried; failure means all were empty and is "Empty response from LLM after 3 retries" with the configured count; success returns the filtered last reply, which ends the memory |
| BaseAgent.Agent.StepShape | backend/app/domain/services/agents/base.py:92-129 | a call whose arguments do not parse or whose tool is unknown is an error that adds nothing; otherwise one calling and one called event for that function and id, the tool reply answering the CALLED event, and a stop exactly at an ask-user call when the caller stops there; attempts never go back |
| BaseAgent.Agent.CallTool | backend/app/domain/services/agents/base.py:92-129 | the loop body for one call computes `Step` and advances the attempt count by its tries |
| BaseAgent.Agent.RoundsShape | backend/app/domain/services/agents/base.py:88-131 | the events of a round come in calling/called pairs, each tool reply is the dump of its CALLED event's result, attempts never go back, and a round stops only right after an ask-user call, on its CALLED event |
| BaseAgent.ShapedBehind | backend/app/domain/services/agents/base.py:103-121 | answered calling/called pairs put before a round keep it in that shape |
| BaseAgent.Agent.RoundsSkipNoFunction | backend/app/domain/services/agents/base.py:92-94 | calls without a function are skipped: the round is that of the calls that have one |
| BaseAgent.Agent.RoundsCoverCalls | backend/app/domain/services/agents/base.py:92-121 | a round that neither failed nor stopped has one pair per call with a function, the `k`-th pair naming the `k`-th such call's function and, when it has one, its id |
| BaseAgent.Agent.CallTools | backend/app/domain/services/agents/base.py:88-131 | the events, tool replies, stop flag, error and tool-attempt count are those of the reference round `Rounds`, which handles the calls in order, skips those without a function and ends at the first failure or stop |
| BaseAgent.Agent.Execute | backend/app/domain/services/agents/base.py:85-135 | at most 100 rounds; the events are paired tool events ending in the final message, with the iteration-limit error before it exactly when the limit was reached; the final message is the assistant's text of the last reply, which ends the memory and, below the limit, asks for no tools; when the caller stops at an ask-user call the memory ends with that pending call |
| BaseAgent.Agent.RollBack | backend/app/domain/services/agents/base.py:199-218 | the memory becomes its rolled-back form |
| BaseAgent.ToolResponse | backend/app/domain/services/agents/base.py:122-128 | the tool message answering a call, carrying the dumped result; `Answered` and `RoundsShape` are stated with it |
| BaseAgent.Agent.Step | backend/app/domain/services/agents/base.py:92-129 | the reference for one tool call: parse, look up, invoke, and the CALLED event with the reply; `StepShape` proves its shape |
| BaseAgent.Agent.Rounds | backend/app/domain/services/agents/base.py:88-131 | the reference round: calls without a function skipped, the others handled by `Step` in order until one fails or stops; `RoundsShape`, `RoundsSkipNoFunction` and `RoundsCoverCalls` state its properties |
| BaseAgent.Agent.ToolRound | backend/app/domain/services/agents/base.py:88-131 | runs the tool calls one at a time and returns exactly what `Rounds` gives for them, the tool attempts counted on |
| Execution.RunInnerCons | backend/app/domain/services/agents/execution.py:71-95 | handling the inner events is handling the first one and, unless it stops the step, going on with the rest from the step it left |
| Execution.ExecuteStep | backend/app/domain/services/agents/execution.py:62-96 | the events and final step follow the step-execution rules event by event, and the first event is the step marked running with status started |
| Execution.FilterPassed | backend/app/domain/services/agents/execution.py:95 | only the events passed through unchanged are kept |
| Execution.FilterPassedAppend | backend/app/domain/services/agents/execution.py:71-95 | the passed-through events of two runs put together are those of each run in order |
| Execution.HandlePassesThrough | backend/app/domain/services/agents/execution.py:72-95 | an event that is not a finished ask-user call and whose reply parses leaves the step running on, and any event of the kinds passed through is passed through unchanged |
| Execution.RunInnerPassesThrough | backend/app/domain/services/agents/execution.py:71-96 | with no finished ask-user call and only well-formed replies the step never stops early, ends completed when the agent finishes, and every passed-through event is shown in order |
| Execution.ErrorMarksFailed | backend/app/domain/services/agents/execution.py:72-75 | an error event marks the step failed with that error and is passed on after the failed step event |
| Execution.WaitIsLast | backend/app/domain/services/agents/execution.py:88-93 | a step that stops to wait for the user ends with the wait event |
| Execution.Summarize | backend/app/domain/services/agents/execution.py:98-107 | every non-message event is passed on as it is; every reply becomes an assistant message with its parsed text and one file per attachment; a reply that does not parse raises |
| Execution.AskUserText | backend/app/domain/services/agents/execution.py:88-90 | the text of an ask-user call: its `text` argument when that is a string, an error otherwise; `HandlePassesThrough` rests on it |
| Execution.IsAskUser | backend/app/domain/services/agents/execution.py:88 | an event is an ask-user call when it is a tool event for `message_ask_user`; `HandlePassesThrough` and `RunInnerPassesThrough` are stated with it |
| Execution.Handle | backend/app/domain/services/agents/execution.py:72-95 | a wait stop yields only the wait event, a raised reply yields nothing, and an event that is neither a reply nor an error leaves the step as it was |
| Execution.RunInner | backend/app/domain/services/agents/execution.py:71-96 | when the inner run continues to its end and finished, the step is completed |
| Execution.ExecuteStepSpec | backend/app/domain/services/agents/execution.py:62-96 | the first event is the step's STARTED event with the step running; a run that continues to its end marks the step completed |
| Planner.CreatePlan | backend/app/domain/services/agents/planner.py:59-71 | every non-message event is passed on as it is; every reply becomes a plan-created event carrying its parsed plan; an error is raised only by a reply that does not parse |
| Planner.MergedSteps | backend/app/domain/services/agents/planner.py:82-96 | when every step is done the steps are unchanged; otherwise the steps before the first pending one are kept and the new steps follow; everything before the new steps is done |
| Planner.UpdateSteps | backend/app/domain/services/agents/planner.py:82-96 | the loop that finds the first pending step and splices in the new steps computes the merged steps |
| Planner.FirstPendingUnique | backend/app/domain/services/agents/planner.py:84-87 | the first pending index is the pending step whose predecessors are all done |
| Planner.MergeKeepsDonePrefix | backend/app/domain/services/agents/planner.py:89-96 | a prefix of done steps survives the merge |
| Planner.MergeStable | backend/app/domain/services/agents/planner.py:89-96 | merging the same new steps twice, when the first of them is pending, gives the same steps as merging once |
| Planner.UpdateOnlySteps | backend/app/domain/services/agents/planner.py:73-98 | updating a plan changes nothing but its steps |
| Planner.UpdateEventsInPlace | backend/app/domain/services/agents/planner.py:75-99 | when no reply fails to parse, every non-message event is passed on as it is and every reply becomes a plan-updated event |
| Planner.UpdateWithoutReplies | backend/app/domain/services/agents/planner.py:75-99 | with no reply from the agent the plan stays as it was and nothing is raised |
| Planner.UpdateKeepsDonePrefix | backend/app/domain/services/agents/planner.py:82-96 | over any number of replies the done steps at the head of the plan are kept |
| Planner.UpdatePlan | backend/app/domain/services/agents/planner.py:73-99 | when the plan parses, every event of the inner run is kept (the same number of events comes out); `UpdateOnlySteps`, `UpdateEventsInPlace` and `UpdateWithoutReplies` state the new plan and the events |
| PlanAct.StartStatus | backend/app/domain/services/flows/plan_act.py:108-114 | a running session restarts at planning, a waiting one at executing, and otherwise the status is kept |
| PlanAct.DonePrefix | backend/app/domain/models/plan.py:38-42 | the count of done steps at the head of the plan: all before it are done and the step at it is not |
| PlanAct.AnnounceUnchanged | backend/app/domain/services/flows/plan_act.py:128-134 | events that are not plan-created events are passed on unchanged and leave the plan as it was |
| PlanAct.AnnounceLast | backend/app/domain/services/flows/plan_act.py:128-134 | when the last event is a created plan, it becomes the flow's plan and is shown after its title and its message |
| PlanAct.Announce | backend/app/domain/services/flows/plan_act.py:128-134 | each created plan becomes the flow's plan and is shown after its title and message, other events pass unchanged; `AnnounceUnchanged` and `AnnounceLast` state it |
| PlanAct.Flow.constructor | backend/app/domain/services/flows/plan_act.py:46-94 | a new flow is idle with no plan and holds its planner and executor agents |
| PlanAct.Flow.Resume | backend/app/domain/services/flows/plan_act.py:99-117 | a non-pending session rolls back both agents' memories for the message; the status restarts as the session says; the plan is the session's last plan |
| PlanAct.Transition | backend/app/domain/services/flows/plan_act.py:121-176 | the moves the state machine may make: idle to planning, planning to executing or completed, executing to summarizing or updating, updating to executing, summarizing to completed, completed to idle; `Flow.Tick` and `Flow.Run` are stated with it |
| PlanAct.Flow.CreatePlan | backend/app/domain/services/flows/plan_act.py:125-139 | after planning the flow executes a plan, or completes a plan with no steps; only an error stops it in planning |
| PlanAct.Flow.ExecuteNext | backend/app/domain/services/flows/plan_act.py:141-156 | the plan is marked running; with every step done the flow moves to summarizing; otherwise the first pending step is executed in place, its started event comes first, nothing else in the plan changes and the executor's memory is compacted before updating |
| PlanAct.Flow.UpdatePlan | backend/app/domain/services/flows/plan_act.py:157-163 | the planner rewrites only the plan's steps and keeps its done prefix; on success the flow goes back to executing |
| PlanAct.Flow.Summarize | backend/app/domain/services/flows/plan_act.py:164-170 | summarizing leaves the plan alone and completes the flow unless a reply fails to parse |
| PlanAct.Flow.Complete | backend/app/domain/services/flows/plan_act.py:171-176 | the plan is marked completed and shown as a plan-completed event, and the flow is idle again |
| PlanAct.Flow.Tick | backend/app/domain/services/flows/plan_act.py:121-176 | one pass of the state machine makes one allowed status transition, and only the completed status exits the loop |
| PlanAct.Flow.Run | backend/app/domain/services/flows/plan_act.py:96-179 | the statuses visited form a chain of allowed transitions from the restart status; a finished run ends idle with a completed plan, its last events being the plan-completed event and the done event; a run that did planning or executing finishes with every step done |
| PlanAct.Flow.IsDone | backend/app/domain/services/flows/plan_act.py:181-182 | a flow is done exactly when it is idle; `Flow.Run` ends in that state |
| AuthSchemas.ValidatePassword | backend/app/interfaces/schemas/auth.py:19-24 | accepted exactly when the password has six characters or more, returned unchanged, otherwise the given message |
| AuthSchemas.RequireNonEmpty | backend/app/interfaces/schemas/auth.py:60-65 | accepted exactly when the value is not empty, returned unchanged, otherwise the given message |
| AuthSchemas.ValidateCode | backend/app/interfaces/schemas/auth.py:125-131 | accepted exactly when the code is six digits; an empty code gets the "required" message and any other bad code the "6 digits" one |
| AuthSchemas.ParseLogin | backend/app/interfaces/schemas/auth.py:7-24 | a login request is built exactly when the address has `@` and the password six characters, with the normalised address |
| AuthSchemas.ParseRegister | backend/app/interfaces/schemas/auth.py:27-52 | a registration request is built exactly when name, address and password all pass, with the stripped name and normalised address |
| AuthSchemas.ParseChangePassword | backend/app/interfaces/schemas/auth.py:55-72 | built exactly when the old password is present and the new one has six characters |
| AuthSchemas.ParseChangeFullname | backend/app/interfaces/schemas/auth.py:75-84 | built exactly when the stripped name has two characters, holding the stripped name |
| AuthSchemas.ParseRefreshToken | backend/app/interfaces/schemas/auth.py:87-96 | built exactly when the token is not empty |
| AuthSchemas.ParseSendCode | backend/app/interfaces/schemas/auth.py:99-108 | built exactly when the address has `@`, holding the normalised address |
| AuthSchemas.ParseResetPassword | backend/app/interfaces/schemas/auth.py:111-138 | built exactly when the address has `@`, the code is six digits and the new password six characters |
| AuthSchemas.RegisterRequestNormal | backend/app/interfaces/schemas/auth.py:27-52 | a parsed registration request already holds a normal name and address and a long enough password |
| AuthService.ProviderOf | backend/app/core/config.py:45 | the provider names `none`, `local` and `password` are recognised and any other name is kept as unsupported |
| AuthService.Salt | backend/app/application/services/auth_service.py:26 | the configured salt, or the empty string when none is set |
| AuthService.Rounds | backend/app/application/services/auth_service.py:36 | the configured number of rounds, or 10 when it is unset or zero; never zero |
| AuthService.HashPassword | backend/app/application/services/auth_service.py:24-42 | the stored hash is the salt followed by the key derived from the password, salt and rounds |
| AuthService.VerifyPassword | backend/app/application/services/auth_service.py:44-57 | an empty stored hash never verifies, and a hash that verifies starts with the salt |
| AuthService.HashThenVerify | backend/app/application/services/auth_service.py:24-57 | a password verifies against its own hash, and another password verifies exactly when it derives the same key |
| AuthService.IndexByEmail | backend/app/infrastructure/repositories/user_repository.py:51-60 | the first stored user with that address, absent exactly when there is none |
| AuthService.IndexById | backend/app/infrastructure/repositories/user_repository.py:62-69 | the first stored user with that id, absent exactly when there is none |
| AuthService.UpdateUser | backend/app/infrastructure/repositories/user_repository.py:62-80 | fails exactly when no stored user has the id; otherwise that user's record is replaced |
| AuthService.CreateUser | backend/app/infrastructure/repositories/user_repository.py:14-27 | inserting a user fails with the duplicate-key error exactly when a stored user has the same address, as the unique e-mail index demands; otherwise the user is appended |
| AuthService.CreateUserKeepsUnique | backend/app/infrastructure/models/documents.py:63 | a successful insertion keeps the stored addresses pairwise distinct |
| AuthService.StoredEmailNormal | backend/app/application/services/auth_service.py:91 | the lower-cased address that registration stores is already in the user model's normal form |
| AuthService.RegisterChecks | backend/app/application/services/auth_service.py:67-82 | registration is refused unless the provider is `password`, then checks name, address, password and an existing address in that order, each with its own message, and passes exactly when all pass |
| AuthService.Registered | backend/app/application/services/auth_service.py:84-97 | a registered user holds the stripped name, the lower-cased address, the hashed password, the given role, is active, has both timestamps now and no last login |
| AuthService.PaddedUnknown | backend/app/infrastructure/repositories/user_repository.py:114-121 | the lookup for a space-padded address misses a stored lower-cased one |
| AuthService.ChecksPass | backend/app/application/services/auth_service.py:67-82 | the checks pass for valid fields and an address nobody has |
| AuthService.RegisterAsWritten | backend/app/application/services/auth_service.py:63-103 | as written: the checks probe the address as given, the user is stored with the stripped lower-cased address, and the insertion can still fail on the unique index; success appends exactly the new user and keeps addresses unique; every failure is a check's message or the duplicate-key error |
| AuthService.DuplicateEmailFinding | backend/app/application/services/auth_service.py:81-91 | as written, registering ` a@b` next to a stored `a@b` passes the existence check and fails on the unique e-mail index with the database's duplicate-key error; the corrected registration refuses it with "Email already exists" |
| AuthService.Register | backend/app/application/services/auth_service.py:63-103 | the corrected registration, whose existence check probes the address as it will be stored rather than as given (line 81): it succeeds exactly when every check passes on that address, and then yields the registered user; a failure carries the failing check's message |
| AuthService.NormalisedRegisterAgrees | backend/app/application/services/auth_service.py:63-103 | for an address already in normal form, as the registration route passes it, registration as written and the corrected one agree, the store growing by the registered user |
| AuthService.RegisterKeepsEmailsUnique | backend/app/application/services/auth_service.py:63-103 | storing a newly registered user keeps the stored addresses pairwise distinct |
| AuthService.RegisteredValid | backend/app/application/services/auth_service.py:88-97 | a newly registered user is in the user model's normal form |
| AuthService.AnonymousUserDefaults | backend/app/application/services/auth_service.py:110-118 | the anonymous user is what the user model builds from those fields and its defaults |
| AuthService.LocalAdmin | backend/app/application/services/auth_service.py:120-130 | the local administrator is built exactly when the configured address has `@`, as an active admin without password |
| AuthService.PasswordLogin | backend/app/application/services/auth_service.py:135-160 | password login yields the reference outcome: none for an unknown, inactive or passwordless user or a wrong password, otherwise the user with last login and updated time now, written back |
| AuthService.LocalLogin | backend/app/application/services/auth_service.py:120-133 | with the configured credentials the local administrator is returned (an error when its address has no `@`), with any others none; users are never changed |
| AuthService.Authenticate | backend/app/application/services/auth_service.py:105-163 | dispatches on the provider: the anonymous user for `none`, local login, password login, and the unsupported-provider error otherwise |
| AuthService.LoginTouchesOnlyUser | backend/app/application/services/auth_service.py:156-157 | an accepted password login changes only the logged-in user's record |
| AuthService.FreshUserAccepted | backend/app/application/services/auth_service.py:135-160 | a newly stored active user with a hashed password is accepted with that password |
| AuthService.AcceptedLogsIn | backend/app/application/services/auth_service.py:135-160 | accepted credentials always log in |
| AuthService.RegisterThenLogin | backend/app/application/services/auth_service.py:63-160 | a user can log in with the password just registered |
| AuthService.RefreshAccessToken | backend/app/application/services/auth_service.py:183-206 | a new access token is issued only for a valid refresh token whose subject is a stored active user; an invalid token and a non-refresh token are refused |
| AuthService.RefreshRoundTrip | backend/app/application/services/auth_service.py:183-206 | an unexpired refresh token of a stored user yields a fresh access token for that user when active, and the inactive-user error otherwise |
| AuthService.AccessTokenNotRefresh | backend/app/application/services/auth_service.py:190-191 | an access token cannot be used to refresh |
| AuthService.Logout | backend/app/application/services/auth_service.py:231-235 | logout is refused only with provider `none`, and otherwise succeeds |
| AuthService.ChangePassword | backend/app/application/services/auth_service.py:237-267 | an unknown user is an error; the change succeeds exactly when the user is active, the old password verifies and the new one has six characters, and then only that user's hash and updated time change |
| AuthService.ChangedPasswordVerifies | backend/app/application/services/auth_service.py:237-267 | after a change the new password verifies, and the old one only when it derives the same key |
| AuthService.AuthServiceState.constructor | backend/app/application/services/auth_service.py:19-22 | the service starts with the given settings, key derivation and stored users |
| AuthService.AuthServiceState.RegisterUser | backend/app/application/services/auth_service.py:63-103 | the answer and the store are those of registration as written: unchanged on any failure, including the duplicate-key error, otherwise grown by exactly the registered user; addresses stay unique |
| AuthService.AuthServiceState.AuthenticateUser | backend/app/application/services/auth_service.py:105-163 | the store becomes the login outcome's users, unchanged on error |
| AuthService.AuthServiceState.ChangeUserPassword | backend/app/application/services/auth_service.py:237-267 | the store becomes the changed users on success and is unchanged on error |
| AuthService.GetUserByEmail | backend/app/infrastructure/repositories/user_repository.py:51-60 | finds a stored user whose address is the lower-cased query; absent exactly when no stored address is |
| AuthService.EmailExists | backend/app/infrastructure/repositories/user_repository.py:114-121 | whether a stored user has the lower-cased address; `Register`, `CreateUser` and `PaddedUnknown` are stated with it |
| AuthService.StoredEmail | backend/app/application/services/auth_service.py:91 | the address as the user model stores it, stripped and lower-cased; `StoredEmailNormal`, `StoredEmailLower` and `StoredHasAt` state its properties |
| AuthService.AnonymousUser | backend/app/application/services/auth_service.py:110-118 | the default user for the `none` provider; `AnonymousUserDefaults` proves that it passes the model's validation |
| AuthService.PasswordAccepted | backend/app/application/services/auth_service.py:135-160 | a user with the address exists, is active, has a stored hash, and the password verifies against it; `LoginOutcome` is stated with it |
| AuthService.LoginOutcome | backend/app/application/services/auth_service.py:135-160 | no user and no change exactly when the password is not accepted; otherwise the user with the lower-cased address, its last login and update time set to now, stored in place |
| TokenService.QueryGet | backend/app/application/services/token_service.py:203 | the values stored under a name, absent exactly when no entry has that name |
| TokenService.QuerySet | backend/app/application/services/token_service.py:206-207 | setting a name gives it the new values, leaves every other name alone, and appends a new name at the end |
| TokenService.WithoutSignature | backend/app/application/services/token_service.py:253-254 | the rebuilt query has neither `signature` nor `expires` and keeps every other name |
| TokenService.Urlencode | backend/app/application/services/token_service.py:210 | an empty query encodes as the empty string |
| TokenService.Unparse | backend/app/application/services/token_service.py:211-218 | the rebuilt URL starts with the path, is the bare path when nothing else is set, and is path `?` query when only a query is set |
| TokenService.CreateSignedUrl | backend/app/application/services/token_service.py:174-221 | the signed URL keeps the path and carries the HMAC of `url\|expires` as `signature` and the expiry time as `expires` |
| TokenService.FirstValue | backend/app/application/services/token_service.py:239-240 | the first value of a query name, absent when the name is missing or has no values |
| TokenService.VerifyParsed | backend/app/application/services/token_service.py:223-285 | a missing or empty signature or expiry is refused; a URL is accepted exactly when the expiry parses, has not passed and the signature is the HMAC of the rebuilt URL and expiry |
| TokenService.SignedQueryOfBarePath | backend/app/application/services/token_service.py:202-207 | for a URL without query the signed query is exactly the signature followed by the expiry |
| TokenService.SignedQueryFields | backend/app/application/services/token_service.py:238-254 | the signed query reads back its signature and expiry, and without them it is empty |
| TokenService.SignedUrlRoundTrip | backend/app/application/services/token_service.py:174-285 | a URL signed for a bare path verifies exactly until its expiry time |
| TokenService.BareUrlVerifies | backend/app/application/services/token_service.py:223-285 | a URL whose query is exactly the signed query of its path verifies exactly until the expiry |
| TokenService.SchemeAndHostUnsigned | backend/app/application/services/token_service.py:211-218 | scheme and host play no part in verification |
| TokenService.BadExpiresRejected | backend/app/application/services/token_service.py:247-250 | an expiry that does not parse or has passed is refused |
| TokenService.AccessClaims | backend/app/application/services/token_service.py:21-35 | an access token is of type `access`, expires after the configured minutes and records the issue time |
| TokenService.RefreshClaims | backend/app/application/services/token_service.py:49-60 | a refresh token is of type `refresh`, carries no address, role or active flag, and expires after the configured days |
| TokenService.ResourceClaims | backend/app/application/services/token_service.py:134-153 | a resource token is of type `resource_access`, has no subject, expires after the given minutes and names the resource type |
| TokenService.ExpiredBy | backend/app/application/services/token_service.py:84-85 | a falsy expiry never expires a token; an integer one expires it once passed; a non-empty string cannot be compared and the check fails |
| TokenService.VerifyToken | backend/app/application/services/token_service.py:74-100 | a token that does not decode is refused; a decoded one is returned unchanged exactly when it has not expired |
| TokenService.UserInfo | backend/app/application/services/token_service.py:110-117 | the user information copies the claims, with active defaulting to true and the type to `access` |
| TokenService.GetUserFromToken | backend/app/application/services/token_service.py:102-117 | user information exists exactly when the token verifies to a non-empty payload |
| TokenService.GetTokenExpiration | backend/app/application/services/token_service.py:123-132 | an expiration is reported only for a verified token and is its expiry claim |
| TokenService.RevokeToken | backend/app/application/services/token_service.py:167-172 | revoking always reports success |
| TokenService.AccessTokenUser | backend/app/application/services/token_service.py:21-117 | an unexpired access token gives back the user's id, name, address, role and active flag with type `access` |
| TokenService.RefreshTokenUser | backend/app/application/services/token_service.py:49-117 | an unexpired refresh token gives back the user's id and name, no address or role, active by default, with type `refresh` |
| TokenService.ExpiredTokenRefused | backend/app/application/services/token_service.py:84-87 | a token whose integer expiry has passed is refused everywhere |
| TokenService.VerifySignedUrl | backend/app/application/services/token_service.py:223-285 | accepts a URL whose signature matches and whose expiry has not passed; `SignedUrlRoundTrip`, `BareUrlVerifies` and `BadExpiresRejected` state it |
| TokenService.CreateAccessToken | backend/app/application/services/token_service.py:21-44 | encodes the access claims of a user; `AccessTokenUser` proves that the token gives that user back |
| TokenService.CreateRefreshToken | backend/app/application/services/token_service.py:49-69 | encodes the refresh claims of a user; `RefreshTokenUser` proves that the token gives that user back |
| TokenService.IsTokenValid | backend/app/application/services/token_service.py:119-121 | a token is valid when it verifies; `ExpiredTokenRefused` proves that an expired one does not |
| EmailVerification.Get | backend/app/application/services/email_service.py:51 | a cache read finds an entry exactly when it is stored and its time to live has not run out |
| EmailVerification.GenerateCode | backend/app/application/services/email_service.py:27-29 | a code drawn from 100000..999999 is six digits with no leading zero, reads back as the number drawn and passes the reset-request code validator |
| EmailVerification.FreshEntry | backend/app/application/services/email_service.py:33-40 | a stored code records the code, its creation time, an expiry five minutes later and no attempts |
| EmailVerification.VerifyOutcome | backend/app/application/services/email_service.py:46-80 | a missing entry fails and changes nothing; only the matching code succeeds and deletes the entry; a wrong guess within the expiry counts one more attempt and keeps the remaining time to live |
| EmailVerification.ExpiredOrExhaustedDeleted | backend/app/application/services/email_service.py:56-64 | an expired entry, or one with three attempts used, fails and is deleted whatever the code |
| EmailVerification.FreshCodeAccepted | backend/app/application/services/email_service.py:46-73 | a freshly stored code is accepted within its five minutes |
| EmailVerification.ThreeStrikes | backend/app/application/services/email_service.py:61-80 | after three wrong guesses even the right code fails |
| EmailVerification.ResendCheck | backend/app/application/services/email_service.py:109-133 | sending requires a complete mail configuration, and is refused exactly when a stored code is less than sixty seconds old; an unreadable entry does not block |
| EmailVerification.EmailService.constructor | backend/app/application/services/email_service.py:23-25 | the service starts on the given cache |
| EmailVerification.EmailService.StoreCode | backend/app/application/services/email_service.py:31-44 | the fresh entry for the code is stored under the prefixed key with a five-minute time to live, replacing any earlier one |
| EmailVerification.EmailService.VerifyCode | backend/app/application/services/email_service.py:46-80 | the answer and the cache change are those of the verification outcome: kept, deleted or rewritten with one more attempt |
| EmailVerification.EmailService.SendVerificationCode | backend/app/application/services/email_service.py:107-149 | a refused check or a failed send leaves the cache unchanged; otherwise the drawn code is stored. The source returns None; the `Ok` value carrying the drawn code is the model's own, so that lemmas can speak about that code |
| EmailVerification.EmailService.CleanupExpiredCodes | backend/app/application/services/email_service.py:171-191 | exactly the listed keys whose entries are expired or unreadable are removed, and every other entry is kept unchanged |
| EmailVerification.AfterWrongGuess | backend/app/application/services/email_service.py:61-80 | when the entry survives a wrong guess, it is the entry with one more attempt counted |
| DockerSandbox.HttpUrl | backend/app/infrastructure/external/sandbox/docker_sandbox.py:24-26 | an HTTP address is `http://`, the IP as Python prints it, `:` and the port |
| DockerSandbox.BaseUrl | backend/app/infrastructure/external/sandbox/docker_sandbox.py:24 | the API address is `http://`, the IP and `:8080` |
| DockerSandbox.CdpUrl | backend/app/infrastructure/external/sandbox/docker_sandbox.py:26 | the browser debugging address is `http://`, the IP and `:9222` |
| DockerSandbox.VncUrl | backend/app/infrastructure/external/sandbox/docker_sandbox.py:25 | the VNC address is `ws://`, the IP and `:5901` |
| DockerSandbox.SandboxId | backend/app/infrastructure/external/sandbox/docker_sandbox.py:29-34 | the id is the container name, or `dev-sandbox` when there is none or it is empty |
| DockerSandbox.ContainerName | backend/app/infrastructure/external/sandbox/docker_sandbox.py:86 | a container name is the prefix, `-` and the first eight characters of the UUID |
| DockerSandbox.FirstAddressed | backend/app/infrastructure/external/sandbox/docker_sandbox.py:61-65 | the first network that has a non-empty address, every earlier one having none |
| DockerSandbox.ContainerIpSpec | backend/app/infrastructure/external/sandbox/docker_sandbox.py:46-68 | the default network's address when it has one, else the first network's non-empty address, else empty |
| DockerSandbox.ContainerIp | backend/app/infrastructure/external/sandbox/docker_sandbox.py:46-68 | the loop over networks computes that address |
| DockerSandbox.NonRunning | backend/app/infrastructure/external/sandbox/docker_sandbox.py:153-161 | no service is listed exactly when all are running, and never more than there are services |
| DockerSandbox.NonRunningSnoc | backend/app/infrastructure/external/sandbox/docker_sandbox.py:156-161 | each further service adds its description exactly when it is not running |
| DockerSandbox.CheckServices | backend/app/infrastructure/external/sandbox/docker_sandbox.py:153-161 | the loop reports all running exactly when every service is, and lists exactly the others in order |
| DockerSandbox.FirstReady | backend/app/infrastructure/external/sandbox/docker_sandbox.py:132-165 | the first poll at which the sandbox is ready, every earlier one having failed, up to 30 polls |
| DockerSandbox.EnsureSandbox | backend/app/infrastructure/external/sandbox/docker_sandbox.py:127-178 | polling stops at the first ready reply, or after 30 attempts, sleeping 2 seconds after each failed one; giving up does not raise |
| DockerSandbox.Resolve | backend/app/infrastructure/external/sandbox/docker_sandbox.py:433-465 | an IPv4 literal is returned as it is; a name resolves to the first address found, and to none when there is none |
| DockerSandbox.ResolveLiteralFixed | backend/app/infrastructure/external/sandbox/docker_sandbox.py:433-465 | resolving an address that is already an IPv4 literal gives it back |
| DockerSandbox.DestroyAsWritten | backend/app/infrastructure/external/sandbox/docker_sandbox.py:472 | as written destroy always reports failure, because it reads `self.container_name`, which the class never sets |
| DockerSandbox.DestroyResult | backend/app/infrastructure/external/sandbox/docker_sandbox.py:467-478 | the intended destroy succeeds without a container, and with one exactly when removing it succeeds |
| DockerSandbox.DestroyFinding | backend/app/infrastructure/external/sandbox/docker_sandbox.py:467-478 | a sandbox without a container is reported as not destroyed, though nothing can fail |
| DockerSandbox.Sandbox.constructor | backend/app/infrastructure/external/sandbox/docker_sandbox.py:19-26 | a sandbox keeps its IP and container name and derives its three addresses from the IP |
| DockerSandbox.Sandbox.Id | backend/app/infrastructure/external/sandbox/docker_sandbox.py:29-34 | the id is that of the container name |
| DockerSandbox.Sandbox.Destroy | backend/app/infrastructure/external/sandbox/docker_sandbox.py:467-478 | the client is closed and, as written, failure is reported for every sandbox, since the read of `container_name` raises before any removal (`DestroyAsWritten`); `DestroyResult` is the intended result |
| DockerSandbox.Provider.constructor | backend/app/infrastructure/external/sandbox/docker_sandbox.py:528-566 | the provider starts with an empty cache of sandboxes |
| DockerSandbox.Provider.Create | backend/app/infrastructure/external/sandbox/docker_sandbox.py:528-542 | with a configured address the sandbox uses the resolved address and has no container; otherwise a container is run under a fresh name and the sandbox uses its address, and a failed run gives the creation error |
| DockerSandbox.Provider.Get | backend/app/infrastructure/external/sandbox/docker_sandbox.py:545-566 | a cached id returns the cached sandbox; otherwise the sandbox for that container is built and cached, and an unknown container is an error |
| DockerSandbox.GetTwice | backend/app/infrastructure/external/sandbox/docker_sandbox.py:545-546 | a second successful get returns the same sandbox |
| DockerSandbox.Describe | backend/app/infrastructure/external/sandbox/docker_sandbox.py:156-161 | the text naming a service that is not running; `NonRunningSnoc` and `NonRunningStep` are stated with it |
| Shell.RunEnd | sandbox/app/services/shell.py:32 | a run of bytes of one class ends inside the text, at or after its start |
| Shell.EscapeAt | sandbox/app/services/shell.py:32 | an escape sequence starts with ESC, is at least two characters long and lies inside the text |
| Shell.EscapeAtMatches | sandbox/app/services/shell.py:32 | an escape sequence is found exactly when ESC is followed by a single final byte, or by `[`, parameter bytes, intermediate bytes and a final byte |
| Shell.RemoveAnsiFrom | sandbox/app/services/shell.py:29-33 | removing escape codes never lengthens the rest of the text |
| Shell.RemoveAnsi | sandbox/app/services/shell.py:29-33 | removing escape codes never lengthens the text |
| Shell.RemoveAnsiFromPlain | sandbox/app/services/shell.py:29-33 | the rest of a text without ESC is left alone |
| Shell.RemoveAnsiPlain | sandbox/app/services/shell.py:29-33 | a text without ESC is left alone |
| Shell.RemoveAnsiAgree | sandbox/app/services/shell.py:29-33 | the cleaning of the rest of a text depends on that rest alone |
| Shell.RemoveAnsiFromShift | sandbox/app/services/shell.py:29-33 | a prefix in front of a position does not change how the rest is cleaned |
| Shell.ColourRemoved | sandbox/app/services/shell.py:29-33 | a leading colour code `ESC[31m` is removed and nothing else changes |
| Shell.DisplayPath | sandbox/app/services/shell.py:35-41 | a path under the home directory is shown with `~` in place of the home prefix, any other path as it is |
| Shell.FormatPs1 | sandbox/app/services/shell.py:43-48 | the prompt is `user@host:`, the display path and ` $` |
| Shell.Appended | sandbox/app/services/shell.py:63-88 | reader output is added to the shell's output and to its last console record only |
| Shell.Started | sandbox/app/services/shell.py:104-144 | a new command adds its empty console record after the old ones, or starts a console with it |
| Shell.CleanConsole | sandbox/app/services/shell.py:216-236 | console records keep prompt and command and lose their escape codes |
| Shell.ShellService.constructor | sandbox/app/services/shell.py:21-26 | a new service has no shells |
| Shell.ShellService.ExecCommand | sandbox/app/services/shell.py:90-187 | a missing directory is refused and nothing changes; otherwise the shell is replaced by the new process with its console record and early output, and the result is `completed` with the cleaned output or `running` |
| Shell.ShellService.ReaderAppend | sandbox/app/services/shell.py:63-88 | a chunk read from a known shell is appended to it; other shells are untouched |
| Shell.ShellService.ViewShell | sandbox/app/services/shell.py:189-214 | an unknown session is an error; otherwise the cleaned output and, when asked, the cleaned console |
| Shell.ShellService.GetConsoleRecords | sandbox/app/services/shell.py:216-236 | an unknown session is an error; otherwise the cleaned console |
| Shell.ShellService.WaitForProcess | sandbox/app/services/shell.py:238-265 | an unknown session is an error; a finished process reports its code; a process still running after the timeout (60 seconds by default) gives the wait-timeout error; otherwise it records its exit code |
| Shell.ShellService.WriteToProcess | sandbox/app/services/shell.py:267-308 | an unknown session is an error, an ended process gives the write error, and otherwise the input (with a newline on enter) is echoed into the output |
| Shell.ShellService.KillProcess | sandbox/app/services/shell.py:310-349 | an unknown session is an error; a running process is terminated with its code, and an ended one is reported as already terminated |
| Shell.ShellService.ProcessExits | sandbox/app/services/shell.py:281-283 | a process of a known session that is still running records the code it exits with, as asyncio sets `returncode` without a wait; an ended process keeps its code and no other session changes |
| Shell.NotFoundError | sandbox/app/services/shell.py:196 | the error for an unknown session id; the `ShellService` methods return it exactly when the id is unknown |
| SandboxFiles.LineRange | sandbox/app/services/file.py:66-71 | a line range within bounds is those lines joined with `\n`; with no bounds the whole text is re-joined |
| SandboxFiles.Truncate | sandbox/app/services/file.py:73-74 | content longer than a positive limit is cut to the limit and marked `(truncated)`; otherwise it is returned unchanged |
| SandboxFiles.Universal | sandbox/app/services/file.py:58 | reading in text mode turns each `\r\n` and each lone `\r` into `\n`: the text never gets longer, holds no `\r` afterwards, and text without `\r` is unchanged |
| SandboxFiles.UniversalExamples | sandbox/app/services/file.py:58 | `a\r\nb` and `a\rb` read as `a\nb`, and `a\r\r\nb` as `a\n\nb` |
| SandboxFiles.ReadSpec | sandbox/app/services/file.py:22-83 | without sudo a missing path is not found and a directory is an application error whose message repeats "Failed to read file:"; with sudo a missing file is the command's error; an existing file is read, with line ends translated to `\n` without sudo, and without a range it is the truncated content |
| SandboxFiles.FileService.Read | sandbox/app/services/file.py:22-83 | `read_file` on the service's files and directories is `ReadSpec`; `WriteReadRoundTrip` and `ReadAllLines` state what it reads back |
| SandboxFiles.Prepared | sandbox/app/services/file.py:100-104 | the written text is the content with a newline added in front and/or at the end as asked |
| SandboxFiles.WriteSpec | sandbox/app/services/file.py:85-146 | after a write the file exists, other files are untouched, and it holds the prepared content, after its old content when appending |
| SandboxFiles.BytesWritten | sandbox/app/services/file.py:115-146 | a plain write reports the number of characters, a sudo write the number of UTF-8 bytes |
| SandboxFiles.WriteFailure | sandbox/app/services/file.py:99-155 | a sudo write fails with the command's error exactly when the target is a directory or refused; a plain write fails with an application error exactly for a bare file name (`os.makedirs("")`), a directory or a refused path |
| SandboxFiles.WriteReadRoundTrip | sandbox/app/services/file.py:22-146 | reading back a freshly written file within the length limit gives the content written with its line ends translated, and exactly the content when it holds no `\r` |
| SandboxFiles.CrLfNotPreserved | sandbox/app/services/file.py:58 | a written `a\r\nb` reads back as `a\nb` |
| SandboxFiles.AppendsConcatenate | sandbox/app/services/file.py:141-144 | two appends add both texts in order |
| SandboxFiles.ReadAllLines | sandbox/app/services/file.py:66-74 | reading all lines of a short `\n`-separated file gives its content back |
| SandboxFiles.ReplaceIn | sandbox/app/services/file.py:172-181 | the count is the number of occurrences; nothing is written when it is zero, and otherwise the replaced text with its length changed accordingly |
| SandboxFiles.StrReplaceAsWritten | sandbox/app/services/file.py:169-184 | as written the replacement works on the read result: the file as read, line ends translated without sudo, truncated to 10000 characters and marked |
| SandboxFiles.StrReplaceSpec | sandbox/app/services/file.py:157-189 | the intended replacement works on the whole file as read |
| SandboxFiles.StrReplaceShortFile | sandbox/app/services/file.py:169-184 | for a file of at most 10000 characters the replacement as written and the intended one agree |
| SandboxFiles.StrReplaceFinding | sandbox/app/services/file.py:169-184 | in a file longer than 10000 characters, other than 10011, a same-length replacement as written changes its length to 10011 characters, while the intended one keeps its length |
| SandboxFiles.MatchingLines | sandbox/app/services/file.py:217-222 | the numbers of exactly the matching lines, in increasing order |
| SandboxFiles.PathJoin | sandbox/app/services/file.py:246 | `os.path.join` with an absolute part gives that part, otherwise a path ending in it |
| SandboxFiles.FileService.constructor | sandbox/app/services/file.py:311 | the service sees the given files and directories, the given compiler, search and glob, and has no uploads |
| SandboxFiles.FileService.Write | sandbox/app/services/file.py:85-155 | a write the write-failure rule refuses returns that error and changes no file; otherwise the files become the written state and the reported size is that of the prepared text |
| SandboxFiles.FileService.StrReplace | sandbox/app/services/file.py:157-189 | with the read as written (default 10000-character limit): a read failure changes nothing; no occurrence returns zero and writes nothing; a refused write returns its error and changes nothing; otherwise the file holds the replaced text and the count is returned |
| SandboxFiles.FileService.FindInContent | sandbox/app/services/file.py:191-230 | a read failure is its error; a pattern that does not compile, once the read succeeded, is the bad request carrying the compiler's error text; otherwise the matching lines and their numbers, in order |
| SandboxFiles.FileService.CollectMatches | sandbox/app/services/file.py:217-224 | the loop collects exactly the matching lines and their numbers |
| SandboxFiles.FileService.FindByName | sandbox/app/services/file.py:232-254 | a path that does not exist (no directory, text file or upload) is not found; otherwise the glob of the joined pattern |
| SandboxFiles.FileService.UploadFile | sandbox/app/services/file.py:256-290 | a path the upload-failure rule refuses is that error, with nothing stored; otherwise the upload stores exactly the bytes, reports their number and reads them in 8192-byte chunks; the text files never change |
| SandboxFiles.UploadFailure | sandbox/app/services/file.py:263-290 | an upload fails exactly for a bare file name (`os.makedirs("")`), a directory or a refused path, each wrapped as "Failed to upload file:" with the error's text |
| SandboxFiles.FileService.EnsureFile | sandbox/app/services/file.py:292-307 | succeeds exactly when the path is a text file, a directory or an uploaded file, otherwise the not-found error |
| SandboxFiles.Shaped | sandbox/app/services/file.py:67-74 | the line range and then the length limit applied to a file's text; `ReadSpec` and `WriteReadRoundTrip` are stated with it |
| SandboxFiles.FileService.Exists | sandbox/app/services/file.py:263-290 | a path exists when it is a directory, a text file or an uploaded file |

## Left out

- Concurrency and `async` scheduling: every coroutine is modelled as a sequential step, and generators as the list of events they yield.
- The language model, the prompts, the MCP transports (stdio, SSE, streamable HTTP) and the servers' tools are function-typed parameters. Connecting is one `connect` result per server. A model call always returns a message: a call that raises, which the source lets propagate out of `ask_with_messages`, `execute` and the flow, is not represented.
- `json.loads`, `model_validate`, the regular-expression engine, `glob`, `urllib` parsing and quoting, HMAC-SHA256, JWT encoding and decoding, PBKDF2 and DNS lookup are uninterpreted functions. The signed-URL round trip is proved for paths without a query string.
- Floating point: durations, timeouts and timestamps are whole seconds and `datetime` values are integers. Timers are modelled by the second at which they would fire. `asyncio.sleep` is counted as seconds slept.
- `update_last_login` reads the clock twice; the model reads it once (`now`). Class-definition-time defaults of the models are one `classTime` value.
- The LRU bound of the memoised `get` (`alru_cache`) is not modelled: the cache has no limit.
- `docker run`, `docker inspect` and the sandbox's HTTP status endpoint are inputs. Container creation itself is not modelled, only static mode and the address and name rules.
- Shell processes are records with output and an optional return code. Process creation, the reader task and the operating system are not modelled. Reading output is an "append chunk" step, a process ending on its own is an "exit" step, and the `sudo` error text is an input. `active_shells` is a class attribute in the source and a field of the one shell service here.
- Shell errors are modelled as a result with the error's kind and message. The HTTP status codes of the exceptions are not modelled.
- Directories are a set of paths kept apart from the file map. The ones `os.makedirs` creates for a plain write are not added to that set. File contents are text, so UTF-8 decoding failures are not modelled. Uploads are stored as bytes and only their sizes are accounted.
- SandboxFiles.FileService.UploadFile: the uploaded bytes are kept apart from the text contents, so a later read, write, replace or search of that path does not see them; only `ensure_file` and `find_by_name`, which ask whether the path exists, do. An upload interrupted by a failing stream is not modelled.
- SandboxFiles.FileService.Write: the operating system's refusals (permissions, a full disk) are one input predicate, and their messages are inputs.
- File search is line-by-line over an abstract match predicate, and runs on the truncated read result as the source does.
- Python's `int()` also accepts underscores and Unicode digits, which `PyStr` does not. `isdigit` and `lower` are ASCII only.
- Pydantic's re-validation when documents are loaded and the conversion between the user model and its database document are not modelled.
- E-mail sending: SMTP and MIME are replaced by a `sent` flag, with a fixed error message of the model's own when sending fails. The cache's key listing is an input list.
- `AuthService` operations not modelled: token verification, login with tokens, changing the full name, lookup by id, deactivating and activating a user, resetting a password and user persistence. The user id generator is an input.
- The authentication provider setting is a datatype: no authentication, local, password, or an unsupported name. The exception path of password verification cannot occur, because the hash is an uninterpreted function.
- The repository calls that save agent memory and update the session are not modelled. `PlanAct.Flow.Run` takes the session rather than looking it up, so the "session not found" error is not modelled.
- TokenService.Crypto: the JWT decoder is an oracle without a clock, so PyJWT's own refusal of a token whose `exp` has passed is not modelled; the model checks expiry only where the service code does.
- EmailVerification.Field: a stored time of the wrong type, whose `TypeError` neither `send_verification_code` nor `cleanup_expired_codes` catches, is not represented; `Malformed` on a time is the `ValueError` they catch.
- BaseAgent.Agent: an agent's tools are `ToolsBase.BaseTool` values, so an `MCPTool`, whose `has_function` consults the servers' tool lists, cannot be handed to an agent; `Mcp` models that tool on its own.
- PlanAct.Flow.Run: the `while True` loop is bounded by a fuel parameter, and running out of fuel is its own outcome; the source loop has no bound.

## Findings

The service members follow the code as written. Each corrected member stands beside its as-written one, with the intended property proved about it.

| source | as written | input that shows it | evidently intended | confidence | as-written member | corrected member |
|---|---|---|---|---|---|---|
| backend/app/infrastructure/external/sandbox/docker_sandbox.py:472 | `destroy` reads `self.container_name`, which the class never sets, so it always returns False | a static-mode sandbox, which has no container | True when there is no container, else whether removal succeeded | not executed | DockerSandbox.DestroyAsWritten | DockerSandbox.DestroyResult |
| sandbox/app/services/file.py:169-184 | `str_replace` edits the truncated read result and writes it back | a 10001-character file and a same-length replacement: the file becomes 10011 characters | the replacement edits the whole file | not executed | SandboxFiles.StrReplaceAsWritten | SandboxFiles.StrReplaceSpec |
| backend/app/infrastructure/utils/llm_json_parser.py:237 | the look-behind `(?<=[\[,]\s*)` has no fixed width, so `re.sub` raises on every call and the cleanup strategy never returns a value | any text whose cleaned form decodes | the strategy yields the decoded cleaned text | not executed | JsonParser.CleanupAsWritten | JsonParser.CleanupSpec |
| backend/app/application/services/auth_service.py:81-91 | `register_user` checks that the address as given is new, but stores it stripped and lower-cased, so a padded duplicate passes the check | `a@b` already stored, then `register_user` with ` a@b` and valid fields: the insert fails on the unique e-mail index with a database error instead of "Email already exists"; the registration route normalises the address first, so only other callers of the service reach it | the check probes the address as stored and reports "Email already exists" | not executed | AuthService.RegisterAsWritten | AuthService.Register |
