# EngAi core, modelled in Dafny

EngAi is a multi-agent code-generation service. Agents (architect, database designer,
API route planner, backend code generator, frontend generator, test generator) each call a
language model, and they talk to one another through an in-process message layer called
MCP. This project models the deterministic part that is left once the language-model
calls and the I/O are taken away:

- **The MCP layer.** The four message kinds, the server with its agents, tools and
  per-agent inboxes, the agent handle's `send_request`, and the client wrapper. These are
  modules `Messages`, `Server` and `Client`.
  - The server is a `class` whose three dictionaries are `map` fields.
  - Tool handlers become an oracle `run` that either returns a value or raises.
  - Python's keyword-argument binding is modelled explicitly. A call whose keywords do not
    fit the handler's signature fails with CPython's `TypeError` text, and the handler
    body never runs.
- **The orchestrator.** Module `Orchestrator` models the three tool calls of
  `OrchestratorAgent.process`, made in order through the server, and how each result is
  unwrapped. Because of the argument binding, the model proves that the second step
  always fails:
  - step 2 sends the keyword `architecture`;
  - the registered `generate_code` takes `api_route_plan`, `database_schema` and
    `requirements`;
  - so the call is rejected at binding, `process` raises `Tool execution failed: ...`
    and the third step is never dispatched (`PipelineAlwaysFails`, `OrchestrateFresh`).
- **The text extractors.** These are the fallback cascades that pull an SQL schema, a
  route plan, a `requirements.txt`, code and frontend files out of free text (modules
  `DatabaseAgent`, `RoutePlanner`, `CodeGenerator` and `FileGenerator`).
  - Every regular expression the cascades use is a hand-written scanner in module
    `Scanners`, with the exact semantics of that one pattern: the lazy body, the
    backtracking of `\s*\n`, `re.IGNORECASE` on ASCII, and `findall` restarting after
    each match.
  - Proof support for the scanners is in `ScanFacts`. The string primitives (`strip`,
    `split`, `find`, `lower`, `replace`) are in `Strings`.
  - The route planner's loops over candidate blocks and its backward line scan are
    methods with loop invariants. Each is proved equal to a recursive specification
    function.
- **The project layout.** `create_project_folder`'s name sanitising, `save_frontend`'s
  filtering and placing of files, and the files and result dictionary of
  `generate_project`. The folder's contents are a `map` from path (relative to the
  project folder) to file contents.
- **The usage tracker.** Module `UsageTracker` models the table of usage records as a
  sequence. `record_usage` appends to it. The three statistics queries are folds over it,
  and `get_all_agents_usage`'s loop over its dictionary of counters is a method.

JSON values are a datatype `Json` (module `Values`). `json.loads` is an oracle
`parse: string -> Option<Json>`, and `json.dumps` is an oracle `dumps: Json -> string`.
Message and response ids are drawn from oracles, and the timestamp is a parameter.

Some behaviours of the code are easy to misread, and the model follows the code in each:

- **Message validation.** The message classes in `Backend/src/mcp/message.py` check
  nothing. A response may lack a correlation id and a request may have an empty tool
  name. A correlation id is optional everywhere in the model.
- **Pipeline length.** The orchestrator makes three calls: architect, code generator and
  test generator. The second always fails at binding, so the third never runs.
- **Route-plan errors.** Route-plan extraction catches only `JSONDecodeError`, so it can
  raise.
  - `"api_route_plan" in doc` raises `TypeError` when a block decodes to a number, a
    boolean or `null`.
  - `doc["api_route_plan"]` raises `TypeError` when the block is a list or a string that
    contains the key.
  - The model returns these errors (`JudgeIs`). The extraction is proved never to raise
    only when the decoder yields objects (`ObjectsNeverRaise`).
- **Route-plan strategies.** There are four strategies, each a loop or a single try. The
  first loop decodes each fenced `json` block in turn. It returns the block's
  `api_route_plan` value when the key is there, and otherwise the block itself when it has a
  `base_url` or a `routes` key.
- **Requirements.** Before it falls back to the default dependency list, the code tries a
  `txt` block that mentions "requirements".
- **Frontend fallback.** The single `src/App.jsx` fallback is written only when the block
  pattern matches nothing. When blocks match but every one is rejected, no frontend file
  is written (`FallbackOnlyWithoutBlocks`).
- **Project name.** A project name made only of punctuation sanitises to the empty name,
  not to `project`, because the emptiness test comes before sanitising
  (`PunctuationOnlyName`).

## Model

| member | source | states |
|---|---|---|
| Messages.TypeOfWire | Backend/src/mcp/message.py:15-20 | looking a kind up by its string value finds the kind with that value, and finds nothing exactly when no kind has it |
| Messages.WireRoundTrip | Backend/src/mcp/message.py:15-20 | every message kind is found again from its value, and no two kinds share a value, so a message has exactly one kind |
| Messages.MessageDefaults | Backend/src/mcp/message.py:23-31 | a message built without a correlation id has none, and its timestamp is the one default fixed when the class is defined |
| Messages.RequestDefaults | Backend/src/mcp/message.py:34-38 | a request built from its required fields is of kind request and carries its tool name and parameters, with no correlation id |
| Messages.ResponseDefaults | Backend/src/mcp/message.py:41-46 | a response built from its required fields is of kind response, successful, with no error message and no correlation id |
| Messages.NotificationDefaults | Backend/src/mcp/message.py:49-53 | a notification built from its required fields is of kind notification and carries its event name and data |
| Server.UnexpectedFrom | Backend/src/mcp/server.py:108 | finds the first keyword argument from a position on that names no parameter of the callable, and finds none exactly when every one does |
| Server.Missing | Backend/src/mcp/server.py:108 | the parameters without a default that no keyword supplies: exactly the required names no argument carries |
| Server.BindError | Backend/src/mcp/server.py:108 | calling a handler with these keywords fails exactly when some keyword names no parameter or a required parameter is not supplied; an unknown keyword is reported first, by CPython's text |
| Server.UnexpectedKeyword | Backend/src/mcp/server.py:108 | definition of CPython's unexpected-keyword text; properties in BindError and CodeArgumentsUnbound |
| Server.Arguments | Backend/src/mcp/server.py:108 | the dictionary the callee receives holds exactly the keywords of the request |
| Server.Resolve | Backend/src/mcp/server.py:88-105 | the prefixed key `agent.tool` wins, the bare tool name is the fallback, and no tool is found exactly when neither key is registered |
| Server.ToolKey | Backend/src/mcp/server.py:89 | definition of the `agent.tool` key; properties in Resolve, PrefixedToolWins and RegisteredToolReached |
| Server.PrefixedToolWins | Backend/src/mcp/server.py:88-105 | a tool registered under an agent's prefixed key is reached even when a bare tool of the same name is registered |
| Server.Failure | Backend/src/mcp/server.py:93-129 | a failure response: unsuccessful, result none, the error text, sender and recipient swapped, correlated with the message it answers |
| Server.Success | Backend/src/mcp/server.py:110-118 | a success response: carries the tool's value and no error, swapped sender and recipient, correlated with the request |
| Server.AgentNotFound | Backend/src/mcp/server.py:55-66 | the answer to a message for an unknown recipient is a failure reading `Agent X not found` |
| Server.Dispatch | Backend/src/mcp/server.py:87-129 | handling a request always yields a correlated response; it succeeds exactly when a tool is found, its arguments bind and its body returns; a missing tool reads `Tool T not found for agent A` |
| Server.DispatchOutcome | Backend/src/mcp/server.py:108-129 | once the arguments bind, a returning body yields success with its value verbatim and a raising body yields failure with the exception text |
| Server.DispatchBindFailure | Backend/src/mcp/server.py:108-129 | arguments that do not bind yield a failure with the `TypeError` text, whatever the body would do |
| Server.Delivered | Backend/src/mcp/server.py:55-69 | a message for a registered recipient is appended to the end of that inbox, other inboxes are unchanged, and an unknown recipient leaves every inbox unchanged |
| Server.Answer | Backend/src/mcp/server.py:54-75 | `send_message` answers an unknown recipient with the not-found failure, a request with the dispatcher's response, and any other message with nothing |
| Server.Settle | Backend/src/mcp/server.py:201-207 | `send_request` returns the result of a successful response, raises `Tool execution failed: <error>` on a failed one and `No response received` when there is none |
| Server.ErrorText | Backend/src/mcp/server.py:205 | definition of the f-string rendering of an optional error; properties in Settle and CallOutcome |
| Server.NewRequest | Backend/src/mcp/server.py:192-199 | the request `send_request` builds carries the sender's name, the target, the tool and the parameters, with empty content and no correlation id |
| Server.CallOutcome | Backend/src/mcp/server.py:54-207 | a request sent through the server returns exactly when the recipient is registered, the tool is found, its arguments bind and its body returns, and then returns the body's value; every error starts with `Tool execution failed: ` |
| Server.CallerOutcome | Backend/src/mcp/server.py:179-207 | the dispatcher handed to the orchestrator gives, for a request, the request's outcome |
| Server.RequestAlwaysAnswered | Backend/src/mcp/server.py:72-207 | a request always gets a response, so `send_request` never raises `No response received` |
| Server.MCPServer.constructor | Backend/src/mcp/server.py:13-17 | a new server has no agents, no tools and no inboxes |
| Server.MCPServer.RegisterAgent | Backend/src/mcp/server.py:29-31 | records the agent and empties its inbox, even when it was registered before with pending messages; tools are unchanged |
| Server.MCPServer.RegisterTool | Backend/src/mcp/server.py:41-42 | stores the handler under the key, replacing an earlier one, other keys, agents and inboxes unchanged |
| Server.MCPServer.SendMessage | Backend/src/mcp/server.py:54-75 | returns the answer of `send_message` and leaves the inboxes as after delivery, agents and tools unchanged |
| Server.MCPServer.GetMessages | Backend/src/mcp/server.py:141-144 | returns the agent's pending messages in arrival order (none for an unknown name) and leaves its inbox empty |
| Server.MCPServer.UnregisterAgent | Backend/src/mcp/server.py:153-157 | removes the agent and its inbox and keeps every tool |
| Server.MCPAgent.constructor | Backend/src/mcp/server.py:167-177 | creating an agent registers it with its server, which empties its inbox |
| Server.MCPAgent.SendRequest | Backend/src/mcp/server.py:179-207 | returns the outcome of the request built from the agent's own name, and the request is delivered to the recipient's inbox |
| Server.MCPAgent.ReceiveMessages | Backend/src/mcp/server.py:209-216 | drains the agent's own inbox |
| Server.DrainTwice | Backend/src/mcp/server.py:141-144 | two drains in a row return the pending messages and then nothing, and leave other inboxes as they were |
| Client.MCPClient.constructor | Backend/src/mcp/client.py:17-25 | constructing a client registers its agent name with the shared server, emptying that name's inbox |
| Client.MCPClient.CallAgent | Backend/src/mcp/client.py:27-39 | forwards the keyword arguments unchanged as the request's parameters and returns only when dispatch succeeded, otherwise raises |
| Client.MCPClient.RegisterTool | Backend/src/mcp/client.py:41-49 | stores the handler under exactly `"<agent>.<tool>"` |
| Client.MCPClient.GetMessages | Backend/src/mcp/client.py:51-58 | drains this agent's own inbox and no other |
| Client.RegisteredToolReached | Backend/src/mcp/client.py:49 | a tool a client registers is the one requests for that tool sent to its agent reach |
| Values.Get | Backend/src/agents/orchestrator_agent.py:33-34 | `dict.get` returns the stored value of a present key and the default otherwise |
| Values.Truthy | Backend/src/utils/file_generator.py:461-475 | definition of Python truthiness on JSON values; used by ResultKeysIff and AddOptional |
| Values.TypeName | Backend/src/agents/orchestrator_agent.py:43 | the type name Python prints for a value is never empty |
| Orchestrator.Unwrap | Backend/src/agents/orchestrator_agent.py:43-61 | a string result is used as it is, a dict gives its named field or `""`, and any other value raises `AttributeError` on `.get` |
| Orchestrator.StepArguments | Backend/src/agents/orchestrator_agent.py:37-60 | every step passes two keywords, the second being the caller's requirements |
| Orchestrator.StepRequest | Backend/src/agents/orchestrator_agent.py:37-60 | step k sends a request from the orchestrator to the step's agent and tool, with the step's arguments |
| Orchestrator.Pipeline | Backend/src/agents/orchestrator_agent.py:33-68 | the steps are sent strictly in order, one to three requests; a run that stops early fails; only a failing first step stops after one request |
| Orchestrator.PipelineArguments | Backend/src/agents/orchestrator_agent.py:33-60 | every sent step carries the caller's requirements, the first one also the description, later ones the previous step's unwrapped value |
| Orchestrator.PipelineResult | Backend/src/agents/orchestrator_agent.py:63-68 | a run that returns gives exactly the keys architecture, code, tests and agent, the last being `orchestrator` |
| Orchestrator.CodeArgumentsUnbound | Backend/src/agents/orchestrator_agent.py:46-51 | binding step 2's keywords to the registered `generate_code` fails with the unexpected-keyword text for `architecture` |
| Orchestrator.CodeStepFails | Backend/src/agents/orchestrator_agent.py:46-52 | with the code-generation tool registered as the agents register it, step 2 always fails, with the `TypeError` text when its agent is registered |
| Orchestrator.PipelineAlwaysFails | Backend/src/agents/orchestrator_agent.py:37-61 | no run of the orchestrator returns, at most two requests are ever sent and none reaches the test generator |
| Orchestrator.DeliveredAll | Backend/src/agents/orchestrator_agent.py:37-61 | delivering a sequence of messages keeps the set of inboxes |
| Orchestrator.DeliveredInOrder | Backend/src/agents/orchestrator_agent.py:37-61 | delivering one, two or three messages is delivering them one after another, in order |
| Orchestrator.StartAgent | Backend/src/agents/code_generator_agent.py:14-18 | starting an agent registers it, empties its inbox and stores its tool under its prefixed key |
| Orchestrator.StartAgents | Backend/src/agents/orchestrator_agent.py:19-21 | the three driven agents are registered, each with its tool under its prefixed key |
| Orchestrator.OrchestratorAgent.constructor | Backend/src/agents/orchestrator_agent.py:14-21 | the orchestrator and its three agents are registered on the shared server with their tools |
| Orchestrator.OrchestratorAgent.Step | Backend/src/agents/orchestrator_agent.py:37-61 | one step yields the unwrapped result of its call, or its error, and delivers its request |
| Orchestrator.OrchestratorAgent.Process | Backend/src/agents/orchestrator_agent.py:23-68 | `process` returns or raises what the pipeline specification says, and the inboxes receive exactly the requests it sent |
| Orchestrator.OrchestrateFresh | Backend/src/agents/orchestrator_agent.py:14-68 | the orchestrator as the service builds it always raises, with the binding error of step 2 once step 1 succeeds |
| Strings.Lower | Backend/src/agents/code_generator_agent.py:92 | `lower` maps ASCII capitals to small letters and keeps every other character |
| Strings.LowerStr | Backend/src/utils/file_generator.py:367 | lowering keeps the length and lowers each character |
| Strings.IndexFrom | Backend/src/agents/api_route_planner_agent.py:92 | finds the first occurrence of a text from a position on, and none exactly when there is none |
| Strings.IndexFromCaseless | Backend/src/agents/database_agent.py:53 | the same search ignoring ASCII case |
| Strings.CharFrom | Backend/src/agents/api_route_planner_agent.py:99 | finds the first character of a set from a position on |
| Strings.IndexOf | Backend/src/agents/api_route_planner_agent.py:92 | `in` on strings: the first occurrence, or none exactly when there is none |
| Strings.LastIndexOf | Backend/src/agents/api_route_planner_agent.py:99 | finds the last occurrence of a character |
| Strings.SpacesFrom | Backend/src/agents/database_agent.py:46 | the end of the run of whitespace from a position |
| Strings.LeadingSpaces | Backend/src/agents/database_agent.py:58 | the length of the leading whitespace run |
| Strings.TrailingSpaces | Backend/src/agents/database_agent.py:58 | the length of the trailing whitespace run |
| Strings.Strip | Backend/src/agents/database_agent.py:58 | `strip` leaves no outer whitespace, never lengthens, and keeps a text without outer whitespace |
| Strings.StripPadded | Backend/src/agents/database_agent.py:49 | stripping a text padded with whitespace strips the text inside |
| Strings.LStripChar | Backend/src/utils/file_generator.py:351 | `lstrip('/')` removes exactly the leading run of that character |
| Strings.ReplaceAbsent | Backend/src/utils/file_generator.py:351 | replacing a text that does not occur changes nothing |
| Strings.Replace | Backend/src/utils/file_generator.py:351 | definition of `str.replace`; properties in ReplaceAbsent |
| Strings.Split | Backend/src/agents/api_route_planner_agent.py:89 | `split('\n')` yields at least one part and no part holds the separator |
| Strings.JoinSplit | Backend/src/agents/api_route_planner_agent.py:89-97 | joining the parts with the separator gives the text back |
| Strings.Join | Backend/src/agents/database_agent.py:55 | definition of `sep.join`; properties in JoinSplit and TwoStatementsExtracted |
| Strings.SplitChars | Backend/src/agents/api_route_planner_agent.py:89-93 | every character of a piece of a split comes from the text |
| Strings.NatToString | Backend/src/mcp/server.py:108 | `str(n)` on a count: decimal digits, without a leading zero unless the number is zero, whose value is the number |
| Scanners.MatchFence | Backend/src/agents/database_agent.py:46 | a fenced-block pattern matched at a position starts with a backtick and stays within the text |
| Scanners.MatchFileBlock | Backend/src/utils/file_generator.py:334 | the frontend block pattern matched at a position starts with a backtick and stays within the text |
| Scanners.PathAndBody | Backend/src/utils/file_generator.py:334 | the path group is a non-empty line and the body runs lazily to the first three backticks |
| Scanners.MatchCreateTable | Backend/src/agents/database_agent.py:52 | a statement starts at `CREATE TABLE` and runs to its first semicolon, inclusive, or to the end of the text |
| Scanners.MatchPlanObject | Backend/src/agents/api_route_planner_agent.py:67 | an inline plan object opens with `{`, whitespace and `"api_route_plan"`, and ends at the first `}` |
| Scanners.KeyWithinIff | Backend/src/agents/api_route_planner_agent.py:78 | a key lies within a range exactly when it occurs at some offset there |
| Scanners.MatchRouteObject | Backend/src/agents/api_route_planner_agent.py:78 | a brace-free object holds no brace inside and names `base_url` or `routes` |
| Scanners.MatchOuterBraces | Backend/src/agents/api_route_planner_agent.py:99 | the brace pattern runs from its `{` to the last `}` of the text |
| Scanners.Search | Backend/src/agents/database_agent.py:47 | `re.search`: the first position where the pattern matches, and none exactly when it matches nowhere |
| Scanners.FindAll | Backend/src/agents/database_agent.py:53 | `re.findall`: no matches exactly when the search fails, each match within the text, and the first match is the search's match |
| Scanners.FindAllNext | Backend/src/agents/database_agent.py:53 | each match after the first is the search's match from where the match before it ends |
| Scanners.FindAllLast | Backend/src/agents/database_agent.py:53 | after the last match the search finds nothing more |
| Scanners.Groups | Backend/src/agents/database_agent.py:55 | the groups of the matches, in order |
| Scanners.Sub | Backend/src/agents/code_generator_agent.py:71-72 | `re.sub` with an empty replacement: the text up to the first match followed by the substitution after that match, the text whole when nothing matches, never longer |
| DatabaseAgent.ExtractSqlSchema | Backend/src/agents/database_agent.py:46-58 | an `sql` block's body, else the `CREATE TABLE` statements joined by blank lines in order, else the whole text, trimmed in every case, so never with outer whitespace |
| DatabaseAgent.SqlBlockExtracted | Backend/src/agents/database_agent.py:46-49 | an `sql` block after text without backticks yields exactly its body, trimmed, whatever follows |
| DatabaseAgent.PlainTextKept | Backend/src/agents/database_agent.py:58 | text with no backtick and no `CREATE TABLE` in any case is kept whole, trimmed |
| DatabaseAgent.OneStatementExtracted | Backend/src/agents/database_agent.py:52-55 | a single statement among text without backticks and without any other `CREATE TABLE`, in any case, yields that statement up to its semicolon |
| DatabaseAgent.TwoStatementsExtracted | Backend/src/agents/database_agent.py:52-55 | two statements among text without backticks and without any other `CREATE TABLE` yield both, in order, joined by a blank line |
| DatabaseAgent.TwoScan | Backend/src/agents/database_agent.py:52-53 | `findall` on a text holding two statements and no other `CREATE TABLE` finds exactly those two, in order |
| DatabaseAgent.OneSchema | Backend/src/agents/database_agent.py:46-55 | a text without backticks holding one statement and no other `CREATE TABLE` has that statement as its schema |
| DatabaseAgent.TwoSchema | Backend/src/agents/database_agent.py:46-55 | a text without backticks holding two statements and no other `CREATE TABLE` has the two, joined by a blank line, as its schema |
| DatabaseAgent.StatementMatch | Backend/src/agents/database_agent.py:52 | the statement pattern at `CREATE TABLE` runs to the first semicolon |
| DatabaseAgent.Process | Backend/src/agents/database_agent.py:85-88 | `process` returns exactly the keys database_schema, holding the extracted schema, and agent |
| RoutePlanner.Member | Backend/src/agents/api_route_planner_agent.py:58-83 | Python's `in`: a dict key, a list element or a substring, and a `TypeError` exactly for other values |
| RoutePlanner.Subscript | Backend/src/agents/api_route_planner_agent.py:59 | `doc[key]` succeeds exactly on a dict holding the key, giving its value |
| RoutePlanner.EitherKey | Backend/src/agents/api_route_planner_agent.py:61-83 | `a in doc or b in doc` is true when either test is, and raises exactly when the first raises |
| RoutePlanner.JudgeIs | Backend/src/agents/api_route_planner_agent.py:55-108 | the plan key wins wherever it is looked for, the inline strategy returns only the plan, the brace-free strategy returns the object whole exactly when it names routes or base_url, and the raising cases |
| RoutePlanner.Judge | Backend/src/agents/api_route_planner_agent.py:58-61 | definition of the tests on a decoded document; properties in JudgeIs and ObjectJudged |
| RoutePlanner.Decoded | Backend/src/agents/api_route_planner_agent.py:56-64 | definition of one `try` on a candidate; properties in TryCandidate and SkipUnparseable |
| RoutePlanner.FirstVerdictIs | Backend/src/agents/api_route_planner_agent.py:55-86 | a loop moves on past all candidates exactly when each moves on; otherwise it stops at the first that does not |
| RoutePlanner.SkipPass | Backend/src/agents/api_route_planner_agent.py:63-64 | leaving out a candidate that moves on does not change a loop's outcome |
| RoutePlanner.SkipBefore | Backend/src/agents/api_route_planner_agent.py:63-64 | before a left-out candidate the two loops agree |
| RoutePlanner.SkipAfter | Backend/src/agents/api_route_planner_agent.py:63-64 | after a left-out candidate the shorter loop runs one behind |
| RoutePlanner.LastMarked | Backend/src/agents/api_route_planner_agent.py:91-94 | the last line before n holding ```` ```json ```` or both `{` and `"api_route_plan"`, and none exactly when no line does |
| RoutePlanner.BraceSpan | Backend/src/agents/api_route_planner_agent.py:99 | the section from the first `{` to the last `}`, present exactly when a `{` has a `}` after it |
| RoutePlanner.BraceSpanAbsent | Backend/src/agents/api_route_planner_agent.py:99-100 | no match of the brace pattern means no `{` has a `}` after it |
| RoutePlanner.BraceSpanFirst | Backend/src/agents/api_route_planner_agent.py:99 | the brace pattern matches first at the first `{` and runs to the last `}` |
| RoutePlanner.Then | Backend/src/agents/api_route_planner_agent.py:51-111 | a strategy's error propagates, its plan is returned, and moving on tries the rest |
| RoutePlanner.TryCandidate | Backend/src/agents/api_route_planner_agent.py:56-64 | one candidate is decoded, a text that does not decode moves on, and a document is judged |
| RoutePlanner.TryCandidates | Backend/src/agents/api_route_planner_agent.py:55-64 | the loop over a strategy's candidates returns the outcome of the first that does not move on, in order |
| RoutePlanner.CandidateStep | Backend/src/agents/api_route_planner_agent.py:55-64 | the loop's verdict on candidate i is the one its outcome is built from |
| RoutePlanner.FindJsonStart | Backend/src/agents/api_route_planner_agent.py:90-94 | the backward scan finds the last marked line, or -1 exactly when no line is marked |
| RoutePlanner.ExtractApiRoutePlan | Backend/src/agents/api_route_planner_agent.py:41-111 | `_extract_api_route_plan` tries the four strategies in order, each over its candidates, then gives the empty plan |
| RoutePlanner.RoutePlanOf | Backend/src/agents/api_route_planner_agent.py:41-111 | definition of the four strategies followed by `{}`; ExtractApiRoutePlan is proved equal to it, and properties are in ObjectsNeverRaise, NoBracesEmptyPlan and PlanBlockUnwrapped |
| RoutePlanner.PlanBlockUnwrapped | Backend/src/agents/api_route_planner_agent.py:52-59 | a fenced `json` block whose body decodes to an object with `api_route_plan` yields that value |
| RoutePlanner.FirstFencedBlock | Backend/src/agents/api_route_planner_agent.py:52-53 | the first fenced `json` block of such a text is the block's body, up to whitespace |
| RoutePlanner.FirstCandidateAccepted | Backend/src/agents/api_route_planner_agent.py:55-59 | a first candidate that is accepted ends the loop with its plan |
| RoutePlanner.ExamplePlanUnwrapped | Backend/src/agents/api_route_planner_agent.py:52-59 | `{"api_route_plan": {"base_url": "X", "routes": []}}` in a fenced `json` block yields `{"base_url": "X", "routes": []}` |
| RoutePlanner.UnmarkedLine | Backend/src/agents/api_route_planner_agent.py:92 | a line with neither a brace nor a backtick is not marked |
| RoutePlanner.NoBracesEmptyPlan | Backend/src/agents/api_route_planner_agent.py:111 | text with neither braces nor backticks yields the empty plan, whatever the decoder does |
| RoutePlanner.ObjectJudged | Backend/src/agents/api_route_planner_agent.py:58-62 | a document that is an object is judged without raising |
| RoutePlanner.CandidatesNeverRaise | Backend/src/agents/api_route_planner_agent.py:55-86 | when the decoder yields only objects, a strategy's loop never raises |
| RoutePlanner.ObjectsNeverRaise | Backend/src/agents/api_route_planner_agent.py:41-111 | when the decoder yields only objects or fails, the extraction never raises |
| RoutePlanner.SkipUnparseable | Backend/src/agents/api_route_planner_agent.py:63-64 | a candidate that does not decode is skipped: leaving it out changes nothing |
| RoutePlanner.VerdictsDrop | Backend/src/agents/api_route_planner_agent.py:55-64 | the verdicts on a list with one candidate left out are the others' verdicts |
| RoutePlanner.DropAt | Backend/src/agents/api_route_planner_agent.py:55-64 | element k of a list with element j left out |
| RoutePlanner.Reply | Backend/src/agents/api_route_planner_agent.py:138-142 | the reply holds the plan, the raw text and the agent name under exactly those keys, and an extraction error propagates |
| RoutePlanner.Process | Backend/src/agents/api_route_planner_agent.py:136-142 | `process` returns the extracted plan, the unmodified model text as raw_output and the agent name, or raises the extraction's error |
| CodeGenerator.RequirementsCascade | Backend/src/agents/code_generator_agent.py:81-96 | the requirements are the trimmed group of the first pattern that matches, else the fixed four-line default |
| CodeGenerator.ExtractRequirementsTxt | Backend/src/agents/code_generator_agent.py:81-96 | definition of `_extract_requirements_txt`; properties in RequirementsCascade, RequirementsBlockExtracted, TxtBlockExtracted and NoFenceDefaults |
| CodeGenerator.TxtGroupMentions | Backend/src/agents/code_generator_agent.py:90-92 | a `txt` block match always holds `requirements` once lowered, so the second test never rejects it |
| CodeGenerator.GroupMentions | Backend/src/agents/code_generator_agent.py:92 | a group holding the marker in any case holds it once lowered |
| CodeGenerator.CodeOf | Backend/src/agents/code_generator_agent.py:71-73 | the code is trimmed, never longer than the answer, and the whole answer trimmed when neither removal pattern matches |
| CodeGenerator.TxtRequirementsRemoved | Backend/src/agents/code_generator_agent.py:71-73 | a block tagged `txt:requirements.txt` among text without backticks is cut out of the code, and the rest is kept, trimmed |
| CodeGenerator.ColonRequirementsRemoved | Backend/src/agents/code_generator_agent.py:71-73 | a block tagged `:requirements.txt` among text without backticks is cut out of the code, and the rest is kept, trimmed |
| CodeGenerator.UnfencedUnchanged | Backend/src/agents/code_generator_agent.py:71-72 | removing a fenced block from text without backticks changes nothing |
| CodeGenerator.EmptyPlanRendered | Backend/src/agents/code_generator_agent.py:53 | every false-valued plan is rendered as `{}`, and every other plan by `json.dumps` |
| CodeGenerator.PlanText | Backend/src/agents/code_generator_agent.py:53 | definition of the plan text in the prompt; properties in EmptyPlanRendered |
| CodeGenerator.Process | Backend/src/agents/code_generator_agent.py:67-79 | `process` returns exactly the code, the requirements and the agent name |
| CodeGenerator.Reply | Backend/src/agents/code_generator_agent.py:75-79 | the reply holds the code, the requirements and the agent name under exactly those keys |
| CodeGenerator.NoFenceDefaults | Backend/src/agents/code_generator_agent.py:67-96 | text without backticks gives the default requirements and the whole text, trimmed, as code |
| CodeGenerator.EarlierTagsAbsent | Backend/src/agents/code_generator_agent.py:84 | where one requirements tag occurs, none tried before it does |
| CodeGenerator.RequirementsBlockExtracted | Backend/src/agents/code_generator_agent.py:84-87 | a block tagged `requirements.txt`, with or without `txt` and `:`, yields its body trimmed |
| CodeGenerator.PlainBlockKept | Backend/src/agents/code_generator_agent.py:71-87 | a block tagged plain `requirements.txt` is extracted as requirements but stays in the code |
| CodeGenerator.PlainBlockCode | Backend/src/agents/code_generator_agent.py:71-73 | the code of such a text is the whole text, trimmed |
| CodeGenerator.TxtBlockExtracted | Backend/src/agents/code_generator_agent.py:90-93 | a `txt` block mentioning requirements, with no requirements-tagged block, yields its body trimmed |
| CodeGenerator.TxtBlockOpens | Backend/src/agents/code_generator_agent.py:90 | a `txt` block opens with three backticks, `txt` and a line break |
| CodeGenerator.TxtRunsUntagged | Backend/src/agents/code_generator_agent.py:84-85 | a `txt` block does not match the requirements-tag pattern |
| CodeGenerator.RequirementsTagShape | Backend/src/agents/code_generator_agent.py:84 | each of the four tags is non-empty and does not start with a line break |
| CodeGenerator.RemovalMisses | Backend/src/agents/code_generator_agent.py:71-73 | with neither removal tag after a run of backticks, the code is the whole text trimmed |
| CodeGenerator.RunsUntagged | Backend/src/agents/code_generator_agent.py:71-72 | after the runs of a plain `requirements.txt` block neither removal tag occurs |
| CodeGenerator.TxtTagMismatch | Backend/src/agents/code_generator_agent.py:84 | after a `txt` opening, no requirements tag occurs |
| FileGenerator.DropPunctuation | Backend/src/utils/file_generator.py:48 | keeps only word characters, whitespace and hyphens: all of them when there is nothing else, none when there are none |
| FileGenerator.DropPunctuationSplits | Backend/src/utils/file_generator.py:48 | removal works character by character: it distributes over concatenation and keeps a single character exactly when it is a word character, whitespace or a hyphen |
| FileGenerator.SepRunEnd | Backend/src/utils/file_generator.py:49 | the end of a run of hyphens and whitespace |
| FileGenerator.Collapse | Backend/src/utils/file_generator.py:49 | collapsing runs of `[-\s]` leaves no doubled hyphen, starts with one exactly when the text starts with a separator, and is empty only for the empty text |
| FileGenerator.CollapseJoin | Backend/src/utils/file_generator.py:49 | collapsing distributes over a concatenation that does not join two separators |
| FileGenerator.CollapseRun | Backend/src/utils/file_generator.py:49 | a non-empty run of hyphens and whitespace becomes one hyphen |
| FileGenerator.CollapseHead | Backend/src/utils/file_generator.py:49 | a leading run of separators becomes one hyphen before the rest collapsed, and any other first character is kept |
| FileGenerator.CollapseFixed | Backend/src/utils/file_generator.py:49 | a text without whitespace or doubled hyphens is left as it is |
| FileGenerator.Truncate | Backend/src/utils/file_generator.py:50 | `s[:50]`: a prefix of at most 50 characters, the whole text when it is short enough |
| FileGenerator.ProjectNameShape | Backend/src/utils/file_generator.py:46-52 | every folder name is at most 50 word characters and single hyphens, and a missing or empty name becomes `project` |
| FileGenerator.ProjectName | Backend/src/utils/file_generator.py:46-52 | definition of the folder-name sanitising; properties in ProjectNameShape, PunctuationOnlyName, ProjectNameIdempotent and SanitizedFixed |
| FileGenerator.CollapsedWords | Backend/src/utils/file_generator.py:48-49 | collapsing a text of word characters, whitespace and hyphens leaves word characters and hyphens |
| FileGenerator.PunctuationOnlyName | Backend/src/utils/file_generator.py:46-50 | a non-empty name of punctuation only becomes the empty name, not `project` |
| FileGenerator.ProjectNameIdempotent | Backend/src/utils/file_generator.py:46-52 | sanitising a sanitised name changes nothing, except that an empty result then becomes `project` |
| FileGenerator.SanitizedFixed | Backend/src/utils/file_generator.py:46-50 | a name of at most 50 word characters and single hyphens sanitises to itself |
| FileGenerator.ExtractSql | Backend/src/utils/file_generator.py:242-254 | `_extract_sql_from_schema` never has outer whitespace |
| FileGenerator.CreateGroupMentions | Backend/src/utils/file_generator.py:248-251 | the body of an untagged block the second pattern takes mentions `CREATE` in some case |
| FileGenerator.SqlBlockTaken | Backend/src/utils/file_generator.py:242-245 | an `sql` block after text without backticks yields its body trimmed |
| FileGenerator.CreateBlockTaken | Backend/src/utils/file_generator.py:248-251 | an untagged block mentioning `CREATE` is taken when there is no `sql` block |
| FileGenerator.ExtractCode | Backend/src/utils/file_generator.py:480-503 | `_extract_code_from_markdown` never has outer whitespace |
| FileGenerator.PythonBlockTaken | Backend/src/utils/file_generator.py:491-494 | a `python` block after text without backticks yields its body trimmed |
| FileGenerator.PlainBlockTaken | Backend/src/utils/file_generator.py:497-500 | an untagged block is taken when there is no `python` block |
| FileGenerator.UntaggedOpens | Backend/src/utils/file_generator.py:497 | an untagged block's opening backticks are followed by a line break |
| FileGenerator.UnfencedKept | Backend/src/utils/file_generator.py:242-254 | text without backticks is kept whole, trimmed, by the SQL extractor and likewise by the code extractor (lines 491-503) |
| FileGenerator.Placed | Backend/src/utils/file_generator.py:370-385 | paths under `public/` or `src/` and bare JSON files stay put, every other path moves under `src/`, and the result is always in place |
| FileGenerator.BlockTargetIff | Backend/src/utils/file_generator.py:339-385 | a block is kept exactly when its trimmed body has at least 10 characters and its cleaned path is a configuration file or has a listed extension and at least 5 characters; it is then placed |
| FileGenerator.BlockTarget | Backend/src/utils/file_generator.py:339-386 | definition of the per-block tests; properties in BlockTargetIff, CommonWordsUnreachable and OnNeverKept |
| FileGenerator.CommonWordsUnreachable | Backend/src/utils/file_generator.py:362-368 | no path the earlier tests let through is a common word in any case, so that test never rejects a block |
| FileGenerator.ConfigNotCommon | Backend/src/utils/file_generator.py:356-362 | neither configuration file is a common word in any case |
| FileGenerator.ExtensionDotted | Backend/src/utils/file_generator.py:354 | every listed extension starts with a dot and has at least three characters |
| FileGenerator.DottedNotCommon | Backend/src/utils/file_generator.py:355-362 | a path ending in a listed extension is no common word |
| FileGenerator.CommonWordsShort | Backend/src/utils/file_generator.py:362 | no common word is longer than three characters or starts with a dot |
| FileGenerator.OnNeverKept | Backend/src/utils/file_generator.py:363-368 | a block whose path is `on` is never kept |
| FileGenerator.ShortNoExtension | Backend/src/utils/file_generator.py:354-356 | a path shorter than three characters has no listed extension and is no configuration file |
| FileGenerator.CleanOn | Backend/src/utils/file_generator.py:339-351 | cleaning leaves the path `on` as it is |
| FileGenerator.CleanPath | Backend/src/utils/file_generator.py:351 | definition of the path cleaning; properties in CleanOn and BlockTargetIff |
| FileGenerator.FrontendBlocks | Backend/src/utils/file_generator.py:334-335 | the matched blocks, each within the text |
| FileGenerator.Outcomes | Backend/src/utils/file_generator.py:338-344 | each block's target and trimmed content, in order of the matches |
| FileGenerator.SaveAllLast | Backend/src/utils/file_generator.py:396-401 | a path holds a file exactly when some block is saved there, and the file is the content of the last such block |
| FileGenerator.SaveAll | Backend/src/utils/file_generator.py:338-401 | definition of the writes of the kept blocks in order; properties in SaveAllLast, SkippedSaveNothing and SaveBlocks |
| FileGenerator.SkippedSaveNothing | Backend/src/utils/file_generator.py:338-401 | blocks that are all skipped write no file |
| FileGenerator.FallbackOnlyWithoutBlocks | Backend/src/utils/file_generator.py:337-410 | the single `src/App.jsx` fallback happens only when no block matches; when blocks match and all are rejected, nothing is written |
| FileGenerator.FrontendFilesPlaced | Backend/src/utils/file_generator.py:343-401 | every frontend file sits in place, and a file taken from a block holds at least 10 characters |
| FileGenerator.FrontendFiles | Backend/src/utils/file_generator.py:334-410 | definition of what `save_frontend` writes; properties in FallbackOnlyWithoutBlocks, FrontendFilesPlaced and SaveFrontend |
| FileGenerator.SaveFrontend | Backend/src/utils/file_generator.py:322-412 | `save_frontend` writes the frontend files and returns each one's full path under the project's `frontend` folder |
| FileGenerator.SaveBlocks | Backend/src/utils/file_generator.py:338-401 | the loop over the matched blocks writes the kept ones in order and records each saved path |
| FileGenerator.RequirementsFile | Backend/src/utils/file_generator.py:198-199 | `save_requirements` writes the given requirements when they are non-empty, and exactly the fixed default list when they are missing or empty, so never an empty file |
| FileGenerator.Under | Backend/src/utils/file_generator.py:388 | moving files under a folder keeps every file and adds none |
| FileGenerator.AddOptional | Backend/src/utils/file_generator.py:461-476 | an optional file is written exactly when it has content |
| FileGenerator.AddNothing | Backend/src/utils/file_generator.py:461-476 | adding no files changes nothing |
| FileGenerator.FixedPathLengths | Backend/src/utils/file_generator.py:451-476 | the fixed paths have eight different lengths, so they are distinct |
| FileGenerator.FixedOutsideFrontend | Backend/src/utils/file_generator.py:451-476 | no fixed path lies under `frontend/` |
| FileGenerator.FrontendPartUnder | Backend/src/utils/file_generator.py:469-472 | every file under `frontend/` is a frontend file |
| FileGenerator.TreeKeys | Backend/src/utils/file_generator.py:451-476 | a path of the project is a fixed path or a file under `frontend/` |
| FileGenerator.TreeOnFixed | Backend/src/utils/file_generator.py:451-476 | the fixed-path files of the project are those of the backend part |
| FileGenerator.FixedFilesLayout | Backend/src/utils/file_generator.py:451-458 | ARCHITECTURE.md, database/schema.sql, main.py, README.md and requirements.txt are always written, with their contents |
| FileGenerator.BaseFilesLayout | Backend/src/utils/file_generator.py:451-458 | the five files that are always written, each at its own path |
| FileGenerator.BaseFileInTree | Backend/src/utils/file_generator.py:451-476 | no later file replaces one of the five that are always written |
| FileGenerator.OptionalElsewhere | Backend/src/utils/file_generator.py:461-476 | an optional file at another path leaves an entry as it was |
| FileGenerator.OptionalFilesLayout | Backend/src/utils/file_generator.py:461-476 | docs/api_route_plan.json, docs/api_documentation.json and tests/test_main.py are there exactly when they are written |
| FileGenerator.TreeFrontendFiles | Backend/src/utils/file_generator.py:469-472 | the files under `frontend/` are exactly the frontend files, when there are any |
| FileGenerator.KeyNamesDistinct | Backend/src/utils/file_generator.py:451-476 | different keys of the result dictionary are spelled differently |
| FileGenerator.JoinThrough | Backend/src/utils/file_generator.py:218-229 | joining a folder and then a name is joining the path through that folder |
| FileGenerator.PathJoin | Backend/src/utils/file_generator.py:58 | definition of `os.path.join` for two parts; properties in JoinThrough and NestedJoins |
| FileGenerator.NestedJoins | Backend/src/utils/file_generator.py:218-229 | the nested path of the schema, and likewise those `save_tests`, `save_api_route_plan` and `save_api_documentation` build, are the project path joined with their relative paths |
| FileGenerator.ResultKeysIff | Backend/src/utils/file_generator.py:451-476 | the six keys are always there, and each optional key exactly when its part is written |
| FileGenerator.KeyPathInTree | Backend/src/utils/file_generator.py:451-476 | the file of each key is in the project when its part is written |
| FileGenerator.ContentsOf | Backend/src/utils/file_generator.py:448-478 | definition of the text of each file `generate_project` writes; properties in FixedFilesLayout and OptionalFilesLayout |
| FileGenerator.Tree | Backend/src/utils/file_generator.py:448-478 | definition of the folder after all writes; properties in TreeKeys, TreeOnFixed, BaseFileInTree, OptionalFilesLayout and TreeFrontendFiles |
| FileGenerator.ProjectTree | Backend/src/utils/file_generator.py:448-478 | definition of the folder for a request; GenerateProject is proved to leave it |
| FileGenerator.ResultFiles | Backend/src/utils/file_generator.py:451-478 | definition of the returned dictionary; properties in ResultKeysIff, ResultListing and GenerateProject |
| FileGenerator.FrontendListing | Backend/src/utils/file_generator.py:469-471 | the `frontend_files` value lists exactly the written relative paths |
| FileGenerator.SavedListing | Backend/src/utils/file_generator.py:399-400 | files saved under the frontend folder are listed by their full paths |
| FileGenerator.ResultListing | Backend/src/utils/file_generator.py:469-471 | the dictionary has `frontend_files` only when the frontend was saved, and then it holds the saved listing |
| FileGenerator.GenerateProject | Backend/src/utils/file_generator.py:414-478 | `generate_project` writes the project tree, and returns the folder path and each written file's path under exactly the keys whose parts were given; `frontend_files` maps each written frontend file's relative path to its full path under the `frontend` folder |
| UsageTracker.NewRecord | Backend/src/tracking/usage_tracker.py:63-70 | a recorded event counts one call, with total_tokens = input_tokens + output_tokens |
| UsageTracker.CallsCounted | Backend/src/tracking/usage_tracker.py:90 | counting calls counts records |
| UsageTracker.SumBy | Backend/src/tracking/usage_tracker.py:91-93 | definition of a sum over records; properties in CallsCounted and SumAppend |
| UsageTracker.SumAppend | Backend/src/tracking/usage_tracker.py:91-93 | a record appended adds its amount to a sum |
| UsageTracker.Totals | Backend/src/tracking/usage_tracker.py:88-101 | the total of calls is the number of records, records_count equals it, and the token totals are sums over all records |
| UsageTracker.TotalsAfterRecord | Backend/src/tracking/usage_tracker.py:63-101 | recording an event grows the calls by one and each token total by the event's share |
| UsageTracker.ForAgentKeeps | Backend/src/tracking/usage_tracker.py:117-119 | the filter keeps exactly the agent's records, each as often as it occurs |
| UsageTracker.ForAgent | Backend/src/tracking/usage_tracker.py:117-119 | definition of the filter by agent name; properties in ForAgentKeeps, ForAgentNone and ForAgentAppend |
| UsageTracker.ForAgentNone | Backend/src/tracking/usage_tracker.py:117-119 | an agent without records has none in the filter |
| UsageTracker.ForAgentAppend | Backend/src/tracking/usage_tracker.py:117-119 | a record appended joins the filter of its own agent only |
| UsageTracker.UsageOfMetric | Backend/src/tracking/usage_tracker.py:117-132 | each per-agent figure is the sum over that agent's records only |
| UsageTracker.UsageOf | Backend/src/tracking/usage_tracker.py:105-134 | definition of one agent's statistics; properties in UsageOfMetric, UsageOfAbsent and UsageOfAppend |
| UsageTracker.UsageOfAbsent | Backend/src/tracking/usage_tracker.py:121-132 | an agent that never called has all figures zero |
| UsageTracker.UsageOfAppend | Backend/src/tracking/usage_tracker.py:117-132 | a record appended grows its own agent's figures by its share, and no other's |
| UsageTracker.AgentsAreNames | Backend/src/tracking/usage_tracker.py:148-157 | the agents are distinct and are exactly the names on the records |
| UsageTracker.Agents | Backend/src/tracking/usage_tracker.py:145-158 | definition of the agent names in order of first appearance; properties in AgentsAreNames, AgentsAppend and AgentsInFirstOrder |
| UsageTracker.AgentsAppend | Backend/src/tracking/usage_tracker.py:150-157 | a record of a new agent adds that agent at the end, and one of a known agent adds nothing |
| UsageTracker.AgentsInFirstOrder | Backend/src/tracking/usage_tracker.py:148-165 | agents come in the order of their first records |
| UsageTracker.Entries | Backend/src/tracking/usage_tracker.py:165 | one entry per listed agent |
| UsageTracker.EntriesAt | Backend/src/tracking/usage_tracker.py:165 | each entry is the statistics of the agent at its position |
| UsageTracker.AllAgentsEntries | Backend/src/tracking/usage_tracker.py:148-165 | one entry per distinct agent, in order of first appearance, each the statistics of that agent's records, and every record's agent has one |
| UsageTracker.AllAgentsUsage | Backend/src/tracking/usage_tracker.py:136-165 | definition of the per-agent table; properties in AllAgentsEntries, AllAgentsAddUp and GetAllAgentsUsage |
| UsageTracker.EntriesOfNothing | Backend/src/tracking/usage_tracker.py:148-165 | over no records every entry is zero |
| UsageTracker.EntriesAppend | Backend/src/tracking/usage_tracker.py:159-163 | a record appended adds its amount to the entries of distinct agents when its agent is among them |
| UsageTracker.EntriesCover | Backend/src/tracking/usage_tracker.py:159-163 | over distinct agents that include every record's agent, the entries add up to the global total |
| UsageTracker.AllAgentsAddUp | Backend/src/tracking/usage_tracker.py:159-163 | summing any figure across the all-agents entries gives the global total |
| UsageTracker.OpenAgent | Backend/src/tracking/usage_tracker.py:150-157 | a first record of an agent opens an entry of zeros for it at the end of the order |
| UsageTracker.KnownAgent | Backend/src/tracking/usage_tracker.py:150 | another record of an agent with an entry leaves the agents as they are |
| UsageTracker.TallyStep | Backend/src/tracking/usage_tracker.py:159-163 | counting the record in its agent's entry gives the state after it |
| UsageTracker.TallyValues | Backend/src/tracking/usage_tracker.py:159-163 | counting a record changes its own agent's entry by its share and no other's |
| UsageTracker.TalliedEntries | Backend/src/tracking/usage_tracker.py:165 | the entries in the order of the agents are the usage of every agent |
| UsageTracker.Tracker.constructor | Backend/src/tracking/usage_tracker.py:34-39 | a tracker over the records already in the table |
| UsageTracker.Tracker.RecordUsage | Backend/src/tracking/usage_tracker.py:45-72 | exactly one record is appended, the new event's |
| UsageTracker.Tracker.GetTotalUsage | Backend/src/tracking/usage_tracker.py:79-101 | the totals over all records |
| UsageTracker.Tracker.GetUsageByAgent | Backend/src/tracking/usage_tracker.py:105-132 | the agent's name and, for each figure, the sum over that agent's records only |
| UsageTracker.Tracker.GetAllAgentsUsage | Backend/src/tracking/usage_tracker.py:136-165 | the loop over the records yields one entry per agent, in order of first appearance, with each agent's statistics |

## Left out

- The language-model calls are not modelled: `GeminiService`, `_call_llm` and the prompt templates. A model answer is an arbitrary input string.
- `json.loads` is the oracle `parse`. A text it rejects is the `JSONDecodeError` case. No JSON grammar is modelled.
- A JSON float is its exact real value. Floating-point rounding, `nan` and the infinities are not modelled.
- `json.dumps` and `json.dump` are the oracle `dumps`. The indentation they produce is not modelled.
- The architect, test-generator and frontend-generator agents only forward to the language model. Only their tool names and parameter lists are kept, as the handlers the orchestrator's calls reach; the tool bodies are the oracle `run`.
- The database, route-planner and code-generator agents' tool entry points (`create_database_schema`, `plan_api_routes`, `generate_code`) are not modelled beyond their signatures, since they only call `process`.
- Server.MCPAgent.constructor: `server or mcp_server` (`Backend/src/mcp/server.py:176`) falls back to the shared server when none is given. The model always takes an explicit server, which is what every call in the core passes.
- The FastAPI layer (`Backend/src/api/main.py`, `Backend/src/main.py`) is not modelled.
- Concurrency is not modelled. The server's lock is left out and the server is sequential, so a handler that calls back into the server, which would deadlock on the non-reentrant lock, is not modelled.
- The server's `message_handlers` dictionary is left out. Nothing in the core reads it.
- pydantic's field type checking of messages is left out. Messages are built from well-typed values.
- `uuid.uuid4()` ids are drawn from oracle parameters, and freshness is not modelled.
- Timestamps are parameters. The class-level default timestamp of a message is one opaque constant.
- The filesystem is a map from relative path to contents. Directory creation, existing files in a reused folder, `OUTPUT_DIR`, text encoding and write failures are left out. A write failure would leave the earlier files in place.
- FileGenerator.SaveAll, FileGenerator.GenerateProject: frontend paths are compared as strings. `os.path.join` followed by the filesystem resolves `.`, `..` and doubled `/`, so `src/./App.jsx` and `src/App.jsx` are one file on disk but two keys in the model, and a kept path like `src/../../docs/api_route_plan.json` overwrites a docs file on disk while the model adds a separate key under `frontend/`. The properties about the tree (SaveAllLast, OptionalFilesLayout, BaseFileInTree, TreeFrontendFiles) hold for the map of path strings, and for the disk only when no kept path has such segments.
- Case-insensitive matching and `lower()` cover ASCII letters only. `\w` is ASCII letters, digits and `_`, so non-ASCII letters in a project name are dropped where Python keeps them.
- `\s` is Python's set of whitespace characters.
- Python's exception texts are modelled only where the model states them: the binding `TypeError`, the `AttributeError` of `.get`, and the errors of `in` and `[]`.
- `_extract_python_from_schema` (`Backend/src/utils/file_generator.py:256-272`) is not modelled, because nothing in the core calls it.
- Of `save_architecture`, `save_code`, `save_tests`, `save_readme`, `save_api_route_plan` and `save_api_documentation`, only the path and the contents each one writes are modelled. In `generate_project` they are reached through the layout.
- FileGenerator.ReadmeText: the README text is modelled as the fixed template, and no property is stated about it.
- The usage tracker's SQLAlchemy engine, sessions, commit and rollback are not modelled, and neither are the exception path of `record_usage` (`Backend/src/tracking/usage_tracker.py:73-77`) or a record's database id and timestamp.
- UsageTracker.Tracker.GetAllAgentsUsage: each entry's four in-place counter increments (`Backend/src/tracking/usage_tracker.py:160-163`) are modelled as one update of the agent's entry by the record's share.
- Token counts are unbounded integers. The table stores them in SQLite `Integer` columns, which hold 64 bits; a larger count would fail in `record_usage`, and that exception path is left out (see above).
- UsageTracker.Tracker.GetAllAgentsUsage: the queries at `Backend/src/tracking/usage_tracker.py:88`, `:117` and `:145` have no `order_by`. The model reads the records in insertion order, so "in order of first appearance" assumes the database returns rows in that order.
- The concrete generated projects under `Backend/generated_projects/` are output samples and are not modelled.
