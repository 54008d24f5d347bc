/** The in-process message server: registered agents, registered tools and one inbox per
    agent, with request dispatch to tool functions, and the agent handle that sends
    requests through it. Tool functions are modelled by their signatures, for CPython's
    argument binding, and by a behaviour oracle for their bodies. */
module Server {
  import opened Values
  import opened Strings
  import opened Messages

  /** A callable registered as a tool: the qualified name CPython reports in a `TypeError`,
      the parameters without a default, the parameters with one, and which body it runs. */
  datatype Handler = Handler(qualname: string, required: seq<string>, optional: seq<string>, body: nat)

  /** What running a tool body does: return a value or raise an exception with this text. */
  datatype Outcome = Returned(value: Json) | Raised(text: string)

  /** The bodies of the tool functions, given their bound keyword arguments. */
  type Behaviour = (Handler, map<string, Json>) -> Outcome

  /** Some keyword argument is called `name`. */
  predicate HasName(params: Params, name: string)
  {
    exists i :: 0 <= i < |params| && params[i].name == name
  }

  /** The first keyword argument from index `i` on that names no parameter of the callable. */
  function UnexpectedFrom(names: seq<string>, params: Params, i: nat): (r: Option<nat>)
    requires i <= |params|
    ensures r.Some? ==> i <= r.value < |params| && params[r.value].name !in names
    ensures r.Some? ==> forall j :: i <= j < r.value ==> params[j].name in names
    ensures r.None? ==> forall j :: i <= j < |params| ==> params[j].name in names
    decreases |params| - i
  {
    if i == |params| then None
    else if params[i].name !in names then Some(i)
    else UnexpectedFrom(names, params, i + 1)
  }

  /** The parameters without a default that no keyword argument supplies, in declaration order. */
  function Missing(required: seq<string>, params: Params): (r: seq<string>)
    ensures forall n :: n in r <==> n in required && !HasName(params, n)
  {
    if required == [] then []
    else
      var rest := Missing(required[1..], params);
      if HasName(params, required[0]) then rest else [required[0]] + rest
  }

  /** A parameter name as `repr` prints it. */
  function Quoted(name: string): string
  {
    "'" + name + "'"
  }

  /** Quoted names separated by commas. */
  function CommaList(names: seq<string>): string
  {
    if names == [] then ""
    else if |names| == 1 then Quoted(names[0])
    else Quoted(names[0]) + ", " + CommaList(names[1..])
  }

  /** The names in CPython's list of missing arguments: `'a'`, `'a' and 'b'`,
      `'a', 'b', and 'c'`. */
  function MissingList(names: seq<string>): string
  {
    if |names| <= 1 then CommaList(names)
    else if |names| == 2 then Quoted(names[0]) + " and " + Quoted(names[1])
    else CommaList(names[..|names| - 2]) + ", " + Quoted(names[|names| - 2]) + ", and " + Quoted(names[|names| - 1])
  }

  /** The `TypeError` text for a keyword argument that names no parameter. */
  function UnexpectedKeyword(qualname: string, name: string): string
  {
    qualname + "() got an unexpected keyword argument '" + name + "'"
  }

  /** The `TypeError` text of calling the callable with these keyword arguments, if the
      call cannot bind (CPython 3.10 onwards): keyword arguments are checked in order
      first, then the parameters left without a value. */
  function BindError(h: Handler, params: Params): (r: Option<string>)
    ensures r.None? <==>
      (forall j :: 0 <= j < |params| ==> params[j].name in h.required + h.optional) &&
      (forall n :: n in h.required ==> HasName(params, n))
    ensures UnexpectedFrom(h.required + h.optional, params, 0).Some? ==>
      r == Some(UnexpectedKeyword(h.qualname, params[UnexpectedFrom(h.required + h.optional, params, 0).value].name))
  {
    match UnexpectedFrom(h.required + h.optional, params, 0)
    case Some(j) => Some(UnexpectedKeyword(h.qualname, params[j].name))
    case None =>
      var m := Missing(h.required, params);
      if m == [] then None
      else
        assert m[0] in m;
        var plural := if |m| == 1 then "" else "s";
        Some(h.qualname + "() missing " + NatToString(|m|) + " required positional argument" + plural + ": " + MissingList(m))
  }

  /** The keyword arguments as the dictionary the callee receives. */
  function Arguments(params: Params): (args: map<string, Json>)
    ensures forall n :: n in args <==> HasName(params, n)
  {
    if params == [] then map[]
    else
      var m := Arguments(params[..|params| - 1]);
      assert forall n :: HasName(params, n) <==> HasName(params[..|params| - 1], n) || params[|params| - 1].name == n by {
        forall n | HasName(params, n) ensures HasName(params[..|params| - 1], n) || params[|params| - 1].name == n {
          var i :| 0 <= i < |params| && params[i].name == n;
          if i < |params| - 1 { assert params[..|params| - 1][i] == params[i]; }
        }
        forall n | HasName(params[..|params| - 1], n) ensures HasName(params, n) {
          var i :| 0 <= i < |params| - 1 && params[..|params| - 1][i].name == n;
          assert params[i].name == n;
        }
      }
      m[params[|params| - 1].name := params[|params| - 1].value]
  }

  /** The key under which an agent's tool is registered. */
  function ToolKey(agent: string, tool: string): string
  {
    agent + "." + tool
  }

  /** The tool a request reaches: the one registered under the agent-prefixed key if there
      is one, otherwise the one registered under the bare tool name. */
  function Resolve(tools: map<string, Handler>, agent: string, tool: string): (r: Option<Handler>)
    ensures ToolKey(agent, tool) in tools ==> r == Some(tools[ToolKey(agent, tool)])
    ensures ToolKey(agent, tool) !in tools && tool in tools ==> r == Some(tools[tool])
    ensures r.None? <==> ToolKey(agent, tool) !in tools && tool !in tools
  {
    if ToolKey(agent, tool) in tools then Some(tools[ToolKey(agent, tool)])
    else if tool in tools then Some(tools[tool])
    else None
  }

  /** A tool registered under an agent's prefixed key is the one its requests reach,
      whatever is registered under the bare name. */
  lemma PrefixedToolWins(tools: map<string, Handler>, agent: string, tool: string, h: Handler, other: Handler)
    ensures Resolve(tools[tool := other][ToolKey(agent, tool) := h], agent, tool) == Some(h)
  {
  }

  /** The failed answer to a message, sent back from its recipient with this error text. */
  function Failure(m: Message, id: string, text: string): (r: Message)
    ensures r.MCPResponse? && !r.success && r.result == JNull && r.errorMessage == Some(text)
    ensures r.fromAgent == m.toAgent && r.toAgent == m.fromAgent && r.correlationId == Some(m.messageId)
    ensures r.messageId == id && r.content == map[] && r.messageType == Response
  {
    MCPResponse(id, m.toAgent, m.fromAgent, map[], JNull, false, Some(text), correlationId := Some(m.messageId))
  }

  /** The successful answer to a request, carrying the tool's value. */
  function Success(m: Message, id: string, value: Json): (r: Message)
    ensures r.MCPResponse? && r.success && r.result == value && r.errorMessage == None
    ensures r.fromAgent == m.toAgent && r.toAgent == m.fromAgent && r.correlationId == Some(m.messageId)
    ensures r.messageId == id && r.content == map[] && r.messageType == Response
  {
    MCPResponse(id, m.toAgent, m.fromAgent, map[], value, correlationId := Some(m.messageId))
  }

  /** The answer to a message whose recipient is not registered. */
  function AgentNotFound(m: Message, id: string): (r: Message)
    ensures r == Failure(m, id, "Agent " + m.toAgent + " not found")
  {
    Failure(m, id, "Agent " + m.toAgent + " not found")
  }

  /** Handling a request: find the tool, bind the parameters, run the body. Every miss and
      every exception becomes a failed response; nothing is raised. */
  function Dispatch(tools: map<string, Handler>, req: Message, id: string, run: Behaviour): (r: Message)
    requires req.MCPRequest?
    ensures r.MCPResponse? && r.messageId == id && r.correlationId == Some(req.messageId)
    ensures r.fromAgent == req.toAgent && r.toAgent == req.fromAgent && r.content == map[]
    ensures r.success ==> r.errorMessage == None
    ensures !r.success ==> r.result == JNull && r.errorMessage.Some?
    ensures Resolve(tools, req.toAgent, req.tool).None? ==>
      !r.success && r.errorMessage == Some("Tool " + req.tool + " not found for agent " + req.toAgent)
    ensures r.success <==>
      Resolve(tools, req.toAgent, req.tool).Some? &&
      BindError(Resolve(tools, req.toAgent, req.tool).value, req.parameters).None? &&
      run(Resolve(tools, req.toAgent, req.tool).value, Arguments(req.parameters)).Returned?
  {
    match Resolve(tools, req.toAgent, req.tool)
    case None => Failure(req, id, "Tool " + req.tool + " not found for agent " + req.toAgent)
    case Some(h) =>
      match BindError(h, req.parameters)
      case Some(e) => Failure(req, id, e)
      case None =>
        match run(h, Arguments(req.parameters))
        case Returned(v) => Success(req, id, v)
        case Raised(t) => Failure(req, id, t)
  }

  /** A call whose arguments bind yields the tool's value on success and the exception's
      text on failure. */
  lemma DispatchOutcome(tools: map<string, Handler>, req: Message, id: string, run: Behaviour, h: Handler)
    requires req.MCPRequest? && Resolve(tools, req.toAgent, req.tool) == Some(h)
    requires BindError(h, req.parameters).None?
    ensures run(h, Arguments(req.parameters)).Returned? ==>
      Dispatch(tools, req, id, run).result == run(h, Arguments(req.parameters)).value
    ensures run(h, Arguments(req.parameters)).Raised? ==>
      Dispatch(tools, req, id, run).errorMessage == Some(run(h, Arguments(req.parameters)).text)
  {
  }

  /** A call that cannot bind fails with the `TypeError` text, and the body never runs. */
  lemma DispatchBindFailure(tools: map<string, Handler>, req: Message, id: string, run: Behaviour, h: Handler)
    requires req.MCPRequest? && Resolve(tools, req.toAgent, req.tool) == Some(h)
    requires BindError(h, req.parameters).Some?
    ensures Dispatch(tools, req, id, run) == Failure(req, id, BindError(h, req.parameters).value)
  {
  }

  /** The inboxes after a message is delivered: appended to the end of its recipient's
      inbox when the recipient is registered, otherwise every inbox as before. */
  function Delivered(queue: map<string, seq<Message>>, agents: set<string>, m: Message): (r: map<string, seq<Message>>)
    requires agents <= queue.Keys
    ensures r.Keys == queue.Keys
    ensures forall a :: a in queue && a != m.toAgent ==> r[a] == queue[a]
    ensures m.toAgent in agents ==> r[m.toAgent] == queue[m.toAgent] + [m]
    ensures m.toAgent !in agents ==> r == queue
  {
    if m.toAgent in agents then queue[m.toAgent := queue[m.toAgent] + [m]] else queue
  }

  /** What `send_message` answers: a failure for an unknown recipient, the dispatcher's
      response for a request, nothing for any other message. */
  function Answer(tools: map<string, Handler>, agents: set<string>, m: Message, id: string, run: Behaviour): (r: Option<Message>)
    ensures m.toAgent !in agents ==> r == Some(AgentNotFound(m, id))
    ensures m.toAgent in agents && m.MCPRequest? ==> r == Some(Dispatch(tools, m, id, run))
    ensures m.toAgent in agents && !m.MCPRequest? ==> r == None
    ensures r.Some? ==> r.value.MCPResponse?
  {
    if m.toAgent !in agents then Some(AgentNotFound(m, id))
    else if m.MCPRequest? then Some(Dispatch(tools, m, id, run))
    else None
  }

  const FailedPrefix := "Tool execution failed: "

  /** An optional error text as an f-string renders it. */
  function ErrorText(e: Option<string>): string
  {
    match e
    case Some(t) => t
    case None => "None"
  }

  /** How `send_request` turns an answer into a value or a raised error. */
  function Settle(answer: Option<Message>): (r: Result<Json, string>)
    requires answer.Some? ==> answer.value.MCPResponse?
    ensures answer.Some? && answer.value.success ==> r == Ok(answer.value.result)
    ensures answer.Some? && !answer.value.success ==> r == Err(FailedPrefix + ErrorText(answer.value.errorMessage))
    ensures answer.None? ==> r == Err("No response received")
  {
    match answer
    case None => Err("No response received")
    case Some(resp) =>
      if resp.success then Ok(resp.result)
      else Err(FailedPrefix + ErrorText(resp.errorMessage))
  }

  /** The request `send_request` builds. */
  function NewRequest(id: string, from: string, to: string, tool: string, params: Params): (m: Message)
    ensures m.MCPRequest? && m.messageId == id && m.fromAgent == from && m.toAgent == to
    ensures m.tool == tool && m.parameters == params && m.content == map[] && m.correlationId == None
  {
    MCPRequest(id, from, to, map[], tool, params)
  }

  /** The outcome of one request sent to a server with these agents and tools: the tool's
      value exactly when the recipient is registered, the tool is found, the arguments
      bind and the body returns; otherwise an error that names the reason. */
  function CallOutcome(agents: set<string>, tools: map<string, Handler>, req: Message, id: string, run: Behaviour): (r: Result<Json, string>)
    requires req.MCPRequest?
    ensures r.Ok? <==>
      req.toAgent in agents && Resolve(tools, req.toAgent, req.tool).Some? &&
      BindError(Resolve(tools, req.toAgent, req.tool).value, req.parameters).None? &&
      run(Resolve(tools, req.toAgent, req.tool).value, Arguments(req.parameters)).Returned?
    ensures r.Ok? ==> r.value == run(Resolve(tools, req.toAgent, req.tool).value, Arguments(req.parameters)).value
    ensures req.toAgent !in agents ==> r == Err(FailedPrefix + "Agent " + req.toAgent + " not found")
    ensures r.Err? ==> |FailedPrefix| <= |r.error| && r.error[..|FailedPrefix|] == FailedPrefix
  {
    var answer := Answer(tools, agents, req, id, run);
    var r := Settle(answer);
    assert FailedPrefix + "Agent " + req.toAgent + " not found" == FailedPrefix + ("Agent " + req.toAgent + " not found");
    assert r.Err? ==> r.error[..|FailedPrefix|] == FailedPrefix;
    if r.Ok? then
      DispatchOutcome(tools, req, id, run, Resolve(tools, req.toAgent, req.tool).value);
      r
    else r
  }

  /** Sending one message through a server, as a caller sees it: the message and the
      fresh id of its answer, to the value returned or the error raised. */
  type Dispatcher = (Message, string) -> Result<Json, string>

  /** The dispatcher of a server with these agents and tools. */
  function Caller(agents: set<string>, tools: map<string, Handler>, run: Behaviour): Dispatcher
  {
    (m: Message, id: string) => Settle(Answer(tools, agents, m, id, run))
  }

  /** For a request, the dispatcher gives the request's outcome. */
  lemma CallerOutcome(agents: set<string>, tools: map<string, Handler>, run: Behaviour, req: Message, id: string)
    requires req.MCPRequest?
    ensures Caller(agents, tools, run)(req, id) == CallOutcome(agents, tools, req, id, run)
  {
  }

  /** A request never goes unanswered, so `send_request` never reports a missing response. */
  lemma RequestAlwaysAnswered(agents: set<string>, tools: map<string, Handler>, req: Message, id: string, run: Behaviour)
    requires req.MCPRequest?
    ensures CallOutcome(agents, tools, req, id, run) != Err("No response received")
  {
    assert |"No response received"| < |FailedPrefix|;
  }

  /** The server. Every registered agent has an inbox; an inbox may outlive its agent's
      registration only through `GetMessages`, which creates inboxes on demand. */
  class MCPServer {
    var agents: map<string, MCPAgent>
    var tools: map<string, Handler>
    var messageQueue: map<string, seq<Message>>

    predicate Valid()
      reads this
    {
      agents.Keys <= messageQueue.Keys
    }

    constructor ()
      ensures Valid()
      ensures agents == map[] && tools == map[] && messageQueue == map[]
    {
      agents := map[];
      tools := map[];
      messageQueue := map[];
    }

    /** Registers an agent and empties its inbox, even if it was registered before. */
    method RegisterAgent(name: string, agent: MCPAgent)
      requires Valid()
      modifies this
      ensures Valid()
      ensures agents == old(agents)[name := agent]
      ensures messageQueue == old(messageQueue)[name := []]
      ensures tools == old(tools)
    {
      agents := agents[name := agent];
      messageQueue := messageQueue[name := []];
    }

    /** Registers a tool; a later registration under the same key replaces the earlier one. */
    method RegisterTool(name: string, h: Handler)
      requires Valid()
      modifies this
      ensures Valid()
      ensures tools == old(tools)[name := h]
      ensures agents == old(agents) && messageQueue == old(messageQueue)
    {
      tools := tools[name := h];
    }

    /** Delivers a message and, for a request, dispatches it at once. `id` is the fresh id
      of the answer, if there is one. */
    method SendMessage(m: Message, id: string, run: Behaviour) returns (r: Option<Message>)
      requires Valid()
      modifies this
      ensures Valid()
      ensures r == Answer(old(tools), old(agents).Keys, m, id, run)
      ensures messageQueue == Delivered(old(messageQueue), old(agents).Keys, m)
      ensures agents == old(agents) && tools == old(tools)
    {
      if m.toAgent !in agents {
        return Some(AgentNotFound(m, id));
      }
      messageQueue := messageQueue[m.toAgent := messageQueue[m.toAgent] + [m]];
      if m.MCPRequest? {
        r := Some(Dispatch(tools, m, id, run));
      } else {
        r := None;
      }
    }

    /** Returns an agent's pending messages in arrival order and leaves its inbox empty. */
    method GetMessages(name: string) returns (msgs: seq<Message>)
      requires Valid()
      modifies this
      ensures Valid()
      ensures msgs == (if name in old(messageQueue) then old(messageQueue)[name] else [])
      ensures messageQueue == old(messageQueue)[name := []]
      ensures agents == old(agents) && tools == old(tools)
    {
      msgs := if name in messageQueue then messageQueue[name] else [];
      messageQueue := messageQueue[name := []];
    }

    /** Removes an agent and its inbox; its tools stay registered. */
    method UnregisterAgent(name: string)
      requires Valid()
      modifies this
      ensures Valid()
      ensures agents == old(agents) - {name}
      ensures messageQueue == old(messageQueue) - {name}
      ensures tools == old(tools)
    {
      agents := agents - {name};
      messageQueue := messageQueue - {name};
    }
  }

  /** An agent registered with a server under its name. */
  class MCPAgent {
    const name: string
    const server: MCPServer

    /** Creates the agent and registers it, which empties its inbox. */
    constructor (name: string, server: MCPServer)
      requires server.Valid()
      modifies server
      ensures this.name == name && this.server == server && server.Valid()
      ensures server.agents == old(server.agents)[name := this]
      ensures server.messageQueue == old(server.messageQueue)[name := []]
      ensures server.tools == old(server.tools)
    {
      this.name := name;
      this.server := server;
      new;
      server.RegisterAgent(name, this);
    }

    /** Sends a request from this agent and returns the tool's value, or the error raised
      for a failure. `requestId` and `responseId` are the two fresh ids the call draws. */
    method SendRequest(toAgent: string, tool: string, params: Params, requestId: string, responseId: string, run: Behaviour)
      returns (r: Result<Json, string>)
      requires server.Valid()
      modifies server
      ensures server.Valid()
      ensures r == CallOutcome(old(server.agents).Keys, old(server.tools), NewRequest(requestId, name, toAgent, tool, params), responseId, run)
      ensures server.messageQueue == Delivered(old(server.messageQueue), old(server.agents).Keys, NewRequest(requestId, name, toAgent, tool, params))
      ensures server.agents == old(server.agents) && server.tools == old(server.tools)
    {
      var request := NewRequest(requestId, name, toAgent, tool, params);
      var response := server.SendMessage(request, responseId, run);
      r := Settle(response);
    }

    /** Drains this agent's own inbox. */
    method ReceiveMessages() returns (msgs: seq<Message>)
      requires server.Valid()
      modifies server
      ensures server.Valid()
      ensures msgs == (if name in old(server.messageQueue) then old(server.messageQueue)[name] else [])
      ensures server.messageQueue == old(server.messageQueue)[name := []]
      ensures server.agents == old(server.agents) && server.tools == old(server.tools)
    {
      msgs := server.GetMessages(name);
    }
  }

  /** Two drains in a row: the pending messages, then nothing; the other inboxes are left
      alone. */
  method DrainTwice(s: MCPServer, name: string) returns (first: seq<Message>, second: seq<Message>)
    requires s.Valid()
    modifies s
    ensures first == (if name in old(s.messageQueue) then old(s.messageQueue)[name] else [])
    ensures second == []
    ensures s.messageQueue.Keys == old(s.messageQueue).Keys + {name}
    ensures forall a :: a in old(s.messageQueue) && a != name ==> s.messageQueue[a] == old(s.messageQueue)[a]
  {
    first := s.GetMessages(name);
    second := s.GetMessages(name);
  }
}
