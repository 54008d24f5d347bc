/** The client each agent uses to talk to the shared server: it registers the agent, calls
    other agents' tools and registers its own under the agent-prefixed key. */
module Client {
  import opened Values
  import opened Messages
  import opened Server

  class MCPClient {
    const agentName: string
    const agent: MCPAgent

    /** The client's agent handle carries the client's name, and the server it talks to
        keeps every agent's inbox. */
    predicate Valid()
      reads agent.server
    {
      agent.name == agentName && agent.server.Valid()
    }

    /** Creates the client and registers its agent with the shared server, emptying that
        name's inbox. */
    constructor (agentName: string, shared: MCPServer)
      requires shared.Valid()
      modifies shared
      ensures this.agentName == agentName && agent.server == shared && Valid()
      ensures shared.agents == old(shared.agents)[agentName := agent]
      ensures shared.messageQueue == old(shared.messageQueue)[agentName := []]
      ensures shared.tools == old(shared.tools)
    {
      this.agentName := agentName;
      var a := new MCPAgent(agentName, shared);
      agent := a;
    }

    /** Calls `tool` on `target` with these keyword arguments as the request's parameters,
        returning the tool's value or the error raised for a failure. */
    method CallAgent(target: string, tool: string, kwargs: Params, requestId: string, responseId: string, run: Behaviour)
      returns (r: Result<Json, string>)
      requires Valid()
      modifies agent.server
      ensures Valid()
      ensures r == CallOutcome(old(agent.server.agents).Keys, old(agent.server.tools), NewRequest(requestId, agentName, target, tool, kwargs), responseId, run)
      ensures agent.server.messageQueue == Delivered(old(agent.server.messageQueue), old(agent.server.agents).Keys, NewRequest(requestId, agentName, target, tool, kwargs))
      ensures agent.server.agents == old(agent.server.agents) && agent.server.tools == old(agent.server.tools)
    {
      r := agent.SendRequest(target, tool, kwargs, requestId, responseId, run);
    }

    /** Registers a tool of this agent under `"<agent>.<tool>"`. */
    method RegisterTool(toolName: string, h: Handler)
      requires Valid()
      modifies agent.server
      ensures Valid()
      ensures agent.server.tools == old(agent.server.tools)[ToolKey(agentName, toolName) := h]
      ensures agent.server.agents == old(agent.server.agents) && agent.server.messageQueue == old(agent.server.messageQueue)
    {
      agent.server.RegisterTool(ToolKey(agentName, toolName), h);
    }

    /** Drains this agent's inbox and no other. */
    method GetMessages() returns (msgs: seq<Message>)
      requires Valid()
      modifies agent.server
      ensures Valid()
      ensures msgs == (if agentName in old(agent.server.messageQueue) then old(agent.server.messageQueue)[agentName] else [])
      ensures agent.server.messageQueue == old(agent.server.messageQueue)[agentName := []]
      ensures agent.server.agents == old(agent.server.agents) && agent.server.tools == old(agent.server.tools)
    {
      msgs := agent.ReceiveMessages();
    }
  }

  /** A tool a client registers is what requests for that tool sent to its agent reach,
      whatever else is registered under the bare tool name. */
  method RegisteredToolReached(shared: MCPServer, name: string, tool: string, h: Handler) returns (found: Option<Handler>)
    requires shared.Valid()
    modifies shared
    ensures found == Some(h)
  {
    var c := new MCPClient(name, shared);
    c.RegisterTool(tool, h);
    found := Resolve(shared.tools, name, tool);
  }
}
