/** The orchestrator: three tool calls through the server, in order, each step's result
    feeding the next, and the error that ends the run at the second step because the
    arguments it sends do not fit the registered code-generation tool. */
module Orchestrator {
  import opened Values
  import opened Messages
  import opened Server
  import opened Client

  const OrchestratorName := "orchestrator"

  /** The agents and tools of the three steps, and the field of each step's result the
      next step uses. */
  const Targets := ["architect", "code_generator", "test_generator"]
  const ToolNames := ["create_architecture", "generate_code", "generate_tests"]
  const Fields := ["architecture", "code", "tests"]

  /** The signatures under which the three agents register their tools. */
  const ArchitectHandler := Handler("ArchitectAgent.create_architecture", ["description", "requirements"], [], 0)
  const CodeGeneratorHandler := Handler("CodeGeneratorAgent.generate_code", ["api_route_plan", "database_schema", "requirements"], [], 1)
  const TestGeneratorHandler := Handler("TestGeneratorAgent.generate_tests", ["code"], ["requirements"], 2)

  /** A step's result as the next step uses it: a string as it is, otherwise the named
      field of the dictionary, or "" without it; any other value has no `get` and raises. */
  function Unwrap(result: Json, field: string): (r: Result<Json, string>)
    ensures result.JStr? ==> r == Ok(result)
    ensures result.JObj? ==> r == Ok(Get(result.fields, field, JStr("")))
    ensures !result.JStr? && !result.JObj? ==> r == Err("'" + TypeName(result) + "' object has no attribute 'get'")
  {
    match result
    case JStr(_) => Ok(result)
    case JObj(m) => Ok(Get(m, field, JStr("")))
    case _ => Err("'" + TypeName(result) + "' object has no attribute 'get'")
  }

  /** The keyword arguments of step `k`: the previous step's value under the step's
      argument name, then the caller's requirements. */
  function StepArguments(k: nat, prev: Json, requirements: Json): (ps: Params)
    requires k < 3
    ensures |ps| == 2 && ps[1] == Param("requirements", requirements)
  {
    var name := if k == 0 then "description" else Fields[k - 1];
    [Param(name, prev), Param("requirements", requirements)]
  }

  /** The request of step `k`; step `k` draws the fresh ids `2k` (request) and `2k + 1`
      (response). */
  function StepRequest(k: nat, prev: Json, requirements: Json, ids: nat -> string): (m: Message)
    requires k < 3
    ensures m.MCPRequest? && m.fromAgent == OrchestratorName && m.toAgent == Targets[k] && m.tool == ToolNames[k]
    ensures m.parameters == StepArguments(k, prev, requirements)
  {
    NewRequest(ids(2 * k), OrchestratorName, Targets[k], ToolNames[k], StepArguments(k, prev, requirements))
  }

  /** What step `k` yields for the next step (or the error that aborts the run), when
      requests are sent through `call`. */
  function StepValue(call: Dispatcher, k: nat, prev: Json, requirements: Json, ids: nat -> string): Result<Json, string>
    requires k < 3
  {
    match call(StepRequest(k, prev, requirements, ids), ids(2 * k + 1))
    case Err(e) => Err(e)
    case Ok(v) => Unwrap(v, Fields[k])
  }

  /** A run of the orchestrator: what it returns or raises, and the requests it sent, in
      the order sent. */
  datatype Run = Run(outcome: Result<map<string, Json>, string>, sent: seq<Message>)

  /** What the architecture step yields. */
  function FirstStep(call: Dispatcher, input: map<string, Json>, ids: nat -> string): Result<Json, string>
  {
    StepValue(call, 0, Get(input, "description", JStr("")), Get(input, "requirements", JStr("")), ids)
  }

  /** The orchestration: each step runs only after the previous one succeeded, is sent
      from the orchestrator to the step's agent with the caller's requirements, and a
      successful run returns exactly the three unwrapped values and the agent name. */
  function Pipeline(call: Dispatcher, input: map<string, Json>, ids: nat -> string): (r: Run)
    ensures 1 <= |r.sent| <= 3
    ensures forall i :: 0 <= i < |r.sent| ==>
      r.sent[i].MCPRequest? && r.sent[i].fromAgent == OrchestratorName &&
      r.sent[i].toAgent == Targets[i] && r.sent[i].tool == ToolNames[i]
    ensures |r.sent| < 3 ==> r.outcome.Err?
    ensures (|r.sent| == 1) <==> FirstStep(call, input, ids).Err?
  {
    var description := Get(input, "description", JStr(""));
    var requirements := Get(input, "requirements", JStr(""));
    var m1 := StepRequest(0, description, requirements, ids);
    match StepValue(call, 0, description, requirements, ids)
    case Err(e) => Run(Err(e), [m1])
    case Ok(architecture) =>
      var m2 := StepRequest(1, architecture, requirements, ids);
      match StepValue(call, 1, architecture, requirements, ids)
      case Err(e) => Run(Err(e), [m1, m2])
      case Ok(code) =>
        var m3 := StepRequest(2, code, requirements, ids);
        match StepValue(call, 2, code, requirements, ids)
        case Err(e) => Run(Err(e), [m1, m2, m3])
        case Ok(tests) =>
          Run(Ok(map["architecture" := architecture, "code" := code, "tests" := tests, "agent" := JStr(OrchestratorName)]), [m1, m2, m3])
  }

  /** Every step receives the caller's requirements; the first step also the description
      and the second the value the first step produced. */
  lemma PipelineArguments(call: Dispatcher, input: map<string, Json>, ids: nat -> string)
    ensures var r := Pipeline(call, input, ids);
      forall i :: 0 <= i < |r.sent| ==>
        |r.sent[i].parameters| == 2 && r.sent[i].parameters[1] == Param("requirements", Get(input, "requirements", JStr("")))
    ensures Pipeline(call, input, ids).sent[0].parameters[0] == Param("description", Get(input, "description", JStr("")))
    ensures |Pipeline(call, input, ids).sent| > 1 ==>
      Pipeline(call, input, ids).sent[1].parameters[0] == Param("architecture", FirstStep(call, input, ids).value)
  {
  }

  /** A run that returns gives exactly the three step values and the agent's name. */
  lemma PipelineResult(call: Dispatcher, input: map<string, Json>, ids: nat -> string)
    ensures var r := Pipeline(call, input, ids);
      r.outcome.Ok? ==>
        |r.sent| == 3 && r.outcome.value.Keys == {"architecture", "code", "tests", "agent"} &&
        r.outcome.value["agent"] == JStr(OrchestratorName)
  {
  }

  /** "Tool execution failed: CodeGeneratorAgent.generate_code() got an unexpected keyword
      argument 'architecture'". */
  const Step2Error := FailedPrefix + UnexpectedKeyword(CodeGeneratorHandler.qualname, "architecture")

  /** The code-generation tool as registered cannot take the arguments the second step
      sends: the call fails binding on its first keyword, so the second step reports the
      `TypeError` whatever the first step produced. */
  lemma CodeStepFails(agents: set<string>, tools: map<string, Handler>, run: Behaviour, architecture: Json, requirements: Json,
                      ids: nat -> string)
    requires ToolKey("code_generator", "generate_code") in tools
    requires tools[ToolKey("code_generator", "generate_code")] == CodeGeneratorHandler
    ensures StepValue(Caller(agents, tools, run), 1, architecture, requirements, ids).Err?
    ensures "code_generator" in agents ==> StepValue(Caller(agents, tools, run), 1, architecture, requirements, ids) == Err(Step2Error)
  {
    var req := StepRequest(1, architecture, requirements, ids);
    CallerOutcome(agents, tools, run, req, ids(3));
    assert Resolve(tools, "code_generator", "generate_code") == Some(CodeGeneratorHandler);
    CodeArgumentsUnbound(architecture, requirements);
  }

  /** The second step's first keyword, `architecture`, is no parameter of the registered
      code-generation tool, so binding its arguments fails on it. */
  lemma CodeArgumentsUnbound(architecture: Json, requirements: Json)
    ensures BindError(CodeGeneratorHandler, StepArguments(1, architecture, requirements))
      == Some(UnexpectedKeyword(CodeGeneratorHandler.qualname, "architecture"))
  {
    var h := CodeGeneratorHandler;
    var ps := StepArguments(1, architecture, requirements);
    assert ps[0].name == "architecture";
    assert "architecture" !in h.required + h.optional by {
      assert |"architecture"| == 12 && |"api_route_plan"| == 14 && |"database_schema"| == 15;
      assert "architecture"[0] != "requirements"[0];
    }
    assert UnexpectedFrom(h.required + h.optional, ps, 0) == Some(0);
  }

  /** With the code-generation tool registered as the agents register it, no run of the
      orchestrator succeeds and the test generator is never asked; once the first step
      succeeds, the run fails with exactly the binding error of the second step, after
      sending two requests. */
  lemma {:induction false} PipelineAlwaysFails(agents: set<string>, tools: map<string, Handler>, run: Behaviour,
                                               input: map<string, Json>, ids: nat -> string)
    requires ToolKey("code_generator", "generate_code") in tools
    requires tools[ToolKey("code_generator", "generate_code")] == CodeGeneratorHandler
    ensures Pipeline(Caller(agents, tools, run), input, ids).outcome.Err?
    ensures |Pipeline(Caller(agents, tools, run), input, ids).sent| <= 2
    ensures forall m :: m in Pipeline(Caller(agents, tools, run), input, ids).sent ==> m.toAgent != "test_generator"
    ensures FirstStep(Caller(agents, tools, run), input, ids).Ok? && "code_generator" in agents ==>
      Pipeline(Caller(agents, tools, run), input, ids).outcome == Err(Step2Error) &&
      |Pipeline(Caller(agents, tools, run), input, ids).sent| == 2
  {
    var requirements := Get(input, "requirements", JStr(""));
    match FirstStep(Caller(agents, tools, run), input, ids)
    case Err(_) =>
    case Ok(architecture) =>
      CodeStepFails(agents, tools, run, architecture, requirements, ids);
  }

  /** The inboxes after a sequence of messages is delivered one after another. */
  function DeliveredAll(queue: map<string, seq<Message>>, agents: set<string>, ms: seq<Message>): (r: map<string, seq<Message>>)
    requires agents <= queue.Keys
    ensures r.Keys == queue.Keys
    decreases |ms|
  {
    if ms == [] then queue else DeliveredAll(Delivered(queue, agents, ms[0]), agents, ms[1..])
  }

  /** Delivering one, two or three messages in a row, spelled out. */
  lemma DeliveredInOrder(queue: map<string, seq<Message>>, agents: set<string>, m1: Message, m2: Message, m3: Message)
    requires agents <= queue.Keys
    ensures DeliveredAll(queue, agents, [m1]) == Delivered(queue, agents, m1)
    ensures DeliveredAll(queue, agents, [m1, m2]) == Delivered(Delivered(queue, agents, m1), agents, m2)
    ensures DeliveredAll(queue, agents, [m1, m2, m3]) == Delivered(Delivered(Delivered(queue, agents, m1), agents, m2), agents, m3)
  {
    var q1 := Delivered(queue, agents, m1);
    var q2 := Delivered(q1, agents, m2);
    var q3 := Delivered(q2, agents, m3);
    assert [m1][1..] == [] && [m1, m2][1..] == [m2] && [m1, m2, m3][1..] == [m2, m3] && [m2, m3][1..] == [m3];
    assert DeliveredAll(q1, agents, []) == q1;
    assert DeliveredAll(q2, agents, []) == q2;
    assert DeliveredAll(q3, agents, []) == q3;
    assert DeliveredAll(q1, agents, [m2]) == q2;
    assert DeliveredAll(q2, agents, [m3]) == q3;
    assert DeliveredAll(q1, agents, [m2, m3]) == q3;
  }

  /** One of the agents the orchestrator drives: its client registers it on the shared
      server, then registers its tool under the agent-prefixed key. */
  method StartAgent(shared: MCPServer, name: string, tool: string, h: Handler)
    requires shared.Valid()
    modifies shared
    ensures shared.Valid()
    ensures shared.agents.Keys == old(shared.agents).Keys + {name}
    ensures shared.tools == old(shared.tools)[ToolKey(name, tool) := h]
    ensures shared.messageQueue == old(shared.messageQueue)[name := []]
  {
    var c := new MCPClient(name, shared);
    c.RegisterTool(tool, h);
  }

  /** The three agents the orchestrator drives, started in turn. */
  method StartAgents(shared: MCPServer)
    requires shared.Valid()
    modifies shared
    ensures shared.Valid()
    ensures shared.agents.Keys == old(shared.agents).Keys + {"architect", "code_generator", "test_generator"}
    ensures shared.tools == old(shared.tools)[ToolKey("architect", "create_architecture") := ArchitectHandler]
                                          [ToolKey("code_generator", "generate_code") := CodeGeneratorHandler]
                                          [ToolKey("test_generator", "generate_tests") := TestGeneratorHandler]
    ensures shared.messageQueue == old(shared.messageQueue)["architect" := []]["code_generator" := []]["test_generator" := []]
  {
    StartAgent(shared, "architect", "create_architecture", ArchitectHandler);
    StartAgent(shared, "code_generator", "generate_code", CodeGeneratorHandler);
    StartAgent(shared, "test_generator", "generate_tests", TestGeneratorHandler);
  }

  class OrchestratorAgent {
    const name: string
    const client: MCPClient

    predicate Valid()
      reads client.agent.server
    {
      client.Valid() && client.agentName == name && name == OrchestratorName
    }

    /** Creates the orchestrator and the three agents it drives on the shared server; each
        registers itself and its tool under its prefixed key. */
    constructor (shared: MCPServer)
      requires shared.Valid()
      modifies shared
      ensures name == OrchestratorName && client.agent.server == shared && Valid()
      ensures shared.agents.Keys == old(shared.agents).Keys + {OrchestratorName, "architect", "code_generator", "test_generator"}
      ensures shared.tools == old(shared.tools)[ToolKey("architect", "create_architecture") := ArchitectHandler]
                                            [ToolKey("code_generator", "generate_code") := CodeGeneratorHandler]
                                            [ToolKey("test_generator", "generate_tests") := TestGeneratorHandler]
      ensures shared.messageQueue == old(shared.messageQueue)[OrchestratorName := []]["architect" := []]["code_generator" := []]["test_generator" := []]
    {
      name := OrchestratorName;
      var own := new MCPClient(OrchestratorName, shared);
      client := own;
      StartAgents(shared);
    }

    /** One step: the call, then the unwrapping of its result. */
    method Step(k: nat, prev: Json, requirements: Json, ids: nat -> string, run: Behaviour) returns (r: Result<Json, string>)
      requires k < 3 && Valid()
      modifies client.agent.server
      ensures Valid()
      ensures r == StepValue(Caller(old(client.agent.server.agents).Keys, old(client.agent.server.tools), run), k, prev, requirements, ids)
      ensures client.agent.server.messageQueue ==
        Delivered(old(client.agent.server.messageQueue), old(client.agent.server.agents).Keys, StepRequest(k, prev, requirements, ids))
      ensures client.agent.server.agents == old(client.agent.server.agents) && client.agent.server.tools == old(client.agent.server.tools)
    {
      CallerOutcome(client.agent.server.agents.Keys, client.agent.server.tools, run, StepRequest(k, prev, requirements, ids), ids(2 * k + 1));
      var result := client.CallAgent(Targets[k], ToolNames[k], StepArguments(k, prev, requirements), ids(2 * k), ids(2 * k + 1), run);
      if result.Err? {
        return Err(result.error);
      }
      r := Unwrap(result.value, Fields[k]);
    }

    /** Runs the three steps; an error raised by a step ends the run. `ids(i)` is the
        `i`-th fresh id the run draws. */
    method Process(input: map<string, Json>, ids: nat -> string, run: Behaviour) returns (r: Result<map<string, Json>, string>)
      requires Valid()
      modifies client.agent.server
      ensures Valid()
      ensures r == Pipeline(Caller(old(client.agent.server.agents).Keys, old(client.agent.server.tools), run), input, ids).outcome
      ensures client.agent.server.messageQueue ==
        DeliveredAll(old(client.agent.server.messageQueue), old(client.agent.server.agents).Keys,
                     Pipeline(Caller(old(client.agent.server.agents).Keys, old(client.agent.server.tools), run), input, ids).sent)
      ensures client.agent.server.agents == old(client.agent.server.agents) && client.agent.server.tools == old(client.agent.server.tools)
    {
      ghost var agents := client.agent.server.agents.Keys;
      ghost var tools := client.agent.server.tools;
      ghost var queue := client.agent.server.messageQueue;
      var description := Get(input, "description", JStr(""));
      var requirements := Get(input, "requirements", JStr(""));
      var architecture := Step(0, description, requirements, ids, run);
      ghost var m1 := StepRequest(0, description, requirements, ids);
      if architecture.Err? {
        DeliveredInOrder(queue, agents, m1, m1, m1);
        return Err(architecture.error);
      }
      var code := Step(1, architecture.value, requirements, ids, run);
      ghost var m2 := StepRequest(1, architecture.value, requirements, ids);
      if code.Err? {
        DeliveredInOrder(queue, agents, m1, m2, m2);
        return Err(code.error);
      }
      var tests := Step(2, code.value, requirements, ids, run);
      ghost var m3 := StepRequest(2, code.value, requirements, ids);
      DeliveredInOrder(queue, agents, m1, m2, m3);
      if tests.Err? {
        return Err(tests.error);
      }
      r := Ok(map["architecture" := architecture.value, "code" := code.value, "tests" := tests.value, "agent" := JStr(name)]);
    }
  }

  /** The agents and tools a server holds once the orchestrator is built on it alone. */
  const BuiltAgents := {OrchestratorName, "architect", "code_generator", "test_generator"}
  const BuiltTools := map[ToolKey("architect", "create_architecture") := ArchitectHandler,
                          ToolKey("code_generator", "generate_code") := CodeGeneratorHandler,
                          ToolKey("test_generator", "generate_tests") := TestGeneratorHandler]

  /** The orchestrator as the service builds it, on a server of its own: whatever the
      input and whatever the tools' bodies do, the run raises, and once the architecture
      step has succeeded it raises the binding error of the code-generation step. */
  method OrchestrateFresh(input: map<string, Json>, ids: nat -> string, run: Behaviour) returns (r: Result<map<string, Json>, string>)
    ensures r.Err?
    ensures FirstStep(Caller(BuiltAgents, BuiltTools, run), input, ids).Ok? ==> r == Err(Step2Error)
  {
    var shared := new MCPServer();
    var orchestrator := new OrchestratorAgent(shared);
    assert shared.agents.Keys == BuiltAgents;
    assert shared.tools == BuiltTools;
    PipelineAlwaysFails(shared.agents.Keys, shared.tools, run, input, ids);
    r := orchestrator.Process(input, ids, run);
  }
}
