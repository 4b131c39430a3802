/**
 * The agent graph (Agent/agentic_workflow.py): a model node that answers with
 * the system prompt in front of the conversation, a tool node over a fixed
 * tool catalogue, and the edges between them. The chat model, the tool node
 * and the routing function `tools_condition` are library code and appear as
 * function parameters.
 */
module AgenticWorkflow {
  import opened Wrappers
  import opened ModelLoaders
  import WeatherInfoTool
  import PlaceSearchTool
  import ArithmeticOperationsTool
  import CurrencyConverterTool
  import ExpenseCalculatorTool

  /** The provider `GraphBuilder` asks for when none is given. */
  const DefaultProvider: string := "deepseek"

  /** A tool call requested by the model. */
  datatype ToolCall = ToolCall(name: string, id: string)

  /** The messages of a conversation. */
  datatype Message =
    | SystemMessage(content: string)
    | HumanMessage(content: string)
    | AIMessage(content: string, toolCalls: seq<ToolCall>)
    | ToolMessage(content: string, toolCallId: string)

  /** What the chat model answers: text and the tool calls it requests. */
  datatype Reply = Reply(content: string, toolCalls: seq<ToolCall>)

  /** What a tool answered for one call. */
  datatype ToolResult = ToolResult(content: string, toolCallId: string)

  /** The model with the tool catalogue bound to it (`bind_tools`). */
  datatype BoundModel = BoundModel(llm: LlmHandle, tools: seq<string>)

  /** The registered tools, by name: weather, then place search, then arithmetic, then currency. */
  function Catalogue(): seq<string>
  {
    WeatherInfoTool.ToolNames + PlaceSearchTool.ToolNames + ArithmeticOperationsTool.ToolNames + CurrencyConverterTool.ToolNames
  }

  /** Twelve distinct tools in group order; none of the expense tools is registered. */
  lemma CatalogueContents()
    ensures |Catalogue()| == 12
    ensures Catalogue()[..2] == WeatherInfoTool.ToolNames
    ensures Catalogue()[2..7] == PlaceSearchTool.ToolNames
    ensures Catalogue()[7..11] == ArithmeticOperationsTool.ToolNames
    ensures Catalogue()[11..] == CurrencyConverterTool.ToolNames
    ensures forall i, j :: 0 <= i < j < |Catalogue()| ==> Catalogue()[i] != Catalogue()[j]
    ensures forall n :: n in ExpenseCalculatorTool.ToolNames ==> n !in Catalogue()
  {
  }

  /** What the model is given: the system prompt, then the conversation unchanged. */
  function ModelInput(systemPrompt: Message, messages: seq<Message>): (input: seq<Message>)
    ensures |input| == |messages| + 1 && input[0] == systemPrompt && input[1..] == messages
  {
    [systemPrompt] + messages
  }

  /** The nodes of the graph. */
  datatype Node = Start | Agent | Tools | End

  /** What `tools_condition` decides after the model has answered. */
  datatype Route = ToTools | ToEnd

  /** The compiled graph: its nodes, the tools of its tool node, its fixed edges and where the routing function sits. */
  datatype CompiledGraph = CompiledGraph(nodes: seq<Node>, toolNodeTools: seq<string>, edges: seq<(Node, Node)>,
                                         routedFrom: Node, withMemory: bool)

  /** The node that runs after `n`: its fixed edge, or the route chosen where the routing function sits. */
  function Successor(g: CompiledGraph, n: Node, route: Route): Option<Node>
  {
    var fixed := EdgeTarget(g.edges, n);
    if fixed.Some? then fixed
    else if n == g.routedFrom then Some(if route == ToTools then Tools else End)
    else None
  }

  /** The target of the first fixed edge leaving `n`, if any. */
  function EdgeTarget(edges: seq<(Node, Node)>, n: Node): (t: Option<Node>)
    ensures t.None? <==> forall k :: 0 <= k < |edges| ==> edges[k].0 != n
  {
    if edges == [] then None
    else if edges[0].0 == n then Some(edges[0].1)
    else EdgeTarget(edges[1..], n)
  }

  /** `GraphBuilder`: the loaded model, the tool objects, the catalogue and the bound model. */
  class GraphBuilder {
    var modelLoader: ModelLoader
    var llm: LlmHandle
    var tools: seq<string>
    var weatherTools: WeatherInfoTool.WeatherInfoTool
    var currencyTools: CurrencyConverterTool.CurrencyConverterTool
    var locationTools: PlaceSearchTool.LocationInfoTool
    var llmWithTools: BoundModel
    var systemPrompt: Message

    /** The part of `__init__` after the model has loaded: build the tools, extend the catalogue, bind it. */
    constructor Init(loader: ModelLoader, llm: LlmHandle, env: map<string, string>, serpInstalled: bool, prompt: string)
      ensures modelLoader == loader && this.llm == llm
      ensures weatherTools == WeatherInfoTool.NewWeatherInfoTool(env)
      ensures currencyTools == CurrencyConverterTool.NewCurrencyConverterTool(env)
      ensures locationTools == PlaceSearchTool.NewLocationInfoTool(env, serpInstalled)
      ensures tools == Catalogue()
      ensures llmWithTools == BoundModel(llm, tools)
      ensures systemPrompt == SystemMessage(prompt)
    {
      modelLoader := loader;
      this.llm := llm;
      tools := [];
      weatherTools := WeatherInfoTool.NewWeatherInfoTool(env);
      currencyTools := CurrencyConverterTool.NewCurrencyConverterTool(env);
      locationTools := PlaceSearchTool.NewLocationInfoTool(env, serpInstalled);
      tools := tools + WeatherInfoTool.ToolNames + PlaceSearchTool.ToolNames
                     + ArithmeticOperationsTool.ToolNames + CurrencyConverterTool.ToolNames;
      llmWithTools := BoundModel(llm, tools);
      systemPrompt := SystemMessage(prompt);
    }

    /** The node function: the model's reply to the prompt and the conversation, as the only new message. */
    function AgentFunction(messages: seq<Message>, invoke: (BoundModel, seq<Message>) -> Reply): (update: seq<Message>)
      reads this
      ensures |update| == 1 && update[0].AIMessage?
      ensures var reply := invoke(llmWithTools, ModelInput(systemPrompt, messages));
        update[0].content == reply.content && update[0].toolCalls == reply.toolCalls
    {
      var reply := invoke(llmWithTools, ModelInput(systemPrompt, messages));
      [AIMessage(reply.content, reply.toolCalls)]
    }

    /** `build_graph`: the agent and tool nodes, START → agent, tools → agent, and routing after agent. */
    method BuildGraph() returns (g: CompiledGraph)
      ensures g.toolNodeTools == tools && g.nodes == [Agent, Tools] && g.withMemory
      ensures forall route :: Successor(g, Start, route) == Some(Agent) && Successor(g, Tools, route) == Some(Agent)
      ensures forall route :: Successor(g, Agent, route) == Some(if route == ToTools then Tools else End)
      ensures forall route :: Successor(g, End, route) == None
    {
      var edges: seq<(Node, Node)> := [];
      edges := edges + [(Start, Agent)];
      edges := edges + [(Tools, Agent)];
      g := CompiledGraph([Agent, Tools], tools, edges, Agent, true);
      assert g.edges == [(Start, Agent), (Tools, Agent)];
      assert EdgeTarget(g.edges, Start) == Some(Agent);
      assert EdgeTarget(g.edges, Tools) == Some(Agent) by {
        assert g.edges[1..] == [(Tools, Agent)];
      }
      assert EdgeTarget(g.edges, Agent).None? && EdgeTarget(g.edges, End).None?;
    }
  }

  /**
   * `GraphBuilder(model_provider)`: load the model (its error escapes), then
   * build the rest.
   */
  method NewGraphBuilder(modelProvider: string, file: ConfigDoc, env: map<string, string>, serpInstalled: bool, prompt: string)
    returns (r: Result<GraphBuilder, LoadError>)
    ensures var l := Resolve(modelProvider, file, env);
      (r.Ok? <==> l.result.Ok?) &&
      (r.Err? ==> r.error == l.result.error) &&
      (r.Ok? ==> fresh(r.value) && r.value.llm == l.result.value && r.value.modelLoader.modelProvider == l.provider &&
                 r.value.tools == Catalogue() && r.value.llmWithTools.tools == r.value.tools)
  {
    var loader := new ModelLoader(modelProvider, file);
    var llm := loader.LoadLlm(file, env);
    if llm.Err? {
      return Err(llm.error);
    }
    var builder := new GraphBuilder.Init(loader, llm.value, env, serpInstalled, prompt);
    return Ok(builder);
  }

  /** `GraphBuilder()`: the same construction, for the default provider. */
  method NewDefaultGraphBuilder(file: ConfigDoc, env: map<string, string>, serpInstalled: bool, prompt: string)
    returns (r: Result<GraphBuilder, LoadError>)
    ensures var l := Resolve(DefaultProvider, file, env);
      (r.Ok? <==> l.result.Ok?) &&
      (r.Err? ==> r.error == l.result.error) &&
      (r.Ok? ==> fresh(r.value) && r.value.llm == l.result.value && r.value.modelLoader.modelProvider == l.provider &&
                 r.value.tools == Catalogue() && r.value.llmWithTools.tools == r.value.tools)
  {
    r := NewGraphBuilder(DefaultProvider, file, env, serpInstalled, prompt);
  }

  // ---------------------------------------------------------------------------
  // Running the graph

  /** The tool node's answers as messages. */
  function ToolMessages(results: seq<ToolResult>): (ms: seq<Message>)
    ensures |ms| == |results|
    ensures forall i :: 0 <= i < |ms| ==> ms[i] == ToolMessage(results[i].content, results[i].toolCallId)
  {
    seq(|results|, i requires 0 <= i < |results| => ToolMessage(results[i].content, results[i].toolCallId))
  }

  /**
   * The conversation after running the graph from START on `messages`: the
   * agent appends its reply; the routing function either ends the run or sends
   * it through the tool node, whose messages are appended, and back to the
   * agent. `fuel` bounds the number of agent steps.
   */
  function Run(bound: BoundModel, systemPrompt: Message, messages: seq<Message>,
               invoke: (BoundModel, seq<Message>) -> Reply,
               condition: seq<Message> -> Route,
               toolNode: seq<Message> -> seq<ToolResult>,
               fuel: nat): seq<Message>
    decreases fuel
  {
    if fuel == 0 then messages
    else
      var reply := invoke(bound, ModelInput(systemPrompt, messages));
      var afterAgent := messages + [AIMessage(reply.content, reply.toolCalls)];
      if condition(afterAgent) == ToEnd then afterAgent
      else Run(bound, systemPrompt, afterAgent + ToolMessages(toolNode(afterAgent)), invoke, condition, toolNode, fuel - 1)
  }

  /** The number of system messages in a conversation. */
  function SystemCount(ms: seq<Message>): nat
  {
    if ms == [] then 0
    else SystemCount(ms[..|ms| - 1]) + (if ms[|ms| - 1].SystemMessage? then 1 else 0)
  }

  lemma {:induction false} SystemCountAppend(a: seq<Message>, b: seq<Message>)
    ensures SystemCount(a + b) == SystemCount(a) + SystemCount(b)
    decreases |b|
  {
    if b == [] {
      assert a + b == a;
    } else {
      assert (a + b)[..|a + b| - 1] == a + b[..|b| - 1];
      SystemCountAppend(a, b[..|b| - 1]);
    }
  }

  lemma {:induction false} NoSystemInToolMessages(results: seq<ToolResult>)
    ensures SystemCount(ToolMessages(results)) == 0
    decreases |results|
  {
    if results != [] {
      var init := results[..|results| - 1];
      assert ToolMessages(results)[..|results| - 1] == ToolMessages(init);
      NoSystemInToolMessages(init);
    }
  }

  /** A run only appends to the conversation and never writes the system prompt into it. */
  lemma {:induction false} RunAppendsOnly(bound: BoundModel, systemPrompt: Message, messages: seq<Message>,
                                          invoke: (BoundModel, seq<Message>) -> Reply,
                                          condition: seq<Message> -> Route,
                                          toolNode: seq<Message> -> seq<ToolResult>,
                                          fuel: nat)
    ensures var out := Run(bound, systemPrompt, messages, invoke, condition, toolNode, fuel);
      |messages| <= |out| && out[..|messages|] == messages &&
      SystemCount(out) == SystemCount(messages)
    decreases fuel
  {
    if fuel > 0 {
      var reply := invoke(bound, ModelInput(systemPrompt, messages));
      var afterAgent := messages + [AIMessage(reply.content, reply.toolCalls)];
      SystemCountAppend(messages, [AIMessage(reply.content, reply.toolCalls)]);
      assert SystemCount([AIMessage(reply.content, reply.toolCalls)]) == 0 by {
        assert [AIMessage(reply.content, reply.toolCalls)][..0] == [];
      }
      if condition(afterAgent) != ToEnd {
        var next := afterAgent + ToolMessages(toolNode(afterAgent));
        SystemCountAppend(afterAgent, ToolMessages(toolNode(afterAgent)));
        NoSystemInToolMessages(toolNode(afterAgent));
        RunAppendsOnly(bound, systemPrompt, next, invoke, condition, toolNode, fuel - 1);
        var out := Run(bound, systemPrompt, next, invoke, condition, toolNode, fuel - 1);
        assert out[..|messages|] == out[..|next|][..|messages|];
        assert next[..|messages|] == messages;
      }
    }
  }

  /**
   * LangGraph's `tools_condition`: on to the tool node exactly when the last
   * message is a model answer that requests tool calls.
   */
  function ToolsCondition(ms: seq<Message>): Route
  {
    if ms != [] && ms[|ms| - 1].AIMessage? && ms[|ms| - 1].toolCalls != [] then ToTools else ToEnd
  }

  /** Under `tools_condition`, an answer without tool calls ends the run with exactly that answer appended. */
  lemma RunEndsWithoutToolCalls(bound: BoundModel, systemPrompt: Message, messages: seq<Message>,
                                invoke: (BoundModel, seq<Message>) -> Reply,
                                toolNode: seq<Message> -> seq<ToolResult>,
                                fuel: nat)
    requires fuel > 0
    requires invoke(bound, ModelInput(systemPrompt, messages)).toolCalls == []
    ensures var reply := invoke(bound, ModelInput(systemPrompt, messages));
      Run(bound, systemPrompt, messages, invoke, ToolsCondition, toolNode, fuel) ==
        messages + [AIMessage(reply.content, [])]
  {
    var reply := invoke(bound, ModelInput(systemPrompt, messages));
    var afterAgent := messages + [AIMessage(reply.content, reply.toolCalls)];
    assert afterAgent[|afterAgent| - 1] == AIMessage(reply.content, []);
    assert ToolsCondition(afterAgent) == ToEnd;
  }

  /** A run with fuel left begins with the model's answer to the conversation, whatever the routing decides. */
  lemma RunBeginsWithAnswer(bound: BoundModel, systemPrompt: Message, messages: seq<Message>,
                            invoke: (BoundModel, seq<Message>) -> Reply,
                            condition: seq<Message> -> Route,
                            toolNode: seq<Message> -> seq<ToolResult>,
                            fuel: nat)
    requires fuel > 0
    ensures var reply := invoke(bound, ModelInput(systemPrompt, messages));
      var afterAgent := messages + [AIMessage(reply.content, reply.toolCalls)];
      var out := Run(bound, systemPrompt, messages, invoke, condition, toolNode, fuel);
      |afterAgent| <= |out| && out[..|afterAgent|] == afterAgent
  {
    var reply := invoke(bound, ModelInput(systemPrompt, messages));
    var afterAgent := messages + [AIMessage(reply.content, reply.toolCalls)];
    if condition(afterAgent) != ToEnd {
      var next := afterAgent + ToolMessages(toolNode(afterAgent));
      RunAppendsOnly(bound, systemPrompt, next, invoke, condition, toolNode, fuel - 1);
      var out := Run(bound, systemPrompt, next, invoke, condition, toolNode, fuel - 1);
      assert out[..|afterAgent|] == out[..|next|][..|afterAgent|];
      assert next[..|afterAgent|] == afterAgent;
    }
  }

  /**
   * Under `tools_condition`, an answer with tool calls is followed by the tool
   * node's messages and then, fuel permitting, by a second answer of the model
   * to the conversation that now holds them.
   */
  lemma RunCallsToolsThenModel(bound: BoundModel, systemPrompt: Message, messages: seq<Message>,
                               invoke: (BoundModel, seq<Message>) -> Reply,
                               toolNode: seq<Message> -> seq<ToolResult>,
                               fuel: nat)
    requires fuel >= 2
    requires invoke(bound, ModelInput(systemPrompt, messages)).toolCalls != []
    ensures var reply := invoke(bound, ModelInput(systemPrompt, messages));
      var afterAgent := messages + [AIMessage(reply.content, reply.toolCalls)];
      var afterTools := afterAgent + ToolMessages(toolNode(afterAgent));
      var second := invoke(bound, ModelInput(systemPrompt, afterTools));
      var out := Run(bound, systemPrompt, messages, invoke, ToolsCondition, toolNode, fuel);
      |out| > |afterTools| && out[..|afterTools| + 1] == afterTools + [AIMessage(second.content, second.toolCalls)]
  {
    var reply := invoke(bound, ModelInput(systemPrompt, messages));
    var afterAgent := messages + [AIMessage(reply.content, reply.toolCalls)];
    assert afterAgent[|afterAgent| - 1] == AIMessage(reply.content, reply.toolCalls);
    assert ToolsCondition(afterAgent) == ToTools;
    var afterTools := afterAgent + ToolMessages(toolNode(afterAgent));
    assert Run(bound, systemPrompt, messages, invoke, ToolsCondition, toolNode, fuel) ==
      Run(bound, systemPrompt, afterTools, invoke, ToolsCondition, toolNode, fuel - 1);
    RunBeginsWithAnswer(bound, systemPrompt, afterTools, invoke, ToolsCondition, toolNode, fuel - 1);
  }

  /** One agent step adds exactly the reply, whatever the conversation held. */
  lemma AgentStepAppendsReply(b: GraphBuilder, messages: seq<Message>, invoke: (BoundModel, seq<Message>) -> Reply)
    ensures var after := messages + b.AgentFunction(messages, invoke);
      |after| == |messages| + 1 && after[..|messages|] == messages &&
      after[|messages|].AIMessage? && SystemCount(after) == SystemCount(messages)
  {
    var update := b.AgentFunction(messages, invoke);
    SystemCountAppend(messages, update);
    assert update[..0] == [];
    assert (messages + update)[..|messages|] == messages;
  }
}
