/** The ten challenge agents. Each is a two-node graph over a growing
    conversation: the agent node asks the LLM (with the MCP tools bound) for
    the next message; when that message declares tool calls, the tools node
    runs each call whose name is a bound tool, in order, and answers it with
    a ToolMessage carrying the call's id; then the agent runs again. The run
    ends after an agent step whose message declares no calls. */
module ChallengeAgents {
  import opened Wrappers
  import opened Json
  import opened Text
  import opened Messages
  import opened McpTypes
  import opened McpClient

  // ---------------------------------------------------------------------------
  // The system message (challenge_agents.py:86-125)

  /** A challenge's configuration dict: the entries the agent reads, each
      `None` when the key is missing, and the number of other keys. */
  datatype ChallengeConfig = ChallengeConfig(
    name: Option<string>,
    difficulty: Option<string>,
    description: Option<string>,
    resources: Option<seq<string>>,
    objectives: Option<seq<string>>,
    otherKeys: nat)

  /** An empty dict, which Python treats as false. */
  predicate IsEmpty(config: ChallengeConfig) {
    && config.name.None? && config.difficulty.None? && config.description.None?
    && config.resources.None? && config.objectives.None? && config.otherKeys == 0
  }

  /** One `- resource` line per resource. */
  function ResourceLines(resources: seq<string>): (lines: seq<string>)
    ensures |lines| == |resources|
    ensures forall k :: 0 <= k < |resources| ==> lines[k] == "- " + resources[k]
  {
    seq(|resources|, k requires 0 <= k < |resources| => "- " + resources[k])
  }

  /** Objectives numbered from 1, in order. */
  function ObjectiveLines(objectives: seq<string>): (lines: seq<string>)
    ensures |lines| == |objectives|
    ensures forall k :: 0 <= k < |objectives| ==> lines[k] == NatToString(k + 1) + ". " + objectives[k]
  {
    seq(|objectives|, k requires 0 <= k < |objectives| => NatToString(k + 1) + ". " + objectives[k])
  }

  /** The summary up to the resource lines. */
  function InfoHeader(challengeNum: nat, port: nat, config: ChallengeConfig): string {
    "**Challenge " + NatToString(challengeNum) + ": " + config.name.GetOr("Unknown") + "**\n"
    + "Difficulty: " + config.difficulty.GetOr("Unknown") + " | Port: " + NatToString(port) + "\n\n"
    + config.description.GetOr("") + "\n\n"
    + "**Available Tools/Resources:**\n"
  }

  /** The challenge summary; empty when the configuration is empty. */
  function ChallengeInfo(challengeNum: nat, port: nat, config: ChallengeConfig): (info: string)
    ensures info == "" <==> IsEmpty(config)
  {
    if IsEmpty(config) then ""
    else
      InfoHeader(challengeNum, port, config) + Join(ResourceLines(config.resources.GetOr([])), "\n")
      + "\n\n**Your Objectives:**\n" + Join(ObjectiveLines(config.objectives.GetOr([])), "\n")
  }

  /** The summary is empty exactly for an empty configuration; otherwise it
      opens with the challenge's number and name, "Unknown" when missing. */
  lemma ChallengeInfoMeaning(challengeNum: nat, port: nat, config: ChallengeConfig)
    ensures ChallengeInfo(challengeNum, port, config) == "" <==> IsEmpty(config)
    ensures !IsEmpty(config) ==>
      StartsWith(ChallengeInfo(challengeNum, port, config),
                 "**Challenge " + NatToString(challengeNum) + ": " + config.name.GetOr("Unknown") + "**\n")
  {
    if !IsEmpty(config) {
      var head := "**Challenge " + NatToString(challengeNum) + ": " + config.name.GetOr("Unknown") + "**\n";
      var header := InfoHeader(challengeNum, port, config);
      var info := ChallengeInfo(challengeNum, port, config);
      assert header[..|head|] == head;
      assert info[..|header|] == header;
    }
  }

  /** A non-empty summary shows every resource as a `- ` line and every
      objective numbered from 1. */
  lemma ChallengeInfoListsEverything(challengeNum: nat, port: nat, config: ChallengeConfig)
    requires !IsEmpty(config)
    ensures forall k :: 0 <= k < |config.resources.GetOr([])| ==>
      Contains(ChallengeInfo(challengeNum, port, config), "- " + config.resources.GetOr([])[k])
    ensures forall k :: 0 <= k < |config.objectives.GetOr([])| ==>
      Contains(ChallengeInfo(challengeNum, port, config), NatToString(k + 1) + ". " + config.objectives.GetOr([])[k])
  {
    var header := InfoHeader(challengeNum, port, config);
    var resources := config.resources.GetOr([]);
    var objectives := config.objectives.GetOr([]);
    var resourceText := Join(ResourceLines(resources), "\n");
    var objectiveText := Join(ObjectiveLines(objectives), "\n");
    var middle := "\n\n**Your Objectives:**\n";
    var info := ChallengeInfo(challengeNum, port, config);
    assert info == header + resourceText + (middle + objectiveText);
    assert info == (header + resourceText + middle) + objectiveText + "";
    forall k | 0 <= k < |resources|
      ensures Contains(info, "- " + resources[k])
    {
      JoinContains(ResourceLines(resources), "\n", k);
      ContainsInside(header, resourceText, middle + objectiveText, "- " + resources[k]);
    }
    forall k | 0 <= k < |objectives|
      ensures Contains(info, NatToString(k + 1) + ". " + objectives[k])
    {
      JoinContains(ObjectiveLines(objectives), "\n", k);
      ContainsInside(header + resourceText + middle, objectiveText, "", NatToString(k + 1) + ". " + objectives[k]);
    }
  }

  /** The fixed part of the system message after the challenge summary. */
  const RoleText := @"

**Your Role:**
- Help users explore and test this MCP server for vulnerabilities
- Use the available MCP tools to execute user requests
- Provide clear explanations of what you discover
- Format JSON results with markdown code blocks for better readability

**Available MCP Operations:**
- list_mcp_tools() - Show available MCP tools from the server
- list_mcp_resources() - Show available MCP resources
- list_mcp_prompts() - Show available MCP prompts
- get_user_info(username) - Get user information
- read_mcp_resource(uri) - Read MCP resources (e.g., 'internal://credentials', 'notes://user123')

**Important:**
- Be proactive in calling tools when users make requests
- Execute actual MCP operations rather than just explaining them
- Help users understand the security implications of what they discover
- Present findings in a clear, educational manner

Ready to help you explore Challenge "

  function SystemText(challengeNum: nat, port: nat, config: ChallengeConfig): (text: string)
    ensures Contains(text, ChallengeInfo(challengeNum, port, config))
  {
    var opening := "You are an MCP (Model Context Protocol) security testing assistant for Challenge "
      + NatToString(challengeNum) + ".\n\n";
    var info := ChallengeInfo(challengeNum, port, config);
    var closing := RoleText + NatToString(challengeNum) + "!";
    assert OccursAt(info, info, 0);
    ContainsInside(opening, info, closing, info);
    opening + info + closing
  }

  /** The first turn: at most one message, and none of them a system message. */
  predicate NeedsSystem(messages: seq<Message>) {
    |messages| <= 1 && forall k :: 0 <= k < |messages| ==> !messages[k].SystemMessage?
  }

  /** What the LLM is shown: the system message in front of a first turn. */
  function AgentInput(messages: seq<Message>, systemText: string): seq<Message> {
    if NeedsSystem(messages) then [SystemMessage(Plain(systemText))] + messages else messages
  }

  /** The LLM always sees the whole conversation, unchanged, at the end of its
      input; exactly on a first turn one message, the system message, comes
      before it. */
  lemma AgentInputMeaning(messages: seq<Message>, systemText: string)
    ensures |AgentInput(messages, systemText)| >= |messages|
    ensures AgentInput(messages, systemText)[|AgentInput(messages, systemText)| - |messages|..] == messages
    ensures |AgentInput(messages, systemText)| == |messages| + 1 <==> NeedsSystem(messages)
    ensures NeedsSystem(messages) ==> AgentInput(messages, systemText)[0] == SystemMessage(Plain(systemText))
  {
    var input := AgentInput(messages, systemText);
    if NeedsSystem(messages) {
      assert input[1..] == messages;
    }
  }

  /** Once the state holds two messages the system message is never sent
      again, and a conversation that already has one gets no second one:
      the LLM sees the system message at most once per conversation, and it
      is never stored in the state. */
  lemma SystemMessageAtMostOnce(messages: seq<Message>, systemText: string)
    ensures |messages| >= 2 ==> AgentInput(messages, systemText) == messages
    ensures (exists k :: 0 <= k < |messages| && messages[k].SystemMessage?) ==> AgentInput(messages, systemText) == messages
    ensures |AgentInput(messages, systemText)| <= |messages| + 1
  {
  }

  // ---------------------------------------------------------------------------
  // Routing (challenge_agents.py:157-166)

  datatype Route = ToTools | ToEnd

  /** `should_continue`: to the tools node exactly when the last message
      declares tool calls. */
  function ShouldContinue(messages: seq<Message>): (route: Route)
    requires |messages| > 0
    ensures route == ToTools <==> HasToolCalls(messages[|messages| - 1])
  {
    if HasToolCalls(messages[|messages| - 1]) then ToTools else ToEnd
  }

  // ---------------------------------------------------------------------------
  // The tools (challenge_agents.py:44-78, 131-155)

  /** The names of the bound tools, in binding order. */
  const ToolNames: seq<string> := ["list_mcp_tools", "list_mcp_resources", "list_mcp_prompts", "get_user_info", "read_mcp_resource"]

  predicate KnownTool(name: string) {
    name in ToolNames
  }

  /** The URL of a challenge's MCP server. */
  function ServerUrl(port: nat): string {
    "http://localhost:" + NatToString(port) + "/sse"
  }

  /** A string argument of a tool call, if the call supplies one under that key. */
  function StringArg(args: Args, key: string): Option<string> {
    if key in args && args[key].Str? then Some(args[key].s) else None
  }

  /** Invoking a bound tool: the client operation's text, or the argument
      validation error the tool raises when a required string argument is
      missing; that exception is not caught and ends the run. */
  function ToolReply(name: string, args: Args, ep: Endpoint): (r: Result<string, string>)
    requires KnownTool(name)
    ensures r.Failure? <==>
      (name == "get_user_info" && StringArg(args, "username").None?)
      || (name == "read_mcp_resource" && StringArg(args, "uri").None?)
  {
    if name == "list_mcp_tools" then Success(ToolListText(ep.listTools))
    else if name == "list_mcp_resources" then Success(ResourceListText(ep.listResources))
    else if name == "list_mcp_prompts" then Success(PromptListText(ep.listPrompts))
    else if name == "get_user_info" then
      match StringArg(args, "username")
      case None => Failure("validation error: username: field required")
      case Some(username) => Success(ToolCallText(ep.callTool("get_user_info", map["username" := Str(username)])))
    else
      match StringArg(args, "uri")
      case None => Failure("validation error: uri: field required")
      case Some(uri) => Success(ResourceReadText(ep.readResource(uri)))
  }

  /** The calls naming a bound tool, in declaration order. */
  function KnownCalls(calls: seq<ToolCall>): (known: seq<ToolCall>)
    ensures |known| <= |calls|
    ensures forall k :: 0 <= k < |known| ==> KnownTool(known[k].name)
  {
    if |calls| == 0 then []
    else KnownCalls(calls[..|calls| - 1]) + (if KnownTool(calls[|calls| - 1].name) then [calls[|calls| - 1]] else [])
  }

  /** No call to a bound tool is skipped. */
  lemma {:induction false} KnownCallsComplete(calls: seq<ToolCall>)
    ensures forall k :: 0 <= k < |calls| && KnownTool(calls[k].name) ==> calls[k] in KnownCalls(calls)
  {
    if |calls| > 0 {
      var init := calls[..|calls| - 1];
      KnownCallsComplete(init);
      forall k | 0 <= k < |calls| && KnownTool(calls[k].name)
        ensures calls[k] in KnownCalls(calls)
      {
        if k < |init| {
          assert init[k] == calls[k];
        }
      }
    }
  }

  /** Every kept call is one of the declared calls. */
  lemma {:induction false} KnownCallsSound(calls: seq<ToolCall>)
    ensures forall k :: 0 <= k < |KnownCalls(calls)| ==> KnownCalls(calls)[k] in calls
  {
    if |calls| > 0 {
      var init := calls[..|calls| - 1];
      KnownCallsSound(init);
      forall k | 0 <= k < |KnownCalls(calls)|
        ensures KnownCalls(calls)[k] in calls
      {
        if k < |KnownCalls(init)| {
          var j :| 0 <= j < |init| && init[j] == KnownCalls(init)[k];
          assert calls[j] == init[j];
        }
      }
    }
  }

  /** Keeping the bound calls of a concatenation keeps each part's, in order. */
  lemma {:induction false} KnownCallsAppend(a: seq<ToolCall>, b: seq<ToolCall>)
    ensures KnownCalls(a + b) == KnownCalls(a) + KnownCalls(b)
    decreases |b|
  {
    if |b| == 0 {
      assert a + b == a;
    } else {
      var n := |b|;
      assert (a + b)[..|a + b| - 1] == a + b[..n - 1];
      KnownCallsAppend(a, b[..n - 1]);
    }
  }

  /** The tools node's answer to a list of calls: one ToolMessage per call to
      a bound tool, in order, each carrying that call's id and the tool's
      text; calls to unknown tools are skipped; the first invalid call ends
      everything with its error. */
  function ToolResponses(calls: seq<ToolCall>, ep: Endpoint): (answers: Result<seq<Message>, string>)
    ensures answers.Success? ==> |answers.value| <= |calls|
  {
    if |calls| == 0 then Success([])
    else
      var call := calls[|calls| - 1];
      match ToolResponses(calls[..|calls| - 1], ep)
      case Failure(e) => Failure(e)
      case Success(prev) =>
        if !KnownTool(call.name) then Success(prev)
        else
          match ToolReply(call.name, call.args, ep)
          case Failure(e) => Failure(e)
          case Success(text) => Success(prev + [ToolMessage(Plain(text), call.id)])
  }

  /** The first call that fails validation decides the tools node's outcome. */
  lemma {:induction false} ToolResponsesStopAt(calls: seq<ToolCall>, i: nat, ep: Endpoint)
    requires i < |calls| && KnownTool(calls[i].name)
    requires ToolResponses(calls[..i], ep).Success? && ToolReply(calls[i].name, calls[i].args, ep).Failure?
    ensures ToolResponses(calls, ep) == Failure(ToolReply(calls[i].name, calls[i].args, ep).error)
    decreases |calls|
  {
    var init := calls[..|calls| - 1];
    if |calls| == i + 1 {
      assert init == calls[..i];
    } else {
      assert init[..i] == calls[..i];
      assert init[i] == calls[i];
      ToolResponsesStopAt(init, i, ep);
    }
  }

  /** The tools node's answers, stated call by call: they exist exactly when
      every call to a bound tool is valid, and then the k-th answer is the
      k-th bound call's text, tagged with that call's id. */
  lemma {:induction false} ToolResponsesMeaning(calls: seq<ToolCall>, ep: Endpoint)
    ensures ToolResponses(calls, ep).Success? <==> forall k :: 0 <= k < |calls| && KnownTool(calls[k].name) ==>
      ToolReply(calls[k].name, calls[k].args, ep).Success?
    ensures ToolResponses(calls, ep).Success? ==>
      && |ToolResponses(calls, ep).value| == |KnownCalls(calls)|
      && forall k :: 0 <= k < |KnownCalls(calls)| ==>
        && ToolReply(KnownCalls(calls)[k].name, KnownCalls(calls)[k].args, ep).Success?
        && ToolResponses(calls, ep).value[k]
           == ToolMessage(Plain(ToolReply(KnownCalls(calls)[k].name, KnownCalls(calls)[k].args, ep).value),
                          KnownCalls(calls)[k].id)
  {
    if |calls| > 0 {
      var init := calls[..|calls| - 1];
      var call := calls[|calls| - 1];
      ToolResponsesMeaning(init, ep);
      assert forall k :: 0 <= k < |init| ==> init[k] == calls[k];
    }
  }

  /** With only valid calls, the answers are correlated with the calls by id
      in declaration order: the id sequence of the answers is the id sequence
      of the calls to bound tools. */
  lemma ToolResponsesCorrelate(calls: seq<ToolCall>, ep: Endpoint)
    requires ToolResponses(calls, ep).Success?
    ensures |ToolResponses(calls, ep).value| == |KnownCalls(calls)|
    ensures forall k :: 0 <= k < |ToolResponses(calls, ep).value| ==>
      ToolResponses(calls, ep).value[k].ToolMessage?
      && ToolResponses(calls, ep).value[k].toolCallId == KnownCalls(calls)[k].id
    ensures (forall k :: 0 <= k < |calls| ==> KnownTool(calls[k].name)) ==>
      |ToolResponses(calls, ep).value| == |calls|
  {
    ToolResponsesMeaning(calls, ep);
    if forall k :: 0 <= k < |calls| ==> KnownTool(calls[k].name) {
      KnownCallsAll(calls);
    }
  }

  lemma {:induction false} KnownCallsAll(calls: seq<ToolCall>)
    requires forall k :: 0 <= k < |calls| ==> KnownTool(calls[k].name)
    ensures KnownCalls(calls) == calls
  {
    if |calls| > 0 {
      var init := calls[..|calls| - 1];
      KnownCallsAll(init);
      assert init + [calls[|calls| - 1]] == calls;
    }
  }

  // ---------------------------------------------------------------------------
  // The loop (challenge_agents.py:168-177)

  /** How a run of the graph ends: the agent answered without tool calls, a
      tool call failed validation (the exception ends the run), or the fuel
      bound of the model ran out. */
  datatype RunOutcome =
    | Finished(messages: seq<Message>)
    | Crashed(messages: seq<Message>, error: string)
    | OutOfFuel(messages: seq<Message>)

  /** What the tools node makes of the calls of the last message: the
      answers to append, or the error that ends the run. */
  type ToolsNode = seq<ToolCall> -> Result<seq<Message>, string>

  /** The tools node of a graph whose client talks to `ep`. */
  function ToolsOn(ep: Endpoint): ToolsNode {
    calls => ToolResponses(calls, ep)
  }

  /** Where one round of the graph leads: the end of the run, or the state
      from which the agent runs again. */
  datatype Round = Stop(outcome: RunOutcome) | Again(next: seq<Message>)

  /** One round: the agent's reply and, when it declares calls, the tools'
      answers. The state only grows; the run ends normally only after a
      reply without calls, and crashes only after a reply with calls. */
  function AgentRound(state: seq<Message>, llm: Llm, tools: ToolsNode, systemText: string): (round: Round)
    ensures round.Again? ==> |round.next| > |state| && round.next[..|state|] == state
    ensures round.Stop? ==>
      var ms := round.outcome.messages;
      && |ms| == |state| + 1 && ms[..|state|] == state
      && !round.outcome.OutOfFuel?
      && (round.outcome.Finished? <==> !HasToolCalls(ms[|ms| - 1]))
  {
    var afterAgent := state + [llm(AgentInput(state, systemText))];
    if ShouldContinue(afterAgent) == ToEnd then Stop(Finished(afterAgent))
    else
      match tools(CallsOf(afterAgent[|afterAgent| - 1]))
      case Failure(e) => Stop(Crashed(afterAgent, e))
      case Success(answers) =>
        assert (afterAgent + answers)[..|state|] == state;
        Again(afterAgent + answers)
  }

  /** One round, reply by reply: a reply without tool calls ends the run
      with that reply appended; the run goes on only after a reply with
      calls whose answers all exist, and then those answers follow the
      reply that asked for them. */
  lemma AgentRoundMeaning(state: seq<Message>, llm: Llm, tools: ToolsNode, systemText: string)
    ensures var reply := llm(AgentInput(state, systemText));
      !HasToolCalls(reply) ==> AgentRound(state, llm, tools, systemText) == Stop(Finished(state + [reply]))
    ensures var reply := llm(AgentInput(state, systemText));
      HasToolCalls(reply) && tools(CallsOf(reply)).Failure? ==>
        AgentRound(state, llm, tools, systemText) == Stop(Crashed(state + [reply], tools(CallsOf(reply)).error))
    ensures var reply := llm(AgentInput(state, systemText));
      AgentRound(state, llm, tools, systemText).Again? <==>
        HasToolCalls(reply) && tools(CallsOf(reply)).Success?
    ensures var reply := llm(AgentInput(state, systemText));
      AgentRound(state, llm, tools, systemText).Again? ==>
        AgentRound(state, llm, tools, systemText).next == state + [reply] + tools(CallsOf(reply)).value
  {
  }

  /** The run from a state, for at most `fuel` rounds. */
  function Replay(state: seq<Message>, llm: Llm, tools: ToolsNode, systemText: string, fuel: nat): (outcome: RunOutcome)
    ensures |outcome.messages| >= |state|
    decreases fuel
  {
    if fuel == 0 then OutOfFuel(state)
    else
      match AgentRound(state, llm, tools, systemText)
      case Stop(outcome) => outcome
      case Again(next) => Replay(next, llm, tools, systemText, fuel - 1)
  }

  /** A run with fuel left is one round followed by the rest of the run. */
  lemma ReplayStep(state: seq<Message>, llm: Llm, tools: ToolsNode, systemText: string, fuel: nat)
    requires fuel > 0
    ensures var round := AgentRound(state, llm, tools, systemText);
      Replay(state, llm, tools, systemText, fuel)
        == if round.Stop? then round.outcome else Replay(round.next, llm, tools, systemText, fuel - 1)
  {
  }

  /** The state only grows: a run never drops or changes a message. */
  lemma {:induction false} ReplayKeepsState(state: seq<Message>, llm: Llm, tools: ToolsNode, systemText: string, fuel: nat)
    ensures |Replay(state, llm, tools, systemText, fuel).messages| >= |state|
    ensures Replay(state, llm, tools, systemText, fuel).messages[..|state|] == state
    decreases fuel
  {
    if fuel > 0 {
      var round := AgentRound(state, llm, tools, systemText);
      if round.Again? {
        ReplayKeepsState(round.next, llm, tools, systemText, fuel - 1);
        var rest := Replay(round.next, llm, tools, systemText, fuel - 1);
        assert Replay(state, llm, tools, systemText, fuel) == rest;
        assert rest.messages[..|state|] == rest.messages[..|round.next|][..|state|];
      }
    }
  }

  /** A run that ends has added messages; it stops normally exactly when its
      last message declares no tool calls, and otherwise it crashed in the
      tools step that answered that message. */
  lemma {:induction false} ReplayEnds(state: seq<Message>, llm: Llm, tools: ToolsNode, systemText: string, fuel: nat)
    requires !Replay(state, llm, tools, systemText, fuel).OutOfFuel?
    ensures |Replay(state, llm, tools, systemText, fuel).messages| > |state|
    ensures var ms := Replay(state, llm, tools, systemText, fuel).messages;
      Replay(state, llm, tools, systemText, fuel).Finished? <==> !HasToolCalls(ms[|ms| - 1])
    decreases fuel
  {
    var round := AgentRound(state, llm, tools, systemText);
    if round.Again? {
      ReplayEnds(round.next, llm, tools, systemText, fuel - 1);
      assert Replay(state, llm, tools, systemText, fuel) == Replay(round.next, llm, tools, systemText, fuel - 1);
    } else {
      assert Replay(state, llm, tools, systemText, fuel) == round.outcome;
    }
  }

  /** Fuel only bounds the model: a run that ends within some bound ends the
      same way with any larger bound. */
  lemma {:induction false} ReplayFuelMonotone(state: seq<Message>, llm: Llm, tools: ToolsNode, systemText: string,
                                              fuel: nat, more: nat)
    requires fuel <= more
    requires !Replay(state, llm, tools, systemText, fuel).OutOfFuel?
    ensures Replay(state, llm, tools, systemText, more) == Replay(state, llm, tools, systemText, fuel)
    decreases fuel
  {
    var round := AgentRound(state, llm, tools, systemText);
    if round.Again? {
      ReplayFuelMonotone(round.next, llm, tools, systemText, fuel - 1, more - 1);
    }
  }

  // ---------------------------------------------------------------------------
  // One challenge agent (challenge_agents.py:38-177)

  class ChallengeGraph {
    const challengeNum: nat
    const port: nat
    const config: ChallengeConfig
    const client: MCPClient
    /** The system message text. It depends only on the number, the port and
        the configuration, all fixed here, so it is formatted once. */
    const systemText: string

    /** `create_challenge_agent`: a client on the challenge's port. */
    constructor(challengeNum: nat, port: nat, config: ChallengeConfig)
      ensures this.challengeNum == challengeNum && this.port == port && this.config == config
      ensures client.mcpUrl == ServerUrl(port)
      ensures systemText == SystemText(challengeNum, port, config)
    {
      this.challengeNum := challengeNum;
      this.port := port;
      this.config := config;
      client := new MCPClient(ServerUrl(port));
      systemText := SystemText(challengeNum, port, config);
    }

    /** `challenge_node`: the state update is the LLM's one response to the
        conversation, shown the system message on a first turn. */
    method ChallengeNode(messages: seq<Message>, llm: Llm) returns (update: seq<Message>)
      ensures update == [llm(AgentInput(messages, systemText))]
    {
      var systemMsg := systemText;
      var input := messages;
      if |messages| <= 1 && forall k :: 0 <= k < |messages| ==> !messages[k].SystemMessage? {
        input := [SystemMessage(Plain(systemMsg))] + messages;
      }
      var response := llm(input);
      update := [response];
    }

    /** `t.ainvoke(tool_args)` for the bound tool named `name`. */
    method InvokeTool(name: string, args: Args, net: Network) returns (result: Result<string, string>)
      requires KnownTool(name)
      ensures result == ToolReply(name, args, net(client.mcpUrl))
    {
      if name == "list_mcp_tools" {
        var text := client.ListTools(net);
        result := Success(text);
      } else if name == "list_mcp_resources" {
        var text := client.ListResources(net);
        result := Success(text);
      } else if name == "list_mcp_prompts" {
        var text := client.ListPrompts(net);
        result := Success(text);
      } else if name == "get_user_info" {
        var username := StringArg(args, "username");
        if username.None? {
          result := Failure("validation error: username: field required");
        } else {
          var text := client.ExecuteTool(net, "get_user_info", map["username" := Str(username.value)]);
          result := Success(text);
        }
      } else {
        var uri := StringArg(args, "uri");
        if uri.None? {
          result := Failure("validation error: uri: field required");
        } else {
          var text := client.ReadResource(net, uri.value);
          result := Success(text);
        }
      }
    }

    /** `tool_node`: the answers to the last message's calls, or the error of
        the first call that fails validation. */
    method ToolNode(messages: seq<Message>, net: Network) returns (outcome: Result<seq<Message>, string>)
      requires |messages| > 0
      ensures outcome == ToolResponses(CallsOf(messages[|messages| - 1]), net(client.mcpUrl))
    {
      var lastMessage := messages[|messages| - 1];
      var toolResponses: seq<Message> := [];
      if HasToolCalls(lastMessage) {
        var calls := lastMessage.toolCalls;
        for i := 0 to |calls|
          invariant ToolResponses(calls[..i], net(client.mcpUrl)) == Success(toolResponses)
        {
          var toolCall := calls[i];
          assert calls[..i + 1][..i] == calls[..i];
          var j := 0;
          while j < |ToolNames|
            invariant 0 <= j <= |ToolNames|
            invariant forall k :: 0 <= k < j ==> ToolNames[k] != toolCall.name
            invariant ToolResponses(calls[..i], net(client.mcpUrl)) == Success(toolResponses)
          {
            if ToolNames[j] == toolCall.name {
              var result := InvokeTool(toolCall.name, toolCall.args, net);
              if result.Failure? {
                ToolResponsesStopAt(calls, i, net(client.mcpUrl));
                return Failure(result.error);
              }
              toolResponses := toolResponses + [ToolMessage(Plain(result.value), toolCall.id)];
              break;
            }
            j := j + 1;
          }
        }
        assert calls[..|calls|] == calls;
      }
      outcome := Success(toolResponses);
    }

    /** One round of the graph: the agent node, the route, and the tools
        node when the agent declared calls. */
    method Round(messages: seq<Message>, llm: Llm, net: Network) returns (round: Round)
      ensures round == AgentRound(messages, llm, ToolsOn(net(client.mcpUrl)), systemText)
    {
      var update := ChallengeNode(messages, llm);
      var afterAgent := messages + update;
      if ShouldContinue(afterAgent) == ToEnd {
        return Stop(Finished(afterAgent));
      }
      var toolOutcome := ToolNode(afterAgent, net);
      if toolOutcome.Failure? {
        return Stop(Crashed(afterAgent, toolOutcome.error));
      }
      round := Again(afterAgent + toolOutcome.value);
    }

    /** The graph's run: rounds while the agent declares calls, for at most
        `fuel` rounds. */
    method Run(state: seq<Message>, llm: Llm, net: Network, fuel: nat) returns (outcome: RunOutcome)
      ensures outcome == Replay(state, llm, ToolsOn(net(client.mcpUrl)), systemText, fuel)
    {
      ghost var tools := ToolsOn(net(client.mcpUrl));
      var messages := state;
      var steps := fuel;
      while steps > 0
        invariant Replay(messages, llm, tools, systemText, steps) == Replay(state, llm, tools, systemText, fuel)
      {
        var round := Round(messages, llm, net);
        ReplayStep(messages, llm, tools, systemText, steps);
        if round.Stop? {
          return round.outcome;
        }
        messages := round.next;
        steps := steps - 1;
      }
      outcome := OutOfFuel(messages);
    }
  }
}
