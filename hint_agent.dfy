/** The interactive hint agent. One graph node, `hint_node`, answers a turn:
    when the user's last message asks for an MCP operation it resolves which
    one by keyword and regex, runs it against the fixed challenge 1 server and
    reports the outcome as an assistant message, without consulting the LLM;
    otherwise the LLM answers. The four helper operations each open a fresh
    session and turn any exception into an error string. */
module HintAgent {
  import opened Wrappers
  import opened Json
  import opened Text
  import opened Messages
  import opened McpTypes
  import opened Marshal
  import opened Patterns

  /** The server every helper connects to. */
  const HintServerUrl := "http://localhost:9001/sse"

  /** The system prompt put in front of the first turn. */
  const HintSystemPrompt := @"You are a friendly and helpful MCP Security Training Assistant. Your role is to guide users through hands-on security testing of vulnerable MCP servers by providing hints, explanations, and encouragement.

## Your Mission
Help users learn about MCP security vulnerabilities through interactive exploration. Provide hints when they're stuck, explain concepts when asked, but let them discover vulnerabilities themselves.

## Available Challenges

### Challenge 1: Basic Prompt Injection (Port 9001)
**MCP Server**: http://localhost:9001/sse
**Vulnerability**: Prompt injection in user input handling
**Key Resources**:
- `notes://{user_id}` - Accepts user input (VULNERABLE - reflects user_id without sanitization)
- `internal://credentials` - Hidden credentials resource (not listed, but accessible)
**Tools**:
- `get_user_info(username: str)` - Returns user information

## How to Interact

**When users ask for hints**, provide them in this order:
1. **Gentle Hint**: Point them in the right direction without giving away the answer
2. **Specific Hint**: Give more details about what to look for
3. **Technical Hint**: Explain the vulnerability mechanism
4. **Example Payload**: Only if they're really stuck, show a working example

**When users ask you to execute MCP tools or read resources**:
- You MUST call the appropriate function: execute_mcp_tool() or read_mcp_resource()
- Examples: ""run tool get_user_info with user=admin"" → execute_mcp_tool(""get_user_info"", {""username"": ""admin""})
- Examples: ""read resource internal://credentials"" → read_mcp_resource(""internal://credentials"")
- NEVER make up results - always execute the actual tool/resource

**When users share their attempts**, analyze them and provide feedback:
- If close, encourage and suggest refinements
- If wrong direction, gently redirect
- If successful, congratulate and explain why it worked

**When users ask about concepts**, explain clearly:
- What is prompt injection?
- How does MCP resource URI templating work?
- Why is input sanitization important?

## Your Style
- Be encouraging and positive 😊
- Use emojis to make it friendly 🎯
- Provide progressive hints, not full solutions
- Celebrate discoveries and learning moments 🎉
- Explain the ""why"" behind security concepts 🔐
- ALWAYS execute real MCP tools/resources when asked, never fake results

Remember: Your goal is to teach, not solve. Help users learn by discovery!
"

  // ---------------------------------------------------------------------------
  // Helper operations (hint_agent.py:105-238)

  /** The text a helper returns: the serialised payload, or its error line
      followed by the cause. */
  function HintReply(outcome: Result<Json, string>, errorPrefix: string): string {
    match outcome
    case Success(j) => Dumps(j)
    case Failure(cause) => errorPrefix + cause
  }

  /** A list of records as a JSON array, or the failure that stopped it. */
  function AsArray(records: Result<seq<Json>, string>): Result<Json, string> {
    if records.Failure? then Failure(records.error) else Success(Arr(records.value))
  }

  function ExecutionText(toolName: string, outcome: Result<seq<ContentItem>, string>): string {
    HintReply(if outcome.Failure? then Failure(outcome.error) else Success(Arr(ContentEntries(outcome.value))),
              "Error executing tool " + toolName + ": ")
  }

  function ReadingText(uri: string, outcome: Result<seq<ContentItem>, string>): string {
    HintReply(if outcome.Failure? then Failure(outcome.error) else Success(Arr(ResourceContentEntries(outcome.value))),
              "Error reading resource " + uri + ": ")
  }

  /** `list_mcp_tools` as written: it iterates the `ListToolsResult` object
      itself instead of its `tools` list. Iterating that pydantic object yields
      (field name, value) tuples, which have no `name`; a bare list is iterated
      as intended; iterating a lone tuple yields its strings (an empty one yields
      nothing), and any other lone value has no tools to yield either. */
  function ToolItemsAsWritten(l: Listing): (items: Result<seq<Json>, string>)
    ensures l.Wrapped? ==> items.Failure?
    ensures items.Success? ==> l.Bare? || l == Single(Tuple([]))
  {
    match l
    case Wrapped(_) => Failure("'tuple' object has no attribute 'name'")
    case Bare(items) => HintToolRecords(items)
    case Single(e) =>
      if e == Tuple([]) then Success([])
      else if e.Tuple? then Failure("'str' object has no attribute 'name'")
      else Failure("object has no attribute 'name'")
  }

  /** The reply of `list_mcp_tools` as written: an error line for every
      result object the server can send. */
  function ToolListingAsWrittenText(outcome: Result<Listing, string>): (text: string)
    ensures outcome.Success? && outcome.value.Wrapped? ==> StartsWith(text, "Error listing tools: ")
    ensures outcome.Failure? ==> text == "Error listing tools: " + outcome.error
  {
    HintReply(if outcome.Failure? then Failure(outcome.error) else AsArray(ToolItemsAsWritten(outcome.value)),
              "Error listing tools: ")
  }

  /** `list_mcp_tools` as intended: the records of the listed tools. */
  function ToolListingText(outcome: Result<Listing, string>): string {
    HintReply(if outcome.Failure? then Failure(outcome.error) else AsArray(HintToolRecords(Unwrap(outcome.value))),
              "Error listing tools: ")
  }

  function ResourceListingText(outcome: Result<Listing, string>): string {
    HintReply(if outcome.Failure? then Failure(outcome.error) else AsArray(HintResourceRecords(Unwrap(outcome.value))),
              "Error listing resources: ")
  }

  /** A helper's reply is never empty, and it starts with "Error " exactly
      when the operation failed: a payload is an array, whose text starts
      with a bracket. */
  lemma HintReplyErrorIff(outcome: Result<Json, string>, errorPrefix: string)
    requires StartsWith(errorPrefix, "Error ")
    requires outcome.Success? ==> outcome.value.Arr?
    ensures |HintReply(outcome, errorPrefix)| > 0
    ensures StartsWith(HintReply(outcome, errorPrefix), "Error ") <==> outcome.Failure?
  {
    var t := HintReply(outcome, errorPrefix);
    if outcome.Success? {
      assert t[0] == '[';
      assert !StartsWith(t, "Error ") by {
        assert |t| < 6 || t[..6][0] == t[0];
        assert "Error "[0] == 'E';
      }
    } else {
      assert t[..6] == errorPrefix[..6];
    }
  }

  /** Each helper reports failure, and only failure, with an "Error " line: a
      failed request, a tool without a name, or a resource given as an empty
      tuple. */
  lemma HintErrorIffFailure(toolName: string, uri: string,
                            calls: Result<seq<ContentItem>, string>, contents: Result<seq<ContentItem>, string>,
                            tools: Result<Listing, string>, resources: Result<Listing, string>)
    ensures StartsWith(ExecutionText(toolName, calls), "Error ") <==> calls.Failure?
    ensures StartsWith(ReadingText(uri, contents), "Error ") <==> contents.Failure?
    ensures StartsWith(ToolListingText(tools), "Error ") <==>
      tools.Failure? || exists k :: 0 <= k < |Unwrap(tools.value)| && !IsNamed(Unwrap(tools.value)[k])
    ensures StartsWith(ResourceListingText(resources), "Error ") <==>
      resources.Failure? || exists k :: 0 <= k < |Unwrap(resources.value)| && Unwrap(resources.value)[k] == Tuple([])
  {
    HintReplyErrorIff(if calls.Failure? then Failure(calls.error) else Success(Arr(ContentEntries(calls.value))),
                      "Error executing tool " + toolName + ": ");
    HintReplyErrorIff(if contents.Failure? then Failure(contents.error) else Success(Arr(ResourceContentEntries(contents.value))),
                      "Error reading resource " + uri + ": ");
    HintReplyErrorIff(if tools.Failure? then Failure(tools.error) else AsArray(HintToolRecords(Unwrap(tools.value))),
                      "Error listing tools: ");
    HintReplyErrorIff(if resources.Failure? then Failure(resources.error) else AsArray(HintResourceRecords(Unwrap(resources.value))),
                      "Error listing resources: ");
  }

  /** The defect of `list_mcp_tools`: whatever tools the server lists in its
      result object, the code as written reports an error, while the intended
      code lists one record per tool, in order, each with the tool's name. */
  lemma ToolListingDiscrepancy(items: seq<Entry>)
    requires forall k :: 0 <= k < |items| ==> IsNamed(items[k])
    ensures StartsWith(ToolListingAsWrittenText(Success(Wrapped(items))), "Error listing tools: ")
    ensures !StartsWith(ToolListingText(Success(Wrapped(items))), "Error ")
    ensures HintToolRecords(items).Success? && |HintToolRecords(items).value| == |items|
    ensures forall k :: 0 <= k < |items| ==>
      Lookup(HintToolRecords(items).value[k], "name") == Some(Str(items[k].d.name.value))
  {
    var l := Wrapped(items);
    HintReplyErrorIff(AsArray(HintToolRecords(items)), "Error listing tools: ");
    assert Unwrap(l) == items;
    var t := ToolListingAsWrittenText(Success(l));
    assert t == "Error listing tools: " + "'tuple' object has no attribute 'name'";
    assert t[..|"Error listing tools: "|] == "Error listing tools: ";
    forall k | 0 <= k < |items|
      ensures Lookup(HintToolRecords(items).value[k], "name") == Some(Str(items[k].d.name.value))
    {
      assert HintToolRecord(items[k]) == Success(HintToolRecords(items).value[k]);
    }
  }

  method ExecuteMcpTool(net: Network, toolName: string, arguments: Args) returns (r: string)
    ensures r == ExecutionText(toolName, net(HintServerUrl).callTool(toolName, arguments))
  {
    var outcome := net(HintServerUrl).callTool(toolName, arguments);
    match outcome
    case Failure(cause) =>
      r := "Error executing tool " + toolName + ": " + cause;
    case Success(content) =>
      var contentList := BuildContentList(content);
      r := Dumps(Arr(contentList));
  }

  method ReadMcpResource(net: Network, resourceUri: string) returns (r: string)
    ensures r == ReadingText(resourceUri, net(HintServerUrl).readResource(resourceUri))
  {
    var outcome := net(HintServerUrl).readResource(resourceUri);
    match outcome
    case Failure(cause) =>
      r := "Error reading resource " + resourceUri + ": " + cause;
    case Success(contents) =>
      var contentList := BuildResourceContentList(contents);
      r := Dumps(Arr(contentList));
  }

  /** `list_mcp_tools`, with the tools taken from the result's `tools` list. */
  method ListMcpTools(net: Network) returns (r: string)
    ensures r == ToolListingText(net(HintServerUrl).listTools)
  {
    var outcome := net(HintServerUrl).listTools;
    match outcome
    case Failure(cause) =>
      r := "Error listing tools: " + cause;
    case Success(result) =>
      var records := HintToolRecords(Unwrap(result));
      if records.Failure? {
        r := "Error listing tools: " + records.error;
      } else {
        r := Dumps(Arr(records.value));
      }
  }

  method ListMcpResources(net: Network) returns (r: string)
    ensures r == ResourceListingText(net(HintServerUrl).listResources)
  {
    var outcome := net(HintServerUrl).listResources;
    if outcome.Failure? {
      r := "Error listing resources: " + outcome.error;
      return;
    }
    var resources := Unwrap(outcome.value);
    var resourceList: seq<Json> := [];
    for i := 0 to |resources|
      invariant HintResourceRecords(resources[..i]) == Success(resourceList)
    {
      var res := resources[i];
      var entry: Json;
      if HasUriAndName(res) {
        var resDict := [("uri", Str(res.d.uri.value)), ("name", Str(res.d.name.value))];
        if Truthy(res.d.description) {
          resDict := resDict + [("description", Str(res.d.description.value))];
        }
        if Truthy(res.d.mimeType) {
          resDict := resDict + [("mimeType", Str(res.d.mimeType.value))];
        }
        entry := Obj(resDict);
        assert resDict ==
          [("uri", Str(res.d.uri.value)), ("name", Str(res.d.name.value))]
          + (if Truthy(res.d.description) then [("description", Str(res.d.description.value))] else [])
          + (if Truthy(res.d.mimeType) then [("mimeType", Str(res.d.mimeType.value))] else []);
      } else if res.Tuple? {
        if |res.elems| == 0 {
          HintResourceRecordsStopAt(resources, i);
          r := "Error listing resources: " + "tuple index out of range";
          return;
        }
        entry := Obj([("uri", if res.elems[0] != "" then Str(res.elems[0]) else Null),
                      ("name", if |res.elems| > 1 then Str(res.elems[1]) else Null)]);
        assert HintResourceRecord(res) == Success(entry);
      } else {
        entry := Obj([("info", Str(Repr(res)))]);
        assert HintResourceRecord(res) == Success(entry);
      }
      assert HintResourceRecord(res) == Success(entry);
      assert resources[..i + 1][..i] == resources[..i] && resources[..i + 1][i] == res;
      assert HintResourceRecords(resources[..i + 1]) == Success(resourceList + [entry]);
      resourceList := resourceList + [entry];
    }
    assert resources[..|resources|] == resources;
    r := Dumps(Arr(resourceList));
  }

  // ---------------------------------------------------------------------------
  // Reading the user's turn (hint_agent.py:248-266, 302-314)

  /** An element of a multimodal content list as text: a dict's 'text' entry
      (empty when missing), or the element's `str()` form. */
  function PartText(p: Part): string {
    match p
    case DictPart(text) => text.GetOr("")
    case OtherPart(repr) => repr
  }

  /** The text of a message's content; a list is joined with single spaces. */
  function ContentText(c: Content): string {
    match c
    case Plain(text) => text
    case Parts(parts) => Join(seq(|parts|, k requires 0 <= k < |parts| => PartText(parts[k])), " ")
  }

  /** Flattening a multimodal content list keeps the text of every element. */
  lemma ContentTextKeepsEveryPart(parts: seq<Part>, k: nat)
    requires k < |parts|
    ensures Contains(ContentText(Parts(parts)), PartText(parts[k]))
  {
    var texts := seq(|parts|, j requires 0 <= j < |parts| => PartText(parts[j]));
    JoinContains(texts, " ", k);
  }

  /** The text of the last message, empty for an empty conversation. */
  function LastText(messages: seq<Message>): string {
    if |messages| == 0 then "" else ContentText(messages[|messages| - 1].content)
  }

  /** `any(x in text for x in phrases)`. */
  predicate MentionsAny(text: string, phrases: seq<string>) {
    exists k | 0 <= k < |phrases| :: Contains(text, phrases[k])
  }

  const ListToolsPhrases: seq<string> := ["list tools", "show tools", "available tools"]
  const ListResourcesPhrases: seq<string> := ["list resources", "show resources", "available resources"]
  const RunToolPhrases: seq<string> := ["run tool", "execute tool", "call tool", "use tool"]
  const ReadResourcePhrases: seq<string> := ["read resource", "access resource", "get resource", "fetch resource"]

  /** A text that mentions one of some non-empty phrases is not empty. */
  lemma MentionsNonEmpty(text: string, phrases: seq<string>)
    requires forall k :: 0 <= k < |phrases| ==> |phrases[k]| > 0
    requires MentionsAny(text, phrases)
    ensures |text| > 0
  {
    var k :| 0 <= k < |phrases| && Contains(text, phrases[k]);
    var i: int :| 0 <= i <= |text| && OccursAt(text, phrases[k], i);
  }

  // ---------------------------------------------------------------------------
  // Resolving the operation (hint_agent.py:272-321)

  /** The operation a turn asks for; at most one per turn. */
  datatype Command =
    | ListToolsCommand
    | ListResourcesCommand
    | UserInfoCommand(username: string)
    | ReadResourceCommand(uri: string)
    | NoCommand

  /** The operation a user's text asks for. The keyword tests run on the
      lowered text, in a fixed order, and the first keyword group that
      matches decides alone, even when its argument cannot be extracted.
      The username is taken from the lowered text; the URI from the
      original text, so its case is kept. */
  function ResolveCommand(original: string): (c: Command)
    ensures c.UserInfoCommand? ==>
      && |c.username| > 0
      && (forall k :: 0 <= k < |c.username| ==> IsWordChar(c.username[k]))
      && Contains(Lower(original), c.username)
      && Lower(c.username) == c.username
    ensures c.ReadResourceCommand? ==> Contains(original, c.uri) && Contains(c.uri, "://")
  {
    var low := Lower(original);
    if MentionsAny(low, ListToolsPhrases) then ListToolsCommand
    else if MentionsAny(low, ListResourcesPhrases) then ListResourcesCommand
    else if MentionsAny(low, RunToolPhrases) then
      if Contains(low, "get_user_info") && FindUsername(low).Some? then
        LowerSubstring(original, FindUsername(low).value);
        UserInfoCommand(FindUsername(low).value)
      else NoCommand
    else if MentionsAny(low, ReadResourcePhrases) then
      if FindUri(original).Some? then ReadResourceCommand(FindUri(original).value) else NoCommand
    else NoCommand
  }

  /** The keyword groups take precedence in order, and the first group that
      matches decides: a message lists tools exactly when it asks to,
      whatever else it says; a run-tool message never reads a resource,
      even when no user lookup can be extracted from it; the arguments are
      the first username match in the lowered text and the first URI match
      in the original text; and nothing runs exactly when no group matches
      or the deciding group lacks its argument. */
  lemma ResolveOrder(original: string)
    ensures var low := Lower(original);
      MentionsAny(low, ListToolsPhrases) ==> ResolveCommand(original) == ListToolsCommand
    ensures var low := Lower(original);
      ResolveCommand(original) == ListResourcesCommand <==>
        !MentionsAny(low, ListToolsPhrases) && MentionsAny(low, ListResourcesPhrases)
    ensures var low := Lower(original);
      ResolveCommand(original).UserInfoCommand? ==>
        && !MentionsAny(low, ListToolsPhrases) && !MentionsAny(low, ListResourcesPhrases)
        && MentionsAny(low, RunToolPhrases) && Contains(low, "get_user_info")
        && Some(ResolveCommand(original).username) == FindUsername(low)
    ensures var low := Lower(original);
      ResolveCommand(original).ReadResourceCommand? ==>
        && !MentionsAny(low, ListToolsPhrases) && !MentionsAny(low, ListResourcesPhrases)
        && !MentionsAny(low, RunToolPhrases) && MentionsAny(low, ReadResourcePhrases)
        && Some(ResolveCommand(original).uri) == FindUri(original)
    ensures var low := Lower(original);
      MentionsAny(low, RunToolPhrases) ==> !ResolveCommand(original).ReadResourceCommand?
    ensures var low := Lower(original);
      ResolveCommand(original) == ListToolsCommand ==> MentionsAny(low, ListToolsPhrases)
    ensures var low := Lower(original);
      && !MentionsAny(low, ListToolsPhrases) && !MentionsAny(low, ListResourcesPhrases)
      && MentionsAny(low, RunToolPhrases) && Contains(low, "get_user_info")
      && FindUsername(low).Some?
      ==> ResolveCommand(original) == UserInfoCommand(FindUsername(low).value)
    ensures var low := Lower(original);
      && !MentionsAny(low, ListToolsPhrases) && !MentionsAny(low, ListResourcesPhrases)
      && !MentionsAny(low, RunToolPhrases) && MentionsAny(low, ReadResourcePhrases)
      && FindUri(original).Some?
      ==> ResolveCommand(original) == ReadResourceCommand(FindUri(original).value)
    ensures var low := Lower(original);
      ResolveCommand(original) == NoCommand <==>
        && !MentionsAny(low, ListToolsPhrases) && !MentionsAny(low, ListResourcesPhrases)
        && (MentionsAny(low, RunToolPhrases) ==>
              !(Contains(low, "get_user_info") && FindUsername(low).Some?))
        && (!MentionsAny(low, RunToolPhrases) && MentionsAny(low, ReadResourcePhrases) ==>
              FindUri(original).None?)
  {
  }

  /** Letter case in the user's message changes no decision: two messages
      that differ only in case ask for the same operation, with the same
      username, and name resources that differ only in case (the URI alone
      keeps the user's spelling). */
  lemma ResolveIgnoresCase(a: string, b: string)
    requires Lower(a) == Lower(b)
    ensures ResolveCommand(a).ReadResourceCommand? <==> ResolveCommand(b).ReadResourceCommand?
    ensures !ResolveCommand(a).ReadResourceCommand? ==> ResolveCommand(a) == ResolveCommand(b)
    ensures ResolveCommand(a).ReadResourceCommand? ==> Lower(ResolveCommand(a).uri) == Lower(ResolveCommand(b).uri)
  {
    var low := Lower(a);
    assert Lower(b) == low;
    if !MentionsAny(low, ListToolsPhrases) && !MentionsAny(low, ListResourcesPhrases)
       && !MentionsAny(low, RunToolPhrases) && MentionsAny(low, ReadResourcePhrases) {
      FindUriIgnoresCase(a, b);
    }
  }

  /** The outcome of running a command against the server. Whatever the
      server does, it is a non-empty text, so the LLM is never consulted
      after an operation ran. */
  function CommandResult(c: Command, ep: Endpoint): (result: string)
    requires !c.NoCommand?
    ensures |result| > 0
  {
    match c
    case ListToolsCommand =>
      HintReplyErrorIff(if ep.listTools.Failure? then Failure(ep.listTools.error) else AsArray(HintToolRecords(Unwrap(ep.listTools.value))),
                        "Error listing tools: ");
      ToolListingText(ep.listTools)
    case ListResourcesCommand =>
      HintReplyErrorIff(if ep.listResources.Failure? then Failure(ep.listResources.error) else AsArray(HintResourceRecords(Unwrap(ep.listResources.value))),
                        "Error listing resources: ");
      ResourceListingText(ep.listResources)
    case UserInfoCommand(username) =>
      var calls := ep.callTool("get_user_info", map["username" := Str(username)]);
      HintReplyErrorIff(if calls.Failure? then Failure(calls.error) else Success(Arr(ContentEntries(calls.value))),
                        "Error executing tool " + "get_user_info" + ": ");
      ExecutionText("get_user_info", calls)
    case ReadResourceCommand(uri) =>
      var contents := ep.readResource(uri);
      HintReplyErrorIff(if contents.Failure? then Failure(contents.error) else Success(Arr(ResourceContentEntries(contents.value))),
                        "Error reading resource " + uri + ": ");
      ReadingText(uri, contents)
  }

  /** The first line of the assistant message announcing a command. */
  function Banner(c: Command): string
    requires !c.NoCommand?
  {
    match c
    case ListToolsCommand => "\U{1F4CB} Available MCP Tools:"
    case ListResourcesCommand => "\U{1F4CB} Available MCP Resources:"
    case UserInfoCommand(username) => "\U{1F527} Executed tool `get_user_info(username='" + username + "')`:"
    case ReadResourceCommand(uri) => "\U{1F4C4} Read resource `" + uri + "`:"
  }

  /** The announcement: the banner, then the outcome in a json code block. */
  function Announcement(c: Command, result: string): string
    requires !c.NoCommand?
  {
    Banner(c) + "\n```json\n" + result + "\n```"
  }

  // ---------------------------------------------------------------------------
  // The node (hint_agent.py:244-329)

  /** The conversation the node works on: the system prompt goes in front of
      a conversation of exactly one message. */
  function WithHintPrompt(messages: seq<Message>): seq<Message> {
    if |messages| == 1 then [SystemMessage(Plain(HintSystemPrompt))] + messages else messages
  }

  /** `hint_node`: the new conversation is the old one (with the system
      prompt in front of a first turn) plus exactly one message, the
      announcement of the operation the last message asks for, or else the
      LLM's answer to the conversation so far. */
  method HintNode(messages: seq<Message>, llm: Llm, net: Network) returns (out: seq<Message>)
    ensures var prefix := WithHintPrompt(messages);
            var c := ResolveCommand(LastText(messages));
            out == prefix + [if c.NoCommand? then llm(prefix)
                             else AIMessage(Plain(Announcement(c, CommandResult(c, net(HintServerUrl)))), [])]
  {
    ghost var c := ResolveCommand(LastText(messages));
    var lastMsg := "";
    if |messages| > 0 {
      lastMsg := Lower(ContentText(messages[|messages| - 1].content));
    }
    assert lastMsg == Lower(LastText(messages));
    var msgs := messages;
    if |messages| == 1 {
      msgs := [SystemMessage(Plain(HintSystemPrompt))] + messages;
    }
    var mcpResult: Option<string> := None;
    if MentionsAny(lastMsg, ListToolsPhrases) {
      assert c == ListToolsCommand;
      var r := ListMcpTools(net);
      mcpResult := Some(r);
      msgs := msgs + [AIMessage(Plain(Announcement(ListToolsCommand, r)), [])];
    } else if MentionsAny(lastMsg, ListResourcesPhrases) {
      assert c == ListResourcesCommand;
      var r := ListMcpResources(net);
      mcpResult := Some(r);
      msgs := msgs + [AIMessage(Plain(Announcement(ListResourcesCommand, r)), [])];
    } else if MentionsAny(lastMsg, RunToolPhrases) {
      if Contains(lastMsg, "get_user_info") {
        var usernameMatch := FindUsername(lastMsg);
        if usernameMatch.Some? {
          var username := usernameMatch.value;
          assert c == UserInfoCommand(username);
          var r := ExecuteMcpTool(net, "get_user_info", map["username" := Str(username)]);
          mcpResult := Some(r);
          msgs := msgs + [AIMessage(Plain(Announcement(UserInfoCommand(username), r)), [])];
        }
      }
    } else if MentionsAny(lastMsg, ReadResourcePhrases) {
      MentionsNonEmpty(lastMsg, ReadResourcePhrases);
      var originalContent := ContentText(msgs[|msgs| - 1].content);
      assert originalContent == LastText(messages);
      var uriMatch := FindUri(originalContent);
      if uriMatch.Some? {
        var resourceUri := uriMatch.value;
        assert c == ReadResourceCommand(resourceUri);
        var r := ReadMcpResource(net, resourceUri);
        mcpResult := Some(r);
        msgs := msgs + [AIMessage(Plain(Announcement(ReadResourceCommand(resourceUri), r)), [])];
      }
    }
    if mcpResult.None? || mcpResult.value == "" {
      var response := llm(msgs);
      out := msgs + [response];
    } else {
      out := msgs;
    }
  }
}
