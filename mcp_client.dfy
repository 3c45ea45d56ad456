/** The class-based MCP client used by the challenge agents. Every operation
    opens a session on the client's URL, runs one request and turns the
    response into JSON text; any exception on the way becomes a returned
    string "Error: <cause>" instead of propagating. */
module McpClient {
  import opened Wrappers
  import opened Json
  import opened Text
  import opened McpTypes
  import opened Marshal

  /** The text an operation returns: the serialised payload, or the error line. */
  function ClientReply(outcome: Result<Json, string>): string {
    match outcome
    case Success(j) => Dumps(j)
    case Failure(cause) => "Error: " + cause
  }

  function ToolCallText(outcome: Result<seq<ContentItem>, string>): string {
    ClientReply(if outcome.Failure? then Failure(outcome.error) else Success(Arr(ContentEntries(outcome.value))))
  }

  function ResourceReadText(outcome: Result<seq<ContentItem>, string>): string {
    ClientReply(if outcome.Failure? then Failure(outcome.error) else Success(Arr(ResourceContentEntries(outcome.value))))
  }

  function ToolListText(outcome: Result<Listing, string>): string {
    ClientReply(if outcome.Failure? then Failure(outcome.error) else Success(Arr(ToolRecords(Unwrap(outcome.value)))))
  }

  function ResourceListText(outcome: Result<Listing, string>): string {
    ClientReply(if outcome.Failure? then Failure(outcome.error) else Success(Arr(ResourceRecords(Unwrap(outcome.value)))))
  }

  function PromptListText(outcome: Result<Listing, string>): string {
    ClientReply(if outcome.Failure? then Failure(outcome.error) else Success(Arr(PromptRecords(Unwrap(outcome.value)))))
  }

  function PromptText(outcome: Result<PromptResult, string>): string {
    ClientReply(if outcome.Failure? then Failure(outcome.error) else Success(PromptPayload(outcome.value)))
  }

  /** A reply starts with "Error: " exactly when the operation failed: payloads
      are arrays or objects, whose text starts with a bracket or a brace. */
  lemma ClientReplyErrorIff(outcome: Result<Json, string>)
    requires outcome.Success? ==> outcome.value.Arr? || outcome.value.Obj?
    ensures StartsWith(ClientReply(outcome), "Error: ") <==> outcome.Failure?
    ensures outcome.Failure? ==> ClientReply(outcome)[7..] == outcome.error
  {
    if outcome.Success? {
      var t := Dumps(outcome.value);
      assert t[0] == '[' || t[0] == '{';
      assert !StartsWith(t, "Error: ") by {
        assert |t| < 7 || t[..7][0] == t[0];
        assert "Error: "[0] == 'E';
      }
    }
  }

  /** Every operation of the client reports failure, and only failure, by a
      string starting with "Error: " followed by the cause. */
  lemma ErrorIffFailure(calls: Result<seq<ContentItem>, string>, contents: Result<seq<ContentItem>, string>,
                        lists: Result<Listing, string>, prompt: Result<PromptResult, string>)
    ensures StartsWith(ToolCallText(calls), "Error: ") <==> calls.Failure?
    ensures StartsWith(ResourceReadText(contents), "Error: ") <==> contents.Failure?
    ensures StartsWith(ToolListText(lists), "Error: ") <==> lists.Failure?
    ensures StartsWith(ResourceListText(lists), "Error: ") <==> lists.Failure?
    ensures StartsWith(PromptListText(lists), "Error: ") <==> lists.Failure?
    ensures StartsWith(PromptText(prompt), "Error: ") <==> prompt.Failure?
    ensures calls.Failure? ==> ToolCallText(calls) == "Error: " + calls.error
  {
    ClientReplyErrorIff(if calls.Failure? then Failure(calls.error) else Success(Arr(ContentEntries(calls.value))));
    ClientReplyErrorIff(if contents.Failure? then Failure(contents.error) else Success(Arr(ResourceContentEntries(contents.value))));
    ClientReplyErrorIff(if lists.Failure? then Failure(lists.error) else Success(Arr(ToolRecords(Unwrap(lists.value)))));
    ClientReplyErrorIff(if lists.Failure? then Failure(lists.error) else Success(Arr(ResourceRecords(Unwrap(lists.value)))));
    ClientReplyErrorIff(if lists.Failure? then Failure(lists.error) else Success(Arr(PromptRecords(Unwrap(lists.value)))));
    ClientReplyErrorIff(if prompt.Failure? then Failure(prompt.error) else Success(PromptPayload(prompt.value)));
  }

  /** Listing tools that all carry names yields one record per tool, in the
      server's order, each naming its tool. */
  lemma ToolListKeepsNamesInOrder(l: Listing)
    requires forall k :: 0 <= k < |Unwrap(l)| ==> IsNamed(Unwrap(l)[k])
    ensures |ToolRecords(Unwrap(l))| == |Unwrap(l)|
    ensures forall k :: 0 <= k < |Unwrap(l)| ==>
      Lookup(ToolRecords(Unwrap(l))[k], "name") == Some(Str(Unwrap(l)[k].d.name.value))
  {
    var es := Unwrap(l);
    forall k | 0 <= k < |es|
      ensures Lookup(ToolRecords(es)[k], "name") == Some(Str(es[k].d.name.value))
    {
      ToolRecordMeaning(es[k]);
    }
  }

  class MCPClient {
    /** The SSE endpoint URL, fixed at construction. */
    const mcpUrl: string

    constructor(mcpUrl: string)
      ensures this.mcpUrl == mcpUrl
    {
      this.mcpUrl := mcpUrl;
    }

    method ExecuteTool(net: Network, toolName: string, arguments: Args) returns (r: string)
      ensures r == ToolCallText(net(mcpUrl).callTool(toolName, arguments))
    {
      var outcome := net(mcpUrl).callTool(toolName, arguments);
      match outcome
      case Failure(cause) =>
        r := "Error: " + cause;
      case Success(content) =>
        var contentList := BuildContentList(content);
        r := Dumps(Arr(contentList));
    }

    method ReadResource(net: Network, resourceUri: string) returns (r: string)
      ensures r == ResourceReadText(net(mcpUrl).readResource(resourceUri))
    {
      var outcome := net(mcpUrl).readResource(resourceUri);
      match outcome
      case Failure(cause) =>
        r := "Error: " + cause;
      case Success(contents) =>
        var contentList := BuildResourceContentList(contents);
        r := Dumps(Arr(contentList));
    }

    method ListTools(net: Network) returns (r: string)
      ensures r == ToolListText(net(mcpUrl).listTools)
    {
      var outcome := net(mcpUrl).listTools;
      match outcome
      case Failure(cause) =>
        r := "Error: " + cause;
      case Success(result) =>
        var tools := Unwrap(result);
        var toolList: seq<Json> := [];
        for i := 0 to |tools|
          invariant toolList == ToolRecords(tools[..i])
        {
          var t := tools[i];
          var entry: Json;
          if IsNamed(t) {
            var toolDict := [("name", Str(t.d.name.value))];
            if Truthy(t.d.description) {
              toolDict := toolDict + [("description", Str(t.d.description.value))];
            }
            if t.d.inputSchema.Some? && t.d.inputSchema.value.truthy {
              toolDict := toolDict + [("inputSchema", Str(t.d.inputSchema.value.repr))];
            }
            entry := Obj(toolDict);
          } else if t.Tuple? {
            entry := Obj([("name", if |t.elems| > 0 then Str(t.elems[0]) else Null),
                          ("description", if |t.elems| > 1 then Str(t.elems[1]) else Null)]);
          } else {
            entry := Obj([("info", Str(Repr(t)))]);
          }
          assert entry == ToolRecord(t);
          assert tools[..i + 1][..i] == tools[..i];
          assert ToolRecords(tools[..i + 1]) == ToolRecords(tools[..i]) + [ToolRecord(t)];
          toolList := toolList + [entry];
        }
        assert tools[..|tools|] == tools;
        r := Dumps(Arr(toolList));
    }

    method ListResources(net: Network) returns (r: string)
      ensures r == ResourceListText(net(mcpUrl).listResources)
    {
      var outcome := net(mcpUrl).listResources;
      match outcome
      case Failure(cause) =>
        r := "Error: " + cause;
      case Success(result) =>
        var resources := Unwrap(result);
        var resourceList: seq<Json> := [];
        for i := 0 to |resources|
          invariant resourceList == ResourceRecords(resources[..i])
        {
          var res := resources[i];
          if HasUriAndName(res) {
            var resDict := [("uri", Str(res.d.uri.value)), ("name", Str(res.d.name.value))];
            if Truthy(res.d.description) {
              resDict := resDict + [("description", Str(res.d.description.value))];
            }
            assert Obj(resDict) == ResourceRecord(res);
            resourceList := resourceList + [Obj(resDict)];
          }
          ResourceRecordsStep(resources, i);
        }
        assert resources[..|resources|] == resources;
        r := Dumps(Arr(resourceList));
    }

    method ListPrompts(net: Network) returns (r: string)
      ensures r == PromptListText(net(mcpUrl).listPrompts)
    {
      var outcome := net(mcpUrl).listPrompts;
      match outcome
      case Failure(cause) =>
        r := "Error: " + cause;
      case Success(result) =>
        var prompts := Unwrap(result);
        var promptList: seq<Json> := [];
        for i := 0 to |prompts|
          invariant promptList == PromptRecords(prompts[..i])
        {
          var p := prompts[i];
          if IsNamed(p) {
            var promptDict := [("name", Str(p.d.name.value))];
            if Truthy(p.d.description) {
              promptDict := promptDict + [("description", Str(p.d.description.value))];
            }
            if p.d.arguments.Some? && |p.d.arguments.value| > 0 {
              promptDict := promptDict + [("arguments", Arr(ArgumentRecords(p.d.arguments.value)))];
            }
            assert promptDict == [("name", Str(p.d.name.value))]
              + (if Truthy(p.d.description) then [("description", Str(p.d.description.value))] else [])
              + (if p.d.arguments.Some? && |p.d.arguments.value| > 0
                 then [("arguments", Arr(ArgumentRecords(p.d.arguments.value)))] else []);
            promptList := promptList + [Obj(promptDict)];
          }
          PromptRecordsStep(prompts, i);
        }
        assert prompts[..|prompts|] == prompts;
        r := Dumps(Arr(promptList));
    }

    /** `arguments or {}`: an absent argument map is sent as the empty map. */
    method GetPrompt(net: Network, promptName: string, arguments: Option<Args>) returns (r: string)
      ensures r == PromptText(net(mcpUrl).getPrompt(promptName, arguments.GetOr(map[])))
    {
      var outcome := net(mcpUrl).getPrompt(promptName, if arguments.Some? then arguments.value else map[]);
      match outcome
      case Failure(cause) =>
        r := "Error: " + cause;
      case Success(result) =>
        var messagesList: seq<Json> := [];
        if result.messages.Some? {
          var messages := result.messages.value;
          for i := 0 to |messages|
            invariant messagesList == MessageRecords(messages[..i])
          {
            var msg := messages[i];
            var msgDict: seq<(string, Json)> := [];
            if msg.role.Some? {
              msgDict := msgDict + [("role", Str(msg.role.value))];
            }
            if msg.content.Some? {
              match msg.content.value
              case StrContent(s) => msgDict := msgDict + [("content", Str(s))];
              case TextContent(t) => msgDict := msgDict + [("content", Str(t))];
              case OtherContent(rep) => msgDict := msgDict + [("content", Str(rep))];
            }
            assert Obj(msgDict) == MessageRecord(msg);
            assert messages[..i + 1][..i] == messages[..i];
            assert MessageRecords(messages[..i + 1]) == MessageRecords(messages[..i]) + [MessageRecord(msg)];
            messagesList := messagesList + [Obj(msgDict)];
          }
          assert messages[..|messages|] == messages;
        }
        r := Dumps(Obj([("messages", Arr(messagesList))]));
    }
  }
}
