# MCP security test agents — a verified model of the agent core

The repository is a set of LangGraph agents for practising attacks on
deliberately vulnerable MCP (Model Context Protocol) servers. This project
models, in Dafny, the parts of those agents that decide what happens to a
conversation:

- **The MCP client** (`mcp_client.py`). An `MCPClient` holds an SSE URL.
  Each of its six operations opens a session, runs one request and turns
  the duck-typed response into JSON text. Any exception becomes the string
  `"Error: <cause>"`.
- **The hint agent's helpers and resolver** (`hint_agent.py`). Four
  module-level helpers do the same marshalling with their own error
  prefixes. `hint_node` lowers the last message and matches keyword groups
  in a fixed order. It extracts a username or a URI with two regular
  expressions, runs at most one MCP operation and announces its result;
  otherwise it asks the LLM.
- **The challenge agents' tool loop** (`challenge_agents.py`).
  - The agent node shows the LLM a system message on a first turn.
  - The router sends a reply with tool calls to the tools node.
  - The tools node answers every call to a bound tool with a `ToolMessage`
    carrying that call's id.
  - The graph loops agent → tools → agent until a reply has no calls.
- **The orchestrator** (`orchestrator_agent.py`). It puts its system prompt
  in front of a conversation that has none and asks the LLM. It then picks
  the first `challenge N` / `challengeN` (N = 1…10) that the lowered last
  message mentions, or keeps the previous selection.

How the outside world is represented:

- The network is a parameter. `Network` maps a URL to an `Endpoint`, a
  record of functions that return either the raw MCP response or the text
  of the exception.
- The LLM is a parameter too: a function from the messages it is shown to
  its reply.
- Responses that the Python code inspects with `hasattr` / `isinstance`
  are tagged datatypes. `Entry` is a described object, a tuple, or another
  value. `Listing` is a result object with a list field, a bare list, or a
  lone value.

Each imperative operation is a method whose `ensures` ties its result to a
specification function. The properties are proved as lemmas about those
functions:

- Errors are reported if and only if the operation failed.
- Records keep the server's order and names.
- The regex scanners are sound and complete with respect to a declarative
  description of each pattern, and they find the leftmost match.
- Letter case changes no decision of the resolver.
- A run of the tool loop only ever appends, and it stops or crashes only
  where the graph says.
- The orchestrator's selection is the smallest challenge mentioned, and it
  stays valid.

Files: `wrappers.dfy` (Option/Result), `json.dfy` (JSON values and a
serialiser), `text.dfy` (lowering, substring, join, decimal),
`messages.dfy` (chat messages), `mcp_types.dfy` (MCP responses, endpoints),
`marshal.dfy` (the record builders shared by both clients), `mcp_client.dfy`,
`patterns.dfy` (the two regular expressions), `hint_agent.dfy`,
`challenge_agents.dfy`, `orchestrator_agent.dfy`.

## Model

| member | source | states |
|---|---|---|
| McpClient.ClientReplyErrorIff | mcp_client.py:40-42 | A reply starts with `"Error: "` exactly when the request failed, and then the rest is the cause: a payload serialises to text starting with `[` or `{`. |
| McpClient.ErrorIffFailure | mcp_client.py:22-182 | All six operations report failure, and only failure, by a string starting with `"Error: "`; a failed tool call yields exactly `"Error: " + cause`. |
| McpClient.ToolListKeepsNamesInOrder | mcp_client.py:82-92 | Listing tools that all have names gives one record per tool, in the server's order, each carrying that tool's name. |
| McpClient.MCPClient.constructor | mcp_client.py:13-20 | The client keeps the URL it was given. |
| McpClient.MCPClient.ExecuteTool | mcp_client.py:22-42 | The reply is the serialised content list of the tool call on the client's URL, or the error line. |
| McpClient.MCPClient.ReadResource | mcp_client.py:44-67 | The reply is the serialised contents of the resource read (with `uri` only when present and non-empty), or the error line. |
| McpClient.MCPClient.ListTools | mcp_client.py:69-100 | The loop builds exactly the tool records of the unwrapped listing, in order; the reply is their array or the error line. |
| McpClient.MCPClient.ListResources | mcp_client.py:102-124 | The loop keeps exactly the entries with both `uri` and `name`, in order, as records; the reply is their array or the error line. |
| McpClient.MCPClient.ListPrompts | mcp_client.py:126-150 | The loop keeps exactly the named prompts, in order, with argument records when arguments are non-empty; the reply is their array or the error line. |
| McpClient.MCPClient.GetPrompt | mcp_client.py:152-182 | Missing arguments are sent as the empty map; the reply is `{"messages": [...]}` with one record per message, or the error line. |
| Marshal.ContentEntries | mcp_client.py:34-39 | One entry per content item, in order. |
| Marshal.ContentEntryMeaning | mcp_client.py:36-39 | An item with text becomes `{"type": "text", "text": …}`; any other item becomes its string form. |
| Marshal.BuildContentList | mcp_client.py:34-39 | The loop's list equals the content entries of all items. |
| Marshal.ResourceContentEntries | mcp_client.py:56-64 | One entry per resource content item, in order. |
| Marshal.ResourceEntryMeaning | mcp_client.py:58-64 | An entry has a `uri` key exactly when the item has text and a non-empty URI; it then carries that URI; the text is kept; other items become their string form. |
| Marshal.BuildResourceContentList | mcp_client.py:56-64 | The loop's list equals the resource content entries of all items. |
| Marshal.Unwrap | mcp_client.py:82 | A result object yields its list field, a bare list itself, and any other value a one-element list. |
| Marshal.ToolRecords | mcp_client.py:84-96 | One record per listed tool, in order. |
| Marshal.ToolRecordMeaning | mcp_client.py:86-96 | A record has `name` exactly for named tools and tuples, `description` exactly when non-empty or for tuples, `inputSchema` exactly when the schema is truthy, and `info` exactly for other values; tuple fields default to null. |
| Marshal.NamedToolKeys | mcp_client.py:87-91 | A named tool's record has keys `name`, then `description` if non-empty, then `inputSchema` if present, in that order. |
| Marshal.ListedResources | mcp_client.py:116-117 | Only entries with both `uri` and `name` are kept, and each kept entry is from the listing. |
| Marshal.ListedResourcesComplete | mcp_client.py:115-117 | No entry with both `uri` and `name` is dropped. |
| Marshal.ListedResourcesAppend | mcp_client.py:115-121 | Filtering resources distributes over concatenation, so the order is preserved. |
| Marshal.ResourceRecords | mcp_client.py:114-121 | One record per kept resource, in order. |
| Marshal.ResourceRecordMeaning | mcp_client.py:117-121 | A resource record carries the URI and name, has `description` exactly when it is non-empty, and never has `mimeType`. |
| Marshal.ArgumentRecords | mcp_client.py:146 | One record per prompt argument, in order. |
| Marshal.ArgumentRecordMeaning | mcp_client.py:146 | An argument record has keys `name`, `description`, `required`; an absent description is null and an absent `required` is false. |
| Marshal.NamedPrompts | mcp_client.py:140-141 | Only named prompts are kept, each from the listing. |
| Marshal.NamedPromptsComplete | mcp_client.py:139-141 | No named prompt is dropped. |
| Marshal.NamedPromptsAppend | mcp_client.py:139-147 | Keeping the named prompts distributes over concatenation, so the server's order is preserved. |
| Marshal.PromptRecords | mcp_client.py:138-147 | One record per named prompt, in order. |
| Marshal.MessageRecords | mcp_client.py:166-178 | One record per prompt message, in order. |
| Marshal.PromptPayload | mcp_client.py:165-180 | The payload has the single key `messages`, whose array is empty when the result has no messages. |
| Marshal.HintResourceRecords | hint_agent.py:220-233 | The hint helper's records exist exactly when no entry is an empty tuple (`r[0]` raises); they are one per entry, in order. |
| Marshal.HintResourceRecordsStopAt | hint_agent.py:221-233 | The first failing entry decides the helper's error. |
| Marshal.HintResourceRecordMeaning | hint_agent.py:222-233 | A resource with `uri` and `name` gives a record that carries the URI and the name and has `description`, and `mimeType`, exactly when that field is non-empty. A non-empty tuple gives exactly the keys `uri` and `name`: its first element (null when empty) and its second (null when missing). A value that is neither such a resource nor a tuple gives `{"info": …}`. |
| Marshal.HintToolRecords | hint_agent.py:187 | The `{name, description}` records exist exactly when every tool is named; they are one per tool, in order. |
| Json.Dumps | mcp_client.py:40 | Serialised text is never empty; an array's text starts with `[` and an object's with `{`. |
| Text.JoinContains | hint_agent.py:264 | Every joined part occurs in the joined text. |
| Patterns.RunEnd | hint_agent.py:291 | A greedy run stays within the text, consumes only class characters, and stops at the end or at a character outside the class. |
| Patterns.RunEndIs | hint_agent.py:291 | A run of class characters followed by a non-class character (or the end) is the greedy run. |
| Patterns.UsernameAtSound | hint_agent.py:291 | A match found at a position is a match of `(?:user\|username)[\s=:]+(\w+)` there, and its group ends where the word characters end. |
| Patterns.UsernameAtComplete | hint_agent.py:291 | Wherever the pattern matches at a position, the scanner finds a match there. |
| Patterns.FindUsernameFrom | hint_agent.py:291 | The search returns the leftmost position from `from` where the scanner matches, or none when there is no such position. |
| Patterns.FindUsername | hint_agent.py:291-293 | The extracted username is a non-empty run of word characters that occurs in the text. |
| Patterns.FindUsernameMeaning | hint_agent.py:291-293 | `re.search` semantics: the username is the group of a match, no match starts earlier, and the group is the whole run of word characters; with no username the pattern matches nowhere. |
| Patterns.UriAtSound | hint_agent.py:317 | A match found at a position is a match of `\w+://[\w/\-]+` there, and it ends at the first character outside `[\w/\-]`. |
| Patterns.UriAtComplete | hint_agent.py:317 | Wherever the URI pattern matches at a position, the scanner finds a match there. |
| Patterns.FindUriFrom | hint_agent.py:317 | The search returns the leftmost position from `from` where the URI scanner matches, or none. |
| Patterns.FindUri | hint_agent.py:317-319 | The extracted URI occurs in the text and contains `://`. |
| Patterns.FindUriMeaning | hint_agent.py:317-319 | The URI is a match of the pattern, no match starts earlier, and it is maximal; with no URI the pattern matches nowhere. |
| Patterns.RunEndIgnoresCase | hint_agent.py:317 | In two texts differing only in letter case, greedy runs end at the same place. |
| Patterns.UriAtIgnoresCase | hint_agent.py:317 | Letter case does not change whether or where a URI match at a position ends. |
| Patterns.FoundUriIgnoresCase | hint_agent.py:317 | The leftmost URI match of a text is also the leftmost match of any text differing from it only in case. |
| Patterns.FindUriIgnoresCase | hint_agent.py:301-319 | In texts that differ only in case, a URI is found in both or in neither, and the two URIs differ only in case. |
| HintAgent.HintReplyErrorIff | hint_agent.py:130-133 | A helper's reply is never empty and starts with `"Error "` exactly when the operation failed. |
| HintAgent.HintErrorIffFailure | hint_agent.py:105-238 | The four helpers report an error exactly when the request failed or, for resources, some entry is an empty tuple, or, for the corrected tools helper (see Findings), some listed tool has no name. |
| HintAgent.ToolItemsAsWritten | hint_agent.py:182-187 | Iterating the listing as written fails for every result object the server sends; it succeeds only on a bare list or an empty tuple. |
| HintAgent.ToolListingAsWrittenText | hint_agent.py:182-190 | The helper as written replies with an error line for every result object, and a failed request gives `"Error listing tools: " + cause`. |
| HintAgent.ToolListingDiscrepancy | hint_agent.py:182-187 | For any listing of named tools, the helper as written replies `"Error listing tools: …"`, while the corrected helper succeeds with one record per tool, in order, with its name. |
| HintAgent.ExecuteMcpTool | hint_agent.py:105-133 | The reply is the serialised content list of the call on the hint server, or `"Error executing tool <name>: <cause>"`. |
| HintAgent.ReadMcpResource | hint_agent.py:136-167 | The reply is the serialised resource contents, or `"Error reading resource <uri>: <cause>"`. |
| HintAgent.ListMcpTools | hint_agent.py:170-190 | The reply is the array of `{name, description}` records of the listed tools (corrected, see Findings), or `"Error listing tools: <cause>"`. |
| HintAgent.ListMcpResources | hint_agent.py:193-238 | The loop builds the records of the unwrapped listing and stops at the first failing entry; the reply is the array or `"Error listing resources: <cause>"`. |
| HintAgent.ContentTextKeepsEveryPart | hint_agent.py:262-264 | Flattening a multimodal content list keeps the text of every element. |
| HintAgent.ResolveCommand | hint_agent.py:276-321 | A username is a non-empty, lower-case run of word characters taken from the lowered text; a URI occurs in the original text and contains `://`. |
| HintAgent.ResolveOrder | hint_agent.py:276-321 | The keyword groups take precedence in order: list tools, then list resources, then run tool, then read resource, and the first group that matches decides. Tools are listed exactly when a list-tools phrase occurs. A user lookup runs, with the first username match, exactly when its group decides and the text has `get_user_info` and a username; a resource is read, with the first URI match, exactly when its group decides and a URI is found. Nothing runs exactly when no group matches or the deciding group lacks its argument. |
| HintAgent.ResolveIgnoresCase | hint_agent.py:259-317 | Messages that differ only in case ask for the same operation with the same username, and name URIs that differ only in case. |
| HintAgent.CommandResult | hint_agent.py:277-329 | An executed operation's result is never empty, so the LLM is never called after an announcement. Listing tools uses the corrected helper (see Findings). |
| HintAgent.HintNode | hint_agent.py:244-329 | The new conversation is the old one, with the system prompt in front of a single message, plus exactly one message. That message announces the resolved operation's result, or is the LLM's reply when nothing was resolved. The list-tools announcement carries the corrected helper's reply. |
| ChallengeAgents.ResourceLines | challenge_agents.py:92 | One `- <resource>` line per resource, in order. |
| ChallengeAgents.ObjectiveLines | challenge_agents.py:95 | One `<k+1>. <objective>` line per objective, numbered from 1. |
| ChallengeAgents.ChallengeInfo | challenge_agents.py:86-95 | The challenge summary is empty exactly when the configuration is empty. |
| ChallengeAgents.ChallengeInfoMeaning | challenge_agents.py:86-95 | The challenge summary is empty exactly when the configuration is empty, and otherwise starts with the bold header naming the challenge number and its name (`Unknown` when absent). |
| ChallengeAgents.ChallengeInfoListsEverything | challenge_agents.py:86-95 | The summary contains every resource line and every numbered objective line. |
| ChallengeAgents.SystemText | challenge_agents.py:97-120 | The system message contains the challenge summary. |
| ChallengeAgents.AgentInputMeaning | challenge_agents.py:122-128 | The LLM sees the whole conversation, unchanged, at the end of its input. Exactly on a first turn, the system message comes before it. |
| ChallengeAgents.SystemMessageAtMostOnce | challenge_agents.py:122-125 | From two messages on, or when a system message exists, nothing is added; at most one message is ever added. |
| ChallengeAgents.ShouldContinue | challenge_agents.py:157-166 | The route is the tools node exactly when the last message declares tool calls. |
| ChallengeAgents.ToolReply | challenge_agents.py:44-75 | A bound tool's invocation fails (argument validation) exactly when `get_user_info` lacks a string `username` or `read_mcp_resource` lacks a string `uri`. |
| ChallengeAgents.KnownCalls | challenge_agents.py:144-145 | Every kept call names a bound tool, and no more calls are kept than were made. |
| ChallengeAgents.KnownCallsSound | challenge_agents.py:139-153 | Every kept call is one of the declared calls. |
| ChallengeAgents.KnownCallsComplete | challenge_agents.py:139-153 | No call to a bound tool is skipped. |
| ChallengeAgents.KnownCallsAppend | challenge_agents.py:139-153 | Keeping the bound calls distributes over concatenation, so the calls keep their declaration order. |
| ChallengeAgents.ToolResponses | challenge_agents.py:131-155 | The tools node never answers more calls than were made; its full meaning is stated by ToolResponsesMeaning. |
| ChallengeAgents.ToolResponsesStopAt | challenge_agents.py:139-146 | The first invalid call to a bound tool decides the tools node's error. |
| ChallengeAgents.ToolResponsesMeaning | challenge_agents.py:131-155 | The tools node succeeds exactly when every call to a bound tool is valid. It then answers the bound calls one to one, in order: the k-th answer is the k-th bound call's text, tagged with that call's id. |
| ChallengeAgents.ToolResponsesCorrelate | challenge_agents.py:147-152 | Answers correlate with calls by id in declaration order; when all calls are to bound tools there is one answer per call. |
| ChallengeAgents.KnownCallsAll | challenge_agents.py:144-153 | When every call names a bound tool, no call is skipped. |
| ChallengeAgents.AgentRound | challenge_agents.py:168-175 | One round only appends: one message when it stops, more when it goes on. When it stops, it finished normally exactly when the appended message declares no calls. |
| ChallengeAgents.AgentRoundMeaning | challenge_agents.py:157-175 | A reply without tool calls ends the run with that reply appended. A reply with calls crashes the run when the tools node fails. The run goes on exactly after a reply with calls that the tools node answers, and then the state is the old one, the reply, and those answers in that order. |
| ChallengeAgents.Replay | challenge_agents.py:168-177 | A run of the graph never has fewer messages than the state it started from. |
| ChallengeAgents.ReplayKeepsState | challenge_agents.py:168-177 | A run never drops or changes a message of the state it started from. |
| ChallengeAgents.ReplayEnds | challenge_agents.py:168-177 | A run that ends has added messages, and it finishes normally exactly when its last message declares no tool calls. |
| ChallengeAgents.ReplayFuelMonotone | challenge_agents.py:168-177 | A run that ends within some number of rounds ends the same way with any larger bound. |
| ChallengeAgents.ChallengeGraph.constructor | challenge_agents.py:38-41 | The client's URL is `http://localhost:<port>/sse`, and the system text is the one formatted from the number, port and configuration. |
| ChallengeAgents.ChallengeGraph.ChallengeNode | challenge_agents.py:81-129 | The state update is the single LLM response to the agent's input. |
| ChallengeAgents.ChallengeGraph.InvokeTool | challenge_agents.py:44-75 | Invoking a bound tool returns its reply on the client's endpoint. |
| ChallengeAgents.ChallengeGraph.ToolNode | challenge_agents.py:131-155 | The nested search loops return exactly the tools node's answers to the last message's calls. |
| ChallengeAgents.ChallengeGraph.Round | challenge_agents.py:170-175 | The agent node, the router and the tools node together compute one round. |
| ChallengeAgents.ChallengeGraph.Run | challenge_agents.py:168-177 | The graph's loop computes the run of at most `fuel` rounds. |
| OrchestratorAgent.WithSystemPrompt | orchestrator_agent.py:65-68 | The result has a system message, and the conversation is kept unchanged at its end with at most one message put in front. |
| OrchestratorAgent.SystemPromptRule | orchestrator_agent.py:65-68 | After the rule a system message is present. The conversation changes exactly when it had none, and applying the rule twice adds nothing more. |
| OrchestratorAgent.FirstMention | orchestrator_agent.py:77-80 | The result is the smallest challenge number from `from` to 10 that the text mentions, or none if it mentions none. |
| OrchestratorAgent.Selection | orchestrator_agent.py:74-80 | When the text mentions no challenge from 1 to 10, the previous selection is kept. |
| OrchestratorAgent.SelectionMeaning | orchestrator_agent.py:74-80 | When `i` is the smallest challenge mentioned, the selection is `Challenge<i>`. |
| OrchestratorAgent.ChallengeTenSelectsOne | orchestrator_agent.py:77-80 | A message naming `challenge 10` selects `Challenge1`, because the loop looks for `challenge 1` first and it is a prefix of `challenge 10`. |
| OrchestratorAgent.SelectionStaysValid | orchestrator_agent.py:75-80 | A valid selection (empty or `Challenge1`…`Challenge10`) stays valid after any message. |
| OrchestratorAgent.NamingChallengeOneSelectsIt | orchestrator_agent.py:74-80 | A last message containing `Challenge 1` selects `Challenge1` once lowered, wherever the phrase occurs. |
| OrchestratorAgent.EmptyConversationSelectsChallengeOne | orchestrator_agent.py:35-80 | On an empty conversation, the last message is the system prompt, which names Challenge 1, so `Challenge1` is selected. |
| OrchestratorAgent.SelectChallenge | orchestrator_agent.py:77-80 | The loop with `break` computes the selection. |
| OrchestratorAgent.OrchestratorNode | orchestrator_agent.py:61-85 | The node fails exactly when the last message's content is a list (`.lower()` raises). Otherwise the new messages are the prefixed conversation plus the LLM's reply, and the selection is computed from the lowered last message. |

## Left out

- Transport: SSE streams, session set-up and teardown. The network is a
  parameter and a failed request is just its error text.
- The LLM: a parameter. Its errors, `bind_tools` and temperature are not
  modelled.
- LangGraph: state merging by `add_messages` is not modelled. A node's
  update is appended. Merging by message id, which could replace a message
  or move the orchestrator's system message, is not modelled.
- Json.Dumps: a compact serialiser. The `indent=2` layout and the escaping
  of non-ASCII characters are not modelled. The proofs use only its first
  character.
- HintAgent.ExecuteMcpTool, HintAgent.ReadMcpResource,
  HintAgent.ListMcpTools and HintAgent.ListMcpResources: the traceback text
  after the error message is not modelled.
- Text.Lower: ASCII letters only. The regex classes `\w` and `\s` are
  ASCII as well; Python's Unicode case mapping and classes are not
  modelled.
- An attribute present but `None` and an absent attribute are the same
  value for optional string fields. A dict part whose `text` is `None`
  contributes `""`, where Python would write `"None"`.
- Argument validation: the pydantic messages are replaced by fixed texts.
  Only whether validation fails is modelled.
- ChallengeAgents.ChallengeGraph.Run: bounded by `fuel`. LangGraph's
  recursion limit and what happens when it is reached are not modelled.
- HintAgent.HintNode: the "list tools" announcement carries the reply of
  the corrected helper (`HintAgent.ToolListingText`, see Findings). The
  source as written announces `"Error listing tools: …"` for every result
  object the server sends.
- HintAgent.HintNode: returns the new message list. Appending to the
  caller's list in place, when no system prompt is added, is not modelled.
- `challenge_configs.py` is not part of this model. A configuration is an
  input whose fields are optional.
- Loading environment variables, LangSmith tracing, the module-level
  agent instances and the test scripts.

## Findings

| source | as written | input that shows it | evidently intended | confidence | as-written member | corrected member |
|---|---|---|---|---|---|---|
| hint_agent.py:182-187 | `list_mcp_tools` iterates the `ListToolsResult` object itself. Iterating a pydantic model yields `(field, value)` tuples, and `t.name` raises on them. | A server that lists one named tool: the reply is `"Error listing tools: 'tuple' object has no attribute 'name'…"` | Iterate `result.tools`, as `mcp_client.py:82` does, and reply with one `{name, description}` record per tool | not executed | HintAgent.ToolItemsAsWritten, HintAgent.ToolListingAsWrittenText, HintAgent.ToolListingDiscrepancy | HintAgent.ToolListingText, HintAgent.ListMcpTools |
