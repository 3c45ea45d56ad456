/** The orchestrator: one graph node that puts its system prompt in front of
    a conversation lacking one, asks the LLM for a reply, and records which
    challenge the last message names, scanning challenges 1 to 10 in
    ascending order by substring. */
module OrchestratorAgent {
  import opened Wrappers
  import opened Text
  import opened Messages

  /** The system prompt, in three pieces around its first mention of a
      challenge, which the selection scan can find in it. */
  const PromptHead := @"You are a Security Testing Orchestrator for MCP vulnerability challenges.

**Available Challenges:**
- **"
  const PromptTail := @"**: Basic Prompt Injection (Port 9001) ✅ Ready
- **Challenge 2-10**: Additional challenges (Ports 9002-9010) 🔜 Coming soon

**How to Use:**
Instead of chatting with me, you should directly select and interact with the challenge agents:
1. Go back and select a Challenge agent from the dropdown (e.g., ""Challenge1"")
2. Each Challenge agent connects to its MCP server and can execute real commands
3. Use commands like:
   - `list tools` - See available MCP tools
   - `list resources` - See available MCP resources
   - `list prompts` - See available MCP prompts
   - `run tool <name> with <args>` - Execute a tool
   - `read resource <uri>` - Read a resource

**Example:**
Switch to ""Challenge1"" agent and try: `list resources`

I'm just the orchestrator - the real action happens in the Challenge agents! 🎯"
  const OrchestratorPrompt := PromptHead + "Challenge 1" + PromptTail

  // ---------------------------------------------------------------------------
  // System prompt (orchestrator_agent.py:66-68)

  predicate HasSystem(messages: seq<Message>) {
    exists k | 0 <= k < |messages| :: messages[k].SystemMessage?
  }

  function WithSystemPrompt(messages: seq<Message>): (prefixed: seq<Message>)
    ensures HasSystem(prefixed)
    ensures |messages| <= |prefixed| <= |messages| + 1
    ensures prefixed[|prefixed| - |messages|..] == messages
  {
    if HasSystem(messages) then messages
    else
      var prefixed := [SystemMessage(Plain(OrchestratorPrompt))] + messages;
      assert prefixed[0].SystemMessage?;
      prefixed
  }

  /** After the rule a system message is present; the rule changes a
      conversation exactly when it has none, and applying it again adds
      nothing more. */
  lemma SystemPromptRule(messages: seq<Message>)
    ensures |WithSystemPrompt(messages)| > 0
    ensures HasSystem(WithSystemPrompt(messages))
    ensures WithSystemPrompt(messages) == messages <==> HasSystem(messages)
    ensures WithSystemPrompt(WithSystemPrompt(messages)) == WithSystemPrompt(messages)
  {
    if !HasSystem(messages) {
      assert WithSystemPrompt(messages)[0].SystemMessage?;
    }
  }

  // ---------------------------------------------------------------------------
  // Challenge selection (orchestrator_agent.py:74-80)

  /** The lowered text names challenge `i`, with or without a space. */
  predicate Mentions(text: string, i: nat) {
    Contains(text, "challenge " + NatToString(i)) || Contains(text, "challenge" + NatToString(i))
  }

  /** The smallest challenge number in `from`..10 the text names. */
  function FirstMention(text: string, from: nat): (r: Option<nat>)
    requires 1 <= from <= 11
    ensures r.Some? ==> from <= r.value <= 10 && Mentions(text, r.value)
                        && forall j :: from <= j < r.value ==> !Mentions(text, j)
    ensures r.None? ==> forall j :: from <= j <= 10 ==> !Mentions(text, j)
    decreases 11 - from
  {
    if from == 11 then None
    else if Mentions(text, from) then Some(from)
    else FirstMention(text, from + 1)
  }

  /** The selection after a message: the first challenge it names, or the
      previous selection. */
  function Selection(text: string, previous: string): (selected: string)
    ensures (forall j :: 1 <= j <= 10 ==> !Mentions(text, j)) ==> selected == previous
  {
    match FirstMention(text, 1)
    case None => previous
    case Some(i) => "Challenge" + NatToString(i)
  }

  /** The selection names the smallest challenge the text mentions, and
      keeps the previous one when it mentions none. */
  lemma SelectionMeaning(text: string, previous: string, i: nat)
    requires 1 <= i <= 10 && Mentions(text, i)
    requires forall j :: 1 <= j < i ==> !Mentions(text, j)
    ensures Selection(text, previous) == "Challenge" + NatToString(i)
  {
  }

  /** Because the scan is ascending and by substring, a message naming only
      challenge 10 selects challenge 1: "challenge 1" occurs in it. */
  lemma ChallengeTenSelectsOne(text: string, previous: string)
    requires Contains(text, "challenge 10")
    ensures Selection(text, previous) == "Challenge1"
  {
    ContainsPrefix(text, "challenge 10", 11);
    assert "challenge 10"[..11] == "challenge " + NatToString(1);
    assert Mentions(text, 1);
  }

  /** A valid selection: "" or one of Challenge1 .. Challenge10. */
  predicate ValidSelection(s: string) {
    s == "" || exists i :: 1 <= i <= 10 && s == "Challenge" + NatToString(i)
  }

  /** A valid selection stays valid, whatever the message. */
  lemma SelectionStaysValid(text: string, previous: string)
    requires ValidSelection(previous)
    ensures ValidSelection(Selection(text, previous))
  {
    var r := FirstMention(text, 1);
    if r.Some? {
      assert 1 <= r.value <= 10 && Selection(text, previous) == "Challenge" + NatToString(r.value);
    }
  }

  /** A text naming "Challenge 1" in any case selects challenge 1. */
  lemma NamingChallengeOneSelectsIt(text: string, k: nat, previous: string)
    requires OccursAt(text, "Challenge 1", k)
    ensures Selection(Lower(text), previous) == "Challenge1"
  {
    LowerSlice(text, k, k + 11);
    var word := text[k..k + 11];
    assert NatToString(1) == "1";
    assert forall i :: 0 <= i < |word| ==> Lower(word)[i] == LowerChar(word[i]) == ("challenge " + NatToString(1))[i];
    assert Lower(word) == "challenge " + NatToString(1);
    ContainsAt(Lower(text), "challenge " + NatToString(1), k);
    SelectionMeaning(Lower(text), previous, 1);
  }

  /** With an empty conversation the last message is the system prompt
      itself, which names challenge 1. */
  lemma EmptyConversationSelectsChallengeOne(previous: string)
    ensures Selection(Lower(WithSystemPrompt([])[0].content.text), previous) == "Challenge1"
  {
    assert WithSystemPrompt([]) == [SystemMessage(Plain(OrchestratorPrompt))];
    assert OrchestratorPrompt[|PromptHead|..|PromptHead| + 11] == "Challenge 1";
    NamingChallengeOneSelectsIt(OrchestratorPrompt, |PromptHead|, previous);
  }

  /** The selection loop of the node. */
  method SelectChallenge(lastMsg: string, previous: string) returns (selected: string)
    ensures selected == Selection(lastMsg, previous)
  {
    selected := previous;
    for i := 1 to 11
      invariant forall j :: 1 <= j < i ==> !Mentions(lastMsg, j)
    {
      if Contains(lastMsg, "challenge " + NatToString(i)) || Contains(lastMsg, "challenge" + NatToString(i)) {
        selected := "Challenge" + NatToString(i);
        SelectionMeaning(lastMsg, previous, i);
        break;
      }
    }
  }

  // ---------------------------------------------------------------------------
  // The node (orchestrator_agent.py:61-85)

  /** The node's state update: the conversation to store and the selection. */
  datatype NodeUpdate = NodeUpdate(messages: seq<Message>, selectedChallenge: string)

  /** `orchestrator_node`: the conversation with the system prompt ensured,
      plus the LLM's one reply, and the selection the last message makes
      (the previous one, "" when unset, otherwise). A last message whose
      content is a list has no `lower`, and the node fails. */
  method OrchestratorNode(messages: seq<Message>, previous: Option<string>, llm: Llm)
    returns (outcome: Result<NodeUpdate, string>)
    ensures var prefix := WithSystemPrompt(messages);
      && |prefix| > 0
      && (outcome.Failure? <==> prefix[|prefix| - 1].content.Parts?)
      && (outcome.Success? ==> outcome.value == NodeUpdate(
            prefix + [llm(prefix)],
            Selection(Lower(prefix[|prefix| - 1].content.text), previous.GetOr(""))))
  {
    SystemPromptRule(messages);
    var msgs := messages;
    var hasSystem := exists k | 0 <= k < |messages| :: messages[k].SystemMessage?;
    if !hasSystem {
      msgs := [SystemMessage(Plain(OrchestratorPrompt))] + messages;
    }
    var response := llm(msgs);
    var content := msgs[|msgs| - 1].content;
    if content.Parts? {
      return Failure("'list' object has no attribute 'lower'");
    }
    var lastMsg := Lower(content.text);
    var selectedChallenge := SelectChallenge(lastMsg, previous.GetOr(""));
    outcome := Success(NodeUpdate(msgs + [response], selectedChallenge));
  }
}
