/** The conversation messages the three agents exchange with the LLM
    (LangChain's SystemMessage, HumanMessage, AIMessage and ToolMessage). */
module Messages {
  import opened Json

  /** One call the LLM asks for: a tool name, its arguments and a correlation id. */
  datatype ToolCall = ToolCall(name: string, args: Args, id: string)

  /** An element of a multimodal content list: a dict, with or without a 'text'
      entry, or any other value known by its `str()` form. */
  datatype Part = DictPart(text: Wrappers.Option<string>) | OtherPart(repr: string)

  /** Message content: a plain string or a multimodal list. */
  datatype Content = Plain(text: string) | Parts(parts: seq<Part>)

  datatype Message =
    | SystemMessage(content: Content)
    | HumanMessage(content: Content)
    | AIMessage(content: Content, toolCalls: seq<ToolCall>)
    | ToolMessage(content: Content, toolCallId: string)

  /** The model behind `llm.ainvoke`: the next message for a conversation. */
  type Llm = seq<Message> -> Message

  /** `hasattr(m, 'tool_calls') and m.tool_calls`. */
  predicate HasToolCalls(m: Message) {
    m.AIMessage? && |m.toolCalls| > 0
  }

  /** The calls a message declares; none unless it is an assistant message. */
  function CallsOf(m: Message): seq<ToolCall> {
    if m.AIMessage? then m.toolCalls else []
  }
}
