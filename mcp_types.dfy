/** The responses of an MCP server as the client code sees them. The Python code
    inspects these objects by duck typing (`hasattr`, `isinstance`); here each
    shape it distinguishes is a constructor, and an attribute that may be
    missing is an `Option` (`None` also stands for an attribute whose value is
    `None`, since the code only ever tests such attributes for truth). */
module McpTypes {
  import opened Wrappers
  import opened Json

  /** An item of `CallToolResult.content` or `ReadResourceResult.contents`:
      either it has a `text` attribute (and possibly a `uri`), or it does not
      and is known only by its `str()` form. */
  datatype ContentItem =
    | TextItem(text: string, uri: Option<string>)
    | OtherItem(repr: string)

  /** A value known only by its `str()` form and its truth value
      (a tool's `inputSchema` dict: empty dicts are false). */
  datatype Opaque = Opaque(repr: string, truthy: bool)

  /** An argument of a prompt descriptor. `description` and `required` are
      `None` when the attribute is missing; otherwise they hold its value. */
  datatype PromptArgument = PromptArgument(name: string, description: Option<Json>, required: Option<Json>)

  /** An object that may carry any of the descriptor attributes the listing
      code reads, together with its `str()` form. */
  datatype Descriptor = Descriptor(
    name: Option<string>,
    uri: Option<string>,
    description: Option<string>,
    mimeType: Option<string>,
    inputSchema: Option<Opaque>,
    arguments: Option<seq<PromptArgument>>,
    repr: string)

  /** One entry of a listing: a descriptor-like object, a tuple (of strings),
      or any other value known by its `str()` form. */
  datatype Entry =
    | Described(d: Descriptor)
    | Tuple(elems: seq<string>)
    | Other(repr: string)

  /** What a list call returns: a result object carrying the list in an
      attribute (`.tools`, `.resources`, `.prompts`), a bare list, or some
      other single value. */
  datatype Listing =
    | Wrapped(items: seq<Entry>)
    | Bare(items: seq<Entry>)
    | Single(entry: Entry)

  /** The content of a prompt message: a string, an object with `text`, or
      anything else. */
  datatype PromptContent =
    | StrContent(s: string)
    | TextContent(text: string)
    | OtherContent(repr: string)

  datatype PromptMessage = PromptMessage(role: Option<string>, content: Option<PromptContent>)

  /** A `get_prompt` result; `messages` is `None` when the attribute is missing. */
  datatype PromptResult = PromptResult(messages: Option<seq<PromptMessage>>)

  /** One MCP server endpoint, seen through a fresh session per call: each field
      is the outcome of connect, initialize and one operation, either the raw
      response or the text of the exception raised on the way. */
  datatype Endpoint = Endpoint(
    callTool: (string, Args) -> Result<seq<ContentItem>, string>,
    readResource: string -> Result<seq<ContentItem>, string>,
    listTools: Result<Listing, string>,
    listResources: Result<Listing, string>,
    listPrompts: Result<Listing, string>,
    getPrompt: (string, Args) -> Result<PromptResult, string>)

  /** The servers reachable from the client, by SSE URL. */
  type Network = string -> Endpoint
}
