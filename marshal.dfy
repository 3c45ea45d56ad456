/** How MCP responses become JSON records: one specification function per shape
    of response, shared by the class-based client (mcp_client.py) and the
    module-level helpers of the hint agent (hint_agent.py), plus the two
    content loops both of them run. */
module Marshal {
  import opened Wrappers
  import opened Json
  import opened McpTypes

  /** Python truth of an optional string attribute: present and non-empty. */
  predicate Truthy(o: Option<string>) {
    o.Some? && o.value != ""
  }

  /** `str(e)` of an entry that is not a tuple. */
  function Repr(e: Entry): string
    requires !e.Tuple?
  {
    if e.Described? then e.d.repr else e.repr
  }

  // ---------------------------------------------------------------------------
  // Tool-call content (mcp_client.py:34-40, hint_agent.py:123-128)

  /** A text item becomes `{"type": "text", "text": t}`; anything else its `str()`. */
  function ContentEntry(item: ContentItem): Json {
    match item
    case TextItem(t, _) => Obj([("type", Str("text")), ("text", Str(t))])
    case OtherItem(r) => Str(r)
  }

  /** The content list: one entry per item, in the server's order. */
  function ContentEntries(items: seq<ContentItem>): (r: seq<Json>)
    ensures |r| == |items|
    ensures forall k :: 0 <= k < |items| ==> r[k] == ContentEntry(items[k])
  {
    if |items| == 0 then []
    else ContentEntries(items[..|items| - 1]) + [ContentEntry(items[|items| - 1])]
  }

  /** What an entry says about its item: text items keep exactly their text under
      the keys "type" and "text", and other items keep their string form. */
  lemma ContentEntryMeaning(item: ContentItem)
    ensures item.TextItem? ==>
      Keys(ContentEntry(item)) == ["type", "text"] &&
      Lookup(ContentEntry(item), "type") == Some(Str("text")) &&
      Lookup(ContentEntry(item), "text") == Some(Str(item.text))
    ensures item.OtherItem? ==> ContentEntry(item) == Str(item.repr)
  {
    if item.TextItem? {
      var ms := ContentEntry(item).members;
      assert MemberNames(ms) == MemberNames(ms[..1]) + [ms[1].0];
    }
  }

  /** The loop of `execute_tool`: append one entry per item. */
  method BuildContentList(items: seq<ContentItem>) returns (list: seq<Json>)
    ensures list == ContentEntries(items)
  {
    list := [];
    for i := 0 to |items|
      invariant list == ContentEntries(items[..i])
    {
      assert items[..i + 1][..i] == items[..i];
      list := list + [ContentEntry(items[i])];
    }
    assert items[..|items|] == items;
  }

  // ---------------------------------------------------------------------------
  // Resource contents (mcp_client.py:56-64, hint_agent.py:154-162)

  /** Like `ContentEntry`, but a text item with a present, non-empty uri also
      records it under "uri". */
  function ResourceContentEntry(item: ContentItem): Json {
    match item
    case TextItem(t, u) =>
      Obj([("type", Str("text")), ("text", Str(t))] + (if Truthy(u) then [("uri", Str(u.value))] else []))
    case OtherItem(r) => Str(r)
  }

  function ResourceContentEntries(items: seq<ContentItem>): (r: seq<Json>)
    ensures |r| == |items|
    ensures forall k :: 0 <= k < |items| ==> r[k] == ResourceContentEntry(items[k])
  {
    if |items| == 0 then []
    else ResourceContentEntries(items[..|items| - 1]) + [ResourceContentEntry(items[|items| - 1])]
  }

  /** The "uri" key appears exactly for text items whose uri is present and
      non-empty, and then holds that uri; text is always kept. */
  lemma ResourceEntryMeaning(item: ContentItem)
    ensures "uri" in Keys(ResourceContentEntry(item)) <==> item.TextItem? && Truthy(item.uri)
    ensures "uri" in Keys(ResourceContentEntry(item)) ==>
      Lookup(ResourceContentEntry(item), "uri") == Some(Str(item.uri.value))
    ensures item.TextItem? ==> Lookup(ResourceContentEntry(item), "text") == Some(Str(item.text))
    ensures item.OtherItem? ==> ResourceContentEntry(item) == Str(item.repr)
  {
    if item.TextItem? {
      var ms := ResourceContentEntry(item).members;
      var base: seq<(string, Json)> := [("type", Str("text")), ("text", Str(item.text))];
      if Truthy(item.uri) {
        assert ms == base + [("uri", Str(item.uri.value))];
        assert MemberNames(ms) == MemberNames(ms[..2]) + [ms[2].0];
        assert MemberNames(ms[..2]) == MemberNames(ms[..1]) + [ms[1].0];
        assert LookupIn(ms, "uri") == LookupIn(ms[1..], "uri");
        assert LookupIn(ms[1..], "uri") == LookupIn(ms[2..], "uri");
      } else {
        assert ms == base;
        assert MemberNames(ms) == MemberNames(ms[..1]) + [ms[1].0];
      }
    }
  }

  /** The loop of `read_resource`. */
  method BuildResourceContentList(items: seq<ContentItem>) returns (list: seq<Json>)
    ensures list == ResourceContentEntries(items)
  {
    list := [];
    for i := 0 to |items|
      invariant list == ResourceContentEntries(items[..i])
    {
      assert items[..i + 1][..i] == items[..i];
      list := list + [ResourceContentEntry(items[i])];
    }
    assert items[..|items|] == items;
  }

  // ---------------------------------------------------------------------------
  // Listings (mcp_client.py:82, 114, 138; hint_agent.py:211-217)

  /** The list a listing carries: its attribute, the list itself, or a
      one-element list around any other value. */
  function Unwrap(l: Listing): (es: seq<Entry>)
    ensures |es| == if l.Single? then 1 else |l.items|
    ensures l.Single? ==> es[0] == l.entry
    ensures !l.Single? ==> es == l.items
  {
    match l
    case Wrapped(items) => items
    case Bare(items) => items
    case Single(e) => [e]
  }

  // ---------------------------------------------------------------------------
  // list_tools of the client (mcp_client.py:84-96)

  predicate IsNamed(e: Entry) {
    e.Described? && e.d.name.Some?
  }

  /** One record of the tool list. */
  function ToolRecord(e: Entry): Json {
    if IsNamed(e) then
      Obj([("name", Str(e.d.name.value))]
          + (if Truthy(e.d.description) then [("description", Str(e.d.description.value))] else [])
          + (if e.d.inputSchema.Some? && e.d.inputSchema.value.truthy
             then [("inputSchema", Str(e.d.inputSchema.value.repr))] else []))
    else if e.Tuple? then
      Obj([("name", if |e.elems| > 0 then Str(e.elems[0]) else Null),
           ("description", if |e.elems| > 1 then Str(e.elems[1]) else Null)])
    else
      Obj([("info", Str(Repr(e)))])
  }

  function ToolRecords(es: seq<Entry>): (r: seq<Json>)
    ensures |r| == |es|
    ensures forall k :: 0 <= k < |es| ==> r[k] == ToolRecord(es[k])
  {
    if |es| == 0 then [] else ToolRecords(es[..|es| - 1]) + [ToolRecord(es[|es| - 1])]
  }

  /** Which keys a tool record has: "name" for named tools and tuples; a
      "description" only when truthy (or from a tuple, possibly null); an
      "inputSchema", holding its string form, only when truthy; "info" for
      anything else. */
  lemma ToolRecordMeaning(e: Entry)
    ensures "name" in Keys(ToolRecord(e)) <==> IsNamed(e) || e.Tuple?
    ensures IsNamed(e) ==> Lookup(ToolRecord(e), "name") == Some(Str(e.d.name.value))
    ensures "description" in Keys(ToolRecord(e)) <==> (IsNamed(e) && Truthy(e.d.description)) || e.Tuple?
    ensures "inputSchema" in Keys(ToolRecord(e)) <==>
      IsNamed(e) && e.d.inputSchema.Some? && e.d.inputSchema.value.truthy
    ensures "info" in Keys(ToolRecord(e)) <==> !IsNamed(e) && !e.Tuple?
    ensures e.Tuple? ==>
      Lookup(ToolRecord(e), "name") == Some(if |e.elems| > 0 then Str(e.elems[0]) else Null) &&
      Lookup(ToolRecord(e), "description") == Some(if |e.elems| > 1 then Str(e.elems[1]) else Null)
  {
    if IsNamed(e) {
      NamedToolKeys(e);
    } else if e.Tuple? {
      var ms := ToolRecord(e).members;
      assert Keys(ToolRecord(e)) == ["name", "description"];
      assert LookupIn(ms, "description") == LookupIn(ms[1..], "description");
    } else {
      assert Keys(ToolRecord(e)) == ["info"];
    }
  }

  lemma NamedToolKeys(e: Entry)
    requires IsNamed(e)
    ensures Keys(ToolRecord(e)) ==
      ["name"] + (if Truthy(e.d.description) then ["description"] else [])
      + (if e.d.inputSchema.Some? && e.d.inputSchema.value.truthy then ["inputSchema"] else [])
  {
    var a: seq<(string, Json)> := [("name", Str(e.d.name.value))];
    var b: seq<(string, Json)> := if Truthy(e.d.description) then [("description", Str(e.d.description.value))] else [];
    var c: seq<(string, Json)> := if e.d.inputSchema.Some? && e.d.inputSchema.value.truthy
                                  then [("inputSchema", Str(e.d.inputSchema.value.repr))] else [];
    assert ToolRecord(e).members == a + b + c;
    MemberNamesAppend(a + b, c);
    MemberNamesAppend(a, b);
  }

  // ---------------------------------------------------------------------------
  // list_resources of the client (mcp_client.py:115-121)

  predicate HasUriAndName(e: Entry) {
    e.Described? && e.d.uri.Some? && e.d.name.Some?
  }

  /** The entries the client lists: those with both uri and name, in order. */
  function ListedResources(es: seq<Entry>): (r: seq<Entry>)
    ensures |r| <= |es|
    ensures forall k :: 0 <= k < |r| ==> HasUriAndName(r[k]) && r[k] in es
  {
    if |es| == 0 then []
    else
      ListedResources(es[..|es| - 1])
      + (if HasUriAndName(es[|es| - 1]) then [es[|es| - 1]] else [])
  }

  /** Keeping the listable entries of a concatenation keeps each part's, in order. */
  lemma {:induction false} ListedResourcesAppend(a: seq<Entry>, b: seq<Entry>)
    ensures ListedResources(a + b) == ListedResources(a) + ListedResources(b)
    decreases |b|
  {
    if |b| == 0 {
      assert a + b == a;
    } else {
      var n := |b|;
      assert (a + b)[..|a + b| - 1] == a + b[..n - 1];
      ListedResourcesAppend(a, b[..n - 1]);
    }
  }

  /** No entry with both a uri and a name is dropped. */
  lemma {:induction false} ListedResourcesComplete(es: seq<Entry>)
    ensures forall k :: 0 <= k < |es| && HasUriAndName(es[k]) ==> es[k] in ListedResources(es)
  {
    if |es| > 0 {
      var init := es[..|es| - 1];
      ListedResourcesComplete(init);
      forall k | 0 <= k < |es| && HasUriAndName(es[k])
        ensures es[k] in ListedResources(es)
      {
        if k < |init| {
          assert init[k] == es[k];
        }
      }
    }
  }

  function ResourceRecord(e: Entry): Json
    requires HasUriAndName(e)
  {
    Obj([("uri", Str(e.d.uri.value)), ("name", Str(e.d.name.value))]
        + (if Truthy(e.d.description) then [("description", Str(e.d.description.value))] else []))
  }

  function ResourceRecords(es: seq<Entry>): (r: seq<Json>)
    ensures |r| == |ListedResources(es)|
    ensures forall k :: 0 <= k < |r| ==> r[k] == ResourceRecord(ListedResources(es)[k])
  {
    if |es| == 0 then []
    else
      ResourceRecords(es[..|es| - 1])
      + (if HasUriAndName(es[|es| - 1]) then [ResourceRecord(es[|es| - 1])] else [])
  }

  /** One more listed entry adds at most its own record. */
  lemma ResourceRecordsStep(es: seq<Entry>, i: nat)
    requires i < |es|
    ensures ResourceRecords(es[..i + 1])
      == ResourceRecords(es[..i]) + (if HasUriAndName(es[i]) then [ResourceRecord(es[i])] else [])
  {
    assert es[..i + 1][..i] == es[..i];
  }

  /** A resource record holds the uri and name, a description only when truthy,
      and never a mimeType. */
  lemma ResourceRecordMeaning(e: Entry)
    requires HasUriAndName(e)
    ensures Lookup(ResourceRecord(e), "uri") == Some(Str(e.d.uri.value))
    ensures Lookup(ResourceRecord(e), "name") == Some(Str(e.d.name.value))
    ensures "description" in Keys(ResourceRecord(e)) <==> Truthy(e.d.description)
    ensures "mimeType" !in Keys(ResourceRecord(e))
  {
    var ms := ResourceRecord(e).members;
    var ks := Keys(ResourceRecord(e));
    assert ks[..2] == ["uri", "name"];
    assert forall i :: 2 <= i < |ms| ==> ms[i].0 == "description";
    assert LookupIn(ms, "name") == LookupIn(ms[1..], "name");
  }

  // ---------------------------------------------------------------------------
  // list_prompts of the client (mcp_client.py:139-147)

  /** An argument record: a missing description reads as null and a missing
      `required` as false. */
  function ArgumentRecord(a: PromptArgument): Json {
    Obj([("name", Str(a.name)),
         ("description", a.description.GetOr(Null)),
         ("required", a.required.GetOr(Bool(false)))])
  }

  function ArgumentRecords(args: seq<PromptArgument>): (r: seq<Json>)
    ensures |r| == |args|
    ensures forall k :: 0 <= k < |args| ==> r[k] == ArgumentRecord(args[k])
  {
    if |args| == 0 then [] else ArgumentRecords(args[..|args| - 1]) + [ArgumentRecord(args[|args| - 1])]
  }

  /** The defaults an argument record applies. */
  lemma ArgumentRecordMeaning(a: PromptArgument)
    ensures Keys(ArgumentRecord(a)) == ["name", "description", "required"]
    ensures Lookup(ArgumentRecord(a), "description") == Some(if a.description.None? then Null else a.description.value)
    ensures Lookup(ArgumentRecord(a), "required") == Some(if a.required.None? then Bool(false) else a.required.value)
  {
    var ms := ArgumentRecord(a).members;
    assert MemberNames(ms) == MemberNames(ms[..2]) + [ms[2].0];
    assert MemberNames(ms[..2]) == MemberNames(ms[..1]) + [ms[1].0];
    assert LookupIn(ms, "description") == LookupIn(ms[1..], "description");
    assert LookupIn(ms, "required") == LookupIn(ms[1..], "required");
    assert LookupIn(ms[1..], "required") == LookupIn(ms[2..], "required");
  }

  /** The entries the client lists as prompts: the named ones, in order. */
  function NamedPrompts(es: seq<Entry>): (r: seq<Entry>)
    ensures |r| <= |es|
    ensures forall k :: 0 <= k < |r| ==> IsNamed(r[k]) && r[k] in es
  {
    if |es| == 0 then []
    else NamedPrompts(es[..|es| - 1]) + (if IsNamed(es[|es| - 1]) then [es[|es| - 1]] else [])
  }

  /** No named prompt is dropped. */
  lemma {:induction false} NamedPromptsComplete(es: seq<Entry>)
    ensures forall k :: 0 <= k < |es| && IsNamed(es[k]) ==> es[k] in NamedPrompts(es)
  {
    if |es| > 0 {
      var init := es[..|es| - 1];
      NamedPromptsComplete(init);
      forall k | 0 <= k < |es| && IsNamed(es[k])
        ensures es[k] in NamedPrompts(es)
      {
        if k < |init| {
          assert init[k] == es[k];
        }
      }
    }
  }

  /** Keeping the named prompts of a concatenation keeps each part's, in order. */
  lemma {:induction false} NamedPromptsAppend(a: seq<Entry>, b: seq<Entry>)
    ensures NamedPrompts(a + b) == NamedPrompts(a) + NamedPrompts(b)
    decreases |b|
  {
    if |b| == 0 {
      assert a + b == a;
    } else {
      var n := |b|;
      assert (a + b)[..|a + b| - 1] == a + b[..n - 1];
      NamedPromptsAppend(a, b[..n - 1]);
    }
  }

  function PromptRecord(e: Entry): Json
    requires IsNamed(e)
  {
    Obj([("name", Str(e.d.name.value))]
        + (if Truthy(e.d.description) then [("description", Str(e.d.description.value))] else [])
        + (if e.d.arguments.Some? && |e.d.arguments.value| > 0
           then [("arguments", Arr(ArgumentRecords(e.d.arguments.value)))] else []))
  }

  function PromptRecords(es: seq<Entry>): (r: seq<Json>)
    ensures |r| == |NamedPrompts(es)|
    ensures forall k :: 0 <= k < |r| ==> r[k] == PromptRecord(NamedPrompts(es)[k])
  {
    if |es| == 0 then []
    else PromptRecords(es[..|es| - 1]) + (if IsNamed(es[|es| - 1]) then [PromptRecord(es[|es| - 1])] else [])
  }

  /** One more listed entry adds at most its own prompt record. */
  lemma PromptRecordsStep(es: seq<Entry>, i: nat)
    requires i < |es|
    ensures PromptRecords(es[..i + 1])
      == PromptRecords(es[..i]) + (if IsNamed(es[i]) then [PromptRecord(es[i])] else [])
  {
    assert es[..i + 1][..i] == es[..i];
  }

  // ---------------------------------------------------------------------------
  // get_prompt of the client (mcp_client.py:165-180)

  /** A message's content: the string itself, else its `.text`, else its `str()`. */
  function PromptContentText(c: PromptContent): string {
    match c
    case StrContent(s) => s
    case TextContent(t) => t
    case OtherContent(r) => r
  }

  function MessageRecord(m: PromptMessage): Json {
    Obj((if m.role.Some? then [("role", Str(m.role.value))] else [])
        + (if m.content.Some? then [("content", Str(PromptContentText(m.content.value)))] else []))
  }

  function MessageRecords(ms: seq<PromptMessage>): (r: seq<Json>)
    ensures |r| == |ms|
    ensures forall k :: 0 <= k < |ms| ==> r[k] == MessageRecord(ms[k])
  {
    if |ms| == 0 then [] else MessageRecords(ms[..|ms| - 1]) + [MessageRecord(ms[|ms| - 1])]
  }

  /** The prompt payload: `{"messages": [...]}`, empty when the result has no messages. */
  function PromptPayload(r: PromptResult): (j: Json)
    ensures Keys(j) == ["messages"]
    ensures Lookup(j, "messages") == Some(Arr(if r.messages.None? then [] else MessageRecords(r.messages.value)))
  {
    Obj([("messages", Arr(if r.messages.None? then [] else MessageRecords(r.messages.value)))])
  }

  // ---------------------------------------------------------------------------
  // list_mcp_resources of the hint agent (hint_agent.py:220-233)

  /** The hint agent's resource record. It indexes `r[0]` of a tuple without
      checking its length, so an empty tuple raises IndexError. */
  function HintResourceRecord(e: Entry): Result<Json, string> {
    if HasUriAndName(e) then
      Success(Obj([("uri", Str(e.d.uri.value)), ("name", Str(e.d.name.value))]
                  + (if Truthy(e.d.description) then [("description", Str(e.d.description.value))] else [])
                  + (if Truthy(e.d.mimeType) then [("mimeType", Str(e.d.mimeType.value))] else [])))
    else if e.Tuple? then
      if |e.elems| == 0 then Failure("tuple index out of range")
      else Success(Obj([("uri", if e.elems[0] != "" then Str(e.elems[0]) else Null),
                        ("name", if |e.elems| > 1 then Str(e.elems[1]) else Null)]))
    else
      Success(Obj([("info", Str(Repr(e)))]))
  }

  /** All records, or the first failure. */
  function HintResourceRecords(es: seq<Entry>): (r: Result<seq<Json>, string>)
    ensures r.Success? <==> forall k :: 0 <= k < |es| ==> es[k] != Tuple([])
    ensures r.Success? ==> |r.value| == |es|
    ensures r.Success? ==> forall k :: 0 <= k < |es| ==> HintResourceRecord(es[k]) == Success(r.value[k])
  {
    if |es| == 0 then Success([])
    else
      match HintResourceRecords(es[..|es| - 1])
      case Failure(err) => Failure(err)
      case Success(prev) =>
        match HintResourceRecord(es[|es| - 1])
        case Failure(err) => Failure(err)
        case Success(j) => Success(prev + [j])
  }

  /** The first entry whose record fails decides the outcome of the whole
      listing: the exception leaves the loop. */
  lemma {:induction false} HintResourceRecordsStopAt(es: seq<Entry>, i: nat)
    requires i < |es|
    requires HintResourceRecords(es[..i]).Success? && HintResourceRecord(es[i]).Failure?
    ensures HintResourceRecords(es) == Failure(HintResourceRecord(es[i]).error)
    decreases |es|
  {
    var init := es[..|es| - 1];
    if |es| == i + 1 {
      assert init == es[..i];
    } else {
      assert init[..i] == es[..i];
      assert init[i] == es[i];
      HintResourceRecordsStopAt(init, i);
    }
  }

  /** The keys of a hint resource record, in order. */
  lemma HintResourceKeys(e: Entry)
    requires HasUriAndName(e)
    ensures HintResourceRecord(e).Success?
    ensures Keys(HintResourceRecord(e).value)
      == ["uri", "name"]
         + (if Truthy(e.d.description) then ["description"] else [])
         + (if Truthy(e.d.mimeType) then ["mimeType"] else [])
  {
    var a: seq<(string, Json)> := [("uri", Str(e.d.uri.value)), ("name", Str(e.d.name.value))];
    var b: seq<(string, Json)> := if Truthy(e.d.description) then [("description", Str(e.d.description.value))] else [];
    var c: seq<(string, Json)> := if Truthy(e.d.mimeType) then [("mimeType", Str(e.d.mimeType.value))] else [];
    assert HintResourceRecord(e).value.members == a + b + c;
    MemberNamesAppend(a + b, c);
    MemberNamesAppend(a, b);
    assert MemberNames(a) == ["uri", "name"];
  }

  /** Entries with uri and name keep both and carry description and mimeType
      only when truthy; a non-empty tuple gives its first element as the uri
      (null when empty) and its second as the name (null when missing); every
      other non-tuple entry is reported under "info". */
  lemma HintResourceRecordMeaning(e: Entry)
    ensures HasUriAndName(e) ==>
      HintResourceRecord(e).Success? &&
      Lookup(HintResourceRecord(e).value, "uri") == Some(Str(e.d.uri.value)) &&
      ("description" in Keys(HintResourceRecord(e).value) <==> Truthy(e.d.description)) &&
      ("mimeType" in Keys(HintResourceRecord(e).value) <==> Truthy(e.d.mimeType))
    ensures HasUriAndName(e) ==>
      Lookup(HintResourceRecord(e).value, "name") == Some(Str(e.d.name.value))
    ensures !HasUriAndName(e) && e.Tuple? && |e.elems| > 0 ==>
      && HintResourceRecord(e).Success?
      && Keys(HintResourceRecord(e).value) == ["uri", "name"]
      && Lookup(HintResourceRecord(e).value, "uri") == Some(if e.elems[0] != "" then Str(e.elems[0]) else Null)
      && Lookup(HintResourceRecord(e).value, "name") == Some(if |e.elems| > 1 then Str(e.elems[1]) else Null)
    ensures !HasUriAndName(e) && !e.Tuple? ==>
      HintResourceRecord(e) == Success(Obj([("info", Str(Repr(e)))]))
  {
    if HasUriAndName(e) {
      HintResourceKeys(e);
      var ms := HintResourceRecord(e).value.members;
      assert LookupIn(ms, "name") == LookupIn(ms[1..], "name");
    } else if e.Tuple? && |e.elems| > 0 {
      var ms := HintResourceRecord(e).value.members;
      assert MemberNames(ms) == MemberNames(ms[..1]) + [ms[1].0];
      assert LookupIn(ms, "name") == LookupIn(ms[1..], "name");
    }
  }

  // ---------------------------------------------------------------------------
  // list_mcp_tools of the hint agent (hint_agent.py:182-187)

  /** `{"name": t.name, "description": t.description}`; an entry without a
      `name` attribute raises AttributeError. */
  function HintToolRecord(e: Entry): Result<Json, string> {
    if IsNamed(e) then
      Success(Obj([("name", Str(e.d.name.value)),
                   ("description", if e.d.description.Some? then Str(e.d.description.value) else Null)]))
    else Failure("object has no attribute 'name'")
  }

  function HintToolRecords(es: seq<Entry>): (r: Result<seq<Json>, string>)
    ensures r.Success? <==> forall k :: 0 <= k < |es| ==> IsNamed(es[k])
    ensures r.Success? ==> |r.value| == |es|
    ensures r.Success? ==> forall k :: 0 <= k < |es| ==> HintToolRecord(es[k]) == Success(r.value[k])
  {
    if |es| == 0 then Success([])
    else
      match HintToolRecords(es[..|es| - 1])
      case Failure(err) => Failure(err)
      case Success(prev) =>
        match HintToolRecord(es[|es| - 1])
        case Failure(err) => Failure(err)
        case Success(j) => Success(prev + [j])
  }
}
