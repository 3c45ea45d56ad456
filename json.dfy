/** JSON value trees: what the marshalling code hands to `json.dumps`.
    Objects keep their members in insertion order, as Python dicts do. */
module Json {
  import opened Wrappers

  datatype Json =
    | Null
    | Bool(b: bool)
    | Str(s: string)
    | Arr(items: seq<Json>)
    | Obj(members: seq<(string, Json)>)

  /** Tool-call and prompt arguments: a JSON object keyed by argument name. */
  type Args = map<string, Json>

  /** The member names of an object, in order (empty for any other value). */
  function Keys(j: Json): (ks: seq<string>)
    ensures j.Obj? ==> |ks| == |j.members|
    ensures j.Obj? ==> forall i :: 0 <= i < |ks| ==> ks[i] == j.members[i].0
    ensures !j.Obj? ==> ks == []
  {
    if j.Obj? then MemberNames(j.members) else []
  }

  function MemberNames(ms: seq<(string, Json)>): (ks: seq<string>)
    ensures |ks| == |ms|
    ensures forall i :: 0 <= i < |ms| ==> ks[i] == ms[i].0
  {
    if |ms| == 0 then [] else MemberNames(ms[..|ms| - 1]) + [ms[|ms| - 1].0]
  }

  /** Member names distribute over concatenation. */
  lemma MemberNamesAppend(a: seq<(string, Json)>, b: seq<(string, Json)>)
    ensures MemberNames(a + b) == MemberNames(a) + MemberNames(b)
  {
    var l, r := MemberNames(a + b), MemberNames(a) + MemberNames(b);
    assert |l| == |r|;
    forall i | 0 <= i < |l| ensures l[i] == r[i] {
      if i < |a| { assert (a + b)[i] == a[i]; } else { assert (a + b)[i] == b[i - |a|]; }
    }
  }

  /** The value of the first member called `key`, as `obj[key]` reads it. */
  function Lookup(j: Json, key: string): (r: Option<Json>)
    ensures r.Some? <==> key in Keys(j)
  {
    if j.Obj? then LookupIn(j.members, key) else None
  }

  function LookupIn(ms: seq<(string, Json)>, key: string): (r: Option<Json>)
    ensures r.Some? <==> key in MemberNames(ms)
    ensures r.Some? ==> exists i :: 0 <= i < |ms| && ms[i] == (key, r.value)
  {
    if |ms| == 0 then None
    else if ms[0].0 == key then Some(ms[0].1)
    else
      var r := LookupIn(ms[1..], key);
      assert MemberNames(ms) == [ms[0].0] + MemberNames(ms[1..]);
      r
  }

  /** Text of a JSON string literal: quotes, with `"`, `\` and newline escaped. */
  function Quote(s: string): (q: string)
    ensures |q| >= 2 && q[0] == '"' && q[|q| - 1] == '"'
  {
    "\"" + Escape(s) + "\""
  }

  function Escape(s: string): string {
    if |s| == 0 then ""
    else
      var c := s[0];
      (if c == '"' then "\\\"" else if c == '\\' then "\\\\" else if c == '\n' then "\\n" else [c])
      + Escape(s[1..])
  }

  function JoinComma(parts: seq<string>): string {
    if |parts| == 0 then ""
    else if |parts| == 1 then parts[0]
    else parts[0] + ", " + JoinComma(parts[1..])
  }

  /** The serialised text of a value. The layout (separators, no indentation) is
      this model's own; what the callers rely on is that arrays are written
      between brackets and objects between braces. */
  function Dumps(j: Json): (t: string)
    ensures |t| > 0
    ensures j.Arr? ==> t[0] == '['
    ensures j.Obj? ==> t[0] == '{'
    decreases j
  {
    match j
    case Null => "null"
    case Bool(b) => if b then "true" else "false"
    case Str(s) => Quote(s)
    case Arr(items) =>
      "[" + JoinComma(seq(|items|, i requires 0 <= i < |items| => Dumps(items[i]))) + "]"
    case Obj(members) =>
      "{" + JoinComma(seq(|members|, i requires 0 <= i < |members| =>
                            Quote(members[i].0) + ": " + Dumps(members[i].1))) + "}"
  }
}
