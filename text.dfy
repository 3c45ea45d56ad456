/** String helpers standing in for the Python built-ins the agents use:
    `str.lower`, the `in` substring test, `" ".join`, `"\n".join` and
    decimal formatting of integers. Case and character classes are ASCII. */
module Text {

  function LowerChar(c: char): char {
    if 'A' <= c <= 'Z' then (c as int + 32) as char else c
  }

  /** `s.lower()`, restricted to ASCII letters. */
  function Lower(s: string): (r: string)
    ensures |r| == |s|
    ensures forall i :: 0 <= i < |s| ==> r[i] == LowerChar(s[i])
  {
    seq(|s|, i requires 0 <= i < |s| => LowerChar(s[i]))
  }

  /** The `\w` class of Python's `re` under `re.ASCII`: letters, digits and underscore. */
  predicate IsWordChar(c: char) {
    ('a' <= c <= 'z') || ('A' <= c <= 'Z') || ('0' <= c <= '9') || c == '_'
  }

  /** The `\s` class of Python's `re` under `re.ASCII`. */
  predicate IsSpace(c: char) {
    c == ' ' || c == '\t' || c == '\n' || c == '\r' || c == '\U{B}' || c == '\U{C}'
  }

  /** `t` occurs in `s` starting at index `i`. */
  predicate OccursAt(s: string, t: string, i: int) {
    0 <= i && i + |t| <= |s| && s[i..i + |t|] == t
  }

  /** `t in s` for strings. */
  predicate Contains(s: string, t: string) {
    exists i | 0 <= i <= |s| :: OccursAt(s, t, i)
  }

  /** A witness for `Contains`. */
  lemma ContainsAt(s: string, t: string, i: nat)
    requires OccursAt(s, t, i)
    ensures Contains(s, t)
  {
  }

  /** A string contains every prefix of each of its substrings. */
  lemma ContainsPrefix(s: string, t: string, n: nat)
    requires Contains(s, t) && n <= |t|
    ensures Contains(s, t[..n])
  {
    var i: int :| 0 <= i <= |s| && OccursAt(s, t, i);
    assert s[i..i + n] == t[..n];
    assert OccursAt(s, t[..n], i);
  }

  /** Lowering commutes with slicing. */
  lemma LowerSlice(s: string, i: nat, j: nat)
    requires i <= j <= |s|
    ensures Lower(s[i..j]) == Lower(s)[i..j]
  {
    var a := Lower(s[i..j]);
    var b := Lower(s)[i..j];
    forall k | 0 <= k < j - i
      ensures a[k] == b[k]
    {
      assert s[i..j][k] == s[i + k];
    }
  }

  /** A slice of a slice is a slice. */
  lemma SliceOfSlice(s: string, p: nat, e: nat, a: nat, b: nat)
    requires p <= e <= |s| && a <= b <= e - p
    ensures s[p..e][a..b] == s[p + a..p + b]
  {
    forall k | 0 <= k < b - a
      ensures s[p..e][a..b][k] == s[p + a..p + b][k]
    {
      assert s[p..e][a..b][k] == s[p + a + k];
    }
  }

  /** Text around a string keeps what the string contains. */
  lemma ContainsInside(pre: string, mid: string, post: string, t: string)
    requires Contains(mid, t)
    ensures Contains(pre + mid + post, t)
  {
    var i: int :| 0 <= i <= |mid| && OccursAt(mid, t, i);
    var s := pre + mid + post;
    assert s[|pre| + i..|pre| + i + |t|] == mid[i..i + |t|];
    ContainsAt(s, t, |pre| + i);
  }

  /** Whatever occurs in a lowered text is itself lower case. */
  lemma LowerSubstring(s: string, t: string)
    requires Contains(Lower(s), t)
    ensures Lower(t) == t
  {
    var i: int :| 0 <= i <= |Lower(s)| && OccursAt(Lower(s), t, i);
    forall j | 0 <= j < |t|
      ensures LowerChar(t[j]) == t[j]
    {
      assert t[j] == Lower(s)[i + j] == LowerChar(s[i + j]);
    }
  }

  predicate StartsWith(s: string, p: string) {
    |p| <= |s| && s[..|p|] == p
  }

  /** `sep.join(parts)`. */
  function Join(parts: seq<string>, sep: string): string {
    if |parts| == 0 then ""
    else if |parts| == 1 then parts[0]
    else Join(parts[..|parts| - 1], sep) + sep + parts[|parts| - 1]
  }

  /** Each joined part occurs in the joined text. */
  lemma {:induction false} JoinContains(parts: seq<string>, sep: string, k: nat)
    requires k < |parts|
    ensures Contains(Join(parts, sep), parts[k])
  {
    var n := |parts|;
    var j := Join(parts, sep);
    if n == 1 {
      assert j[0..|parts[0]|] == parts[0];
      ContainsAt(j, parts[k], 0);
    } else if k == n - 1 {
      var pre := Join(parts[..n - 1], sep) + sep;
      assert j == pre + parts[k];
      assert j[|pre|..|pre| + |parts[k]|] == parts[k];
      ContainsAt(j, parts[k], |pre|);
    } else {
      var init := Join(parts[..n - 1], sep);
      JoinContains(parts[..n - 1], sep, k);
      assert parts[..n - 1][k] == parts[k];
      var i: int :| 0 <= i <= |init| && OccursAt(init, parts[k], i);
      assert j == init + sep + parts[n - 1];
      assert j[i..i + |parts[k]|] == init[i..i + |parts[k]|];
      ContainsAt(j, parts[k], i);
    }
  }

  function DigitChar(d: nat): char
    requires d < 10
  {
    "0123456789"[d]
  }

  /** `str(n)` for a non-negative integer. */
  function NatToString(n: nat): (s: string)
    ensures |s| > 0
    ensures forall i :: 0 <= i < |s| ==> '0' <= s[i] <= '9'
  {
    if n < 10 then [DigitChar(n)] else NatToString(n / 10) + [DigitChar(n % 10)]
  }
}
