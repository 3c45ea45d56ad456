/** The two regular expressions of the hint agent, as scanners:
      `(?:user|username)[\s=:]+(\w+)`  (the username after "user"/"username")
      `(\w+://[\w/\-]+)`               (a resource URI)
    Each is given twice: as a declarative description of the text the pattern
    matches, and as the scan `re.search` performs (leftmost start, greedy
    repetition); lemmas connect the two. Character classes are ASCII. */
module Patterns {
  import opened Wrappers
  import opened Text

  datatype CharClass = WordClass | SepClass | PathClass

  /** `\w`, `[\s=:]` and `[\w/\-]`. */
  predicate InClass(c: char, cls: CharClass) {
    match cls
    case WordClass => IsWordChar(c)
    case SepClass => IsSpace(c) || c == '=' || c == ':'
    case PathClass => IsWordChar(c) || c == '/' || c == '-'
  }

  predicate AllIn(s: string, i: nat, j: nat, cls: CharClass)
    requires i <= j <= |s|
  {
    forall k :: i <= k < j ==> InClass(s[k], cls)
  }

  /** The end of the longest run of `cls` characters starting at `i`:
      what a greedy `+` or `*` over that class consumes. */
  function RunEnd(s: string, i: nat, cls: CharClass): (j: nat)
    requires i <= |s|
    ensures i <= j <= |s|
    ensures AllIn(s, i, j, cls)
    ensures j == |s| || !InClass(s[j], cls)
    decreases |s| - i
  {
    if i < |s| && InClass(s[i], cls) then RunEnd(s, i + 1, cls) else i
  }

  /** A run that ends at a character outside the class is the longest run. */
  lemma {:induction false} RunEndIs(s: string, i: nat, g: nat, cls: CharClass)
    requires i <= g <= |s| && AllIn(s, i, g, cls)
    requires g == |s| || !InClass(s[g], cls)
    ensures RunEnd(s, i, cls) == g
    decreases g - i
  {
    if i < g {
      RunEndIs(s, i + 1, g, cls);
    }
  }

  /** A greedy run consumes at least every class character in front of it. */
  lemma {:induction false} RunEndCovers(s: string, i: nat, g: nat, cls: CharClass)
    requires i <= g <= |s| && AllIn(s, i, g, cls)
    ensures RunEnd(s, i, cls) >= g
    decreases g - i
  {
    if i < g {
      RunEndCovers(s, i + 1, g, cls);
    }
  }

  // ---------------------------------------------------------------------------
  // (?:user|username)[\s=:]+(\w+)

  /** The text from `p` matches the username pattern with keyword `kw`, with
      the captured group spanning `[gs, ge)`. */
  predicate UsernameShaped(s: string, p: nat, kw: string, gs: nat, ge: nat) {
    && (kw == "user" || kw == "username")
    && OccursAt(s, kw, p)
    && p + |kw| < gs < ge <= |s|
    && AllIn(s, p + |kw|, gs, SepClass)
    && AllIn(s, gs, ge, WordClass)
  }

  /** `[\s=:]+(\w+)` from `q`: the span of the group, if the tail matches. */
  function SepsThenWord(s: string, q: nat): Option<(nat, nat)>
    requires q <= |s|
  {
    var m := RunEnd(s, q, SepClass);
    if m == q then None
    else
      var e := RunEnd(s, m, WordClass);
      if e == m then None else Some((m, e))
  }

  /** The group the pattern captures when matched at `p`, trying "user" before
      "username" as the alternation does. */
  function UsernameAt(s: string, p: nat): Option<(nat, nat)>
    requires p <= |s|
  {
    if !OccursAt(s, "user", p) then None
    else if SepsThenWord(s, p + 4).Some? then SepsThenWord(s, p + 4)
    else if OccursAt(s, "username", p) then SepsThenWord(s, p + 8)
    else None
  }

  /** What the scan at `p` captures is a match of the pattern, and its group is
      the longest run of word characters there. */
  lemma UsernameAtSound(s: string, p: nat)
    requires p <= |s| && UsernameAt(s, p).Some?
    ensures var (gs, ge) := UsernameAt(s, p).value;
      (UsernameShaped(s, p, "user", gs, ge) || UsernameShaped(s, p, "username", gs, ge))
      && (ge == |s| || !IsWordChar(s[ge]))
  {
  }

  /** Wherever the pattern matches at `p`, the scan at `p` finds a match. */
  lemma UsernameAtComplete(s: string, p: nat, kw: string, gs: nat, ge: nat)
    requires p <= |s| && UsernameShaped(s, p, kw, gs, ge)
    ensures UsernameAt(s, p).Some?
  {
    var q := p + |kw|;
    RunEndIs(s, q, gs, SepClass);
    RunEndCovers(s, gs, ge, WordClass);
    assert SepsThenWord(s, q) == Some((gs, RunEnd(s, gs, WordClass)));
    if kw == "username" {
      assert s[p..p + 4] == s[p..p + 8][..4];
      assert OccursAt(s, "user", p);
    }
  }

  /** A match of the username pattern: where it starts and its group. */
  datatype Match = Match(start: nat, groupStart: nat, groupEnd: nat)

  /** `re.search`: the leftmost position at or after `from` where the pattern matches. */
  function FindUsernameFrom(s: string, from: nat): (r: Option<Match>)
    requires from <= |s|
    ensures r.Some? ==>
      && from <= r.value.start <= |s|
      && UsernameAt(s, r.value.start) == Some((r.value.groupStart, r.value.groupEnd))
      && forall q :: from <= q < r.value.start ==> UsernameAt(s, q).None?
    ensures r.None? ==> forall q :: from <= q <= |s| ==> UsernameAt(s, q).None?
    decreases |s| - from
  {
    match UsernameAt(s, from)
    case Some((gs, ge)) => Some(Match(from, gs, ge))
    case None => if from == |s| then None else FindUsernameFrom(s, from + 1)
  }

  /** The username `re.search` extracts from a text, if any. */
  function FindUsername(s: string): (r: Option<string>)
    ensures r.Some? ==> |r.value| > 0 && forall k :: 0 <= k < |r.value| ==> IsWordChar(r.value[k])
    ensures r.Some? ==> Contains(s, r.value)
  {
    match FindUsernameFrom(s, 0)
    case None => None
    case Some(m) =>
      UsernameAtSound(s, m.start);
      ContainsAt(s, s[m.groupStart..m.groupEnd], m.groupStart);
      Some(s[m.groupStart..m.groupEnd])
  }

  /** Leftmost-match semantics: the username is the group of a match of the
      pattern at some position, no match of the pattern starts earlier, and the
      group is the whole run of word characters; and when there is no username,
      the pattern matches nowhere. */
  lemma FindUsernameMeaning(s: string)
    ensures FindUsername(s).Some? ==> exists m: Match ::
      && m.start <= |s|
      && (UsernameShaped(s, m.start, "user", m.groupStart, m.groupEnd)
          || UsernameShaped(s, m.start, "username", m.groupStart, m.groupEnd))
      && FindUsername(s).value == s[m.groupStart..m.groupEnd]
      && (m.groupEnd == |s| || !IsWordChar(s[m.groupEnd]))
      && forall q: nat, kw: string, gs: nat, ge: nat :: q < m.start && q <= |s| ==> !UsernameShaped(s, q, kw, gs, ge)
    ensures FindUsername(s).None? ==> forall q: nat, kw: string, gs: nat, ge: nat :: q <= |s| ==> !UsernameShaped(s, q, kw, gs, ge)
  {
    match FindUsernameFrom(s, 0)
    case None =>
      forall q: nat, kw: string, gs: nat, ge: nat | q <= |s| ensures !UsernameShaped(s, q, kw, gs, ge) {
        if UsernameShaped(s, q, kw, gs, ge) { UsernameAtComplete(s, q, kw, gs, ge); }
      }
    case Some(m) =>
      UsernameAtSound(s, m.start);
      forall q: nat, kw: string, gs: nat, ge: nat | q < m.start && q <= |s| ensures !UsernameShaped(s, q, kw, gs, ge) {
        if UsernameShaped(s, q, kw, gs, ge) { UsernameAtComplete(s, q, kw, gs, ge); }
      }
  }

  // ---------------------------------------------------------------------------
  // (\w+://[\w/\-]+)

  /** The text `[p, e)` matches the URI pattern, its scheme ending at `k`. */
  predicate UriShaped(s: string, p: nat, k: nat, e: nat) {
    && p < k && k + 3 < e <= |s|
    && AllIn(s, p, k, WordClass)
    && OccursAt(s, "://", k)
    && AllIn(s, k + 3, e, PathClass)
  }

  /** The end of the match of the URI pattern at `p`, if it matches there. */
  function UriAt(s: string, p: nat): Option<nat>
    requires p <= |s|
  {
    var k := RunEnd(s, p, WordClass);
    if k > p && OccursAt(s, "://", k) && k + 3 < |s| && InClass(s[k + 3], PathClass)
    then Some(RunEnd(s, k + 3, PathClass))
    else None
  }

  /** The scan's match is a URI, and it stops at the first character outside
      word characters, `/` and `-`. */
  lemma UriAtSound(s: string, p: nat)
    requires p <= |s| && UriAt(s, p).Some?
    ensures UriShaped(s, p, RunEnd(s, p, WordClass), UriAt(s, p).value)
    ensures UriAt(s, p).value == |s| || !InClass(s[UriAt(s, p).value], PathClass)
  {
  }

  /** Wherever the pattern matches at `p`, the scan at `p` finds a match. */
  lemma UriAtComplete(s: string, p: nat, k: nat, e: nat)
    requires p <= |s| && UriShaped(s, p, k, e)
    ensures UriAt(s, p).Some?
  {
    assert s[k] == "://"[0];
    RunEndIs(s, p, k, WordClass);
  }

  /** `re.search` for the URI pattern from `from`: (start, end) of the leftmost match. */
  function FindUriFrom(s: string, from: nat): (r: Option<(nat, nat)>)
    requires from <= |s|
    ensures r.Some? ==>
      && from <= r.value.0 <= |s|
      && UriAt(s, r.value.0) == Some(r.value.1)
      && forall q :: from <= q < r.value.0 ==> UriAt(s, q).None?
    ensures r.None? ==> forall q :: from <= q <= |s| ==> UriAt(s, q).None?
    decreases |s| - from
  {
    match UriAt(s, from)
    case Some(e) => Some((from, e))
    case None => if from == |s| then None else FindUriFrom(s, from + 1)
  }

  /** The URI `re.search` extracts from a text, if any. */
  function FindUri(s: string): (r: Option<string>)
    ensures r.Some? ==> Contains(s, r.value) && Contains(r.value, "://")
  {
    match FindUriFrom(s, 0)
    case None => None
    case Some((p, e)) =>
      UriAtSound(s, p);
      var k := RunEnd(s, p, WordClass);
      assert UriAt(s, p) == Some(e);
      assert UriShaped(s, p, k, e);
      SliceOfSlice(s, p, e, k - p, k - p + 3);
      ContainsAt(s[p..e], "://", k - p);
      ContainsAt(s, s[p..e], p);
      Some(s[p..e])
  }

  /** Leftmost-match semantics for URIs: the result is a match of the pattern,
      taken whole, and none starts earlier; with no result the pattern matches
      nowhere. The text is not lowercased, so case is preserved. */
  lemma FindUriMeaning(s: string)
    ensures FindUri(s).Some? ==> exists p: nat, k: nat, e: nat ::
      && UriShaped(s, p, k, e) && FindUri(s).value == s[p..e]
      && (e == |s| || !InClass(s[e], PathClass))
      && forall q: nat, k': nat, e': nat :: q < p ==> !UriShaped(s, q, k', e')
    ensures FindUri(s).None? ==> forall q: nat, k: nat, e: nat :: q <= |s| ==> !UriShaped(s, q, k, e)
  {
    match FindUriFrom(s, 0)
    case None =>
      forall q: nat, k: nat, e: nat | q <= |s| ensures !UriShaped(s, q, k, e) {
        if UriShaped(s, q, k, e) { UriAtComplete(s, q, k, e); }
      }
    case Some((p, e)) =>
      UriAtSound(s, p);
      forall q: nat, k': nat, e': nat | q < p ensures !UriShaped(s, q, k', e') {
        if UriShaped(s, q, k', e') { UriAtComplete(s, q, k', e'); }
      }
      var k := RunEnd(s, p, WordClass);
      assert UriShaped(s, p, k, e) && FindUri(s).value == s[p..e];
  }

  // ---------------------------------------------------------------------------
  // Letter case

  /** Letters of either case are in the same classes; lowering changes no
      other character. */
  lemma InClassIgnoresCase(c: char, d: char, cls: CharClass)
    requires LowerChar(c) == LowerChar(d)
    ensures InClass(c, cls) == InClass(d, cls)
  {
  }

  /** The two texts differ at most in the case of letters. */
  predicate SameUpToCase(a: string, b: string) {
    |a| == |b| && forall i :: 0 <= i < |a| ==> LowerChar(a[i]) == LowerChar(b[i])
  }

  lemma {:induction false} RunEndIgnoresCase(a: string, b: string, i: nat, cls: CharClass)
    requires SameUpToCase(a, b) && i <= |a|
    ensures RunEnd(a, i, cls) == RunEnd(b, i, cls)
    decreases |a| - i
  {
    if i < |a| {
      InClassIgnoresCase(a[i], b[i], cls);
      if InClass(a[i], cls) {
        RunEndIgnoresCase(a, b, i + 1, cls);
      }
    }
  }

  lemma SchemeMarkIgnoresCase(a: string, b: string, k: nat)
    requires SameUpToCase(a, b) && k + 3 <= |a|
    ensures OccursAt(a, "://", k) == OccursAt(b, "://", k)
  {
    assert LowerChar(a[k]) == LowerChar(b[k]);
    assert LowerChar(a[k + 1]) == LowerChar(b[k + 1]);
    assert LowerChar(a[k + 2]) == LowerChar(b[k + 2]);
    assert a[k..k + 3] == [a[k], a[k + 1], a[k + 2]];
    assert b[k..k + 3] == [b[k], b[k + 1], b[k + 2]];
  }

  lemma UriAtIgnoresCase(a: string, b: string, p: nat)
    requires SameUpToCase(a, b) && p <= |a|
    ensures UriAt(a, p) == UriAt(b, p)
  {
    RunEndIgnoresCase(a, b, p, WordClass);
    var k := RunEnd(a, p, WordClass);
    if k + 3 < |a| {
      SchemeMarkIgnoresCase(a, b, k);
      InClassIgnoresCase(a[k + 3], b[k + 3], PathClass);
      RunEndIgnoresCase(a, b, k + 3, PathClass);
    }
  }

  /** The leftmost match in `a` is also the leftmost match in `b`: it is a
      match there, and a match in `b` further left would be one in `a`. */
  lemma FoundUriIgnoresCase(a: string, b: string)
    requires SameUpToCase(a, b) && FindUriFrom(a, 0).Some?
    ensures FindUriFrom(b, 0) == FindUriFrom(a, 0)
  {
    var (p, e) := FindUriFrom(a, 0).value;
    UriAtIgnoresCase(a, b, p);
    assert UriAt(b, p).Some?;
    var (q, f) := FindUriFrom(b, 0).value;
    UriAtIgnoresCase(a, b, q);
    assert UriAt(a, q).Some?;
    assert q == p;
  }

  /** Letter case decides nothing about finding a URI: in two texts that
      differ only in case, the URIs are found at the same place and differ
      only in case. */
  lemma FindUriIgnoresCase(a: string, b: string)
    requires Lower(a) == Lower(b)
    ensures FindUri(a).Some? <==> FindUri(b).Some?
    ensures FindUri(a).Some? ==> Lower(FindUri(a).value) == Lower(FindUri(b).value)
  {
    assert SameUpToCase(a, b) by {
      assert |a| == |Lower(a)| == |b|;
      forall i | 0 <= i < |a|
        ensures LowerChar(a[i]) == LowerChar(b[i])
      {
        assert Lower(a)[i] == Lower(b)[i];
      }
    }
    if FindUriFrom(a, 0).Some? {
      FoundUriIgnoresCase(a, b);
    } else if FindUriFrom(b, 0).Some? {
      FoundUriIgnoresCase(b, a);
    }
    if FindUriFrom(a, 0).Some? {
      var (p, e) := FindUriFrom(a, 0).value;
      LowerSlice(a, p, e);
      LowerSlice(b, p, e);
    }
  }
}
