/**
 * The string scanning that LiveChat.start performs on fetched pages with
 * JavaScript's `String.prototype.match`: a bare marker test
 * (`/LIVE_STREAM_OFFLINE/`) and the capture pattern `/<prefix>(\S*?)<term>/`.
 *
 * A capture pattern matches at the LEFTMOST start position where the literal
 * prefix occurs and the lazy group `\S*?` can be followed by the literal
 * terminator; among the captures at that start it takes the SHORTEST one.
 * A start position whose capture would have to cross a white-space character
 * (or the end of the text) is skipped, and the next occurrence of the prefix
 * is tried.
 */
module TextScan {
  import opened Outcomes

  /** JavaScript's `\s`: the ECMAScript WhiteSpace and LineTerminator code points. */
  predicate IsSpace(c: char) {
    c == '\t' || c == '\n' || c == '\U{0B}' || c == '\U{0C}' || c == '\r' || c == ' '
    || c == '\U{A0}' || c == '\U{1680}' || ('\U{2000}' <= c <= '\U{200A}')
    || c == '\U{2028}' || c == '\U{2029}' || c == '\U{202F}' || c == '\U{205F}'
    || c == '\U{3000}' || c == '\U{FEFF}'
  }

  /** `pat` occurs in `s` starting at position `i`. */
  predicate OccursAt(s: string, pat: string, i: int) {
    0 <= i && i + |pat| <= |s| && s[i..i + |pat|] == pat
  }

  /** No white space in `s[p..e]`: the text `\S*` can consume. */
  predicate NoSpaceIn(s: string, p: int, e: int) {
    0 <= p <= e <= |s| && forall k :: p <= k < e ==> !IsSpace(s[k])
  }

  /** `\S*?` starting at `p` can stop at `e`, where `term` follows. */
  predicate Capture(s: string, p: int, e: int, term: string) {
    NoSpaceIn(s, p, e) && OccursAt(s, term, e)
  }

  /** The whole pattern `<prefix>(\S*?)<term>` matches starting at `i` with the group ending at `e`. */
  predicate MatchSpan(s: string, prefix: string, term: string, i: int, e: int) {
    OccursAt(s, prefix, i) && Capture(s, i + |prefix|, e, term)
  }

  /** The match a JavaScript regular expression reports: leftmost start, then shortest lazy group. */
  ghost predicate IsFirstMatch(s: string, prefix: string, term: string, i: int, e: int) {
    && MatchSpan(s, prefix, term, i, e)
    && (forall j, f :: 0 <= j < i ==> !MatchSpan(s, prefix, term, j, f))
    && (forall f :: f < e ==> !MatchSpan(s, prefix, term, i, f))
  }

  /** Scans for `pat` from position `i` on. */
  function ContainsFrom(s: string, pat: string, i: nat): bool
    requires i <= |s|
    decreases |s| - i
  {
    if OccursAt(s, pat, i) then true
    else if i == |s| then false
    else ContainsFrom(s, pat, i + 1)
  }

  /** `s.match(/pat/)` is non-null. */
  function Contains(s: string, pat: string): bool {
    ContainsFrom(s, pat, 0)
  }

  /** Runs the lazy group `\S*?` from `p`: the first position where `term` follows, unless white space comes first. */
  function CaptureEnd(s: string, p: int, term: string): Option<int>
    requires 0 <= p <= |s|
    decreases |s| - p
  {
    if OccursAt(s, term, p) then Some(p)
    else if p < |s| && !IsSpace(s[p]) then CaptureEnd(s, p + 1, term)
    else None
  }

  /** Tries the start positions `i`, `i+1`, ... in turn; yields the start of the match and the end of the group. */
  function FirstMatchFrom(s: string, prefix: string, term: string, i: int): Option<(int, int)>
    requires 0 <= i <= |s|
    decreases |s| - i
  {
    var c := if OccursAt(s, prefix, i) then CaptureEnd(s, i + |prefix|, term) else None;
    if c.Some? then Some((i, c.value))
    else if i == |s| then None
    else FirstMatchFrom(s, prefix, term, i + 1)
  }

  /** `s.match(/<prefix>(\S*?)<term>/)?.[1]`: the captured group of the first match. */
  function Match(s: string, prefix: string, term: string): Option<string> {
    match FirstMatchFrom(s, prefix, term, 0)
    case None => None
    case Some((i, e)) =>
      FirstMatchFromSpec(s, prefix, term, 0);
      Some(s[i + |prefix|..e])
  }

  /** The scan for a bare marker finds it exactly when it occurs at or after `i`. */
  lemma {:induction false} ContainsFromSpec(s: string, pat: string, i: nat)
    requires i <= |s|
    ensures ContainsFrom(s, pat, i) <==> exists j :: i <= j && OccursAt(s, pat, j)
    decreases |s| - i
  {
    if !OccursAt(s, pat, i) && i < |s| {
      ContainsFromSpec(s, pat, i + 1);
    }
  }

  /** `Contains` is substring search. */
  lemma ContainsSpec(s: string, pat: string)
    ensures Contains(s, pat) <==> exists j :: OccursAt(s, pat, j)
  {
    ContainsFromSpec(s, pat, 0);
  }

  /** The lazy group stops at the first position where the terminator can follow, and nowhere if none can. */
  lemma {:induction false} CaptureEndSpec(s: string, p: int, term: string)
    requires 0 <= p <= |s|
    ensures var r := CaptureEnd(s, p, term);
      && (r.Some? ==> Capture(s, p, r.value, term) && forall f :: f < r.value ==> !Capture(s, p, f, term))
      && (r.None? ==> forall f :: !Capture(s, p, f, term))
    decreases |s| - p
  {
    if OccursAt(s, term, p) {
    } else if p < |s| && !IsSpace(s[p]) {
      CaptureEndSpec(s, p + 1, term);
      assert forall f :: Capture(s, p, f, term) ==> Capture(s, p + 1, f, term);
      assert forall f :: Capture(s, p + 1, f, term) ==> Capture(s, p, f, term);
    } else {
      assert forall f :: Capture(s, p, f, term) ==> f == p;
    }
  }

  /** The scan from `i` finds the leftmost start at or after `i`, with its shortest group. */
  lemma {:induction false} FirstMatchFromSpec(s: string, prefix: string, term: string, i: int)
    requires 0 <= i <= |s|
    ensures var r := FirstMatchFrom(s, prefix, term, i);
      && (r.Some? ==> i <= r.value.0 && MatchSpan(s, prefix, term, r.value.0, r.value.1))
      && (r.Some? ==> forall j, f :: i <= j < r.value.0 ==> !MatchSpan(s, prefix, term, j, f))
      && (r.Some? ==> forall f :: f < r.value.1 ==> !MatchSpan(s, prefix, term, r.value.0, f))
      && (r.None? ==> forall j, f :: i <= j ==> !MatchSpan(s, prefix, term, j, f))
    decreases |s| - i
  {
    var c := if OccursAt(s, prefix, i) then CaptureEnd(s, i + |prefix|, term) else None;
    if OccursAt(s, prefix, i) {
      CaptureEndSpec(s, i + |prefix|, term);
    }
    // no match starts at i unless the capture succeeds there
    assert c.None? ==> forall f :: !MatchSpan(s, prefix, term, i, f);
    if c.None? && i < |s| {
      FirstMatchFromSpec(s, prefix, term, i + 1);
    }
  }

  /**
   * `Match` is the regular-expression match: it fails exactly when no start
   * position matches, and otherwise yields the group of the leftmost match
   * with the shortest group.
   */
  lemma MatchSpec(s: string, prefix: string, term: string)
    ensures Match(s, prefix, term).None? <==> forall j, f :: !MatchSpan(s, prefix, term, j, f)
    ensures Match(s, prefix, term).Some? ==>
      exists i, e :: IsFirstMatch(s, prefix, term, i, e) && Match(s, prefix, term).value == s[i + |prefix|..e]
  {
    FirstMatchFromSpec(s, prefix, term, 0);
    var r := FirstMatchFrom(s, prefix, term, 0);
    if r.Some? {
      assert IsFirstMatch(s, prefix, term, r.value.0, r.value.1);
    }
  }

  /** A text has at most one first match. */
  lemma FirstMatchUnique(s: string, prefix: string, term: string, i: int, e: int, i': int, e': int)
    requires IsFirstMatch(s, prefix, term, i, e) && IsFirstMatch(s, prefix, term, i', e')
    ensures i == i' && e == e'
  {
  }

  /**
   * A page that carries `<prefix>v<term>`, with the prefix nowhere earlier and
   * `v` free of white space and of the terminator's first character, yields
   * exactly `v`.
   */
  lemma {:induction false} MatchFindsMarkedValue(a: string, prefix: string, v: string, term: string, b: string)
    requires |term| > 0
    requires forall k :: 0 <= k < |v| ==> !IsSpace(v[k]) && v[k] != term[0]
    requires forall j :: 0 <= j < |a| ==> !OccursAt(a + prefix + v + term + b, prefix, j)
    ensures Match(a + prefix + v + term + b, prefix, term) == Some(v)
  {
    var s := a + prefix + v + term + b;
    var i, p := |a|, |a| + |prefix|;
    var e := p + |v|;
    assert s[i..p] == prefix;
    assert s[p..e] == v;
    assert s[e..e + |term|] == term;
    assert forall k :: p <= k < e ==> s[k] == v[k - p];
    assert MatchSpan(s, prefix, term, i, e);
    forall f | f < e
      ensures !MatchSpan(s, prefix, term, i, f)
    {
      if p <= f && f + |term| <= |s| {
        assert s[f] != term[0];
        assert s[f..f + |term|][0] != term[0];
      }
    }
    assert IsFirstMatch(s, prefix, term, i, e);
    MatchSpec(s, prefix, term);
    var r := Match(s, prefix, term);
    var i', e' :| IsFirstMatch(s, prefix, term, i', e') && r.value == s[i' + |prefix|..e'];
    FirstMatchUnique(s, prefix, term, i, e, i', e');
  }
}
