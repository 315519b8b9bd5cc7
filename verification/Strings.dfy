/** String helpers with the meaning Go gives them: `strings.Index`, `strings.TrimSpace` and
    friends. A `char` stands for one byte of a stream or one rune of a bounded text. */
module Strings {

  // Go's unicode.IsSpace.
  predicate IsSpace(c: char) {
    || c in {'\t', '\n', '\U{000B}', '\U{000C}', '\r', ' ', '\U{0085}', '\U{00A0}', '\U{1680}'}
    || '\U{2000}' <= c <= '\U{200A}'
    || c in {'\U{2028}', '\U{2029}', '\U{202F}', '\U{205F}', '\U{3000}'}
  }

  predicate IsLineBreak(c: char) {
    c == '\r' || c == '\n'
  }

  predicate OccursAt(s: string, pat: string, i: int) {
    0 <= i && i + |pat| <= |s| && s[i..i + |pat|] == pat
  }

  ghost predicate Occurs(s: string, pat: string) {
    exists i :: OccursAt(s, pat, i)
  }

  predicate HasPrefix(s: string, pat: string) {
    OccursAt(s, pat, 0)
  }

  predicate HasSuffix(s: string, pat: string) {
    OccursAt(s, pat, |s| - |pat|)
  }

  lemma LeastOccurrence(s: string, pat: string, i: nat) returns (least: nat)
    requires OccursAt(s, pat, i)
    ensures OccursAt(s, pat, least) && forall j :: 0 <= j < least ==> !OccursAt(s, pat, j)
  {
    if j: nat :| j < i && OccursAt(s, pat, j) {
      least := LeastOccurrence(s, pat, j);
    } else {
      least := i;
    }
  }

  /** strings.Index: the leftmost occurrence, or -1 when there is none. */
  function Index(s: string, pat: string): (r: int)
    ensures r == -1 || OccursAt(s, pat, r)
    ensures forall i :: OccursAt(s, pat, i) ==> 0 <= r <= i
  {
    if i: nat :| i <= |s| && OccursAt(s, pat, i) && forall j :: 0 <= j < i ==> !OccursAt(s, pat, j) then i
    else
      assert forall i :: !OccursAt(s, pat, i) by {
        if i :| OccursAt(s, pat, i) {
          var least := LeastOccurrence(s, pat, i);
        }
      }
      -1
  }

  // Where the pattern is found in a buffered part of `before + pat + tail`.
  lemma IndexInBuffer(buf: string, ahead: string, before: string, pat: string, tail: string)
    requires buf + ahead == before + (pat + tail)
    requires forall i: nat | i < |before| :: !OccursAt(buf + ahead, pat, i)
    ensures var n, r := |before|, Index(buf, pat);
      if r < 0 then |buf| < n + |pat|
      else r == n && buf[..n] == before && n + |pat| <= |buf| && buf[n + |pat|..] + ahead == tail
  {
    var n, r, whole := |before|, Index(buf, pat), buf + ahead;
    if r >= 0 {
      OccursInPrefix(buf, ahead, pat, r);
    }
    if n + |pat| <= |buf| {
      assert whole[n..n + |pat|] == pat;
      OccursInPrefix(buf, ahead, pat, n);
      assert buf[..n] == whole[..n] == before;
      assert buf[n + |pat|..] + ahead == whole[n + |pat|..] == tail;
    }
  }

  lemma OccursChar(s: string, pat: string, i: nat, k: nat)
    requires OccursAt(s, pat, i) && k < |pat|
    ensures i + k < |s| && s[i + k] == pat[k]
  {
    assert s[i..i + |pat|][k] == s[i + k];
  }

  // One differing character rules an occurrence out, and there is one where there is no occurrence.
  lemma Mismatch(s: string, pat: string, i: nat, k: nat)
    requires k < |pat| && i + k < |s| && s[i + k] != pat[k]
    ensures !OccursAt(s, pat, i)
  {
    if i + |pat| <= |s| {
      assert s[i..i + |pat|][k] == s[i + k];
    }
  }

  lemma MismatchOf(s: string, pat: string, i: nat) returns (k: nat)
    requires i + |pat| <= |s| && !OccursAt(s, pat, i)
    ensures k < |pat| && s[i + k] != pat[k]
  {
    var part := s[i..i + |pat|];
    k :| 0 <= k < |pat| && part[k] != pat[k];
  }

  /** strings.TrimLeft(s, "\r\n"). */
  function TrimLineBreaks(s: string): (r: string)
    ensures |r| <= |s|
  {
    if s != "" && IsLineBreak(s[0]) then TrimLineBreaks(s[1..]) else s
  }

  /** TrimLeft drops the longest run of line breaks at the start, of length `k`. */
  lemma TrimLineBreaksDrops(s: string) returns (k: nat)
    ensures k <= |s| && TrimLineBreaks(s) == s[k..]
    ensures forall i :: 0 <= i < k ==> IsLineBreak(s[i])
    ensures k < |s| ==> !IsLineBreak(s[k])
  {
    if s != "" && IsLineBreak(s[0]) {
      var rest := TrimLineBreaksDrops(s[1..]);
      k := rest + 1;
    } else {
      k := 0;
    }
  }

  function TrimSpaceLeft(s: string): string {
    if s != "" && IsSpace(s[0]) then TrimSpaceLeft(s[1..]) else s
  }

  function TrimSpaceRight(s: string): string {
    if s != "" && IsSpace(s[|s| - 1]) then TrimSpaceRight(s[..|s| - 1]) else s
  }

  /** strings.TrimSpace. */
  function TrimSpace(s: string): string {
    TrimSpaceRight(TrimSpaceLeft(s))
  }

  lemma TrimSpaceLeftEnds(s: string)
    ensures var r := TrimSpaceLeft(s); r == "" || !IsSpace(r[0])
  {
  }

  lemma TrimSpaceRightEnds(s: string)
    ensures var r := TrimSpaceRight(s); r == "" || (!IsSpace(r[|r| - 1]) && r[0] == s[0])
  {
  }

  /** Trimmed text neither starts nor ends with white space, and trimming it changes nothing. */
  lemma TrimSpaceIdempotent(s: string)
    ensures var r := TrimSpace(s);
      (r == "" || (!IsSpace(r[0]) && !IsSpace(r[|r| - 1]))) && TrimSpace(r) == r
  {
    TrimSpaceLeftEnds(s);
    TrimSpaceRightEnds(TrimSpaceLeft(s));
  }

  lemma TrimSpaceDropsFirst(c: char, s: string)
    requires IsSpace(c)
    ensures TrimSpace([c] + s) == TrimSpace(s)
  {
    var t := [c] + s;
    assert t[1..] == s && t[0] == c;
    assert TrimSpaceLeft(t) == TrimSpaceLeft(t[1..]);
  }

  // An occurrence inside a prefix of `s` is the same occurrence in `s`, and the other way round.
  lemma OccursInPrefix(a: string, b: string, pat: string, i: int)
    requires 0 <= i && i + |pat| <= |a|
    ensures OccursAt(a, pat, i) == OccursAt(a + b, pat, i)
  {
    assert (a + b)[i..i + |pat|] == a[i..i + |pat|];
  }

  lemma OccursInSuffix(a: string, b: string, pat: string, i: int)
    requires 0 <= i
    ensures OccursAt(b, pat, i) == OccursAt(a + b, pat, |a| + i)
  {
    if i + |pat| <= |b| {
      assert (a + b)[|a| + i..|a| + i + |pat|] == b[i..i + |pat|];
    }
  }
}
