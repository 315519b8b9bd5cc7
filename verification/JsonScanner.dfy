/** packages/chat-component/src/inlineChartDetector.ts, lines 38-146: the scanner that cuts a balanced
    JSON object out of text, and the one that also removes code fences from inside it. */
module JsonScanner {
  import opened JsonTree

  // What the scanners track between characters.
  datatype Mode = Mode(depth: int, inString: bool, escaped: bool)

  const START := Mode(0, false, false)

  function Advance(m: Mode, ch: char): Mode {
    if m.escaped then m.(escaped := false)
    else if ch == '\\' && m.inString then m.(escaped := true)
    else if ch == '"' then m.(inString := !m.inString)
    else if m.inString then m
    else if ch == '{' then m.(depth := m.depth + 1)
    else if ch == '}' then m.(depth := m.depth - 1)
    else m
  }

  predicate Outside(m: Mode) {
    !m.escaped && !m.inString
  }

  predicate Closes(m: Mode, ch: char) {
    Outside(m) && ch == '}' && m.depth == 1
  }

  /** Where the balanced object that goes on at `i` ends. */
  function Balanced(text: string, i: nat, m: Mode): (end: Option<nat>)
    requires i <= |text|
    ensures end.Some? ==> i < end.value <= |text|
    decreases |text| - i
  {
    if i == |text| then None
    else if Closes(m, text[i]) then Some(i + 1)
    else Balanced(text, i + 1, Advance(m, text[i]))
  }

  // The bookkeeping for one character.
  method Track(depth: int, inString: bool, escaped: bool, ch: char) returns (d: int, s: bool, e: bool)
    ensures Mode(d, s, e) == Advance(Mode(depth, inString, escaped), ch)
  {
    d, s, e := depth, inString, escaped;
    if escaped {
      e := false;
    } else if ch == '\\' && inString {
      e := true;
    } else if ch == '"' {
      s := !inString;
    } else if inString {
    } else if ch == '{' {
      d := depth + 1;
    } else if ch == '}' {
      d := depth - 1;
    }
  }

  /** extractJsonObject. */
  method ExtractJsonObject(text: string, start: nat) returns (json: Option<string>)
    requires start <= |text|
    ensures json == match Balanced(text, start, START)
                    case Some(end) => Some(text[start..end])
                    case None => None
  {
    var depth, inString, escaped := 0, false, false;
    for i := start to |text|
      invariant Balanced(text, start, START) == Balanced(text, i, Mode(depth, inString, escaped))
    {
      if !escaped && !inString && text[i] == '}' && depth == 1 {
        return Some(text[start..i + 1]);
      }
      depth, inString, escaped := Track(depth, inString, escaped, text[i]);
    }
    return None;
  }

  // ----- across fences -----

  predicate WordChar(c: char) {
    'a' <= c <= 'z' || 'A' <= c <= 'Z' || '0' <= c <= '9' || c == '_' || c == '-'
  }

  predicate FenceAt(text: string, i: nat, m: Mode) {
    Outside(m) && m.depth > 0 && i + 3 <= |text| && text[i] == text[i + 1] == text[i + 2] == '`'
  }

  function WordEnd(text: string, i: nat): (end: nat)
    requires i <= |text|
    ensures i <= end <= |text|
    decreases |text| - i
  {
    if i < |text| && WordChar(text[i]) then WordEnd(text, i + 1) else i
  }

  // Past the ticks, a tag, and one line break.
  function FenceEnd(text: string, i: nat): (end: nat)
    requires i + 3 <= |text|
    ensures i + 3 <= end <= |text|
  {
    var end := WordEnd(text, i + 3);
    if end < |text| && text[end] == '\n' then end + 1 else end
  }

  datatype Across = Across(json: string, end: nat, strippedFence: bool)

  // The scan has produced `out`; `later` is what it makes of the rest.
  function Joined(out: string, stripped: bool, later: Option<Across>): Option<Across> {
    match later
    case Some(a) => Some(Across(out + a.json, a.end, stripped || a.strippedFence))
    case None => None
  }

  /** The object that goes on at `i` without the fences inside it, and where it ends. */
  function Unfenced(text: string, i: nat, m: Mode): (r: Option<Across>)
    requires i <= |text|
    decreases |text| - i
  {
    if i == |text| then None
    else if FenceAt(text, i, m) then Joined("", true, Unfenced(text, FenceEnd(text, i), m))
    else if Closes(m, text[i]) then Some(Across([text[i]], i + 1, false))
    else Joined([text[i]], false, Unfenced(text, i + 1, Advance(m, text[i])))
  }

  method SkipFence(text: string, i: nat) returns (j: nat)
    requires i + 3 <= |text|
    ensures j == FenceEnd(text, i)
  {
    j := i + 3;
    while j < |text| && WordChar(text[j])
      invariant i + 3 <= j <= |text|
      invariant WordEnd(text, i + 3) == WordEnd(text, j)
    {
      j := j + 1;
    }
    if j < |text| && text[j] == '\n' {
      j := j + 1;
    }
  }

  lemma JoinedTwice(out: string, stripped: bool, more: string, again: bool, later: Option<Across>)
    ensures Joined(out, stripped, Joined(more, again, later)) == Joined(out + more, stripped || again, later)
  {
    assert later.Some? ==> out + (more + later.value.json) == out + more + later.value.json;
  }

  lemma JoinedNothing(out: string, later: Option<Across>)
    ensures Joined("", false, later) == later
    ensures out + "" == out
  {
    assert later.Some? ==> "" + later.value.json == later.value.json;
  }

  /** extractJsonObjectAcrossFences. */
  method ExtractAcrossFences(text: string, start: nat) returns (r: Option<Across>)
    requires start <= |text|
    ensures r == Unfenced(text, start, START)
  {
    var depth, inString, escaped, strippedFence := 0, false, false, false;
    var out := "";
    var i := start;
    JoinedNothing(out, Unfenced(text, start, START));
    while i < |text|
      invariant start <= i <= |text|
      invariant Unfenced(text, start, START)
        == Joined(out, strippedFence, Unfenced(text, i, Mode(depth, inString, escaped)))
    {
      var ch := text[i];
      ghost var m := Mode(depth, inString, escaped);
      if !escaped && !inString && depth > 0 && |text| - i >= 3 && ch == text[i + 1] == text[i + 2] == '`' {
        var j := SkipFence(text, i);
        JoinedTwice(out, strippedFence, "", true, Unfenced(text, j, m));
        JoinedNothing(out, None);
        i := j;
        strippedFence := true;
        continue;
      }
      if !escaped && !inString && ch == '}' && depth == 1 {
        return Some(Across(out + [ch], i + 1, strippedFence));
      }
      JoinedTwice(out, strippedFence, [ch], false, Unfenced(text, i + 1, Advance(m, ch)));
      out := out + [ch];
      i := i + 1;
      depth, inString, escaped := Track(depth, inString, escaped, ch);
    }
    return None;
  }

  // ----- what the fence-aware scanner is for -----

  /** Where no fence is stripped, both scanners agree on the text and on where it ends. */
  lemma {:induction false} AgreesWithoutFences(text: string, i: nat, m: Mode)
    requires i <= |text|
    ensures var a := Unfenced(text, i, m);
      a.Some? && !a.value.strippedFence ==>
        Balanced(text, i, m) == Some(a.value.end) && a.value.json == text[i..a.value.end]
    decreases |text| - i
  {
    if i < |text| && !FenceAt(text, i, m) && !Closes(m, text[i]) {
      AgreesWithoutFences(text, i + 1, Advance(m, text[i]));
      var a := Unfenced(text, i + 1, Advance(m, text[i]));
      if a.Some? && !a.value.strippedFence {
        assert text[i..a.value.end] == [text[i]] + text[i + 1..a.value.end];
      }
    }
  }

  function Fence(tag: string): string {
    "```" + tag + "\n"
  }

  function Fences(tags: seq<string>, k: nat): string
    requires k <= |tags|
    decreases |tags| - k
  {
    if k == |tags| then "" else Fence(tags[k]) + Fences(tags, k + 1)
  }

  // The object `o` from `j` on, with the fences of `tags[k]` written before its character at `k`.
  function Woven(o: string, tags: seq<seq<string>>, j: nat): string
    requires j <= |o| == |tags|
    decreases |o| - j
  {
    if j == |o| then "" else Fences(tags[j], 0) + [o[j]] + Woven(o, tags, j + 1)
  }

  predicate TagOk(tag: string) {
    forall i :: 0 <= i < |tag| ==> WordChar(tag[i])
  }

  predicate TagsOk(tags: seq<string>) {
    forall k :: 0 <= k < |tags| ==> TagOk(tags[k])
  }

  // Fences stand inside the object and outside strings, and the object has no backtick outside strings.
  predicate Insertable(o: string, tags: seq<seq<string>>, j: nat, m: Mode)
    requires j <= |o| == |tags|
    decreases |o| - j
  {
    j == |o| ||
    (&& (|tags[j]| > 0 ==> Outside(m) && m.depth > 0 && TagsOk(tags[j]))
     && (Outside(m) ==> o[j] != '`')
     && Insertable(o, tags, j + 1, Advance(m, o[j])))
  }

  predicate AnyFence(tags: seq<seq<string>>, j: nat) {
    exists k :: j <= k < |tags| && |tags[k]| > 0
  }

  // `text` reads `s` at `i`.
  ghost predicate ReadsAt(text: string, i: nat, s: string) {
    i + |s| <= |text| && forall k :: 0 <= k < |s| ==> text[i + k] == s[k]
  }

  lemma ReadsParts(text: string, i: nat, a: string, b: string)
    requires ReadsAt(text, i, a + b)
    ensures ReadsAt(text, i, a) && ReadsAt(text, i + |a|, b)
  {
    assert forall k :: 0 <= k < |a| ==> (a + b)[k] == a[k];
    forall k | 0 <= k < |b| ensures text[i + |a| + k] == b[k] {
      assert (a + b)[|a| + k] == b[k];
    }
  }

  lemma {:induction false} WordRead(text: string, i: nat, tag: string, k: nat)
    requires k <= |tag| && i + |tag| < |text| && TagOk(tag) && !WordChar(text[i + |tag|])
    requires forall x :: 0 <= x < |tag| ==> text[i + x] == tag[x]
    ensures WordEnd(text, i + k) == i + |tag|
    decreases |tag| - k
  {
    if k < |tag| {
      assert text[i + k] == tag[k];
      WordRead(text, i, tag, k + 1);
    }
  }

  lemma FenceRead(text: string, i: nat, tag: string, m: Mode)
    requires Outside(m) && m.depth > 0 && TagOk(tag) && ReadsAt(text, i, Fence(tag))
    ensures FenceAt(text, i, m) && FenceEnd(text, i) == i + |Fence(tag)|
  {
    var f := Fence(tag);
    assert f[0] == f[1] == f[2] == '`' && f[3 + |tag|] == '\n';
    assert text[i + 0] == f[0] && text[i + 1] == f[1] && text[i + 2] == f[2];
    assert text[i + (3 + |tag|)] == '\n';
    forall x | 0 <= x < |tag| ensures text[i + 3 + x] == tag[x] {
      assert f[3 + x] == tag[x] && text[i + (3 + x)] == f[3 + x];
    }
    WordRead(text, i + 3, tag, 0);
  }

  lemma {:induction false} FencesRead(text: string, i: nat, tags: seq<string>, k: nat, m: Mode)
    requires k <= |tags| && ReadsAt(text, i, Fences(tags, k))
    requires k < |tags| ==> Outside(m) && m.depth > 0 && TagsOk(tags)
    ensures Unfenced(text, i, m) == Joined("", k < |tags|, Unfenced(text, i + |Fences(tags, k)|, m))
    decreases |tags| - k
  {
    if k == |tags| {
      JoinedNothing("", Unfenced(text, i, m));
    } else {
      ReadsParts(text, i, Fence(tags[k]), Fences(tags, k + 1));
      FenceRead(text, i, tags[k], m);
      FencesRead(text, i + |Fence(tags[k])|, tags, k + 1, m);
      JoinedTwice("", true, "", k + 1 < |tags|, Unfenced(text, i + |Fences(tags, k)|, m));
      assert "" + "" == "";
    }
  }

  lemma WovenRead(text: string, i: nat, o: string, tags: seq<seq<string>>, j: nat)
    requires j < |o| == |tags| && ReadsAt(text, i, Woven(o, tags, j))
    ensures var at := i + |Fences(tags[j], 0)|;
      && ReadsAt(text, i, Fences(tags[j], 0))
      && at < |text| && text[at] == o[j]
      && ReadsAt(text, at + 1, Woven(o, tags, j + 1))
      && i + |Woven(o, tags, j)| == at + 1 + |Woven(o, tags, j + 1)|
  {
    var fences, rest := Fences(tags[j], 0), Woven(o, tags, j + 1);
    ReadsParts(text, i, fences + [o[j]], rest);
    ReadsParts(text, i, fences, [o[j]]);
    assert text[i + |fences| + 0] == [o[j]][0];
  }

  lemma KeptChar(text: string, at: nat, m: Mode, any: bool, a: Across)
    requires at < |text| && !FenceAt(text, at, m)
    requires !Closes(m, text[at]) ==> Unfenced(text, at + 1, Advance(m, text[at])) == Some(a)
    ensures Joined("", any, Unfenced(text, at, m)) ==
      if Closes(m, text[at]) then Some(Across([text[at]], at + 1, any))
      else Some(Across([text[at]] + a.json, a.end, any || a.strippedFence))
  {
    assert "" + [text[at]] == [text[at]] && "" + ([text[at]] + a.json) == [text[at]] + a.json;
  }

  /** Stripping undoes inserting: whatever fences are written inside a balanced object, outside its
      strings, the scanner returns the object, ends where the woven text ends, and reports whether there
      were any. */
  lemma {:induction false} StrippingUndoesInserting(
      text: string, i: nat, o: string, tags: seq<seq<string>>, j: nat, m: Mode)
    requires j <= |o| == |tags| && ReadsAt(text, i, Woven(o, tags, j))
    requires Balanced(o, j, m) == Some(|o|) && Insertable(o, tags, j, m)
    ensures Unfenced(text, i, m) == Some(Across(o[j..], i + |Woven(o, tags, j)|, AnyFence(tags, j)))
    decreases |o| - j
  {
    var at := i + |Fences(tags[j], 0)|;
    WovenRead(text, i, o, tags, j);
    AnyFenceCons(tags, j);
    SliceCons(o, j);
    if !Closes(m, o[j]) {
      StrippingUndoesInserting(text, at + 1, o, tags, j + 1, Advance(m, o[j]));
    }
    OneMore(text, i, at, tags[j], o[j], m, Across(o[j + 1..], i + |Woven(o, tags, j)|, AnyFence(tags, j + 1)));
  }

  lemma SliceCons(o: string, j: nat)
    requires j < |o|
    ensures o[j..] == [o[j]] + o[j + 1..]
    ensures j + 1 == |o| ==> o[j..] == [o[j]]
  {
  }

  // The fences before one character, that character, and what is known of the rest.
  lemma OneMore(text: string, i: nat, at: nat, tags: seq<string>, c: char, m: Mode, later: Across)
    requires ReadsAt(text, i, Fences(tags, 0)) && at == i + |Fences(tags, 0)| < |text| && text[at] == c
    requires |tags| > 0 ==> Outside(m) && m.depth > 0 && TagsOk(tags)
    requires Outside(m) ==> c != '`'
    requires !Closes(m, c) ==> Unfenced(text, at + 1, Advance(m, c)) == Some(later)
    ensures Unfenced(text, i, m) ==
      if Closes(m, c) then Some(Across([c], at + 1, |tags| > 0))
      else Some(Across([c] + later.json, later.end, |tags| > 0 || later.strippedFence))
  {
    FencesRead(text, i, tags, 0, m);
    KeptChar(text, at, m, |tags| > 0, later);
  }

  lemma AnyFenceCons(tags: seq<seq<string>>, j: nat)
    requires j < |tags|
    ensures AnyFence(tags, j) <==> |tags[j]| > 0 || AnyFence(tags, j + 1)
  {
    if AnyFence(tags, j) && |tags[j]| == 0 {
      var k :| j <= k < |tags| && |tags[k]| > 0;
      assert k != j;
    }
  }

  // ----- what the scanner reads -----

  // From `i` up to `j`: characters of a string, a backslash with the one it escapes.
  predicate StringBody(text: string, i: nat, j: nat)
    requires j <= |text|
    decreases if i <= j then j - i else 0
  {
    i == j ||
    (i < j && text[i] != '"' && text[i] != '\\' && StringBody(text, i + 1, j)) ||
    (i + 2 <= j && text[i] == '\\' && StringBody(text, i + 2, j))
  }

  lemma {:induction false} SkipsBody(text: string, i: nat, j: nat, depth: int)
    requires i <= j < |text| && StringBody(text, i, j) && text[j] == '"'
    ensures Balanced(text, i, Mode(depth, true, false)) == Balanced(text, j + 1, Mode(depth, false, false))
    decreases j - i
  {
    if i < j {
      if text[i] == '\\' {
        SkipsBody(text, i + 2, j, depth);
        assert Balanced(text, i, Mode(depth, true, false)) == Balanced(text, i + 1, Mode(depth, true, true));
      } else {
        SkipsBody(text, i + 1, j, depth);
      }
    }
  }

  /** Outside strings a brace opens or closes a level, and the one that closes the first level ends the object; a
      string is skipped as a whole, braces and escaped quotes included; anything else is passed over. */
  lemma ScannerMeaning(text: string, i: nat, j: nat, depth: int)
    requires i < |text|
    ensures var m := Mode(depth, false, false);
      && (text[i] == '{' ==> Balanced(text, i, m) == Balanced(text, i + 1, Mode(depth + 1, false, false)))
      && (text[i] == '}' ==>
        Balanced(text, i, m) ==
          if depth == 1 then Some(i + 1) else Balanced(text, i + 1, Mode(depth - 1, false, false)))
      && (text[i] == '"' && i < j < |text| && StringBody(text, i + 1, j) && text[j] == '"' ==>
        Balanced(text, i, m) == Balanced(text, j + 1, m))
      && (text[i] !in {'{', '}', '"'} ==> Balanced(text, i, m) == Balanced(text, i + 1, m))
      && Balanced(text, |text|, m) == None
  {
    if text[i] == '"' && i < j < |text| && StringBody(text, i + 1, j) && text[j] == '"' {
      SkipsBody(text, i + 1, j, depth);
    }
  }

  lemma {:induction false} WordEndAt(text: string, i: nat, end: nat)
    requires i <= end <= |text| && (forall x :: i <= x < end ==> WordChar(text[x]))
    requires end < |text| ==> !WordChar(text[end])
    ensures WordEnd(text, i) == end
    decreases end - i
  {
    if i < end {
      WordEndAt(text, i + 1, end);
    }
  }

  lemma JoinedFence(later: Option<Across>)
    ensures Joined("", true, later) == if later.None? then None else Some(later.value.(strippedFence := true))
  {
    assert later.Some? ==> "" + later.value.json == later.value.json;
  }

  // The characters from `i` up to `end` are all the letters, digits, underscores and hyphens there are.
  predicate TagBetween(text: string, i: nat, end: nat) {
    && i <= end <= |text|
    && (forall x :: i <= x < end ==> TagChar(text[x]))
    && (end < |text| ==> !TagChar(text[end]))
  }

  predicate TagChar(c: char) {
    c in {'_', '-'} || 'a' <= c <= 'z' || 'A' <= c <= 'Z' || '0' <= c <= '9'
  }

  /** Inside an object and outside strings three ticks are left out with the tag and the line break that follow;
      everything else is kept. */
  lemma StrippingMeaning(text: string, i: nat, end: nat, depth: int)
    requires i < |text|
    ensures var m, ticks := Mode(depth, false, false), i + 3 <= |text| && text[i..i + 3] == "```";
      && (ticks && depth > 0 && TagBetween(text, i + 3, end) ==>
        var rest := Unfenced(text, if end < |text| && text[end] == '\n' then end + 1 else end, m);
        Unfenced(text, i, m) == if rest.None? then None else Some(rest.value.(strippedFence := true)))
      && (!ticks || depth <= 0 ==>
        Unfenced(text, i, m) ==
          if text[i] == '}' && depth == 1 then Some(Across("}", i + 1, false))
          else
            var rest := Unfenced(text, i + 1, Advance(m, text[i]));
            if rest.None? then None else Some(rest.value.(json := [text[i]] + rest.value.json)))
  {
    var m := Mode(depth, false, false);
    if i + 3 <= |text| && text[i..i + 3] == "```" && depth > 0 && TagBetween(text, i + 3, end) {
      assert text[i..i + 3] == [text[i], text[i + 1], text[i + 2]];
      WordEndAt(text, i + 3, end);
      assert FenceAt(text, i, m);
      JoinedFence(Unfenced(text, FenceEnd(text, i), m));
    } else if i + 3 <= |text| {
      assert text[i..i + 3] == [text[i], text[i + 1], text[i + 2]];
    }
  }
}
