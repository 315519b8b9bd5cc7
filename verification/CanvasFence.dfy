/** agent/canvas.go, lines 9-198 and 492-536: the interceptor that cuts canvas fences out of a
    streamed answer, and the proof that it does not matter where the stream is cut. */
module CanvasFence {
  import Strings
  import opened JsonTree
  import opened AgentEvents
  import CanvasPanel
  import CanvasPayload

  datatype FenceKind = ObjectDetail | Dashboard

  const CLOSING := "\n```"

  function Opening(kind: FenceKind): string {
    match kind
    case ObjectDetail => "```canvas-object-detail"
    case Dashboard => "```canvas-dashboard"
  }

  function Other(kind: FenceKind): FenceKind {
    match kind
    case ObjectDetail => Dashboard
    case Dashboard => ObjectDetail
  }

  // canvasFencePrefixes, in the order in which they are tried.
  const KINDS := [ObjectDetail, Dashboard]

  // ----- partial openings -----

  function TrailingTicks(s: string): (n: nat)
    ensures n <= |s| && forall i :: |s| - n <= i < |s| ==> s[i] == '`'
    ensures n < |s| ==> s[|s| - n - 1] != '`'
  {
    if s != "" && s[|s| - 1] == '`' then 1 + TrailingTicks(s[..|s| - 1]) else 0
  }

  // The text ends in at least four characters of an opening, or in one to three backticks that
  // begin the text or a line.
  ghost predicate EndsInOpening(s: string, kind: FenceKind) {
    exists n | 4 <= n <= |Opening(kind)| :: Strings.HasSuffix(s, Opening(kind)[..n])
  }

  ghost predicate EndsInTicks(s: string) {
    var ticks := TrailingTicks(s);
    1 <= ticks <= 3 && (ticks == |s| || s[|s| - ticks - 1] == '\n')
  }

  ghost predicate PartialMatch(s: string) {
    EndsInOpening(s, ObjectDetail) || EndsInOpening(s, Dashboard) || EndsInTicks(s)
  }

  /** canvasPartialMatch: first the openings, cut at every length, then the trailing backticks. */
  method CanvasPartialMatch(s: string) returns (held: bool)
    ensures held == PartialMatch(s)
  {
    for k := 0 to |KINDS|
      invariant forall j :: 0 <= j < k ==> !EndsInOpening(s, KINDS[j])
    {
      held := EndsInPartOf(s, Opening(KINDS[k]));
      if held {
        return;
      }
    }
    assert KINDS[0] == ObjectDetail && KINDS[1] == Dashboard;
    var ticks := CountTrailingTicks(s);
    held := false;
    if 1 <= ticks <= 3 {
      var pos := |s| - ticks;
      held := pos == 0 || s[pos - 1] == '\n';
    }
  }

  // The limit that canvasPartialMatch sets, the longest opening, never binds before the opening at hand does.
  method EndsInPartOf(s: string, prefix: string) returns (found: bool)
    ensures found == exists n | 4 <= n <= |prefix| :: Strings.HasSuffix(s, prefix[..n])
  {
    var i := 4;
    while i <= |s| && i <= |prefix|
      invariant 4 <= i
      invariant forall n :: 4 <= n < i && n <= |prefix| ==> !Strings.HasSuffix(s, prefix[..n])
    {
      if s[|s| - i..] == prefix[..i] {
        assert Strings.HasSuffix(s, prefix[..i]);
        return true;
      }
      i := i + 1;
    }
    return false;
  }

  method CountTrailingTicks(s: string) returns (ticks: nat)
    ensures ticks == TrailingTicks(s)
  {
    ticks := 0;
    var i := |s| - 1;
    while i >= 0 && s[i] == '`'
      invariant -1 <= i < |s| && ticks == |s| - 1 - i
      invariant forall j :: i < j < |s| ==> s[j] == '`'
    {
      ticks := ticks + 1;
      i := i - 1;
    }
    TicksAre(s, ticks);
  }

  // ----- the scanner as a function of what is buffered -----

  datatype Piece = Prose(text: string) | Fence(body: string)

  datatype Scan = Scan(out: seq<Piece>, buffer: string, inside: bool)

  // The opening the outside scanner reacts to: the first kind in list order that occurs at all.
  function FindOpening(buf: string): (r: Option<(FenceKind, nat)>)
    ensures r.Some? ==> Strings.OccursAt(buf, Opening(r.value.0), r.value.1)
    ensures r.Some? ==> r.value.1 == Strings.Index(buf, Opening(r.value.0))
    ensures r.None? ==> forall kind :: Strings.Index(buf, Opening(kind)) < 0
  {
    var detail := Strings.Index(buf, Opening(ObjectDetail));
    var dashboard := Strings.Index(buf, Opening(Dashboard));
    if detail >= 0 then Some((ObjectDetail, detail))
    else if dashboard >= 0 then Some((Dashboard, dashboard))
    else None
  }

  // What follows the opening line, or nothing while that line is unfinished.
  function AfterLine(s: string): (r: string)
    ensures |r| <= |s|
  {
    var newline := Strings.Index(s, "\n");
    if newline >= 0 then s[newline + 1..] else ""
  }

  function ProseIfAny(text: string): seq<Piece> {
    if text == "" then [] else [Prose(text)]
  }

  // Inside a fence: wait for the closing, report the body, go on with what is left.
  ghost function DrainInside(buf: string): Scan
    decreases |buf|
  {
    var closing := Strings.Index(buf, CLOSING);
    if closing < 0 then Scan([], buf, true)
    else
      var fence := Fence(Strings.TrimSpace(buf[..closing]));
      var remaining := Strings.TrimLineBreaks(buf[closing + |CLOSING|..]);
      if remaining == "" then Scan([fence], "", false)
      else
        var rest := DrainOutside(remaining);
        rest.(out := [fence] + rest.out)
  }

  // Outside: open a fence, hold what may become an opening, or let everything through.
  ghost function DrainOutside(buf: string): Scan
    decreases |buf|
  {
    match FindOpening(buf)
    case Some((kind, idx)) =>
      var rest := DrainInside(AfterLine(buf[idx + |Opening(kind)|..]));
      rest.(out := ProseIfAny(buf[..idx]) + rest.out)
    case None =>
      if PartialMatch(buf) then Scan([], buf, false) else Scan([Prose(buf)], "", false)
  }

  /** HandleToken on a buffer that already holds the token. */
  ghost function Drain(buf: string, inside: bool): Scan {
    if inside then DrainInside(buf) else DrainOutside(buf)
  }

  ghost function FlushPieces(buf: string, inside: bool): seq<Piece> {
    if inside then [] else ProseIfAny(buf)
  }

  /** Everything a run of the interceptor lets through: the tokens one by one, then Flush. */
  ghost function Intercept(tokens: seq<string>, buf: string, inside: bool): seq<Piece> {
    if tokens == [] then FlushPieces(buf, inside)
    else
      var scan := Drain(buf + tokens[0], inside);
      scan.out + Intercept(tokens[1..], scan.buffer, scan.inside)
  }

  function Concat(tokens: seq<string>): string {
    if tokens == [] then "" else tokens[0] + Concat(tokens[1..])
  }

  // ----- streams as documents -----

  /** A stream is prose, fences and more prose. The last part may be an unfinished fence. */
  datatype Doc =
    | Plain(text: string)
    | Fenced(text: string, body: string, rest: Doc)
    | CutShort(text: string, body: string)

  function Render(opening: string, d: Doc): string {
    match d
    case Plain(text) => text
    case Fenced(text, body, rest) => text + opening + "\n" + body + CLOSING + Render(opening, rest)
    case CutShort(text, body) => text + opening + "\n" + body
  }

  ghost predicate AtLineStart(text: string) {
    text == "" || text[|text| - 1] == '\n'
  }

  ghost predicate CleanBody(body: string) {
    !Strings.Occurs(body, CLOSING) && !Strings.HasPrefix(body, "```")
  }

  // Fences open at line starts, prose holds no opening, bodies hold no closing.
  ghost predicate WellFormed(opening: string, d: Doc) {
    && !Strings.Occurs(d.text, opening)
    && (!d.Plain? ==> AtLineStart(d.text) && CleanBody(d.body))
    && (d.Fenced? ==> WellFormed(opening, d.rest))
  }

  // `later` is `earlier` without some of its leading line breaks.
  ghost predicate DropsLineBreaks(earlier: string, later: string) {
    && |later| <= |earlier|
    && later == earlier[|earlier| - |later|..]
    && forall c :: c in earlier[..|earlier| - |later|] ==> Strings.IsLineBreak(c)
  }

  /** What came out, with neighbouring prose joined, in the shape of a document. */
  function Collect(out: seq<Piece>): Doc {
    if out == [] then Plain("")
    else match out[0]
      case Prose(text) => var rest := Collect(out[1..]); rest.(text := text + rest.text)
      case Fence(body) => Fenced("", body, Collect(out[1..]))
  }

  /** The output says what the stream says: the same prose, and the trimmed bodies in order. Prose
      that follows a fence may have lost leading line breaks; an unfinished fence shows nothing. */
  ghost predicate Shows(d: Doc, out: Doc, afterFence: bool) {
    && (if afterFence then DropsLineBreaks(d.text, out.text) else d.text == out.text)
    && match d
       case Fenced(_, body, rest) =>
         out.Fenced? && out.body == Strings.TrimSpace(body) && Shows(rest, out.rest, true)
       case _ => out.Plain?
  }

  // What the scanner still has to deliver: a document, or the remainder of a fence. `lead` says
  // that the line break of the opening line was not yet dropped.
  datatype Goal = Outside(d: Doc) | InFence(lead: bool, body: string, rest: Doc) | InCut(lead: bool, body: string)

  function Lead(lead: bool): string {
    if lead then "\n" else ""
  }

  function Pending(opening: string, g: Goal): string {
    match g
    case Outside(d) => Render(opening, d)
    case InFence(lead, body, rest) => Lead(lead) + body + CLOSING + Render(opening, rest)
    case InCut(lead, body) => Lead(lead) + body
  }

  // The pending part is well formed and holds no opening of the other kind.
  ghost predicate GoalOk(opening: string, other: string, g: Goal) {
    && FenceOpening(opening)
    && (match g
        case Outside(d) => WellFormed(opening, d)
        case InFence(_, body, rest) => CleanBody(body) && WellFormed(opening, rest)
        case InCut(_, body) => CleanBody(body))
    && !Strings.Occurs(Pending(opening, g), other)
  }

  ghost predicate GoalShown(g: Goal, out: Doc) {
    match g
    case Outside(d) => Shows(d, out, false)
    case InFence(_, body, rest) =>
      out.Fenced? && out.text == "" && out.body == Strings.TrimSpace(body) && Shows(rest, out.rest, true)
    case InCut(_, _) => out == Plain("")
  }

  // Three backticks, then neither a backtick nor a line break.
  ghost predicate FenceOpening(opening: string) {
    && 4 <= |opening|
    && opening[0] == opening[1] == opening[2] == '`'
    && (forall i :: 3 <= i < |opening| ==> opening[i] != '`')
    && '\n' !in opening
  }

  lemma OpeningFacts(kind: FenceKind)
    ensures FenceOpening(Opening(kind))
  {
  }

  lemma ClosingFacts()
    ensures |CLOSING| == 4 && CLOSING[0] == '\n'
    ensures CLOSING[1] == CLOSING[2] == CLOSING[3] == '`'
    ensures CLOSING[1..] == "```"
  {
  }

  // A pattern that `whole` does not hold is in no part of it.
  lemma NotInPart(whole: string, before: string, part: string, after: string, pat: string)
    requires whole == before + part + after && !Strings.Occurs(whole, pat)
    ensures !Strings.Occurs(part, pat)
  {
    if i :| Strings.OccursAt(part, pat, i) {
      Strings.OccursInPrefix(part, after, pat, i);
      Strings.OccursInSuffix(before, part + after, pat, i);
      assert before + part + after == before + (part + after);
    }
  }

  // Nothing before the end of the body looks like a closing.
  lemma NoEarlyClosing(lead: bool, body: string, rest: string, i: nat)
    requires CleanBody(body) && i < |Lead(lead) + body|
    requires rest == "" || CLOSING <= rest
    ensures !Strings.OccursAt(Lead(lead) + body + rest, CLOSING, i)
  {
    var whole, start := Lead(lead) + body + rest, |Lead(lead)|;
    if i + 4 <= |whole| {
      if i >= start && i + 4 <= start + |body| {
        Strings.OccursInPrefix(Lead(lead) + body, rest, CLOSING, i);
        Strings.OccursInSuffix(Lead(lead), body, CLOSING, i - start);
      } else if i < start && |body| >= 3 {
        NoClosingAtLead(body, rest);
      } else {
        LineBreakInside(Lead(lead) + body, rest, i);
      }
    }
  }

  lemma NoClosingAtLead(body: string, rest: string)
    requires |body| >= 3 && !Strings.HasPrefix(body, "```")
    ensures !Strings.OccursAt("\n" + body + rest, CLOSING, 0)
  {
    var k := Strings.MismatchOf(body, "```", 0);
    Strings.Mismatch("\n" + body + rest, CLOSING, 0, 1 + k);
  }

  // A closing that straddled the end of `before` would hold a line break past its start.
  lemma LineBreakInside(before: string, rest: string, i: nat)
    requires i < |before| < i + 4 <= |before + rest| && CLOSING <= rest
    ensures !Strings.OccursAt(before + rest, CLOSING, i)
  {
    ClosingFacts();
    assert (before + rest)[|before|] == rest[0] == CLOSING[0];
    Strings.Mismatch(before + rest, CLOSING, i, |before| - i);
  }

  lemma FindsClosing(buf: string, ahead: string, lead: bool, body: string, after: string)
    requires CleanBody(body) && buf + ahead == Lead(lead) + body + CLOSING + after
    ensures var n, r := |Lead(lead) + body|, Strings.Index(buf, CLOSING);
      if r < 0 then |buf| < n + 4
      else r == n && buf[..n] == Lead(lead) + body && n + 4 <= |buf| && buf[n + 4..] + ahead == after
  {
    assert buf + ahead == Lead(lead) + body + (CLOSING + after);
    forall i: nat | i < |Lead(lead) + body| ensures !Strings.OccursAt(buf + ahead, CLOSING, i) {
      NoEarlyClosing(lead, body, CLOSING + after, i);
    }
    Strings.IndexInBuffer(buf, ahead, Lead(lead) + body, CLOSING, after);
  }

  lemma NoClosingInCut(buf: string, ahead: string, lead: bool, body: string)
    requires CleanBody(body) && buf + ahead == Lead(lead) + body
    ensures Strings.Index(buf, CLOSING) < 0
  {
    var r := Strings.Index(buf, CLOSING);
    if r >= 0 {
      ClosingFacts();
      Strings.OccursInPrefix(buf, ahead, CLOSING, r);
      assert Lead(lead) + body + "" == Lead(lead) + body;
      NoEarlyClosing(lead, body, "", r);
    }
  }

  lemma TrimIgnoresLead(lead: bool, body: string)
    ensures Strings.TrimSpace(Lead(lead) + body) == Strings.TrimSpace(body)
  {
    if lead {
      Strings.TrimSpaceDropsFirst('\n', body);
    }
    assert "" + body == body;
  }

  lemma Regroup(text: string, opening: string, body: string, rest: string)
    ensures text + opening + "\n" + body + rest == text + (opening + ("\n" + body + rest))
  {
  }

  // The prose of a document starts the rendering; a fence, if any, follows it.
  lemma RenderSplits(opening: string, d: Doc)
    ensures d.Plain? ==> Render(opening, d) == d.text
    ensures d.Fenced? ==> Render(opening, d) == d.text + (opening + Pending(opening, InFence(true, d.body, d.rest)))
    ensures d.CutShort? ==> Render(opening, d) == d.text + (opening + Pending(opening, InCut(true, d.body)))
  {
    match d
    case Plain(_) =>
    case Fenced(text, body, rest) =>
      var after := CLOSING + Render(opening, rest);
      assert text + opening + "\n" + body + CLOSING + Render(opening, rest) == text + opening + "\n" + body + after;
      assert "\n" + body + CLOSING + Render(opening, rest) == "\n" + body + after;
      Regroup(text, opening, body, after);
    case CutShort(text, body) =>
      assert text + opening + "\n" + body + "" == text + opening + "\n" + body;
      assert "\n" + body + "" == "\n" + body;
      Regroup(text, opening, body, "");
  }

  function Opened(d: Doc, lead: bool): Goal
    requires !d.Plain?
  {
    if d.Fenced? then InFence(lead, d.body, d.rest) else InCut(lead, d.body)
  }

  // Taking the first `k` characters of the prose away.
  lemma DropProse(opening: string, d: Doc, k: nat)
    requires k <= |d.text| && WellFormed(opening, d)
    ensures WellFormed(opening, d.(text := d.text[k..]))
    ensures Render(opening, d.(text := d.text[k..])) == Render(opening, d)[k..]
  {
    var less := d.(text := d.text[k..]);
    NotInPart(d.text, d.text[..k], d.text[k..], "", opening);
    RenderSplits(opening, d);
    RenderSplits(opening, less);
  }

  // The first opening of `text + opening + tail` is the one after the prose.
  lemma NoEarlyOpening(opening: string, text: string, tail: string, i: nat)
    requires FenceOpening(opening) && AtLineStart(text) && !Strings.Occurs(text, opening) && i < |text|
    ensures !Strings.OccursAt(text + (opening + tail), opening, i)
  {
    if i + |opening| <= |text| {
      Strings.OccursInPrefix(text, opening + tail, opening, i);
    } else {
      Strings.Mismatch(text + (opening + tail), opening, i, |text| - 1 - i);
    }
  }

  lemma FindsOpening(opening: string, buf: string, ahead: string, text: string, tail: string)
    requires FenceOpening(opening) && AtLineStart(text) && !Strings.Occurs(text, opening)
    requires buf + ahead == text + (opening + tail)
    ensures var n, r := |text|, Strings.Index(buf, opening);
      if r < 0 then |buf| < n + |opening|
      else r == n && buf[..n] == text && n + |opening| <= |buf| && buf[n + |opening|..] + ahead == tail
  {
    forall i: nat | i < |text| ensures !Strings.OccursAt(buf + ahead, opening, i) {
      NoEarlyOpening(opening, text, tail, i);
    }
    Strings.IndexInBuffer(buf, ahead, text, opening, tail);
  }

  lemma TicksAre(s: string, k: nat)
    requires k <= |s| && forall i :: |s| - k <= i < |s| ==> s[i] == '`'
    requires k < |s| ==> s[|s| - k - 1] != '`'
    ensures TrailingTicks(s) == k
  {
    if k > 0 {
      TicksAre(s[..|s| - 1], k - 1);
    }
  }

  // A buffer that ends inside the opening is held back, however short the part is.
  lemma HoldsOpening(opening: string, buf: string, text: string, k: nat)
    requires FenceOpening(opening) && AtLineStart(text) && 1 <= k < |opening|
    requires buf == text + opening[..k]
    ensures EndsInTicks(buf) || exists n | 4 <= n <= |opening| :: Strings.HasSuffix(buf, opening[..n])
  {
    var n := |text|;
    if k >= 4 {
      assert buf[|buf| - k..] == opening[..k];
      assert Strings.HasSuffix(buf, opening[..k]);
    } else {
      assert forall i :: n <= i < |buf| ==> buf[i] == opening[i - n] == '`';
      TicksAre(buf, k);
    }
  }

  // ----- the simulation -----

  lemma CollectProse(text: string, out: seq<Piece>)
    ensures Collect(ProseIfAny(text) + out) == (var c := Collect(out); c.(text := text + c.text))
  {
    if text == "" {
      assert ProseIfAny(text) + out == out;
    } else {
      assert ([Prose(text)] + out)[1..] == out;
    }
  }

  lemma CollectFence(body: string, out: seq<Piece>)
    ensures Collect([Fence(body)] + out) == Fenced("", body, Collect(out))
  {
    assert ([Fence(body)] + out)[1..] == out;
  }

  lemma ShowsWithoutLineBreaks(d: Doc, k: nat, out: Doc)
    requires k <= |d.text| && (forall c :: c in d.text[..k] ==> Strings.IsLineBreak(c))
    requires Shows(d.(text := d.text[k..]), out, false)
    ensures Shows(d, out, true)
  {
    assert |d.text| - |out.text| == k;
  }

  // The output of a scan followed by the rest of the run.
  ghost function Then(scan: Scan, tokens: seq<string>): seq<Piece> {
    scan.out + Intercept(tokens, scan.buffer, scan.inside)
  }

  lemma CollectThen(first: seq<Piece>, a: seq<Piece>, b: seq<Piece>)
    ensures first + a + b == first + (a + b)
  {
  }

  lemma ThenFence(a: seq<Piece>, b: seq<Piece>, body: string)
    ensures Collect([Fence(body)] + a + b) == Fenced("", body, Collect(a + b))
  {
    CollectThen([Fence(body)], a, b);
    CollectFence(body, a + b);
  }

  lemma ThenProse(a: seq<Piece>, b: seq<Piece>, text: string)
    ensures Collect(ProseIfAny(text) + a + b) == (var later := Collect(a + b); later.(text := text + later.text))
  {
    CollectThen(ProseIfAny(text), a, b);
    CollectProse(text, a + b);
  }

  lemma ThenNothing(buf: string, inside: bool, tokens: seq<string>)
    ensures Then(Scan([], buf, inside), tokens) == Intercept(tokens, buf, inside)
  {
  }

  // Line breaks dropped right after a fence come out of the prose that follows it.
  lemma LineBreaksAreProse(opening: string, d: Doc, all: string, ahead: string, k: nat)
    requires FenceOpening(opening) && all + ahead == Render(opening, d)
    requires k <= |all| && forall i :: 0 <= i < k ==> Strings.IsLineBreak(all[i])
    ensures k <= |d.text| && d.text[..k] == all[..k]
  {
    RenderSplits(opening, d);
    if |d.text| < |all| {
      assert all[|d.text|] == (all + ahead)[|d.text|] == opening[0];
      assert !Strings.IsLineBreak(all[|d.text|]);
    }
    assert d.text[..k] == (all + ahead)[..k] == all[..k];
  }

  // After a closing: what is still buffered renders the rest, less `k` dropped line breaks.
  lemma AfterClosing(opening: string, d: Doc, all: string, ahead: string) returns (k: nat, next: Doc)
    requires FenceOpening(opening) && WellFormed(opening, d) && all + ahead == Render(opening, d)
    ensures k <= |all| && Strings.TrimLineBreaks(all) == all[k..]
    ensures WellFormed(opening, next) && all[k..] + ahead == Render(opening, next)
    ensures forall out :: Shows(next, out, false) ==> Shows(d, out, true)
  {
    k := Strings.TrimLineBreaksDrops(all);
    LineBreaksAreProse(opening, d, all, ahead, k);
    DropProse(opening, d, k);
    next := d.(text := d.text[k..]);
    assert all[k..] + ahead == (all + ahead)[k..];
    forall out | Shows(next, out, false) ensures Shows(d, out, true) {
      ShowsWithoutLineBreaks(d, k, out);
    }
  }

  lemma SuffixLacks(buf: string, ahead: string, n: nat, pat: string)
    requires n <= |buf| && !Strings.Occurs(buf + ahead, pat)
    ensures !Strings.Occurs(buf[n..] + ahead, pat)
  {
    assert buf + ahead == buf[..n] + (buf[n..] + ahead) + "";
    NotInPart(buf + ahead, buf[..n], buf[n..] + ahead, "", pat);
  }

  lemma BufferLacks(buf: string, ahead: string, pat: string)
    requires !Strings.Occurs(buf + ahead, pat)
    ensures Strings.Index(buf, pat) < 0
  {
    var r := Strings.Index(buf, pat);
    if r >= 0 {
      Strings.OccursInPrefix(buf, ahead, pat, r);
    }
  }

  // At the closing of a fence: the body is complete, and what is left renders the rest of the
  // document, less the dropped line breaks.
  lemma ClosesFence(opening: string, other: string, buf: string, ahead: string, g: Goal) returns (next: Doc)
    requires g.InFence? && GoalOk(opening, other, g) && buf + ahead == Pending(opening, g)
    requires Strings.Index(buf, CLOSING) >= 0
    ensures var closing := Strings.Index(buf, CLOSING);
      && Strings.TrimSpace(buf[..closing]) == Strings.TrimSpace(g.body)
      && Strings.TrimLineBreaks(buf[closing + |CLOSING|..]) + ahead == Render(opening, next)
    ensures GoalOk(opening, other, Outside(next))
    ensures forall out :: Shows(next, out, false) ==> Shows(g.rest, out, true)
  {
    var closing := Strings.Index(buf, CLOSING);
    var all := buf[closing + |CLOSING|..];
    assert buf[..closing] == Lead(g.lead) + g.body && all + ahead == Render(opening, g.rest) by {
      FindsClosing(buf, ahead, g.lead, g.body, Render(opening, g.rest));
    }
    assert Strings.TrimSpace(buf[..closing]) == Strings.TrimSpace(g.body) by { TrimIgnoresLead(g.lead, g.body); }
    var k: nat;
    k, next := AfterClosing(opening, g.rest, all, ahead);
    assert !Strings.Occurs(Render(opening, next), other) by {
      assert all[k..] == buf[closing + |CLOSING| + k..];
      SuffixLacks(buf, ahead, closing + |CLOSING| + k, other);
    }
  }

  lemma AfterLineOf(after: string)
    requires after == "" || after[0] == '\n'
    ensures AfterLine(after) == if after == "" then "" else after[1..]
  {
    if after != "" {
      assert Strings.OccursAt(after, "\n", 0);
    }
  }

  lemma OpeningMeansFence(opening: string, buf: string, ahead: string, d: Doc)
    requires WellFormed(opening, d) && buf + ahead == Render(opening, d)
    requires Strings.Index(buf, opening) >= 0
    ensures !d.Plain?
  {
    Strings.OccursInPrefix(buf, ahead, opening, Strings.Index(buf, opening));
  }

  lemma LeadDropped(opening: string, d: Doc, after: string, ahead: string)
    requires !d.Plain? && after + ahead == Pending(opening, Opened(d, true))
    ensures after != "" ==> after[1..] + ahead == Pending(opening, Opened(d, false))
  {
    if after != "" {
      assert after[1..] + ahead == (after + ahead)[1..];
      assert Pending(opening, Opened(d, true))[1..] == Pending(opening, Opened(d, false));
    }
  }

  // Past the opening line, or at the end of a buffer that has not got past it.
  lemma PastOpeningLine(opening: string, d: Doc, after: string, ahead: string) returns (lead: bool, skipped: nat)
    requires !d.Plain? && after + ahead == Pending(opening, Opened(d, true))
    ensures skipped <= |after| && AfterLine(after) == after[skipped..]
    ensures after[skipped..] + ahead == Pending(opening, Opened(d, lead))
  {
    var tail := Pending(opening, Opened(d, true));
    assert tail[0] == '\n';
    if after == "" {
      AfterLineOf(after);
      lead, skipped := true, 0;
    } else {
      assert (after + ahead)[0] == after[0];
      AfterLineOf(after);
      LeadDropped(opening, d, after, ahead);
      lead, skipped := false, 1;
    }
  }

  // At an opening: the prose before it is complete ...
  lemma FenceFound(opening: string, buf: string, ahead: string, d: Doc)
    requires FenceOpening(opening) && WellFormed(opening, d) && buf + ahead == Render(opening, d)
    requires Strings.Index(buf, opening) >= 0
    ensures var r := Strings.Index(buf, opening);
      && !d.Plain? && buf[..r] == d.text
      && r + |opening| <= |buf| && buf[r + |opening|..] + ahead == Pending(opening, Opened(d, true))
  {
    hide Render, Pending, FenceOpening, AtLineStart, CleanBody, Strings.Occurs, Strings.OccursAt;
    OpeningMeansFence(opening, buf, ahead, d);
    RenderSplits(opening, d);
    FindsOpening(opening, buf, ahead, d.text, Pending(opening, Opened(d, true)));
  }

  // ... and what is left renders the fence.
  lemma ReachesFence(opening: string, buf: string, ahead: string, d: Doc) returns (lead: bool, n: nat)
    requires FenceOpening(opening) && WellFormed(opening, d) && buf + ahead == Render(opening, d)
    requires Strings.Index(buf, opening) >= 0
    ensures var r := Strings.Index(buf, opening);
      !d.Plain? && buf[..r] == d.text && n <= |buf| && AfterLine(buf[r + |opening|..]) == buf[n..]
    ensures buf[n..] + ahead == Pending(opening, Opened(d, lead))
  {
    hide Render, Pending, FenceOpening, WellFormed, AfterLine, Strings.Occurs, Strings.OccursAt;
    FenceFound(opening, buf, ahead, d);
    var r := Strings.Index(buf, opening);
    var after := buf[r + |opening|..];
    var skipped;
    lead, skipped := PastOpeningLine(opening, d, after, ahead);
    n := r + |opening| + skipped;
    assert buf[n..] == after[skipped..];
  }

  lemma OpensFence(opening: string, other: string, buf: string, ahead: string, d: Doc) returns (lead: bool)
    requires GoalOk(opening, other, Outside(d)) && buf + ahead == Render(opening, d)
    requires Strings.Index(buf, opening) >= 0
    ensures var r := Strings.Index(buf, opening);
      && !d.Plain? && buf[..r] == d.text
      && AfterLine(buf[r + |opening|..]) + ahead == Pending(opening, Opened(d, lead))
    ensures GoalOk(opening, other, Opened(d, lead))
  {
    var n: nat;
    lead, n := ReachesFence(opening, buf, ahead, d);
    SuffixLacks(buf, ahead, n, other);
  }

  // Without an opening in the buffer, either the buffer is all prose or it is held back.
  lemma ProseOnly(opening: string, other: string, buf: string, ahead: string, d: Doc) returns (next: Doc)
    requires GoalOk(opening, other, Outside(d)) && buf + ahead == Render(opening, d)
    requires Strings.Index(buf, opening) < 0
    requires !EndsInTicks(buf) && !exists n | 4 <= n <= |opening| :: Strings.HasSuffix(buf, opening[..n])
    ensures GoalOk(opening, other, Outside(next)) && ahead == Render(opening, next)
    ensures forall out :: Shows(next, out, false) ==> Shows(d, out.(text := buf + out.text), false)
  {
    RenderSplits(opening, d);
    if !d.Plain? {
      FindsOpening(opening, buf, ahead, d.text, Pending(opening, Opened(d, true)));
      if |d.text| < |buf| {
        var k := |buf| - |d.text|;
        assert buf == Render(opening, d)[..|buf|] == d.text + opening[..k];
        HoldsOpening(opening, buf, d.text, k);
        assert false;
      }
    }
    assert buf == Render(opening, d)[..|buf|] == d.text[..|buf|];
    DropProse(opening, d, |buf|);
    next := d.(text := d.text[|buf|..]);
    assert ahead == (buf + ahead)[|buf|..];
    assert buf[|buf|..] + ahead == ahead;
    SuffixLacks(buf, ahead, |buf|, other);
    assert d.text == buf + next.text;
  }

  lemma DrainClosing(buf: string, closing: nat, remaining: string) returns (rest: Scan)
    requires closing == Strings.Index(buf, CLOSING)
    requires remaining == Strings.TrimLineBreaks(buf[closing + |CLOSING|..])
    ensures rest == if remaining == "" then Scan([], "", false) else Drain(remaining, false)
    ensures Drain(buf, true) == rest.(out := [Fence(Strings.TrimSpace(buf[..closing]))] + rest.out)
  {
    rest := if remaining == "" then Scan([], "", false) else Drain(remaining, false);
  }

  lemma AfterLineShorter(buf: string, kind: FenceKind, r: nat)
    requires r + |Opening(kind)| <= |buf|
    ensures |AfterLine(buf[r + |Opening(kind)|..])| < |buf|
  {
    OpeningFacts(kind);
  }

  lemma DrainOpening(buf: string, kind: FenceKind, r: nat, after: string) returns (rest: Scan)
    requires FindOpening(buf) == Some((kind, r)) && after == AfterLine(buf[r + |Opening(kind)|..])
    ensures rest == Drain(after, true)
    ensures Drain(buf, false) == rest.(out := ProseIfAny(buf[..r]) + rest.out)
  {
    rest := Drain(after, true);
  }

  lemma DrainNoOpening(buf: string)
    requires FindOpening(buf).None?
    ensures Drain(buf, false) == if PartialMatch(buf) then Scan([], buf, false) else Scan([Prose(buf)], "", false)
  {
  }

  // With the other kind absent, the opening found is the expected one.
  lemma FoundKind(kind: FenceKind, buf: string)
    requires Strings.Index(buf, Opening(Other(kind))) < 0
    ensures var r := Strings.Index(buf, Opening(kind));
      FindOpening(buf) == if r >= 0 then Some((kind, r)) else None
  {
  }

  lemma EmptyHasNoOpening(kind: FenceKind)
    ensures Strings.Index("", Opening(kind)) < 0
  {
    OpeningFacts(kind);
  }

  lemma NotPartial(kind: FenceKind, buf: string)
    requires !PartialMatch(buf)
    ensures !EndsInTicks(buf)
    ensures !exists n | 4 <= n <= |Opening(kind)| :: Strings.HasSuffix(buf, Opening(kind)[..n])
  {
    assert !EndsInOpening(buf, kind);
  }

  lemma BodyNotCut(buf: string, ahead: string, g: Goal)
    requires !g.Outside? && CleanBody(g.body) && Strings.Index(buf, CLOSING) >= 0
    requires g.InCut? ==> buf + ahead == Lead(g.lead) + g.body
    ensures g.InFence?
  {
    if g.InCut? {
      NoClosingInCut(buf, ahead, g.lead, g.body);
    }
  }

  lemma ShowsOpened(d: Doc, lead: bool, out: Doc)
    requires !d.Plain? && GoalShown(Opened(d, lead), out)
    ensures Shows(d, out.(text := d.text + out.text), false)
  {
    assert d.text + "" == d.text;
  }

  /** From any buffer that is settled (nothing in it can be acted on), the run delivers the goal. */
  lemma {:induction false} Settled(kind: FenceKind, buf: string, inside: bool, tokens: seq<string>, g: Goal)
    requires GoalOk(Opening(kind), Opening(Other(kind)), g) && inside == !g.Outside?
    requires buf + Concat(tokens) == Pending(Opening(kind), g)
    requires if inside then Strings.Index(buf, CLOSING) < 0 else Strings.Index(buf, Opening(kind)) < 0
    ensures GoalShown(g, Collect(Intercept(tokens, buf, inside)))
    decreases |tokens|, 0
  {
    if tokens == [] {
      NothingLeft(Opening(kind), buf, g);
    } else {
      assert buf + Concat(tokens) == buf + tokens[0] + Concat(tokens[1..]);
      Delivers(kind, buf + tokens[0], inside, tokens[1..], g);
    }
  }

  // At the end of the stream only prose, or an unfinished fence, can still be buffered.
  lemma NothingLeft(opening: string, buf: string, g: Goal)
    requires FenceOpening(opening) && buf + "" == Pending(opening, g)
    requires g.Outside? ==> WellFormed(opening, g.d) && Strings.Index(buf, opening) < 0
    requires g.InFence? ==> CleanBody(g.body) && Strings.Index(buf, CLOSING) < 0
    ensures GoalShown(g, Collect(FlushPieces(buf, !g.Outside?)))
  {
    assert buf + "" == buf;
    match g
    case Outside(d) =>
      RenderSplits(opening, d);
      if !d.Plain? {
        FindsOpening(opening, buf, "", d.text, Pending(opening, Opened(d, true)));
      }
      CollectProse(buf, []);
      assert ProseIfAny(buf) + [] == ProseIfAny(buf);
    case InFence(lead, body, rest) =>
      FindsClosing(buf, "", lead, body, Render(opening, rest));
    case InCut(_, _) =>
  }

  lemma {:induction false} Delivers(kind: FenceKind, buf: string, inside: bool, tokens: seq<string>, g: Goal)
    requires GoalOk(Opening(kind), Opening(Other(kind)), g) && inside == !g.Outside?
    requires buf + Concat(tokens) == Pending(Opening(kind), g)
    ensures GoalShown(g, Collect(Then(Drain(buf, inside), tokens)))
    decreases |tokens|, 3 * |buf| + 2
  {
    if inside {
      DeliversInside(kind, buf, tokens, g);
    } else {
      DeliversOutside(kind, buf, tokens, g.d);
    }
  }

  lemma {:induction false} DeliversInside(kind: FenceKind, buf: string, tokens: seq<string>, g: Goal)
    requires GoalOk(Opening(kind), Opening(Other(kind)), g) && !g.Outside?
    requires buf + Concat(tokens) == Pending(Opening(kind), g)
    ensures GoalShown(g, Collect(Then(Drain(buf, true), tokens)))
    decreases |tokens|, 3 * |buf| + 1
  {
    var closing := Strings.Index(buf, CLOSING);
    if closing < 0 {
      assert Drain(buf, true) == Scan([], buf, true);
      ThenNothing(buf, true, tokens);
      Settled(kind, buf, true, tokens, g);
    } else {
      BodyNotCut(buf, Concat(tokens), g);
      var next := ClosesFence(Opening(kind), Opening(Other(kind)), buf, Concat(tokens), g);
      var remaining := Strings.TrimLineBreaks(buf[closing + |CLOSING|..]);
      var rest := DrainClosing(buf, closing, remaining);
      DeliversRest(kind, remaining, rest, tokens, next);
      ThenFence(rest.out, Intercept(tokens, rest.buffer, rest.inside), Strings.TrimSpace(buf[..closing]));
    }
  }

  lemma {:induction false} DeliversRest(kind: FenceKind, remaining: string, rest: Scan, tokens: seq<string>, d: Doc)
    requires GoalOk(Opening(kind), Opening(Other(kind)), Outside(d))
    requires remaining + Concat(tokens) == Render(Opening(kind), d)
    requires rest == if remaining == "" then Scan([], "", false) else Drain(remaining, false)
    ensures Shows(d, Collect(Then(rest, tokens)), false)
    decreases |tokens|, 3 * |remaining| + 3
  {
    if remaining == "" {
      EmptyHasNoOpening(kind);
      ThenNothing("", false, tokens);
      Settled(kind, "", false, tokens, Outside(d));
    } else {
      Delivers(kind, remaining, false, tokens, Outside(d));
    }
  }

  lemma {:induction false} DeliversOutside(kind: FenceKind, buf: string, tokens: seq<string>, d: Doc)
    requires GoalOk(Opening(kind), Opening(Other(kind)), Outside(d))
    requires buf + Concat(tokens) == Render(Opening(kind), d)
    ensures Shows(d, Collect(Then(Drain(buf, false), tokens)), false)
    decreases |tokens|, 3 * |buf| + 1
  {
    BufferLacks(buf, Concat(tokens), Opening(Other(kind)));
    FoundKind(kind, buf);
    if FindOpening(buf).Some? {
      DeliversOpened(kind, buf, tokens, d);
    } else {
      DrainNoOpening(buf);
      if PartialMatch(buf) {
        ThenNothing(buf, false, tokens);
        Settled(kind, buf, false, tokens, Outside(d));
      } else {
        NotPartial(kind, buf);
        var next := ProseOnly(Opening(kind), Opening(Other(kind)), buf, Concat(tokens), d);
        EmptyHasNoOpening(kind);
        Settled(kind, "", false, tokens, Outside(next));
        LetsThrough(buf, tokens);
      }
    }
  }

  lemma LetsThrough(buf: string, tokens: seq<string>)
    ensures Collect(Then(Scan([Prose(buf)], "", false), tokens))
      == (var later := Collect(Intercept(tokens, "", false)); later.(text := buf + later.text))
  {
    assert ([Prose(buf)] + Intercept(tokens, "", false))[1..] == Intercept(tokens, "", false);
  }

  lemma {:induction false} DeliversOpened(kind: FenceKind, buf: string, tokens: seq<string>, d: Doc)
    requires GoalOk(Opening(kind), Opening(Other(kind)), Outside(d))
    requires buf + Concat(tokens) == Render(Opening(kind), d)
    requires FindOpening(buf) == Some((kind, Strings.Index(buf, Opening(kind))))
    ensures Shows(d, Collect(Then(Drain(buf, false), tokens)), false)
    decreases |tokens|, 3 * |buf|
  {
    hide Render, FindOpening, Drain, Collect, Then, Shows, WellFormed, FenceOpening, Strings.Occurs;
    var r := Strings.Index(buf, Opening(kind));
    var after := AfterLine(buf[r + |Opening(kind)|..]);
    var lead := OpensFence(Opening(kind), Opening(Other(kind)), buf, Concat(tokens), d);
    var rest := DrainOpening(buf, kind, r, after);
    AfterLineShorter(buf, kind, r);
    Delivers(kind, after, true, tokens, Opened(d, lead));
    AfterOpening(d, lead, rest, tokens);
  }

  lemma AfterOpening(d: Doc, lead: bool, rest: Scan, tokens: seq<string>)
    requires !d.Plain? && GoalShown(Opened(d, lead), Collect(Then(rest, tokens)))
    ensures Shows(d, Collect(Then(rest.(out := ProseIfAny(d.text) + rest.out), tokens)), false)
  {
    ShowsOpened(d, lead, Collect(Then(rest, tokens)));
    ThenProse(rest.out, Intercept(tokens, rest.buffer, rest.inside), d.text);
  }

  // ----- the theorems about whole streams -----

  /** However the stream of a well-formed document is cut into tokens, the run lets through the same
      prose, up to line breaks right after a fence, and the same fence bodies in the same places.
      No text of a fence, finished or not, shows up as prose. */
  lemma ChunkInvariance(kind: FenceKind, d: Doc, tokens: seq<string>)
    requires WellFormed(Opening(kind), d) && !Strings.Occurs(Render(Opening(kind), d), Opening(Other(kind)))
    requires Concat(tokens) == Render(Opening(kind), d)
    ensures Shows(d, Collect(Intercept(tokens, "", false)), false)
  {
    OpeningFacts(kind);
    EmptyHasNoOpening(kind);
    assert "" + Concat(tokens) == Concat(tokens);
    Settled(kind, "", false, tokens, Outside(d));
  }

  /** A stream without canvas openings passes through unchanged. */
  lemma PassThrough(tokens: seq<string>)
    requires forall kind :: !Strings.Occurs(Concat(tokens), Opening(kind))
    ensures Collect(Intercept(tokens, "", false)) == Plain(Concat(tokens))
  {
    ChunkInvariance(Dashboard, Plain(Concat(tokens)), tokens);
  }

  // ----- emitting -----

  function BodiesOf(out: Doc): seq<string> {
    if out.Fenced? then [out.body] + BodiesOf(out.rest) else []
  }

  lemma ShownBodies(d: Doc, out1: Doc, out2: Doc, afterFence: bool)
    requires Shows(d, out1, afterFence) && Shows(d, out2, afterFence)
    ensures BodiesOf(out1) == BodiesOf(out2)
  {
  }

  // normalizeCanvasPayload on the text of a fence, decoding included.
  type Normalizer = string -> CanvasPanel.Result<CanvasPayload.Normalized>

  datatype Emitted = Emitted(events: seq<Event>, lastValid: map<string, Object>)

  function OpenEvent(n: CanvasPayload.Normalized): Event {
    CanvasOpen(Canvas(n.meta.TabId(), n.meta.title, n.meta.kind, n.meta.qualifier, n.content, false, None))
  }

  /** emitCanvasEvent: rejected payloads and exact repetitions of a tab's last payload are silent. */
  function EmitFence(normalize: Normalizer, body: string, lastValid: map<string, Object>): Emitted {
    match normalize(body)
    case Rejected(_) => Emitted([], lastValid)
    case Ok(n) =>
      var tab := n.meta.TabId();
      if tab in lastValid && lastValid[tab] == n.content then Emitted([], lastValid)
      else Emitted([OpenEvent(n)], lastValid[tab := n.content])
  }

  function EmitPiece(normalize: Normalizer, piece: Piece, lastValid: map<string, Object>): Emitted {
    match piece
    case Prose(text) => Emitted([Text(text)], lastValid)
    case Fence(body) => EmitFence(normalize, body, lastValid)
  }

  function EmitPieces(normalize: Normalizer, out: seq<Piece>, lastValid: map<string, Object>): Emitted {
    if out == [] then Emitted([], lastValid)
    else
      var first := EmitPiece(normalize, out[0], lastValid);
      var rest := EmitPieces(normalize, out[1..], first.lastValid);
      rest.(events := first.events + rest.events)
  }

  // The canvas shows the payload that a fence of `out` normalises to.
  ghost predicate ComesFromFence(normalize: Normalizer, out: seq<Piece>, canvas: Canvas) {
    exists body ::
      && Fence(body) in out && normalize(body).Ok?
      && var v := normalize(body).value;
        && canvas.title == v.meta.title && canvas.kind == v.meta.kind && canvas.qualifier == v.meta.qualifier
        && canvas.content == v.content && canvas.tabId == v.meta.kind + "::" + v.meta.title + "::" + v.meta.qualifier
        && !canvas.terminalInteractive && canvas.handoff.None?
  }

  /** Every canvas comes from a fence whose payload is accepted, under its title, kind, qualifier and content, is
      not interactive and carries no hand-off; and every text comes from prose. */
  lemma {:induction false} EmittedFrom(normalize: Normalizer, out: seq<Piece>, lastValid: map<string, Object>, e: Event)
    requires e in EmitPieces(normalize, out, lastValid).events
    ensures e.CanvasOpen? || e.Text?
    ensures e.CanvasOpen? ==> ComesFromFence(normalize, out, e.canvas)
    ensures e.Text? ==> Prose(e.text) in out
  {
    var first := EmitPiece(normalize, out[0], lastValid);
    if e in first.events {
      assert out[0] in out;
    } else {
      EmittedFrom(normalize, out[1..], first.lastValid, e);
      assert forall piece :: piece in out[1..] ==> piece in out;
    }
  }

  // What has been emitted once `out` is let through as well.
  function Advance(normalize: Normalizer, sofar: Emitted, out: seq<Piece>): Emitted {
    var now := EmitPieces(normalize, out, sofar.lastValid);
    Emitted(sofar.events + now.events, now.lastValid)
  }

  lemma {:induction false} AdvanceAppend(normalize: Normalizer, sofar: Emitted, a: seq<Piece>, b: seq<Piece>)
    ensures Advance(normalize, sofar, a + b) == Advance(normalize, Advance(normalize, sofar, a), b)
    decreases |a|
  {
    if a == [] {
      assert a + b == b;
    } else {
      var first := EmitPiece(normalize, a[0], sofar.lastValid);
      var next := Emitted(sofar.events + first.events, first.lastValid);
      AdvanceStep(normalize, sofar, a);
      AdvanceStep(normalize, sofar, a + b);
      assert (a + b)[1..] == a[1..] + b && (a + b)[0] == a[0];
      AdvanceAppend(normalize, next, a[1..], b);
    }
  }

  lemma AdvanceStep(normalize: Normalizer, sofar: Emitted, a: seq<Piece>)
    requires a != []
    ensures var first := EmitPiece(normalize, a[0], sofar.lastValid);
      Advance(normalize, sofar, a) == Advance(normalize, Emitted(sofar.events + first.events, first.lastValid), a[1..])
  {
    var first := EmitPiece(normalize, a[0], sofar.lastValid);
    var rest := EmitPieces(normalize, a[1..], first.lastValid);
    assert sofar.events + (first.events + rest.events) == sofar.events + first.events + rest.events;
  }

  function EmitBodies(normalize: Normalizer, bodies: seq<string>, lastValid: map<string, Object>): seq<Event> {
    if bodies == [] then []
    else
      var first := EmitFence(normalize, bodies[0], lastValid);
      first.events + EmitBodies(normalize, bodies[1..], first.lastValid)
  }

  function CanvasOpens(events: seq<Event>): seq<Event> {
    if events == [] then []
    else if events[0].CanvasOpen? then [events[0]] + CanvasOpens(events[1..])
    else CanvasOpens(events[1..])
  }

  lemma {:induction false} CanvasOpensAppend(a: seq<Event>, b: seq<Event>)
    ensures CanvasOpens(a + b) == CanvasOpens(a) + CanvasOpens(b)
  {
    if a == [] {
      assert a + b == b;
    } else {
      assert (a + b)[1..] == a[1..] + b && (a + b)[0] == a[0];
      CanvasOpensAppend(a[1..], b);
      var rest := CanvasOpens(a[1..]);
      assert [a[0]] + (rest + CanvasOpens(b)) == [a[0]] + rest + CanvasOpens(b);
    }
  }

  // Which canvases open depends on the fence bodies alone.
  lemma {:induction false} OpensFollowBodies(normalize: Normalizer, out: seq<Piece>, lastValid: map<string, Object>)
    ensures CanvasOpens(EmitPieces(normalize, out, lastValid).events)
      == EmitBodies(normalize, BodiesOf(Collect(out)), lastValid)
  {
    if out != [] {
      var first := EmitPiece(normalize, out[0], lastValid);
      var rest := EmitPieces(normalize, out[1..], first.lastValid);
      CanvasOpensAppend(first.events, rest.events);
      OpensFollowBodies(normalize, out[1..], first.lastValid);
      assert CanvasOpens(first.events) == if out[0].Fence? then first.events else [];
      if out[0].Fence? {
        assert BodiesOf(Collect(out))[1..] == BodiesOf(Collect(out[1..]));
      }
    }
  }

  /** Two cuts of the same stream open the same canvases, with the same payloads, in the same order. */
  lemma SameCanvases(normalize: Normalizer, kind: FenceKind, d: Doc, tokens1: seq<string>, tokens2: seq<string>)
    requires WellFormed(Opening(kind), d) && !Strings.Occurs(Render(Opening(kind), d), Opening(Other(kind)))
    requires Concat(tokens1) == Concat(tokens2) == Render(Opening(kind), d)
    ensures CanvasOpens(EmitPieces(normalize, Intercept(tokens1, "", false), map[]).events)
      == CanvasOpens(EmitPieces(normalize, Intercept(tokens2, "", false), map[]).events)
  {
    ChunkInvariance(kind, d, tokens1);
    ChunkInvariance(kind, d, tokens2);
    ShownBodies(d, Collect(Intercept(tokens1, "", false)), Collect(Intercept(tokens2, "", false)), false);
    OpensFollowBodies(normalize, Intercept(tokens1, "", false), map[]);
    OpensFollowBodies(normalize, Intercept(tokens2, "", false), map[]);
  }

  // The last payload opened under a tab.
  function LastOpened(events: seq<Event>, tab: string): Option<Object> {
    if events == [] then None
    else
      var last := events[|events| - 1];
      if last.CanvasOpen? && last.canvas.tabId == tab then Some(last.canvas.content)
      else LastOpened(events[..|events| - 1], tab)
  }

  // No canvas event repeats the payload its tab shows already.
  ghost predicate NoRepeats(events: seq<Event>) {
    forall i :: 0 <= i < |events| && events[i].CanvasOpen? ==>
      LastOpened(events[..i], events[i].canvas.tabId) != Some(events[i].canvas.content)
  }

  ghost predicate Remembers(lastValid: map<string, Object>, events: seq<Event>) {
    forall tab :: LastOpened(events, tab) == if tab in lastValid then Some(lastValid[tab]) else None
  }

  lemma NoRepeatsStep(events: seq<Event>, lastValid: map<string, Object>, e: Event)
    requires NoRepeats(events) && Remembers(lastValid, events)
    requires e.CanvasOpen? ==> !(e.canvas.tabId in lastValid && lastValid[e.canvas.tabId] == e.canvas.content)
    ensures NoRepeats(events + [e])
    ensures Remembers(if e.CanvasOpen? then lastValid[e.canvas.tabId := e.canvas.content] else lastValid, events + [e])
  {
    assert (events + [e])[..|events|] == events;
    assert forall i :: 0 <= i < |events| ==> (events + [e])[..i] == events[..i];
  }

  lemma PieceNeverRepeats(normalize: Normalizer, before: seq<Event>, piece: Piece, lastValid: map<string, Object>)
    requires NoRepeats(before) && Remembers(lastValid, before)
    ensures var emitted := EmitPiece(normalize, piece, lastValid);
      NoRepeats(before + emitted.events) && Remembers(emitted.lastValid, before + emitted.events)
  {
    var emitted := EmitPiece(normalize, piece, lastValid);
    if emitted.events == [] {
      assert before + emitted.events == before;
    } else {
      assert emitted.events == [emitted.events[0]];
      NoRepeatsStep(before, lastValid, emitted.events[0]);
    }
  }

  /** Of the canvases that fences open, none repeats the payload its tab was last opened with, and
      `lastValid` is exactly what they opened last. What tools open is not seen here. */
  lemma {:induction false} NeverRepeats(normalize: Normalizer, before: seq<Event>, out: seq<Piece>,
                                        lastValid: map<string, Object>)
    requires NoRepeats(before) && Remembers(lastValid, before)
    ensures var emitted := EmitPieces(normalize, out, lastValid);
      NoRepeats(before + emitted.events) && Remembers(emitted.lastValid, before + emitted.events)
    decreases |out|
  {
    if out == [] {
      assert before + [] == before;
    } else {
      var first := EmitPiece(normalize, out[0], lastValid);
      PieceNeverRepeats(normalize, before, out[0], lastValid);
      NeverRepeats(normalize, before + first.events, out[1..], first.lastValid);
      var rest := EmitPieces(normalize, out[1..], first.lastValid);
      assert before + first.events + rest.events == before + (first.events + rest.events);
    }
  }

  // ----- the interceptor -----

  class Interceptor {
    const normalize: Normalizer
    var buffer: string
    var inside: bool
    var lastValid: map<string, Object>
    var emitted: seq<Event>

    constructor (normalize: Normalizer)
      ensures this.normalize == normalize && buffer == "" && !inside && lastValid == map[] && emitted == []
    {
      this.normalize := normalize;
      buffer, inside, lastValid, emitted := "", false, map[], [];
    }

    function Sent(): Emitted
      reads this
    {
      Emitted(emitted, lastValid)
    }

    // Between two states, exactly `out` was let through.
    twostate predicate Emits(out: seq<Piece>)
      reads this
    {
      Sent() == Advance(normalize, old(Sent()), out)
    }

    // The scanner has got as far as `scan` says.
    twostate predicate Reaches(scan: Scan)
      reads this
    {
      buffer == scan.buffer && inside == scan.inside && Emits(scan.out)
    }

    method EmitCanvasEvent(body: string)
      modifies this`emitted, this`lastValid
      ensures Emits([Fence(body)])
    {
      var normalized := normalize(body);
      AdvanceStep(normalize, Sent(), [Fence(body)]);
      if normalized.Ok? {
        var n := normalized.value;
        var tab := n.meta.TabId();
        if !(tab in lastValid && lastValid[tab] == n.content) {
          lastValid := lastValid[tab := n.content];
          emitted := emitted + [OpenEvent(n)];
        }
      }
    }

    method EmitText(text: string)
      modifies this`emitted
      ensures Emits([Prose(text)])
    {
      AdvanceStep(normalize, Sent(), [Prose(text)]);
      emitted := emitted + [Text(text)];
    }

    /** HandleToken: the token joins the buffer and whatever is decided is let through. */
    method HandleToken(text: string)
      modifies this
      ensures Reaches(Drain(old(buffer) + text, old(inside)))
      decreases |buffer| + |text|, 2
    {
      buffer := buffer + text;
      if inside {
        LookForClosing();
      } else {
        LookForOpening();
      }
    }

    method LookForClosing()
      requires inside
      modifies this
      ensures Reaches(Drain(old(buffer), true))
      decreases |buffer|, 1
    {
      var buf := buffer;
      var closing := Strings.Index(buf, CLOSING);
      if closing < 0 && Strings.HasSuffix(buf, CLOSING) {
        closing := |buf| - |CLOSING|;
      }
      if closing < 0 {
        assert Drain(buf, true) == Scan([], buf, true);
        return;
      }
      var body := Strings.TrimSpace(buf[..closing]);
      EmitCanvasEvent(body);
      var remaining := buf[closing..];
      var idx := Strings.Index(remaining, "```");
      ClosingTicks(buf, closing, idx);
      remaining := Strings.TrimLineBreaks(remaining[idx + 3..]);
      buffer, inside := "", false;
      ghost var rest := DrainClosing(buf, closing, remaining);
      AdvanceAppend(normalize, old(Sent()), [Fence(body)], rest.out);
      if remaining != "" {
        assert "" + remaining == remaining;
        HandleToken(remaining);
      }
    }

    method LookForOpening()
      requires !inside
      modifies this
      ensures Reaches(Drain(old(buffer), false))
      decreases |buffer|, 1
    {
      for k := 0 to |KINDS|
        invariant forall j :: 0 <= j < k ==> Strings.Index(buffer, Opening(KINDS[j])) < 0
        invariant unchanged(this)
      {
        var idx := Strings.Index(buffer, Opening(KINDS[k]));
        if idx >= 0 {
          assert KINDS[0] == ObjectDetail && KINDS[1] == Dashboard;
          assert FindOpening(buffer) == Some((KINDS[k], idx));
          Open(KINDS[k], idx);
          return;
        }
      }
      assert KINDS[0] == ObjectDetail && KINDS[1] == Dashboard;
      assert FindOpening(buffer).None?;
      LetThrough();
    }

    method EmitProse(text: string)
      modifies this`emitted
      ensures Emits(ProseIfAny(text))
    {
      if text != "" {
        EmitText(text);
      }
    }

    // No opening in the buffer: hold it if it may end in one, else let it all through.
    method LetThrough()
      requires !inside && FindOpening(buffer).None?
      modifies this
      ensures Reaches(Drain(old(buffer), false))
    {
      DrainNoOpening(buffer);
      var held := CanvasPartialMatch(buffer);
      if !held {
        EmitText(buffer);
        buffer := "";
      }
    }

    // The prose before the opening comes out; the rest of the opening line is skipped.
    method Open(kind: FenceKind, idx: nat)
      requires !inside && FindOpening(buffer) == Some((kind, idx))
      modifies this
      ensures Reaches(Drain(old(buffer), false))
      decreases |buffer|, 0
    {
      var before, after := buffer[..idx], AfterLine(buffer[idx + |Opening(kind)|..]);
      ghost var rest := DrainOpening(buffer, kind, idx, after);
      AfterLineShorter(buffer, kind, idx);
      AdvanceAppend(normalize, Sent(), ProseIfAny(before), rest.out);
      EmitProse(before);
      buffer, inside := after, true;
      assert after + "" == after;
      HandleToken("");
    }

    /** Flush: held prose comes out; an unfinished fence is dropped. */
    method Flush()
      modifies this
      ensures buffer == "" && !inside && Emits(FlushPieces(old(buffer), old(inside)))
    {
      if buffer == "" {
        inside := false;
        return;
      }
      if !inside {
        EmitText(buffer);
      }
      buffer, inside := "", false;
    }
  }

  /** An answer as it is streamed: every token, then the final flush. */
  method Stream(interceptor: Interceptor, tokens: seq<string>)
    modifies interceptor
    ensures interceptor.Emits(Intercept(tokens, old(interceptor.buffer), old(interceptor.inside)))
    ensures interceptor.buffer == "" && !interceptor.inside
    decreases |tokens|
  {
    if tokens == [] {
      interceptor.Flush();
    } else {
      ghost var scan := Drain(interceptor.buffer + tokens[0], interceptor.inside);
      ghost var later := Intercept(tokens[1..], scan.buffer, scan.inside);
      AdvanceAppend(interceptor.normalize, interceptor.Sent(), scan.out, later);
      interceptor.HandleToken(tokens[0]);
      Stream(interceptor, tokens[1..]);
    }
  }

  // A dashboard fence with an empty object.
  const ONE_FENCE := "```canvas-dashboard\n{}\n```"

  lemma FindsOneFence()
    ensures FindOpening(ONE_FENCE) == Some((Dashboard, 0))
  {
    assert ONE_FENCE[0..19] == Opening(Dashboard);
    assert Strings.OccursAt(ONE_FENCE, Opening(Dashboard), 0);
    forall i | Strings.OccursAt(ONE_FENCE, Opening(ObjectDetail), i) ensures false {
      Strings.OccursChar(ONE_FENCE, Opening(ObjectDetail), i, if i == 0 then 10 else 3 - i);
    }
  }

  lemma ClosesOneFence()
    ensures DrainInside("{}\n```") == Scan([Fence("{}")], "", false)
  {
    var buf := "{}\n```";
    assert buf[2..6] == CLOSING && Strings.OccursAt(buf, CLOSING, 2);
    forall i | Strings.OccursAt(buf, CLOSING, i) && i < 2 ensures false {
      Strings.OccursChar(buf, CLOSING, i, 0);
    }
    assert buf[..2] == "{}" && buf[6..] == "";
    assert Strings.TrimSpace("{}") == "{}";
  }

  /** It is let through as one fence and nothing else. */
  lemma DrainsOneFence()
    ensures Drain(ONE_FENCE, false) == Scan([Fence("{}")], "", false)
  {
    FindsOneFence();
    ClosesOneFence();
    var rest := ONE_FENCE[19..];
    assert Strings.OccursAt(rest, "\n", 0);
    assert rest[1..] == "{}\n```" && ONE_FENCE[..0] == "";
  }

  /** A closing at the end of the buffer is an occurrence, so the search for one has found it: the extra
      look at the end of the buffer never finds anything. */
  lemma SuffixIsFound(buf: string)
    ensures Strings.HasSuffix(buf, CLOSING) ==> 0 <= Strings.Index(buf, CLOSING) <= |buf| - |CLOSING|
  {
  }

  // The backticks of a closing come right after its line break.
  lemma ClosingTicks(buf: string, closing: nat, idx: int)
    requires Strings.OccursAt(buf, CLOSING, closing) && idx == Strings.Index(buf[closing..], "```")
    ensures idx == 1 && buf[closing..][idx + 3..] == buf[closing + |CLOSING|..]
  {
    ClosingFacts();
    var remaining := buf[closing..];
    assert remaining[..4] == CLOSING;
    assert remaining[1..4] == CLOSING[1..];
    assert Strings.OccursAt(remaining, "```", 1);
    assert remaining[0] == '\n';
    assert !Strings.OccursAt(remaining, "```", 0);
  }
}
