/** agent/handoff.go and agent/canvas.go, lines 200-387: renderer metadata embedded in a fence, and
    the parser that validates and strips it again. */
module TerminalRender {
  import Strings
  import opened JsonTree
  import opened AgentEvents
  import CanvasPanel
  import CanvasPayload
  import CanvasContent

  // ----- the JSON library -----

  datatype Codec = Codec(decode: string -> Option<Json>, encode: Json -> string)

  // What is printed for `j` has no white space around it and parses to `j` again.
  predicate Inverts(c: Codec, j: Json) {
    var text := c.encode(j);
    c.decode(text) == Some(j) && text != "" && !Strings.IsSpace(text[0]) && !Strings.IsSpace(text[|text| - 1])
  }

  // ----- transcript copy -----

  const MAX_HEADING := 160
  const MAX_ACTION := 80

  predicate IsControl(c: char) {
    c < ' ' || '\U{007F}' <= c <= '\U{009F}'
  }

  predicate ValidText(text: string, max: nat) {
    0 < |text| <= max && forall c :: c in text ==> !IsControl(c)
  }

  /** normalizedCanvasHandoff: trimmed copy of a known kind, or nothing. */
  function NormalizedHandoff(h: Handoff): Option<Handoff> {
    var trimmed := Handoff(h.kind, Strings.TrimSpace(h.heading), Strings.TrimSpace(h.actionLabel));
    if (h.kind.Form? || h.kind.Results?)
      && ValidText(trimmed.heading, MAX_HEADING) && ValidText(trimmed.actionLabel, MAX_ACTION)
    then Some(trimmed) else None
  }

  lemma HandoffIdempotent(h: Handoff)
    requires NormalizedHandoff(h).Some?
    ensures NormalizedHandoff(NormalizedHandoff(h).value) == NormalizedHandoff(h)
  {
    Strings.TrimSpaceIdempotent(h.heading);
    Strings.TrimSpaceIdempotent(h.actionLabel);
  }

  // ----- the metadata as JSON -----

  const METADATA_KEY := "_terminal_render"

  datatype Metadata = Metadata(presentation: string, handoff: Option<Handoff>)

  function KindName(kind: HandoffKind): string {
    match kind
    case Form => "form"
    case Results => "results"
    case OtherKind(name) => name
  }

  function KindNamed(name: string): HandoffKind {
    if name == "form" then Form else if name == "results" then Results else OtherKind(name)
  }

  function HandoffJson(h: Handoff): Json {
    Obj(map["kind" := Str(KindName(h.kind)), "heading" := Str(h.heading), "action_label" := Str(h.actionLabel)])
  }

  function MetadataJson(m: Metadata): Json {
    var presentation := map["presentation" := Str(m.presentation)];
    Obj(if m.handoff.Some? then presentation["handoff" := HandoffJson(m.handoff.value)] else presentation)
  }

  // A string field of a Go struct: absent or null leaves it empty, other types fail.
  function StringField(o: Object, key: string): Option<string> {
    if key !in o || o[key] == Null then Some("")
    else if o[key].Str? then Some(o[key].s) else None
  }

  function DecodeHandoff(o: Object): Option<Handoff> {
    match (StringField(o, "kind"), StringField(o, "heading"), StringField(o, "action_label"))
    case (Some(kind), Some(heading), Some(action)) => Some(Handoff(KindNamed(kind), heading, action))
    case _ => None
  }

  datatype Decoded<T> = Absent | Present(value: T) | Mistyped

  function DecodeHandoffField(o: Object): Decoded<Handoff> {
    if !HasNonNull(o, "handoff") then Absent
    else if !o["handoff"].Obj? then Mistyped
    else match DecodeHandoff(o["handoff"].fields)
      case Some(h) => Present(h)
      case None => Mistyped
  }

  function DecodeMetadata(content: Object): Decoded<Metadata> {
    if !HasNonNull(content, METADATA_KEY) then Absent
    else if !content[METADATA_KEY].Obj? then Mistyped
    else
      var o := content[METADATA_KEY].fields;
      match (StringField(o, "presentation"), DecodeHandoffField(o))
      case (Some(presentation), Absent) => Present(Metadata(presentation, None))
      case (Some(presentation), Present(h)) => Present(Metadata(presentation, Some(h)))
      case _ => Mistyped
  }

  lemma MetadataRoundTrip(m: Metadata, content: Object)
    requires m.handoff.Some? ==> m.handoff.value.kind == KindNamed(KindName(m.handoff.value.kind))
    ensures DecodeMetadata(content[METADATA_KEY := MetadataJson(m)]) == Present(m)
  {
    var o := MetadataJson(m).fields;
    assert StringField(o, "presentation") == Some(m.presentation);
    if m.handoff.Some? {
      assert o["handoff"] == HandoffJson(m.handoff.value);
      var h := HandoffJson(m.handoff.value).fields;
      assert StringField(h, "kind") == Some(KindName(m.handoff.value.kind));
      assert StringField(h, "heading") == Some(m.handoff.value.heading);
      assert StringField(h, "action_label") == Some(m.handoff.value.actionLabel);
    } else {
      assert "handoff" !in o;
    }
  }

  // ----- fences -----

  const CLOSING := "\n```"
  const CANVAS_PREFIXES := ["```canvas-object-detail", "```canvas-dashboard"]
  const INLINE_PREFIXES := ["```object-detail", "```dashboard"]

  // A complete fence, no fence of these kinds, or one whose opening and closing share a line break:
  // slicing its body fails at run time.
  datatype Fence = NoFence | Overlapping | Complete(opening: string, raw: string)

  function FindFence(trimmed: string, prefixes: seq<string>): Fence {
    if prefixes == [] then NoFence
    else
      var opening := prefixes[0] + "\n";
      if !Strings.HasPrefix(trimmed, opening) || !Strings.HasSuffix(trimmed, CLOSING) then
        FindFence(trimmed, prefixes[1..])
      else if |trimmed| < |opening| + |CLOSING| then Overlapping
      else Complete(opening, Strings.TrimSpace(trimmed[|opening|..|trimmed| - |CLOSING|]))
  }

  // Panicked: the Go code stops with a run-time error.
  datatype Outcome<T> = Returned(value: T) | Panicked

  /** embedTerminalRenderMetadata. Assigning into the nil map that `null` decodes to panics. */
  function Embed(c: Codec, result: string, m: Metadata, prefixes: seq<string>): Outcome<string> {
    match FindFence(Strings.TrimSpace(result), prefixes)
    case NoFence => Returned(result)
    case Overlapping => Panicked
    case Complete(opening, raw) =>
      match c.decode(raw)
      case Some(Obj(payload)) => Returned(opening + c.encode(Obj(payload[METADATA_KEY := MetadataJson(m)])) + CLOSING)
      case Some(Null) => Panicked
      case _ => Returned(result)
  }

  /** WithCanvasHandoff on a successful renderer result. */
  function EmbedHandoff(c: Codec, result: string, h: Handoff): Outcome<string> {
    match NormalizedHandoff(h)
    case None => Returned(result)
    case Some(_) => Embed(c, result, HandoffMetadata(h), CANVAS_PREFIXES)
  }

  function HandoffMetadata(h: Handoff): Metadata
    requires NormalizedHandoff(h).Some?
  {
    Metadata("canvas", NormalizedHandoff(h))
  }

  const INLINE_METADATA := Metadata("inline", None)

  /** WithInlineRenderCompletion on a successful renderer result. */
  function EmbedInline(c: Codec, result: string): Outcome<string> {
    Embed(c, result, INLINE_METADATA, INLINE_PREFIXES)
  }

  // ----- parsing -----

  datatype Parsed = Parsed(normalized: CanvasPayload.Normalized, metadata: Option<Metadata>, clean: string)

  // The envelope's `close` flag: a boolean, null or absent.
  function DecodeClose(content: Object): Option<bool> {
    if !HasNonNull(content, "close") then Some(false)
    else if content["close"].Bool? then Some(content["close"].b) else None
  }

  // What parseCompleteRenderResult does with a decoded body.
  function ParseBody(c: Codec, opening: string, body: Option<Json>, presentation: string): Option<Parsed> {
    match CanvasPayload.NormalizeJson(body)
    case Rejected(_) => None
    case Ok(first) =>
      match (DecodeClose(first.content), DecodeMetadata(first.content))
      case (Some(false), Absent) =>
        Some(Parsed(first, None, opening + c.encode(Obj(first.content)) + CLOSING))
      case (Some(false), Present(m)) =>
        (match CanvasPayload.Normalize(first.content - {METADATA_KEY})
         case Rejected(_) => None
         case Ok(second) =>
           if m.presentation != presentation then None
           else Some(Parsed(second, Some(m), opening + c.encode(Obj(second.content)) + CLOSING)))
      case _ => None
  }

  function ParseComplete(c: Codec, result: string, prefixes: seq<string>, presentation: string):
      Outcome<Option<Parsed>>
  {
    match FindFence(Strings.TrimSpace(result), prefixes)
    case NoFence => Returned(None)
    case Overlapping => Panicked
    case Complete(opening, raw) => Returned(ParseBody(c, opening, c.decode(raw), presentation))
  }

  predicate KeepsPromise(kind: HandoffKind, content: Object) {
    match kind
    case Form => CanvasContent.Interactive(content)
    case Results => CanvasContent.ShowsResult(content)
    case OtherKind(_) => false
  }

  datatype Terminal = Terminal(clean: string, canvas: Option<Canvas>)

  function CanvasOf(n: CanvasPayload.Normalized, h: Handoff): Canvas {
    Canvas(n.meta.TabId(), n.meta.title, n.meta.kind, n.meta.qualifier, n.content, false, Some(h))
  }

  function CanvasTerminal(p: Parsed): Option<Terminal>
    requires p.metadata.Some?
  {
    match p.metadata.value.handoff
    case None => None
    case Some(given) =>
      match NormalizedHandoff(given)
      case None => None
      case Some(h) =>
        if KeepsPromise(h.kind, p.normalized.content)
        then Some(Terminal(p.clean, Some(CanvasOf(p.normalized, h)))) else None
  }

  function ParseInline(c: Codec, result: string): Outcome<Option<Terminal>> {
    match ParseComplete(c, result, INLINE_PREFIXES, "inline")
    case Panicked => Panicked
    case Returned(None) => Returned(None)
    case Returned(Some(p)) =>
      if p.metadata.Some? && p.metadata.value.presentation == "inline" && p.metadata.value.handoff.None?
        && CanvasContent.ShowsResult(p.normalized.content)
      then Returned(Some(Terminal(p.clean, None))) else Returned(None)
  }

  /** ParseTerminalRenderResult. */
  function ParseTerminal(c: Codec, result: string): Outcome<Option<Terminal>> {
    match ParseComplete(c, result, CANVAS_PREFIXES, "canvas")
    case Panicked => Panicked
    case Returned(None) => ParseInline(c, result)
    case Returned(Some(p)) =>
      if p.metadata.Some? && p.metadata.value.presentation == "canvas" then Returned(CanvasTerminal(p))
      else ParseInline(c, result)
  }

  // ----- the metadata key is invisible to normalisation -----

  lemma RecordsIgnoreKey(o: Object, key: string, normal: Object -> Object)
    requires key != METADATA_KEY
    ensures CanvasPayload.MapRecords(o - {METADATA_KEY}, key, normal)
      == CanvasPayload.MapRecords(o, key, normal) - {METADATA_KEY}
  {
    if HasArr(o, key) {
      assert CanvasPayload.MapRecords(o - {METADATA_KEY}, key, normal)[key]
        == CanvasPayload.MapRecords(o, key, normal)[key];
    }
  }

  lemma RootFormIgnoresKey(o: Object)
    ensures CanvasPayload.RootNormalForm(o - {METADATA_KEY}) == CanvasPayload.RootNormalForm(o) - {METADATA_KEY}
  {
    RecordsIgnoreKey(o, "panels", CanvasPanel.NormalForm);
    RecordsIgnoreKey(o, "sections", CanvasPayload.SectionNormalForm);
  }

  lemma SchemaIgnoresKey(o: Object)
    ensures CanvasPayload.MetaOf(o - {METADATA_KEY}) == CanvasPayload.MetaOf(o)
    ensures CanvasPayload.RootSchema(o - {METADATA_KEY}) <==> CanvasPayload.RootSchema(o)
  {
  }

  // Normalising with the key and stripping it is normalising without the key.
  lemma StripAfterNormalizing(o: Object)
    ensures CanvasPayload.Normalize(o).Ok? <==> CanvasPayload.Normalize(o - {METADATA_KEY}).Ok?
    ensures CanvasPayload.Normalize(o).Ok? ==>
      CanvasPayload.Normalize(CanvasPayload.Normalize(o).value.content - {METADATA_KEY})
        == CanvasPayload.Normalize(o - {METADATA_KEY})
  {
    var full := CanvasPayload.RootNormalForm(o);
    CanvasPayload.Accepted(o);
    CanvasPayload.Accepted(o - {METADATA_KEY});
    RootFormIgnoresKey(o);
    RootFormIgnoresKey(full);
    SchemaIgnoresKey(o);
    SchemaIgnoresKey(full);
    if CanvasPayload.Normalize(o - {METADATA_KEY}).Ok? {
      CanvasPayload.NormalizeIdempotent(o - {METADATA_KEY});
    }
  }

  // ----- finding the fence that was written -----

  ghost predicate Clash(a: string, b: string) {
    exists k: nat :: k < |a| && k < |b| && a[k] != b[k]
  }

  lemma PrefixesClash(a: string, b: string)
    requires a in CANVAS_PREFIXES + INLINE_PREFIXES && b in CANVAS_PREFIXES + INLINE_PREFIXES && a != b
    ensures Clash(a, b)
  {
    var list := CANVAS_PREFIXES + INLINE_PREFIXES;
    assert list == ["```canvas-object-detail", "```canvas-dashboard", "```object-detail", "```dashboard"];
    assert a[3] != b[3] || a[10] != b[10];
  }

  // Four backticked names without white space or line breaks.
  lemma PrefixFacts(prefix: string)
    requires prefix in CANVAS_PREFIXES + INLINE_PREFIXES
    ensures |prefix| >= 12 && prefix[0] == '`' && '\n' !in prefix
  {
    var list := CANVAS_PREFIXES + INLINE_PREFIXES;
    assert list == ["```canvas-object-detail", "```canvas-dashboard", "```object-detail", "```dashboard"];
  }

  lemma ClashingPrefixMissed(a: string, b: string, rest: string)
    requires Clash(a, b)
    ensures !Strings.HasPrefix(b + "\n" + rest, a + "\n")
  {
    var k: nat :| k < |a| && k < |b| && a[k] != b[k];
    Strings.Mismatch(b + "\n" + rest, a + "\n", 0, k);
  }

  // A fence written for a prefix is found under that prefix alone.
  lemma {:induction false} FindsOwnFence(prefix: string, text: string, prefixes: seq<string>)
    requires prefix in CANVAS_PREFIXES + INLINE_PREFIXES
    requires forall p :: p in prefixes ==> p in CANVAS_PREFIXES + INLINE_PREFIXES
    ensures FindFence(prefix + "\n" + text + CLOSING, prefixes)
      == if prefix in prefixes then Complete(prefix + "\n", Strings.TrimSpace(text)) else NoFence
  {
    if prefixes != [] {
      var trimmed := prefix + "\n" + text + CLOSING;
      if prefixes[0] == prefix {
        var opening := prefix + "\n";
        assert trimmed[..|opening|] == opening;
        assert trimmed[|trimmed| - |CLOSING|..] == CLOSING;
        assert trimmed[|opening|..|trimmed| - |CLOSING|] == text;
      } else {
        PrefixesClash(prefixes[0], prefix);
        ClashingPrefixMissed(prefixes[0], prefix, text + CLOSING);
        assert trimmed == prefix + "\n" + (text + CLOSING);
        FindsOwnFence(prefix, text, prefixes[1..]);
      }
    }
  }

  lemma OpeningFound(trimmed: string, prefixes: seq<string>) returns (prefix: string)
    requires FindFence(trimmed, prefixes).Complete?
    ensures prefix in prefixes && FindFence(trimmed, prefixes).opening == prefix + "\n"
  {
    var opening := prefixes[0] + "\n";
    if !Strings.HasPrefix(trimmed, opening) || !Strings.HasSuffix(trimmed, CLOSING) {
      prefix := OpeningFound(trimmed, prefixes[1..]);
    } else {
      prefix := prefixes[0];
    }
  }

  lemma NoSpaceAround(text: string)
    requires text != "" && !Strings.IsSpace(text[0]) && !Strings.IsSpace(text[|text| - 1])
    ensures Strings.TrimSpace(text) == text
  {
  }

  lemma FindsWritten(c: Codec, prefix: string, j: Json, prefixes: seq<string>)
    requires Inverts(c, j) && prefix in CANVAS_PREFIXES + INLINE_PREFIXES
    requires prefixes == CANVAS_PREFIXES || prefixes == INLINE_PREFIXES
    ensures FindFence(Strings.TrimSpace(prefix + "\n" + c.encode(j) + CLOSING), prefixes)
      == if prefix in prefixes then Complete(prefix + "\n", c.encode(j)) else NoFence
  {
    PrefixFacts(prefix);
    var text := c.encode(j);
    NoSpaceAround(text);
    NoSpaceAround(prefix + "\n" + text + CLOSING);
    FindsOwnFence(prefix, text, prefixes);
  }

  // ----- round trips -----

  // The fenced object once the metadata is embedded: all that is ever printed and parsed again.
  function Embedded(payload: Object, m: Metadata): Json {
    Obj(payload[METADATA_KEY := MetadataJson(m)])
  }

  // The payload as the parser reports it: normalised, without the metadata, unless it is a close
  // directive or does not validate.
  function Delivered(payload: Object): Option<CanvasPayload.Normalized> {
    match CanvasPayload.Normalize(payload - {METADATA_KEY})
    case Rejected(_) => None
    case Ok(n) => if DecodeClose(payload) == Some(false) then Some(n) else None
  }

  lemma KeysSurvive(o: Object)
    ensures var full := CanvasPayload.RootNormalForm(o);
      DecodeClose(full) == DecodeClose(o) && DecodeMetadata(full) == DecodeMetadata(o)
  {
  }

  // Normalising the marked payload, reading the metadata back and normalising without it.
  lemma NormalizesMarked(payload: Object, m: Metadata)
    requires m.handoff.Some? ==> m.handoff.value.kind == KindNamed(KindName(m.handoff.value.kind))
    ensures var first := CanvasPayload.Normalize(payload[METADATA_KEY := MetadataJson(m)]);
      && (first.Ok? <==> CanvasPayload.Normalize(payload - {METADATA_KEY}).Ok?)
      && (first.Ok? ==>
        && DecodeClose(first.value.content) == DecodeClose(payload)
        && DecodeMetadata(first.value.content) == Present(m)
        && CanvasPayload.Normalize(first.value.content - {METADATA_KEY})
           == CanvasPayload.Normalize(payload - {METADATA_KEY}))
  {
    var marked := payload[METADATA_KEY := MetadataJson(m)];
    assert marked - {METADATA_KEY} == payload - {METADATA_KEY};
    StripAfterNormalizing(marked);
    CanvasPayload.Accepted(marked);
    KeysSurvive(marked);
    MetadataRoundTrip(m, payload);
    assert DecodeClose(marked) == DecodeClose(payload);
  }

  lemma ParsesWritten(c: Codec, prefix: string, payload: Object, m: Metadata)
    requires Inverts(c, Embedded(payload, m))
    requires m.handoff.Some? ==> m.handoff.value.kind == KindNamed(KindName(m.handoff.value.kind))
    ensures var written := c.encode(Embedded(payload, m));
      ParseBody(c, prefix + "\n", c.decode(written), m.presentation) ==
        match Delivered(payload)
        case None => None
        case Some(n) => Some(Parsed(n, Some(m), prefix + "\n" + c.encode(Obj(n.content)) + CLOSING))
  {
    NormalizesMarked(payload, m);
  }

  lemma KindsApart(prefix: string)
    requires prefix in CANVAS_PREFIXES
    ensures prefix !in INLINE_PREFIXES
  {
    assert prefix[3] == 'c';
    assert INLINE_PREFIXES[0][3] == 'o' && INLINE_PREFIXES[1][3] == 'd';
  }

  function Marked(c: Codec, prefix: string, payload: Object, m: Metadata): string {
    prefix + "\n" + c.encode(Embedded(payload, m)) + CLOSING
  }

  function CleanFence(c: Codec, prefix: string, n: CanvasPayload.Normalized): string {
    prefix + "\n" + c.encode(Obj(n.content)) + CLOSING
  }

  // Parsing a marked fence under the list it was written for, and under the other list.
  lemma ParsesMarked(c: Codec, prefix: string, payload: Object, m: Metadata, prefixes: seq<string>)
    requires Inverts(c, Embedded(payload, m)) && prefix in CANVAS_PREFIXES + INLINE_PREFIXES
    requires prefixes == CANVAS_PREFIXES || prefixes == INLINE_PREFIXES
    requires m.handoff.Some? ==> m.handoff.value.kind == KindNamed(KindName(m.handoff.value.kind))
    ensures ParseComplete(c, Marked(c, prefix, payload, m), prefixes, m.presentation) ==
      Returned(if prefix !in prefixes || Delivered(payload).None? then None
               else Some(Parsed(Delivered(payload).value, Some(m), CleanFence(c, prefix, Delivered(payload).value))))
  {
    FindsWritten(c, prefix, Embedded(payload, m), prefixes);
    ParsesWritten(c, prefix, payload, m);
  }

  lemma InlineParserIgnoresCanvas(c: Codec, prefix: string, payload: Object, m: Metadata)
    requires Inverts(c, Embedded(payload, m)) && prefix in CANVAS_PREFIXES
    ensures ParseInline(c, Marked(c, prefix, payload, m)) == Returned(None)
  {
    KindsApart(prefix);
    FindsWritten(c, prefix, Embedded(payload, m), INLINE_PREFIXES);
  }

  lemma DeliveredIsClean(payload: Object)
    ensures Delivered(payload).Some? ==> METADATA_KEY !in Delivered(payload).value.content
  {
    CanvasPayload.Accepted(payload - {METADATA_KEY});
  }

  /** Whatever is to be printed and however the fenced payload was written, some codec prints the one
      so that it parses again and parses the other. */
  lemma SomeCodecInverts(j: Json, raw: string, payload: Object) returns (c: Codec)
    ensures Inverts(c, j) && c.decode(raw) == Some(Obj(payload))
  {
    var text := "{" + raw + "}";
    c := Codec((read: string) => if |read| == |raw| then Some(Obj(payload)) else Some(j), (_: Json) => text);
  }

  /** Embedding a valid handoff into a fenced payload and parsing the result delivers the payload,
      normalised and without the metadata key, with the trimmed handoff: exactly when the payload
      validates, is no close directive and holds what the kind of handoff promises. */
  lemma HandoffRoundTrip(c: Codec, result: string, h: Handoff, raw: string, payload: Object, prefix: string)
    requires NormalizedHandoff(h).Some? && prefix in CANVAS_PREFIXES
    requires Inverts(c, Embedded(payload, HandoffMetadata(h)))
    requires FindFence(Strings.TrimSpace(result), CANVAS_PREFIXES) == Complete(prefix + "\n", raw)
    requires c.decode(raw) == Some(Obj(payload))
    ensures EmbedHandoff(c, result, h).Returned?
    ensures var copy := NormalizedHandoff(h).value;
      ParseTerminal(c, EmbedHandoff(c, result, h).value) ==
        match Delivered(payload)
        case None => Returned(None)
        case Some(n) =>
          if KeepsPromise(copy.kind, n.content)
          then Returned(Some(Terminal(CleanFence(c, prefix, n), Some(CanvasOf(n, copy)))))
          else Returned(None)
    ensures Delivered(payload).Some? ==> METADATA_KEY !in Delivered(payload).value.content
  {
    var m := HandoffMetadata(h);
    assert EmbedHandoff(c, result, h) == Returned(Marked(c, prefix, payload, m));
    HandoffIdempotent(h);
    ParsesMarked(c, prefix, payload, m, CANVAS_PREFIXES);
    InlineParserIgnoresCanvas(c, prefix, payload, m);
    DeliveredIsClean(payload);
  }

  /** The same for inline completions: they deliver no canvas, only the clean fence, exactly when the
      payload shows a result. */
  lemma InlineRoundTrip(c: Codec, result: string, raw: string, payload: Object, prefix: string)
    requires Inverts(c, Embedded(payload, INLINE_METADATA)) && prefix in INLINE_PREFIXES
    requires FindFence(Strings.TrimSpace(result), INLINE_PREFIXES) == Complete(prefix + "\n", raw)
    requires c.decode(raw) == Some(Obj(payload))
    ensures EmbedInline(c, result).Returned?
    ensures ParseTerminal(c, EmbedInline(c, result).value) ==
      match Delivered(payload)
      case None => Returned(None)
      case Some(n) =>
        if CanvasContent.ShowsResult(n.content) then Returned(Some(Terminal(CleanFence(c, prefix, n), None)))
        else Returned(None)
  {
    var m := INLINE_METADATA;
    assert EmbedInline(c, result) == Returned(Marked(c, prefix, payload, m));
    assert prefix !in CANVAS_PREFIXES by {
      assert CANVAS_PREFIXES[0][3] == CANVAS_PREFIXES[1][3] == 'c' && prefix[3] != 'c';
    }
    FindsWritten(c, prefix, Embedded(payload, m), CANVAS_PREFIXES);
    ParsesMarked(c, prefix, payload, m, INLINE_PREFIXES);
  }

  // ----- when the slicing of the body fails -----

  lemma OverlapIs(trimmed: string, prefix: string)
    requires prefix in CANVAS_PREFIXES + INLINE_PREFIXES
    requires Strings.HasPrefix(trimmed, prefix + "\n") && Strings.HasSuffix(trimmed, CLOSING)
    requires |trimmed| < |prefix + "\n"| + |CLOSING|
    ensures trimmed == prefix + CLOSING
  {
    PrefixFacts(prefix);
    var opening, n := prefix + "\n", |trimmed| - |CLOSING|;
    assert opening[|prefix|] == CLOSING[0] == '\n';
    Strings.OccursChar(trimmed, CLOSING, n, 0);
    Strings.OccursChar(trimmed, opening, 0, n);
    assert n == |prefix|;
    assert trimmed[..n] == opening[..n] == prefix;
    assert trimmed == trimmed[..n] + trimmed[n..n + |CLOSING|];
  }

  lemma OverlapOf(trimmed: string, prefix: string)
    requires prefix in CANVAS_PREFIXES + INLINE_PREFIXES
    ensures Strings.HasPrefix(trimmed, prefix + "\n") && Strings.HasSuffix(trimmed, CLOSING)
            && |trimmed| < |prefix + "\n"| + |CLOSING|
      <==> trimmed == prefix + CLOSING
  {
    var opening := prefix + "\n";
    if Strings.HasPrefix(trimmed, opening) && Strings.HasSuffix(trimmed, CLOSING) && |trimmed| < |opening| + |CLOSING| {
      OverlapIs(trimmed, prefix);
    }
    if trimmed == prefix + CLOSING {
      assert trimmed == opening + "```";
      assert trimmed[0..|opening|] == opening;
      assert trimmed[|trimmed| - |CLOSING|..|trimmed|] == CLOSING;
    }
  }

  lemma {:induction false} OverlapFound(trimmed: string, prefixes: seq<string>)
    requires forall p :: p in prefixes ==> p in CANVAS_PREFIXES + INLINE_PREFIXES
    ensures FindFence(trimmed, prefixes).Overlapping? <==> exists p :: p in prefixes && trimmed == p + CLOSING
  {
    if prefixes != [] {
      var first := prefixes[0];
      OverlapOf(trimmed, first);
      OverlapFound(trimmed, prefixes[1..]);
      forall p | p in prefixes && p != first && trimmed == p + CLOSING
        ensures !Strings.HasPrefix(trimmed, first + "\n")
      {
        PrefixesClash(first, p);
        ClashingPrefixMissed(first, p, "```");
        assert trimmed == p + "\n" + "```";
      }
    }
  }

  /** The parser returns on every tool result except one shape: an opening whose line break is also
      that of the closing. On those, and only those, slicing the body is out of range. */
  lemma ParseReturns(c: Codec, result: string)
    ensures ParseTerminal(c, result).Panicked? <==>
      exists p :: p in CANVAS_PREFIXES + INLINE_PREFIXES && Strings.TrimSpace(result) == p + CLOSING
  {
    var trimmed := Strings.TrimSpace(result);
    OverlapFound(trimmed, CANVAS_PREFIXES);
    OverlapFound(trimmed, INLINE_PREFIXES);
    if FindFence(trimmed, CANVAS_PREFIXES).Complete? {
      NoInlineOverlap(trimmed);
    }
  }

  lemma NoInlineOverlap(trimmed: string)
    requires FindFence(trimmed, CANVAS_PREFIXES).Complete?
    ensures forall p :: p in INLINE_PREFIXES ==> trimmed != p + CLOSING
  {
    var found := OpeningFound(trimmed, CANVAS_PREFIXES);
    CompleteIsPrefixed(trimmed, CANVAS_PREFIXES);
    forall p | p in INLINE_PREFIXES ensures trimmed != p + CLOSING {
      KindsApart(found);
      PrefixesClash(found, p);
      ClashingPrefixMissed(found, p, "```");
      assert p + CLOSING == p + "\n" + "```";
    }
  }

  /** Embedding fails to return exactly when the fence overlaps or its body is the JSON `null`. What is
      not a fenced object is returned as it is; an object is returned with the metadata added. */
  lemma EmbedReturns(c: Codec, result: string, m: Metadata, prefixes: seq<string>)
    requires prefixes == CANVAS_PREFIXES || prefixes == INLINE_PREFIXES
    ensures var fence, embedded := FindFence(Strings.TrimSpace(result), prefixes), Embed(c, result, m, prefixes);
      var body := if fence.Complete? then c.decode(fence.raw) else None;
      && (embedded.Panicked? <==>
          (exists p :: p in prefixes && Strings.TrimSpace(result) == p + CLOSING) || body == Some(Null))
      && (embedded.Returned? && (body.None? || !body.value.Obj?) ==> embedded.value == result)
      && (body.Some? && body.value.Obj? ==>
          exists p :: p in prefixes && embedded == Returned(Marked(c, p, body.value.fields, m)))
  {
    var trimmed := Strings.TrimSpace(result);
    OverlapFound(trimmed, prefixes);
    if FindFence(trimmed, prefixes).Complete? {
      var p := OpeningFound(trimmed, prefixes);
    }
  }

  /** The same for the two wrappers; an invalid handoff marks nothing. */
  lemma WrappersReturn(c: Codec, result: string, h: Handoff)
    ensures NormalizedHandoff(h).None? ==> EmbedHandoff(c, result, h) == Returned(result)
    ensures EmbedHandoff(c, result, h).Panicked? <==>
      NormalizedHandoff(h).Some? && CannotEmbed(c, result, CANVAS_PREFIXES)
    ensures EmbedInline(c, result).Panicked? <==> CannotEmbed(c, result, INLINE_PREFIXES)
  {
    if NormalizedHandoff(h).Some? {
      EmbedReturns(c, result, HandoffMetadata(h), CANVAS_PREFIXES);
    }
    EmbedReturns(c, result, INLINE_METADATA, INLINE_PREFIXES);
  }

  // Opening and closing share their line break, or the fenced text is the JSON `null`.
  ghost predicate CannotEmbed(c: Codec, result: string, prefixes: seq<string>) {
    var trimmed := Strings.TrimSpace(result);
    || (exists p :: p in prefixes && trimmed == p + CLOSING)
    || (FindFence(trimmed, prefixes).Complete? && c.decode(FindFence(trimmed, prefixes).raw) == Some(Null))
  }

  lemma CompleteIsPrefixed(trimmed: string, prefixes: seq<string>)
    requires FindFence(trimmed, prefixes).Complete?
    ensures Strings.HasPrefix(trimmed, FindFence(trimmed, prefixes).opening)
  {
  }

  // ----- what the parts mean -----

  predicate Printable(c: char) {
    (' ' <= c < '\U{007F}') || c > '\U{009F}'
  }

  /** A handoff is valid when its kind is known and heading and label, trimmed, are not empty, are at most 160 and 80
      characters long and hold no control character; its copy has them trimmed. */
  lemma HandoffMeaning(h: Handoff)
    ensures var heading, action := Strings.TrimSpace(h.heading), Strings.TrimSpace(h.actionLabel);
      && (NormalizedHandoff(h).Some? <==>
          && h.kind in {Form, Results}
          && 1 <= |heading| <= 160 && (forall c :: c in heading ==> Printable(c))
          && 1 <= |action| <= 80 && (forall c :: c in action ==> Printable(c)))
      && (NormalizedHandoff(h).Some? ==> NormalizedHandoff(h).value == Handoff(h.kind, heading, action))
  {
  }

  /** A form has to be interactive, results have to show something, and no other kind is kept. */
  lemma PromiseMeaning(content: Object, name: string)
    ensures KeepsPromise(Form, content) == CanvasContent.Interactive(content)
    ensures KeepsPromise(Results, content) == CanvasContent.ShowsResult(content)
    ensures !KeepsPromise(OtherKind(name), content)
    ensures KindNamed("form") == Form && KindNamed("results") == Results
  {
  }

  /** What is delivered: the payload normalised without the metadata key, unless it is rejected or its `close` is
      anything but absent, null or false. */
  lemma DeliveredMeaning(payload: Object)
    ensures var n := CanvasPayload.Normalize(payload - {"_terminal_render"});
      Delivered(payload) ==
        if n.Ok? && ("close" in payload ==> payload["close"] in {Null, Bool(false)}) then Some(n.value) else None
  {
  }

  /** The canvas of a render shows the payload as it is normalised, is not interactive by itself and carries the
      handoff. */
  lemma CanvasMeaning(c: Codec, result: string)
    requires ParseTerminal(c, result).Returned? && ParseTerminal(c, result).value.Some?
    requires ParseTerminal(c, result).value.value.canvas.Some?
    ensures var canvas := ParseTerminal(c, result).value.value.canvas.value;
      var parsed := ParseComplete(c, result, CANVAS_PREFIXES, "canvas");
      && parsed.Returned? && parsed.value.Some? && parsed.value.value.metadata.Some?
      && var n, given := parsed.value.value.normalized, parsed.value.value.metadata.value.handoff;
        && canvas.title == n.meta.title && canvas.kind == n.meta.kind && canvas.qualifier == n.meta.qualifier
        && canvas.content == n.content && canvas.tabId == n.meta.kind + "::" + n.meta.title + "::" + n.meta.qualifier
        && !canvas.terminalInteractive
        && given.Some? && canvas.handoff == NormalizedHandoff(given.value) && canvas.handoff.Some?
        && KeepsPromise(canvas.handoff.value.kind, canvas.content)
  {
  }

  /** How the metadata is written down. */
  lemma WireMeaning(content: Object, kind: string, heading: string, action: string)
    ensures var handoff := Obj(map["kind" := Str(kind), "heading" := Str(heading), "action_label" := Str(action)]);
      DecodeMetadata(content["_terminal_render" := Obj(map["presentation" := Str("canvas"), "handoff" := handoff])])
        == Present(Metadata("canvas", Some(Handoff(KindNamed(kind), heading, action))))
    ensures DecodeMetadata(content["_terminal_render" := Obj(map["presentation" := Str("inline")])])
      == Present(Metadata("inline", None))
    ensures DecodeMetadata(content - {"_terminal_render"}) == Absent
  {
  }
}
