/** agent/agent.go, lines 447-483: the wrapped emit of a run. Text goes through the fence interceptor,
    any other event follows whatever the interceptor held back, and canvases that tools open bypass
    the interceptor's memory. */
module EventChannel {
  import opened JsonTree
  import opened AgentEvents
  import opened CanvasFence

  datatype Channel = Channel(buffer: string, inside: bool, sent: Emitted)

  const START := Channel("", false, Emitted([], map[]))

  // What the interceptor lets through when `e` is passed on.
  ghost function Released(c: Channel, e: Event): seq<Piece> {
    if e.Text? then Drain(c.buffer + e.text, c.inside).out else FlushPieces(c.buffer, c.inside)
  }

  ghost function Passed(n: Normalizer, c: Channel, e: Event): Channel {
    var sent := Advance(n, c.sent, Released(c, e));
    if e.Text? then
      var scan := Drain(c.buffer + e.text, c.inside);
      Channel(scan.buffer, scan.inside, sent)
    else Channel("", false, sent.(events := sent.events + [e]))
  }

  ghost function PassedAll(n: Normalizer, c: Channel, events: seq<Event>): Channel {
    if events == [] then c else Passed(n, PassedAll(n, c, events[..|events| - 1]), events[|events| - 1])
  }

  ghost function Flushed(n: Normalizer, c: Channel): Emitted {
    Advance(n, c.sent, FlushPieces(c.buffer, c.inside))
  }

  /** What the host of a run receives when `raw` is emitted and the run is over. */
  ghost function Heard(n: Normalizer, raw: seq<Event>): seq<Event> {
    Flushed(n, PassedAll(n, START, raw)).events
  }

  lemma PassedSnoc(n: Normalizer, c: Channel, events: seq<Event>, e: Event)
    ensures PassedAll(n, c, events + [e]) == Passed(n, PassedAll(n, c, events), e)
  {
    assert (events + [e])[..|events|] == events;
  }

  // ----- events that do not end a run -----

  predicate Ordinary(e: Event) {
    !e.Done? && !e.Checkpoint?
  }

  ghost predicate Quiet(events: seq<Event>) {
    forall i :: 0 <= i < |events| ==> Ordinary(events[i])
  }

  lemma {:induction false} PiecesQuiet(n: Normalizer, out: seq<Piece>, lastValid: map<string, Object>)
    ensures Quiet(EmitPieces(n, out, lastValid).events)
  {
    if out != [] {
      PiecesQuiet(n, out[1..], EmitPiece(n, out[0], lastValid).lastValid);
    }
  }

  // The interceptor adds no event that ends a run.
  lemma {:induction false} PassedQuiet(n: Normalizer, raw: seq<Event>)
    requires Quiet(raw)
    ensures Quiet(PassedAll(n, START, raw).sent.events)
  {
    if raw != [] {
      var front, e := raw[..|raw| - 1], raw[|raw| - 1];
      PassedQuiet(n, front);
      var c := PassedAll(n, START, front);
      PiecesQuiet(n, Released(c, e), c.sent.lastValid);
    }
  }

  lemma HeardQuiet(n: Normalizer, raw: seq<Event>)
    requires Quiet(raw)
    ensures Quiet(Heard(n, raw))
  {
    PassedQuiet(n, raw);
    var c := PassedAll(n, START, raw);
    PiecesQuiet(n, FlushPieces(c.buffer, c.inside), c.sent.lastValid);
  }

  // An event other than text is heard last, after all that was held back.
  lemma HeardLast(n: Normalizer, raw: seq<Event>, e: Event)
    requires !e.Text?
    ensures Heard(n, raw + [e]) == Heard(n, raw) + [e]
  {
    PassedSnoc(n, START, raw, e);
    var c := Passed(n, PassedAll(n, START, raw), e);
    assert Advance(n, c.sent, []).events == c.sent.events;
  }

  // ----- a run of text alone -----

  function Texts(tokens: seq<string>): seq<Event> {
    if tokens == [] then [] else [Text(tokens[0])] + Texts(tokens[1..])
  }

  lemma {:induction false} PassedCons(n: Normalizer, c: Channel, e: Event, rest: seq<Event>)
    ensures PassedAll(n, c, [e] + rest) == PassedAll(n, Passed(n, c, e), rest)
  {
    hide Passed;
    if rest == [] {
      assert [e] + rest == [] + [e];
      PassedSnoc(n, c, [], e);
    } else {
      var front, last := rest[..|rest| - 1], rest[|rest| - 1];
      PassedCons(n, c, e, front);
      assert [e] + rest == [e] + front + [last] && rest == front + [last];
      PassedSnoc(n, c, [e] + front, last);
      PassedSnoc(n, Passed(n, c, e), front, last);
    }
  }

  lemma {:induction false} TextsPass(n: Normalizer, c: Channel, tokens: seq<string>)
    ensures Flushed(n, PassedAll(n, c, Texts(tokens))) == Advance(n, c.sent, Intercept(tokens, c.buffer, c.inside))
    decreases |tokens|
  {
    if tokens != [] {
      var scan, next := Drain(c.buffer + tokens[0], c.inside), Passed(n, c, Text(tokens[0]));
      PassedCons(n, c, Text(tokens[0]), Texts(tokens[1..]));
      TextsPass(n, next, tokens[1..]);
      AdvanceAppend(n, c.sent, scan.out, Intercept(tokens[1..], scan.buffer, scan.inside));
    }
  }

  /** Of a run that emits nothing but text, the host hears what the interceptor makes of the tokens. */
  lemma TextsHeard(n: Normalizer, tokens: seq<string>)
    ensures Heard(n, Texts(tokens)) == EmitPieces(n, Intercept(tokens, "", false), map[]).events
  {
    TextsPass(n, START, tokens);
    assert [] + EmitPieces(n, Intercept(tokens, "", false), map[]).events
      == EmitPieces(n, Intercept(tokens, "", false), map[]).events;
  }

  // ----- which tab shows what -----

  // An event as it is heard, and whether it comes from a fence or from a tool or the loop.
  datatype Entry = Entry(event: Event, fenced: bool)

  function Marks(events: seq<Event>, fenced: bool): seq<Entry> {
    seq(|events|, i requires 0 <= i < |events| => Entry(events[i], fenced))
  }

  ghost function Entries(n: Normalizer, c: Channel, e: Event): seq<Entry> {
    var came := EmitPieces(n, Released(c, e), c.sent.lastValid).events;
    Marks(came, true) + Marks(Forwarded(e), false)
  }

  // What reaches the host past the interceptor.
  function Forwarded(e: Event): seq<Event> {
    if e.Text? then [] else [e]
  }

  // All that is heard while `raw` is emitted, with where it comes from.
  ghost function Log(n: Normalizer, raw: seq<Event>): seq<Entry> {
    if raw == [] then []
    else
      var front := raw[..|raw| - 1];
      Log(n, front) + Entries(n, PassedAll(n, START, front), raw[|raw| - 1])
  }

  function EventsOf(log: seq<Entry>): seq<Event> {
    if log == [] then [] else EventsOf(log[..|log| - 1]) + [log[|log| - 1].event]
  }

  function Fenced(log: seq<Entry>): seq<Event> {
    if log == [] then []
    else
      var front, last := Fenced(log[..|log| - 1]), log[|log| - 1];
      if last.fenced then front + [last.event] else front
  }

  // The last entry that opens a tab.
  function Opener(log: seq<Entry>, tab: string): (r: Option<Entry>)
    ensures r.Some? ==> r.value.event.CanvasOpen? && r.value.event.canvas.tabId == tab && r.value in log
  {
    if log == [] then None
    else
      var last := log[|log| - 1];
      if last.event.CanvasOpen? && last.event.canvas.tabId == tab then Some(last) else Opener(log[..|log| - 1], tab)
  }

  lemma {:induction false} LogAppend(a: seq<Entry>, b: seq<Entry>)
    ensures EventsOf(a + b) == EventsOf(a) + EventsOf(b)
    ensures Fenced(a + b) == Fenced(a) + Fenced(b)
  {
    if b == [] {
      assert a + b == a;
    } else {
      assert (a + b)[..|a + b| - 1] == a + b[..|b| - 1];
      LogAppend(a, b[..|b| - 1]);
    }
  }

  lemma {:induction false} MarksAre(events: seq<Event>, fenced: bool)
    ensures EventsOf(Marks(events, fenced)) == events
    ensures Fenced(Marks(events, fenced)) == if fenced then events else []
  {
    if events != [] {
      var front := events[..|events| - 1];
      assert Marks(events, fenced)[..|events| - 1] == Marks(front, fenced);
      MarksAre(front, fenced);
      assert events == front + [events[|events| - 1]];
    }
  }

  lemma LogSnoc(n: Normalizer, front: seq<Event>, e: Event)
    ensures Log(n, front + [e]) == Log(n, front) + Entries(n, PassedAll(n, START, front), e)
  {
    assert (front + [e])[..|front|] == front;
  }

  lemma MarkedApart(came: seq<Event>, after: seq<Event>)
    ensures EventsOf(Marks(came, true) + Marks(after, false)) == came + after
    ensures Fenced(Marks(came, true) + Marks(after, false)) == came
  {
    MarksAre(came, true);
    MarksAre(after, false);
    LogAppend(Marks(came, true), Marks(after, false));
  }

  lemma LogStep(n: Normalizer, front: seq<Event>, e: Event)
    ensures var c := PassedAll(n, START, front);
      var came := EmitPieces(n, Released(c, e), c.sent.lastValid).events;
      && EventsOf(Log(n, front + [e])) == EventsOf(Log(n, front)) + (came + Forwarded(e))
      && Fenced(Log(n, front + [e])) == Fenced(Log(n, front)) + came
  {
    var c := PassedAll(n, START, front);
    LogSnoc(n, front, e);
    LogAppend(Log(n, front), Entries(n, c, e));
    MarkedApart(EmitPieces(n, Released(c, e), c.sent.lastValid).events, Forwarded(e));
  }

  lemma SentStep(n: Normalizer, front: seq<Event>, e: Event)
    ensures var c := PassedAll(n, START, front);
      var now := EmitPieces(n, Released(c, e), c.sent.lastValid);
      && PassedAll(n, START, front + [e]).sent.events == c.sent.events + (now.events + Forwarded(e))
      && PassedAll(n, START, front + [e]).sent.lastValid == now.lastValid
  {
    PassedSnoc(n, START, front, e);
    var c := PassedAll(n, START, front);
    var now := EmitPieces(n, Released(c, e), c.sent.lastValid);
    assert !e.Text? ==> c.sent.events + now.events + [e] == c.sent.events + (now.events + [e]);
  }

  lemma {:induction false} LogIsHeard(n: Normalizer, raw: seq<Event>)
    ensures EventsOf(Log(n, raw)) == PassedAll(n, START, raw).sent.events
  {
    if raw != [] {
      var front, e := raw[..|raw| - 1], raw[|raw| - 1];
      assert raw == front + [e];
      LogIsHeard(n, front);
      LogStep(n, front, e);
      SentStep(n, front, e);
    }
  }

  // Over a whole run the interceptor never repeats itself and remembers exactly what it opened.
  lemma {:induction false} FencesRemembered(n: Normalizer, raw: seq<Event>)
    ensures NoRepeats(Fenced(Log(n, raw)))
    ensures Remembers(PassedAll(n, START, raw).sent.lastValid, Fenced(Log(n, raw)))
  {
    if raw != [] {
      var front, e := raw[..|raw| - 1], raw[|raw| - 1];
      assert raw == front + [e];
      FencesRemembered(n, front);
      var c := PassedAll(n, START, front);
      NeverRepeats(n, Fenced(Log(n, front)), Released(c, e), c.sent.lastValid);
      LogStep(n, front, e);
      SentStep(n, front, e);
    }
  }

  // What a tab shows is what it was last opened with, and a fence opened it last or a tool did.
  lemma {:induction false} OpenerShows(log: seq<Entry>, tab: string)
    ensures var opener := Opener(log, tab);
      && LastOpened(EventsOf(log), tab) == (if opener.Some? then Some(opener.value.event.canvas.content) else None)
      && (opener.Some? && opener.value.fenced ==> LastOpened(Fenced(log), tab) == LastOpened(EventsOf(log), tab))
      && (opener.None? ==> LastOpened(Fenced(log), tab) == None)
  {
    if log != [] {
      var front, last := log[..|log| - 1], log[|log| - 1];
      OpenerShows(front, tab);
      assert (EventsOf(front) + [last.event])[..|EventsOf(front)|] == EventsOf(front);
      assert (Fenced(front) + [last.event])[..|Fenced(front)|] == Fenced(front);
    }
  }

  lemma {:induction false} FencedAt(log: seq<Entry>, i: nat)
    requires i < |log| && log[i].fenced
    ensures var k := |Fenced(log[..i])|;
      k < |Fenced(log)| && Fenced(log)[k] == log[i].event && Fenced(log)[..k] == Fenced(log[..i])
  {
    if i == |log| - 1 {
      assert Fenced(log)[..|Fenced(log[..i])|] == Fenced(log[..i]);
    } else {
      var front := log[..|log| - 1];
      assert front[..i] == log[..i] && front[i] == log[i];
      FencedAt(front, i);
    }
  }

  /** Over a whole run, a fence opens a tab with the payload the tab already shows only when a tool opened
      it since a fence last did; and the memory of payloads is that of the fences alone. */
  lemma FenceRepeatsOnlyTools(n: Normalizer, raw: seq<Event>, i: nat)
    requires i < |Log(n, raw)| && Log(n, raw)[i].fenced && Log(n, raw)[i].event.CanvasOpen?
    ensures var before, canvas := Log(n, raw)[..i], Log(n, raw)[i].event.canvas;
      var opener := Opener(before, canvas.tabId);
      && (opener.Some? && opener.value.fenced ==> opener.value.event.canvas.content != canvas.content)
      && (LastOpened(EventsOf(before), canvas.tabId) == Some(canvas.content) ==> opener.Some? && !opener.value.fenced)
    ensures EventsOf(Log(n, raw)) == PassedAll(n, START, raw).sent.events
    ensures Remembers(PassedAll(n, START, raw).sent.lastValid, Fenced(Log(n, raw)))
  {
    var log := Log(n, raw);
    FencesRemembered(n, raw);
    LogIsHeard(n, raw);
    FencedAt(log, i);
    var k := |Fenced(log[..i])|;
    assert Fenced(log)[k].CanvasOpen?;
    OpenerShows(log[..i], log[i].event.canvas.tabId);
  }

  lemma FirstFence(n: Normalizer, body: string)
    requires n(body).Ok?
    ensures EmitPieces(n, [Fence(body)], map[])
      == Emitted([OpenEvent(n(body).value)], map[n(body).value.meta.TabId() := n(body).value.content])
  {
    assert [Fence(body)][1..] == [];
  }

  lemma AfterTool(n: Normalizer, canvas: Canvas)
    ensures PassedAll(n, START, [CanvasOpen(canvas)]) == Channel("", false, Emitted([CanvasOpen(canvas)], map[]))
  {
    assert [CanvasOpen(canvas)] == [] + [CanvasOpen(canvas)];
    PassedSnoc(n, START, [], CanvasOpen(canvas));
  }

  /** The exact condition. After `raw`, a fence with a valid payload opens its tab exactly when no fence opened it
      last with that payload. So it opens the tab exactly when the tab shows something else, if and only if what
      the tab shows and what a fence last opened it with agree on being that payload. */
  lemma FenceOpens(n: Normalizer, raw: seq<Event>, body: string)
    requires n(body).Ok?
    ensures var tab, content, log := n(body).value.meta.TabId(), n(body).value.content, Log(n, raw);
      var came := EmitFence(n, body, PassedAll(n, START, raw).sent.lastValid).events;
      var shown := LastOpened(EventsOf(log), tab) == Some(content);
      var byFence := LastOpened(Fenced(log), tab) == Some(content);
      && came == (if byFence then [] else [OpenEvent(n(body).value)])
      && ((came != [] <==> !shown) <==> (shown <==> byFence))
      && (Opener(log, tab).None? || Opener(log, tab).value.fenced ==> (shown <==> byFence))
  {
    FencesRemembered(n, raw);
    OpenerShows(Log(n, raw), n(body).value.meta.TabId());
  }

  /** It does happen: a fence whose payload a tool has just opened under the same tab opens it again. */
  lemma FenceRepeatsTool(n: Normalizer, text: string, body: string, canvas: Canvas)
    requires Drain(text, false) == Scan([Fence(body)], "", false)
    requires n(body).Ok? && n(body).value.meta.TabId() == canvas.tabId && n(body).value.content == canvas.content
    ensures Heard(n, [CanvasOpen(canvas), Text(text)]) == [CanvasOpen(canvas), OpenEvent(n(body).value)]
    ensures !NoRepeats([CanvasOpen(canvas), OpenEvent(n(body).value)])
  {
    var again := OpenEvent(n(body).value);
    AfterTool(n, canvas);
    FirstFence(n, body);
    PassedSnoc(n, START, [CanvasOpen(canvas)], Text(text));
    assert [CanvasOpen(canvas), Text(text)] == [CanvasOpen(canvas)] + [Text(text)];
    assert "" + text == text;
    assert [CanvasOpen(canvas), again][1] == again && [CanvasOpen(canvas), again][..1] == [CanvasOpen(canvas)];
  }

  /** The other way it fails: a fence opens a tab, a tool replaces the payload, and the same fence again is
      swallowed although the tab shows the payload of the tool. */
  lemma FenceSwallowed(n: Normalizer, text: string, body: string, canvas: Canvas)
    requires Drain(text, false) == Scan([Fence(body)], "", false)
    requires n(body).Ok? && n(body).value.meta.TabId() == canvas.tabId && n(body).value.content != canvas.content
    ensures Heard(n, [Text(text), CanvasOpen(canvas), Text(text)]) == [OpenEvent(n(body).value), CanvasOpen(canvas)]
    ensures LastOpened([OpenEvent(n(body).value), CanvasOpen(canvas)], canvas.tabId) == Some(canvas.content)
  {
    hide Passed, PassedAll;
    var first, tool := OpenEvent(n(body).value), CanvasOpen(canvas);
    var memory := map[canvas.tabId := n(body).value.content];
    AfterFence(n, text, body);
    PassedSnoc(n, START, [Text(text)], tool);
    PassTool(n, Emitted([first], memory), canvas);
    PassedSnoc(n, START, [Text(text)] + [tool], Text(text));
    PassKnown(n, Emitted([first] + [tool], memory), text, body);
    assert [Text(text), tool, Text(text)] == [Text(text)] + [tool] + [Text(text)];
    assert [first, tool][..1] == [first];
  }

  lemma PassTool(n: Normalizer, sent: Emitted, canvas: Canvas)
    ensures Passed(n, Channel("", false, sent), CanvasOpen(canvas))
      == Channel("", false, Emitted(sent.events + [CanvasOpen(canvas)], sent.lastValid))
  {
  }

  lemma PassKnown(n: Normalizer, sent: Emitted, text: string, body: string)
    requires Drain(text, false) == Scan([Fence(body)], "", false)
    requires n(body).Ok? && n(body).value.meta.TabId() in sent.lastValid
    requires sent.lastValid[n(body).value.meta.TabId()] == n(body).value.content
    ensures Passed(n, Channel("", false, sent), Text(text)) == Channel("", false, sent)
  {
    assert "" + text == text;
    KnownFence(n, body, sent.lastValid);
  }

  lemma AfterFence(n: Normalizer, text: string, body: string)
    requires Drain(text, false) == Scan([Fence(body)], "", false) && n(body).Ok?
    ensures PassedAll(n, START, [Text(text)]) ==
      Channel("", false, Emitted([OpenEvent(n(body).value)], map[n(body).value.meta.TabId() := n(body).value.content]))
  {
    assert [Text(text)] == [] + [Text(text)] && "" + text == text;
    PassedSnoc(n, START, [], Text(text));
    FirstFence(n, body);
  }

  lemma KnownFence(n: Normalizer, body: string, lastValid: map<string, Object>)
    requires n(body).Ok? && n(body).value.meta.TabId() in lastValid
    requires lastValid[n(body).value.meta.TabId()] == n(body).value.content
    ensures EmitPieces(n, [Fence(body)], lastValid) == Emitted([], lastValid)
  {
    assert [Fence(body)][1..] == [];
  }

  /** Both with an actual text, for any normaliser that accepts the empty object. */
  lemma OneFenceAndTools(n: Normalizer, same: Canvas, other: Canvas)
    requires n("{}").Ok? && same.tabId == other.tabId == n("{}").value.meta.TabId()
    requires same.content == n("{}").value.content != other.content
    ensures Heard(n, [CanvasOpen(same), Text(ONE_FENCE)]) == [CanvasOpen(same), OpenEvent(n("{}").value)]
    ensures Heard(n, [Text(ONE_FENCE), CanvasOpen(other), Text(ONE_FENCE)])
      == [OpenEvent(n("{}").value), CanvasOpen(other)]
  {
    DrainsOneFence();
    FenceRepeatsTool(n, ONE_FENCE, "{}", same);
    FenceSwallowed(n, ONE_FENCE, "{}", other);
  }
}
