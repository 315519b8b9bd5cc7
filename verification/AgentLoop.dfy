/** agent/agent.go, lines 447-1073: one run of the agent, for whatever the provider and the tools
    answer. */
module AgentLoop {
  import opened JsonTree
  import opened AgentEvents
  import opened EventChannel
  import opened ToolBudget
  import opened Routing
  import CanvasFence
  import TerminalRender

  const MAX_RATE_LIMIT_RETRIES := 2
  const DEFAULT_MAX_ITERATIONS := 10

  const LOAD_NUDGE :=
    "You attempted to answer without loading any tool group. If the user's request needs tools, call load_tools " +
    "with the relevant Group ID(s) now, then answer. If it genuinely needs no tools, you may answer directly."

  const SUMMARY_REQUEST :=
    "Tool call limit reached. Please summarize what you have so far and provide your best answer to the user."

  function ToolDemand(tool: string): string {
    "You MUST call the " + tool + " tool now. The frontend cannot render this view without it. " +
    "Do not produce text \U{2014} call the tool."
  }

  datatype ToolCall = ToolCall(id: string, name: string, input: string)

  datatype Role = System | User | Assistant | Tool

  datatype Message = Message(role: Role, content: string, toolCalls: seq<ToolCall>, toolCallId: string)

  datatype Request = Request(messages: seq<Message>, tools: seq<ToolDef>)

  // ----- what the agent is built with -----

  datatype HostTool = HostTool(
    emitResult: bool, requiredAfterInterest: string, emit: Option<string -> seq<Event>>)

  datatype Agent = Agent(
    hostTools: map<string, HostTool>,
    terminalPolicy: Option<string -> bool>,
    capStates: Option<map<string, CapState>>,
    toolServerMap: Option<map<string, string>>,
    asksApproval: bool,
    readOnly: string -> bool,
    maxIterations: int,
    inBand: bool,
    parseTerminal: string -> Option<TerminalRender.Terminal>,
    parseCanvas: string -> Option<Canvas>,
    interestOf: string -> Option<string>,
    normalize: CanvasFence.Normalizer)

  // ----- what the world answers -----

  datatype StreamEvent = Delta(text: string) | Requested(call: ToolCall) | Finish

  datatype Stream = Stream(events: seq<StreamEvent>, error: Option<string>)

  datatype ToolOutcome = ToolOutcome(approved: bool, result: string, error: Option<string>)

  // Every answer is a function of when it was asked for: streams, polls of the context, waits and
  // tool lists are numbered as they come, and a tool of a batch by its stream and its place.
  datatype World = World(
    stream: nat -> Stream,
    cancelled: nat -> bool,
    waitCancelled: nat -> bool,
    rateLimited: string -> bool,
    outcome: (nat, nat) -> ToolOutcome,
    toolList: nat -> Option<seq<ToolDef>>,
    forcesLoad: nat -> bool)

  // ----- one tool call -----

  datatype Settled = Settled(
    message: Message, events: seq<Event>, isError: bool, eligible: bool, valid: bool, canvasAt: Option<nat>)

  function ToolMessage(content: string, call: ToolCall): Message {
    Message(Tool, content, [], call.id)
  }

  function Failure(call: ToolCall, events: seq<Event>, content: string, eligible: bool): Settled {
    Settled(ToolMessage(content, call), events, true, eligible, false, None)
  }

  // What the terminal parsers make of a result: the text to keep, and whether it validates.
  function Judge(a: Agent, result: string, eligible: bool): (string, Option<Canvas>, bool, bool) {
    match a.parseTerminal(result)
    case Some(terminal) => (terminal.clean, terminal.canvas, true, true)
    case None =>
      if eligible
      then (result, a.parseCanvas(result), true, a.parseCanvas(result).Some?)
      else (result, None, false, false)
  }

  function Success(a: Agent, call: ToolCall, start: Event, result: string, eligible: bool,
                   emitResult: bool, extra: seq<Event>): Settled {
    var (text, canvas, nowEligible, valid) := Judge(a, result, eligible);
    var shown :=
      if canvas.Some? then [CanvasOpen(canvas.value)]
      else if emitResult then [Text(text + "\n\n")] else [];
    Settled(ToolMessage(text, call), [start] + shown + [ToolResult(call.name, text)] + extra, false, nowEligible, valid,
            if canvas.Some? then Some(1) else None)
  }

  predicate NeedsApproval(a: Agent, name: string, cap: string) {
    && a.capStates.Some? && cap != "" && cap in a.capStates.value
    && (a.capStates.value[cap].Ask? || (a.capStates.value[cap].AskOnWrite? && !a.readOnly(name)))
  }

  function Eligible(a: Agent, name: string): bool {
    a.terminalPolicy.Some? && a.terminalPolicy.value(name)
  }

  function Failed(call: ToolCall, start: Event, error: string, eligible: bool): Settled {
    Failure(call, [start, ToolError(call.name, error, "")], "Error executing tool " + call.name + ": " + error,
            eligible)
  }

  function SettleHosted(a: Agent, call: ToolCall, o: ToolOutcome, tool: HostTool): Settled {
    var start := ToolStart(call.name, call.id, "");
    if o.error.Some? then Failed(call, start, o.error.value, Eligible(a, call.name))
    else Success(a, call, start, o.result, Eligible(a, call.name), tool.emitResult,
                 if tool.emit.Some? then tool.emit.value(call.input) else [])
  }

  function SettleRouted(a: Agent, call: ToolCall, o: ToolOutcome): Settled {
    var cap := if a.toolServerMap.Some? then Lookup(a.toolServerMap.value, call.name) else "";
    var start := ToolStart(call.name, call.id, cap);
    if NeedsApproval(a, call.name, cap) && a.asksApproval && !o.approved
    then Failure(call, [ToolError(call.name, "Tool call denied by user", cap)], "User denied this tool call.",
                 Eligible(a, call.name))
    else if o.error.Some? then Failed(call, start, o.error.value, Eligible(a, call.name))
    else Success(a, call, start, o.result, Eligible(a, call.name), false, [])
  }

  /** What one goroutine of a batch leaves at its index. */
  function Settle(a: Agent, call: ToolCall, o: ToolOutcome): Settled {
    if call.name in a.hostTools then SettleHosted(a, call, o, a.hostTools[call.name])
    else SettleRouted(a, call, o)
  }

  // The side-channel hooks relay no event that the loop itself uses to end a run.
  ghost predicate Polite(a: Agent) {
    forall name, input :: name in a.hostTools && a.hostTools[name].emit.Some? ==>
      Quiet(a.hostTools[name].emit.value(input))
  }

  predicate Reply(m: Message, call: ToolCall) {
    m.role == Tool && m.toolCallId == call.id && m.toolCalls == []
  }

  predicate Placed(s: Settled) {
    s.canvasAt.Some? ==> s.canvasAt.value < |s.events| && s.events[s.canvasAt.value].CanvasOpen?
  }

  /** Whichever way a call goes, it leaves one tool message with its id. */
  lemma SettleReplies(a: Agent, call: ToolCall, o: ToolOutcome)
    ensures Reply(Settle(a, call, o).message, call) && Placed(Settle(a, call, o))
  {
    SettledMeaning(a, call, o);
  }

  lemma SuccessQuiet(a: Agent, call: ToolCall, start: Event, result: string, eligible: bool, emitResult: bool,
                     extra: seq<Event>)
    requires Ordinary(start) && Quiet(extra)
    ensures Quiet(Success(a, call, start, result, eligible, emitResult, extra).events)
  {
  }

  lemma HostedQuiet(a: Agent, call: ToolCall, o: ToolOutcome)
    requires Polite(a) && call.name in a.hostTools
    ensures Quiet(SettleHosted(a, call, o, a.hostTools[call.name]).events)
  {
    var tool := a.hostTools[call.name];
    SuccessQuiet(a, call, ToolStart(call.name, call.id, ""), o.result, Eligible(a, call.name), tool.emitResult,
                 if tool.emit.Some? then tool.emit.value(call.input) else []);
  }

  lemma RoutedQuiet(a: Agent, call: ToolCall, o: ToolOutcome)
    ensures Quiet(SettleRouted(a, call, o).events)
  {
    var cap := if a.toolServerMap.Some? then Lookup(a.toolServerMap.value, call.name) else "";
    SuccessQuiet(a, call, ToolStart(call.name, call.id, cap), o.result, Eligible(a, call.name), false, []);
  }

  lemma SettleQuiet(a: Agent, call: ToolCall, o: ToolOutcome)
    requires Polite(a)
    ensures Quiet(Settle(a, call, o).events) && Quiet(Marked(Settle(a, call, o)))
  {
    if call.name in a.hostTools {
      HostedQuiet(a, call, o);
    } else {
      RoutedQuiet(a, call, o);
    }
  }

  // The call was carried out and its tool reported no error.
  predicate Succeeds(a: Agent, call: ToolCall, o: ToolOutcome) {
    o.error.None? && (call.name in a.hostTools || !Denied(a, call, o))
  }

  predicate Denied(a: Agent, call: ToolCall, o: ToolOutcome) {
    && call.name !in a.hostTools && a.asksApproval && !o.approved
    && NeedsApproval(a, call.name, if a.toolServerMap.Some? then Lookup(a.toolServerMap.value, call.name) else "")
  }

  /** What a settled call says, over all the ways it can go: whether it counts as a failure, as an
      eligible render and as a valid one; which canvas it shows; and what the model is told. */
  lemma SettledMeaning(a: Agent, call: ToolCall, o: ToolOutcome)
    ensures var s, ok, terminal := Settle(a, call, o), Succeeds(a, call, o), a.parseTerminal(o.result);
      && Reply(s.message, call)
      && s.isError == !ok
      && (s.eligible <==> Eligible(a, call.name) || (ok && terminal.Some?))
      && (s.valid <==> ok && (terminal.Some? || (Eligible(a, call.name) && a.parseCanvas(o.result).Some?)))
      && s.message.content == (
           if ok then (if terminal.Some? then terminal.value.clean else o.result)
           else if Denied(a, call, o) then "User denied this tool call."
           else "Error executing tool " + call.name + ": " + o.error.value)
      && Placed(s) && (s.canvasAt.Some? ==> ok)
      && (s.canvasAt.Some? ==>
           Some(s.events[s.canvasAt.value].canvas) ==
           if terminal.Some? then terminal.value.canvas else a.parseCanvas(o.result))
  {
    if call.name in a.hostTools {
      assert Settle(a, call, o) == SettleHosted(a, call, o, a.hostTools[call.name]);
    } else {
      assert Settle(a, call, o) == SettleRouted(a, call, o);
    }
  }

  // The canvas of a validated render tells the client that it ends the turn.
  function Marked(s: Settled): seq<Event> {
    if s.canvasAt.None? || !Placed(s) then s.events
    else
      var canvas := s.events[s.canvasAt.value].canvas;
      s.events[s.canvasAt.value := CanvasOpen(canvas.(terminalInteractive := true))]
  }

  // The capability a call is held to; calls of internal tools are held to none.
  function CapabilityOf(a: Agent, call: ToolCall): string {
    if call.name !in a.hostTools && a.toolServerMap.Some? && call.name in a.toolServerMap.value
    then a.toolServerMap.value[call.name] else ""
  }

  // The capability asks before every call, or before calls that are not known to be read-only.
  predicate AsksFirst(states: map<string, CapState>, cap: string, readOnly: bool) {
    cap in states && (states[cap] == Ask || (states[cap] == AskOnWrite && !readOnly))
  }

  predicate TurnedDown(a: Agent, call: ToolCall, o: ToolOutcome) {
    var cap := CapabilityOf(a, call);
    cap != "" && a.asksApproval && !o.approved
    && a.capStates.Some? && AsksFirst(a.capStates.value, cap, a.readOnly(call.name))
  }

  /** A call that nobody approves is denied exactly when its capability asks for approval, and then it does not
      start. Every other call starts. */
  lemma DeniedCalls(a: Agent, call: ToolCall, o: ToolOutcome)
    ensures var s, cap := Settle(a, call, o), CapabilityOf(a, call);
      if TurnedDown(a, call, o) then
        && s.isError && s.message.content == "User denied this tool call."
        && s.events == [ToolError(call.name, "Tool call denied by user", cap)]
      else s.events != [] && s.events[0] == ToolStart(call.name, call.id, cap)
  {
  }

  /** The four states of a capability, for a call that is not approved: asking denies it, asking on write denies
      it unless the tool is read-only, and the other two let it start. */
  lemma StatesDecide(a: Agent, call: ToolCall, o: ToolOutcome)
    requires CapabilityOf(a, call) != "" && a.asksApproval && !o.approved
    requires a.capStates.Some? && CapabilityOf(a, call) in a.capStates.value
    ensures var starts := Settle(a, call, o).events[..1] == [ToolStart(call.name, call.id, CapabilityOf(a, call))];
      match a.capStates.value[CapabilityOf(a, call)]
      case Ask => !starts
      case AskOnWrite => starts == a.readOnly(call.name)
      case Allow => starts
      case Off => starts
  {
    DeniedCalls(a, call, o);
    var s := Settle(a, call, o);
    assert s.events[..1] == [s.events[0]];
  }

  // The text a result leaves, and the canvas it shows.
  function TextOf(a: Agent, result: string): string {
    if a.parseTerminal(result).Some? then a.parseTerminal(result).value.clean else result
  }

  function CanvasShown(a: Agent, name: string, result: string): Option<Canvas> {
    if a.parseTerminal(result).Some? then a.parseTerminal(result).value.canvas
    else if a.terminalPolicy.Some? && a.terminalPolicy.value(name) then a.parseCanvas(result)
    else None
  }

  // What a call that succeeds emits: its start, its canvas or else its text, its result, and what its hook adds.
  function EventsOfSuccess(a: Agent, call: ToolCall, result: string, mark: bool): seq<Event> {
    var text, canvas, hosted := TextOf(a, result), CanvasShown(a, call.name, result), call.name in a.hostTools;
    [ToolStart(call.name, call.id, CapabilityOf(a, call))] + (
      if canvas.Some? then [CanvasOpen(if mark then canvas.value.(terminalInteractive := true) else canvas.value)]
      else if hosted && a.hostTools[call.name].emitResult then [Text(text + "\n\n")]
      else []
    ) + [ToolResult(call.name, text)] + (
      if hosted && a.hostTools[call.name].emit.Some? then a.hostTools[call.name].emit.value(call.input) else []
    )
  }

  /** A call that is carried out: with an error it emits its start and the error; without, the events above, and in
      a batch that ends the run its canvas is marked as interactive. */
  lemma CarriedOut(a: Agent, call: ToolCall, o: ToolOutcome)
    requires !TurnedDown(a, call, o)
    ensures var s := Settle(a, call, o);
      match o.error
      case Some(error) =>
        && s.events == [ToolStart(call.name, call.id, CapabilityOf(a, call)), ToolError(call.name, error, "")]
        && s.message.content == "Error executing tool " + call.name + ": " + error
      case None =>
        && s.events == EventsOfSuccess(a, call, o.result, false)
        && Marked(s) == EventsOfSuccess(a, call, o.result, true)
        && s.message.content == TextOf(a, o.result)
  {
    if o.error.None? {
      MarksCanvas(a, call, o);
    }
  }

  lemma MarksCanvas(a: Agent, call: ToolCall, o: ToolOutcome)
    requires !TurnedDown(a, call, o) && o.error.None?
    ensures Settle(a, call, o).events == EventsOfSuccess(a, call, o.result, false)
    ensures Marked(Settle(a, call, o)) == EventsOfSuccess(a, call, o.result, true)
  {
  }

  // ----- what a run appends to its messages -----

  ghost predicate Replies(ms: seq<Message>, calls: seq<ToolCall>) {
    |ms| == |calls| && forall i :: 0 <= i < |calls| ==> Reply(ms[i], calls[i])
  }

  // Instructions of the loop, and rounds: an assistant message with tool calls, and at once one tool
  // message for each call, in order.
  ghost predicate WellPaired(ms: seq<Message>) {
    ms == [] ||
    (ms[0].role == System && WellPaired(ms[1..])) ||
    (ms[0].role == Assistant && ms[0].toolCalls != [] && |ms| > |ms[0].toolCalls| &&
      Replies(ms[1..|ms[0].toolCalls| + 1], ms[0].toolCalls) && WellPaired(ms[|ms[0].toolCalls| + 1..]))
  }

  lemma {:induction false} PairedAppend(a: seq<Message>, b: seq<Message>)
    requires WellPaired(a) && WellPaired(b)
    ensures WellPaired(a + b)
  {
    if a == [] {
      assert a + b == b;
    } else if a[0].role == System {
      PairedAppend(a[1..], b);
      assert (a + b)[1..] == a[1..] + b;
    } else {
      var n := |a[0].toolCalls| + 1;
      PairedAppend(a[n..], b);
      assert (a + b)[n..] == a[n..] + b;
      assert (a + b)[1..n] == a[1..n];
    }
  }

  lemma PairedInstruction(ms: seq<Message>, m: Message)
    requires WellPaired(ms) && m.role == System
    ensures WellPaired(ms + [m])
  {
    assert [m][1..] == [];
    PairedAppend(ms, [m]);
  }

  lemma PairedRound(ms: seq<Message>, calls: seq<ToolCall>, replies: seq<Message>)
    requires WellPaired(ms) && calls != [] && Replies(replies, calls)
    ensures WellPaired(ms + ([Message(Assistant, "", calls, "")] + replies))
  {
    var round := [Message(Assistant, "", calls, "")] + replies;
    assert round[1..|calls| + 1] == replies && round[|calls| + 1..] == [];
    PairedAppend(ms, round);
  }

  // ----- interests -----

  ghost predicate CallsIn(ms: seq<Message>, call: ToolCall) {
    exists i :: 0 <= i < |ms| && call in ms[i].toolCalls
  }

  predicate Names(a: Agent, call: ToolCall, interest: string) {
    call.name == "get_interest" && interest != "" && a.interestOf(call.input) == Some(interest)
  }

  ghost predicate LoadedIn(a: Agent, ms: seq<Message>, interest: string) {
    exists call :: CallsIn(ms, call) && Names(a, call, interest)
  }

  ghost predicate CalledIn(ms: seq<Message>, name: string) {
    exists call :: CallsIn(ms, call) && call.name == name
  }

  // A tool that a loaded interest requires, and that this run has not called.
  ghost predicate Owed(a: Agent, history: seq<Message>, appended: seq<Message>, name: string) {
    && name in a.hostTools && a.hostTools[name].requiredAfterInterest != ""
    && LoadedIn(a, history + appended, a.hostTools[name].requiredAfterInterest)
    && !CalledIn(appended, name)
  }

  lemma CallsInAppend(a: seq<Message>, b: seq<Message>, call: ToolCall)
    ensures CallsIn(a + b, call) <==> CallsIn(a, call) || CallsIn(b, call)
  {
    forall i | 0 <= i < |a| && call in a[i].toolCalls ensures CallsIn(a + b, call) {
      assert (a + b)[i] == a[i];
    }
    forall i | 0 <= i < |b| && call in b[i].toolCalls ensures CallsIn(a + b, call) {
      assert (a + b)[|a| + i] == b[i];
    }
  }

  // The calls of a round are those of its assistant message.
  lemma CallsInRound(calls: seq<ToolCall>, replies: seq<Message>, call: ToolCall)
    requires Replies(replies, calls)
    ensures CallsIn([Message(Assistant, "", calls, "")] + replies, call) <==> call in calls
  {
    var round := [Message(Assistant, "", calls, "")] + replies;
    if call in calls {
      assert call in round[0].toolCalls;
    }
    if CallsIn(round, call) {
      var i :| 0 <= i < |round| && call in round[i].toolCalls;
      assert i == 0;
    }
  }

  /** After a round a tool is owed exactly when it is required by an interest loaded before or by one of the calls,
      a "get_interest" for it, and has been called neither before nor in this round. */
  lemma OwedAfterRound(a: Agent, history: seq<Message>, appended: seq<Message>, calls: seq<ToolCall>,
                       replies: seq<Message>, name: string)
    requires Replies(replies, calls)
    ensures var round := [Message(Assistant, "", calls, "")] + replies;
      Owed(a, history, appended + round, name) <==>
        && name in a.hostTools && a.hostTools[name].requiredAfterInterest != ""
        && (LoadedIn(a, history + appended, a.hostTools[name].requiredAfterInterest)
            || exists k :: 0 <= k < |calls| && calls[k].name == "get_interest"
                           && a.interestOf(calls[k].input) == Some(a.hostTools[name].requiredAfterInterest))
        && !CalledIn(appended, name) && forall k :: 0 <= k < |calls| ==> calls[k].name != name
  {
    var round := [Message(Assistant, "", calls, "")] + replies;
    assert history + (appended + round) == history + appended + round;
    forall call
      ensures CallsIn(history + (appended + round), call) <==> CallsIn(history + appended, call) || call in calls
      ensures CallsIn(appended + round, call) <==> CallsIn(appended, call) || call in calls
    {
      CallsInRound(calls, replies, call);
      CallsInAppend(history + appended, round, call);
      CallsInAppend(appended, round, call);
    }
    assert forall k :: 0 <= k < |calls| ==> calls[k] in calls;
  }

  /** The interceptor of a run and the parser of renders know the same canvas fences, tried in the same order. */
  lemma SameFences()
    ensures TerminalRender.CANVAS_PREFIXES == ["```canvas-object-detail", "```canvas-dashboard"]
    ensures |CanvasFence.KINDS| == 2
    ensures forall k :: 0 <= k < 2 ==> CanvasFence.Opening(CanvasFence.KINDS[k]) == TerminalRender.CANVAS_PREFIXES[k]
  {
  }

  // ----- one batch -----

  // A batch that ends a run: some tool rendered, each eligible one validly, and none failed.
  ghost predicate Completes(batch: seq<Settled>) {
    && (exists i :: 0 <= i < |batch| && batch[i].eligible)
    && (forall i :: 0 <= i < |batch| ==> !batch[i].isError && (batch[i].eligible ==> batch[i].valid))
  }

  // The events of a batch, call by call.
  function SettledEvents(s: Settled, mark: bool): seq<Event> {
    if mark then Marked(s) else s.events
  }

  function BatchEvents(batch: seq<Settled>, mark: bool): seq<Event> {
    if batch == [] then [] else BatchEvents(batch[..|batch| - 1], mark) + SettledEvents(batch[|batch| - 1], mark)
  }

  function RepliesOf(batch: seq<Settled>): (ms: seq<Message>)
    ensures |ms| == |batch|
    ensures forall i :: 0 <= i < |batch| ==> ms[i] == batch[i].message
  {
    if batch == [] then [] else RepliesOf(batch[..|batch| - 1]) + [batch[|batch| - 1].message]
  }

  /** Call by call: the events of a batch are those of its calls, in order. */
  lemma {:induction false} BatchInOrder(a: seq<Settled>, b: seq<Settled>, mark: bool)
    ensures BatchEvents(a + b, mark) == BatchEvents(a, mark) + BatchEvents(b, mark)
    ensures forall s :: BatchEvents([s], mark) == if mark then Marked(s) else s.events
  {
    forall s: Settled ensures BatchEvents([s], mark) == if mark then Marked(s) else s.events {
      assert [s][..0] == [];
    }
    if b == [] {
      assert a + b == a;
    } else {
      assert (a + b)[..|a + b| - 1] == a + b[..|b| - 1];
      BatchInOrder(a, b[..|b| - 1], mark);
    }
  }

  // `batch` is what the world makes of `calls`, asked for by the streams before `at`.
  ghost predicate Settles(a: Agent, w: World, at: nat, calls: seq<ToolCall>, batch: seq<Settled>) {
    && |batch| == |calls|
    && forall i :: 0 <= i < |calls| ==> batch[i] == Settle(a, calls[i], w.outcome(at, i))
  }

  lemma SettlesReplies(a: Agent, w: World, at: nat, calls: seq<ToolCall>, batch: seq<Settled>)
    requires Settles(a, w, at, calls, batch)
    ensures Replies(RepliesOf(batch), calls)
  {
    forall i | 0 <= i < |calls| ensures Reply(batch[i].message, calls[i]) {
      SettleReplies(a, calls[i], w.outcome(at, i));
    }
  }

  lemma {:induction false} BatchQuiet(batch: seq<Settled>, mark: bool)
    requires forall i :: 0 <= i < |batch| ==> Quiet(SettledEvents(batch[i], mark))
    ensures Quiet(BatchEvents(batch, mark))
  {
    if batch != [] {
      BatchQuiet(batch[..|batch| - 1], mark);
    }
  }

  lemma SettlesQuiet(a: Agent, w: World, at: nat, calls: seq<ToolCall>, batch: seq<Settled>, mark: bool)
    requires Polite(a) && Settles(a, w, at, calls, batch)
    ensures Quiet(BatchEvents(batch, mark))
  {
    forall i | 0 <= i < |batch| ensures Quiet(SettledEvents(batch[i], mark)) {
      SettleQuiet(a, calls[i], w.outcome(at, i));
    }
    BatchQuiet(batch, mark);
  }

  // ----- one request -----

  // The text events of a stream.
  function TextsOf(events: seq<StreamEvent>): seq<Event> {
    if events == [] then []
    else
      var front, e := TextsOf(events[..|events| - 1]), events[|events| - 1];
      if e.Delta? then front + [Text(e.text)] else front
  }

  function CallsOf(events: seq<StreamEvent>): seq<ToolCall> {
    if events == [] then []
    else
      var front, e := CallsOf(events[..|events| - 1]), events[|events| - 1];
      if e.Requested? then front + [e.call] else front
  }

  /** In order: the calls of a stream are those its events ask for, its texts those its events hold. */
  lemma {:induction false} StreamHolds(a: seq<StreamEvent>, b: seq<StreamEvent>)
    ensures CallsOf(a + b) == CallsOf(a) + CallsOf(b) && TextsOf(a + b) == TextsOf(a) + TextsOf(b)
    ensures forall call :: CallsOf([Requested(call)]) == [call] && TextsOf([Requested(call)]) == []
    ensures forall text :: TextsOf([Delta(text)]) == [Text(text)] && CallsOf([Delta(text)]) == []
    ensures CallsOf([Finish]) == [] && TextsOf([Finish]) == []
  {
    forall e: StreamEvent ensures [e][..0] == [] {}
    if b == [] {
      assert a + b == a;
    } else {
      assert (a + b)[..|a + b| - 1] == a + b[..|b| - 1];
      StreamHolds(a, b[..|b| - 1]);
    }
  }

  // What the streams numbered from `first` up to `end` say and ask for, whether or not each ended well.
  function TextsBetween(w: World, first: nat, end: nat): seq<Event> {
    if first >= end then [] else TextsBetween(w, first, end - 1) + TextsOf(w.stream(end - 1).events)
  }

  function CallsBetween(w: World, first: nat, end: nat): seq<ToolCall> {
    if first >= end then [] else CallsBetween(w, first, end - 1) + CallsOf(w.stream(end - 1).events)
  }

  // The stream was rate limited and the wait for another try not cut short.
  predicate TriedAgain(w: World, i: nat) {
    w.stream(i).error.Some? && w.rateLimited(w.stream(i).error.value) && !w.waitCancelled(i + 1)
  }

  predicate Retries(w: World, first: nat, end: nat) {
    && first < end <= first + MAX_RATE_LIMIT_RETRIES + 1
    && forall i :: first <= i < end - 1 ==> TriedAgain(w, i)
  }

  // A request that was tried until a stream ended well, and one that was given up.
  predicate Served(w: World, first: nat, end: nat) {
    Retries(w, first, end) && w.stream(end - 1).error.None?
  }

  predicate GivenUp(w: World, first: nat, end: nat) {
    && Retries(w, first, end) && w.stream(end - 1).error.Some?
    && (end < first + MAX_RATE_LIMIT_RETRIES + 1 ==> !TriedAgain(w, end - 1))
  }

  function FailureOf(w: World, first: nat, end: nat): string
    requires GivenUp(w, first, end)
  {
    var error := w.stream(end - 1).error.value;
    if w.rateLimited(error) && end < first + MAX_RATE_LIMIT_RETRIES + 1 then "Request cancelled" else error
  }

  /** A request is served or given up in exactly one way, after one to three streams, each but the last of them rate
      limited. A request cancelled while it waits for another try says so; any other fails with its last error. */
  lemma RequestEnds(w: World, first: nat) returns (end: nat)
    ensures first < end <= first + 3 && (Served(w, first, end) || GivenUp(w, first, end))
    ensures forall e: nat :: Served(w, first, e) || GivenUp(w, first, e) ==> e == end
    ensures forall i :: first <= i < end - 1 ==>
      w.stream(i).error.Some? && w.rateLimited(w.stream(i).error.value) && !w.waitCancelled(i + 1)
    ensures Served(w, first, end) <==> w.stream(end - 1).error.None?
    ensures GivenUp(w, first, end) ==>
      var error := w.stream(end - 1).error.value;
      && (end < first + 3 ==> !w.rateLimited(error) || w.waitCancelled(end))
      && FailureOf(w, first, end) ==
        if w.rateLimited(error) && end < first + 3 then "Request cancelled" else error
  {
    if !TriedAgain(w, first) {
      end := first + 1;
    } else if !TriedAgain(w, first + 1) {
      end := first + 2;
    } else {
      end := first + 3;
    }
    forall e: nat | Served(w, first, e) || GivenUp(w, first, e) ensures e == end {
      assert e > first + 1 ==> TriedAgain(w, first);
      assert e > first + 2 ==> TriedAgain(w, first + 1);
    }
  }

  lemma {:induction false} TextsQuiet(events: seq<StreamEvent>)
    ensures Quiet(TextsOf(events))
  {
    if events != [] {
      TextsQuiet(events[..|events| - 1]);
    }
  }

  lemma {:induction false} StreamsQuiet(w: World, first: nat, end: nat)
    ensures Quiet(TextsBetween(w, first, end))
    decreases end
  {
    if first < end {
      StreamsQuiet(w, first, end - 1);
      TextsQuiet(w.stream(end - 1).events);
    }
  }

  // ----- the story of a run -----

  // One pass of the loop that does not end the run, with the streams opened in it.
  datatype Turn =
    | Nudged(first: nat, end: nat)
    | Demanded(first: nat, end: nat, tool: string)
    | Worked(first: nat, end: nat, calls: seq<ToolCall>, batch: seq<Settled>)

  function MessagesOf(t: Turn): seq<Message> {
    match t
    case Nudged(_, _) => [Message(System, LOAD_NUDGE, [], "")]
    case Demanded(_, _, tool) => [Message(System, ToolDemand(tool), [], "")]
    case Worked(_, _, calls, batch) => [Message(Assistant, "", calls, "")] + RepliesOf(batch)
  }

  // What the turns have appended to the messages.
  function Written(turns: seq<Turn>): seq<Message> {
    if turns == [] then [] else Written(turns[..|turns| - 1]) + MessagesOf(turns[|turns| - 1])
  }

  // How many streams they have opened.
  function StreamsOf(turns: seq<Turn>): nat {
    if turns == [] then 0 else turns[|turns| - 1].end
  }

  // How often they have looked whether the run is cancelled.
  function PollsOf(turns: seq<Turn>): nat {
    if turns == [] then 0 else PollsOf(turns[..|turns| - 1]) + if turns[|turns| - 1].Worked? then 3 else 2
  }

  function RoundsOf(turns: seq<Turn>): nat {
    if turns == [] then 0 else RoundsOf(turns[..|turns| - 1]) + if turns[|turns| - 1].Worked? then 1 else 0
  }

  predicate HasNudge(turns: seq<Turn>) {
    turns != [] && (turns[|turns| - 1].Nudged? || HasNudge(turns[..|turns| - 1]))
  }

  // The tools offered next: with routing they are listed anew after every round.
  function ListOf(a: Agent, w: World, turns: seq<Turn>): Option<seq<ToolDef>> {
    w.toolList(if a.inBand then RoundsOf(turns) else 0)
  }

  // The events of a turn, before the interceptor.
  ghost function TurnEvents(w: World, t: Turn): seq<Event> {
    TextsBetween(w, t.first, t.end) + [TextClear] + if t.Worked? then BatchEvents(t.batch, Completes(t.batch)) else []
  }

  ghost function Raw(w: World, turns: seq<Turn>): seq<Event> {
    if turns == [] then [] else Raw(w, turns[..|turns| - 1]) + TurnEvents(w, turns[|turns| - 1])
  }

  // No tool that is required is missing, or one is registered under the empty name.
  ghost predicate Satisfied(a: Agent, history: seq<Message>, appended: seq<Message>) {
    (forall name :: !Owed(a, history, appended, name)) || Owed(a, history, appended, "")
  }

  // The streams from `first` to `end` were all opened for the request that follows `turns`.
  ghost predicate Asks(a: Agent, w: World, history: seq<Message>, turns: seq<Turn>, requests: seq<Request>,
                       first: nat, end: nat) {
    && end <= |requests|
    && forall i :: first <= i < end ==>
      requests[i].messages == history + Written(turns) && Some(requests[i].tools) == ListOf(a, w, turns)
  }

  // A pass after `turns` as far as the end of its request: not cancelled before or after it.
  ghost predicate Heeded(a: Agent, w: World, history: seq<Message>, turns: seq<Turn>, requests: seq<Request>,
                         end: nat)
  {
    && Asks(a, w, history, turns, requests, StreamsOf(turns), end) && Served(w, StreamsOf(turns), end)
    && !w.cancelled(PollsOf(turns)) && !w.cancelled(PollsOf(turns) + 1)
  }

  // `t` is what comes after `turns`.
  ghost predicate Follows(a: Agent, w: World, history: seq<Message>, turns: seq<Turn>, requests: seq<Request>,
                          t: Turn)
  {
    && t.first == StreamsOf(turns) && Heeded(a, w, history, turns, requests, t.end)
    && var calls := CallsBetween(w, t.first, t.end);
      match t
      case Nudged(_, end) => calls == [] && w.forcesLoad(end) && !HasNudge(turns)
      case Demanded(_, end, tool) =>
        && calls == [] && (w.forcesLoad(end) ==> HasNudge(turns))
        && tool != "" && Owed(a, history, Written(turns), tool)
      case Worked(_, end, asked, batch) =>
        asked == calls != [] && Settles(a, w, end, asked, batch) && !w.cancelled(PollsOf(turns) + 2)
  }

  /** The run so far: pass by pass, what the provider was asked, what it answered and what came of it;
      and none of these ended the run. */
  ghost predicate Story(a: Agent, w: World, history: seq<Message>, turns: seq<Turn>, requests: seq<Request>) {
    turns == [] ||
    var before, t := turns[..|turns| - 1], turns[|turns| - 1];
    && Story(a, w, history, before, requests)
    && Follows(a, w, history, before, requests, t)
    && (t.Worked? ==> !Completes(t.batch))
  }

  datatype Pause = BeforeAsking | AfterAnswer | AfterTools

  datatype Ending = TooManyTools | Answered | Rendered | Summarised | Stopped(at: Pause) | Failing

  function Iterations(a: Agent): nat {
    if a.maxIterations <= 0 then DEFAULT_MAX_ITERATIONS else a.maxIterations
  }

  // The request for a summary, without tools.
  ghost predicate AsksSummary(history: seq<Message>, turns: seq<Turn>, requests: seq<Request>) {
    forall i :: StreamsOf(turns) <= i < |requests| ==>
      requests[i] == Request(history + (Written(turns) + [Message(System, SUMMARY_REQUEST, [], "")]), [])
  }

  /** How the run ends after `turns`; a render ends it within the last of them. */
  ghost predicate Closes(a: Agent, w: World, history: seq<Message>, turns: seq<Turn>, requests: seq<Request>,
                         ending: Ending) {
    var first, end, polls := StreamsOf(turns), |requests|, PollsOf(turns);
    match ending
    case TooManyTools => end == first && ListOf(a, w, turns).None?
    case Rendered => end == first
    case Answered =>
      && |turns| < Iterations(a) && Heeded(a, w, history, turns, requests, end) && CallsBetween(w, first, end) == []
      && (w.forcesLoad(end) ==> HasNudge(turns)) && Satisfied(a, history, Written(turns))
    case Summarised => |turns| == Iterations(a) && AsksSummary(history, turns, requests) && Served(w, first, end)
    case Stopped(BeforeAsking) => |turns| < Iterations(a) && end == first && w.cancelled(polls)
    case Stopped(AfterAnswer) =>
      && |turns| < Iterations(a) && Asks(a, w, history, turns, requests, first, end) && Served(w, first, end)
      && !w.cancelled(polls) && w.cancelled(polls + 1)
    case Stopped(AfterTools) =>
      && |turns| < Iterations(a) && Heeded(a, w, history, turns, requests, end) && CallsBetween(w, first, end) != []
      && w.cancelled(polls + 2)
    case Failing =>
      && |turns| <= Iterations(a) && GivenUp(w, first, end)
      && if |turns| == Iterations(a) then AsksSummary(history, turns, requests)
         else !w.cancelled(polls) && Asks(a, w, history, turns, requests, first, end)
  }

  ghost predicate Tells(a: Agent, w: World, history: seq<Message>, turns: seq<Turn>, requests: seq<Request>,
                        ending: Ending) {
    && |turns| <= Iterations(a)
    && Closes(a, w, history, turns, requests, ending)
    && if ending.Rendered? then
         turns != [] &&
         var before, t := turns[..|turns| - 1], turns[|turns| - 1];
         && Story(a, w, history, before, requests) && Follows(a, w, history, before, requests, t)
         && t.Worked? && Completes(t.batch)
       else Story(a, w, history, turns, requests)
  }

  // What is emitted last.
  ghost function LastWords(w: World, first: nat, end: nat, ending: Ending): seq<Event> {
    match ending
    case TooManyTools => [Error("too many tools"), Done]
    case Rendered => [Checkpoint("Interactive view rendered successfully."), Done]
    case Answered => TextsBetween(w, first, end) + [Done]
    case Summarised => TextsBetween(w, first, end) + [Done]
    case Stopped(BeforeAsking) => []
    case Stopped(AfterAnswer) => TextsBetween(w, first, end)
    case Stopped(AfterTools) => TextsBetween(w, first, end) + [TextClear]
    case Failing =>
      TextsBetween(w, first, end) + if GivenUp(w, first, end) then [Error(FailureOf(w, first, end))] else []
  }

  ghost function RawOf(w: World, turns: seq<Turn>, streams: nat, ending: Ending): seq<Event> {
    Raw(w, turns) + LastWords(w, StreamsOf(turns), streams, ending)
  }

  // ----- what the story means -----

  // A request is the history and what the loop appended, well paired.
  ghost predicate WellFormed(history: seq<Message>, r: Request) {
    && |history| <= |r.messages|
    && r.messages[..|history|] == history
    && WellPaired(r.messages[|history|..])
  }

  lemma FollowsPairs(a: Agent, w: World, history: seq<Message>, turns: seq<Turn>, requests: seq<Request>, t: Turn)
    requires Follows(a, w, history, turns, requests, t) && WellPaired(Written(turns))
    ensures WellPaired(Written(turns) + MessagesOf(t))
  {
    hide Heeded, Settles, Owed, WellPaired, Written, Replies;
    if t.Worked? {
      SettlesReplies(a, w, t.end, t.calls, t.batch);
      PairedRound(Written(turns), t.calls, RepliesOf(t.batch));
    } else {
      PairedInstruction(Written(turns), MessagesOf(t)[0]);
    }
  }

  lemma AskedPairs(a: Agent, w: World, history: seq<Message>, turns: seq<Turn>, requests: seq<Request>, end: nat)
    requires WellPaired(Written(turns)) && Asks(a, w, history, turns, requests, StreamsOf(turns), end)
    ensures forall i :: StreamsOf(turns) <= i < end ==> WellFormed(history, requests[i])
  {
    assert (history + Written(turns))[|history|..] == Written(turns);
    assert (history + Written(turns))[..|history|] == history;
  }

  lemma {:induction false} StoryPairs(a: Agent, w: World, history: seq<Message>, turns: seq<Turn>,
                                      requests: seq<Request>)
    requires Story(a, w, history, turns, requests)
    ensures WellPaired(Written(turns)) && StreamsOf(turns) <= |requests|
    ensures forall i :: 0 <= i < StreamsOf(turns) ==> WellFormed(history, requests[i])
    ensures StreamsOf(turns) <= (MAX_RATE_LIMIT_RETRIES + 1) * |turns|
  {
    if turns != [] {
      var before, t := turns[..|turns| - 1], turns[|turns| - 1];
      StoryPairs(a, w, history, before, requests);
      FollowsPairs(a, w, history, before, requests, t);
      AskedPairs(a, w, history, before, requests, t.end);
    }
  }

  lemma SummaryPairs(history: seq<Message>, turns: seq<Turn>, requests: seq<Request>)
    requires WellPaired(Written(turns)) && AsksSummary(history, turns, requests)
    ensures forall i :: StreamsOf(turns) <= i < |requests| ==> WellFormed(history, requests[i])
  {
    var last := Message(System, SUMMARY_REQUEST, [], "");
    PairedInstruction(Written(turns), last);
    assert (history + (Written(turns) + [last]))[|history|..] == Written(turns) + [last];
    assert (history + (Written(turns) + [last]))[..|history|] == history;
  }

  /** Every request pairs tool calls with replies, and there are at most three streams for every pass
      and for the summary. */
  lemma RequestsPaired(a: Agent, w: World, history: seq<Message>, turns: seq<Turn>, requests: seq<Request>,
                       ending: Ending)
    requires Tells(a, w, history, turns, requests, ending)
    ensures forall i :: 0 <= i < |requests| ==> WellFormed(history, requests[i])
    ensures |requests| <= (MAX_RATE_LIMIT_RETRIES + 1) * (Iterations(a) + 1)
  {
    if ending.Rendered? {
      var before, t := turns[..|turns| - 1], turns[|turns| - 1];
      StoryPairs(a, w, history, before, requests);
      AskedPairs(a, w, history, before, requests, t.end);
    } else {
      StoryPairs(a, w, history, turns, requests);
      if ending.Summarised? || (ending.Failing? && |turns| == Iterations(a)) {
        SummaryPairs(history, turns, requests);
      } else {
        AskedPairs(a, w, history, turns, requests, |requests|);
      }
    }
  }

  lemma TurnQuiet(a: Agent, w: World, history: seq<Message>, turns: seq<Turn>, requests: seq<Request>, t: Turn)
    requires Polite(a) && Follows(a, w, history, turns, requests, t)
    ensures Quiet(TurnEvents(w, t))
  {
    StreamsQuiet(w, t.first, t.end);
    if t.Worked? {
      SettlesQuiet(a, w, t.end, t.calls, t.batch, Completes(t.batch));
    }
  }

  lemma {:induction false} StoryQuiet(a: Agent, w: World, history: seq<Message>, turns: seq<Turn>,
                                      requests: seq<Request>)
    requires Polite(a) && Story(a, w, history, turns, requests)
    ensures Quiet(Raw(w, turns))
  {
    if turns != [] {
      var before, t := turns[..|turns| - 1], turns[|turns| - 1];
      StoryQuiet(a, w, history, before, requests);
      TurnQuiet(a, w, history, before, requests, t);
    }
  }

  lemma RawQuiet(a: Agent, w: World, history: seq<Message>, turns: seq<Turn>, requests: seq<Request>, ending: Ending)
    requires Polite(a) && Tells(a, w, history, turns, requests, ending)
    ensures Quiet(Raw(w, turns))
  {
    if ending.Rendered? {
      var before, t := turns[..|turns| - 1], turns[|turns| - 1];
      StoryQuiet(a, w, history, before, requests);
      TurnQuiet(a, w, history, before, requests, t);
    } else {
      StoryQuiet(a, w, history, turns, requests);
    }
  }

  // Done comes last if at all, a checkpoint only right before it, and which of the two tells the ending.
  ghost predicate Ends(events: seq<Event>, ending: Ending) {
    var n := |events|;
    match ending
    case Stopped(_) => Quiet(events)
    case Failing => Quiet(events)
    case Rendered => n >= 2 && Quiet(events[..n - 2]) && events[n - 2].Checkpoint? && events[n - 1].Done?
    case _ => n >= 1 && Quiet(events[..n - 1]) && events[n - 1].Done?
  }

  lemma EndsAfter(n: CanvasFence.Normalizer, raw: seq<Event>, last: seq<Event>, ending: Ending)
    requires Quiet(raw + last)
    ensures ending.Stopped? || ending.Failing? ==> Ends(Heard(n, raw + last), ending)
    ensures ending.Answered? || ending.Summarised? || ending.TooManyTools? ==>
      Ends(Heard(n, raw + (last + [Done])), ending)
  {
    hide PassedAll;
    HeardQuiet(n, raw + last);
    HeardLast(n, raw + last, Done);
    assert raw + (last + [Done]) == raw + last + [Done];
    assert (Heard(n, raw + last) + [Done])[..|Heard(n, raw + last)|] == Heard(n, raw + last);
  }

  lemma EndsRendered(n: CanvasFence.Normalizer, raw: seq<Event>, text: string)
    requires Quiet(raw)
    ensures Ends(Heard(n, raw + [Checkpoint(text), Done]), Rendered)
  {
    HeardQuiet(n, raw);
    HeardLast(n, raw, Checkpoint(text));
    HeardLast(n, raw + [Checkpoint(text)], Done);
    assert raw + [Checkpoint(text), Done] == raw + [Checkpoint(text)] + [Done];
    var heard := Heard(n, raw) + [Checkpoint(text)] + [Done];
    assert heard[..|heard| - 2] == Heard(n, raw);
  }

  /** As long as no hook of an internal tool says so itself, a run ends as its ending says. */
  lemma EndsAsTold(a: Agent, w: World, history: seq<Message>, turns: seq<Turn>, requests: seq<Request>, ending: Ending)
    requires Polite(a) && Tells(a, w, history, turns, requests, ending)
    ensures Ends(Heard(a.normalize, RawOf(w, turns, |requests|, ending)), ending)
  {
    hide Raw, TextsBetween, StreamsOf, Written, PollsOf, RoundsOf, Story, Ends;
    var raw, first, end := Raw(w, turns), StreamsOf(turns), |requests|;
    RawQuiet(a, w, history, turns, requests, ending);
    StreamsQuiet(w, first, end);
    match ending
    case Rendered => EndsRendered(a.normalize, raw, "Interactive view rendered successfully.");
    case TooManyTools =>
      EndsAfter(a.normalize, raw, [Error("too many tools")], ending);
      assert [Error("too many tools"), Done] == [Error("too many tools")] + [Done];
    case Answered => EndsAfter(a.normalize, raw, TextsBetween(w, first, end), ending);
    case Summarised => EndsAfter(a.normalize, raw, TextsBetween(w, first, end), ending);
    case Stopped(_) => EndsAfter(a.normalize, raw, LastWords(w, first, end, ending), ending);
    case Failing => EndsAfter(a.normalize, raw, LastWords(w, first, end, ending), ending);
  }

  /** In a run's events, Done comes at most once and nothing after it; it comes at all exactly when the run
      was neither stopped nor broken off; and a checkpoint comes only right before it. */
  lemma DoneIsLast(a: Agent, w: World, history: seq<Message>, turns: seq<Turn>, requests: seq<Request>, ending: Ending,
                   i: nat)
    requires Polite(a) && Tells(a, w, history, turns, requests, ending)
    requires i < |Heard(a.normalize, RawOf(w, turns, |requests|, ending))|
    ensures var events := Heard(a.normalize, RawOf(w, turns, |requests|, ending));
      && (events[i].Done? ==> i == |events| - 1)
      && (events[i].Checkpoint? ==> ending.Rendered? && i == |events| - 2 && events[i + 1].Done?)
      && ((exists j :: 0 <= j < |events| && events[j].Done?) <==> !ending.Stopped? && !ending.Failing?)
  {
    hide PassedAll, Tells, Raw;
    var events := Heard(a.normalize, RawOf(w, turns, |requests|, ending));
    var n := |events|;
    EndsAsTold(a, w, history, turns, requests, ending);
    if ending.Rendered? {
      assert i < n - 2 ==> Ordinary(events[..n - 2][i]);
    } else if !ending.Stopped? && !ending.Failing? {
      assert i < n - 1 ==> Ordinary(events[..n - 1][i]);
    }
  }

  /** A checkpoint is earned: the calls are those the provider asked for last, each of them was carried out
      without an error, some result was eligible, and every eligible one parsed as a render. */
  lemma CheckpointEarned(a: Agent, w: World, history: seq<Message>, turns: seq<Turn>, requests: seq<Request>,
                         ending: Ending, k: nat)
    requires Tells(a, w, history, turns, requests, ending) && ending.Rendered?
    requires k < |turns[|turns| - 1].calls|
    ensures var t := turns[|turns| - 1];
      && t.end == |requests| && t.calls == CallsBetween(w, t.first, t.end) && |t.batch| == |t.calls|
      && Written(turns) == Written(turns[..|turns| - 1]) + [Message(Assistant, "", t.calls, "")] + RepliesOf(t.batch)
      && exists i :: 0 <= i < |t.batch| && t.batch[i].eligible
    ensures var call, o := turns[|turns| - 1].calls[k], w.outcome(|requests|, k);
      && turns[|turns| - 1].batch[k] == Settle(a, call, o) && Succeeds(a, call, o)
      && (Eligible(a, call.name) ==> a.parseTerminal(o.result).Some? || a.parseCanvas(o.result).Some?)
  {
    hide CallsBetween, PollsOf, Story, HasNudge, TextsBetween;
    var t := turns[|turns| - 1];
    SettledMeaning(a, t.calls[k], w.outcome(t.end, k));
    assert Written(turns) ==
      Written(turns[..|turns| - 1]) + ([Message(Assistant, "", t.calls, "")] + RepliesOf(t.batch));
  }

  // No tool under the empty name is required after an interest.
  predicate EmptyNameFree(a: Agent) {
    "" in a.hostTools ==> a.hostTools[""].requiredAfterInterest == ""
  }

  /** A text answer leaves no required tool uncalled exactly when the one under the empty name is not owed, which
      it never is if it requires no interest; and it answers a request that shows all of the run. */
  lemma AnswerComplete(a: Agent, w: World, history: seq<Message>, turns: seq<Turn>, requests: seq<Request>,
                       ending: Ending)
    requires Tells(a, w, history, turns, requests, ending) && ending.Answered?
    ensures (forall name :: !Owed(a, history, Written(turns), name)) <==> !Owed(a, history, Written(turns), "")
    ensures EmptyNameFree(a) ==> forall name :: !Owed(a, history, Written(turns), name)
    ensures requests != [] && requests[|requests| - 1].messages == history + Written(turns)
    ensures CallsBetween(w, StreamsOf(turns), |requests|) == []
  {
  }

  // What holds of every list of tools that is offered.
  ghost predicate AlwaysOffers(w: World, property: seq<ToolDef> -> bool) {
    property([]) && forall i :: w.toolList(i).Some? ==> property(w.toolList(i).value)
  }

  lemma {:induction false} StoryOffers(a: Agent, w: World, history: seq<Message>, turns: seq<Turn>,
                                       requests: seq<Request>, property: seq<ToolDef> -> bool)
    requires Story(a, w, history, turns, requests) && AlwaysOffers(w, property)
    ensures StreamsOf(turns) <= |requests|
    ensures forall i :: 0 <= i < StreamsOf(turns) ==> property(requests[i].tools)
  {
    if turns != [] {
      StoryOffers(a, w, history, turns[..|turns| - 1], requests, property);
    }
  }

  /** What holds of all lists of tools holds of the tools of every request. */
  lemma RequestsOffer(a: Agent, w: World, history: seq<Message>, turns: seq<Turn>, requests: seq<Request>,
                      ending: Ending, property: seq<ToolDef> -> bool)
    requires Tells(a, w, history, turns, requests, ending) && AlwaysOffers(w, property)
    ensures forall i :: 0 <= i < |requests| ==> property(requests[i].tools)
  {
    StoryOffers(a, w, history, if ending.Rendered? then turns[..|turns| - 1] else turns, requests, property);
  }

  // Every list is one that filteredTools sends for some state of the router and of what is loaded.
  ghost predicate ListsFiltered(w: World, cfg: Config) {
    forall i :: exists loaded, tools, servers :: Sends(cfg, loaded, tools, servers, w.toolList(i))
  }

  predicate WithinLimits(tools: seq<ToolDef>) {
    |tools| <= MAX_TOOLS_PER_REQUEST && Total(tools).bytes <= MAX_TOOL_BYTES_PER_REQUEST
  }

  /** Every request of a run, that for the summary included, has at most 128 tools and 384 KiB of definitions. */
  lemma RequestsFit(a: Agent, w: World, history: seq<Message>, turns: seq<Turn>, requests: seq<Request>,
                    ending: Ending, cfg: Config)
    requires Tells(a, w, history, turns, requests, ending) && ListsFiltered(w, cfg)
    ensures forall i :: 0 <= i < |requests| ==> WithinLimits(requests[i].tools)
  {
    forall i | w.toolList(i).Some? ensures WithinLimits(w.toolList(i).value) {
      var loaded, tools, servers :| Sends(cfg, loaded, tools, servers, w.toolList(i));
      RequestFits(cfg, loaded, tools, servers, w.toolList(i));
    }
    RequestsOffer(a, w, history, turns, requests, ending, WithinLimits);
  }

  lemma {:induction false} FirstFollows(a: Agent, w: World, history: seq<Message>, turns: seq<Turn>,
                                        requests: seq<Request>)
    requires Story(a, w, history, turns, requests) && turns != []
    ensures Follows(a, w, history, [], requests, turns[0])
  {
    if |turns| > 1 {
      FirstFollows(a, w, history, turns[..|turns| - 1], requests);
    } else {
      assert turns[..0] == [];
    }
  }

  // The first request is served at once by text alone, and nothing is asked for loading.
  predicate AnswersAtOnce(w: World) {
    && w.stream(0).error.None? && CallsOf(w.stream(0).events) == [] && !w.forcesLoad(1)
    && !w.cancelled(0) && !w.cancelled(1) && w.toolList(0).Some?
  }

  lemma ServedAtOnce(w: World, end: nat)
    requires w.stream(0).error.None? && Retries(w, 0, end)
    ensures end == 1 && CallsBetween(w, 0, end) == CallsOf(w.stream(0).events)
  {
    assert !TriedAgain(w, 0);
    assert CallsBetween(w, 0, 1) == CallsBetween(w, 0, 0) + CallsOf(w.stream(0).events);
  }

  lemma NothingFollows(a: Agent, w: World, history: seq<Message>, requests: seq<Request>, t: Turn)
    requires AnswersAtOnce(w) && Follows(a, w, history, [], requests, t)
    ensures t.Demanded? && t.tool != "" && Owed(a, history, [], t.tool)
  {
    ServedAtOnce(w, t.end);
  }

  /** A tool that is required under the empty name is never demanded: when nothing else is owed and the model just
      answers, every run ends there, with the tool still owed. */
  lemma EmptyNameStands(a: Agent, w: World, history: seq<Message>, turns: seq<Turn>, requests: seq<Request>,
                        ending: Ending)
    requires AnswersAtOnce(w) && Tells(a, w, history, turns, requests, ending)
    requires Owed(a, history, [], "") && forall name :: name != "" ==> !Owed(a, history, [], name)
    ensures ending.Answered? && turns == [] && Owed(a, history, Written(turns), "")
  {
    if turns != [] {
      var before := if ending.Rendered? then turns[..|turns| - 1] else turns;
      if before != [] {
        FirstFollows(a, w, history, before, requests);
        NothingFollows(a, w, history, requests, before[0]);
      } else {
        NothingFollows(a, w, history, requests, turns[0]);
      }
    } else if Retries(w, 0, |requests|) {
      ServedAtOnce(w, |requests|);
    }
  }

  // ----- the run -----

  lemma FollowsMore(a: Agent, w: World, history: seq<Message>, turns: seq<Turn>, requests: seq<Request>,
                    more: seq<Request>, t: Turn)
    requires Follows(a, w, history, turns, requests, t) && |requests| <= |more| && more[..|requests|] == requests
    ensures Follows(a, w, history, turns, more, t)
  {
    hide Settles, Owed, CallsBetween, HasNudge, PollsOf, Written, ListOf;
    assert forall i :: 0 <= i < |requests| ==> more[i] == requests[i];
  }

  lemma {:induction false} StoryMore(a: Agent, w: World, history: seq<Message>, turns: seq<Turn>,
                                     requests: seq<Request>, more: seq<Request>)
    requires Story(a, w, history, turns, requests) && |requests| <= |more| && more[..|requests|] == requests
    ensures Story(a, w, history, turns, more)
  {
    hide Follows;
    if turns != [] {
      StoryMore(a, w, history, turns[..|turns| - 1], requests, more);
      FollowsMore(a, w, history, turns[..|turns| - 1], requests, more, turns[|turns| - 1]);
    }
  }

  lemma StorySnoc(a: Agent, w: World, history: seq<Message>, turns: seq<Turn>, requests: seq<Request>, t: Turn)
    requires Story(a, w, history, turns, requests) && Follows(a, w, history, turns, requests, t)
    requires t.Worked? ==> !Completes(t.batch)
    ensures Story(a, w, history, turns + [t], requests)
  {
    assert (turns + [t])[..|turns|] == turns;
  }

  lemma RoundJoins(w: World, t: Turn, raw: seq<Event>, written: seq<Message>)
    requires t.Worked?
    ensures raw + (TextsBetween(w, t.first, t.end) + [TextClear]) + BatchEvents(t.batch, Completes(t.batch))
      == raw + TurnEvents(w, t)
    ensures written + [Message(Assistant, "", t.calls, "")] + RepliesOf(t.batch) == written + MessagesOf(t)
  {
  }

  // What one more pass adds.
  lemma TurnSnoc(w: World, turns: seq<Turn>, t: Turn)
    ensures Written(turns + [t]) == Written(turns) + MessagesOf(t)
    ensures StreamsOf(turns + [t]) == t.end
    ensures PollsOf(turns + [t]) == PollsOf(turns) + if t.Worked? then 3 else 2
    ensures RoundsOf(turns + [t]) == RoundsOf(turns) + if t.Worked? then 1 else 0
    ensures HasNudge(turns + [t]) <==> t.Nudged? || HasNudge(turns)
    ensures Raw(w, turns + [t]) == Raw(w, turns) + TurnEvents(w, t)
  {
    assert (turns + [t])[..|turns|] == turns;
  }

  function Indices(n: nat): (r: set<nat>)
    ensures forall i: nat :: i in r <==> i < n
  {
    if n == 0 then {} else Indices(n - 1) + {n - 1}
  }

  datatype Answer = Responded(calls: seq<ToolCall>) | Broke

  // `turns` is the record of the passes so far, not part of the program's state.
  class AgentRun {
    const agent: Agent
    const world: World
    const history: seq<Message>
    const interceptor: CanvasFence.Interceptor
    var appended: seq<Message>
    var requests: seq<Request>
    var polls: nat
    var lists: nat
    var tools: seq<ToolDef>
    var loadedInterests: set<string>
    var calledTools: set<string>
    var turns: seq<Turn>

    ghost function Sent(): Channel
      reads interceptor
    {
      Channel(interceptor.buffer, interceptor.inside, interceptor.Sent())
    }

    // Exactly `raw` has been emitted.
    ghost predicate HasSaid(raw: seq<Event>)
      reads interceptor
    {
      interceptor.normalize == agent.normalize && Sent() == PassedAll(agent.normalize, START, raw)
    }

    // The records of interests and calls agree with the messages `written` so far.
    ghost predicate Recorded(written: seq<Message>)
      reads this
    {
      && (forall id :: id in loadedInterests <==> LoadedIn(agent, history + written, id))
      && (forall name :: name in calledTools <==> CalledIn(written, name))
    }

    // The state after `turns`, except for requests and polls of a pass under way.
    ghost predicate Kept()
      reads this
    {
      && Story(agent, world, history, turns, requests)
      && appended == Written(turns) && Recorded(appended)
      && lists == (if agent.inBand then RoundsOf(turns) else 0) + 1
      && Some(tools) == ListOf(agent, world, turns)
    }

    // Between two passes.
    ghost predicate Valid()
      reads this, interceptor
    {
      Kept() && |requests| == StreamsOf(turns) && polls == PollsOf(turns) && HasSaid(Raw(world, turns))
    }

    // The request of this pass has been answered.
    ghost predicate InPass()
      reads this, interceptor
    {
      && Kept() && Heeded(agent, world, history, turns, requests, |requests|) && polls == PollsOf(turns) + 2
      && HasSaid(Raw(world, turns) + TextsBetween(world, StreamsOf(turns), |requests|))
    }

    // The run is over.
    ghost predicate Over(ending: Ending)
      reads this, interceptor
    {
      && Tells(agent, world, history, turns, requests, ending)
      && HasSaid(RawOf(world, turns, |requests|, ending))
    }

    constructor (agent: Agent, world: World, history: seq<Message>)
      ensures this.agent == agent && this.world == world && this.history == history
      ensures fresh(interceptor) && HasSaid([])
      ensures appended == [] && requests == [] && tools == [] && polls == 0 && lists == 0 && turns == []
      ensures loadedInterests == {} && calledTools == {}
    {
      this.agent, this.world, this.history := agent, world, history;
      interceptor := new CanvasFence.Interceptor(agent.normalize);
      appended, requests, polls, lists, tools := [], [], 0, 0, [];
      loadedInterests, calledTools, turns := {}, {}, [];
    }

    /** The wrapped emit of a run. */
    method Emit(e: Event)
      modifies interceptor
      ensures Sent() == Passed(interceptor.normalize, old(Sent()), e)
    {
      if e.Text? {
        interceptor.HandleToken(e.text);
      } else {
        interceptor.Flush();
        interceptor.emitted := interceptor.emitted + [e];
      }
    }

    method Say(e: Event, ghost raw: seq<Event>)
      requires HasSaid(raw)
      modifies interceptor
      ensures HasSaid(raw + [e])
    {
      PassedSnoc(agent.normalize, START, raw, e);
      Emit(e);
    }

    method SayAll(events: seq<Event>, ghost raw: seq<Event>)
      requires HasSaid(raw)
      modifies interceptor
      ensures HasSaid(raw + events)
    {
      hide PassedAll;
      assert raw + events[..0] == raw;
      for i := 0 to |events|
        invariant HasSaid(raw + events[..i])
      {
        assert raw + events[..i + 1] == raw + events[..i] + [events[i]];
        Say(events[i], raw + events[..i]);
      }
      assert events[..|events|] == events;
    }

    // ----- asking the provider -----

    /** The events of a stream: text is emitted as it comes, tool calls are collected. */
    method ReadEvents(events: seq<StreamEvent>, ghost raw: seq<Event>) returns (calls: seq<ToolCall>)
      requires HasSaid(raw)
      modifies interceptor
      ensures HasSaid(raw + TextsOf(events))
      ensures calls == CallsOf(events)
    {
      hide PassedAll;
      calls := [];
      assert raw + TextsOf(events[..0]) == raw;
      for i := 0 to |events|
        invariant HasSaid(raw + TextsOf(events[..i]))
        invariant calls == CallsOf(events[..i])
      {
        assert events[..i + 1][..i] == events[..i];
        match events[i]
        case Delta(text) =>
          assert raw + TextsOf(events[..i + 1]) == raw + TextsOf(events[..i]) + [Text(text)];
          Say(Text(text), raw + TextsOf(events[..i]));
        case Requested(call) => calls := calls + [call];
        case Finish =>
      }
      assert events[..|events|] == events;
    }

    method OpenStream(offered: seq<ToolDef>, ghost raw: seq<Event>)
        returns (calls: seq<ToolCall>, error: Option<string>)
      requires HasSaid(raw)
      modifies this`requests, interceptor
      ensures HasSaid(raw + TextsOf(world.stream(|old(requests)|).events))
      ensures requests == old(requests) + [Request(history + appended, offered)]
      ensures calls == CallsOf(world.stream(|old(requests)|).events)
      ensures error == world.stream(|old(requests)|).error
    {
      var stream := world.stream(|requests|);
      requests := requests + [Request(history + appended, offered)];
      calls := ReadEvents(stream.events, raw);
      error := stream.error;
    }

    /** One request, tried again while it is rate limited: calls of a broken stream are kept. */
    method AskProvider(offered: seq<ToolDef>, ghost raw: seq<Event>) returns (answer: Answer)
      requires HasSaid(raw)
      modifies this`requests, interceptor
      ensures |old(requests)| < |requests| && requests[..|old(requests)|] == old(requests)
      ensures forall i :: |old(requests)| <= i < |requests| ==> requests[i] == Request(history + appended, offered)
      ensures var first, end := |old(requests)|, |requests|;
        && (answer.Responded? ==>
          Served(world, first, end) && answer.calls == CallsBetween(world, first, end)
          && HasSaid(raw + TextsBetween(world, first, end)))
        && (answer.Broke? ==>
          GivenUp(world, first, end)
          && HasSaid(raw + (TextsBetween(world, first, end) + [Error(FailureOf(world, first, end))])))
    {
      hide PassedAll, TextsOf, CallsOf;
      ghost var first := |requests|;
      var pending, retry := [], 0;
      assert raw + TextsBetween(world, first, |requests|) == raw;
      while true
        invariant 0 <= retry <= MAX_RATE_LIMIT_RETRIES && |requests| == first + retry
        invariant requests[..first] == old(requests)
        invariant forall i :: first <= i < |requests| ==> requests[i] == Request(history + appended, offered)
        invariant forall i :: first <= i < |requests| ==> TriedAgain(world, i)
        invariant pending == CallsBetween(world, first, |requests|)
        invariant HasSaid(raw + TextsBetween(world, first, |requests|))
        decreases MAX_RATE_LIMIT_RETRIES - retry
      {
        ghost var said := raw + TextsBetween(world, first, |requests|);
        var calls, error := OpenStream(offered, said);
        assert said + TextsOf(world.stream(|requests| - 1).events) == raw + TextsBetween(world, first, |requests|);
        pending := pending + calls;
        if error.None? {
          return Responded(pending);
        }
        ghost var texts := TextsBetween(world, first, |requests|);
        if !world.rateLimited(error.value) || retry == MAX_RATE_LIMIT_RETRIES {
          Say(Error(error.value), raw + texts);
          assert raw + texts + [Error(error.value)] == raw + (texts + [Error(FailureOf(world, first, |requests|))]);
          return Broke;
        }
        if world.waitCancelled(|requests|) {
          Say(Error("Request cancelled"), raw + texts);
          assert raw + texts + [Error("Request cancelled")] ==
            raw + (texts + [Error(FailureOf(world, first, |requests|))]);
          return Broke;
        }
        retry := retry + 1;
      }
    }

    method Cancelled() returns (yes: bool)
      modifies this`polls
      ensures yes == world.cancelled(old(polls)) && polls == old(polls) + 1
    {
      yes := world.cancelled(polls);
      polls := polls + 1;
    }

    // ----- one batch of tool calls -----

    /** The goroutines of a batch, finishing in any order: each fills its own index. */
    method RunBatch(calls: seq<ToolCall>) returns (results: array<Settled>)
      requires calls != []
      ensures fresh(results) && Settles(agent, world, |requests|, calls, results[..])
    {
      var blank := Failure(calls[0], [], "", false);
      results := new Settled[|calls|](_ => blank);
      var running := Indices(|calls|);
      while running != {}
        invariant forall i :: i in running ==> 0 <= i < |calls|
        invariant forall i :: 0 <= i < |calls| && i !in running ==>
          results[i] == Settle(agent, calls[i], world.outcome(|requests|, i))
      {
        var i :| i in running;
        results[i] := Settle(agent, calls[i], world.outcome(|requests|, i));
        running := running - {i};
      }
    }

    /** Whether a batch ends the run. */
    method Complete(batch: seq<Settled>) returns (complete: bool)
      ensures complete <==> Completes(batch)
    {
      var some, hadError, invalid := false, false, false;
      for i := 0 to |batch|
        invariant some <==> exists j :: 0 <= j < i && batch[j].eligible
        invariant hadError <==> exists j :: 0 <= j < i && batch[j].isError
        invariant invalid <==> exists j :: 0 <= j < i && batch[j].eligible && !batch[j].valid
      {
        hadError := hadError || batch[i].isError;
        if !batch[i].eligible {
          continue;
        }
        some := true;
        invalid := invalid || !batch[i].valid;
      }
      complete := some && !hadError && !invalid;
    }

    /** Events and messages of a batch, in the order of its calls. */
    method FlushBatch(batch: seq<Settled>, mark: bool, ghost raw: seq<Event>)
      requires HasSaid(raw)
      modifies this`appended, interceptor
      ensures HasSaid(raw + BatchEvents(batch, mark))
      ensures appended == old(appended) + RepliesOf(batch)
    {
      hide PassedAll, Marked;
      assert raw + BatchEvents(batch[..0], mark) == raw;
      for i := 0 to |batch|
        invariant HasSaid(raw + BatchEvents(batch[..i], mark))
        invariant appended == old(appended) + RepliesOf(batch[..i])
      {
        assert batch[..i + 1][..i] == batch[..i];
        ghost var said := raw + BatchEvents(batch[..i], mark);
        assert raw + BatchEvents(batch[..i + 1], mark) == said + SettledEvents(batch[i], mark);
        SayAll(if mark then Marked(batch[i]) else batch[i].events, said);
        appended := appended + [batch[i].message];
      }
      assert batch[..|batch|] == batch;
    }

    // ----- the records -----

    /** Interests loaded by `calls` are added to the record. */
    method NoteInterests(calls: seq<ToolCall>)
      modifies this`loadedInterests
      ensures forall id :: id in loadedInterests <==>
        id in old(loadedInterests) || exists call :: call in calls && Names(agent, call, id)
    {
      for i := 0 to |calls|
        invariant forall id :: id in loadedInterests <==>
          id in old(loadedInterests) || exists call :: call in calls[..i] && Names(agent, call, id)
      {
        assert calls[..i + 1] == calls[..i] + [calls[i]];
        if calls[i].name == "get_interest" {
          var id := agent.interestOf(calls[i].input);
          if id.Some? && id.value != "" {
            assert Names(agent, calls[i], id.value);
            loadedInterests := loadedInterests + {id.value};
          }
        }
      }
      assert calls[..|calls|] == calls;
    }

    method NoteCalls(calls: seq<ToolCall>)
      modifies this`calledTools
      ensures forall name :: name in calledTools <==>
        name in old(calledTools) || exists call :: call in calls && call.name == name
    {
      for i := 0 to |calls|
        invariant forall name :: name in calledTools <==>
          name in old(calledTools) || exists call :: call in calls[..i] && call.name == name
      {
        assert calls[..i + 1] == calls[..i] + [calls[i]];
        calledTools := calledTools + {calls[i].name};
      }
      assert calls[..|calls|] == calls;
    }

    /** missingRequiredTool: nothing is reported as the empty name. */
    method MissingRequiredTool() returns (missing: string)
      requires Recorded(appended)
      ensures missing != "" ==> Owed(agent, history, appended, missing)
      ensures missing == "" ==> Satisfied(agent, history, appended)
    {
      var waiting := agent.hostTools.Keys;
      while waiting != {}
        invariant forall name :: Owed(agent, history, appended, name) ==> name in waiting
      {
        var name :| name in waiting;
        var tool := agent.hostTools[name];
        if tool.requiredAfterInterest != "" && tool.requiredAfterInterest in loadedInterests && name !in calledTools {
          return name;
        }
        waiting := waiting - {name};
      }
      return "";
    }

    lemma NothingCalled(before: seq<Message>, m: Message)
      requires m.toolCalls == []
      ensures forall id :: LoadedIn(agent, history + (before + [m]), id) <==> LoadedIn(agent, history + before, id)
      ensures forall name :: CalledIn(before + [m], name) <==> CalledIn(before, name)
    {
      assert history + (before + [m]) == (history + before) + [m];
      forall call ensures CallsIn(history + (before + [m]), call) <==> CallsIn(history + before, call) {
        CallsInAppend(history + before, [m], call);
      }
      forall call ensures CallsIn(before + [m], call) <==> CallsIn(before, call) {
        CallsInAppend(before, [m], call);
      }
    }

    lemma RoundCalled(before: seq<Message>, calls: seq<ToolCall>, replies: seq<Message>)
      requires Replies(replies, calls)
      ensures var after := before + ([Message(Assistant, "", calls, "")] + replies);
        && (forall id :: LoadedIn(agent, history + after, id) <==>
          LoadedIn(agent, history + before, id) || exists call :: call in calls && Names(agent, call, id))
        && (forall name :: CalledIn(after, name) <==>
          CalledIn(before, name) || exists call :: call in calls && call.name == name)
    {
      var round := [Message(Assistant, "", calls, "")] + replies;
      assert history + (before + round) == (history + before) + round;
      forall call
        ensures CallsIn(history + (before + round), call) <==> CallsIn(history + before, call) || call in calls
      {
        CallsInAppend(history + before, round, call);
        CallsInRound(calls, replies, call);
      }
      forall call ensures CallsIn(before + round, call) <==> CallsIn(before, call) || call in calls {
        CallsInAppend(before, round, call);
        CallsInRound(calls, replies, call);
      }
    }

    // ----- passes -----

    /** An answer without tool calls that the loop does not accept: it says so, and the pass is over. */
    method Insist(t: Turn)
      requires InPass() && !t.Worked? && t.end == |requests|
      requires Follows(agent, world, history, turns, requests, t)
      modifies this`appended, this`turns, interceptor
      ensures Valid() && turns == old(turns) + [t]
    {
      hide PassedAll, Story, Written, Raw, TextsBetween, CallsBetween;
      ghost var said := Raw(world, turns) + TextsBetween(world, t.first, t.end);
      TurnSnoc(world, turns, t);
      StorySnoc(agent, world, history, turns, requests, t);
      NothingCalled(appended, MessagesOf(t)[0]);
      assert said + [TextClear] == Raw(world, turns) + TurnEvents(world, t);
      Say(TextClear, said);
      appended := appended + MessagesOf(t);
      turns := turns + [t];
    }

    /** A response without tool calls: it stands unless the loop has something to insist on. */
    method AnswerStands(nudged: bool) returns (stands: bool)
      requires InPass() && CallsBetween(world, StreamsOf(turns), |requests|) == [] && nudged == HasNudge(turns)
      modifies this`appended, this`turns, interceptor
      ensures stands ==> unchanged(this, interceptor)
      ensures stands ==> (world.forcesLoad(|requests|) ==> nudged) && Satisfied(agent, history, appended)
      ensures !stands ==> Valid() && |turns| == |old(turns)| + 1
      ensures !stands ==> HasNudge(turns) == (nudged || world.forcesLoad(|requests|))
    {
      hide PassedAll, Story, Written, Raw, TextsBetween, CallsBetween, LoadedIn, CalledIn, RoundsOf;
      var first, end := StreamsOf(turns), |requests|;
      if world.forcesLoad(end) && !nudged {
        TurnSnoc(world, turns, Nudged(first, end));
        Insist(Nudged(first, end));
        return false;
      }
      var missing := MissingRequiredTool();
      if missing != "" {
        TurnSnoc(world, turns, Demanded(first, end, missing));
        Insist(Demanded(first, end, missing));
        return false;
      }
      return true;
    }

    /** A response with tool calls: run them, report them, and see whether that ends the run. */
    method Round(calls: seq<ToolCall>) returns (ending: Option<Ending>)
      requires InPass() && |turns| < Iterations(agent)
      requires calls == CallsBetween(world, StreamsOf(turns), |requests|) && calls != []
      modifies this`appended, this`polls, this`lists, this`tools, this`loadedInterests, this`calledTools, this`turns,
        interceptor
      ensures ending.None? ==> Valid() && |turns| == |old(turns)| + 1 && HasNudge(turns) == HasNudge(old(turns))
      ensures ending.Some? ==> Over(ending.value)
    {
      hide PassedAll, Story, Written, Raw, TextsBetween, CallsBetween, PollsOf, HasNudge;
      var first, end := StreamsOf(turns), |requests|;
      ghost var said := Raw(world, turns) + TextsBetween(world, first, end);
      assert said + [TextClear] == Raw(world, turns) + (TextsBetween(world, first, end) + [TextClear]);
      Say(TextClear, said);
      appended := appended + [Message(Assistant, "", calls, "")];
      var results := RunBatch(calls);
      var stopped := Cancelled();
      if stopped {
        return Some(Stopped(AfterTools));
      }
      ending := SettleRound(Worked(first, end, calls, results[..]));
    }

    /** What follows once every tool of a round has settled. */
    method SettleRound(t: Turn) returns (ending: Option<Ending>)
      requires Story(agent, world, history, turns, requests) && |turns| < Iterations(agent)
      requires t.Worked? && t.end == |requests| && Follows(agent, world, history, turns, requests, t)
      requires appended == Written(turns) + [Message(Assistant, "", t.calls, "")] && Recorded(Written(turns))
      requires polls == PollsOf(turns) + 3
      requires lists == (if agent.inBand then RoundsOf(turns) else 0) + 1 && Some(tools) == ListOf(agent, world, turns)
      requires HasSaid(Raw(world, turns) + (TextsBetween(world, t.first, t.end) + [TextClear]))
      modifies this`appended, this`lists, this`tools, this`loadedInterests, this`calledTools, this`turns, interceptor
      ensures ending.None? ==> Valid() && |turns| == |old(turns)| + 1 && HasNudge(turns) == HasNudge(old(turns))
      ensures ending.Some? ==> Over(ending.value)
    {
      hide PassedAll, Story, Written, Raw, TextsBetween, CallsBetween, BatchEvents, RepliesOf, LoadedIn, CalledIn,
        MessagesOf, TurnEvents, PollsOf, RoundsOf, HasNudge, Heeded, Owed;
      ghost var before, said := turns, Raw(world, turns) + (TextsBetween(world, t.first, t.end) + [TextClear]);
      var complete := Complete(t.batch);
      TurnSnoc(world, turns, t);
      RoundJoins(world, t, Raw(world, turns), Written(turns));
      FlushBatch(t.batch, complete, said);
      turns := turns + [t];
      if complete {
        EndRendered(before, t);
        return Some(Rendered);
      }
      StorySnoc(agent, world, history, before, requests, t);
      NoteRound(t, Written(before));
      ending := NextTools();
    }

    /** The records catch up with the round just appended. */
    method NoteRound(t: Turn, ghost before: seq<Message>)
      requires t.Worked? && Settles(agent, world, t.end, t.calls, t.batch)
      requires appended == before + MessagesOf(t) && Recorded(before)
      modifies this`loadedInterests, this`calledTools
      ensures Recorded(appended)
    {
      SettlesReplies(agent, world, t.end, t.calls, t.batch);
      RoundCalled(before, t.calls, RepliesOf(t.batch));
      NoteCalls(t.calls);
      NoteInterests(t.calls);
    }

    method EndRendered(ghost before: seq<Turn>, t: Turn)
      requires turns == before + [t] && t.Worked? && t.end == |requests| && Completes(t.batch)
      requires |turns| <= Iterations(agent)
      requires Story(agent, world, history, before, requests) && Follows(agent, world, history, before, requests, t)
      requires HasSaid(Raw(world, turns))
      modifies interceptor
      ensures Over(Rendered)
    {
      hide PassedAll;
      var checkpoint := Checkpoint("Interactive view rendered successfully.");
      Say(checkpoint, Raw(world, turns));
      Say(Done, Raw(world, turns) + [checkpoint]);
      assert turns[..|turns| - 1] == before;
      assert Raw(world, turns) + [checkpoint] + [Done] == Raw(world, turns) + [checkpoint, Done];
    }

    /** filteredTools, once before the loop and with routing after every round. */
    method RefreshTools() returns (ok: bool)
      requires Story(agent, world, history, turns, requests) && |turns| <= Iterations(agent)
      requires |requests| == StreamsOf(turns) && HasSaid(Raw(world, turns))
      requires world.toolList(lists) == ListOf(agent, world, turns)
      modifies this`lists, this`tools, interceptor
      ensures lists == old(lists) + 1
      ensures ok ==> Some(tools) == ListOf(agent, world, turns) && HasSaid(Raw(world, turns))
      ensures !ok ==> Over(TooManyTools)
    {
      hide PassedAll, Story, Raw;
      var list := world.toolList(lists);
      lists := lists + 1;
      ok := list.Some?;
      if ok {
        tools := list.value;
      } else {
        ghost var said := Raw(world, turns);
        Say(Error("too many tools"), said);
        Say(Done, said + [Error("too many tools")]);
        assert said + [Error("too many tools")] + [Done] == said + [Error("too many tools"), Done];
      }
    }

    /** With routing, the tools of the next request. */
    method NextTools() returns (ending: Option<Ending>)
      requires Story(agent, world, history, turns, requests) && |turns| <= Iterations(agent)
      requires |requests| == StreamsOf(turns) && HasSaid(Raw(world, turns))
      requires appended == Written(turns) && Recorded(appended) && polls == PollsOf(turns)
      requires lists == if agent.inBand then RoundsOf(turns) else 1
      requires !agent.inBand ==> Some(tools) == ListOf(agent, world, turns)
      modifies this`lists, this`tools, interceptor
      ensures ending.None? ==> Valid()
      ensures ending.Some? ==> Over(ending.value)
    {
      hide PassedAll, Story, Raw, Written, RoundsOf, PollsOf, LoadedIn, CalledIn;
      if agent.inBand {
        var ok := RefreshTools();
        if !ok {
          return Some(TooManyTools);
        }
      }
      return None;
    }

    /** One pass of the loop: a request, and what its answer calls for. */
    method Pass(nudged: bool) returns (ending: Option<Ending>, nudgedNow: bool)
      requires Valid() && |turns| < Iterations(agent) && nudged == HasNudge(turns)
      modifies this, interceptor
      ensures ending.None? ==> Valid() && |turns| == |old(turns)| + 1 && nudgedNow == HasNudge(turns)
      ensures ending.Some? ==> Over(ending.value)
    {
      hide PassedAll, Story, Written, Raw, TextsBetween, CallsBetween, LoadedIn, CalledIn, RoundsOf, Owed, HasNudge,
        PollsOf;
      ghost var first, raw, asked := |requests|, Raw(world, turns), requests;
      nudgedNow := nudged;
      var stopped := Cancelled();
      if stopped {
        assert raw + [] == raw;
        return Some(Stopped(BeforeAsking)), nudged;
      }
      var answer := AskProvider(tools, raw);
      StoryMore(agent, world, history, turns, asked, requests);
      if answer.Broke? {
        return Some(Failing), nudged;
      }
      stopped := Cancelled();
      if stopped {
        return Some(Stopped(AfterAnswer)), nudged;
      }
      if answer.calls != [] {
        ending := Round(answer.calls);
        return ending, nudged;
      }
      var stands := AnswerStands(nudged);
      if !stands {
        return None, nudged || world.forcesLoad(|requests|);
      }
      ghost var texts := TextsBetween(world, first, |requests|);
      Say(Done, raw + texts);
      assert raw + texts + [Done] == raw + (texts + [Done]);
      return Some(Answered), nudged;
    }

    /** The last request, for a summary. */
    method Summarise() returns (ending: Ending)
      requires Valid() && |turns| == Iterations(agent)
      modifies this, interceptor
      ensures Over(ending)
    {
      hide PassedAll, Story, Written, Raw, TextsBetween, CallsBetween;
      ghost var first, raw, asked := |requests|, Raw(world, turns), requests;
      appended := appended + [Message(System, SUMMARY_REQUEST, [], "")];
      var answer := AskProvider([], raw);
      StoryMore(agent, world, history, turns, asked, requests);
      if answer.Broke? {
        return Failing;
      }
      ghost var texts := TextsBetween(world, first, |requests|);
      Say(Done, raw + texts);
      assert raw + texts + [Done] == raw + (texts + [Done]);
      return Summarised;
    }

    method Converse() returns (ending: Ending)
      requires turns == [] && requests == [] && appended == [] && polls == lists == 0
      requires Recorded(appended) && HasSaid([])
      modifies this, interceptor
      ensures Over(ending)
    {
      var ok := RefreshTools();
      if !ok {
        return TooManyTools;
      }
      var nudged := false;
      for iteration := 0 to Iterations(agent)
        invariant Valid() && |turns| == iteration && nudged == HasNudge(turns)
      {
        var over;
        over, nudged := Pass(nudged);
        if over.Some? {
          return over.value;
        }
      }
      ending := Summarise();
    }
  }

  lemma HistorySnoc(a: Agent, before: seq<Message>, m: Message)
    ensures forall id :: LoadedIn(a, before + [m], id) <==>
      LoadedIn(a, before, id) || exists call :: call in m.toolCalls && Names(a, call, id)
  {
    forall call ensures CallsIn(before + [m], call) <==> CallsIn(before, call) || call in m.toolCalls {
      CallsInAppend(before, [m], call);
      if call in m.toolCalls {
        assert call in [m][0].toolCalls;
      }
    }
  }

  // The interests loaded in earlier turns.
  method ScanHistory(run: AgentRun)
    requires run.appended == [] && run.loadedInterests == {} && run.calledTools == {}
    modifies run`loadedInterests
    ensures run.Recorded(run.appended)
  {
    var history := run.history;
    for i := 0 to |history|
      invariant forall id :: id in run.loadedInterests <==> LoadedIn(run.agent, history[..i], id)
    {
      run.NoteInterests(history[i].toolCalls);
      HistorySnoc(run.agent, history[..i], history[i]);
      assert history[..i + 1] == history[..i] + [history[i]];
    }
    assert history[..|history|] == history && run.history + run.appended == history;
  }

  /** Run, with the final flush: the events the host receives, the requests sent, how it ended, and the
      passes that did it. Together these are what the provider, the tools and the context made of it. */
  method Run(a: Agent, w: World, history: seq<Message>)
      returns (events: seq<Event>, requests: seq<Request>, ending: Ending, turns: seq<Turn>)
    ensures Tells(a, w, history, turns, requests, ending)
    ensures events == Heard(a.normalize, RawOf(w, turns, |requests|, ending))
    ensures Polite(a) ==> Ends(events, ending)
    ensures |requests| <= 3 * ((if a.maxIterations <= 0 then 10 else a.maxIterations) + 1)
    ensures forall i :: 0 <= i < |requests| ==> WellFormed(history, requests[i])
    ensures ending.Answered? && EmptyNameFree(a) ==> forall name :: !Owed(a, history, Written(turns), name)
  {
    hide Written, PollsOf, RoundsOf, Story, CallsBetween, TextsBetween, Raw, Follows, CalledIn, LoadedIn, WellFormed;
    var run := new AgentRun(a, w, history);
    ScanHistory(run);
    ending := run.Converse();
    requests, turns := run.requests, run.turns;
    run.interceptor.Flush();
    events := run.interceptor.emitted;
    RequestsPaired(a, w, history, turns, requests, ending);
    if Polite(a) {
      EndsAsTold(a, w, history, turns, requests, ending);
    }
  }
}
