/** server/server.go, lines 1084-1196: what a turn adds to the history while the agent runs and when it
    has returned. */
module TurnHistory {
  import opened AgentEvents
  import opened EventChannel
  import AgentLoop

  const COMPLETED_WITHOUT_TEXT := "The previous turn completed without a text response."
  const NOT_COMPLETED := "The previous turn did not complete."
  const CANCELLED := "The previous turn was cancelled."

  // ----- what the events say -----

  // The visible answer: the text since it was last cleared.
  function Visible(events: seq<Event>): string {
    if events == [] then ""
    else
      var front, e := Visible(events[..|events| - 1]), events[|events| - 1];
      match e
      case Text(text) => front + text
      case TextClear => ""
      case _ => front
  }

  // The first checkpoint that says something.
  function Note(events: seq<Event>): string {
    if events == [] then ""
    else
      var front, e := Note(events[..|events| - 1]), events[|events| - 1];
      if front == "" && e.Checkpoint? then e.text else front
  }

  function Dones(events: seq<Event>): nat {
    if events == [] then 0
    else Dones(events[..|events| - 1]) + if events[|events| - 1].Done? then 1 else 0
  }

  function FirstOf(a: string, b: string, c: string): string {
    if a != "" then a else if b != "" then b else c
  }

  // The messages added while the events come in, one for each Done.
  function Commits(events: seq<Event>): seq<string> {
    if events == [] then []
    else
      var front, e := events[..|events| - 1], events[|events| - 1];
      Commits(front) + if e.Done? then [FirstOf(Visible(front), Note(front), COMPLETED_WITHOUT_TEXT)] else []
  }

  /** All that the turn adds: without a Done, the answer as far as it came or a remark. */
  function Added(events: seq<Event>, cancelled: bool): seq<string> {
    if Dones(events) > 0 then Commits(events)
    else [FirstOf(Visible(events), if cancelled then CANCELLED else NOT_COMPLETED, "")]
  }

  // ----- the handler -----

  class TurnRecorder {
    var assistantText: string
    var assistantCheckpoint: string
    var turnDone: bool
    var historyCommitted: bool
    var committed: seq<string>

    constructor ()
      ensures Follows([])
    {
      assistantText, assistantCheckpoint, turnDone, historyCommitted, committed := "", "", false, false, [];
    }

    ghost predicate Follows(events: seq<Event>)
      reads this
    {
      && assistantText == Visible(events) && assistantCheckpoint == Note(events)
      && turnDone == historyCommitted == (Dones(events) > 0)
      && committed == Commits(events)
    }

    /** The callback given to the agent. */
    method Handle(e: Event, ghost before: seq<Event>)
      requires Follows(before)
      modifies this
      ensures Follows(before + [e])
    {
      assert (before + [e])[..|before|] == before;
      match e
      case Text(text) => assistantText := assistantText + text;
      case TextClear => assistantText := "";
      case Checkpoint(text) =>
        if assistantCheckpoint == "" && text != "" {
          assistantCheckpoint := text;
        }
      case Done =>
        var text := assistantText;
        if text == "" {
          text := assistantCheckpoint;
        }
        if text == "" {
          text := COMPLETED_WITHOUT_TEXT;
        }
        committed := committed + [text];
        historyCommitted := true;
        turnDone := true;
      case _ =>
    }

    /** After the agent has returned: close the pair of user and assistant if no Done did. */
    method Close(cancelled: bool, ghost events: seq<Event>)
      requires Follows(events)
      modifies this
      ensures committed == Added(events, cancelled)
    {
      if !turnDone && !historyCommitted {
        NoDoneNoCommit(events);
        var text := assistantText;
        if text == "" {
          text := NOT_COMPLETED;
          if cancelled {
            text := CANCELLED;
          }
        }
        committed := committed + [text];
      }
    }
  }

  /** A turn from its first event to the end. */
  method RecordTurn(events: seq<Event>, cancelled: bool) returns (added: seq<string>)
    ensures added == Added(events, cancelled)
  {
    var recorder := new TurnRecorder();
    for i := 0 to |events|
      invariant recorder.Follows(events[..i])
    {
      assert events[..i + 1] == events[..i] + [events[i]];
      recorder.Handle(events[i], events[..i]);
    }
    assert events[..|events|] == events;
    recorder.Close(cancelled, events);
    return recorder.committed;
  }

  // ----- exactly one message -----

  lemma {:induction false} CommitsCounted(events: seq<Event>)
    ensures |Commits(events)| == Dones(events)
    ensures forall i :: 0 <= i < |Commits(events)| ==> Commits(events)[i] != ""
  {
    if events != [] {
      CommitsCounted(events[..|events| - 1]);
    }
  }

  lemma NoDoneNoCommit(events: seq<Event>)
    requires Dones(events) == 0
    ensures Commits(events) == []
  {
    CommitsCounted(events);
  }

  /** Whatever events come, the turn adds a message for every Done and one if there is none: exactly one
      if and only if Done comes at most once. None of them is empty. */
  lemma OneUnlessTwoDones(events: seq<Event>, cancelled: bool)
    ensures |Added(events, cancelled)| == 1 <==> Dones(events) <= 1
    ensures |Added(events, cancelled)| >= 1
    ensures forall i :: 0 <= i < |Added(events, cancelled)| ==> Added(events, cancelled)[i] != ""
  {
    CommitsCounted(events);
  }

  lemma {:induction false} QuietHasNoDone(events: seq<Event>)
    requires Quiet(events)
    ensures Dones(events) == 0 && Note(events) == ""
  {
    if events != [] {
      QuietHasNoDone(events[..|events| - 1]);
    }
  }

  lemma DoneAdds(front: seq<Event>)
    requires Dones(front) == 0
    ensures Dones(front + [Done]) == 1
    ensures Commits(front + [Done]) == [FirstOf(Visible(front), Note(front), COMPLETED_WITHOUT_TEXT)]
  {
    assert (front + [Done])[..|front|] == front;
    NoDoneNoCommit(front);
  }

  lemma CheckpointNoted(front: seq<Event>, text: string)
    requires Note(front) == ""
    ensures Visible(front + [Checkpoint(text)]) == Visible(front) && Note(front + [Checkpoint(text)]) == text
    ensures Dones(front + [Checkpoint(text)]) == Dones(front)
  {
    assert (front + [Checkpoint(text)])[..|front|] == front;
  }

  // What the one message says, given how the run ended.
  function Closing(events: seq<Event>, ending: AgentLoop.Ending, cancelled: bool): string {
    match ending
    case Rendered =>
      FirstOf(Visible(events),
              if |events| >= 2 && events[|events| - 2].Checkpoint? then events[|events| - 2].text else "",
              COMPLETED_WITHOUT_TEXT)
    case Stopped(_) => FirstOf(Visible(events), if cancelled then CANCELLED else NOT_COMPLETED, "")
    case Failing => FirstOf(Visible(events), if cancelled then CANCELLED else NOT_COMPLETED, "")
    case _ => FirstOf(Visible(events), "", COMPLETED_WITHOUT_TEXT)
  }

  lemma VisibleBeforeDone(front: seq<Event>)
    ensures Visible(front + [Done]) == Visible(front)
  {
    assert (front + [Done])[..|front|] == front;
  }

  lemma MessageOfDone(front: seq<Event>, cancelled: bool)
    requires Quiet(front)
    ensures Added(front + [Done], cancelled) == [FirstOf(Visible(front + [Done]), "", COMPLETED_WITHOUT_TEXT)]
  {
    QuietHasNoDone(front);
    DoneAdds(front);
    VisibleBeforeDone(front);
  }

  lemma MessageOfRender(front: seq<Event>, text: string, cancelled: bool)
    requires Quiet(front)
    ensures var events := front + [Checkpoint(text)] + [Done];
      Added(events, cancelled) == [FirstOf(Visible(events), text, COMPLETED_WITHOUT_TEXT)]
  {
    QuietHasNoDone(front);
    CheckpointNoted(front, text);
    DoneAdds(front + [Checkpoint(text)]);
    VisibleBeforeDone(front + [Checkpoint(text)]);
  }

  /** A run of the agent adds exactly one assistant message, whatever its ending: the visible answer if
      there is one, else the checkpoint of a render, else a remark. */
  lemma OneMessagePerRun(events: seq<Event>, ending: AgentLoop.Ending, cancelled: bool)
    requires AgentLoop.Ends(events, ending)
    ensures Added(events, cancelled) == [Closing(events, ending, cancelled)] && Closing(events, ending, cancelled) != ""
  {
    hide Added, Visible, Note, Dones, Commits;
    var n := |events|;
    match ending {
      case Stopped(_) => QuietMessage(events, cancelled);
      case Failing => QuietMessage(events, cancelled);
      case Rendered =>
        assert events == events[..n - 2] + [Checkpoint(events[n - 2].text)] + [Done];
        MessageOfRender(events[..n - 2], events[n - 2].text, cancelled);
      case _ =>
        assert events == events[..n - 1] + [Done];
        MessageOfDone(events[..n - 1], cancelled);
    }
  }

  lemma QuietMessage(events: seq<Event>, cancelled: bool)
    requires Quiet(events)
    ensures Added(events, cancelled) == [FirstOf(Visible(events), if cancelled then CANCELLED else NOT_COMPLETED, "")]
  {
    QuietHasNoDone(events);
  }

  /** The same for the agent loop itself: for any provider and tools, the turn that runs it adds exactly one
      assistant message. */
  method RunTurn(a: AgentLoop.Agent, w: AgentLoop.World, history: seq<AgentLoop.Message>, cancelled: bool)
      returns (added: seq<string>)
    ensures AgentLoop.Polite(a) ==> |added| == 1 && added[0] != ""
    ensures |added| >= 1
  {
    var events, requests, ending, turns := AgentLoop.Run(a, w, history);
    added := RecordTurn(events, cancelled);
    OneUnlessTwoDones(events, cancelled);
    if AgentLoop.Polite(a) {
      OneMessagePerRun(events, ending, cancelled);
    }
  }

  // ----- what the message says -----

  /** The visible answer is the text since the last clearing, in order; other events leave it alone. */
  lemma VisibleMeaning(events: seq<Event>, e: Event)
    ensures Visible([]) == ""
    ensures Visible(events + [e]) ==
      if e.Text? then Visible(events) + e.text else if e.TextClear? then "" else Visible(events)
    ensures Note([]) == ""
    ensures Note(events + [e]) == if e.Checkpoint? && Note(events) == "" then e.text else Note(events)
  {
    assert (events + [e])[..|events|] == events;
  }

  /** What was said before a clearing is forgotten. */
  lemma {:induction false} ClearingForgets(before: seq<Event>, after: seq<Event>)
    ensures Visible(before + [TextClear] + after) == Visible(after)
  {
    var events := before + [TextClear] + after;
    if after == [] {
      VisibleMeaning(before, TextClear);
      assert events == before + [TextClear];
    } else {
      var front, e := after[..|after| - 1], after[|after| - 1];
      ClearingForgets(before, front);
      VisibleMeaning(before + [TextClear] + front, e);
      VisibleMeaning(front, e);
      assert events == before + [TextClear] + front + [e] && after == front + [e];
    }
  }

  /** The one message: the visible answer if there is any; else after a render its checkpoint; else a remark. */
  lemma MessageMeaning(front: seq<Event>, checkpoint: string, cancelled: bool)
    requires Quiet(front)
    ensures var said := Visible(front);
      && Added(front + [Done], cancelled) ==
        [if said != "" then said else "The previous turn completed without a text response."]
      && Added(front + [Checkpoint(checkpoint)] + [Done], cancelled) ==
        [if said != "" then said else if checkpoint != "" then checkpoint
         else "The previous turn completed without a text response."]
      && Added(front, cancelled) ==
        [if said != "" then said
         else if cancelled then "The previous turn was cancelled." else "The previous turn did not complete."]
  {
    MessageOfDone(front, cancelled);
    MessageOfRender(front, checkpoint, cancelled);
    QuietMessage(front, cancelled);
    VisibleBeforeDone(front);
    VisibleMeaning(front, Checkpoint(checkpoint));
    VisibleBeforeDone(front + [Checkpoint(checkpoint)]);
  }
}
