/** session/session.go, lines 20-145: one session. The fields under the turn lock change only in the
    critical sections of AcquireTurn, ReleaseTurn and Close, which are the methods here. */
module SessionObject {
  import opened JsonTree

  datatype Role = System | User | Assistant | Tool

  datatype Message = Message(role: Role, content: string)

  const DEFAULT_MAX_MESSAGES := 40

  // ----- the turn -----

  // A broadcast channel is known by the number it was made under.
  type Channel = nat

  datatype Turn = Turn(active: bool, closed: bool, wait: Option<Channel>)

  datatype Verdict = Refused | Acquired | WaitOn(channel: Channel)

  /** The locked part of AcquireTurn; `made` is the channel a `make` would return. */
  function EnterTurn(t: Turn, made: Channel): (Turn, Verdict) {
    if t.closed then (t, Refused)
    else if !t.active then (t.(active := true), Acquired)
    else if t.wait.None? then (t.(wait := Some(made)), WaitOn(made))
    else (t, WaitOn(t.wait.value))
  }

  /** ReleaseTurn: the second component is the channel it closes. */
  function LeaveTurn(t: Turn): (Turn, Option<Channel>) {
    if !t.active then (t, None) else (t.(active := false, wait := None), t.wait)
  }

  /** The locked part of Close; no verdict means that Close returns at once. */
  function CloseTurn(t: Turn, made: Channel): (Turn, Option<Channel>) {
    var closed := t.(closed := true);
    if !t.active then (closed, None)
    else if t.wait.None? then (closed.(wait := Some(made)), Some(made))
    else (closed, t.wait)
  }

  // ----- the window -----

  function Limit(maxMessages: int): nat {
    if maxMessages <= 0 then DEFAULT_MAX_MESSAGES else maxMessages
  }

  function LeadingSystem(ms: seq<Message>): (n: nat)
    ensures n <= |ms|
    ensures forall i :: 0 <= i < n ==> ms[i].role == System
    ensures n < |ms| ==> ms[n].role != System
  {
    if ms != [] && ms[0].role == System then 1 + LeadingSystem(ms[1..]) else 0
  }

  /** trimWindow: leading system messages stay, the oldest others go. */
  function Trim(ms: seq<Message>, maxMessages: int): seq<Message> {
    var excess := |ms| - Limit(maxMessages);
    var kept := LeadingSystem(ms);
    if excess <= 0 then ms
    else if excess >= |ms| - kept then ms[..kept]
    else ms[..kept] + ms[kept + excess..]
  }

  function LastOf(log: seq<Message>, n: nat): seq<Message> {
    if |log| <= n then log else log[|log| - n..]
  }

  /** What a window over messages without system ones holds: the most recent ones of everything that
      was ever added. */
  lemma TrimKeepsLast(log: seq<Message>, m: Message, maxMessages: int)
    requires (forall x :: x in log ==> x.role != System) && m.role != System
    ensures Trim(LastOf(log, Limit(maxMessages)) + [m], maxMessages) == LastOf(log + [m], Limit(maxMessages))
  {
    var n := Limit(maxMessages);
    var window := LastOf(log, n) + [m];
    assert window[0].role != System;
    if |log| >= n {
      assert window[1..] == (log + [m])[|log| + 1 - n..];
    }
  }

  /** The window never loses a leading system message, never reorders, and meets the limit unless
      the system messages alone exceed it. */
  lemma TrimBounds(ms: seq<Message>, maxMessages: int)
    ensures var kept, out := LeadingSystem(ms), Trim(ms, maxMessages);
      && kept <= |out| && out[..kept] == ms[..kept]
      && out[kept..] == ms[|ms| - (|out| - kept)..]
      && (if kept <= Limit(maxMessages) <= |ms| then |out| == Limit(maxMessages)
          else if |ms| < Limit(maxMessages) then out == ms else |out| == kept)
    ensures Limit(maxMessages) == if maxMessages > 0 then maxMessages else 40
  {
    var kept, excess := LeadingSystem(ms), |ms| - Limit(maxMessages);
    if 0 < excess < |ms| - kept {
      assert (ms[..kept] + ms[kept + excess..])[kept..] == ms[kept + excess..];
    }
  }

  class Session {
    const id: string
    const maxMessages: int
    var messages: seq<Message>
    var turnActive: bool
    var turnWait: Option<Channel>
    var turnClosed: bool

    constructor (id: string, maxMessages: int)
      ensures this.id == id && this.maxMessages == maxMessages
      ensures messages == [] && Current() == Turn(false, false, None)
    {
      this.id, this.maxMessages := id, maxMessages;
      messages, turnActive, turnWait, turnClosed := [], false, None, false;
    }

    function Current(): Turn
      reads this
    {
      Turn(turnActive, turnClosed, turnWait)
    }

    method TryAcquire(made: Channel) returns (verdict: Verdict)
      modifies this`turnActive, this`turnWait
      ensures (Current(), verdict) == EnterTurn(old(Current()), made)
      ensures turnClosed ==> verdict == Refused && turnActive == old(turnActive) && turnWait == old(turnWait)
      ensures !turnClosed && !old(turnActive) ==> verdict == Acquired && turnActive && turnWait == old(turnWait)
      ensures !turnClosed && old(turnActive) ==>
        turnActive && turnWait == Some(if old(turnWait).Some? then old(turnWait).value else made)
        && verdict == WaitOn(turnWait.value)
    {
      if turnClosed {
        return Refused;
      }
      if !turnActive {
        turnActive := true;
        return Acquired;
      }
      if turnWait == None {
        turnWait := Some(made);
      }
      return WaitOn(turnWait.value);
    }

    method ReleaseTurn() returns (woken: Option<Channel>)
      modifies this`turnActive, this`turnWait
      ensures (Current(), woken) == LeaveTurn(old(Current()))
      ensures !turnActive
      ensures old(turnActive) ==> woken == old(turnWait) && turnWait == None
      ensures !old(turnActive) ==> woken == None && turnWait == old(turnWait)
    {
      woken := None;
      if !turnActive {
        return;
      }
      turnActive := false;
      if turnWait != None {
        woken := turnWait;
        turnWait := None;
      }
    }

    method BeginClose(made: Channel) returns (wait: Option<Channel>)
      modifies this`turnClosed, this`turnWait
      ensures (Current(), wait) == CloseTurn(old(Current()), made)
      ensures turnClosed
      ensures turnActive ==>
        wait == turnWait == Some(if old(turnWait).Some? then old(turnWait).value else made)
      ensures !turnActive ==> wait == None && turnWait == old(turnWait)
    {
      turnClosed := true;
      if !turnActive {
        return None;
      }
      if turnWait == None {
        turnWait := Some(made);
      }
      return turnWait;
    }

    method AddMessage(msg: Message)
      modifies this`messages
      ensures messages == Trim(old(messages) + [msg], maxMessages)
      ensures (forall m :: m in old(messages) + [msg] ==> m.role != System) ==>
        |messages| <= if maxMessages > 0 then maxMessages else 40
    {
      TrimBounds(messages + [msg], maxMessages);
      assert (messages + [msg])[0] in messages + [msg];
      messages := messages + [msg];
      TrimWindow();
    }

    method TrimWindow()
      modifies this`messages
      ensures messages == Trim(old(messages), maxMessages)
    {
      var max := maxMessages;
      if max <= 0 {
        max := DEFAULT_MAX_MESSAGES;
      }
      if |messages| <= max {
        return;
      }
      var sysCount := 0;
      while sysCount < |messages| && messages[sysCount].role == System
        invariant sysCount <= |messages|
        invariant forall i :: 0 <= i < sysCount ==> messages[i].role == System
      {
        sysCount := sysCount + 1;
      }
      assert sysCount == LeadingSystem(messages);
      var excess := |messages| - max;
      var preserved, rest := messages[..sysCount], messages[sysCount..];
      if excess >= |rest| {
        messages := preserved;
        return;
      }
      assert rest[excess..] == messages[sysCount + excess..];
      messages := preserved + rest[excess..];
    }
  }
}
