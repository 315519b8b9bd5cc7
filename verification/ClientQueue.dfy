/** packages/chat-component/src/useChatPanel.ts, lines 345-367, 620-656, 790-912 and 1111-1127: requests
    guarded by an epoch and a queue of one guarded by a generation, interleaved in any order. Callbacks
    may see a stale `streaming`; a commit applies all updates made so far, in order; and the effect of a
    commit runs later, before the next commit, with what that commit rendered. */
module ClientQueue {
  import opened JsonTree

  // ----- states -----

  datatype Submission = Idle | Queued | Continuing

  datatype Update = SetStreaming(on: bool) | SetSubmission(submission: Submission)

  datatype Rendered = Rendered(streaming: bool, submission: Submission)

  // An action in the queue. Its number, and the request it waits behind, are not part of the program's state.
  datatype Ticket = Ticket(number: nat, generation: nat, behind: Option<nat>)

  datatype Refs = Refs(
    mounted: bool, epoch: nat, active: bool, generation: nat, interactive: bool, queued: Option<Ticket>,
    handoffAllowed: bool)

  // How a request can end: with or without a `done` event, without a body, with an error response, or by
  // a thrown error, an abort among them.
  datatype Outcome = DoneSeen | NoDone | NoBody | ErrorResponse | Thrown

  predicate Allows(o: Outcome) {
    !o.NoDone? && !o.NoBody?
  }

  datatype Phase = Running | Ended(outcome: Outcome) | Refused

  // A call of runMessage; interactive ones have a hook, good for one generation, that runs when they settle.
  datatype Call = Call(epoch: nat, phase: Phase, hook: Option<nat>, settled: bool)

  // The effect that a commit leaves to be run; the generation at that time is not part of it.
  datatype Effect = Effect(seen: Rendered, generation: nat)

  datatype State = State(
    refs: Refs,
    rendered: Rendered,
    updates: seq<Update>,
    effect: Option<Effect>,
    calls: seq<Call>,
    tickets: nat,
    dispatched: seq<nat>)

  function Initial(): State {
    State(Refs(true, 0, false, 0, false, None, true), Rendered(false, Idle), [], None, [], 0, [])
  }

  function Applied(r: Rendered, updates: seq<Update>): Rendered {
    if updates == [] then r
    else
      var before := Applied(r, updates[..|updates| - 1]);
      match updates[|updates| - 1]
      case SetStreaming(on) => before.(streaming := on)
      case SetSubmission(submission) => before.(submission := submission)
  }

  // What is shown once every update made so far is applied.
  function Pending(s: State): Rendered {
    Applied(s.rendered, s.updates)
  }

  // ----- steps -----

  datatype Step =
    | Send(seenStreaming: bool)
    | Submit(seenStreaming: bool, queueing: bool)
    | Commit(runsEffect: bool)
    | RunEffect
    | End(call: nat, outcome: Outcome)
    | Settle(call: nat)
    | Cancel
    | DisableQueue
    | Unmount

  predicate Enabled(s: State, step: Step) {
    match step
    case Send(_) => s.refs.mounted
    case Submit(_, _) => s.refs.mounted
    case Commit(_) => s.refs.mounted && s.effect.None?
    case RunEffect => s.refs.mounted && s.effect.Some?
    case End(c, _) => c < |s.calls| && s.calls[c].phase.Running?
    case Settle(c) => c < |s.calls| && !s.calls[c].phase.Running? && s.calls[c].hook.Some? && !s.calls[c].settled
    case Cancel => s.refs.mounted
    case DisableQueue => s.refs.mounted
    case Unmount => s.refs.mounted
  }

  // No callback comes between an invalidation and an effect left from before it. React runs such an
  // effect before it renders the invalidation, so only a single handler that does both could.
  predicate Prompt(s: State, step: Step) {
    step.Send? || step.Submit? ==> s.effect.None? || Timely(s)
  }

  // No action was invalidated between the commit and now.
  predicate Timely(s: State) {
    s.effect.Some? && s.effect.value.generation == s.refs.generation
  }

  function Show(s: State, u: Update): State {
    s.(updates := s.updates + [u])
  }

  // runMessage up to its first await. Without the slot an interactive call still settles.
  function RunMessage(s: State, seenStreaming: bool, hook: Option<nat>): State {
    if seenStreaming || s.refs.active || (hook.None? && s.refs.interactive) then
      if hook.None? then s else s.(calls := s.calls + [Call(s.refs.epoch, Refused, hook, false)])
    else
      Show(s.(refs := s.refs.(active := true), calls := s.calls + [Call(s.refs.epoch, Running, hook, false)]),
           SetStreaming(true))
  }

  predicate Current(s: State, c: nat) {
    c < |s.calls| && s.calls[c].phase.Running? && s.calls[c].epoch == s.refs.epoch
  }

  // The request that has the slot, if any.
  function Occupant(calls: seq<Call>, epoch: nat): Option<nat> {
    if calls == [] then None
    else
      var last := calls[|calls| - 1];
      if last.phase.Running? && last.epoch == epoch then Some(|calls| - 1)
      else Occupant(calls[..|calls| - 1], epoch)
  }

  function SubmitStep(s: State, seenStreaming: bool, queueing: bool): State {
    if !queueing then RunMessage(s, seenStreaming, None)
    else if s.refs.interactive then s
    else
      var claimed := s.(refs := s.refs.(interactive := true));
      if !s.refs.active && !seenStreaming then
        RunMessage(Show(claimed, SetSubmission(Continuing)), seenStreaming, Some(s.refs.generation))
      else
        var ticket := Ticket(s.tickets, s.refs.generation, Occupant(s.calls, s.refs.epoch));
        Show(claimed.(refs := claimed.refs.(queued := Some(ticket)), tickets := s.tickets + 1), SetSubmission(Queued))
  }

  // The effect drops the queue; `reset` when it does so because the hand-off was not allowed.
  function DropQueue(s: State, reset: bool): State {
    Show(s.(refs := s.refs.(interactive := false, queued := None, handoffAllowed := reset || s.refs.handoffAllowed)),
         SetSubmission(Idle))
  }

  predicate Dispatches(s: State) {
    && s.effect.Some? && !s.effect.value.seen.streaming && s.effect.value.seen.submission.Queued?
    && s.refs.queued.Some? && s.refs.queued.value.generation == s.refs.generation && s.refs.handoffAllowed
  }

  function EffectStep(s: State): State
    requires s.effect.Some?
  {
    var seen, ran := s.effect.value.seen, s.(effect := None);
    if seen.streaming || !seen.submission.Queued? then ran
    else if s.refs.queued.None? then DropQueue(ran, false)
    else if s.refs.queued.value.generation != s.refs.generation then DropQueue(ran, false)
    else if !s.refs.handoffAllowed then DropQueue(ran, true)
    else
      var ticket := s.refs.queued.value;
      var taken := ran.(refs := s.refs.(queued := None), dispatched := s.dispatched + [ticket.number]);
      RunMessage(Show(taken, SetSubmission(Continuing)), seen.streaming, Some(ticket.generation))
  }

  function EndStep(s: State, c: nat, o: Outcome): State
    requires c < |s.calls|
  {
    var ended := s.(calls := s.calls[c := s.calls[c].(phase := Ended(o))]);
    if s.refs.mounted && s.calls[c].epoch == s.refs.epoch
    then Show(ended.(refs := s.refs.(handoffAllowed := Allows(o), active := false)), SetStreaming(false))
    else ended
  }

  function SettleStep(s: State, c: nat): State
    requires c < |s.calls|
  {
    var settled := s.(calls := s.calls[c := s.calls[c].(settled := true)]);
    if s.refs.mounted && s.calls[c].hook == Some(s.refs.generation)
    then Show(settled.(refs := s.refs.(interactive := false)), SetSubmission(Idle))
    else settled
  }

  function Invalidated(r: Refs): Refs {
    r.(generation := r.generation + 1, interactive := false, queued := None)
  }

  function CancelStep(s: State): State {
    var refs := Invalidated(s.refs).(epoch := s.refs.epoch + 1, active := false, handoffAllowed := true);
    Show(Show(s.(refs := refs), SetStreaming(false)), SetSubmission(Idle))
  }

  function UnmountStep(s: State): State {
    s.(refs := Invalidated(s.refs).(mounted := false, epoch := s.refs.epoch + 1, active := false))
  }

  function Apply(s: State, step: Step): State
    requires Enabled(s, step)
  {
    match step
    case Send(seen) => RunMessage(s, seen, None)
    case Submit(seen, queueing) => SubmitStep(s, seen, queueing)
    case Commit(runsEffect) =>
      s.(rendered := Pending(s), updates := [],
         effect := if runsEffect then Some(Effect(Pending(s), s.refs.generation)) else None)
    case RunEffect => EffectStep(s)
    case End(c, o) => EndStep(s, c, o)
    case Settle(c) => SettleStep(s, c)
    case Cancel => CancelStep(s)
    case DisableQueue => Show(s.(refs := Invalidated(s.refs)), SetSubmission(Idle))
    case Unmount => UnmountStep(s)
  }

  // ----- the hook -----

  class Panel {
    var mounted: bool
    var requestEpoch: nat
    var requestActive: bool
    var queueGeneration: nat
    var interactiveActive: bool
    var queuedInteractive: Option<Ticket>
    var queueHandoffAllowed: bool
    var rendered: Rendered
    var updates: seq<Update>
    var effect: Option<Effect>
    var calls: seq<Call>
    var tickets: nat
    var dispatched: seq<nat>

    constructor ()
      ensures View() == Initial()
    {
      mounted, requestEpoch, requestActive, queueGeneration := true, 0, false, 0;
      interactiveActive, queuedInteractive, queueHandoffAllowed := false, None, true;
      rendered, updates, effect, calls := Rendered(false, Idle), [], None, [];
      tickets, dispatched := 0, [];
    }

    function View(): State
      reads this
    {
      State(Refs(mounted, requestEpoch, requestActive, queueGeneration, interactiveActive, queuedInteractive,
                 queueHandoffAllowed),
            rendered, updates, effect, calls, tickets, dispatched)
    }

    method SetState(u: Update)
      modifies this`updates
      ensures updates == old(updates) + [u]
    {
      updates := updates + [u];
    }

    /** runMessage up to its first await. */
    method StartRequest(seenStreaming: bool, hook: Option<nat>)
      modifies this`requestActive, this`updates, this`calls
      ensures View() == RunMessage(old(View()), seenStreaming, hook)
    {
      if seenStreaming || requestActive || (hook.None? && interactiveActive) {
        if hook.Some? {
          calls := calls + [Call(requestEpoch, Refused, hook, false)];
        }
        return;
      }
      requestActive := true;
      calls := calls + [Call(requestEpoch, Running, hook, false)];
      SetState(SetStreaming(true));
    }

    /** sendInteractiveMessage; false when the action is turned away. */
    method SubmitInteractive(seenStreaming: bool, queueing: bool) returns (accepted: bool)
      modifies this
      ensures View() == SubmitStep(old(View()), seenStreaming, queueing)
      ensures queueing ==> (accepted <==> !old(interactiveActive))
    {
      var busy := requestActive || seenStreaming;
      if !queueing {
        StartRequest(seenStreaming, None);
        return !busy;
      }
      if interactiveActive {
        return false;
      }
      interactiveActive := true;
      if !busy {
        SetState(SetSubmission(Continuing));
        StartRequest(seenStreaming, Some(queueGeneration));
        return true;
      }
      queuedInteractive := Some(Ticket(tickets, queueGeneration, Occupant(calls, requestEpoch)));
      tickets := tickets + 1;
      SetState(SetSubmission(Queued));
      return true;
    }

    method DropQueued(reset: bool)
      modifies this`interactiveActive, this`queuedInteractive, this`queueHandoffAllowed, this`updates
      ensures View() == DropQueue(old(View()), reset)
    {
      interactiveActive := false;
      queuedInteractive := None;
      if reset {
        queueHandoffAllowed := true;
      }
      SetState(SetSubmission(Idle));
    }

    /** The dispatch effect of the last commit. */
    method DispatchQueued()
      requires effect.Some?
      modifies this
      ensures View() == EffectStep(old(View()))
    {
      var seen := effect.value.seen;
      effect := None;
      if seen.streaming || seen.submission != Queued {
        return;
      }
      if queuedInteractive.None? || queuedInteractive.value.generation != queueGeneration {
        DropQueued(false);
        return;
      }
      if !queueHandoffAllowed {
        DropQueued(true);
        return;
      }
      var ticket := queuedInteractive.value;
      queuedInteractive := None;
      dispatched := dispatched + [ticket.number];
      SetState(SetSubmission(Continuing));
      StartRequest(seen.streaming, Some(ticket.generation));
    }

    /** The finally block of runMessage. */
    method FinishRequest(c: nat, outcome: Outcome)
      requires c < |calls|
      modifies this
      ensures View() == EndStep(old(View()), c, outcome)
    {
      var current := mounted && calls[c].epoch == requestEpoch;
      calls := calls[c := calls[c].(phase := Ended(outcome))];
      if current {
        queueHandoffAllowed := Allows(outcome);
        requestActive := false;
        SetState(SetStreaming(false));
      }
    }

    /** The finally hook of an interactive call. */
    method SettleInteractive(c: nat)
      requires c < |calls|
      modifies this
      ensures View() == SettleStep(old(View()), c)
    {
      var hook := calls[c].hook;
      calls := calls[c := calls[c].(settled := true)];
      if mounted && hook == Some(queueGeneration) {
        interactiveActive := false;
        SetState(SetSubmission(Idle));
      }
    }

    method CancelCurrentRequest()
      modifies this
      ensures View() == CancelStep(old(View()))
    {
      requestEpoch := requestEpoch + 1;
      requestActive := false;
      queueHandoffAllowed := true;
      queueGeneration := queueGeneration + 1;
      interactiveActive := false;
      queuedInteractive := None;
      SetState(SetStreaming(false));
      SetState(SetSubmission(Idle));
    }

    method Unmounting()
      modifies this
      ensures View() == UnmountStep(old(View()))
    {
      mounted := false;
      requestEpoch := requestEpoch + 1;
      requestActive := false;
      queueGeneration := queueGeneration + 1;
      interactiveActive := false;
      queuedInteractive := None;
    }
  }

  // ----- what every reachable state satisfies -----

  // The active flag says whether some request is current, and no two are.
  ghost predicate Slot(s: State) {
    && (forall c :: 0 <= c < |s.calls| ==> s.calls[c].epoch <= s.refs.epoch)
    && (s.refs.active <==> exists c: nat :: Current(s, c))
    && (s.refs.active ==> s.refs.mounted)
    && (forall c: nat, d: nat :: Current(s, c) && Current(s, d) ==> c == d)
  }

  predicate Hooked(s: State, c: nat) {
    c < |s.calls| && s.calls[c].hook == Some(s.refs.generation) && !s.calls[c].settled
  }

  // The interactive flag is up while an action waits or an interactive call of this generation is unsettled.
  ghost predicate Hooks(s: State) {
    && (forall c :: 0 <= c < |s.calls| && s.calls[c].hook.Some? ==> s.calls[c].hook.value <= s.refs.generation)
    && (forall c: nat :: Hooked(s, c) ==> s.refs.interactive && s.refs.queued.None?)
    && (forall c: nat, d: nat :: Hooked(s, c) && Hooked(s, d) ==> c == d)
    && (s.refs.queued.Some? ==> s.refs.interactive && s.refs.queued.value.generation == s.refs.generation)
  }

  // While a request is active it will be shown.
  predicate Streams(s: State) {
    s.refs.mounted && s.refs.active ==> Pending(s).streaming
  }

  // What will be shown agrees with the refs.
  ghost predicate Shown(s: State) {
    && Streams(s)
    && (s.refs.mounted && Pending(s).submission.Queued? ==> s.refs.queued.Some?)
  }

  // An effect of this generation that finds an action waiting finds the slot free.
  ghost predicate Ready(s: State) {
    && (s.effect.Some? ==> s.effect.value.generation <= s.refs.generation)
    && (s.refs.mounted && s.effect.Some? && !Timely(s) ==> !s.refs.interactive)
    && (s.refs.mounted && Timely(s) && s.effect.value.seen.submission.Queued? ==>
      s.refs.queued.Some? && (!s.effect.value.seen.streaming ==> !s.refs.active))
  }

  // The request an action waits behind is still running, or its outcome decides the hand-off.
  ghost predicate Behind(s: State) {
    s.refs.queued.Some? && s.refs.queued.value.behind.Some? ==>
      var c := s.refs.queued.value.behind.value;
      || Current(s, c)
      || (c < |s.calls| && s.calls[c].phase.Ended? && !s.refs.active
          && s.refs.handoffAllowed == Allows(s.calls[c].phase.outcome))
  }

  ghost predicate Numbered(s: State) {
    && (forall i :: 0 <= i < |s.dispatched| ==> s.dispatched[i] < s.tickets)
    && (forall i, j :: 0 <= i < j < |s.dispatched| ==> s.dispatched[i] != s.dispatched[j])
    && (s.refs.queued.Some? ==> s.refs.queued.value.number < s.tickets && s.refs.queued.value.number !in s.dispatched)
  }

  ghost predicate Inv(s: State) {
    Slot(s) && Hooks(s) && Shown(s) && Ready(s) && Behind(s) && Numbered(s)
  }

  lemma InitialInv()
    ensures Inv(Initial())
  {
  }

  lemma AppliedSnoc(r: Rendered, updates: seq<Update>, u: Update)
    ensures Applied(r, updates + [u]) ==
      match u
      case SetStreaming(on) => Applied(r, updates).(streaming := on)
      case SetSubmission(submission) => Applied(r, updates).(submission := submission)
  {
    assert (updates + [u])[..|updates|] == updates;
  }

  // What runMessage leaves alone, and what having the slot means.
  lemma RunMessageEffect(s: State, seen: bool, hook: Option<nat>)
    requires Slot(s) && s.refs.mounted
    ensures var t := RunMessage(s, seen, hook);
      && Slot(t)
      && t == s.(refs := t.refs, updates := t.updates, calls := t.calls)
      && t.refs == s.refs.(active := t.refs.active)
      && Pending(t) == Pending(s).(streaming := Pending(t).streaming)
      && (s.refs.active ==> t.refs.active && Pending(t) == Pending(s))
      && (!s.refs.active && t.refs.active ==> Pending(t).streaming)
      && (!s.refs.active && !t.refs.active ==> Pending(t) == Pending(s))
      && |t.calls| >= |s.calls| && t.calls[..|s.calls|] == s.calls
  {
    AppliedSnoc(s.rendered, s.updates, SetStreaming(true));
    var t := RunMessage(s, seen, hook);
    if !s.refs.active && t.refs.active {
      assert Current(t, |s.calls|);
    }
    assert forall c: nat :: c < |s.calls| ==> (Current(t, c) <==> Current(s, c));
    assert t.calls[..|s.calls|] == s.calls;
  }

  // ----- every step keeps the invariant -----

  lemma SlotKept(s: State, step: Step)
    requires Slot(s) && Enabled(s, step)
    ensures Slot(Apply(s, step))
  {
    var t := Apply(s, step);
    match step
    case Send(seen) => RunMessageEffect(s, seen, None);
    case Submit(seen, queueing) => SubmitEffect(s, seen, queueing);
    case RunEffect => DispatchEffect(s);
    case End(c, o) =>
      assert forall d: nat :: Current(t, d) <==> Current(s, d) && d != c;
      if s.refs.active && !Current(s, c) {
        var d: nat :| Current(s, d);
        assert Current(t, d);
      }
    case Settle(_) => assert forall d: nat :: Current(t, d) <==> Current(s, d);
    case Commit(_) => assert forall d: nat :: Current(t, d) <==> Current(s, d);
    case DisableQueue => assert forall d: nat :: Current(t, d) <==> Current(s, d);
    case Cancel => assert forall d: nat :: !Current(t, d);
    case Unmount => assert forall d: nat :: !Current(t, d);
  }

  // Submit claims the slot with a hook, queues, is refused, or is an ordinary send.
  lemma SubmitEffect(s: State, seen: bool, queueing: bool)
    requires Slot(s) && s.refs.mounted
    ensures Slot(SubmitStep(s, seen, queueing))
  {
    var claimed := Show(s.(refs := s.refs.(interactive := true)), SetSubmission(Continuing));
    assert forall d: nat :: Current(claimed, d) <==> Current(s, d);
    RunMessageEffect(claimed, seen, Some(s.refs.generation));
    RunMessageEffect(s, seen, None);
    var t := SubmitStep(s, seen, queueing);
    if queueing && !s.refs.interactive && (s.refs.active || seen) {
      assert forall d: nat :: Current(t, d) <==> Current(s, d);
    }
  }

  // The state in which a dispatched action calls runMessage.
  function Taken(s: State): State
    requires s.refs.queued.Some?
  {
    Show(s.(effect := None, refs := s.refs.(queued := None), dispatched := s.dispatched + [s.refs.queued.value.number]),
         SetSubmission(Continuing))
  }

  lemma DispatchEffect(s: State)
    requires Slot(s) && s.refs.mounted && s.effect.Some?
    ensures Slot(EffectStep(s))
    ensures Dispatches(s) ==> Slot(Taken(s))
    ensures Dispatches(s) ==> EffectStep(s) == RunMessage(Taken(s), false, Some(s.refs.generation))
  {
    if Dispatches(s) {
      assert forall d: nat :: Current(Taken(s), d) <==> Current(s, d);
      RunMessageEffect(Taken(s), false, Some(s.refs.generation));
    } else {
      var t := EffectStep(s);
      assert forall d: nat :: Current(t, d) <==> Current(s, d);
    }
  }

  lemma HooksAfterCall(s: State, t: State, hook: Option<nat>)
    requires Hooks(s) && t.refs.generation == s.refs.generation
    requires
      || (exists call: Call :: t.calls == s.calls + [call] && call.hook == hook)
      || (hook.None? && t.calls == s.calls)
    requires hook.Some? ==> hook.value == s.refs.generation && t.refs.interactive && t.refs.queued.None?
    requires hook.Some? ==> forall c: nat :: !Hooked(s, c)
    requires hook.None? ==> t.refs.interactive == s.refs.interactive && t.refs.queued == s.refs.queued
    ensures Hooks(t)
  {
    assert forall c: nat :: c < |s.calls| ==> t.calls[c] == s.calls[c];
    assert forall c: nat :: c < |s.calls| ==> (Hooked(t, c) <==> Hooked(s, c));
  }

  lemma HooksAfterRun(s: State, seen: bool, hook: Option<nat>)
    ensures var t := RunMessage(s, seen, hook);
      || (hook.None? && t.calls == s.calls)
      || exists call: Call :: t.calls == s.calls + [call] && call.hook == hook
  {
    var t := RunMessage(s, seen, hook);
    if t.calls != s.calls {
      var call := t.calls[|s.calls|];
      assert t.calls == s.calls + [call] && call.hook == hook;
    }
  }

  lemma HooksKeptBySubmit(s: State, seen: bool, queueing: bool)
    requires Hooks(s)
    ensures Hooks(SubmitStep(s, seen, queueing))
  {
    var claimed := Show(s.(refs := s.refs.(interactive := true)), SetSubmission(Continuing));
    var t := SubmitStep(s, seen, queueing);
    if !queueing {
      HooksAfterRun(s, seen, None);
      HooksAfterCall(s, t, None);
    } else if s.refs.interactive {
    } else if !s.refs.active && !seen {
      HooksAfterRun(claimed, seen, Some(s.refs.generation));
      HooksAfterCall(s, t, Some(s.refs.generation));
    } else {
      assert forall c: nat :: Hooked(t, c) <==> Hooked(s, c);
    }
  }

  lemma HooksKeptByEffect(s: State)
    requires Slot(s) && Hooks(s) && Ready(s) && s.refs.mounted && s.effect.Some?
    ensures Hooks(EffectStep(s))
  {
    var t := EffectStep(s);
    if Dispatches(s) {
      DispatchEffect(s);
      HooksAfterRun(Taken(s), false, Some(s.refs.generation));
      HooksAfterCall(s, t, Some(s.refs.generation));
    } else {
      assert forall d: nat :: Hooked(t, d) <==> Hooked(s, d);
    }
  }

  lemma HooksKept(s: State, step: Step)
    requires Inv(s) && Enabled(s, step) && Prompt(s, step)
    ensures Hooks(Apply(s, step))
  {
    var t := Apply(s, step);
    match step
    case Send(seen) =>
      HooksAfterRun(s, seen, None);
      HooksAfterCall(s, t, None);
    case Submit(seen, queueing) => HooksKeptBySubmit(s, seen, queueing);
    case RunEffect => HooksKeptByEffect(s);
    case End(c, o) => assert forall d: nat :: Hooked(t, d) <==> Hooked(s, d);
    case Settle(c) =>
      assert s.calls[c].hook == Some(s.refs.generation) ==> Hooked(s, c);
      assert forall d: nat :: Hooked(t, d) <==> Hooked(s, d) && d != c;
    case Cancel => assert forall d: nat :: !Hooked(t, d);
    case Unmount => assert forall d: nat :: !Hooked(t, d);
    case DisableQueue => assert forall d: nat :: !Hooked(t, d);
    case Commit(_) => assert forall d: nat :: Hooked(t, d) <==> Hooked(s, d);
  }

  lemma ShownKept(s: State, step: Step)
    requires Inv(s) && Enabled(s, step) && Prompt(s, step)
    ensures Shown(Apply(s, step))
  {
    var t := Apply(s, step);
    match step
    case Send(seen) => RunMessageEffect(s, seen, None);
    case Submit(seen, queueing) => SubmitShows(s, seen, queueing);
    case RunEffect => EffectShows(s);
    case End(_, _) => AppliedSnoc(s.rendered, s.updates, SetStreaming(false));
    case Settle(_) => AppliedSnoc(s.rendered, s.updates, SetSubmission(Idle));
    case DisableQueue => AppliedSnoc(s.rendered, s.updates, SetSubmission(Idle));
    case Cancel =>
      AppliedSnoc(s.rendered, s.updates, SetStreaming(false));
      AppliedSnoc(s.rendered, s.updates + [SetStreaming(false)], SetSubmission(Idle));
    case Commit(_) =>
    case Unmount =>
  }

  lemma SubmitShows(s: State, seen: bool, queueing: bool)
    requires Slot(s) && Hooks(s) && Shown(s) && s.refs.mounted
    ensures Shown(SubmitStep(s, seen, queueing))
  {
    AppliedSnoc(s.rendered, s.updates, SetSubmission(Continuing));
    AppliedSnoc(s.rendered, s.updates, SetSubmission(Queued));
    var claimed := Show(s.(refs := s.refs.(interactive := true)), SetSubmission(Continuing));
    assert forall d: nat :: Current(claimed, d) <==> Current(s, d);
    RunMessageEffect(claimed, seen, Some(s.refs.generation));
    RunMessageEffect(s, seen, None);
  }

  lemma EffectShows(s: State)
    requires Slot(s) && Hooks(s) && Shown(s) && s.refs.mounted && s.effect.Some?
    ensures Shown(EffectStep(s))
  {
    AppliedSnoc(s.rendered, s.updates, SetSubmission(Idle));
    AppliedSnoc(s.rendered, s.updates, SetSubmission(Continuing));
    DispatchEffect(s);
    if Dispatches(s) {
      RunMessageEffect(Taken(s), false, Some(s.refs.generation));
    }
  }

  lemma ReadyKept(s: State, step: Step)
    requires Inv(s) && Enabled(s, step) && Prompt(s, step)
    ensures Ready(Apply(s, step))
  {
    match step
    case Send(seen) => RunMessageEffect(s, seen, None);
    case Submit(seen, queueing) => RunMessageEffect(s, seen, None);
    case _ =>
  }

  lemma BehindKept(s: State, step: Step)
    requires Inv(s) && Enabled(s, step) && Prompt(s, step)
    ensures Behind(Apply(s, step))
  {
    match step
    case Submit(seen, queueing) => OccupantCurrent(s.calls, s.refs.epoch);
    case End(c, o) => BehindKeptByEnd(s, c, o);
    case _ =>
  }

  lemma BehindKeptByEnd(s: State, c: nat, o: Outcome)
    requires Slot(s) && Behind(s) && c < |s.calls| && s.calls[c].phase.Running?
    ensures Behind(EndStep(s, c, o))
  {
    if s.refs.queued.Some? && s.refs.queued.value.behind.Some? {
      var b, t := s.refs.queued.value.behind.value, EndStep(s, c, o);
      if b == c {
        assert Current(s, c);
      } else {
        assert t.calls[b] == s.calls[b];
        assert Current(s, c) ==> !Current(s, b);
      }
    }
  }

  lemma {:induction false} OccupantCurrent(calls: seq<Call>, epoch: nat)
    ensures var o := Occupant(calls, epoch);
      o.Some? ==> o.value < |calls| && calls[o.value].phase.Running? && calls[o.value].epoch == epoch
    ensures Occupant(calls, epoch).None? ==>
      forall c :: 0 <= c < |calls| && calls[c].phase.Running? ==> calls[c].epoch != epoch
  {
    if calls != [] {
      OccupantCurrent(calls[..|calls| - 1], epoch);
      assert calls == calls[..|calls| - 1] + [calls[|calls| - 1]];
    }
  }

  lemma NumberedKept(s: State, step: Step)
    requires Numbered(s) && Enabled(s, step)
    ensures Numbered(Apply(s, step))
  {
  }

  /** Every step keeps the invariant. */
  lemma StepKeeps(s: State, step: Step)
    requires Inv(s) && Enabled(s, step) && Prompt(s, step)
    ensures Inv(Apply(s, step))
  {
    SlotKept(s, step);
    HooksKept(s, step);
    ShownKept(s, step);
    ReadyKept(s, step);
    BehindKept(s, step);
    NumberedKept(s, step);
  }

  // ----- what the steps do -----

  /** A send starts a request exactly when none is shown or active and no action is under way; the request is
      current and shown. Otherwise nothing happens. */
  lemma SendDoes(s: State, seen: bool)
    requires Slot(s) && Enabled(s, Send(seen))
    ensures var t := Apply(s, Send(seen));
      if !seen && !s.refs.active && !s.refs.interactive then
        && t.refs == s.refs.(active := true) && Current(t, |s.calls|) && t.calls[|s.calls|].hook.None?
        && |t.calls| == |s.calls| + 1 && t.updates == s.updates + [SetStreaming(true)]
      else t == s
  {
  }

  /** With queueing, an action is turned away while another is under way, starts at once while no request is, and
      waits for the current one otherwise. Without, it is a send. */
  lemma SubmitDoes(s: State, seen: bool, queueing: bool)
    requires Slot(s) && Enabled(s, Submit(seen, queueing))
    ensures var t, busy := Apply(s, Submit(seen, queueing)), s.refs.active || seen;
      if !queueing then t == Apply(s, Send(seen))
      else if s.refs.interactive then t == s
      else if !busy then
        && t.refs == s.refs.(active := true, interactive := true)
        && Current(t, |s.calls|) && t.calls[|s.calls|].hook == Some(s.refs.generation)
        && t.updates == s.updates + [SetSubmission(Continuing), SetStreaming(true)]
      else
        && t.calls == s.calls && t.refs == s.refs.(interactive := true, queued := t.refs.queued)
        && t.refs.queued.Some? && t.refs.queued.value.number == s.tickets
        && t.refs.queued.value.generation == s.refs.generation
        && (s.refs.active ==>
          t.refs.queued.value.behind.Some? && Current(s, t.refs.queued.value.behind.value))
        && t.updates == s.updates + [SetSubmission(Queued)]
  {
    OccupantCurrent(s.calls, s.refs.epoch);
    if queueing && !s.refs.interactive && !s.refs.active && !seen {
      assert s.updates + [SetSubmission(Continuing)] + [SetStreaming(true)]
        == s.updates + [SetSubmission(Continuing), SetStreaming(true)];
    }
  }

  /** The end of the current request frees the slot, and allows the hand-off unless the stream ended cleanly
      without `done` or the response had no body. */
  lemma EndDoes(s: State, c: nat, o: Outcome)
    requires Slot(s) && Enabled(s, End(c, o)) && Current(s, c) && s.refs.mounted
    ensures var t := Apply(s, End(c, o));
      && t.refs == s.refs.(active := false, handoffAllowed := o != NoDone && o != NoBody)
      && t.updates == s.updates + [SetStreaming(false)] && (forall d: nat :: !Current(t, d))
  {
    var t := Apply(s, End(c, o));
    assert forall d: nat :: d < |s.calls| && d != c ==> t.calls[d] == s.calls[d];
    assert forall d: nat :: d != c ==> (Current(t, d) <==> Current(s, d));
  }

  /** The effect leaves a queue alone that it was not rendered with. It drops one that is empty, was invalidated or
      may not be handed on, and frees the flag. It hands on any other. */
  lemma EffectDoes(s: State)
    requires Slot(s) && Enabled(s, RunEffect)
    ensures var t, seen, queued := Apply(s, RunEffect), s.effect.value.seen, s.refs.queued;
      var stale := queued.None? || queued.value.generation != s.refs.generation;
      if seen.streaming || seen.submission != Queued then t == s.(effect := None)
      else if stale || !s.refs.handoffAllowed then
        && t.refs == s.refs.(queued := None, interactive := false,
                             handoffAllowed := s.refs.handoffAllowed || !stale)
        && t.calls == s.calls && t.dispatched == s.dispatched && t.updates == s.updates + [SetSubmission(Idle)]
      else
        && t.dispatched == s.dispatched + [queued.value.number]
        && t.refs == s.refs.(queued := None, active := true)
        && |t.calls| == |s.calls| + 1 && t.calls[|s.calls|].hook == Some(s.refs.generation)
        && (if s.refs.active then
              !Current(t, |s.calls|) && t.updates == s.updates + [SetSubmission(Continuing)]
            else
              Current(t, |s.calls|) && t.updates == s.updates + [SetSubmission(Continuing), SetStreaming(true)])
  {
    assert s.updates + [SetSubmission(Continuing)] + [SetStreaming(true)]
      == s.updates + [SetSubmission(Continuing), SetStreaming(true)];
  }

  /** An interactive call lowers the flag when it settles in its own generation, and not in a later one. */
  lemma SettleDoes(s: State, c: nat)
    requires Enabled(s, Settle(c)) && s.refs.mounted
    ensures var t := Apply(s, Settle(c));
      if s.calls[c].hook == Some(s.refs.generation)
      then t.refs == s.refs.(interactive := false) && t.updates == s.updates + [SetSubmission(Idle)]
      else t.refs == s.refs && t.updates == s.updates
  {
  }

  /** Stop, clear and unmount leave no current request and no action; only the first two are shown. */
  lemma InvalidationDoes(s: State, step: Step)
    requires Slot(s) && Enabled(s, step) && (step.Cancel? || step.Unmount? || step.DisableQueue?)
    ensures var t := Apply(s, step);
      && t.refs.queued.None? && !t.refs.interactive && t.refs.generation == s.refs.generation + 1
      && (!step.DisableQueue? ==>
        t.refs.epoch == s.refs.epoch + 1 && !t.refs.active && forall d: nat :: !Current(t, d))
      && (step.DisableQueue? ==> t.refs.epoch == s.refs.epoch && t.refs.active == s.refs.active)
      && (step.Cancel? ==> t.refs.handoffAllowed)
      && (step.Unmount? <==> !t.refs.mounted)
      && t.updates == s.updates + (
        if step.Cancel? then [SetStreaming(false), SetSubmission(Idle)]
        else if step.DisableQueue? then [SetSubmission(Idle)] else [])
  {
  }

  // ----- whole runs, in any order -----

  ghost predicate LeadsTo(s: State, step: Step, t: State) {
    Enabled(s, step) && t == Apply(s, step)
  }

  /** What the hook passes through, by steps in any order. */
  ghost predicate Run(states: seq<State>, steps: seq<Step>) {
    && |states| == |steps| + 1
    && states[0] == Initial()
    && forall i :: 0 <= i < |steps| ==> LeadsTo(states[i], steps[i], states[i + 1])
  }

  // The request called as number `d` is of this epoch and has ended.
  predicate EndedNow(s: State, d: nat) {
    d < |s.calls| && s.calls[d].phase.Ended? && s.calls[d].epoch == s.refs.epoch
  }

  // A request that is current was called after every one of its epoch that has ended.
  ghost predicate InOrder(s: State) {
    forall c: nat, d: nat :: EndedNow(s, c) && Current(s, d) ==> c < d
  }

  // The last request of this epoch to have ended is the one called as number `d`.
  ghost predicate LastToEnd(s: State, d: nat) {
    EndedNow(s, d) && forall e: nat :: EndedNow(s, e) ==> e <= d
  }

  // Its outcome says whether the queue may be handed on.
  ghost predicate Decided(s: State, d: nat) {
    LastToEnd(s, d) && s.refs.handoffAllowed == Allows(s.calls[d].phase.outcome)
  }

  // The request an action waits behind is current, or it has ended and the last one to end decides.
  ghost predicate Waits(s: State) {
    s.refs.queued.Some? && s.refs.queued.value.behind.Some? ==>
      var c := s.refs.queued.value.behind.value;
      Current(s, c) || (EndedNow(s, c) && exists d: nat :: Decided(s, d))
  }

  ghost predicate Core(s: State) {
    Slot(s) && Streams(s) && Numbered(s) && InOrder(s) && Waits(s)
  }

  lemma StreamsKept(s: State, step: Step)
    requires Slot(s) && Streams(s) && Enabled(s, step)
    ensures Streams(Apply(s, step))
  {
    match step
    case Send(seen) => RunMessageEffect(s, seen, None);
    case Submit(seen, queueing) => StreamsSubmit(s, seen, queueing);
    case RunEffect => StreamsEffect(s);
    case End(_, _) => AppliedSnoc(s.rendered, s.updates, SetStreaming(false));
    case Settle(_) => AppliedSnoc(s.rendered, s.updates, SetSubmission(Idle));
    case DisableQueue => AppliedSnoc(s.rendered, s.updates, SetSubmission(Idle));
    case Cancel =>
    case Commit(_) =>
    case Unmount =>
  }

  lemma StreamsSubmit(s: State, seen: bool, queueing: bool)
    requires Slot(s) && Streams(s) && s.refs.mounted
    ensures Streams(SubmitStep(s, seen, queueing))
  {
    AppliedSnoc(s.rendered, s.updates, SetSubmission(Continuing));
    AppliedSnoc(s.rendered, s.updates, SetSubmission(Queued));
    var claimed := Show(s.(refs := s.refs.(interactive := true)), SetSubmission(Continuing));
    assert forall d: nat :: Current(claimed, d) <==> Current(s, d);
    RunMessageEffect(claimed, seen, Some(s.refs.generation));
    RunMessageEffect(s, seen, None);
  }

  lemma StreamsEffect(s: State)
    requires Slot(s) && Streams(s) && s.refs.mounted && s.effect.Some?
    ensures Streams(EffectStep(s))
  {
    AppliedSnoc(s.rendered, s.updates, SetSubmission(Idle));
    AppliedSnoc(s.rendered, s.updates, SetSubmission(Continuing));
    DispatchEffect(s);
    if Dispatches(s) {
      RunMessageEffect(Taken(s), false, Some(s.refs.generation));
    }
  }

  // A call appended at the end is in order, and changes nothing for those before it.
  lemma OrderedAfterCall(s: State, t: State)
    requires InOrder(s) && t.refs.epoch == s.refs.epoch
    requires t.calls == s.calls || exists call: Call :: t.calls == s.calls + [call] && !call.phase.Ended?
    ensures InOrder(t)
  {
    forall c: nat, d: nat | EndedNow(t, c) && Current(t, d) ensures c < d {
      assert c < |s.calls| && t.calls[c] == s.calls[c];
      assert EndedNow(s, c);
      if d < |s.calls| {
        assert Current(s, d);
      }
    }
  }

  lemma RunAppends(s: State, seen: bool, hook: Option<nat>)
    ensures var t := RunMessage(s, seen, hook);
      && t.refs.epoch == s.refs.epoch && t.refs.queued == s.refs.queued
      && t.refs.handoffAllowed == s.refs.handoffAllowed
      && (t.calls == s.calls || exists call: Call :: t.calls == s.calls + [call] && !call.phase.Ended?)
  {
    var t := RunMessage(s, seen, hook);
    if t.calls != s.calls {
      assert t.calls == s.calls + [t.calls[|s.calls|]];
    }
  }

  lemma InOrderKept(s: State, step: Step)
    requires Slot(s) && InOrder(s) && Enabled(s, step)
    ensures InOrder(Apply(s, step))
  {
    var t := Apply(s, step);
    match step
    case Send(seen) =>
      RunAppends(s, seen, None);
      OrderedAfterCall(s, t);
    case Submit(seen, queueing) =>
      var claimed := Show(s.(refs := s.refs.(interactive := true)), SetSubmission(Continuing));
      RunAppends(claimed, seen, Some(s.refs.generation));
      RunAppends(s, seen, None);
      OrderedAfterCall(s, t);
    case RunEffect =>
      if Dispatches(s) {
        DispatchEffect(s);
        RunAppends(Taken(s), false, Some(s.refs.generation));
      }
      OrderedAfterCall(s, t);
    case End(c, o) =>
      assert forall d: nat :: Current(t, d) <==> Current(s, d) && d != c;
      if Current(s, c) {
        assert forall d: nat :: !Current(t, d);
      } else {
        assert forall d: nat :: EndedNow(t, d) <==> EndedNow(s, d);
      }
    case Settle(c) =>
      assert forall d: nat :: Current(t, d) <==> Current(s, d);
      assert forall d: nat :: EndedNow(t, d) <==> EndedNow(s, d);
    case Cancel => assert forall d: nat :: !Current(t, d);
    case Unmount => assert forall d: nat :: !Current(t, d);
    case _ => OrderedAfterCall(s, t);
  }

  // Calls added at the end leave what an action waits for as it was.
  lemma WaitsAfterCall(s: State, t: State)
    requires Waits(s) && t.refs.epoch == s.refs.epoch && t.refs.queued == s.refs.queued
    requires t.refs.handoffAllowed == s.refs.handoffAllowed
    requires t.calls == s.calls || exists call: Call :: t.calls == s.calls + [call] && !call.phase.Ended?
    ensures Waits(t)
  {
    if s.refs.queued.Some? && s.refs.queued.value.behind.Some? {
      var c := s.refs.queued.value.behind.value;
      assert c < |s.calls| ==> t.calls[c] == s.calls[c];
      if !Current(s, c) {
        var d: nat :| Decided(s, d);
        assert forall e: nat :: EndedNow(t, e) <==> EndedNow(s, e);
        assert Decided(t, d);
      }
    }
  }

  lemma WaitsSubmit(s: State, seen: bool, queueing: bool)
    requires Waits(s)
    ensures Waits(SubmitStep(s, seen, queueing))
  {
    var claimed := Show(s.(refs := s.refs.(interactive := true)), SetSubmission(Continuing));
    RunAppends(claimed, seen, Some(s.refs.generation));
    RunAppends(s, seen, None);
    OccupantCurrent(s.calls, s.refs.epoch);
    var t := SubmitStep(s, seen, queueing);
    if t.refs.queued == s.refs.queued {
      WaitsAfterCall(s, t);
    }
  }

  // The end of a current request is the last of its epoch so far; that of any other is none of this epoch.
  lemma EndDecides(s: State, c: nat, o: Outcome)
    requires Slot(s) && InOrder(s) && c < |s.calls| && s.calls[c].phase.Running?
    ensures forall e: nat :: EndedNow(EndStep(s, c, o), e) <==> EndedNow(s, e) || (Current(s, c) && e == c)
    ensures Current(s, c) ==> Decided(EndStep(s, c, o), c)
    ensures forall d: nat :: !Current(s, c) && Decided(s, d) ==> Decided(EndStep(s, c, o), d)
  {
    var t := EndStep(s, c, o);
    assert forall e: nat :: e < |s.calls| && e != c ==> t.calls[e] == s.calls[e];
    if Current(s, c) {
      assert s.refs.mounted;
    }
  }

  lemma WaitsEnd(s: State, c: nat, o: Outcome)
    requires Slot(s) && InOrder(s) && Waits(s) && c < |s.calls| && s.calls[c].phase.Running?
    ensures Waits(EndStep(s, c, o))
  {
    var t := EndStep(s, c, o);
    EndDecides(s, c, o);
    if s.refs.queued.Some? && s.refs.queued.value.behind.Some? && !Current(s, c) {
      var b := s.refs.queued.value.behind.value;
      if Current(s, b) {
        assert Current(t, b);
      } else {
        var d: nat :| Decided(s, d);
        assert Decided(t, d);
      }
    }
  }

  lemma WaitsKept(s: State, step: Step)
    requires Slot(s) && InOrder(s) && Waits(s) && Enabled(s, step)
    ensures Waits(Apply(s, step))
  {
    var t := Apply(s, step);
    match step
    case Send(seen) =>
      RunAppends(s, seen, None);
      WaitsAfterCall(s, t);
    case Submit(seen, queueing) => WaitsSubmit(s, seen, queueing);
    case RunEffect => WaitsEffect(s);
    case End(c, o) => WaitsEnd(s, c, o);
    case Settle(c) => WaitsSettle(s, c);
    case Commit(_) => WaitsAfterCall(s, t);
    case _ =>
  }

  lemma WaitsSettle(s: State, c: nat)
    requires Waits(s) && c < |s.calls|
    ensures Waits(SettleStep(s, c))
  {
    var t := SettleStep(s, c);
    if s.refs.queued.Some? && s.refs.queued.value.behind.Some? {
      var b := s.refs.queued.value.behind.value;
      if !Current(s, b) {
        var d: nat :| Decided(s, d);
        assert forall e: nat :: EndedNow(t, e) <==> EndedNow(s, e);
        assert Decided(t, d);
      }
    }
  }

  lemma WaitsEffect(s: State)
    requires Waits(s) && s.effect.Some?
    ensures Waits(EffectStep(s))
  {
    var t := EffectStep(s);
    if t.refs.queued.Some? {
      WaitsAfterCall(s, t);
    }
  }

  /** In any order whatever, every step keeps the core of the invariant. */
  lemma CoreKept(s: State, step: Step)
    requires Core(s) && Enabled(s, step)
    ensures Core(Apply(s, step))
  {
    SlotKept(s, step);
    StreamsKept(s, step);
    NumberedKept(s, step);
    InOrderKept(s, step);
    WaitsKept(s, step);
  }

  lemma {:induction false} RunKeeps(states: seq<State>, steps: seq<Step>, i: nat)
    requires Run(states, steps) && i < |states|
    ensures Core(states[i])
  {
    if i > 0 {
      RunKeeps(states, steps, i - 1);
      assert LeadsTo(states[i - 1], steps[i - 1], states[i]);
      CoreKept(states[i - 1], steps[i - 1]);
    }
  }

  /** At most one running request has the current epoch, and the active flag is up exactly then. */
  lemma OneRequest(states: seq<State>, steps: seq<Step>, i: nat, c: nat, d: nat)
    requires Run(states, steps) && i < |states|
    ensures Current(states[i], c) && Current(states[i], d) ==> c == d
    ensures states[i].refs.active <==> exists e: nat :: Current(states[i], e)
  {
    RunKeeps(states, steps, i);
  }

  /** An action is dispatched at most once. */
  lemma DispatchedOnce(states: seq<State>, steps: seq<Step>, i: nat, j: nat, k: nat)
    requires Run(states, steps) && i < |states| && j < k < |states[i].dispatched|
    ensures states[i].dispatched[j] != states[i].dispatched[k]
  {
    RunKeeps(states, steps, i);
  }

  // Submitted once, and neither waiting nor dispatched.
  predicate Gone(s: State, number: nat) {
    && number < s.tickets && number !in s.dispatched
    && (s.refs.queued.Some? ==> s.refs.queued.value.number != number)
  }

  lemma GoneStays(s: State, step: Step, number: nat)
    requires Enabled(s, step) && Gone(s, number)
    ensures Gone(Apply(s, step), number)
  {
  }

  lemma {:induction false} GoneForGood(states: seq<State>, steps: seq<Step>, i: nat, j: nat, number: nat)
    requires Run(states, steps) && i <= j < |states| && Gone(states[i], number)
    ensures Gone(states[j], number)
  {
    if i < j {
      GoneForGood(states, steps, i, j - 1, number);
      assert LeadsTo(states[j - 1], steps[j - 1], states[j]);
      GoneStays(states[j - 1], steps[j - 1], number);
    }
  }

  /** An action that waits when its generation is invalidated is never dispatched. */
  lemma InvalidatedNeverRuns(states: seq<State>, steps: seq<Step>, i: nat, j: nat)
    requires Run(states, steps) && i < |steps| && i < j < |states|
    requires steps[i].Cancel? || steps[i].DisableQueue? || steps[i].Unmount?
    requires states[i].refs.queued.Some?
    ensures states[i].refs.queued.value.number !in states[j].dispatched
  {
    RunKeeps(states, steps, i);
    assert LeadsTo(states[i], steps[i], states[i + 1]);
    GoneForGood(states, steps, i + 1, j, states[i].refs.queued.value.number);
  }

  /** A request that is no longer current ends without touching the refs or what is shown. */
  lemma StaleEndIsSilent(states: seq<State>, steps: seq<Step>, i: nat)
    requires Run(states, steps) && i < |steps| && steps[i].End? && !Current(states[i], steps[i].call)
    ensures states[i + 1].refs == states[i].refs && states[i + 1].updates == states[i].updates
  {
    assert LeadsTo(states[i], steps[i], states[i + 1]);
  }

  // ----- when a dispatched action obtains the slot -----

  // The commit at `k` left the effect that is still to be run at `i`.
  ghost predicate LeftBy(states: seq<State>, steps: seq<Step>, k: nat, i: nat)
    requires |states| == |steps| + 1 && i < |states|
  {
    && k < i && steps[k] == Commit(true)
    && (forall j :: k < j < i ==> !steps[j].Commit? && !steps[j].RunEffect?)
    && states[i].effect == Some(Effect(Pending(states[k]), states[k].refs.generation))
  }

  lemma {:induction false} EffectLeft(states: seq<State>, steps: seq<Step>, i: nat) returns (k: nat)
    requires Run(states, steps) && i < |states| && states[i].effect.Some?
    ensures LeftBy(states, steps, k, i)
  {
    assert LeadsTo(states[i - 1], steps[i - 1], states[i]);
    if steps[i - 1].Commit? {
      k := i - 1;
    } else {
      EffectOnly(states[i - 1], steps[i - 1]);
      k := EffectLeft(states, steps, i - 1);
    }
  }

  lemma EffectOnly(s: State, step: Step)
    requires Enabled(s, step) && !step.Commit?
    ensures Apply(s, step).effect == if step.RunEffect? then None else s.effect
  {
  }

  // A call that is not current never becomes so.
  lemma NeverCurrentAgain(s: State, step: Step, c: nat)
    requires Slot(s) && Enabled(s, step) && c < |s.calls| && !Current(s, c)
    ensures c < |Apply(s, step).calls| && !Current(Apply(s, step), c)
  {
  }

  lemma {:induction false} StaysStale(states: seq<State>, steps: seq<Step>, k: nat, i: nat, c: nat)
    requires Run(states, steps) && k <= i < |states| && c < |states[k].calls| && !Current(states[k], c)
    ensures c < |states[i].calls| && !Current(states[i], c)
  {
    if k < i {
      StaysStale(states, steps, k, i - 1, c);
      RunKeeps(states, steps, i - 1);
      assert LeadsTo(states[i - 1], steps[i - 1], states[i]);
      NeverCurrentAgain(states[i - 1], steps[i - 1], c);
    }
  }

  // The effect left at `k` dispatches only if no request was current then.
  lemma NoneCurrentAtCommit(states: seq<State>, steps: seq<Step>, k: nat, i: nat)
    requires Run(states, steps) && i < |states| && LeftBy(states, steps, k, i) && Dispatches(states[i])
    requires states[k].refs.mounted
    ensures forall c: nat :: !Current(states[k], c)
  {
    RunKeeps(states, steps, k);
  }

  /** A dispatched action is refused exactly when a request claimed the slot between the commit that left
      the effect and the run of the effect, and is still current. Otherwise it obtains the slot. */
  lemma DispatchMeetsSlot(states: seq<State>, steps: seq<Step>, i: nat) returns (k: nat)
    requires Run(states, steps) && i < |steps| && steps[i].RunEffect? && Dispatches(states[i])
    ensures LeftBy(states, steps, k, i)
    ensures var s, t := states[i], states[i + 1];
      && t.dispatched == s.dispatched + [s.refs.queued.value.number] && t.refs.queued.None?
      && if exists c: nat :: |states[k].calls| <= c && Current(s, c)
         then t.calls == s.calls + [Call(s.refs.epoch, Refused, Some(s.refs.generation), false)]
         else !s.refs.active && Current(t, |s.calls|) && t.calls[|s.calls|].hook == Some(s.refs.generation)
  {
    k := EffectLeft(states, steps, i);
    assert LeadsTo(states[i], steps[i], states[i + 1]);
    assert LeadsTo(states[k], steps[k], states[k + 1]);
    RunKeeps(states, steps, i);
    NoneCurrentAtCommit(states, steps, k, i);
    if states[i].refs.active {
      var c: nat :| Current(states[i], c);
      if c < |states[k].calls| {
        StaysStale(states, steps, k, i, c);
      }
    }
  }

  // The effect finds an action of the current generation, behind a request that is not current any more.
  predicate FindsWaiting(s: State) {
    && s.effect.Some? && !s.effect.value.seen.streaming && s.effect.value.seen.submission.Queued?
    && s.refs.queued.Some? && s.refs.queued.value.generation == s.refs.generation
    && s.refs.queued.value.behind.Some? && !Current(s, s.refs.queued.value.behind.value)
  }

  /** An action whose request has ended is dispatched exactly when the last request of the epoch to end, that
      one or a later one, did not end cleanly without `done`. */
  lemma LastEndDecides(states: seq<State>, steps: seq<Step>, i: nat) returns (d: nat)
    requires Run(states, steps) && i < |states| && FindsWaiting(states[i])
    ensures var s, c := states[i], states[i].refs.queued.value.behind.value;
      && EndedNow(s, c) && c <= d && LastToEnd(s, d)
      && (Dispatches(s) <==> s.calls[d].phase.outcome in {DoneSeen, ErrorResponse, Thrown})
  {
    RunKeeps(states, steps, i);
    d :| Decided(states[i], d);
  }

  predicate EndedWithoutDone(s: State, c: nat) {
    EndedNow(s, c) && s.calls[c].phase.outcome in {NoDone, NoBody}
  }

  /** So an action runs although the request it waited behind ended cleanly without `done`, exactly when a later
      request of the epoch was the last to end, and otherwise. */
  lemma DispatchAfterDone(states: seq<State>, steps: seq<Step>, i: nat)
    requires Run(states, steps) && i < |states| && FindsWaiting(states[i])
    requires EndedWithoutDone(states[i], states[i].refs.queued.value.behind.value)
    ensures var s, c := states[i], states[i].refs.queued.value.behind.value;
      Dispatches(s) <==> exists d: nat :: d > c && LastToEnd(s, d) && !EndedWithoutDone(s, d)
  {
    var d := LastEndDecides(states, steps, i);
    match states[i].calls[d].phase.outcome
    case DoneSeen =>
    case NoDone =>
    case NoBody =>
    case ErrorResponse =>
    case Thrown =>
  }

  /** An action dispatched while the request it waits behind is current is refused. */
  lemma DispatchWhileCurrent(states: seq<State>, steps: seq<Step>, i: nat)
    requires Run(states, steps) && i < |steps| && steps[i].RunEffect? && Dispatches(states[i])
    requires states[i].refs.queued.value.behind.Some? && Current(states[i], states[i].refs.queued.value.behind.value)
    ensures states[i + 1].calls ==
      states[i].calls + [Call(states[i].refs.epoch, Refused, Some(states[i].refs.generation), false)]
  {
    RunKeeps(states, steps, i);
    assert LeadsTo(states[i], steps[i], states[i + 1]);
  }

  // ----- runs in which effects are prompt -----

  ghost predicate PromptRun(states: seq<State>, steps: seq<Step>) {
    Run(states, steps) && forall i :: 0 <= i < |steps| ==> Prompt(states[i], steps[i])
  }

  lemma {:induction false} PromptRunKeeps(states: seq<State>, steps: seq<Step>, i: nat)
    requires PromptRun(states, steps) && i < |states|
    ensures Inv(states[i])
  {
    if i == 0 {
      InitialInv();
    } else {
      PromptRunKeeps(states, steps, i - 1);
      assert LeadsTo(states[i - 1], steps[i - 1], states[i]);
      StepKeeps(states[i - 1], steps[i - 1]);
    }
  }

  /** When no callback comes between an invalidation and an effect from before it, a dispatched action always
      obtains the slot, and the request it waited behind did not end cleanly without `done`. */
  lemma DispatchObtainsSlot(states: seq<State>, steps: seq<Step>, i: nat)
    requires PromptRun(states, steps) && i < |steps| && steps[i].RunEffect? && Dispatches(states[i])
    ensures var s, t := states[i], states[i + 1];
      var ticket := s.refs.queued.value;
      && t.refs.active && Current(t, |s.calls|) && t.calls[|s.calls|].hook == Some(s.refs.generation)
      && t.dispatched == s.dispatched + [ticket.number] && t.refs.queued.None?
      && ticket.generation == s.refs.generation
      && (ticket.behind.Some? ==>
        var c := ticket.behind.value;
        && c < |s.calls| && s.calls[c].phase.Ended?
        && !s.calls[c].phase.outcome.NoDone? && !s.calls[c].phase.outcome.NoBody?)
  {
    PromptRunKeeps(states, steps, i);
    assert LeadsTo(states[i], steps[i], states[i + 1]);
  }

  // ----- callbacks that come before a late effect -----

  function Sending(epoch: nat): Call {
    Call(epoch, Running, None, false)
  }

  // A request has ended and the commit that shows it has left its effect, with an action waiting.
  function BeforeStop(): State {
    State(Refs(true, 0, false, 0, true, Some(Ticket(0, 0, Some(0))), true), Rendered(false, Queued), [],
          Some(Effect(Rendered(false, Queued), 0)), [Call(0, Ended(DoneSeen), None, false)], 1, [])
  }

  lemma ReachesBeforeStop() returns (states: seq<State>, steps: seq<Step>)
    ensures Run(states, steps) && states[|states| - 1] == BeforeStop()
    ensures steps == [Send(false), Submit(false, true), End(0, DoneSeen), Commit(true)]
  {
    var waiting := Some(Ticket(0, 0, Some(0)));
    var a := State(Refs(true, 0, true, 0, false, None, true), Rendered(false, Idle), [SetStreaming(true)], None,
                   [Sending(0)], 0, []);
    var b := State(Refs(true, 0, true, 0, true, waiting, true), Rendered(false, Idle),
                   [SetStreaming(true), SetSubmission(Queued)], None, [Sending(0)], 1, []);
    var c := State(Refs(true, 0, false, 0, true, waiting, true), Rendered(false, Idle),
                   [SetStreaming(true), SetSubmission(Queued), SetStreaming(false)], None,
                   [Call(0, Ended(DoneSeen), None, false)], 1, []);
    AppliedSnoc(c.rendered, [], SetStreaming(true));
    AppliedSnoc(c.rendered, [SetStreaming(true)], SetSubmission(Queued));
    AppliedSnoc(c.rendered, [SetStreaming(true), SetSubmission(Queued)], SetStreaming(false));
    assert c.updates == [] + [SetStreaming(true)] + [SetSubmission(Queued)] + [SetStreaming(false)];
    assert LeadsTo(Initial(), Send(false), a) && LeadsTo(a, Submit(false, true), b);
    assert LeadsTo(b, End(0, DoneSeen), c) && LeadsTo(c, Commit(true), BeforeStop());
    states := [Initial(), a, b, c, BeforeStop()];
    steps := [Send(false), Submit(false, true), End(0, DoneSeen), Commit(true)];
  }

  // A run may go on.
  lemma RunOn(states: seq<State>, steps: seq<Step>, step: Step, t: State)
    requires Run(states, steps) && LeadsTo(states[|states| - 1], step, t)
    ensures Run(states + [t], steps + [step])
  {
    forall i | 0 <= i < |steps + [step]|
      ensures LeadsTo((states + [t])[i], (steps + [step])[i], (states + [t])[i + 1])
    {
      if i < |steps| {
        assert LeadsTo(states[i], steps[i], states[i + 1]);
      }
    }
  }

  /** One order in which a dispatched action is refused: one handler stops, sends and submits while the effect
      of an earlier commit is still to run. */
  lemma LateEffectMissesSlot() returns (states: seq<State>, steps: seq<Step>)
    ensures Run(states, steps)
    ensures steps == [Send(false), Submit(false, true), End(0, DoneSeen), Commit(true),
                      Cancel, Send(false), Submit(false, true)]
    ensures var s := states[|states| - 1];
      && Enabled(s, RunEffect) && Dispatches(s) && s.refs.active && s.dispatched == []
      && Apply(s, RunEffect).dispatched == [1]
      && Apply(s, RunEffect).calls == s.calls + [Call(1, Refused, Some(1), false)]
  {
    states, steps := ReachesBeforeStop();
    var s := BeforeStop();
    var ended, stopped := s.calls[0], [SetStreaming(false), SetSubmission(Idle)];
    var a := s.(refs := Refs(true, 1, false, 1, false, None, true), updates := stopped);
    var b := a.(refs := Refs(true, 1, true, 1, false, None, true), updates := stopped + [SetStreaming(true)],
                calls := [ended, Sending(1)]);
    var c := b.(refs := Refs(true, 1, true, 1, true, Some(Ticket(1, 1, Some(1))), true),
                updates := stopped + [SetStreaming(true)] + [SetSubmission(Queued)], tickets := 2);
    RunOn(states, steps, Cancel, a);
    RunOn(states + [a], steps + [Cancel], Send(false), b);
    RunOn(states + [a] + [b], steps + [Cancel] + [Send(false)], Submit(false, true), c);
    states, steps := states + [a] + [b] + [c], steps + [Cancel] + [Send(false)] + [Submit(false, true)];
  }

  // After a stop, an action has been submitted and runs; the late effect has found nothing waiting and lowered
  // the interactive flag; and another action waits behind the first.
  function FlagLowered(): State {
    State(Refs(true, 1, true, 1, true, Some(Ticket(1, 1, Some(1))), true), Rendered(false, Queued),
          [SetStreaming(false), SetSubmission(Idle), SetSubmission(Continuing), SetStreaming(true), SetSubmission(Idle),
           SetSubmission(Queued)],
          None, [Call(0, Ended(DoneSeen), None, false), Call(1, Running, Some(1), false)], 2, [])
  }

  lemma ReachesFlagLowered() returns (states: seq<State>, steps: seq<Step>)
    ensures Run(states, steps) && states[|states| - 1] == FlagLowered()
    ensures steps == [Send(false), Submit(false, true), End(0, DoneSeen), Commit(true),
                      Cancel, Submit(false, true), RunEffect, Submit(false, true)]
  {
    states, steps := ReachesBeforeStop();
    var s, l := BeforeStop(), FlagLowered();
    var a := s.(refs := Refs(true, 1, false, 1, false, None, true),
                updates := [SetStreaming(false), SetSubmission(Idle)]);
    var b := a.(refs := Refs(true, 1, true, 1, true, None, true), calls := l.calls,
                updates := a.updates + [SetSubmission(Continuing)] + [SetStreaming(true)]);
    var c := b.(refs := Refs(true, 1, true, 1, false, None, true), effect := None,
                updates := b.updates + [SetSubmission(Idle)]);
    RunOn(states, steps, Cancel, a);
    RunOn(states + [a], steps + [Cancel], Submit(false, true), b);
    RunOn(states + [a] + [b], steps + [Cancel] + [Submit(false, true)], RunEffect, c);
    RunOn(states + [a] + [b] + [c], steps + [Cancel] + [Submit(false, true)] + [RunEffect], Submit(false, true), l);
    states := states + [a] + [b] + [c] + [l];
    steps := steps + [Cancel] + [Submit(false, true)] + [RunEffect] + [Submit(false, true)];
  }

  // The first of the two has ended with `o`, that has been committed, and an ordinary request runs.
  function SentMeanwhile(o: Outcome): State {
    State(Refs(true, 1, true, 1, false, Some(Ticket(1, 1, Some(1))), Allows(o)), Rendered(false, Queued),
          [SetSubmission(Idle), SetStreaming(true)], Some(Effect(Rendered(false, Queued), 1)),
          [Call(0, Ended(DoneSeen), None, false), Call(1, Ended(o), Some(1), true), Sending(1)], 2, [])
  }

  lemma ReachesSentMeanwhile(o: Outcome) returns (states: seq<State>, steps: seq<Step>)
    ensures Run(states, steps) && states[|states| - 1] == SentMeanwhile(o)
    ensures steps == [Send(false), Submit(false, true), End(0, DoneSeen), Commit(true),
                      Cancel, Submit(false, true), RunEffect, Submit(false, true),
                      End(1, o), Commit(true), Settle(1), Send(false)]
  {
    states, steps := ReachesFlagLowered();
    var s, l := FlagLowered(), SentMeanwhile(o);
    var first, ended := s.calls[0], Call(1, Ended(o), Some(1), false);
    var a := s.(refs := Refs(true, 1, false, 1, true, s.refs.queued, Allows(o)), calls := [first, ended],
                updates := s.updates + [SetStreaming(false)]);
    ShowsQueued(s.rendered, s.updates);
    var b := a.(rendered := Rendered(false, Queued), updates := [], effect := l.effect);
    var c := b.(refs := Refs(true, 1, false, 1, false, s.refs.queued, Allows(o)), updates := [SetSubmission(Idle)],
                calls := [first, ended.(settled := true)]);
    RunOn(states, steps, End(1, o), a);
    RunOn(states + [a], steps + [End(1, o)], Commit(true), b);
    RunOn(states + [a] + [b], steps + [End(1, o)] + [Commit(true)], Settle(1), c);
    RunOn(states + [a] + [b] + [c], steps + [End(1, o)] + [Commit(true)] + [Settle(1)], Send(false), l);
    states := states + [a] + [b] + [c] + [l];
    steps := steps + [End(1, o)] + [Commit(true)] + [Settle(1)] + [Send(false)];
  }

  lemma ShowsQueued(r: Rendered, updates: seq<Update>)
    requires |updates| > 0 && updates[|updates| - 1] == SetSubmission(Queued)
    ensures Applied(r, updates + [SetStreaming(false)]) == Rendered(false, Queued)
  {
    AppliedSnoc(r, updates, SetStreaming(false));
  }

  /** Another order, in which the effect is of the current generation: the flag lowered by a late effect lets a
      request in between, and the dispatched action is refused. */
  lemma LoweredFlagMissesSlot() returns (states: seq<State>, steps: seq<Step>)
    ensures Run(states, steps)
    ensures var s := states[|states| - 1];
      && Enabled(s, RunEffect) && Dispatches(s) && Timely(s) && s.refs.active
      && Apply(s, RunEffect).dispatched == [1]
      && Apply(s, RunEffect).calls == s.calls + [Call(1, Refused, Some(1), false)]
  {
    states, steps := ReachesSentMeanwhile(DoneSeen);
  }

  /** And if that request ends first, the action runs although the one it waited behind ended without `done`. */
  lemma RunsWithoutDone() returns (states: seq<State>, steps: seq<Step>)
    ensures Run(states, steps)
    ensures var s := states[|states| - 1];
      && Enabled(s, RunEffect) && Dispatches(s) && s.refs.queued.value.behind == Some(1)
      && |s.calls| > 1 && s.calls[1].phase == Ended(NoDone)
      && Current(Apply(s, RunEffect), |s.calls|)
  {
    states, steps := ReachesSentMeanwhile(NoDone);
    var s := SentMeanwhile(NoDone);
    var t := EndStep(s, 2, DoneSeen);
    RunOn(states, steps, End(2, DoneSeen), t);
    states, steps := states + [t], steps + [End(2, DoneSeen)];
  }
}
