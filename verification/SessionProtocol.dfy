/** session/session.go and the handlers of server/server.go as one state machine: any number of chat,
    delete and stop requests, interleaved at every lock, channel and registry operation. */
module SessionProtocol {
  import opened JsonTree
  import opened SessionObject

  type SessionId = string
  type ObjectId = nat
  type RequestId = nat

  // ----- states -----

  // `log` is everything ever added to `window`; it is not part of the program's state.
  datatype Entry = Entry(id: SessionId, turn: Turn, window: seq<Message>, log: seq<Message>)

  // Where a request stands. A chat request acquires a turn, registers its cancel function (over HTTP),
  // commits a user and an assistant message, unregisters and releases. A delete request closes the
  // session it looked up, waits for its turn to end and removes it.
  datatype Place =
    | Resolving(id: SessionId)
    | Creating(id: SessionId)
    | Acquiring(obj: ObjectId)
    | Blocked(obj: ObjectId, channel: Channel)
    | Holding(obj: ObjectId)
    | Registered(obj: ObjectId)
    | Asked(obj: ObjectId)
    | Answered(obj: ObjectId)
    | Unregistered(obj: ObjectId)
    | Cancelling(id: SessionId)
    | LookingUp(id: SessionId)
    | Closing(obj: ObjectId)
    | Draining(obj: ObjectId, channel: Channel)
    | Closed(obj: ObjectId)
    | Finished

  // `http` requests go through the handler; the others call RunChat directly. `detached` deletes are
  // the background ones, which nothing cancels.
  datatype Request = Request(place: Place, http: bool, detached: bool, cancelled: bool)

  datatype State = State(
    maxMessages: int,
    entries: seq<Entry>,
    registry: map<SessionId, ObjectId>,
    requests: seq<Request>,
    cancels: map<SessionId, RequestId>,
    channels: nat,
    closedChannels: set<Channel>)

  function Initial(maxMessages: int): State {
    State(maxMessages, [], map[], [], map[], 0, {})
  }

  predicate HasTurn(p: Place) {
    p.Holding? || p.Registered? || p.Asked? || p.Answered? || p.Unregistered?
  }

  // Between activeContexts.Store and activeContexts.Delete.
  predicate MayBeStopped(q: Request) {
    q.http && (q.place.Registered? || q.place.Asked? || q.place.Answered?)
  }

  predicate Waits(p: Place) {
    p.Blocked? || p.Draining?
  }

  predicate RefersToObject(p: Place) {
    HasTurn(p) || Waits(p) || p.Acquiring? || p.Closing? || p.Closed?
  }

  // ----- steps -----

  datatype Step =
    | ArriveChat(id: SessionId, http: bool)
    | ArriveDelete(id: SessionId)
    | Disconnect(r: RequestId)
    | Resolve(r: RequestId)
    | ResolveNew(r: RequestId, generated: SessionId)
    | Create(r: RequestId)
    | Acquire(r: RequestId)
    | GiveUp(r: RequestId)
    | Wake(r: RequestId)
    | Register(r: RequestId)
    | Ask(r: RequestId, text: string)
    | Answer(r: RequestId, text: string)
    | Unregister(r: RequestId)
    | Release(r: RequestId)
    | Stop(id: SessionId)
    | CancelForDelete(r: RequestId)
    | LookUp(r: RequestId)
    | Close(r: RequestId)
    | Remove(r: RequestId)

  predicate At(s: State, r: RequestId) {
    r < |s.requests|
  }

  predicate Enabled(s: State, step: Step) {
    match step
    case ArriveChat(_, _) => true
    case ArriveDelete(id) => id != ""
    case Disconnect(r) => At(s, r) && !s.requests[r].detached
    case Resolve(r) => At(s, r) && s.requests[r].place.Resolving? && s.requests[r].place.id != ""
    case ResolveNew(r, generated) =>
      At(s, r) && s.requests[r].place == Resolving("") && generated != "" && generated !in s.registry
    case Create(r) => At(s, r) && s.requests[r].place.Creating?
    case Acquire(r) => At(s, r) && s.requests[r].place.Acquiring?
    case GiveUp(r) => At(s, r) && Waits(s.requests[r].place) && s.requests[r].cancelled
    case Wake(r) => At(s, r) && Waits(s.requests[r].place) && s.requests[r].place.channel in s.closedChannels
    case Register(r) => At(s, r) && s.requests[r].place.Holding? && s.requests[r].http
    case Ask(r, _) =>
      At(s, r) && (s.requests[r].place.Registered? || (s.requests[r].place.Holding? && !s.requests[r].http))
    case Answer(r, _) => At(s, r) && s.requests[r].place.Asked?
    case Unregister(r) => At(s, r) && s.requests[r].http && s.requests[r].place.Answered?
    case Release(r) =>
      At(s, r) && (s.requests[r].place.Unregistered? || (s.requests[r].place.Answered? && !s.requests[r].http))
    case Stop(_) => true
    case CancelForDelete(r) => At(s, r) && s.requests[r].place.Cancelling?
    case LookUp(r) => At(s, r) && s.requests[r].place.LookingUp?
    case Close(r) => At(s, r) && s.requests[r].place.Closing?
    case Remove(r) => At(s, r) && s.requests[r].place.Closed?
  }

  function Move(s: State, r: RequestId, p: Place): State
    requires At(s, r)
  {
    s.(requests := s.requests[r := s.requests[r].(place := p)])
  }

  function SetTurn(s: State, o: ObjectId, t: Turn): State
    requires o < |s.entries|
  {
    s.(entries := s.entries[o := s.entries[o].(turn := t)])
  }

  // A fresh object under `id`, overwriting whatever the registry held there.
  function AddEntry(s: State, id: SessionId): State {
    s.(entries := s.entries + [Entry(id, Turn(false, false, None), [], [])],
       registry := s.registry[id := |s.entries|])
  }

  // LoadAndDelete on the registry of cancel functions, and the call of what it returned.
  function CancelId(s: State, id: SessionId): State {
    if id !in s.cancels then s
    else
      var r := s.cancels[id];
      var removed := s.(cancels := s.cancels - {id});
      if At(s, r) then removed.(requests := s.requests[r := s.requests[r].(cancelled := true)]) else removed
  }

  function Add(s: State, o: ObjectId, m: Message): State
    requires o < |s.entries|
  {
    var e := s.entries[o];
    s.(entries := s.entries[o := e.(window := Trim(e.window + [m], s.maxMessages), log := e.log + [m])])
  }

  // The objects that requests refer to exist.
  predicate Grounded(s: State) {
    && (forall r :: 0 <= r < |s.requests| && RefersToObject(s.requests[r].place) ==>
      s.requests[r].place.obj < |s.entries|)
    && (forall id :: id in s.registry ==> s.registry[id] < |s.entries|)
  }

  function DoAcquire(s: State, r: RequestId): State
    requires Grounded(s) && At(s, r) && s.requests[r].place.Acquiring?
  {
    var o := s.requests[r].place.obj;
    var (turn, verdict) := EnterTurn(s.entries[o].turn, s.channels);
    var locked := SetTurn(s, o, turn);
    match verdict
    case Refused => Move(locked, r, Finished)
    case Acquired => Move(locked, r, Holding(o))
    case WaitOn(channel) => Move(locked.(channels := s.channels + 1), r, Blocked(o, channel))
  }

  function DoRelease(s: State, r: RequestId): State
    requires Grounded(s) && At(s, r) && HasTurn(s.requests[r].place)
  {
    var o := s.requests[r].place.obj;
    var (turn, woken) := LeaveTurn(s.entries[o].turn);
    var left := Move(SetTurn(s, o, turn), r, Finished);
    if woken.Some? then left.(closedChannels := s.closedChannels + {woken.value}) else left
  }

  function DoClose(s: State, r: RequestId): State
    requires Grounded(s) && At(s, r) && s.requests[r].place.Closing?
  {
    var o := s.requests[r].place.obj;
    var (turn, wait) := CloseTurn(s.entries[o].turn, s.channels);
    var locked := SetTurn(s, o, turn);
    match wait
    case None => Move(locked, r, Closed(o))
    case Some(channel) => Move(locked.(channels := s.channels + 1), r, Draining(o, channel))
  }

  // A cancelled delete leaves a detached one behind that closes and removes the same object.
  function DoGiveUp(s: State, r: RequestId): State
    requires At(s, r) && Waits(s.requests[r].place)
  {
    var left := Move(s, r, Finished);
    if s.requests[r].place.Blocked? then left
    else left.(requests := left.requests + [Request(Closing(s.requests[r].place.obj), false, true, false)])
  }

  function DoCreate(s: State, r: RequestId): State
    requires At(s, r) && s.requests[r].place.Creating?
  {
    var id := s.requests[r].place.id;
    if id in s.registry then Move(s, r, Acquiring(s.registry[id]))
    else Move(AddEntry(s, id), r, Acquiring(|s.entries|))
  }

  function DoRemove(s: State, r: RequestId): State
    requires Grounded(s) && At(s, r) && s.requests[r].place.Closed?
  {
    var o := s.requests[r].place.obj;
    var id := s.entries[o].id;
    var left := Move(s, r, Finished);
    if id in s.registry && s.registry[id] == o then left.(registry := s.registry - {id}) else left
  }

  function Apply(s: State, step: Step): State
    requires Grounded(s) && Enabled(s, step)
  {
    match step
    case ArriveChat(id, http) => s.(requests := s.requests + [Request(Resolving(id), http, false, false)])
    case ArriveDelete(id) => s.(requests := s.requests + [Request(Cancelling(id), true, false, false)])
    case Disconnect(r) => s.(requests := s.requests[r := s.requests[r].(cancelled := true)])
    case Resolve(r) =>
      var id := s.requests[r].place.id;
      Move(s, r, if id in s.registry then Acquiring(s.registry[id]) else Creating(id))
    case ResolveNew(r, generated) => Move(AddEntry(s, generated), r, Acquiring(|s.entries|))
    case Create(r) => DoCreate(s, r)
    case Acquire(r) => DoAcquire(s, r)
    case GiveUp(r) => DoGiveUp(s, r)
    case Wake(r) =>
      var p := s.requests[r].place;
      Move(s, r, if p.Blocked? then Acquiring(p.obj) else Closed(p.obj))
    case Register(r) =>
      var o := s.requests[r].place.obj;
      Move(s, r, Registered(o)).(cancels := s.cancels[s.entries[o].id := r])
    case Ask(r, text) =>
      var o := s.requests[r].place.obj;
      Move(Add(s, o, Message(User, text)), r, Asked(o))
    case Answer(r, text) =>
      var o := s.requests[r].place.obj;
      Move(Add(s, o, Message(Assistant, text)), r, Answered(o))
    case Unregister(r) =>
      var o := s.requests[r].place.obj;
      Move(s, r, Unregistered(o)).(cancels := s.cancels - {s.entries[o].id})
    case Release(r) => DoRelease(s, r)
    case Stop(id) => CancelId(s, id)
    case CancelForDelete(r) =>
      var id := s.requests[r].place.id;
      Move(CancelId(s, id), r, LookingUp(id))
    case LookUp(r) =>
      var id := s.requests[r].place.id;
      Move(s, r, if id in s.registry then Closing(s.registry[id]) else Finished)
    case Close(r) => DoClose(s, r)
    case Remove(r) => DoRemove(s, r)
  }

  // ----- what every reachable state satisfies -----

  predicate Retired(e: Entry) {
    e.turn.closed && !e.turn.active
  }

  predicate InRegistry(s: State, o: ObjectId)
    requires o < |s.entries|
  {
    s.entries[o].id in s.registry && s.registry[s.entries[o].id] == o
  }

  // The registry names objects of its own ids, and an object it no longer names is out of use.
  ghost predicate Tenancy(s: State)
    requires Grounded(s)
  {
    && (forall id :: id in s.registry ==> s.entries[s.registry[id]].id == id)
    && (forall o :: 0 <= o < |s.entries| ==> InRegistry(s, o) || Retired(s.entries[o]))
  }

  ghost predicate Holds(s: State, r: RequestId, o: ObjectId) {
    r < |s.requests| && HasTurn(s.requests[r].place) && s.requests[r].place.obj == o
  }

  // An object's turn is active exactly while one request holds it.
  ghost predicate Turns(s: State)
    requires Grounded(s)
  {
    && (forall r: nat, o: nat :: Holds(s, r, o) ==> s.entries[o].turn.active)
    && (forall r1: nat, r2: nat, o: nat :: Holds(s, r1, o) && Holds(s, r2, o) ==> r1 == r2)
    && (forall o :: 0 <= o < |s.entries| && s.entries[o].turn.active ==> exists r: nat :: Holds(s, r, o))
  }

  // Every wait channel in use is open and belongs to one active turn.
  ghost predicate Channels(s: State) {
    && (forall c :: c in s.closedChannels ==> c < s.channels)
    && (forall o :: 0 <= o < |s.entries| && s.entries[o].turn.wait.Some? ==>
      && s.entries[o].turn.active
      && s.entries[o].turn.wait.value < s.channels
      && s.entries[o].turn.wait.value !in s.closedChannels)
    && (forall o1, o2 :: 0 <= o1 < |s.entries| && 0 <= o2 < |s.entries| ==>
      s.entries[o1].turn.wait.Some? && s.entries[o1].turn.wait == s.entries[o2].turn.wait ==> o1 == o2)
  }

  // A waiter's channel is closed already or will be closed by the turn that is active now.
  ghost predicate Waiters(s: State)
    requires Grounded(s)
  {
    && (forall r :: 0 <= r < |s.requests| && Waits(s.requests[r].place) ==>
      && s.requests[r].place.channel < s.channels
      && (s.requests[r].place.channel in s.closedChannels
          || s.entries[s.requests[r].place.obj].turn.wait == Some(s.requests[r].place.channel)))
    && (forall r :: 0 <= r < |s.requests| && s.requests[r].place.Draining? ==>
      && s.entries[s.requests[r].place.obj].turn.closed
      && (s.requests[r].place.channel in s.closedChannels ==> Retired(s.entries[s.requests[r].place.obj])))
    && (forall r :: 0 <= r < |s.requests| && s.requests[r].place.Closed? ==>
      Retired(s.entries[s.requests[r].place.obj]))
  }

  // A registered cancel function is that of the request holding the turn of that id.
  ghost predicate Cancels(s: State)
    requires Grounded(s)
  {
    forall id :: id in s.cancels ==>
      var r := s.cancels[id];
      && r < |s.requests| && MayBeStopped(s.requests[r])
      && s.entries[s.requests[r].place.obj].id == id
  }

  function SpeakerAt(i: nat): Role {
    if i % 2 == 0 then User else Assistant
  }

  ghost predicate Alternates(log: seq<Message>) {
    forall i :: 0 <= i < |log| ==> log[i].role == SpeakerAt(i)
  }

  ghost predicate Asking(s: State, r: RequestId, o: ObjectId) {
    r < |s.requests| && s.requests[r].place == Asked(o)
  }

  // Histories alternate; a question stands unanswered exactly while its request is running; and the
  // window is the tail of everything said.
  ghost predicate Histories(s: State) {
    && (forall o :: 0 <= o < |s.entries| ==>
      && Alternates(s.entries[o].log)
      && s.entries[o].window == LastOf(s.entries[o].log, Limit(s.maxMessages))
      && (|s.entries[o].log| % 2 == 1 ==> exists r: nat :: Asking(s, r, o)))
    && (forall r: nat, o: nat :: Asking(s, r, o) && o < |s.entries| ==> |s.entries[o].log| % 2 == 1)
  }

  ghost predicate Inv(s: State) {
    && Grounded(s) && Tenancy(s) && Turns(s) && Channels(s) && Waiters(s) && Cancels(s) && Histories(s)
  }

  lemma InitialInv(maxMessages: int)
    ensures Inv(Initial(maxMessages))
  {
  }

  // ----- the building blocks of steps keep the invariant -----

  // What a request's place says about the rest of the state, leaving turns aside.
  ghost predicate PlaceOk(s: State, p: Place)
    requires Grounded(s)
  {
    && (RefersToObject(p) ==> p.obj < |s.entries|)
    && (Waits(p) ==>
      p.channel < s.channels
      && (p.channel in s.closedChannels || s.entries[p.obj].turn.wait == Some(p.channel)))
    && (p.Draining? ==>
      s.entries[p.obj].turn.closed && (p.channel in s.closedChannels ==> Retired(s.entries[p.obj])))
    && (p.Closed? ==> Retired(s.entries[p.obj]))
  }

  lemma PlacesOk(s: State, r: RequestId)
    requires Inv(s) && At(s, r)
    ensures PlaceOk(s, s.requests[r].place)
  {
  }

  // Steps that leave ids, logs and questions alone keep what only depends on them.
  lemma RestFrame(s: State, t: State)
    requires Inv(s) && Grounded(t) && |t.entries| == |s.entries|
    requires t.registry == s.registry && t.maxMessages == s.maxMessages
    requires forall o :: 0 <= o < |s.entries| ==>
      && t.entries[o].id == s.entries[o].id
      && t.entries[o].log == s.entries[o].log
      && t.entries[o].window == s.entries[o].window
      && (Retired(s.entries[o]) ==> Retired(t.entries[o]))
    requires forall x: nat, o: nat :: Asking(t, x, o) <==> Asking(s, x, o)
    ensures Tenancy(t) && Histories(t)
  {
  }

  lemma CancelsFrame(s: State, t: State)
    requires Inv(s) && Grounded(t) && |t.entries| == |s.entries|
    requires forall o :: 0 <= o < |s.entries| ==> t.entries[o].id == s.entries[o].id
    requires forall id :: id in t.cancels ==> id in s.cancels && t.cancels[id] == s.cancels[id]
    requires forall id :: id in t.cancels ==>
      var r := t.cancels[id];
      r < |t.requests| && MayBeStopped(t.requests[r]) && t.requests[r].place.obj == s.requests[r].place.obj
    ensures Cancels(t)
  {
  }

  // Steps that change no turn.
  lemma TurnsFrame(s: State, t: State)
    requires Inv(s) && Grounded(t) && |t.entries| == |s.entries|
    requires forall o :: 0 <= o < |s.entries| ==> t.entries[o].turn == s.entries[o].turn
    requires t.channels == s.channels && t.closedChannels == s.closedChannels
    requires forall x: nat, o: nat :: Holds(t, x, o) <==> Holds(s, x, o)
    ensures Turns(t) && Channels(t)
  {
  }

  // Waiters are fine as long as every place is.
  lemma WaitersFrame(t: State)
    requires Grounded(t) && forall x: nat :: x < |t.requests| ==> PlaceOk(t, t.requests[x].place)
    ensures Waiters(t)
  {
  }

  // Steps that only change one request, or add one.
  lemma QuietFrame(s: State, t: State)
    requires Inv(s) && |t.requests| >= |s.requests| && t.entries == s.entries
    requires t == s.(requests := t.requests, cancels := t.cancels)
    requires forall x: nat :: x < |t.requests| ==> PlaceOk(s, t.requests[x].place)
    requires forall x: nat, o: nat :: Holds(t, x, o) <==> Holds(s, x, o)
    requires forall x: nat, o: nat :: Asking(t, x, o) <==> Asking(s, x, o)
    requires forall id :: id in t.cancels ==> id in s.cancels && t.cancels[id] == s.cancels[id]
    requires forall x: nat :: x < |s.requests| && MayBeStopped(s.requests[x]) ==>
      t.requests[x].place == s.requests[x].place && t.requests[x].http
    ensures Inv(t)
  {
    assert forall x: nat :: x < |t.requests| ==> PlaceOk(t, t.requests[x].place);
    RestFrame(s, t);
    CancelsFrame(s, t);
    TurnsFrame(s, t);
    WaitersFrame(t);
  }

  // A request that holds no turn goes where none is held.
  lemma MoveQuietly(s: State, r: RequestId, p: Place)
    requires Inv(s) && At(s, r) && !HasTurn(s.requests[r].place) && !HasTurn(p) && PlaceOk(s, p)
    ensures Inv(Move(s, r, p))
  {
    forall x: nat | x < |s.requests| ensures PlaceOk(s, s.requests[x].place) { PlacesOk(s, x); }
    QuietFrame(s, Move(s, r, p));
  }

  lemma AddRequest(s: State, q: Request)
    requires Inv(s) && !HasTurn(q.place) && PlaceOk(s, q.place)
    ensures Inv(s.(requests := s.requests + [q]))
  {
    forall x: nat | x < |s.requests| ensures PlaceOk(s, s.requests[x].place) { PlacesOk(s, x); }
    QuietFrame(s, s.(requests := s.requests + [q]));
  }

  lemma SetCancelled(s: State, r: RequestId)
    requires Inv(s) && At(s, r)
    ensures Inv(s.(requests := s.requests[r := s.requests[r].(cancelled := true)]))
  {
    forall x: nat | x < |s.requests| ensures PlaceOk(s, s.requests[x].place) { PlacesOk(s, x); }
    QuietFrame(s, s.(requests := s.requests[r := s.requests[r].(cancelled := true)]));
  }

  lemma DropCancel(s: State, id: SessionId)
    requires Inv(s)
    ensures Inv(s.(cancels := s.cancels - {id}))
  {
    forall x: nat | x < |s.requests| ensures PlaceOk(s, s.requests[x].place) { PlacesOk(s, x); }
    QuietFrame(s, s.(cancels := s.cancels - {id}));
  }

  lemma CancelIdKeeps(s: State, id: SessionId)
    requires Inv(s)
    ensures Inv(CancelId(s, id)) && |CancelId(s, id).requests| == |s.requests|
    ensures forall r: nat :: r < |s.requests| ==> CancelId(s, id).requests[r].place == s.requests[r].place
  {
    if id in s.cancels {
      DropCancel(s, id);
      SetCancelled(s.(cancels := s.cancels - {id}), s.cancels[id]);
    }
  }

  lemma AddEntryKeepsTurns(s: State, id: SessionId)
    requires Grounded(s) && Turns(s) && Channels(s)
    ensures var t := AddEntry(s, id); Grounded(t) && Turns(t) && Channels(t)
  {
    var t := AddEntry(s, id);
    assert forall x: nat, o: nat :: Holds(t, x, o) <==> Holds(s, x, o);
  }

  lemma AddEntryKeepsWaiters(s: State, id: SessionId)
    requires Grounded(s) && Waiters(s) && Cancels(s)
    ensures var t := AddEntry(s, id); Grounded(t) && Waiters(t) && Cancels(t)
  {
  }

  lemma AddEntryKeepsHistories(s: State, id: SessionId)
    requires Grounded(s) && Histories(s)
    ensures var t := AddEntry(s, id); Grounded(t) && Histories(t)
  {
    var t := AddEntry(s, id);
    assert forall x: nat, o: nat :: Asking(t, x, o) <==> Asking(s, x, o);
  }

  lemma AddEntryKeepsTenancy(s: State, id: SessionId)
    requires Grounded(s) && Tenancy(s) && id !in s.registry
    ensures var t := AddEntry(s, id); Grounded(t) && Tenancy(t)
  {
  }

  lemma AddEntryKeeps(s: State, id: SessionId)
    requires Inv(s) && id !in s.registry
    ensures Inv(AddEntry(s, id))
  {
    AddEntryKeepsTurns(s, id);
    AddEntryKeepsWaiters(s, id);
    AddEntryKeepsHistories(s, id);
    AddEntryKeepsTenancy(s, id);
  }

  // ----- the critical sections -----

  // A request acquires a turn nobody holds.
  lemma AcquireKeeps(s: State, r: RequestId)
    requires Inv(s) && At(s, r) && s.requests[r].place.Acquiring?
    requires !s.entries[s.requests[r].place.obj].turn.closed && !s.entries[s.requests[r].place.obj].turn.active
    ensures Inv(DoAcquire(s, r))
  {
    var t, o := DoAcquire(s, r), s.requests[r].place.obj;
    assert t == Move(SetTurn(s, o, s.entries[o].turn.(active := true)), r, Holding(o));
    RestFrame(s, t);
    CancelsFrame(s, t);
    AcquireKeepsTurns(s, r, t);
    AcquireKeepsWaiters(s, r, t);
  }

  lemma AcquireKeepsWaiters(s: State, r: RequestId, t: State)
    requires Grounded(s) && Waiters(s) && At(s, r) && s.requests[r].place.Acquiring? && Grounded(t)
    requires var o := s.requests[r].place.obj;
      && !s.entries[o].turn.closed
      && t == Move(SetTurn(s, o, s.entries[o].turn.(active := true)), r, Holding(o))
    ensures Waiters(t)
  {
  }

  lemma AcquireKeepsTurns(s: State, r: RequestId, t: State)
    requires Inv(s) && At(s, r) && s.requests[r].place.Acquiring? && Grounded(t)
    requires var o := s.requests[r].place.obj;
      !s.entries[o].turn.active && t == Move(SetTurn(s, o, s.entries[o].turn.(active := true)), r, Holding(o))
    ensures Turns(t) && Channels(t)
  {
    var o := s.requests[r].place.obj;
    assert Holds(t, r, o);
    assert forall x: nat, y: nat :: Holds(t, x, y) <==> Holds(s, x, y) || (x == r && y == o);
  }

  // The state in which object `o`'s active turn has a wait channel.
  function WithChannel(s: State, o: ObjectId): State
    requires o < |s.entries|
  {
    var turn := s.entries[o].turn;
    SetTurn(s, o, turn.(wait := if turn.wait.None? then Some(s.channels) else turn.wait)).(channels := s.channels + 1)
  }

  function WithClosed(s: State, o: ObjectId): State
    requires o < |s.entries|
  {
    SetTurn(s, o, s.entries[o].turn.(closed := true))
  }

  // A wait channel is made for an object whose turn is active, unless it has one.
  lemma MakeChannelKeeps(s: State, o: ObjectId)
    requires Inv(s) && o < |s.entries| && s.entries[o].turn.active
    ensures Inv(WithChannel(s, o))
    ensures PlaceOk(WithChannel(s, o), Blocked(o, WithChannel(s, o).entries[o].turn.wait.value))
    ensures s.entries[o].turn.closed ==>
      PlaceOk(WithChannel(s, o), Draining(o, WithChannel(s, o).entries[o].turn.wait.value))
  {
    var t := WithChannel(s, o);
    RestFrame(s, t);
    CancelsFrame(s, t);
    MakeChannelKeepsTurns(s, o, t);
    forall x: nat | x < |t.requests| ensures PlaceOk(t, t.requests[x].place) { PlacesOk(s, x); }
    WaitersFrame(t);
  }

  lemma MakeChannelKeepsTurns(s: State, o: ObjectId, t: State)
    requires Inv(s) && o < |s.entries| && s.entries[o].turn.active && Grounded(t) && t == WithChannel(s, o)
    ensures Turns(t) && Channels(t)
  {
    assert forall x: nat, y: nat :: Holds(t, x, y) <==> Holds(s, x, y);
  }

  lemma SetClosedKeeps(s: State, o: ObjectId)
    requires Inv(s) && o < |s.entries|
    ensures Inv(WithClosed(s, o))
  {
    var t := WithClosed(s, o);
    RestFrame(s, t);
    CancelsFrame(s, t);
    SetClosedKeepsTurns(s, o, t);
    forall x: nat | x < |t.requests| ensures PlaceOk(t, t.requests[x].place) { PlacesOk(s, x); }
    WaitersFrame(t);
  }

  lemma SetClosedKeepsTurns(s: State, o: ObjectId, t: State)
    requires Inv(s) && o < |s.entries| && Grounded(t) && t == WithClosed(s, o)
    ensures Turns(t) && Channels(t)
  {
    assert forall x: nat, y: nat :: Holds(t, x, y) <==> Holds(s, x, y);
  }

  // The holder leaves; whoever waits on the object's channel is woken.
  lemma ReleaseKeeps(s: State, r: RequestId)
    requires Inv(s) && Enabled(s, Release(r))
    ensures Inv(DoRelease(s, r))
  {
    var t := DoRelease(s, r);
    ReleaseKeepsHistories(s, r, t);
    ReleaseKeepsCancels(s, r, t);
    ReleaseKeepsTurns(s, r, t);
    ReleaseWakes(s, r, t);
  }

  lemma ReleaseEffect(s: State, r: RequestId)
    requires Grounded(s) && Enabled(s, Release(r))
    ensures var t, o := DoRelease(s, r), s.requests[r].place.obj;
      && t == s.(entries := t.entries, requests := t.requests, closedChannels := t.closedChannels)
      && t.entries == s.entries[o := s.entries[o].(turn := LeaveTurn(s.entries[o].turn).0)]
      && t.requests == s.requests[r := s.requests[r].(place := Finished)]
      && Grounded(t)
      && (forall x: nat, y: nat :: Asking(t, x, y) <==> Asking(s, x, y))
      && (forall x: nat, y: nat :: Holds(t, x, y) <==> Holds(s, x, y) && x != r)
  {
  }

  lemma ReleaseKeepsHistories(s: State, r: RequestId, t: State)
    requires Inv(s) && Enabled(s, Release(r)) && t == DoRelease(s, r)
    ensures Grounded(t) && Tenancy(t) && Histories(t)
  {
    ReleaseEffect(s, r);
    RestFrame(s, t);
  }

  lemma ReleaseKeepsCancels(s: State, r: RequestId, t: State)
    requires Inv(s) && Enabled(s, Release(r)) && t == DoRelease(s, r)
    ensures Grounded(t) && Cancels(t)
  {
    ReleaseEffect(s, r);
    CancelsFrame(s, t);
  }

  lemma ReleaseKeepsTurns(s: State, r: RequestId, t: State)
    requires Inv(s) && Enabled(s, Release(r)) && t == DoRelease(s, r) && Grounded(t)
    ensures Turns(t) && Channels(t)
  {
    ReleaseEffect(s, r);
    assert Holds(s, r, s.requests[r].place.obj);
  }

  lemma ReleaseWakes(s: State, r: RequestId, t: State)
    requires Inv(s) && Enabled(s, Release(r)) && t == DoRelease(s, r) && Grounded(t)
    ensures Waiters(t)
  {
    var o := s.requests[r].place.obj;
    assert Holds(s, r, o);
    forall x: nat | x < |t.requests| ensures PlaceOk(t, t.requests[x].place) { PlacesOk(s, x); }
    WaitersFrame(t);
  }

  // Steps of a holder that stays a holder of the same object, and asks or answers nothing.
  lemma HolderMoves(s: State, r: RequestId, p: Place, t: State)
    requires Inv(s) && At(s, r) && HasTurn(s.requests[r].place) && HasTurn(p) && p.obj == s.requests[r].place.obj
    requires !s.requests[r].place.Asked? && !p.Asked?
    requires t == Move(s, r, p).(cancels := t.cancels)
    ensures Grounded(t) && Tenancy(t) && Turns(t) && Channels(t) && Waiters(t) && Histories(t)
  {
    RestFrame(s, t);
    TurnsFrame(s, t);
    forall x: nat | x < |t.requests| ensures PlaceOk(t, t.requests[x].place) { PlacesOk(s, x); }
    WaitersFrame(t);
  }

  // The holder of a turn registers itself: whoever was registered under that id held the same turn.
  lemma RegisterKeeps(s: State, r: RequestId)
    requires Inv(s) && Enabled(s, Register(r))
    ensures Inv(Apply(s, Register(r)))
  {
    HolderMoves(s, r, Registered(s.requests[r].place.obj), Apply(s, Register(r)));
  }

  // Whatever is registered under the id of a holder is that holder's own cancel function.
  lemma OwnCancel(s: State, r: RequestId)
    requires Inv(s) && At(s, r) && HasTurn(s.requests[r].place)
    ensures forall id :: id in s.cancels && s.cancels[id] == r ==> id == s.entries[s.requests[r].place.obj].id
    ensures var id := s.entries[s.requests[r].place.obj].id; id in s.cancels ==> s.cancels[id] == r
  {
    var o := s.requests[r].place.obj;
    assert Holds(s, r, o) && InRegistry(s, o);
    var id := s.entries[o].id;
    if id in s.cancels {
      var x := s.cancels[id];
      assert Holds(s, x, s.requests[x].place.obj) && InRegistry(s, s.requests[x].place.obj);
    }
  }

  lemma UnregisterKeeps(s: State, r: RequestId)
    requires Inv(s) && Enabled(s, Unregister(r))
    ensures Inv(Apply(s, Unregister(r)))
  {
    var t := Apply(s, Unregister(r));
    HolderMoves(s, r, Unregistered(s.requests[r].place.obj), t);
    OwnCancel(s, r);
    assert r !in t.cancels.Values;
    CancelsFrame(s, t);
  }

  // ----- questions and answers -----

  // A holder adds a message.
  lemma SpeakKeepsRest(s: State, r: RequestId, m: Message, p: Place, t: State)
    requires Inv(s) && At(s, r) && HasTurn(s.requests[r].place) && HasTurn(p) && p.obj == s.requests[r].place.obj
    requires MayBeStopped(s.requests[r]) ==> MayBeStopped(s.requests[r].(place := p))
    requires t == Move(Add(s, p.obj, m), r, p)
    ensures Grounded(t) && Tenancy(t) && Turns(t) && Channels(t) && Waiters(t) && Cancels(t)
  {
    SpeakKeepsTenancy(s, r, m, p, t);
    SpeakKeepsTurns(s, r, m, p, t);
    SpeakKeepsCancels(s, r, m, p, t);
  }

  lemma SpeakKeepsTenancy(s: State, r: RequestId, m: Message, p: Place, t: State)
    requires Grounded(s) && Tenancy(s)
    requires At(s, r) && HasTurn(s.requests[r].place) && HasTurn(p) && p.obj == s.requests[r].place.obj
    requires t == Move(Add(s, p.obj, m), r, p)
    ensures Grounded(t) && Tenancy(t)
  {
  }

  lemma SpeakKeepsTurns(s: State, r: RequestId, m: Message, p: Place, t: State)
    requires Inv(s) && At(s, r) && HasTurn(s.requests[r].place) && HasTurn(p) && p.obj == s.requests[r].place.obj
    requires t == Move(Add(s, p.obj, m), r, p) && Grounded(t)
    ensures Turns(t) && Channels(t) && Waiters(t)
  {
    TurnsFrame(s, t);
    forall x: nat | x < |t.requests| ensures PlaceOk(t, t.requests[x].place) { PlacesOk(s, x); }
    WaitersFrame(t);
  }

  lemma SpeakKeepsCancels(s: State, r: RequestId, m: Message, p: Place, t: State)
    requires Inv(s) && At(s, r) && HasTurn(s.requests[r].place) && HasTurn(p) && p.obj == s.requests[r].place.obj
    requires MayBeStopped(s.requests[r]) ==> MayBeStopped(s.requests[r].(place := p))
    requires t == Move(Add(s, p.obj, m), r, p) && Grounded(t)
    ensures Cancels(t)
  {
    CancelsFrame(s, t);
  }

  lemma SpokenLog(log: seq<Message>, m: Message, maxMessages: int)
    requires Alternates(log) && m.role == SpeakerAt(|log|)
    ensures Alternates(log + [m])
    ensures Trim(LastOf(log, Limit(maxMessages)) + [m], maxMessages) == LastOf(log + [m], Limit(maxMessages))
  {
    TrimKeepsLast(log, m, maxMessages);
  }

  // Only the holder could be asking.
  lemma AskerHolds(s: State, r: RequestId)
    requires Inv(s) && At(s, r) && HasTurn(s.requests[r].place)
    ensures var o := s.requests[r].place.obj;
      && (forall x: nat :: Asking(s, x, o) ==> x == r)
      && (|s.entries[o].log| % 2 == 1 <==> s.requests[r].place.Asked?)
  {
    var o := s.requests[r].place.obj;
    assert Holds(s, r, o);
    forall x: nat | Asking(s, x, o) ensures x == r { assert Holds(s, x, o); }
    if s.requests[r].place.Asked? {
      assert Asking(s, r, o);
    }
  }

  // Only one object's history and question changed.
  lemma HistoriesFrame(s: State, t: State, o: ObjectId)
    requires Histories(s) && o < |s.entries| == |t.entries| && t.maxMessages == s.maxMessages
    requires forall y :: 0 <= y < |s.entries| && y != o ==> t.entries[y] == s.entries[y]
    requires forall x: nat, y: nat :: y != o ==> (Asking(t, x, y) <==> Asking(s, x, y))
    requires Alternates(t.entries[o].log)
    requires t.entries[o].window == LastOf(t.entries[o].log, Limit(t.maxMessages))
    requires |t.entries[o].log| % 2 == 1 <==> exists x: nat :: Asking(t, x, o)
    ensures Histories(t)
  {
  }

  lemma AskKeeps(s: State, r: RequestId, text: string)
    requires Inv(s) && Enabled(s, Ask(r, text))
    ensures Inv(Apply(s, Ask(r, text)))
  {
    SpeakKeepsRest(s, r, Message(User, text), Asked(s.requests[r].place.obj), Apply(s, Ask(r, text)));
    AskerHolds(s, r);
    AskKeepsHistories(s, r, text);
  }

  lemma AskEffect(s: State, r: RequestId, text: string)
    requires Grounded(s) && Enabled(s, Ask(r, text))
    ensures var t, o := Apply(s, Ask(r, text)), s.requests[r].place.obj;
      && t.maxMessages == s.maxMessages && t.entries == Add(s, o, Message(User, text)).entries
      && (forall x: nat, y: nat :: Asking(t, x, y) <==> Asking(s, x, y) || (x == r && y == o))
  {
  }

  lemma AskKeepsHistories(s: State, r: RequestId, text: string)
    requires Grounded(s) && Histories(s) && Enabled(s, Ask(r, text))
    requires |s.entries[s.requests[r].place.obj].log| % 2 == 0
    ensures Histories(Apply(s, Ask(r, text)))
  {
    var o := s.requests[r].place.obj;
    AskEffect(s, r, text);
    SpokenLog(s.entries[o].log, Message(User, text), s.maxMessages);
    assert Asking(Apply(s, Ask(r, text)), r, o);
    HistoriesFrame(s, Apply(s, Ask(r, text)), o);
  }

  lemma AnswerKeeps(s: State, r: RequestId, text: string)
    requires Inv(s) && Enabled(s, Answer(r, text))
    ensures Inv(Apply(s, Answer(r, text)))
  {
    SpeakKeepsRest(s, r, Message(Assistant, text), Answered(s.requests[r].place.obj), Apply(s, Answer(r, text)));
    AskerHolds(s, r);
    AnswerKeepsHistories(s, r, text);
  }

  lemma AnswerEffect(s: State, r: RequestId, text: string)
    requires Grounded(s) && Enabled(s, Answer(r, text))
    ensures var t, o := Apply(s, Answer(r, text)), s.requests[r].place.obj;
      && t.maxMessages == s.maxMessages && t.entries == Add(s, o, Message(Assistant, text)).entries
      && (forall x: nat, y: nat :: Asking(t, x, y) <==> Asking(s, x, y) && x != r)
  {
  }

  lemma AnswerKeepsHistories(s: State, r: RequestId, text: string)
    requires Grounded(s) && Histories(s) && Enabled(s, Answer(r, text))
    requires |s.entries[s.requests[r].place.obj].log| % 2 == 1
    requires forall x: nat :: Asking(s, x, s.requests[r].place.obj) ==> x == r
    ensures Histories(Apply(s, Answer(r, text)))
  {
    var o := s.requests[r].place.obj;
    AnswerEffect(s, r, text);
    SpokenLog(s.entries[o].log, Message(Assistant, text), s.maxMessages);
    HistoriesFrame(s, Apply(s, Answer(r, text)), o);
  }

  // ----- closing and removing -----

  lemma ForgetRetired(s: State, o: ObjectId)
    requires Inv(s) && o < |s.entries| && Retired(s.entries[o]) && InRegistry(s, o)
    ensures Inv(s.(registry := s.registry - {s.entries[o].id}))
  {
    var t := s.(registry := s.registry - {s.entries[o].id});
    TurnsFrame(s, t);
    CancelsFrame(s, t);
    ForgetKeepsRest(s, o, t);
  }

  lemma ForgetKeepsRest(s: State, o: ObjectId, t: State)
    requires Grounded(s) && Tenancy(s) && Waiters(s) && Histories(s)
    requires o < |s.entries| && Retired(s.entries[o]) && InRegistry(s, o)
    requires t == s.(registry := s.registry - {s.entries[o].id}) && Grounded(t)
    ensures Tenancy(t) && Waiters(t) && Histories(t)
  {
    assert forall x: nat, y: nat :: Asking(t, x, y) <==> Asking(s, x, y);
  }

  lemma RemoveKeeps(s: State, r: RequestId)
    requires Inv(s) && Enabled(s, Remove(r))
    ensures Inv(Apply(s, Remove(r)))
  {
    var o := s.requests[r].place.obj;
    if InRegistry(s, o) {
      ForgetRetired(s, o);
      MoveQuietly(s.(registry := s.registry - {s.entries[o].id}), r, Finished);
    } else {
      MoveQuietly(s, r, Finished);
    }
  }

  lemma CloseInParts(s: State, r: RequestId)
    requires Grounded(s) && Enabled(s, Close(r))
    ensures var o := s.requests[r].place.obj;
      var closed := WithClosed(s, o);
      Apply(s, Close(r)) ==
        if s.entries[o].turn.active then
          var waiting := WithChannel(closed, o);
          Move(waiting, r, Draining(o, waiting.entries[o].turn.wait.value))
        else Move(closed, r, Closed(o))
  {
    var o := s.requests[r].place.obj;
    assert WithChannel(WithClosed(s, o), o).entries == SetTurn(s, o, CloseTurn(s.entries[o].turn, s.channels).0).entries
      || !s.entries[o].turn.active;
  }

  lemma CloseKeeps(s: State, r: RequestId)
    requires Inv(s) && Enabled(s, Close(r))
    ensures Inv(Apply(s, Close(r)))
  {
    var o := s.requests[r].place.obj;
    var closed := WithClosed(s, o);
    SetClosedKeeps(s, o);
    CloseInParts(s, r);
    if s.entries[o].turn.active {
      DrainKeeps(closed, r);
    } else {
      MoveQuietly(closed, r, Closed(o));
    }
  }

  // A request goes to wait on a channel that now exists.
  lemma WaitKeeps(s: State, r: RequestId, p: Place)
    requires Inv(s) && At(s, r) && !HasTurn(s.requests[r].place) && Waits(p)
    requires p.obj < |s.entries| && s.entries[p.obj].turn.active && (p.Draining? ==> s.entries[p.obj].turn.closed)
    requires WithChannel(s, p.obj).entries[p.obj].turn.wait == Some(p.channel)
    ensures Inv(Move(WithChannel(s, p.obj), r, p))
  {
    MakeChannelKeeps(s, p.obj);
    MoveQuietly(WithChannel(s, p.obj), r, p);
  }

  lemma DrainKeeps(s: State, r: RequestId)
    requires Inv(s) && Enabled(s, Close(r))
    requires var turn := s.entries[s.requests[r].place.obj].turn; turn.active && turn.closed
    ensures var o := s.requests[r].place.obj;
      var waiting := WithChannel(s, o);
      Inv(Move(waiting, r, Draining(o, waiting.entries[o].turn.wait.value)))
  {
    var o := s.requests[r].place.obj;
    WaitKeeps(s, r, Draining(o, WithChannel(s, o).entries[o].turn.wait.value));
  }

  lemma BlockKeeps(s: State, r: RequestId)
    requires Inv(s) && Enabled(s, Acquire(r))
    requires var turn := s.entries[s.requests[r].place.obj].turn; turn.active && !turn.closed
    ensures Inv(Apply(s, Acquire(r)))
  {
    var o := s.requests[r].place.obj;
    WaitKeeps(s, r, Blocked(o, WithChannel(s, o).entries[o].turn.wait.value));
  }

  lemma RefusedKeeps(s: State, r: RequestId)
    requires Inv(s) && Enabled(s, Acquire(r)) && s.entries[s.requests[r].place.obj].turn.closed
    ensures Inv(Apply(s, Acquire(r)))
  {
    var o := s.requests[r].place.obj;
    assert SetTurn(s, o, s.entries[o].turn) == s;
    MoveQuietly(s, r, Finished);
  }

  // ----- arriving and resolving -----

  lemma ResolveKeeps(s: State, step: Step)
    requires Inv(s) && Enabled(s, step) && (step.Resolve? || step.ResolveNew? || step.Create?)
    ensures Inv(Apply(s, step))
  {
    var r := step.r;
    if step.ResolveNew? {
      AddEntryKeeps(s, step.generated);
      MoveQuietly(AddEntry(s, step.generated), r, Acquiring(|s.entries|));
    } else {
      var id := s.requests[r].place.id;
      if id in s.registry {
        MoveQuietly(s, r, Acquiring(s.registry[id]));
      } else if step.Create? {
        AddEntryKeeps(s, id);
        MoveQuietly(AddEntry(s, id), r, Acquiring(|s.entries|));
      } else {
        MoveQuietly(s, r, Creating(id));
      }
    }
  }

  lemma WaiterKeeps(s: State, step: Step)
    requires Inv(s) && Enabled(s, step) && (step.GiveUp? || step.Wake?)
    ensures Inv(Apply(s, step))
  {
    var r := step.r;
    var p := s.requests[r].place;
    PlacesOk(s, r);
    if step.Wake? {
      MoveQuietly(s, r, if p.Blocked? then Acquiring(p.obj) else Closed(p.obj));
    } else {
      MoveQuietly(s, r, Finished);
      if p.Draining? {
        AddRequest(Move(s, r, Finished), Request(Closing(p.obj), false, true, false));
      }
    }
  }

  lemma CancelForDeleteKeeps(s: State, r: RequestId)
    requires Inv(s) && Enabled(s, CancelForDelete(r))
    ensures Inv(Apply(s, CancelForDelete(r)))
  {
    var id := s.requests[r].place.id;
    CancelIdKeeps(s, id);
    MoveQuietly(CancelId(s, id), r, LookingUp(id));
  }

  lemma LookUpKeeps(s: State, r: RequestId)
    requires Inv(s) && Enabled(s, LookUp(r))
    ensures Inv(Apply(s, LookUp(r)))
  {
    var id := s.requests[r].place.id;
    MoveQuietly(s, r, if id in s.registry then Closing(s.registry[id]) else Finished);
  }

  lemma AcquireStepKeeps(s: State, r: RequestId)
    requires Inv(s) && Enabled(s, Acquire(r))
    ensures Inv(Apply(s, Acquire(r)))
  {
    var turn := s.entries[s.requests[r].place.obj].turn;
    if turn.closed {
      RefusedKeeps(s, r);
    } else if turn.active {
      BlockKeeps(s, r);
    } else {
      AcquireKeeps(s, r);
    }
  }

  /** Every atomic step of every request keeps the invariant. */
  lemma StepKeeps(s: State, step: Step)
    requires Inv(s) && Enabled(s, step)
    ensures Inv(Apply(s, step))
  {
    match step
    case ArriveChat(id, http) => AddRequest(s, Request(Resolving(id), http, false, false));
    case ArriveDelete(id) => AddRequest(s, Request(Cancelling(id), true, false, false));
    case Disconnect(r) => SetCancelled(s, r);
    case Resolve(r) => ResolveKeeps(s, step);
    case ResolveNew(r, _) => ResolveKeeps(s, step);
    case Create(r) => ResolveKeeps(s, step);
    case Acquire(r) => AcquireStepKeeps(s, r);
    case GiveUp(r) => WaiterKeeps(s, step);
    case Wake(r) => WaiterKeeps(s, step);
    case Register(r) => RegisterKeeps(s, r);
    case Ask(r, text) => AskKeeps(s, r, text);
    case Answer(r, text) => AnswerKeeps(s, r, text);
    case Unregister(r) => UnregisterKeeps(s, r);
    case Release(r) => ReleaseKeeps(s, r);
    case Stop(id) => CancelIdKeeps(s, id);
    case CancelForDelete(r) => CancelForDeleteKeeps(s, r);
    case LookUp(r) => LookUpKeeps(s, r);
    case Close(r) => CloseKeeps(s, r);
    case Remove(r) => RemoveKeeps(s, r);
  }

  // ----- what the steps do -----

  /** A free session is acquired at once; a closed one refuses; a busy one makes the request wait for a channel
      that its turn will close. */
  lemma AcquireDoes(s: State, r: RequestId)
    requires Inv(s) && Enabled(s, Acquire(r))
    ensures var o, t := s.requests[r].place.obj, Apply(s, Acquire(r));
      var was, now := s.entries[o].turn, t.entries[o].turn;
      && (!was.closed && !was.active ==> t.requests[r].place == Holding(o) && now == Turn(true, false, was.wait))
      && (was.closed ==> t.requests[r].place == Finished && now == was)
      && (!was.closed && was.active ==>
        now.active && !now.closed && now.wait.Some? && t.requests[r].place == Blocked(o, now.wait.value))
      && (forall x :: 0 <= x < |s.entries| && x != o ==> t.entries[x] == s.entries[x])
  {
  }

  /** Releasing frees the turn, keeps the object open or closed, and lets everyone that waits for it wake. */
  lemma ReleaseDoes(s: State, r: RequestId, w: RequestId)
    requires Inv(s) && Enabled(s, Release(r)) && At(s, w)
    ensures var o, t := s.requests[r].place.obj, Apply(s, Release(r));
      && t.requests[r].place == Finished
      && t.entries[o].turn == Turn(false, s.entries[o].turn.closed, None)
      && (Waits(s.requests[w].place) && s.requests[w].place.obj == o ==> Enabled(t, Wake(w)))
  {
    hide Tenancy, Histories, Cancels;
  }

  /** Closing is final, returns at once when no turn is active, and waits for the active one otherwise. */
  lemma CloseDoes(s: State, r: RequestId)
    requires Inv(s) && Enabled(s, Close(r))
    ensures var o, t := s.requests[r].place.obj, Apply(s, Close(r));
      var was, now := s.entries[o].turn, t.entries[o].turn;
      && now.closed && now.active == was.active
      && (!was.active ==> t.requests[r].place == Closed(o))
      && (was.active ==> now.wait.Some? && t.requests[r].place == Draining(o, now.wait.value))
  {
  }

  /** A woken chat tries again; a woken delete has its session closed and drained. A cancelled chat is over; a
      cancelled delete leaves a detached one behind that closes the same object and that nothing cancels. */
  lemma WaitersDo(s: State, r: RequestId)
    requires Inv(s) && At(s, r) && Waits(s.requests[r].place)
    ensures var o, blocked := s.requests[r].place.obj, s.requests[r].place.Blocked?;
      && (Enabled(s, Wake(r)) ==> Apply(s, Wake(r)).requests[r].place == if blocked then Acquiring(o) else Closed(o))
      && (Enabled(s, GiveUp(r)) ==>
        var t := Apply(s, GiveUp(r));
        && t.requests[r].place == Finished
        && (if blocked then |t.requests| == |s.requests|
            else
              && |t.requests| == |s.requests| + 1
              && t.requests[|s.requests|] == Request(Closing(o), false, true, false)))
  {
  }

  /** A request over HTTP is known under its session's id from registering to unregistering. */
  lemma RegistrationDoes(s: State, r: RequestId)
    requires Inv(s) && At(s, r)
    ensures Enabled(s, Register(r)) ==>
      var o, t := s.requests[r].place.obj, Apply(s, Register(r));
      t.requests[r].place == Registered(o) && s.entries[o].id in t.cancels && t.cancels[s.entries[o].id] == r
    ensures Enabled(s, Unregister(r)) ==>
      var o, t := s.requests[r].place.obj, Apply(s, Unregister(r));
      t.requests[r].place == Unregistered(o) && s.entries[o].id !in t.cancels
  {
  }

  /** A stop cancels the request that is registered, the holder of that id's turn, and no other, and forgets it;
      so does a delete, which goes on to look the session up. */
  lemma StopDoes(s: State, id: SessionId, r: RequestId)
    requires Inv(s) && id in s.cancels && s.cancels[id] == r
    ensures var t := Apply(s, Stop(id));
      && At(s, r) && HasTurn(s.requests[r].place) && s.entries[s.requests[r].place.obj].id == id
      && t.requests[r].cancelled && id !in t.cancels
      && (forall x :: 0 <= x < |s.requests| && x != r ==> t.requests[x] == s.requests[x])
      && (forall other :: other in s.cancels && other != id ==>
        other in t.cancels && t.cancels[other] == s.cancels[other])
  {
  }

  lemma DeleteStops(s: State, d: RequestId)
    requires Inv(s) && Enabled(s, CancelForDelete(d))
    ensures var id, t := s.requests[d].place.id, Apply(s, CancelForDelete(d));
      && t.requests[d].place == LookingUp(id) && id !in t.cancels
      && (id in s.cancels ==> t.requests[s.cancels[id]].cancelled)
  {
  }

  /** A known id leads to its object; an unknown one is looked up again under the lock and gets a fresh object that
      is open and free. */
  lemma ResolutionDoes(s: State, r: RequestId, generated: SessionId)
    requires Inv(s) && At(s, r)
    ensures Enabled(s, Resolve(r)) ==>
      var id := s.requests[r].place.id;
      Apply(s, Resolve(r)).requests[r].place == if id in s.registry then Acquiring(s.registry[id]) else Creating(id)
    ensures Enabled(s, Create(r)) ==> Opens(s, Apply(s, Create(r)), r, s.requests[r].place.id)
    ensures Enabled(s, ResolveNew(r, generated)) ==> Opens(s, Apply(s, ResolveNew(r, generated)), r, generated)
  {
  }

  /** Deleting goes for a registered object only ... */
  lemma LookUpDoes(s: State, r: RequestId)
    requires Grounded(s) && Enabled(s, LookUp(r))
    ensures var id := s.requests[r].place.id;
      Apply(s, LookUp(r)).requests[r].place == if id in s.registry then Closing(s.registry[id]) else Finished
  {
  }

  /** ... and removes its id if that still leads to the object that was closed. */
  lemma RemoveDoes(s: State, r: RequestId)
    requires Grounded(s) && Enabled(s, Remove(r))
    ensures var o, t := s.requests[r].place.obj, Apply(s, Remove(r));
      var id := s.entries[o].id;
      && t.requests[r].place == Finished
      && t.registry == if id in s.registry && s.registry[id] == o then s.registry - {id} else s.registry
  {
  }

  // The request goes for the object registered under `id`, which is a fresh one if there was none.
  ghost predicate Opens(s: State, t: State, r: RequestId, id: SessionId)
    requires At(t, r)
  {
    && id in t.registry && t.requests[r].place == Acquiring(t.registry[id])
    && (id in s.registry ==> t.registry == s.registry && t.entries == s.entries)
    && (id !in s.registry ==>
      && t.registry == s.registry[id := |s.entries|]
      && t.entries == s.entries + [Entry(id, Turn(false, false, None), [], [])])
  }

  /** A turn says one thing as the user and one as the assistant. */
  lemma HistoryDoes(s: State, r: RequestId, text: string)
    requires Inv(s) && At(s, r)
    ensures Enabled(s, Ask(r, text)) ==>
      var o, t := s.requests[r].place.obj, Apply(s, Ask(r, text));
      t.requests[r].place == Asked(o) && t.entries[o].log == s.entries[o].log + [Message(User, text)]
    ensures Enabled(s, Answer(r, text)) ==>
      var o, t := s.requests[r].place.obj, Apply(s, Answer(r, text));
      t.requests[r].place == Answered(o) && t.entries[o].log == s.entries[o].log + [Message(Assistant, text)]
  {
  }

  // ----- whole runs -----

  ghost predicate StepOf(s: State, step: Step, t: State) {
    Grounded(s) && Enabled(s, step) && t == Apply(s, step)
  }

  /** `states` is what a server passes through, from its start, by atomic steps in any order. */
  ghost predicate Run(states: seq<State>, steps: seq<Step>) {
    && |states| == |steps| + 1
    && states[0] == Initial(states[0].maxMessages)
    && (forall i :: 0 <= i < |steps| ==> StepOf(states[i], steps[i], states[i + 1]))
  }

  lemma {:induction false} RunKeeps(states: seq<State>, steps: seq<Step>, i: nat)
    requires Run(states, steps) && i < |states|
    ensures Inv(states[i])
  {
    if i == 0 {
      InitialInv(states[0].maxMessages);
    } else {
      RunKeeps(states, steps, i - 1);
      assert StepOf(states[i - 1], steps[i - 1], states[i]);
      StepKeeps(states[i - 1], steps[i - 1]);
    }
  }

  ghost predicate HoldsTurnOf(s: State, r: RequestId, id: SessionId)
    requires Grounded(s)
  {
    r < |s.requests| && HasTurn(s.requests[r].place) && s.entries[s.requests[r].place.obj].id == id
  }

  /** At most one request holds a turn of a session id, however often that id was deleted and made
      anew; and the object it holds is the one the registry names. */
  lemma OneTurnPerSession(states: seq<State>, steps: seq<Step>, i: nat, id: SessionId, r1: RequestId, r2: RequestId)
    requires Run(states, steps) && i < |states|
    ensures Grounded(states[i])
    ensures HoldsTurnOf(states[i], r1, id) ==>
      id in states[i].registry && states[i].registry[id] == states[i].requests[r1].place.obj
    ensures HoldsTurnOf(states[i], r1, id) && HoldsTurnOf(states[i], r2, id) ==> r1 == r2
  {
    RunKeeps(states, steps, i);
    var s := states[i];
    if HoldsTurnOf(s, r1, id) {
      assert Holds(s, r1, s.requests[r1].place.obj) && InRegistry(s, s.requests[r1].place.obj);
      if HoldsTurnOf(s, r2, id) {
        assert Holds(s, r2, s.requests[r2].place.obj) && InRegistry(s, s.requests[r2].place.obj);
      }
    }
  }

  // Only these steps touch a turn.
  predicate TouchesTurn(step: Step) {
    step.Acquire? || step.Release? || step.Close?
  }

  lemma QuietSteps(s: State, step: Step)
    requires Grounded(s) && Enabled(s, step) && !TouchesTurn(step)
    ensures |Apply(s, step).entries| >= |s.entries|
    ensures forall o :: 0 <= o < |s.entries| ==> Apply(s, step).entries[o].turn == s.entries[o].turn
  {
    if step.CancelForDelete? || step.Stop? || step.GiveUp? || step.Wake? {
      assert Apply(s, step).entries == s.entries;
    }
  }

  // A retired object stays retired under every step.
  lemma RetiredStays(s: State, step: Step, o: ObjectId)
    requires Grounded(s) && Enabled(s, step) && o < |s.entries| && Retired(s.entries[o])
    ensures o < |Apply(s, step).entries| && Retired(Apply(s, step).entries[o])
  {
    if !TouchesTurn(step) {
      QuietSteps(s, step);
    } else if step.Acquire? {
      assert DoAcquire(s, step.r).entries[o].turn == s.entries[o].turn;
    }
  }

  lemma {:induction false} RetiredForever(states: seq<State>, steps: seq<Step>, i: nat, j: nat, o: ObjectId)
    requires Run(states, steps) && i <= j < |states|
    requires o < |states[i].entries| && Retired(states[i].entries[o])
    ensures o < |states[j].entries| && Retired(states[j].entries[o])
  {
    if i < j {
      RetiredForever(states, steps, i, j - 1, o);
      assert StepOf(states[j - 1], steps[j - 1], states[j]);
      RetiredStays(states[j - 1], steps[j - 1], o);
    }
  }

  lemma ClosedIsRetired(s: State, r: RequestId)
    requires Inv(s) && At(s, r) && s.requests[r].place.Closed?
    ensures s.requests[r].place.obj < |s.entries| && Retired(s.entries[s.requests[r].place.obj])
  {
  }

  lemma RetiredUnheld(s: State, r: RequestId, o: ObjectId)
    requires Inv(s) && o < |s.entries| && Retired(s.entries[o])
    ensures !Holds(s, r, o)
  {
  }

  /** Once Close has returned true for an object, no request ever holds its turn again. */
  lemma ClosedForever(states: seq<State>, steps: seq<Step>, i: nat, j: nat, closer: RequestId, r: RequestId)
    requires Run(states, steps) && i <= j < |states|
    requires At(states[i], closer) && states[i].requests[closer].place.Closed?
    ensures !Holds(states[j], r, states[i].requests[closer].place.obj)
  {
    RunKeeps(states, steps, i);
    ClosedIsRetired(states[i], closer);
    var o := states[i].requests[closer].place.obj;
    RetiredForever(states, steps, i, j, o);
    RunKeeps(states, steps, j);
    RetiredUnheld(states[j], r, o);
  }

  // The holder of `o`'s turn, whose release closes `channel`.
  ghost predicate WillWake(s: State, h: RequestId, o: ObjectId, channel: Channel)
    requires Grounded(s)
  {
    Holds(s, h, o) && channel in DoRelease(s, h).closedChannels
  }

  lemma WaiterWillWake(s: State, r: RequestId)
    requires Inv(s) && At(s, r) && Waits(s.requests[r].place) && !Enabled(s, Wake(r))
    ensures exists h: nat :: WillWake(s, h, s.requests[r].place.obj, s.requests[r].place.channel)
  {
    PlacesOk(s, r);
    var p := s.requests[r].place;
    var h: nat :| Holds(s, h, p.obj);
    assert WillWake(s, h, p.obj, p.channel);
  }

  /** No wakeup is lost: a waiter either can wake now, or some request holds the turn it waits for and
      that request's release closes the very channel it waits on. */
  lemma NoLostWakeup(states: seq<State>, steps: seq<Step>, i: nat, r: RequestId)
    requires Run(states, steps) && i < |states|
    requires At(states[i], r) && Waits(states[i].requests[r].place)
    ensures Grounded(states[i])
    ensures Enabled(states[i], Wake(r)) || exists h: nat ::
      WillWake(states[i], h, states[i].requests[r].place.obj, states[i].requests[r].place.channel)
  {
    RunKeeps(states, steps, i);
    if !Enabled(states[i], Wake(r)) {
      WaiterWillWake(states[i], r);
    }
  }

  // What a request that need not wait does next.
  function NextStep(s: State, r: RequestId): Step
    requires At(s, r)
  {
    var q := s.requests[r];
    match q.place
    case Resolving(id) => Resolve(r)
    case Creating(_) => Create(r)
    case Acquiring(_) => Acquire(r)
    case Blocked(_, _) => Wake(r)
    case Holding(_) => if q.http then Register(r) else Ask(r, "")
    case Registered(_) => Ask(r, "")
    case Asked(_) => Answer(r, "")
    case Answered(_) => if q.http then Unregister(r) else Release(r)
    case Unregistered(_) => Release(r)
    case Cancelling(_) => CancelForDelete(r)
    case LookingUp(_) => LookUp(r)
    case Closing(_) => Close(r)
    case Draining(_, _) => Wake(r)
    case Closed(_) => Remove(r)
    case Finished => Release(r)
  }

  lemma CanStep(s: State, r: RequestId)
    requires At(s, r) && !s.requests[r].place.Finished? && s.requests[r].place != Resolving("")
    requires !Waits(s.requests[r].place)
    ensures Enabled(s, NextStep(s, r))
  {
  }

  /** No deadlock: while a request is unfinished, it or the holder of the turn it waits for can step.
      A chat without an id steps by drawing one that is not in use. */
  lemma SomeoneSteps(states: seq<State>, steps: seq<Step>, i: nat, r: RequestId)
    requires Run(states, steps) && i < |states|
    requires At(states[i], r) && !states[i].requests[r].place.Finished?
    requires states[i].requests[r].place != Resolving("")
    ensures exists h: nat ::
        && At(states[i], h) && Enabled(states[i], NextStep(states[i], h))
        && (h == r || (Waits(states[i].requests[r].place) && Holds(states[i], h, states[i].requests[r].place.obj)))
  {
    if !Waits(states[i].requests[r].place) {
      CanStep(states[i], r);
    } else if !Enabled(states[i], Wake(r)) {
      NoLostWakeup(states, steps, i, r);
      var h: nat :|
        WillWake(states[i], h, states[i].requests[r].place.obj, states[i].requests[r].place.channel);
      CanStep(states[i], h);
    }
  }

  /** A cancel function in the registry is that of the request that holds that id's turn, so a stop or
      a delete cancels no waiter and no other session's request. */
  lemma CancelHitsHolder(states: seq<State>, steps: seq<Step>, i: nat, id: SessionId, r: RequestId)
    requires Run(states, steps) && i < |states| && r < |states[i].requests|
    ensures Grounded(states[i])
    ensures id in states[i].cancels ==> HoldsTurnOf(states[i], states[i].cancels[id], id)
    ensures CancelId(states[i], id).requests[r].cancelled && !states[i].requests[r].cancelled ==>
      HoldsTurnOf(states[i], r, id)
  {
    RunKeeps(states, steps, i);
  }

  /** A request that finishes takes at most its own cancel function out of the registry, and one that
      starts replaces nobody's. */
  lemma OnlyOwnCancel(states: seq<State>, steps: seq<Step>, i: nat)
    requires Run(states, steps) && i < |steps|
    requires steps[i].Unregister? || steps[i].Register?
    ensures forall id :: id in states[i].cancels && states[i].cancels[id] != steps[i].r ==>
      id in states[i + 1].cancels && states[i + 1].cancels[id] == states[i].cancels[id]
    ensures steps[i].r in states[i + 1].cancels.Values ==> steps[i].Register?
  {
    RunKeeps(states, steps, i);
    assert StepOf(states[i], steps[i], states[i + 1]);
    OwnCancel(states[i], steps[i].r);
  }

  ghost predicate TurnRuns(s: State, o: ObjectId) {
    exists r: nat :: Holds(s, r, o)
  }

  // How the tail of an alternating history reads.
  lemma TailSpeaker(log: seq<Message>, n: nat, k: nat)
    requires Alternates(log) && k < |LastOf(log, n)|
    ensures LastOf(log, n)[k].role == SpeakerAt(|log| - |LastOf(log, n)| + k)
  {
    assert LastOf(log, n)[k] == log[|log| - |LastOf(log, n)| + k];
  }

  lemma TailAlternates(log: seq<Message>, n: nat)
    requires Alternates(log)
    ensures var tail := LastOf(log, n);
      && (forall k :: 0 <= k < |tail| ==> tail[k].role == User || tail[k].role == Assistant)
      && (forall j, k :: 0 <= j < k < |tail| && k == j + 1 ==> tail[j].role != tail[k].role)
      && (tail != [] && |log| % 2 == 0 ==> tail[|tail| - 1].role == Assistant)
  {
    var tail := LastOf(log, n);
    forall k | 0 <= k < |tail| ensures tail[k].role == User || tail[k].role == Assistant {
      TailSpeaker(log, n, k);
    }
    forall j, k | 0 <= j < k < |tail| && k == j + 1 ensures tail[j].role != tail[k].role {
      TailSpeaker(log, n, j);
      TailSpeaker(log, n, k);
    }
    if tail != [] {
      TailSpeaker(log, n, |tail| - 1);
    }
  }

  /** A history alternates between user and assistant, is the tail of everything said that fits, and
      ends with the assistant whenever no turn of its session runs. */
  lemma HistoryAlternates(states: seq<State>, steps: seq<Step>, i: nat, o: ObjectId)
    requires Run(states, steps) && i < |states| && o < |states[i].entries|
    ensures var e := states[i].entries[o];
      && e.window == LastOf(e.log, Limit(states[0].maxMessages))
      && (forall k :: 0 <= k < |e.window| ==> e.window[k].role == User || e.window[k].role == Assistant)
      && (forall j, k :: 0 <= j < k < |e.window| && k == j + 1 ==> e.window[j].role != e.window[k].role)
      && (e.window != [] && !TurnRuns(states[i], o) ==> e.window[|e.window| - 1].role == Assistant)
  {
    RunKeeps(states, steps, i);
    RunMaxMessages(states, steps, i);
    TailAlternates(states[i].entries[o].log, Limit(states[0].maxMessages));
    if |states[i].entries[o].log| % 2 == 1 {
      var r: nat :| Asking(states[i], r, o);
      assert Holds(states[i], r, o);
    }
  }

  lemma {:induction false} RunMaxMessages(states: seq<State>, steps: seq<Step>, i: nat)
    requires Run(states, steps) && i < |states|
    ensures states[i].maxMessages == states[0].maxMessages
  {
    if i > 0 {
      RunMaxMessages(states, steps, i - 1);
      assert StepOf(states[i - 1], steps[i - 1], states[i]);
    }
  }
}
