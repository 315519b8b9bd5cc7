# NetApp chat service: a model and its proofs

A chat service written in Go with a client written in TypeScript. An agent loop sends a conversation to a
language model, runs the tools the model asks for and streams the answer as server-sent events. Canvas
fences in that answer are cut out of the stream and become structured views. Sessions take turns under
locks; the tools offered to the model have to fit a budget and may be loaded group by group; the client
decodes the stream and keeps a queue of one for actions submitted meanwhile.

This project models the parts of the service whose correctness is not visible from reading one function
and proves what they promise:

- `Strings`, `JsonTree`, `AgentEvents`: text as Go and JavaScript see it, JSON trees, the events of a run.
- `CanvasFence`: the interceptor for canvas fences. However a stream is cut into tokens, the same prose and
  the same fence bodies come out.
- `CanvasPanel`, `CanvasPayload`, `CanvasContent`: validation and defaulting of canvas payloads. A payload is
  accepted exactly when its normal form meets a schema stated without the validators.
- `TerminalRender`: renderer metadata embedded in a fence, and the parser that validates and strips it.
- `SessionObject`, `SessionProtocol`: the turn of one session object, and chat, delete and stop requests of any
  number interleaved at every lock, channel and registry operation.
- `GreedyExclusion`, `ToolBudget`: which servers are left out when the tools do not all fit.
- `Router`, `Routing`, `RoutingMenu`: the merged index of tools, the filter of a request, the count a user sees
  and the menu a model loads from.
- `EventChannel`, `AgentLoop`, `TurnHistory`: one run of the agent, for any provider and any tools; what the host
  hears of it; and what it leaves in the history.
- `SseCodec`: the event stream as the server writes it and the client reads it, the subset of sections 9.2.5
  and 9.2.6 of the WHATWG HTML Living Standard that both sides use.
- `ClientQueue`: requests guarded by an epoch and a queue guarded by a generation, in any order of events.
- `JsonScanner`, `SelectReconcile`, `Downsample`: the small algorithms of the client.

Code that only computes is modelled by functions. Code that changes variables, fields or arrays is modelled by
methods and classes, each proved against a function or a predicate; the main results are lemmas about those.
What those functions themselves decide is stated apart from them, over fields, literal names and literal limits, in the
lemmas called `...Does` and `...Meaning`.

## Findings

- `ParseTerminalRenderResult` slices out of range exactly when the trimmed result is a fence prefix directly
  followed by a closing fence, so that opening and closing share their line break (`TerminalRender.ParseReturns`).
  Embedding panics for the same reason, and when the fenced text is the JSON `null`
  (`TerminalRender.EmbedReturns`).
- In `HandleToken`, the branch for a closing found only as a suffix (agent/canvas.go, lines 53-57) cannot be
  reached: a suffix is an occurrence (`CanvasFence.SuffixIsFound`).
- The interceptor compares a fence with what fences opened, not with what the tab shows. A fence whose payload a tool
  has just opened under the same tab opens it again (`EventChannel.FenceRepeatsTool`), and a fence repeated after a tool
  has replaced its payload is swallowed (`EventChannel.FenceSwallowed`). `EventChannel.FenceOpens` says exactly when;
  both need a tool that opened the tab since a fence did.
- When bytes bind and a server with many tools is light, it can be excluded although it would fit at the end
  (`ToolBudget.SmallServerExample`). It then has more tools and fewer bytes than the server excluded last
  (`ToolBudget.OnlyLighterFits`); so it cannot happen when the bytes fit from the start, or when servers with more tools
  take no fewer bytes (`ToolBudget.ReadmittingBreaks`).
- With routing, the budget a user is shown ignores the groups that are always on, so it can be smaller than the number of
  tools of a request (`RoutingMenu.AlwaysOnExample`): exactly when a tool is counted for a capability that is always on
  and another tool for another capability (`RoutingMenu.ReportedBudget`).
- The names in a request are distinct exactly when those of the internal tools' definitions are
  (`Routing.RequestNames`); two internal tools registered under different keys may share one
  (`Routing.SharedNameExample`).
- A failed reconnect leaves the tool index as it was; every indexed tool has a live server exactly when none belongs
  to a server dropped like that since the index was last rebuilt (`Router.StaleAfterFailures`, `Router.StaleExample`).
- `missingRequiredTool` reports "nothing missing" as the empty name, so a tool required under the empty name is
  never demanded (`AgentLoop.EmptyNameStands`). An answer leaves nothing owed exactly when that tool is not, for which it
  is enough that it requires no interest (`AgentLoop.AnswerComplete`).
- Tool calls of a stream that broke off are kept when the request is tried again (`AgentLoop.AgentRun.AskProvider`).
- A dispatched action can be refused and lost: exactly when a request claimed the slot between the commit that left
  the effect and the run of the effect, and is still current (`ClientQueue.DispatchMeetsSlot`). It takes a callback
  between an invalidation and an effect from before it (`ClientQueue.DispatchObtainsSlot`), as when one handler stops,
  sends and submits (`ClientQueue.LateEffectMissesSlot`). The late effect can also lower the flag of an action that
  has just started, and by that lets a request in before the next one (`ClientQueue.LoweredFlagMissesSlot`).
- An action can run although the request it waited behind ended cleanly without `done` (`ClientQueue.RunsWithoutDone`):
  exactly when a later request of the epoch was the last to end and did not end like that
  (`ClientQueue.LastEndDecides`).

## Model

| member | source | states |
|---|---|---|
| CanvasFence.CanvasPartialMatch | agent/canvas.go:503-536 | text is held back exactly when it ends in at least four characters of an opening, or in one to three backticks that begin the text or a line |
| CanvasFence.Interceptor.HandleToken | agent/canvas.go:44-124 | buffer, inside flag and everything emitted after one token are what the scanner function makes of the buffer and the token |
| CanvasFence.Interceptor.LookForClosing | agent/canvas.go:48-78 | inside a fence: the body up to the closing is emitted trimmed and the rest is scanned on, or all is kept |
| CanvasFence.Interceptor.LookForOpening | agent/canvas.go:80-123 | outside: the first kind in list order that occurs opens a fence; otherwise the text is held or let through |
| CanvasFence.Interceptor.Flush | agent/canvas.go:127-154 | held prose comes out, an unfinished fence is dropped, and the interceptor is back outside with an empty buffer |
| CanvasFence.Interceptor.EmitCanvasEvent | agent/canvas.go:159-198 | a rejected payload and the exact repetition of a tab's last payload are silent; any other is remembered and emitted once |
| CanvasFence.Stream | agent/canvas.go:44-154 | a streamed answer with its final flush emits what the scanner function yields for the list of tokens |
| CanvasFence.Settled | agent/canvas.go:44-124 | from any buffer nothing in which can be acted on, the rest of the stream delivers exactly the prose and bodies still due |
| CanvasFence.ChunkInvariance | agent/canvas.go:44-154 | for a stream of prose and fences of one kind, opened at line starts with bodies that hold no closing, every cut into tokens yields the same prose, up to line breaks right after a fence, and the same bodies in the same places; no text of a fence leaks |
| CanvasFence.PassThrough | agent/canvas.go:80-123 | a stream without canvas openings passes through unchanged, however it is cut |
| CanvasFence.SameCanvases | agent/canvas.go:44-198 | two cuts of the same stream open the same canvases with the same payloads in the same order |
| CanvasFence.NeverRepeats | agent/canvas.go:159-198 | of the canvases that fences open, none repeats the payload a fence last opened its tab with, and the memory of payloads is exactly what fences opened last |
| CanvasFence.EmittedFrom | agent/canvas.go:159-198 | every canvas that is opened comes from a fence whose payload is accepted, with the title, kind, qualifier and content of its normal form under the tab kind::title::qualifier, not interactive and without a hand-off; every text that is let through is prose of the stream |
| CanvasFence.SuffixIsFound | agent/canvas.go:50-57 | a closing at the end of the buffer has been found already, so the branch that looks for it there never finds one |
| CanvasFence.DrainsOneFence | agent/canvas.go:44-124 | a dashboard fence with an empty object is let through as one fence and nothing else |
| EventChannel.FenceRepeatsOnlyTools | agent/agent.go:447-483 | over a whole run, a fence opens a tab with the payload it already shows only when a tool opened that tab since a fence last did; the memory of payloads is that of the fences alone |
| EventChannel.FenceRepeatsTool | agent/agent.go:470-478 | it does happen: a fence repeats the payload that a tool has just opened under the same tab |
| EventChannel.FenceOpens | agent/canvas.go:159-198 | the exact condition: after any events a fence with a valid payload opens its tab unless a fence last opened it with that payload; that is exactly when the tab shows something else, if and only if what the tab shows and what a fence last opened it with agree on being that payload |
| EventChannel.FenceSwallowed | agent/agent.go:470-478 | the other failure: a fence, a tool that replaces its payload, and the same fence again, which is swallowed |
| EventChannel.OneFenceAndTools | agent/agent.go:470-478 | both failures with an actual text |
| EventChannel.HeardLast | agent/agent.go:463-483 | an event other than text reaches the host after all that was held back |
| EventChannel.TextsHeard | agent/agent.go:447-483 | of a run that emits nothing but text, the host hears exactly what the interceptor makes of the tokens, from an empty buffer |
| CanvasPanel.CheckItems | agent/canvas_payload.go:59-69 | a list of records passes exactly when it is an array all of whose elements pass |
| CanvasPanel.CheckEach | agent/canvas_payload.go:59-69 | elements are checked in order and the first failure is reported |
| CanvasPanel.KindAccepted | agent/canvas_payload.go:143-344 | a panel of a settled kind is accepted exactly when, defaults filled in, it meets the schema of that kind, and the result is the panel with its defaults |
| CanvasPanel.PanelAccepted | agent/canvas_payload.go:143-344 | the same for any panel under the kind it declares or is taken for |
| CanvasPanel.PanelIdempotent | agent/canvas_payload.go:71-344 | normalising a panel twice is normalising it once, and its kind is settled by the first pass |
| CanvasPanel.PanelOnlyDefaulted | agent/canvas_payload.go:143-344 | no key of a panel is lost; only its type, annotations and the options of its fields change, each only when missing or of the wrong type |
| CanvasPanel.ShapeNamed | agent/canvas_payload.go:71-141 | the fifteen shapes that give a panel without a type its type, in order, by the literal names of keys and types |
| CanvasPanel.PanelMeaning | agent/canvas_payload.go:143-344 | a panel is accepted exactly when it holds the keys that its type asks for, the declared one or that of its shape, both by their literal names; a panel of no type is returned as it is, any other carries its type, and an area chart its annotations |
| CanvasPayload.EachPanel | agent/canvas_payload.go:346-364 | panels are validated one after another; all pass, or the issue is that of the first that fails |
| CanvasPayload.SectionAccepted | agent/canvas_payload.go:366-433 | a section is accepted exactly when its normal form meets the schema of its layout |
| CanvasPayload.DashboardAccepted | agent/canvas_payload.go:346-364 | a dashboard is accepted exactly when it has a title and every panel's normal form meets its schema, and each panel is replaced by its normal form |
| CanvasPayload.ObjectDetailAccepted | agent/canvas_payload.go:366-433 | an object detail is accepted exactly when it has a name and every section's normal form meets its schema |
| CanvasPayload.Accepted | agent/canvas_payload.go:435-490 | a payload is accepted exactly when its normal form meets the schema at every level; the normal form is what is emitted, under the identity of the original |
| CanvasPayload.NormalizeIdempotent | agent/canvas_payload.go:435-490 | normalising an accepted payload again changes nothing and keeps the tab it belongs to |
| CanvasPayload.RootOnlyDefaulted | agent/canvas_payload.go:346-490 | outside its panels or sections a payload is unchanged; a panel gets a missing type, annotations and options; a section's data gets the type its layout forces, a title or body that was not a string, and for charts the defaults of a panel; a close directive is not touched |
| CanvasPayload.SectionMeaning | agent/canvas_payload.go:366-433 | a section is accepted exactly when it has a title, a layout and data that holds the keys which the literal name of the layout asks for |
| CanvasPayload.RootMeaning | agent/canvas_payload.go:435-490 | a payload is accepted exactly when it is a close directive with a name, a dashboard with a title and panels that hold what their types ask for, or an object detail with a name and such sections |
| CanvasPayload.UnknownRoots | agent/canvas_payload.go:458-482 | what is neither a close directive nor taken for a dashboard or an object detail is rejected as unknown; what is taken for an object detail is not |
| CanvasPayload.IdentityMeaning | agent/canvas_payload.go:446-484 | the tab of a payload: the kind is "dashboard" or the one given, the title is the name before the title, and the three parts are joined by "::" |
| CanvasPayload.PayloadDraft.ValidateEach | agent/canvas_payload.go:346-433 | validating records in place leaves the draft as the pure validation would return it, or reports the same issue |
| CanvasPayload.PayloadDraft.Run | agent/canvas_payload.go:435-490 | the in-place normaliser returns the metadata and leaves the content of the pure one, or the same issue |
| CanvasContent.ControlAnywhere | agent/canvas.go:452-490 | content counts as interactive exactly when some object at any depth is a control |
| CanvasContent.ErrorAnywhere | agent/canvas.go:415-445 | content counts as an error exactly when some object at any depth carries an error marker |
| CanvasContent.InteractiveMeaning | agent/canvas.go:452-490 | content is interactive exactly when some object at any depth is a form, a button, an extension that says so or a toggle with a message, by literal keys and types |
| CanvasContent.ResultMeaning | agent/canvas.go:389-445 | content shows a result exactly when no object at any depth reports an error and it has panels, sections, items, rows, data or an extension that is not empty |
| CanvasContent.ErrorObjects | agent/canvas.go:415-445 | what reports an error in an object, by literal keys and words, up to case |
| TerminalRender.HandoffIdempotent | agent/handoff.go:99-112 | a normalised handoff is valid and normalising it again changes nothing |
| TerminalRender.MetadataRoundTrip | agent/handoff.go:57-81 | metadata written under its key is decoded to the same metadata |
| TerminalRender.StripAfterNormalizing | agent/canvas.go:331-387 | normalising with the metadata key and stripping it accepts the same payloads as normalising without it, and leads to the same normal form |
| TerminalRender.FindsOwnFence | agent/canvas.go:331-387 | a fence written for a prefix is found under that prefix and under no other |
| TerminalRender.HandoffRoundTrip | agent/handoff.go:24-81 | if the marked payload is printed so that it parses again, embedding a valid handoff in a fenced payload and parsing the result succeeds exactly when the payload without the metadata key validates, is no close directive and holds what the handoff kind promises; the result is that normal form with the trimmed handoff, and the clean fence has no metadata key |
| TerminalRender.InlineRoundTrip | agent/handoff.go:45-81 | the same for an inline render, which delivers the clean fence and no canvas |
| TerminalRender.SomeCodecInverts | agent/handoff.go:57-81 | whatever payload and metadata, some way of printing and parsing meets what the round trips assume |
| TerminalRender.ParseReturns | agent/canvas.go:278-387 | the parser fails to return exactly when the trimmed result is a prefix followed at once by a closing fence |
| TerminalRender.EmbedReturns | agent/handoff.go:57-81 | for either list of fences: when embedding fails to return, and what it returns: the marked fence for an object, the result unchanged for everything else |
| TerminalRender.WrappersReturn | agent/handoff.go:24-55 | the same for both wrappers; an invalid handoff marks nothing and cannot fail |
| TerminalRender.HandoffMeaning | agent/handoff.go:99-130 | a handoff is kept exactly when its kind is known and its trimmed heading and label are printable, not empty and of at most 160 and 80 characters, and it is kept trimmed |
| TerminalRender.PromiseMeaning | agent/canvas.go:286-297 | a form has to be interactive, results have to show something, and no other kind is kept |
| TerminalRender.DeliveredMeaning | agent/canvas.go:331-387 | what is delivered is the payload normalised without the metadata key, unless that is rejected or `close` is anything but absent, null or false |
| TerminalRender.CanvasMeaning | agent/canvas.go:278-304 | the canvas of a parsed render shows the normalised payload under its identity, is not interactive by itself, and carries the valid handoff whose promise it keeps |
| TerminalRender.WireMeaning | agent/handoff.go:57-81 | the literal keys under which metadata and handoff are read, and that without the metadata key there are none |
| SessionObject.Session.TryAcquire | session/session.go:36-51 | the locked part of AcquireTurn: refused when closed, acquired when free, otherwise a channel to wait on, made once |
| SessionObject.Session.ReleaseTurn | session/session.go:63-75 | the turn is free and its channel, if any, is closed and forgotten |
| SessionObject.Session.BeginClose | session/session.go:80-91 | the object is closed for good; there is a channel to wait on exactly when a turn is active |
| SessionObject.Session.AddMessage | session/session.go:104-108 | the window afterwards is the trimmed window with the message |
| SessionObject.Session.TrimWindow | session/session.go:112-145 | the loop over leading system messages computes the trimmed window |
| SessionObject.TrimKeepsLast | session/session.go:112-145 | a window of messages without system ones always holds the most recent ones of everything ever added |
| SessionObject.TrimBounds | session/session.go:112-145 | leading system messages stay, the rest is a suffix, and the limit, 40 unless a positive one is given, is met unless the system messages alone exceed it |
| SessionProtocol.StepKeeps | session/session.go:36-271 | every atomic step of every request keeps the invariant |
| SessionProtocol.OneTurnPerSession | session/session.go:175-245 | at most one request holds a turn of a session id in any reachable state, even across deletion and re-creation, and it holds the object the registry names |
| SessionProtocol.ClosedForever | session/session.go:77-99 | once Close has returned true for an object, no request holds its turn again |
| SessionProtocol.NoLostWakeup | session/session.go:52-75 | a waiter can wake now, or some request holds the turn it waits for and that request's release closes the very channel it waits on |
| SessionProtocol.SomeoneSteps | session/session.go:36-245 | no deadlock: an unfinished request, or the holder of the turn it waits for, can step |
| SessionProtocol.CancelHitsHolder | server/server.go:450-467 | a registered cancel function is that of the request holding that id's turn, so stop and delete cancel nobody else |
| SessionProtocol.OnlyOwnCancel | server/server.go:464-467 | a request that starts or finishes leaves every other request's cancel function in place |
| SessionProtocol.OwnCancel | server/server.go:464-467 | whatever is registered under the id of a holder is that holder's own cancel function |
| SessionProtocol.HistoryAlternates | server/server.go:949-952 | as long as each turn commits one message of the user and one of the assistant, a history alternates between them, is the tail of everything said that fits the window, and ends with the assistant whenever no turn of its session runs |
| SessionProtocol.AskKeeps | server/server.go:949-952 | adding the user's message keeps the invariant: it opens the only unanswered question of that session |
| SessionProtocol.AnswerKeeps | server/server.go:1173 | the commit of the assistant's message keeps the invariant: it answers the open question of that session |
| TurnHistory.TurnRecorder.Handle | server/server.go:1092-1180 | after any events the collected text, the checkpoint, the flags and the committed messages are those the event list says |
| TurnHistory.RecordTurn | server/server.go:1084-1196 | a turn adds the messages of its Done events, and without one the answer as far as it came or a remark |
| TurnHistory.OneUnlessTwoDones | server/server.go:1161-1195 | whatever events come, exactly one message is added if and only if Done comes at most once; at least one always is, and none is empty |
| TurnHistory.OneMessagePerRun | server/server.go:1161-1195 | a run of the agent adds exactly one message, whatever its ending: the visible answer, else the checkpoint of a render, else a remark |
| TurnHistory.RunTurn | server/server.go:1084-1196 | for any provider and tools, the turn that runs the agent loop adds exactly one message |
| TurnHistory.VisibleMeaning | server/server.go:1092-1160 | the visible answer is the text since the last clearing, in order; the note is the first checkpoint with a text |
| TurnHistory.ClearingForgets | server/server.go:1092-1160 | what was said before a clearing is forgotten, whatever follows |
| TurnHistory.MessageMeaning | server/server.go:1161-1195 | the message of a turn by its literal remarks: the visible answer if any; after a render without one the text of its checkpoint; else that the turn completed without a text, was cancelled or did not complete |
| SessionProtocol.ReleaseKeeps | session/session.go:63-75 | releasing keeps the invariant: every waiter of that turn can wake |
| SessionProtocol.CloseKeeps | session/session.go:80-99 | closing keeps the invariant, with and without an active turn |
| SessionProtocol.RemoveKeeps | session/session.go:239-245 | removing exactly the object that was closed keeps the invariant |
| SessionProtocol.AcquireDoes | session/session.go:36-51 | a free open session is acquired at once; a closed one refuses and stays as it is; a busy one makes the request wait for the channel of its turn; no other session changes |
| SessionProtocol.ReleaseDoes | session/session.go:63-75 | releasing ends the request, frees the turn, leaves the object open or closed as it was, and lets everyone that waits for it wake |
| SessionProtocol.CloseDoes | session/session.go:80-99 | closing is final, is done at once without an active turn, and otherwise waits for the channel of the active one |
| SessionProtocol.WaitersDo | session/session.go:52-57 | a woken chat tries again and a woken delete has drained its session; a chat that gives up is over, a delete that gives up leaves one behind that closes the same object and cannot be cancelled |
| SessionProtocol.RegistrationDoes | server/server.go:464-467 | a request is known under the id of its session from registering to unregistering |
| SessionProtocol.StopDoes | server/server.go:524-526 | a stop cancels the request registered under the id, which holds the turn of that session, and forgets it; no other request and no other entry changes |
| SessionProtocol.DeleteStops | server/server.go:524-527 | a delete does the same before it looks the session up |
| SessionProtocol.ResolutionDoes | session/session.go:175-207 | a known id leads to its object; an unknown one is looked up again under the lock and, if still unknown, gets a fresh object that is open and free |
| SessionProtocol.LookUpDoes | session/session.go:216-227 | deleting goes for the registered object, and is over when there is none |
| SessionProtocol.RemoveDoes | session/session.go:239-245 | the id is removed if and only if it still leads to the object that was closed |
| SessionProtocol.HistoryDoes | server/server.go:949-952 | a turn adds one thing said by the user and one by the assistant to the log of its session |
| ToolBudget.FitToolBudget | agent/agent.go:1741-1816 | for any order in which maps are iterated, the excluded servers are those of the greedy rule, and the kept tools are those of all other servers, in order |
| ToolBudget.RankServers | agent/agent.go:1771-1788 | sorting the servers in whatever order they come yields one ranking |
| ToolBudget.RankingUnique | agent/agent.go:1774-1788 | the ranking is settled by counts, sizes and names alone |
| ToolBudget.ExcludeServer | agent/agent.go:1791-1807 | one round excludes the server of the greedy rule and keeps the running total right |
| ToolBudget.PickServer | agent/agent.go:1792-1799 | the search from the end finds the last server that suffices, else the first |
| ToolBudget.AllOrNothing | agent/agent.go:1808-1813 | a tool is kept exactly when its server is not excluded |
| ToolBudget.ExcludedFits | agent/agent.go:1732-1740 | what is kept fits both limits whenever anything can |
| ToolBudget.SmallestSufficient | agent/agent.go:1734-1737 | when leaving out one server would do, exactly one is left out, and every other that would do is larger in the ranking |
| ToolBudget.FewestServers | agent/agent.go:1741-1807 | when the bytes fit from the start, or servers with more tools take no fewer bytes, no smaller set of servers could be left out instead |
| ToolBudget.ReadmittingBreaks | agent/agent.go:1741-1807 | in the same cases, letting any excluded server back in breaks the budget |
| ToolBudget.OnlyLighterFits | agent/agent.go:1741-1807 | for every list of tools and all limits, an excluded server that would fit again has more tools and fewer bytes than the one excluded last, which breaks the bytes alone |
| ToolBudget.LastExclusionNeeded | agent/agent.go:1791-1807 | whatever binds, the server excluded last ranks after all others excluded, and letting it back in breaks the budget |
| ToolBudget.SmallServerLost | agent/agent.go:1774-1807 | otherwise it can: when one server holds the most tools, beside it any one other fits and no two others do, it would always fit beside what is kept, and it is excluded exactly when there are at least three others |
| ToolBudget.SmallServerExample | agent/agent.go:1741-1807 | an instance within the limits of servers and requests: two small tools of one server, three servers of about 250 KB, and the small one is excluded although it would fit |
| ToolBudget.UsageMeaning | agent/agent.go:1721-1740 | a tool counts once, with the bytes of its name, description and schema, and lists add up |
| ToolBudget.ShareMeaning | agent/agent.go:1754-1766 | what a server uses is what its tools use together |
| ToolBudget.OwnerMeaning | agent/agent.go:1754-1766 | a tool belongs to the server that reports it, else to the capability it is mapped to, else to nobody |
| ToolBudget.RankingMeaning | agent/agent.go:1774-1788 | in the ranking more tools come first, then more bytes, then the name in alphabetical order |
| GreedyExclusion.ExcludeCuts | agent/agent.go:1789-1807 | the greedy loop leaves out the first items of the ranking and one more that is enough with them, and no single item was enough earlier |
| GreedyExclusion.FirstsHoldMost | agent/agent.go:1789-1807 | no k items hold more than the first k of the ranking, on top of anything already left out |
| Router.SanitizeTools | mcpclient/router.go:487-533 | at most 128 tools and 256 KiB are kept, well formed, with distinct names and in order; an acceptable tool is dropped only for a name already kept or for lack of room |
| Router.ToolMeaning | mcpclient/router.go:487-624 | which tools are acceptable: 1 to 64 letters, digits, underscores and hyphens and a valid schema; which descriptions are clipped, and what the model is shown of a tool |
| Router.RoomMeaning | mcpclient/router.go:487-533 | there is room for a tool as long as fewer than 128 are kept and all take at most 262144 bytes with it; only the first 512 listed are looked at |
| Router.Router.RebuildToolIndex | mcpclient/router.go:431-450 | for any order of servers the index holds each name once, under a connected server that offers exactly that tool, and no name is missing |
| Router.Router.Connect | mcpclient/router.go:106-195 | success replaces the server's tools by what sanitizing keeps of its list and rebuilds the index; failure forgets the server and leaves the index as it was |
| Router.Router.Disconnect | mcpclient/router.go:198-214 | the server is forgotten and the index rebuilt, unless it was not connected |
| Router.StaleAfterFailures | mcpclient/router.go:106-214 | after any connections, failed connections and disconnections the index names each tool once, and every indexed tool has a live server exactly when none belongs to a server that a failed reconnect dropped since the last rebuild |
| Router.StaleExample | mcpclient/router.go:111-116 | an instance: one connection with one tool and one failed reconnect |
| Routing.RoutedAgent.FilteredTools | agent/agent.go:1635-1719 | no list exactly when the internal tools alone are too many; otherwise the admitted tools that fit the rest of the budget, then the internal ones |
| Routing.RoutedAgent.AdmitTools | agent/agent.go:1658-1715 | the loops over capability state, mode, name clashes and loaded groups admit exactly the tools that the admission predicate describes |
| Routing.RoutedAgent.InternalDefs | agent/agent.go:2082-2090 | each enabled internal tool once, in any order |
| Routing.RoutedAgent.HandleLoadTools | agent/agent.go:1849-1961 | known groups and tools are added to what is loaded, unknown ones are reported, and an invalid or empty request changes nothing |
| Routing.RequestFits | agent/agent.go:1635-1719 | every list sent has at most 128 tools and 384 KiB of definitions |
| Routing.RequestNames | agent/agent.go:1649-1667 | its names are pairwise distinct exactly when those of the internal tools are |
| Routing.SharedNameExample | agent/agent.go:1649-1667 | an instance: two internal tools whose definitions share a name, and a request that carries it twice |
| Routing.RequestOrder | agent/agent.go:1656-1718 | the tools of MCP servers keep the router's order |
| Routing.NothingDropped | agent/agent.go:1690-1719 | when the admitted and the internal tools fit 128 tools and 393216 bytes together, and the cap on routed tools, which counts only with routing and only when positive, all of them are sent, the internal ones last |
| Routing.CapHolds | agent/agent.go:1690-1719 | with routing a positive cap bounds the number of tools of MCP servers in the request |
| Routing.AdmittedMeaning | agent/agent.go:1658-1715 | the conditions under which a tool is admitted, over the fields of the configuration: no clash with an internal tool, capability not off, writing allowed, and its group or itself loaded |
| Routing.InternalMeaning | agent/agent.go:2082-2090 | the internal tools of a request are those that need no write access, and with write access all |
| Routing.LoadableMeaning | agent/agent.go:1849-1961 | what can be loaded: the groups of the menu by their ids and the tools they list by their names |
| Routing.ToolOwner | agent/agent.go:1754-1766 | a tool counts for the server that reports it, else for the capability it is mapped to, else for nobody |
| Routing.WholeServers | agent/agent.go:1732-1766 | of one server's admitted tools, or of one capability's that no server reports, a request carries all or none |
| Routing.LoadingAdds | agent/agent.go:1975-1997 | loading more keeps every admitted tool, in its place |
| RoutingMenu.BuildToolServerMap | server/server.go:991-1001 | a tool is mapped to the capability of its server, where there is one |
| RoutingMenu.ComputeToolBudget | server/server.go:716-750 | the total and the counts per capability are those of the tools that pass state and mode |
| RoutingMenu.TotalIsAdmitted | server/server.go:716-750 | without routing that total is the number of tools filteredTools admits |
| RoutingMenu.CountIsGroup | server/server.go:716-750 | with routing the count of a capability is at most the number of tools that loading its group admits, and equal to it exactly when no tool is counted for another capability that is always on |
| RoutingMenu.EffectiveToolBudget | server/server.go:785-804 | the total without routing, with it the largest count of a capability, in whatever order they are looked at |
| RoutingMenu.ReportedBudget | server/server.go:597-600 | the budget a user sees: without routing the number of tools of every request; with it a bound on what loading one group leads to, exactly when no capability is always on beside another that has tools |
| RoutingMenu.AlwaysOnExample | server/server.go:785-804 | an instance in which the largest count is 1 and loading a group admits two tools |
| RoutingMenu.BuildRoutingGroups | server/server.go:759-783 | the menu is that of the enabled capabilities, each with its tools callable in the mode |
| RoutingMenu.BuildGroups | capability/group.go:73-108 | one group for each enabled capability with its tool names sorted, inserted by id |
| RoutingMenu.MenuById | capability/group.go:107-108 | the menu is ordered by capability id, whatever the configured order |
| RoutingMenu.MenuIsAdmitted | server/server.go:752-783 | with every tool mapped and no clash with an internal name, a tool of a connected server is admitted exactly when the menu offers it and its group is loaded or always on, or it is loaded itself |
| AgentLoop.Run | agent/agent.go:447-1057 | for any provider, tools and cancellations: the run is a story of passes, each with its streams, the calls they asked for, what the tools made of them and what was appended; the events the host receives are those of the story, passed through the fence interceptor; at most 3 * (maxIter + 1) streams |
| AgentLoop.RequestsPaired | agent/agent.go:669-926 | in every request each assistant message with tool calls is followed at once by one reply per call, in order; at most three streams for every pass and the summary |
| AgentLoop.EndsAsTold | agent/agent.go:528-1057 | unless a hook of an internal tool says so itself, Done and the checkpoint come only where the ending has them |
| AgentLoop.CheckpointEarned | agent/agent.go:871-946 | a run that ends with a checkpoint ends on a batch that holds, for each call the provider asked for last, the outcome of that call: all were carried out without error, some result was eligible and every eligible one parsed |
| AgentLoop.AnswerComplete | agent/agent.go:614-661 | a text answer follows a request that shows all of the run, asks for no tool, and leaves no required tool uncalled exactly when the one under the empty name is not owed, which is so if that one requires no interest |
| AgentLoop.RequestsOffer | agent/agent.go:485-1000 | what holds of every list of tools holds of the tools of every request of a run |
| AgentLoop.RequestsFit | agent/agent.go:1635-1719 | with lists from filteredTools, every request of a run has at most 128 tools and 384 KiB of definitions |
| AgentLoop.EmptyNameStands | agent/agent.go:1063-1073 | a tool owed under the empty name is never demanded: when no other is owed and the model just answers, every run ends there with the tool still owed |
| AgentLoop.DoneIsLast | agent/agent.go:636-1056 | in the events of a run Done comes at most once with nothing after it, a checkpoint only right before it, and Done comes at all exactly when the run was neither stopped nor broken off |
| AgentLoop.AgentRun.AskProvider | agent/agent.go:543-612 | one to three streams, all for the same request, tried again only after a rate limit; the text and the calls are those of all of them |
| AgentLoop.RequestEnds | agent/agent.go:543-612 | for whatever the provider answers there is exactly one way in which a request ends: after one to three streams, each but the last rate limited and waited for; cancelled while waiting, it says so, and otherwise it fails with its last error |
| AgentLoop.AgentRun.ReadEvents | agent/agent.go:552-582 | text is emitted in order and every tool call is collected |
| AgentLoop.StreamHolds | agent/agent.go:552-582 | the calls of a stream are those its events ask for and its texts those its events hold, in order |
| AgentLoop.AgentRun.RunBatch | agent/agent.go:693-853 | whatever order the goroutines finish in, each index holds the result of its own call |
| AgentLoop.AgentRun.Complete | agent/agent.go:871-893 | a batch ends the run exactly when some tool is eligible, every eligible one is valid and none failed |
| AgentLoop.AgentRun.FlushBatch | agent/agent.go:895-905 | events and replies of a batch come out call by call in the order of the calls, canvases marked when the batch ends the run |
| AgentLoop.BatchInOrder | agent/agent.go:895-905 | the events of a batch are those of its calls, one after another |
| AgentLoop.AgentRun.Round | agent/agent.go:663-1000 | a round adds to the story the calls of its streams and what the tools made of each, or ends the run: stopped, rendered, or with too many tools |
| AgentLoop.AgentRun.Pass | agent/agent.go:528-1009 | one pass of the loop adds a turn to the story or ends the run as told |
| AgentLoop.AgentRun.MissingRequiredTool | agent/agent.go:1063-1073 | a reported tool is owed; no report means that none is, unless one is registered under the empty name |
| AgentLoop.AgentRun.AnswerStands | agent/agent.go:622-661 | an answer stands only when no group load is to be forced and no required tool is owed, with the same exception; otherwise the loop says what it insists on |
| AgentLoop.AgentRun.NoteInterests | agent/agent.go:969-981 | the interests on record are those loaded before and those these calls load |
| AgentLoop.OwedAfterRound | agent/agent.go:969-1073 | after a round a tool is owed exactly when it is required by an interest loaded before or by a get_interest of the round, and has been called neither before nor in it |
| AgentLoop.PairedRound | agent/agent.go:669-905 | an assistant message with tool calls, followed by one reply for each, keeps the messages well paired |
| AgentLoop.SettledMeaning | agent/agent.go:700-851 | over all the ways a call can go: it is an error unless it was carried out without one; it is valid exactly when its result parses as a terminal render, or as a canvas for an opted-in tool; its canvas is the parsed one; its reply is the clean text, the result, the denial or the error |
| AgentLoop.DeniedCalls | agent/agent.go:782-812 | a call is denied exactly when its capability asks, an approval can be asked for and is not given; then it does not start, its one event is the error "Tool call denied by user" and its reply "User denied this tool call."; every other call starts first |
| AgentLoop.StatesDecide | agent/agent.go:788-792 | for a call that is not approved: `ask` denies it, `ask on write` denies it unless the tool is read-only, and the other two states let it start |
| AgentLoop.CarriedOut | agent/agent.go:700-851 | the events of a call that is carried out: its start and the error; or its start, its canvas or else its text, its result and what its hook adds, with the canvas marked as interactive in a batch that ends the run |
| AgentLoop.SettleReplies | agent/agent.go:700-851 | whichever way a call goes, internal, routed, denied or failed, it leaves one tool message with the id of the call |
| SseCodec.Reader.Feed | packages/chat-component/src/useChatPanel.ts:736-781 | one chunk adds the frames of all complete parts and leaves the rest in the buffer |
| SseCodec.ReadStream | packages/chat-component/src/useChatPanel.ts:732-787 | however a stream is cut into chunks, the frames read and the text left over are those of the whole stream |
| SseCodec.ReadOn | packages/chat-component/src/useChatPanel.ts:744-747 | reading text after other text is reading on from what was left over |
| SseCodec.RoundTrip | server/server.go:439-449 | frames written by the server, with non-empty data and no line breaks, are read back exactly, with nothing left over |
| SseCodec.SplitMeaning | packages/chat-component/src/useChatPanel.ts:744-747 | splitting cuts a text at its separators: joined with them the parts are the text, and none holds one |
| SseCodec.FrameMeaning | server/server.go:439-449 | the bytes of one frame, and what the client reads from them |
| SseCodec.LineMeaning | packages/chat-component/src/useChatPanel.ts:758-767 | the last event line and the last data line of a part count, without an event line it is a message, and other lines do not matter |
| SseCodec.PartMeaning | packages/chat-component/src/useChatPanel.ts:755-769 | a part of nothing but white space, or without data, holds no frame |
| ClientQueue.Panel.StartRequest | packages/chat-component/src/useChatPanel.ts:620-637 | the guard and the claim of the slot are those of the step function |
| ClientQueue.Panel.SubmitInteractive | packages/chat-component/src/useChatPanel.ts:825-871 | an action is turned away, started or queued as the step function says; with queueing it is accepted exactly when no other is under way |
| ClientQueue.Panel.DispatchQueued | packages/chat-component/src/useChatPanel.ts:875-912 | the dispatch effect, with its ways of dropping the queue |
| ClientQueue.Panel.FinishRequest | packages/chat-component/src/useChatPanel.ts:805-814 | the end of a request touches shared state only when the request is current |
| ClientQueue.Panel.SettleInteractive | packages/chat-component/src/useChatPanel.ts:849-857 | the hook of an interactive call lowers the flag only in its own generation |
| ClientQueue.Panel.Unmounting | packages/chat-component/src/useChatPanel.ts:350-358 | unmounting invalidates the epoch and the generation and empties the queue without touching what is shown |
| ClientQueue.Panel.CancelCurrentRequest | packages/chat-component/src/useChatPanel.ts:1111-1127 | stop and clear invalidate the epoch and the generation, free the slot and empty the queue |
| ClientQueue.CoreKept | packages/chat-component/src/useChatPanel.ts:345-912 | in any order whatever, every step keeps the core invariant: one slot, one number per action, what is shown, and what an action waits for |
| ClientQueue.StepKeeps | packages/chat-component/src/useChatPanel.ts:345-912 | with prompt effects, every step keeps the full invariant |
| ClientQueue.OneRequest | packages/chat-component/src/useChatPanel.ts:620-645 | in any order, at most one running request has the current epoch, and the active flag is up exactly then |
| ClientQueue.DispatchedOnce | packages/chat-component/src/useChatPanel.ts:875-912 | in any order, an action is dispatched at most once |
| ClientQueue.DispatchMeetsSlot | packages/chat-component/src/useChatPanel.ts:875-912 | in any order, a dispatched action is refused exactly when a request claimed the slot between the commit that left the effect and the effect, and is still current; otherwise it obtains the slot |
| ClientQueue.LastEndDecides | packages/chat-component/src/useChatPanel.ts:793-912 | in any order, an action whose request has ended is dispatched exactly when the last request of the epoch to end, that one or a later one, did not end cleanly without done |
| ClientQueue.DispatchAfterDone | packages/chat-component/src/useChatPanel.ts:793-912 | so an action runs although the request it waited behind ended cleanly without done, exactly when a later request of the epoch was the last to end and ended otherwise |
| ClientQueue.DispatchWhileCurrent | packages/chat-component/src/useChatPanel.ts:620-637 | an action dispatched while the request it waits behind is current is refused |
| ClientQueue.DispatchObtainsSlot | packages/chat-component/src/useChatPanel.ts:875-912 | with prompt effects a dispatched action always obtains the slot, is of the current generation, and the request it waited behind did not end cleanly without done |
| ClientQueue.InvalidatedNeverRuns | packages/chat-component/src/useChatPanel.ts:345-367 | in any order, an action that waits when its generation is invalidated is never dispatched |
| ClientQueue.StaleEndIsSilent | packages/chat-component/src/useChatPanel.ts:792-814 | in any order, a request that is no longer current ends without touching the refs or what is shown |
| ClientQueue.SendDoes | packages/chat-component/src/useChatPanel.ts:620-656 | a send starts a request that is current and shown exactly when none is shown or active and no action is under way, and else does nothing |
| ClientQueue.SubmitDoes | packages/chat-component/src/useChatPanel.ts:825-871 | with queueing an action is turned away while another is under way, starts at once while no request is shown or active, and waits for the current one otherwise; without it is a send |
| ClientQueue.EndDoes | packages/chat-component/src/useChatPanel.ts:793-814 | the end of the current request frees the slot, and forbids the hand-off exactly when the stream ended cleanly without done or the response had no body |
| ClientQueue.EffectDoes | packages/chat-component/src/useChatPanel.ts:875-912 | the effect leaves a queue alone that it was not rendered with, drops one that is empty, invalidated or may not be handed on and frees the flag, and hands on any other: to a request that is current if none is active, and to a refused one otherwise |
| ClientQueue.SettleDoes | packages/chat-component/src/useChatPanel.ts:849-857 | an action lowers the flag when it settles in its own generation and not in a later one |
| ClientQueue.InvalidationDoes | packages/chat-component/src/useChatPanel.ts:345-367 | stop, clear, unmounting and switching the queue off leave no action, the first three no current request either |
| ClientQueue.LateEffectMissesSlot | packages/chat-component/src/useChatPanel.ts:875-912 | a run in which one handler stops, sends and submits before a late effect, and the dispatched action is refused |
| ClientQueue.LoweredFlagMissesSlot | packages/chat-component/src/useChatPanel.ts:875-912 | a run in which a late effect lowers the interactive flag of an action that runs, a request gets in between, and an action dispatched by a timely effect is refused |
| ClientQueue.RunsWithoutDone | packages/chat-component/src/useChatPanel.ts:793-912 | a run with the same late effect in which an action runs although the request it waited behind ended without done |
| JsonScanner.ExtractJsonObject | packages/chat-component/src/inlineChartDetector.ts:42-72 | the loop finds the balanced object, or none |
| JsonScanner.ExtractAcrossFences | packages/chat-component/src/inlineChartDetector.ts:91-146 | the loop yields the object without the fences inside it, where it ends, and whether there were any |
| JsonScanner.AgreesWithoutFences | packages/chat-component/src/inlineChartDetector.ts:42-146 | where no fence is stripped, both scanners agree on the text and on where it ends |
| JsonScanner.ScannerMeaning | packages/chat-component/src/inlineChartDetector.ts:42-72 | what each character does to the balance: braces open and close, a string is skipped up to the quote that ends it, with escapes, anything else is passed over, and the end of the text closes nothing |
| JsonScanner.StrippingMeaning | packages/chat-component/src/inlineChartDetector.ts:91-146 | inside an object and outside strings three ticks are left out with the tag and the line break that follow, and nothing else is |
| JsonScanner.StrippingUndoesInserting | packages/chat-component/src/inlineChartDetector.ts:74-146 | whatever fences are written inside a balanced object, outside its strings, the scanner returns the object, ends where the text ends and reports whether there were any |
| SelectReconcile.ReconcileSelectValues | packages/chat-component/src/charts/ActionFormBlock.tsx:41-53 | the loop computes the pass over the fields |
| SelectReconcile.AvailableOptions | packages/chat-component/src/charts/ActionFormBlock.tsx:27-39 | the options whose dependencies match, the first of each value |
| SelectReconcile.AvailableMeaning | packages/chat-component/src/charts/ActionFormBlock.tsx:27-39 | an option is available exactly when its dependencies all match and no accepted option before it has its value; the order is kept |
| SelectReconcile.ReconcileMeaning | packages/chat-component/src/charts/ActionFormBlock.tsx:45-51 | a select whose value is that of an accepted option keeps it, as does any other field; any other select gets the first accepted option if it picks one by itself and there is one, and the empty value otherwise |
| SelectReconcile.PassSettles | packages/chat-component/src/charts/ActionFormBlock.tsx:41-53 | when selects look only at earlier selects and other fields, one pass leaves every select empty or with an option available under the final values |
| SelectReconcile.PassTouchesSelects | packages/chat-component/src/charts/ActionFormBlock.tsx:45-51 | only the keys of selects change |
| SelectReconcile.SecondPassIdle | packages/chat-component/src/charts/ActionFormBlock.tsx:41-53 | a second pass changes nothing |
| Downsample.DownsampleArray | packages/chat-component/src/charts/chartTypes.ts:325-334 | the loop yields the points at the rounded positions, and a short series unchanged |
| Downsample.Nearest | packages/chat-component/src/charts/chartTypes.ts:327-330 | every point kept is the one nearest to even spacing |
| Downsample.PositionsIncrease | packages/chat-component/src/charts/chartTypes.ts:327-332 | the points kept are distinct and in order |
| Downsample.Ends | packages/chat-component/src/charts/chartTypes.ts:321-333 | the first and the last point are kept |
| Downsample.ThinnedSize | packages/chat-component/src/charts/chartTypes.ts:317-334 | exactly 200 points of a long series are kept, and thinning twice is thinning once |
| Downsample.Panel.Downsample | packages/chat-component/src/charts/chartTypes.ts:340-357 | charts and sparklines are thinned in place, other panels are left alone |

## Left out

- CanvasFence.ChunkInvariance: one kind of fence in a stream, because with both kinds in one buffer prefixes are tried in list order and not leftmost, so the cut does matter.
- ToolBudget.FewestServers: only when the bytes fit from the start or servers with more tools take no fewer bytes, because servers are ranked by count first.
- ToolBudget.ReadmittingBreaks: only in the same cases; what holds for every list is OnlyLighterFits.
- ClientQueue.DispatchObtainsSlot: for runs in which no callback comes between an invalidation and an effect left from before it; DispatchMeetsSlot and LastEndDecides are about all runs. Actions queued because of a stale `streaming`, with no request active, have no request they wait behind.
- AgentLoop.EndsAsTold: the side-channel hooks of internal tools relay no Done and no checkpoint of their own; the loop would pass them on as they are.
- AgentLoop.Run: a result on which the terminal parser does not return ends the process and is not part of a run.
- AgentLoop.AgentRun.AskProvider: the delay before another try and the text of a rate-limit error are arbitrary.
- TurnHistory.OneMessagePerRun: events of a run as `Ends` describes them; with more than one Done a turn adds more messages (`OneUnlessTwoDones`).
- SessionProtocol.HistoryAlternates: for sessions written only by the chat handlers; that a turn commits one assistant message is a step of the protocol, and that it does whatever the agent's run is `TurnHistory.RunTurn`.
- SessionProtocol.SomeoneSteps: generated session ids are taken not to be in use, and a chat without an id waits for one.
- RoutingMenu.MenuIsAdmitted: for tools that belong to a capability and do not share a name with an internal tool.
- TerminalRender.HandoffRoundTrip: of the JSON library it is assumed that the marked payload is printed without white space around it and parses to itself; keys of Go structs match exactly and not up to case.
- SelectReconcile.PassSettles: for forms in which no select looks at itself or at a later one; a dependency the other way would need more passes.
- SseCodec.RoundTrip: what JSON.parse makes of the data, and the report of a malformed frame.
- Downsample.Nearest: exact arithmetic; floating-point rounding of the step is not modelled.
- Text is a sequence of characters that stand for bytes or runes; invalid UTF-8 and cutting a character in half are not modelled, except that the clip of a long tool description is arbitrary.
- Payloads are values: panels and sections that the validators update through shared references are replaced in their parents, and only the root is updated in place.
- What a rejected payload contributes to log lines.
- The older single-purpose parser for terminal canvases (agent/canvas.go, lines 207-262) is a parameter of the agent loop.
- The sorting routines of the Go library are modelled by insertion; labels, descriptions and the expandable flag of menu groups are not modelled.
- The validation of a tool's schema and the clip of a description to whole characters are parameters of the router.
- In the agent loop the handlers, the router, the provider, the context and the list of tools of each round are arbitrary functions; the effect of `load_tools` on that list is the subject of the routing modules.
- React: a commit applies all updates made so far in order, strict mode's replay of mount effects and calls after unmounting are not modelled.
- `reassembleFencedJson` and the classification of detected JSON, which build on the two scanners.
- Provider and MCP client libraries, server discovery, header forwarding, HTTP plumbing and approval prompts.
- System prompts, interest catalogues, index rendering, logging and telemetry.
- The validators of the client, whose rules differ from the server's by design; rendering and layout of the user interface.
