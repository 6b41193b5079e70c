# Models and proofs for the agent workspace

A Dafny 4.11 project over the parts of this repository whose correctness does
not show from any one function: the chat event log and its two reducers, the
stdio multiplexer, the run lifecycle of a chat, the idempotent session-store
bridge, the bounded projection of tool arguments, and three tree and list
algorithms of the dashboard. `dafny verify dfyconfig.toml` checks all of it.

## How it is laid out

| file | about |
|---|---|
| `Common.dfy` | a few notions several files share |
| `Protocol.dfy` | wire types shared by server and browser, and what encoding drops |
| `Preview.dfy`, `ToolPreview.dfy` | the decimal writer, the preview clamp, and what a stored tool says after any number of events |
| `Timeline.dfy` | the server's reducer as a function on values |
| `LiveChat.dfy`, `Pump.dfy` | the live chat object: indexed timeline, ring buffer, subscribers, one method per lock section; the pump between two of them |
| `Reducer.dfy`, `Simulation.dfy`, `ClientTool.dfy` | the browser's reducer, how far the two agree and exactly when one step parts them, and what the browser keeps of a tool |
| `EventLog.dfy`, `EventHub.dfy`, `EventStreams.dfy` | the bounded log and its resume rule, bounded channels, the dashboard and plugin streams |
| `Fanout.dfy`, `Closing.dfy` | all interleavings of publishing, subscribing and concurrent closing, and what becomes of each subscriber |
| `Reconnect.dfy`, `EventHandler.dfy`, `Delivery.dfy` | a browser over any number of connections, the handler that writes them, and that everything arrives |
| `MuxCodec.dfy`, `Mux.dfy`, `MuxDelivery.dfy`, `MuxObject.dfy`, `MuxStream.dfy` | frames and bytes, two endpoints, that nothing sent is lost, the endpoint object, one stream's wake tokens |
| `RunLifecycle.dfy`, `Bracketing.dfy`, `Emission.dfy` | sending, running, settling, aborting, closing; the grammar of emitted events, and that they say what came |
| `Bridge.dfy`, `BridgeRuns.dfy` | the de-duplicating bridge, alone and under any requests |
| `Projection.dfy` | the byte-budgeted argument projection |
| `SessionForest.dfy`, `Workspaces.dfy`, `PaneLayout.dfy` | session trees, recent workspaces and folders, split panes |

Code that updates objects is a class whose methods are proved equal to a
function on values (`View()` after is that function of `View()` before). The
functions carry the theorems. Concurrency is a state machine in which every
lock section, and every action between two of them, is a step of its own; a
theorem about runs quantifies over every sequence of enabled steps. A `string`
is a sequence of bytes, one `char` each.

## What the code does where one might expect otherwise

- A tool event without output clamps the already clamped preview again, and the
  marker then counts the old marker's bytes (`ToolPreview.MarkerCountSurvives`).
- A comment says that the browser runs the server's reduction
  (internal/httpapi/chat.go:215-217). It does not quite: `tool_update` appends output
  in the browser and replaces it on the server, summaries and reasoning ends reach
  only the browser's timeline, and an empty but present argument map or image list
  overwrites the known one on the server only (`Simulation.OneStepExact` has every
  case, `Simulation.EmptyArgumentsPart` an instance).
- `Send` starts a second run beside an unfinished one if its mode is none of the
  three named ones. The HTTP handler filters such modes
  (`RunLifecycle.SecondRunIff`, `RunLifecycle.SecondRunHappens`,
  `RunLifecycle.HandlerIsPolite`).
- A chat closed between the two lock sections of a `Send` still starts a run, since
  the second section does not look at the closed flag again
  (`RunLifecycle.StartAfterCloseIff`, `RunLifecycle.NoStartOnceClosed`,
  `RunLifecycle.StartAfterCloseHappens`). The other results on runs are about open
  chats.
- One event of a runtime that is being closed can still be published, namely one that
  had passed the pump's check (`Pumps.LateIff`, `Pumps.OneLateEvent`).
- A choice, a user message or a tool boundary that arrives outside the run streams
  would break the bracketing or leave an item streaming on an idle chat; no other
  event does (`Bracketing.BackgroundIff`).
- A stream has one wake token. `net.Conn` allows several concurrent readers; with two
  of them one can be left waiting with something to return, and nothing the stream
  does by itself wakes it (`MuxStream.StarvationIff`, `MuxStream.StarvedIsStuck`).
- `net.Conn` promises that closing a connection unblocks a pending read. Here the
  reader is woken and waits again, until the peer closes, a deadline passes or the
  multiplexer shuts down (`MuxStream.ReaderReturnsIff`,
  `MuxStream.LocalCloseWaitsForPeer`).
- The bridge joins method, path and operation id with spaces, and paths are
  decoded, so an id with a space in it can collide (`Bridge.TwinIff`).
- A project pushed off the list of ten stays in its folder. Removing it then does
  nothing, and the next start drops it (`Workspaces.PushedOff`,
  `Workspaces.RemovalIff`, `Workspaces.ReloadIff`).
- The history is written without a limit and read only up to 64 KiB; a longer one is
  lost whole (`Workspaces.ReloadIff`, `Workspaces.LongHistoryIsLost`).
- Undoing a split needs only that the new pane's id is fresh; leaf ids need not be
  distinct (`PaneLayout.RemoveUndoesSplit`).

## Model

| member | source | states |
|---|---|---|
| Preview.WriteDecimal | internal/httpapi/chat.go:149-161 | for every 64-bit number the loop stays inside its 20-byte buffer and returns the exact decimal; a negative number gives the empty string |
| Preview.ValueOfDecimal | internal/httpapi/chat.go:149-161 | the numeral denotes the number, has only digits and no leading zero |
| Preview.ClampBounds | internal/httpapi/chat.go:142-147 | a cut preview keeps the first 4096 bytes and is at most one marker longer |
| Preview.ClampCounts | internal/httpapi/chat.go:142-161 | a short text is shown whole; a longer one is flagged, and the numeral in its marker is the number of bytes left out |
| Timeline.LookupUpsert | web/src/reducer.ts:66-74 | an upsert changes what is found under its own identity and under no other |
| Timeline.UpsertCappedKeepsDistinct | internal/httpapi/chat.go:121-140 | replace, append, or drop the oldest: identities stay distinct and at most 2000 |
| Timeline.RunKeepsDistinct | internal/httpapi/chat.go:218-296 | over every history the timeline lists distinct identities, at most 2000 |
| Timeline.UpsertCappedAt | internal/httpapi/chat.go:121-140 | position by position: a known item is rewritten where it stands, a new one goes to the end, and when full the oldest goes and no other |
| Timeline.UsageGoesToNewest | internal/httpapi/chat.go:301-319 | the newest assistant message gets the accounting, and the model if it is named; every other item stays as it was |
| Timeline.BroadcastSays | internal/httpapi/chat.go:218-296 | every event is broadcast as it came, except that a tool is broadcast as stored under the same phase, and the meta as kept |
| Timeline.MetaOverRun | internal/httpapi/chat.go:284-294 | over every history the meta is the last one's, with the chat's own ids and the last execution target that was named |
| ToolPreview.StoredPreview | internal/httpapi/chat.go:324-359 | after any number of tool events, however often clamped again, the stored preview is the latest non-empty output, or its first 4096 bytes and a marker, and is then flagged truncated |
| ToolPreview.TruncatedNeverReverts | internal/httpapi/chat.go:340-359 | once truncated, always truncated |
| ToolPreview.MarkerCountSurvives | internal/httpapi/chat.go:142-147 | after an event without output the byte count in the marker stays right if and only if it happens to equal the marker's own length |
| ToolPreview.ToolOverRun | internal/httpapi/chat.go:248-261 | in a whole timeline a tool that is never evicted is exactly the fold of its own events, whatever came between them |
| ToolPreview.FoldedTells | internal/httpapi/chat.go:324-359 | after any number of events about a tool: state and error flag are the last event's, names and summary the last non-empty ones, arguments and images the last present ones; the byte count came with the latest output; the flag is set exactly if an event set it or was too long |
| ToolPreview.ToolTells | internal/httpapi/chat.go:248-261 | over a whole history, and with the preview: what is listed for a tool that is never evicted is what its own events told |
| LiveChats.IndexIsLookup | internal/httpapi/chat.go:121-140 | the index finds what a scan for the identity finds, and its items are distinct |
| LiveChats.IndexedWrite | internal/httpapi/chat.go:124-127 | writing through the index is the scan's replacement and keeps the index exact |
| LiveChats.Reindex | internal/httpapi/chat.go:130-137 | the rebuilt index maps each identity to its position and nothing else |
| LiveChats.LiveChat.constructor | internal/httpapi/chat.go:60-68 | an empty timeline, an empty log and no subscriber |
| LiveChats.LiveChat.UpsertLocked | internal/httpapi/chat.go:121-140 | the indexed upsert refines: scan, replace or append, drop the oldest when full |
| LiveChats.LiveChat.Hydrate | internal/httpapi/chat.go:72-91 | the timeline becomes the stored items upserted in order; the meta takes the chat's own ids |
| LiveChats.RebuiltInOrder | internal/httpapi/chat.go:72-91 | distinct stored items come back in order, the last 2000 of them |
| LiveChats.RebuiltIsLatest | internal/httpapi/chat.go:72-91 | whatever is stored, a listed item is the last one stored under its identity |
| LiveChats.LiveChat.MergeToolLocked | internal/httpapi/chat.go:324-359 | the merged tool is the fold onto the scanned item of that id |
| LiveChats.LiveChat.ApplyMessageUsageLocked | internal/httpapi/chat.go:301-319 | the backward loop attaches usage to the newest assistant message and to nothing else |
| LiveChats.LiveChat.PatchLocked | internal/httpapi/chat.go:224-246 | rewriting a message through the index is an upsert of it |
| LiveChats.LiveChat.DeltaLocked | internal/httpapi/chat.go:224-239 | a delta extends the listed message of that id, or changes nothing |
| LiveChats.LiveChat.EndLocked | internal/httpapi/chat.go:240-247 | ending a message clears its streaming flag, or changes nothing |
| LiveChats.LiveChat.ToolLocked | internal/httpapi/chat.go:248-261 | the stored and broadcast tool is the merged and clamped one |
| LiveChats.LiveChat.ApplyLocked | internal/httpapi/chat.go:218-296 | the in-place reducer equals the reducer on values: whole new state and broadcast event |
| LiveChats.LiveChat.LogLocked | internal/httpapi/chat.go:185-191 | stamping, appending and the overlapping in-place shift leave the last 1024 entries |
| LiveChats.LiveChat.BroadcastLocked | internal/httpapi/chat.go:185-201 | the event is logged and offered to every subscriber; full channels are closed and dropped |
| LiveChats.LiveChat.Publish | internal/httpapi/chat.go:178-201 | a closed chat changes nothing; an open one applies, logs and broadcasts the reduced event |
| LiveChats.LiveChat.PumpCheck | internal/httpapi/chat.go:166-168 | the pump's own lock section: stale exactly if the generation moved or the chat is closed |
| Pumps.LateIff | internal/httpapi/chat.go:164-174 | once its generation has moved an event is published exactly if it had passed the check before and the chat is not closed yet |
| Pumps.FateIff | internal/httpapi/chat.go:164-184 | an event is refused at the check exactly if its generation moved or the chat is closed, at its publication exactly if the chat is closed, and is published otherwise |
| Pumps.GenerationCounts | internal/httpapi/chat.go:444-451 | the generation counts the closes begun on the open chat |
| Pumps.OneLateEvent | internal/httpapi/chat.go:164-174 | at most one event of a generation is ever published after it moved |
| Pumps.LateHappens | internal/httpapi/chat.go:444-451 | a concrete run: the check, the first half of close, the publication |
| LiveChats.LiveChat.TakeSnapshot | internal/httpapi/chat.go:370-376 | the complete state with its sequence number |
| LiveChats.LiveChat.Subscribe | internal/httpapi/chat.go:381-406 | registers a channel and returns the replay that the resume rule allows, or none |
| LiveChats.LiveChat.Unsubscribe | internal/httpapi/chat.go:408-415 | removes and closes the channel if it is still registered |
| LiveChats.LiveChat.CloseEnter | internal/httpapi/chat.go:444-451 | the first lock section of close: at most the generation advances |
| LiveChats.LiveChat.CloseMark | internal/httpapi/chat.go:455-468 | the second: the terminal event is logged untrimmed, the chat is closed, the subscribers are taken off |
| LiveChats.LiveChat.CloseTell | internal/httpapi/chat.go:471-475 | a send that does not block, outside the lock |
| LiveChats.LiveChat.CloseFinish | internal/httpapi/chat.go:476-476 | the close after it |
| Simulation.CoreUpsert | web/src/reducer.ts:66-74 | upserting commutes with forgetting the fields the two reducers keep differently; a summary leaves no trace |
| Simulation.StepInStep | web/src/reducer.ts:125-208 | one broadcast keeps browser and server in step |
| Simulation.FoldsInStep | internal/httpapi/chat.go:218-359 | for every history over at most 2000 identities the browser's fold and the server's hold the same items in the same order with the same contents, up to the listed fields, and the same sequence number |
| Simulation.SnapshotInStep | web/src/reducer.ts:113-123 | a snapshot starts in step with the state it was taken of |
| Simulation.OneStepExact | web/src/reducer.ts:76-208 | from an exact copy one broadcast leaves an exact copy if and only if the event agrees with the state: a condition on the event and the state before it |
| Simulation.HistoryExactIff | internal/httpapi/chat.go:218-359 | over any history the browser equals a fresh snapshot after every prefix if and only if every event agrees with the state before it |
| Simulation.PlainHistoryExact | internal/httpapi/chat.go:218-296 | without updates, summaries, reasoning ends, per-message usage and closes, the browser holds exactly the server's snapshot |
| Simulation.EmptyArgumentsPart | internal/httpapi/chat.go:324-359 | an event with an empty argument map parts the two reducers on any known tool that has arguments |
| ClientTools.ClientToolTells | web/src/reducer.ts:76-99 | over any history: the browser's tool has the last event's names and state, the last given presentation fields, and all output since the last event that was no update, in order, with its bytes counted |
| ClientTools.ClosedIffTold | web/src/reducer.ts:200-201 | the browser takes a chat for closed exactly after a closing event, with the last one's reason |
| ClientTools.FramesCountOnce | web/src/reducer.ts:113-135 | a snapshot replaces everything, a gap changes nothing, a numbered event counts once, an unnumbered one is applied without being counted |
| EventLog.MoveThenCutIsTrim | internal/httpapi/chat.go:188-191 | the overlapping copy to the front followed by the cut keeps the last entries |
| EventLog.CollectNewer | internal/httpapi/chat.go:399-405 | the replay loop returns the buffered entries after the resume point, in order |
| EventLog.LogIsLastN | internal/httpapi/dashboard_events.go:27-47 | after every history the log is its last N entries, consecutively numbered up to the current number |
| EventLog.ResumeIsExact | internal/httpapi/chat.go:390-405 | a non-zero resume point is refused exactly when it lies beyond the log or a later entry was evicted; otherwise the replay is exactly what came after it |
| EventHub.FanOut | internal/httpapi/chat.go:192-201 | in any subscriber order every channel with room gets the entry, and exactly the full ones are closed and dropped |
| Fanout.NoChannelFault | internal/httpapi/chat.go:444-478 | over every interleaving of publications, unsubscriptions and concurrent closes, no channel is sent to after its close or closed twice; each carries a contiguous run of the history; a listed subscriber has been sent all of it |
| Fanout.ReachableLog | internal/httpapi/chat.go:381-406 | in every reachable state, closed chats included, the log resumes exactly |
| Closing.EachChannel | internal/httpapi/chat.go:178-201 | in every reachable state each step sends to a channel, takes from it or closes it exactly as said: an event if it is listed and has room, the closing event if there is room, a close when it is full, unsubscribes or is finished with |
| Closing.ListedIff | internal/httpapi/chat.go:381-415 | who is on the list after any step: a new subscriber of an open chat, and who was, unless it left, was overrun, or the chat closed |
| Closing.ClosingStarts | internal/httpapi/chat.go:444-468 | a close can be begun and carried through exactly on an open chat; its event joins the history |
| Closing.TellingEnds | internal/httpapi/chat.go:469-478 | telling a subscriber sends it the closing event if there is room, closes its channel, and takes it off the closer's hands |
| Closing.NobodyForgotten | internal/httpapi/chat.go:455-478 | a closer can always go on with whoever is left; once nobody is, every channel of a closed chat is closed |
| Closing.StepsArePossible | internal/httpapi/chat.go:178-415 | in every reachable state anything may be published, a new channel may subscribe, any may be read or unsubscribe |
| EventStreams.EventStream.constructor | internal/httpapi/dashboard_events.go:23-25 | an empty stream |
| EventStreams.EventStream.Publish | internal/httpapi/dashboard_events.go:27-47 | logs and fans out; a closed stream changes nothing; the log stays the last 256 events |
| EventStreams.EventStream.LogLocked | internal/httpapi/plugin_events.go:38-60 | the event gets the next number and the buffer is cut to its last 256 |
| EventStreams.EventStream.Subscribe | internal/httpapi/plugin_events.go:62-85 | a resume point is honoured exactly when nothing after it was evicted, and the replay is exactly what came after it |
| EventStreams.EventStream.Unsubscribe | internal/httpapi/dashboard_events.go:79-86 | removes and closes the channel if it is still registered |
| EventStreams.EventStream.Close | internal/httpapi/dashboard_events.go:88-99 | closes every registered channel once, under the lock |
| EventStreams.CloseEach | internal/httpapi/plugin_events.go:100-110 | the closing loop in any order closes exactly the registered channels |
| Reconnect.ExactlyOnce | internal/httpapi/handlers_events.go:121-177 | over every interleaving of publications, drops, closes, cuts, reconnects and leaving the chat with frames pending, a browser has applied since its last snapshot exactly the events after it up to its own number, each once, in order and unaltered |
| Reconnect.CaughtUp | internal/httpapi/handlers_events.go:143-177 | once everything under way has arrived, a browser whose subscription stands has seen every event |
| Reconnect.BrowserShowsTheServer | web/src/reducer.ts:125-131 | end to end: what the browser shows is in step with what the server knew at the browser's number |
| Reconnect.StepKeeps | internal/httpapi/handlers_events.go:91-186 | every step keeps the log, the channel, the frames under way and the browser's record consistent |
| Delivery.InputsAreEvents | internal/httpapi/chat.go:178-201 | over every run the events of a chat are those published on it while open and its closing events, in order |
| Delivery.StreamWrites | internal/httpapi/handlers_events.go:161-177 | in every reachable state in which the channel holds an entry, the handler's next write is the event that comes next for the subscription, and takes one entry |
| Delivery.StreamAllDrains | internal/httpapi/handlers_events.go:161-177 | the stream steps, left alone, write exactly what draining the channel in one loop returns |
| Delivery.ScheduleCatchesUp | internal/httpapi/handlers_events.go:143-177 | however writes, deliveries and flushes are scheduled, once none has anything left to do a browser whose subscription stands is synced and has seen every event |
| Delivery.SchedulesEnd | internal/httpapi/handlers_events.go:143-177 | no such schedule goes on for ever |
| Delivery.ReconnectSends | internal/httpapi/handlers_events.go:121-156 | in every reachable state a reconnecting browser is first sent exactly the events it missed if the log of the open chat has them all, else a gap and the complete state |
| Delivery.RejoiningCatchesUp | internal/httpapi/handlers_events.go:121-177 | from every reachable state of an open chat, leaving or losing the connection and connecting again is possible and catches up |
| Delivery.StepsArePossible | internal/httpapi/handlers_events.go:91-186 | in every reachable state anything may be published, a chat left, a connection broken or made |
| EventHandlers.Open | internal/httpapi/handlers_events.go:121-156 | subscribing first, then the replay, or a gap and a snapshot: the whole prologue that is written |
| EventHandlers.Drain | internal/httpapi/handlers_events.go:161-171 | the stream loop writes what the channel holds, in order, and nothing else |
| EventHandlers.WriteAllIsPrologue | internal/httpapi/handlers_events.go:143-156 | the interleaved handler steps, left alone, write exactly that prologue |
| MuxCodec.Uint32RoundTrip | internal/stdiomux/mux.go:129-130 | big-endian 32-bit numbers round-trip both ways |
| MuxCodec.ReadLoop | internal/stdiomux/mux.go:121-184 | the loop turns received bytes into the frames, the reason it stopped and the bytes left |
| MuxCodec.ReadBack | internal/stdiomux/mux.go:198-210 | a written frame is read back and what follows is left alone |
| MuxCodec.CutShort | internal/stdiomux/mux.go:124-140 | a frame cut anywhere is waited for and never misread |
| MuxCodec.ParseWritten | internal/stdiomux/mux.go:188-215 | parsing written bytes gives back the written frames |
| MuxCodec.PartialRead | internal/stdiomux/mux.go:121-140 | however the transport splits the bytes, the frames that arrived whole come out and the reader waits for the next |
| MuxCodec.ReadIsEncoded | internal/stdiomux/mux.go:124-140 | what is read as a frame with no payload dropped was that frame's encoding |
| MuxCodec.ReaderGivesUpIff | internal/stdiomux/mux.go:121-184 | the reader gives up exactly on an announced size over 1 MiB, an unknown kind, or an open frame with a payload, and waits exactly while header or payload is incomplete |
| MuxCodec.Chunks | internal/stdiomux/mux.go:356-363 | no chunk is empty or over 1 MiB, and all but the last are full |
| MuxCodec.ChunksJoin | internal/stdiomux/mux.go:356-363 | the 1 MiB chunks of a write of any length join to it |
| MuxCodec.Transport.WriteFrame | internal/stdiomux/mux.go:188-215 | a frame goes out whole, or the transport fails at any byte of header or payload and nothing follows; oversized frames are refused |
| MuxCodec.Transport.Write | internal/stdiomux/mux.go:344-365 | chunk by chunk in order; it succeeds exactly when the transport has room for all of it, else the count is that of the whole chunks sent |
| MuxCodec.Transport.ReaderSeesWholeFrames | internal/stdiomux/mux.go:121-140 | after a failure too the other side reads exactly the frames that went out whole, and waits |
| Mux.PipesParse | internal/stdiomux/mux.go:121-222 | in every reachable state the bytes under way parse to the frames written, in order |
| Mux.BytesConserved | internal/stdiomux/mux.go:249-266 | in either direction and any interleaving: bytes written are those read, then buffered, then under way, while the receiver accepts; all are under way while the open frame is; and for every stream, closed, refused or overflowed too, what was read and buffered are the first bytes written |
| Mux.EndOfFileIsComplete | internal/stdiomux/mux.go:289-304 | at end of file after the peer's close the reader has everything written before it |
| Mux.NoDuplicateIds | internal/stdiomux/mux.go:141-157 | while each side has dialled at most 2^31 times no open frame carries an id its receiver knows, and the duplicate-id shutdown never happens |
| Mux.IdParity | internal/stdiomux/mux.go:72-90 | with 32-bit wrap-around the role fixes the parity of every id |
| Mux.IdsDiffer | internal/stdiomux/mux.go:85-88 | 2^31 successive ids are all different |
| Mux.ClosedStreamsLeave | internal/stdiomux/mux.go:268-280 | a stream leaves the map exactly when both sides have closed, in either order and after an overflow, once no close has its frame outstanding |
| Mux.TakeKeeps | internal/stdiomux/mux.go:78-184 | every move of either end keeps map, ids, conservation, opens and closes consistent |
| MuxDelivery.NothingIsLost | internal/stdiomux/mux.go:78-166 | in every reachable state an opened stream's open frame is under way, or the peer has the stream, or refused it and the refusal is owed, under way or has failed the stream; a close that was written is under way or has arrived where the peer has the stream |
| MuxDelivery.EverythingArrives | internal/stdiomux/mux.go:78-222 | while both ends run and once they have nothing left to do by themselves: every dialled stream has reached the peer or failed, every closed one is remotely closed there, and every byte written has been read or waits in the buffer of a peer that accepts |
| MuxDelivery.TurnsEnd | internal/stdiomux/mux.go:121-222 | however the ends take turns, what they do by themselves comes to an end |
| MuxDelivery.RunIsRemembered | internal/stdiomux/mux.go:78-101 | over every run: bytes written and read, closes, dials, opens and the shutdown are exactly those of the end's own moves |
| MuxDelivery.AcceptedInOrder | internal/stdiomux/mux.go:102-166 | streams are accepted in the order admitted, each once; one is admitted exactly if map and queue have room |
| MuxDelivery.CleanEndIsComplete | internal/stdiomux/mux.go:289-304 | a reader that finds the end of file after a clean close was given every byte written before the peer's close |
| MuxDelivery.ShutdownEndsAll | internal/stdiomux/mux.go:224-238 | in every reachable state in which an end has shut down, its map is empty and every stream it ever had is remotely closed |
| MuxDelivery.MovesArePossible | internal/stdiomux/mux.go:78-109 | while it runs an end may dial up to 2^31 times, and write any chunk on an opened stream; such a stream may be closed and its buffer read |
| MuxObjects.MuxObject.constructor | internal/stdiomux/mux.go:65-76 | the counter starts two below the role, modulo 2^32 |
| MuxObjects.MuxObject.Register | internal/stdiomux/mux.go:85-88 | a dial takes the next 32-bit id and enters a new stream |
| MuxObjects.MuxObject.Dispatch | internal/stdiomux/mux.go:140-183 | the read loop's dispatch of one frame |
| MuxObjects.MuxObject.Accept | internal/stdiomux/mux.go:141-166 | an open frame is entered, or refused by map size or queue, or shuts down on a known id |
| MuxObjects.MuxObject.Take | internal/stdiomux/mux.go:249-266 | data is buffered, dropped, or overflows with a reset owed |
| MuxObjects.MuxObject.PeerCloses | internal/stdiomux/mux.go:268-280 | the remote side closes; the stream leaves the map if the local side had |
| MuxObjects.MuxObject.Shutdown | internal/stdiomux/mux.go:224-238 | the map is emptied and every stream in it fails |
| MuxObjects.MuxObject.FailEach | internal/stdiomux/mux.go:234-236 | the loop, in any order, fails exactly the given streams |
| MuxObjects.MuxObject.CloseHalf | internal/stdiomux/mux.go:367-376 | the locked half of a local close, once |
| MuxObjects.MuxObject.AcceptOne | internal/stdiomux/mux.go:102-109 | accepted streams come out in order |
| MuxStream.StreamObject.constructor | internal/stdiomux/mux.go:117-119 | an open, empty stream with no wake token |
| MuxStream.StreamObject.Signal | internal/stdiomux/mux.go:282-287 | one token at most, and never a block |
| MuxStream.StreamObject.ReceiveLocked | internal/stdiomux/mux.go:250-260 | the lock section: buffers, drops, or overflows at 64 MiB |
| MuxStream.StreamObject.RemoteCloseLocked | internal/stdiomux/mux.go:269-275 | the lock section: closes the remote side and keeps an earlier error; says whether to leave the map |
| MuxStream.StreamObject.CloseLocked | internal/stdiomux/mux.go:368-375 | the lock section: closes the local side once; says whether to announce it and whether to leave the map |
| MuxStream.AcceptIsReceive | internal/stdiomux/mux.go:249-266 | what a data frame does to a stream of an endpoint is what this lock section does, and a reset is owed exactly on overflow |
| MuxStream.HangUpIsRemoteClose | internal/stdiomux/mux.go:268-280 | likewise for a close or reset frame, and the map |
| MuxStream.CloseIsCloseLocal | internal/stdiomux/mux.go:367-376 | likewise for a local close |
| MuxStream.StreamObject.ReadPass | internal/stdiomux/mux.go:290-305 | one pass: data first, then the error, then end of file, else wait; what is handed out is the front of the buffer |
| MuxStream.EofComesLast | internal/stdiomux/mux.go:301-304 | end of file comes only after every accepted byte was read, and nothing is accepted after it |
| MuxStream.ReachableBytes | internal/stdiomux/mux.go:249-305 | accepted bytes are those read, then buffered; the buffer never passes 64 MiB |
| MuxStream.FlagsAreHistory | internal/stdiomux/mux.go:249-287 | over every run: failed exactly after a reset or an overflow, remotely closed exactly after those or a close, locally closed exactly after a local close; the data kept are those that fitted while both sides were open; each of these sends one signal |
| MuxStream.ReadersAreCounted | internal/stdiomux/mux.go:289-342 | a call of Read is looking or parked until it returns or gives up |
| MuxStream.ParkedReaderIsWoken | internal/stdiomux/mux.go:282-342 | in every interleaving a lone parked reader with data, an error or a remote close has a wake token or a signal on its way |
| MuxStream.ReaderReturnsIff | internal/stdiomux/mux.go:289-342 | however the stream's own steps are scheduled, once none is left a lone reader's call has returned if and only if there was something to return: data before an error before end of file |
| MuxStream.InternalStepsEnd | internal/stdiomux/mux.go:282-342 | no schedule of those steps goes on for ever |
| MuxStream.LocalCloseWaitsForPeer | internal/stdiomux/mux.go:367-382 | a local close gives a pending read nothing to return: there is something exactly if the peer has closed since |
| MuxStream.StarvationIff | internal/stdiomux/mux.go:282-342 | wake-ups are never lost if and only if at most one read goes on at a time |
| MuxStream.StarvedIsStuck | internal/stdiomux/mux.go:306-311 | nothing the stream does by itself wakes a starved reader |
| MuxStream.TwoReadersCanStarve | internal/stdiomux/mux.go:306-311 | a concrete run with two readers in which one is starved |
| RunLifecycle.RuntimeChat.constructor | internal/adapter/dagent/chat.go:32-66 | an open idle chat |
| RunLifecycle.RuntimeChat.Begin | internal/adapter/dagent/chat.go:399-407 | the lock section that starts a run: a new generation, busy, no open item |
| RunLifecycle.RuntimeChat.Choose | internal/adapter/dagent/chat.go:361-377 | the first lock section of a send: refused when closed; an idle chat makes every mode normal, a busy one makes normal steer and keeps the others |
| RunLifecycle.RuntimeChat.Send | internal/adapter/dagent/chat.go:353-433 | refused exactly when closed or when the runtime does not take a message to the running turn; an idle chat starts a run, a busy one steers with a normal message, keeps the other named modes, and starts a run only for an unnamed one |
| RunLifecycle.RuntimeChat.SettleFirst | internal/adapter/dagent/chat.go:463-476 | a stale run changes nothing; an open item is taken for its end; without one the chat is idle |
| RunLifecycle.RuntimeChat.SettleSecond | internal/adapter/dagent/chat.go:474-480 | the second lock section of settle |
| RunLifecycle.RuntimeChat.Settle | internal/adapter/dagent/chat.go:463-489 | uninterrupted: a current run ends its open item once and leaves the chat idle, a stale one does nothing |
| RunLifecycle.RuntimeChat.Abort | internal/adapter/dagent/chat.go:516-529 | busy becomes stopping; anything else stays |
| RunLifecycle.RuntimeChat.CloseLock | internal/adapter/dagent/chat.go:748-755 | closes once and makes every run stale |
| RunLifecycle.RuntimeChat.EnsureAssistant | internal/adapter/dagent/normalize.go:332-357 | the open item, or a new one with the next number |
| RunLifecycle.RuntimeChat.CloseAssistant | internal/adapter/dagent/normalize.go:359-367 | ends the open item once, if any |
| RunLifecycle.ReachableOneRun | internal/adapter/dagent/chat.go:353-489 | in every interleaving of the lock sections, with named modes on busy chats, the run invariant holds |
| RunLifecycle.IdleMeansSettled | internal/adapter/dagent/chat.go:463-489 | an open chat is idle exactly when no run of the current generation is unsettled, and never has two |
| RunLifecycle.SettleNeverOverwrites | internal/adapter/dagent/chat.go:463-480 | settle's two halves write only while their run is the newest, and no start is pending |
| RunLifecycle.StatusSays | internal/adapter/dagent/chat.go:399-529 | over every run: a chat that is not idle is stopping exactly if its run was aborted, it names the newest run, and each start and the close is a generation |
| RunLifecycle.CloseStopsSettling | internal/adapter/dagent/chat.go:463-468 | a run under way when the chat was closed settles without a trace, whatever came in between |
| RunLifecycle.ClosedIsQuiet | internal/adapter/dagent/chat.go:452-459 | a closed chat emits nothing and takes no further event |
| RunLifecycle.SecondRunIff | internal/adapter/dagent/chat.go:372-398 | from a busy chat one more send can start a second run if and only if its mode is none of the three named ones |
| RunLifecycle.SecondRunHappens | internal/adapter/dagent/chat.go:372-407 | a concrete run: one message, then one with a mode of its own, and two runs are unsettled |
| RunLifecycle.StartAfterCloseIff | internal/adapter/dagent/chat.go:399-407 | from any open chat: once it is closed a run starts on it if and only if a send was between its two lock sections |
| RunLifecycle.NoStartOnceClosed | internal/adapter/dagent/chat.go:361-407 | if none was, no run starts on the closed chat ever after |
| RunLifecycle.StartAfterCloseHappens | internal/adapter/dagent/chat.go:399-407 | a concrete run: deciding, closing, starting |
| RunLifecycle.HandlerIsPolite | internal/httpapi/handlers_chats.go:343-350 | the HTTP handler lets through exactly the named modes and the empty one, which it turns into a named one |
| Bracketing.NextIdIsNew | internal/adapter/dagent/normalize.go:339-341 | assistant item ids never repeat |
| Bracketing.UserIdIsOther | internal/adapter/dagent/normalize.go:320-328 | a user message's id is never an assistant item's |
| Bracketing.TraceIsBracketed | internal/adapter/dagent/normalize.go:332-367 | in every interleaving with background events that are safe, the emitted trace is well bracketed: opened once with a new id, extended only while open, ended once; when idle nothing is open and every numbered item was opened in order |
| Bracketing.BackgroundIff | internal/adapter/dagent/chat.go:109-116 | an event from outside the run streams is safe in every reachable state of an open chat if and only if it neither opens, extends nor closes an item |
| Bracketing.FoldStreams | internal/httpapi/chat.go:218-247 | folding a bracketed trace leaves the open item the only streaming one |
| Bracketing.AtMostOneStreams | internal/adapter/dagent/chat.go:463-475 | at any moment of any run with safe background events at most one folded message is streaming, and none while the chat is idle |
| Bracketing.ItemShowsItsDeltas | internal/httpapi/chat.go:224-239 | an opened item shows exactly the text and reasoning streamed into it, as long as it is listed |
| Emission.SaysWhatCame | internal/adapter/dagent/normalize.go:18-150 | in every interleaving, an open chat with nothing in hand has emitted every text, thought and user message its runs yielded, once and in order, and every other payload as often as it came |
| Emission.StepsTally | internal/adapter/dagent/chat.go:443-489 | every event yielded is handled once, every payload emitted is one step, every run that began settles once |
| Emission.StepsArePossible | internal/adapter/dagent/chat.go:353-489 | on an open chat a message may be sent, starts a run if the chat is idle, a reading run takes any event, handles it and may end, and the chat may be aborted and closed |
| Emission.OpeningSays | internal/adapter/dagent/normalize.go:332-357 | a choice or thought is announced by a new message exactly if no item is open, with its agent, model and time; the delta is for the item open then |
| Emission.EndingSays | internal/adapter/dagent/normalize.go:45-66 | a user message or tool boundary comes after the end of the open item |
| Emission.UserIdsDiffer | internal/adapter/dagent/normalize.go:320-328 | user messages that share an id have the same position, or both none and the same count |
| Bridge.TwinIff | internal/sessionstorebridge/server.go:135-140 | a request shares its key with one of a shorter id exactly when a space divides its own id |
| Bridge.KeysSeparate | internal/sessionstorebridge/server.go:135-140 | ids without spaces separate all requests |
| Bridge.FirstStatusWins | internal/sessionstorebridge/server.go:55-66 | the first status set stays, and a captured reply always has one |
| Bridge.CaptureIsDescribed | internal/sessionstorebridge/server.go:48-66 | what is captured: all written bytes joined in order, exactly the names set with their last values, and the first status asked for, or 200 |
| Bridge.DescribedOnce | internal/sessionstorebridge/server.go:48-66 | that description fits one reply only |
| Common.TrimSpaceCuts | internal/sessionstorebridge/server.go:135-135 | trimming cuts off blanks only, and all of them at either end |
| Bridge.StoreBridge.constructor | internal/sessionstorebridge/server.go:110-120 | an empty table |
| Bridge.StoreBridge.Enter | internal/sessionstorebridge/server.go:134-153 | a bad id is refused, a retained key waits for its entry, a new one is admitted at the end of the list |
| Bridge.StoreBridge.Complete | internal/sessionstorebridge/server.go:160-166 | publishes the result in the shared entry and prunes |
| Bridge.StoreBridge.Prune | internal/sessionstorebridge/server.go:170-182 | drops finished heads while the list is over 4096 |
| BridgeRuns.PruneCuts | internal/sessionstorebridge/server.go:170-182 | pruning removes only a finished prefix, leaves a full window, and stops at an unfinished head |
| BridgeRuns.HandlerRunsOnce | internal/sessionstorebridge/server.go:140-158 | two executions for one key lie more than 4096 admissions apart, and the first was finished and evicted |
| BridgeRuns.RepliesAgree | internal/sessionstorebridge/server.go:140-168 | requests for one key share an entry unless a full window lies between them; sharing one, their replies are equal |
| BridgeRuns.FinishesOnce | internal/sessionstorebridge/server.go:155-166 | an entry has a result exactly once a step has finished it, one step does, and the result is what its calls left |
| BridgeRuns.RepliesAreDescribed | internal/sessionstorebridge/server.go:140-168 | every reply, first or repeated, is the one described by the calls of the single step that finished its entry |
| BridgeRuns.AnsweredIff | internal/sessionstorebridge/server.go:140-168 | who runs the handler is answered exactly once it has finished, any other exactly once it took the result or was cancelled |
| BridgeRuns.EveryRequestIsKnown | internal/sessionstorebridge/server.go:134-153 | the requests are those made, in order |
| BridgeRuns.StepsArePossible | internal/sessionstorebridge/server.go:134-168 | anything may be asked at any time; a waiter may be cancelled, and takes the result as soon as there is one; an unfinished handler may finish |
| BridgeRuns.EveryRequestIsPlaced | internal/sessionstorebridge/server.go:134-168 | every request is exactly one of answered, waiting or executing; an answer is its entry's result; only a waiter is cancelled |
| BridgeRuns.EvictionIsOrderly | internal/sessionstorebridge/server.go:150-182 | the list is the table's keys in admission order without repeats; what is gone was finished and at least 4096 keys were admitted after it |
| BridgeRuns.WindowIsBounded | internal/sessionstorebridge/server.go:160-182 | after a completion at most 4096 keys remain, or the oldest is unfinished |
| Projection.Sorted | internal/adapter/dagent/tool_presentation.go:187-191 | the keys, each once, in byte order |
| Projection.LeIsByteOrder | internal/adapter/dagent/tool_presentation.go:191-191 | byte order: the first differing byte decides, else the shorter string comes first |
| Projection.BoundedCustomValue | internal/adapter/dagent/tool_presentation.go:162-211 | the recursion over a shared mutable budget returns the projection and leaves its budget |
| Projection.BoundedItems | internal/adapter/dagent/tool_presentation.go:175-185 | the list loop, stopping at 40 entries or an empty budget |
| Projection.BoundedFields | internal/adapter/dagent/tool_presentation.go:192-207 | the object loop, stopping at 40 keys, a key over budget, or an empty budget |
| Projection.BoundedCustomArguments | internal/adapter/dagent/tool_presentation.go:152-160 | every argument object has a projection |
| Projection.ProjectSpends | internal/adapter/dagent/tool_presentation.go:162-211 | the budget never rises; a value costs at least its key and string bytes, save one final ellipsis |
| Projection.ProjectionIsBounded | internal/adapter/dagent/tool_presentation.go:152-218 | the projection of any tree holds at most 16384 + 3 bytes of keys and strings |
| Projection.ProjectionIsShaped | internal/adapter/dagent/tool_presentation.go:162-211 | containers hold at most 40 entries and nest at most five deep; strings and keys are cut to size |
| Projection.SmallTreesUnchanged | internal/adapter/dagent/tool_presentation.go:162-218 | inside the limits a value comes back unchanged and is charged exactly its bytes |
| Projection.SmallArgumentsUnchanged | internal/adapter/dagent/tool_presentation.go:152-218 | an argument tree inside all limits with fewer than 16384 bytes comes back unchanged |
| Projection.RoomyIsIdeal | internal/adapter/dagent/tool_presentation.go:162-218 | with more budget than it costs, any value's projection is the one without a budget: texts and keys cut to size, the first 40 entries of each container, what is too deep or no JSON type left out; and it is charged exactly that cost |
| Projection.ProjectionIsACut | internal/adapter/dagent/tool_presentation.go:162-218 | whatever the budget, texts and keys are fronts of the original ones, items keep their order, and each field is that of its key |
| Projection.TextIsCutAtTheLimit | internal/adapter/dagent/tool_presentation.go:167-171 | a text is cut only where it reaches 4000 bytes or the budget, and charged what is kept |
| SessionForest.Collect | web/src/components/sidebar/sessionTree.ts:26-26 | the nodes are the listed ids, each once |
| SessionForest.CollectIsExact | web/src/components/sidebar/sessionTree.ts:26-26 | they come in the order they are first seen, each with its last summary |
| SessionForest.CollectNodes | web/src/components/sidebar/sessionTree.ts:26-26 | the map-building loop |
| SessionForest.LinkNodes | web/src/components/sidebar/sessionTree.ts:28-32 | the linking loop: every node goes to its parent's children or to the roots, in order |
| SessionForest.SortSiblings | web/src/components/sidebar/sessionTree.ts:33-37 | the recursive sort ends and yields the sorted trees |
| SessionForest.BuildForest | web/src/components/sidebar/sessionTree.ts:25-40 | the three loops together |
| SessionForest.SortSorts | web/src/components/sidebar/sessionTree.ts:34-35 | sorted starred first, then newest first |
| SessionForest.SortIsStable | web/src/components/sidebar/sessionTree.ts:33-37 | sessions that are tied keep the order they had |
| SessionForest.ForestIsExact | web/src/components/sidebar/sessionTree.ts:25-40 | for any list a session appears exactly once if its parent chain reaches a root, and never if the chain only cycles |
| SessionForest.ForestInOrder | web/src/components/sidebar/sessionTree.ts:28-40 | every sibling list is sorted, under the parent its members name |
| SessionForest.TopLevelIff | web/src/components/sidebar/sessionTree.ts:28-32 | a session stands at top level exactly if it is listed and its last summary is starred, names no parent, an unlisted one, or itself |
| SessionForest.GroupByDay | web/src/components/sidebar/sessionTree.ts:42-51 | the grouping loop |
| SessionForest.GroupingIsExact | web/src/components/sidebar/sessionTree.ts:42-51 | titles differ, each group is exactly that day's roots in order, and together the groups are the roots |
| SessionForest.GroupsInOrder | web/src/components/sidebar/sessionTree.ts:42-51 | the groups stand in the order in which the forest first has their day |
| Workspaces.Service.constructor | internal/workspaces/service.go:37-42 | an empty service; the stored history is read next |
| Workspaces.Service.LoadHistory | internal/workspaces/service.go:227-273 | the loading loops: an unreadable file or one over 64 KiB leaves nothing, else resolved hints, and folders with known paths only |
| Workspaces.Service.LoadFoldersInto | internal/workspaces/service.go:256-272 | the folder loop, skipping blank names and stopping at 50 |
| Workspaces.Service.KeepKnown | internal/workspaces/service.go:263-269 | known paths, each once over all folders |
| Workspaces.Service.RememberLocked | internal/workspaces/service.go:185-203 | the path moves to the front, the rest keep their order, at most ten remain |
| Workspaces.Service.Open | internal/workspaces/service.go:46-63 | an unresolved path changes nothing; a known one returns its entry; a new one adds exactly one |
| Workspaces.Service.Remove | internal/workspaces/service.go:78-99 | takes the path out of hints and folders, even if storing then fails; an unlisted path changes nothing |
| Workspaces.Service.Keep | internal/workspaces/service.go:166-174 | the paths other than one, in order |
| Workspaces.Service.RemovePathFromFoldersLocked | internal/workspaces/service.go:165-175 | every folder loses that path and nothing else |
| Workspaces.Service.UpdateFolders | internal/workspaces/service.go:113-154 | all folders are replaced or, with the first fault, none |
| Workspaces.Service.MarkPaths | internal/workspaces/service.go:135-143 | accepted exactly while every path is known and unseen |
| Workspaces.HintsAreRecent | internal/workspaces/service.go:185-203 | over any run of opens the hints are the first ten of all distinct paths by latest open |
| Workspaces.RecentIsByLastOpen | internal/workspaces/service.go:25-26 | that reference list has exactly the opened paths, once each, later opens first |
| Workspaces.RunsKeepTidy | internal/workspaces/service.go:46-203 | over any run of opens, removals and updates, hints stay distinct and at most ten and no path is in two folders or twice in one |
| Workspaces.UpdateIff | internal/workspaces/service.go:113-154 | an update is taken exactly when ids, names, paths and count are in order and it can be stored; it then replaces all folders, trimmed |
| Workspaces.RemovalIff | internal/workspaces/service.go:78-99 | a removal takes a path out of every folder if and only if the path is a hint or in no folder |
| Workspaces.RemovalSays | internal/workspaces/service.go:78-99 | removing a hint leaves the other hints and the other paths of every folder as they were; anything else changes nothing |
| Workspaces.PushedOff | internal/workspaces/service.go:78-203 | from an empty service: open a project, put it in a folder, open any ten others; it is in its folder, no hint, and removing it changes nothing |
| Workspaces.PushedOffHappens | internal/workspaces/service.go:78-203 | a concrete such run |
| Workspaces.ReloadIff | internal/workspaces/service.go:227-298 | storing and reading back restores hints and folders if and only if they are empty, or the text fits in 64 KiB and every folder path is still a hint |
| Workspaces.LoadSays | internal/workspaces/service.go:227-273 | of any stored file that is read: the first ten projects that still resolve, and the first fifty folders with an id and a name, each with those of its paths that are projects and in no folder before it |
| Workspaces.LongHistoryIsLost | internal/workspaces/service.go:283-290 | from an empty service: ten paths of 4000 bytes, all in one folder; the next start loads nothing |
| PaneLayout.RemoveUndoesSplit | web/src/components/shell/paneLayout.ts:13-27 | removing a fresh pane undoes the split that made it, whatever else the tree holds |
| PaneLayout.SplitAdds | web/src/components/shell/paneLayout.ts:13-20 | one new leaf and one new divider for every leaf aimed at, and nothing else |
| PaneLayout.SplitShows | web/src/components/shell/paneLayout.ts:13-20 | the new pane stands right behind the one aimed at, with a divider in the middle in the direction asked for |
| PaneLayout.RemoveTakesOne | web/src/components/shell/paneLayout.ts:22-27 | removing a leaf below a split takes out that leaf and no other |
| PaneLayout.RemoveShows | web/src/components/shell/paneLayout.ts:22-27 | the other panes keep their order, all dividers but one stay as they were |
| PaneLayout.ResizeKeeps | web/src/components/shell/paneLayout.ts:29-33 | resizing changes no id, and keeps sizes within 20 to 80 |
| PaneLayout.DragShows | web/src/components/shell/Dashboard.tsx:303-310 | the divider of that id ends at the wanted percentage, or at the nearer end of 20 to 80; nothing else moves |
| PaneLayout.OpenIff | web/src/components/shell/Dashboard.tsx:224-233 | opening keeps leaves and panes in step exactly when it is aimed at a leaf; ids stay unique either way |
| PaneLayout.CloseIff | web/src/components/shell/Dashboard.tsx:266-271 | closing keeps them in step exactly when it is not the primary pane with others open |
| PaneLayout.RunsKeepLayout | web/src/components/shell/Dashboard.tsx:224-310 | over every run of opens, closes, resizes and collapses, leaf ids are distinct and are the primary pane and the open panes, divider ids are unique and sizes lie from 20 to 80 |
| PaneLayout.PanesAreOpen | web/src/components/shell/Dashboard.tsx:224-271 | over every run the listed panes are those opened and not closed since, in order, numbered as opened |

## Left out

- RunLifecycle.RuntimeChat.Send: strings its lock sections together without interruption; `RunLifecycle.Next` lets everything else happen between them.
- RunLifecycle.RuntimeChat.Settle: likewise; the mid-way unlock is two steps of `RunLifecycle.Next`.
- MuxObjects.MuxObject.CloseHalf: the close frame and the removal that follow it are the step `CloseWrite` of `Mux.Step`.
- Bracketing.TraceIsBracketed: background events are the safe ones of `Bracketing.BackgroundIff`, and a run that fails is taken to end between two events, not within one.
- Bracketing.AtMostOneStreams: likewise; `Bracketing.BackgroundIff` shows which background events break it.
- Mux.BytesConserved: streams are numbered by at most 2^31 dials a side, the range in which ids do not repeat.
- Blank user messages and those of another session, which the adapter ignores, and blanks outside ASCII, which trimming would also cut.
- HTTP plumbing, access control, SSE text and JSON text: a connection is an ordered sequence of frames that can be cut at any point. JSON replaces a rune that the preview clamp cuts in half; here the bytes stay.
- An item's identity is a tagged pair of kind and id. The two programs spell it as a one-letter kind, a colon and the id; items and events whose payload is missing are `Bare` events that change nothing.
- Fetching a snapshot of a chat before it is opened.
- Attachments, the index-change callback, the registry of chats, and resuming a chat in a second runtime.
- Restarts of the server, after which sequence numbers start again and a resume point may belong to an earlier log.
- The plugin hub's map from plugin ids to streams and its shared lock: one stream is modelled, and streams do not affect each other.
- Events that the adapter drops when its channel is full, and queue contents in the run status: traces are before that drop.
- The agent runtime, the session store and its handlers: arbitrary event streams and arbitrary sequences of calls on a response writer. A handler that never returns is one that never takes its finishing step.
- Deadlines, timers, heartbeats and backoff: only the step that a timeout leads to, at any time.
- Built-in tools' purpose-built argument projections, which copy named fields.
- Locale collation and day titles: a rank of dates and a title function, both arbitrary.
- Resolving, persisting and labelling workspace paths: a resolution that may fail, a store that may fail, a stored text that decodes to itself; labels are a function of the path.
- Pointer positions divided by a zero-sized container, for which the browser's arithmetic yields a size that is not a number.
