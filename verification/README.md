# Verified model of the agent-server client

This project models the stateful core of a Go client for a JSON-RPC 2.0 agent server and proves what
that core keeps in every run.

* **Transport** (`Transport`, `SessionProtocol`, `SessionSafety`, `SessionRuns`, `SessionIsolation`,
  `SessionLandings`, `SessionLoss`, `SessionProgress`). `JSONRPCTransport` as a class with its critical sections, and as a transition system
  in which any number of `Call`, `readLoop`, `Reconnect`, `Close` and `Reply` executions interleave. Each
  critical section under `mu` is one step, and its effect on the shared fields is one function of
  `Transport` used by both. The unlocked channel send, the wire write, every iteration of a flush loop and
  the late `removePending` are separate steps. Ids and response matching are those of section 4 and
  section 5 of the JSON-RPC 2.0 Specification.
* **WebSocket transport** (`WebSocket`, `WebSocketProtocol`, `WebSocketProgress`). The one-session sibling: ids never restart, and several
  `terminate` executions may run at once.
* **Event broker and streaming** (`EventBroker`, `TurnEvents`, `Streaming`). A fan-out of bounded queues
  against an append-only log, and `RunStreamed` on top of it.
* **Output** (`Jsonx`, `TextOutcomes`, `Collector`, `Captures`, `FinalTexts`, `Wait`, `OutputWait`). Text extraction from
  JSON trees and all it can give under any map iteration order, the item merge with its id index, the output
  collector, the two ways to a turn's final text, and the two waits for a turn.
* **Thread slots, retry, items** (`ThreadSlots`, `Retry`, `ItemCodec`).

Code that updates state in place is a class or a loop here too, specified by a function on values; the
results are lemmas about those functions and about all runs built from them. A run is a sequence of
states in which each follows from the previous one by a step; all run theorems are about every state of
every run.

## What the proofs found

* A call left over from an old session deletes by id only, so after a `Reconnect` it can delete a new
  call's entry. `SessionLoss.LostCall` is such a run, and `SessionLoss.NoLostCalls` says this is the only way.
  A lost call then waits, unanswered, until its context ends, its write fails or Close has closed `done`
  (`SessionLoss.LostForGood`).
* The session checks of `deliverRequest` and `deliverNotification` do not cover the send, so an old session's
  message can land after a `Reconnect` (`SessionLandings.StaleNoteCanLand`). It does so exactly when a
  `Reconnect` overtakes its reader between check and send, and being overtaken is enough
  (`SessionLandings.StaleLandings`, `SessionLandings.OvertakenLands`). Responses, replies and session ends do
  not have that weakness (`SessionRuns.Correlation`, `SessionIsolation.RepliesStayHome`,
  `SessionIsolation.StaleReaderIsHarmless`).
* The comment on `Run` (thread.go:109-111) says it blocks until the turn is terminal. The code returns
  whatever it reads after a `turn/completed` event, or while it waits for items to settle.
  `OutputWait.ReturnsEndedTurnsExactly` gives the exact condition on the server.
* Only the first read of each turn of that loop counts towards its limit of transient failures
  (`OutputWait.GivesUpAfterFive`), while `WaitForTurn` counts the reads of both places.
* `RunStreamed` subscribes after `TurnStart` returns, unlike `Run`. In every run the matching events published
  in between are exactly what is missing from the start of its stream, so a stream that ends is complete if and
  only if there are none, as long as they do not end the turn already (`Streaming.MissedExactly`).
  `Streaming.EarlyEventIsMissed` is a run in which the one event that ends the turn comes too early.
* `mergeItems` keeps repeated ids of the first list it is given; the condition is `Collector.MergeIsLinear`.
* `FinalAgentText` can miss a text that `finalAgentMessage` finds, and a payload with several texts under
  ordinary keys makes both depend on Go's map order. `FinalTexts.PathsAlwaysAgree` gives the exact condition
  on the payloads; `FinalTexts.PathsCanDisagree` and `FinalTexts.OrdersCanDisagree` are runs of the two kinds.
* `Item.UnmarshalJSON` keeps the receiver's old id when the object has none
  (`ItemCodec.DecodeIgnoresReceiver`).

## Model

| member | source | states |
|---|---|---|
| Transport.Flush | internal/transport/transport.go:344-349 | Over a table of distinct empty channels, every channel gets exactly the flush error; no send meets a full buffer |
| Transport.JSONRPCTransport.RegisterCall | internal/transport/transport.go:255-269 | Fails on a closed transport before it fails on a missing connection; otherwise takes the next id and adds one fresh empty channel under it, over no other call's entry unless the 64-bit counter wraps |
| Transport.JSONRPCTransport.RemovePending | internal/transport/transport.go:526-530 | Deletes the entry under the id, whoever owns it, and nothing else |
| Transport.JSONRPCTransport.DeliverResponse | internal/transport/transport.go:474-494 | A closed or later session changes nothing; an unknown id is dropped; a known one, the newest or not, leaves the table, which is otherwise unchanged, and its channel holds exactly the response |
| Transport.JSONRPCTransport.HandleSessionEnd | internal/transport/transport.go:496-518 | Only the current session drops the connection, empties the table into ErrDisconnected results and ends its context |
| Transport.JSONRPCTransport.Close | internal/transport/transport.go:325-352 | The first Close answers every pending call with ErrClosed, ends the context and closes done; later ones change nothing |
| Transport.JSONRPCTransport.Reconnect | internal/transport/reconnect.go:10-60 | On success: new connection, ids restart at zero, the session number grows, every pending call gets ErrDisconnected, the old context ends; each failure leaves the state alone |
| Transport.Request.Reply | internal/transport/transport.go:104-129 | The first reply goes to replyCh if there is one; else, whatever is pending, it writes one envelope to the connection if the request's session is current and connected, and writes nothing and names the reason if not; later ones change nothing |
| Transport.Request.ReplyError | internal/transport/transport.go:131-164 | Likewise for an error reply; error data that cannot be encoded uses up the reply without writing |
| SessionSafety.RunInv | internal/transport/transport.go:242-295 | In every state of every run the whole invariant of table, calls, connections, channel holders and answers holds |
| SessionRuns.Correlation | internal/transport/transport.go:474-494 | A response a call returns carries its id, was decoded by the reader of the session the call registered in, on the connection the call wrote to |
| SessionRuns.LinearOwnership | internal/transport/transport.go:344-349 | A reply channel gets at most one value and has at most one holder; sends find room, and the default branches of all flush loops are never taken |
| SessionRuns.PendingTable | internal/transport/transport.go:255-269 | Pending ids lie in 1..nextID and belong to calls of the current session; no connection or a closed transport means an empty table; a fresh id overwrites nothing |
| SessionRuns.SessionNeverDecreases | internal/transport/reconnect.go:39-40 | The session number never goes down along a run |
| SessionIsolation.RepliesStayHome | internal/transport/transport.go:532-554 | Over a run, at most one reply envelope per inbound request, and only on the connection it arrived on |
| SessionIsolation.ContextsFollowSessions | internal/transport/transport.go:354-373 | A session's context is ended, or about to be, exactly when the session is over |
| SessionIsolation.StaleReaderIsHarmless | internal/transport/transport.go:496-518 | No step of an old session's reader changes a shared field, ends a context, starts a flush or touches a call of the current session |
| SessionLandings.StaleLandings | internal/transport/transport.go:444-472 | A request or notification is sent on although its check would fail by now exactly when a Reconnect or Close overtook its reader between check and send, and lands in another session exactly when a Reconnect did |
| SessionLandings.OvertakenLands | internal/transport/transport.go:451-456 | From being overtaken until the reader moves, the send is possible and adds the old session's message |
| SessionLandings.StaleNoteCanLand | internal/transport/transport.go:459-472 | A run in which a notification of session 1 is delivered during session 2 |
| SessionLoss.StepLoss | internal/transport/transport.go:526-530 | A step leaves a waiting call without anybody to answer it exactly when it is a removal by a call of an older session that has the same id |
| SessionLoss.NoLostCalls | internal/transport/transport.go:271-294 | A run loses no call exactly when none of its steps is such a removal |
| SessionLoss.NoStuckCall | internal/transport/transport.go:276-294 | In a run without such removals every waiting call has its answer, a sender about to act for it, or a place in the table of a connection that has, or is about to get, a reader |
| SessionLoss.LostCall | internal/transport/reconnect.go:34-40 | A run in which the restart of ids loses a call |
| SessionLoss.LostForGood | internal/transport/transport.go:276-294 | A lost call stays waiting and unanswered at every later point of a run until its context ends, its write fails or done is closed |
| SessionProgress.RouteEffect | internal/transport/transport.go:474-494 | A reader that looks up a response stops in a closed or later session, reads on for an unknown id, and for any pending id holds that call's channel and exactly that response |
| SessionProgress.AnswerArrives | internal/transport/transport.go:276-294 | In every state of every run, for a waiting call in the table whose reader is reading, the response with its id makes that call return exactly it, whatever else is pending, and deletes only its entry |
| SessionProgress.FailureArrives | internal/transport/transport.go:344-349 | A waiting call whose channel is being flushed can be sent its error, and then returns ErrClosed after a Close and ErrDisconnected after a Reconnect or a broken session |
| SessionProgress.ErrorsFitTheirCause | internal/transport/transport.go:325-352 | In every run a flush by Close carries ErrClosed, and one by Reconnect or a session end carries ErrDisconnected |
| SessionProgress.ReplyReachesWire | internal/transport/transport.go:532-554 | In every run an unanswered request of the current connected session can be replied to whatever is pending, and the envelope goes out on the connection of that session |
| SessionProgress.ReturnsWhatItReceives | internal/transport/transport.go:280-289 | Whenever a call of a run receives, it returns exactly what its channel held |
| SessionProgress.ReaderIsNeverStuck | internal/transport/transport.go:375-442 | In every state of every run a live reader can take its next step, and a delivery never blocks |
| SessionProgress.SwapEffect | internal/transport/reconnect.go:25-60 | A Reconnect is possible exactly with an opener on an open transport; it installs the connection, restarts the ids, raises the session number and detaches the whole table for flushing |
| WebSocket.WebSocketTransport.RegisterCall | internal/transport/websocket.go:211-229 | Fails when done; otherwise takes the next id and adds one fresh empty channel under it, over no other call's entry unless the 64-bit counter wraps |
| WebSocket.WebSocketTransport.DeliverResponse | internal/transport/websocket.go:180-194 | An unknown id is dropped; a known one, the newest or not, leaves the table and its channel holds exactly the response |
| WebSocket.WebSocketTransport.Terminate | internal/transport/websocket.go:300-313 | Every pending call gets ErrClosed, the table is empty and done is closed, however often it runs |
| WebSocket.WebSocketTransport.Close | internal/transport/websocket.go:286-298 | Terminates the first time and changes nothing once done |
| WebSocketProtocol.RunInv | internal/transport/websocket.go:224-256 | In every state the table, holder, answer and reader invariants hold and no waiting call is lost |
| WebSocketProtocol.Correlation | internal/transport/websocket.go:180-194 | A response a call returns carries its id and was decoded from the connection |
| WebSocketProtocol.LinearOwnership | internal/transport/websocket.go:300-313 | One holder and one value per reply channel, also with several terminates at once; sends find room and the default branch is never taken |
| WebSocketProtocol.RemovalIsOwn | internal/transport/websocket.go:315-319 | removePending only ever deletes the entry of the call that runs it |
| WebSocketProtocol.NoStuckCall | internal/transport/websocket.go:300-313 | In every run each waiting call has its answer, a sender holding its channel, or a table entry while the reader or an unfinished terminate remains |
| WebSocketProgress.RouteEffect | internal/transport/websocket.go:180-194 | A response with any pending id puts the reader at the delivery of that very call and response; an unknown id is skipped |
| WebSocketProgress.AnswerArrives | internal/transport/websocket.go:231-256 | In every state of every run, for a waiting call in the table and a reading reader, the response with its id makes that call return exactly it, whatever else is pending |
| WebSocketProgress.FailureArrives | internal/transport/websocket.go:300-313 | A waiting call whose channel a terminate has detached can be sent ErrClosed, and then returns it |
| EventBrokers.RefinesLogInEveryRun | events.go:349-411 | What a subscriber has read plus its buffer is the log since its subscription while live, and a gap-free prefix of that afterwards |
| EventBrokers.ChannelSafety | events.go:370-411 | A channel is open exactly when it is subscribed, under one id only; buffers stay within 128; a closed broker has no subscribers |
| EventBrokers.ClosedIsFinal | events.go:379-383 | A closed channel is never reopened or sent on again |
| EventBrokers.IdsAreNeverReused | events.go:358-360 | Two Subscribe calls of a run never hand out the same id |
| EventBrokers.IdNamesOneQueue | events.go:358-367 | An id names the queue its Subscribe made for ever, so a late or repeated unsubscribe touches no other subscriber |
| EventBrokers.UnsubscribedForGood | events.go:401-411 | Over every run, once an id has been unsubscribed its channel is closed for ever, and its subscriber can read what was buffered and no more |
| EventBrokers.PublishReaches | events.go:370-385 | Over every run, a publish appends the event to every subscriber whose buffer has room and keeps it, and closes and removes every other |
| EventBrokers.EventBroker.TrySend | events.go:378-383 | Is only called on an open channel; accepts exactly while the buffer has room |
| EventBrokers.EventBroker.CloseChannel | events.go:395-398 | Is only called on an open channel, so no channel is closed twice |
| EventBrokers.EventBroker.Subscribe | events.go:349-368 | A new queue that starts at the end of the log; on a closed broker it is closed and has no id |
| EventBrokers.EventBroker.Publish | events.go:370-385 | In any iteration order: every subscriber with room gets the event, every full one is closed and removed |
| EventBrokers.EventBroker.Close | events.go:387-399 | In any iteration order: every subscriber's channel is closed once and the table is empty |
| EventBrokers.EventBroker.Unsubscribe | events.go:401-411 | If the id is in the table, its channel is closed with what it has buffered and the entry is removed, and nothing else changes; if not, nothing does |
| EventBrokers.EventSubscription.Close | events.go:330-336 | Unsubscribes the first time and does nothing after that |
| TurnEvents.MatchesWhatItNames | wait.go:143-214 | An event matches exactly when it has a scope and contradicts neither the thread nor the turn, where a turn id that is all space is read from the turn it carries, and parameters that did not decode may name neither |
| TurnEvents.StreamExtends | thread.go:196-221 | A longer log only extends the stream, and not at all once it has ended |
| TurnEvents.StreamIsCut | thread.go:204-219 | The stream is the matching events in order, cut just after the first turn/completed or error |
| TurnEvents.StreamSplits | thread.go:204-219 | A stream that has not ended goes on with the stream of the later events |
| TurnEvents.EmptyStream | thread.go:204-206 | A stream is empty exactly when no event matches |
| TurnEvents.StreamSkips | thread.go:204-206 | Events of other turns leave no trace in the stream |
| Streaming.StreamsAreCorrect | thread.go:176-225 | What a stream sent is a prefix of the matching events since its subscription, cut after the first ending event, and all of it if it ended that way |
| Streaming.WhyItStops | thread.go:196-221 | In every run a stream that has stopped receiving has sent the event that ends its turn, or its context was done, or it saw its queue closed and has sent the whole stream of everything that queue ever got |
| Streaming.SendsAllItReads | thread.go:196-221 | In every run a stream that receives has sent the stream of all it has read, and one that is sending lacks just the event at hand |
| Streaming.SubscriptionIsGivenUp | thread.go:189-195 | In every run a stream's subscription is closed and out of the table before its output channel is closed |
| Streaming.StreamsNeverOverlap | thread.go:191-194 | At most one stream or Run of a thread is active; every stream that subscribed has closed its output channel exactly once when it releases the mutex, and sends nothing after the close |
| Streaming.MissedExactly | thread.go:182-221 | The stream of everything since the start is the matching events of the gap before the subscription, and then, unless one of them ends the turn, the stream since the subscription; so a stream that ends has sent it all if and only if no event of the gap matches |
| Streaming.NothingMissed | thread.go:182-189 | When no event of the gap matches, what the stream sends is at all times a prefix of the stream of everything since its start, and all of it once it ends |
| Streaming.EarlyEventIsMissed | thread.go:182-189 | A run in which the matching event published in between never reaches the stream |
| Jsonx.JsonFenceIsRemoved | internal/jsonx/jsonx.go:104-111 | A document in a json fence loses exactly its fence and the surrounding space if and only if it does not itself start with three backquotes |
| Jsonx.PlainFenceIsRemoved | internal/jsonx/jsonx.go:104-111 | Likewise in a plain fence, if and only if the document does not start with the word json |
| Jsonx.UnfencedIsKept | internal/jsonx/jsonx.go:104-111 | A document with three backquotes at neither end is only trimmed |
| Jsonx.TrimCutsSpace | internal/jsonx/jsonx.go:104-111 | Trimming cuts off space at the two ends and nothing else |
| Jsonx.FirstVisible | internal/jsonx/jsonx.go:122-130 | The first value that is not all space is returned untrimmed |
| Jsonx.ExtractIsFaithful | internal/jsonx/jsonx.go:47-72 | The result is "" exactly when every string leaf strips to "", and is otherwise some stripped leaf |
| Jsonx.EmptinessIgnoresOrder | internal/jsonx/jsonx.go:65-69 | Whether anything is found does not depend on map iteration order |
| Jsonx.ExtractIsTrimmed | internal/jsonx/jsonx.go:49-51 | The result has no space at either end |
| Jsonx.LastElementWins | internal/jsonx/jsonx.go:52-57 | In an array the last element with any text decides |
| Jsonx.PreferredKeyWins | internal/jsonx/jsonx.go:58-64 | In an object the first preferred key with any text decides, whatever the iteration order |
| TextOutcomes.OutcomesAreExact | internal/jsonx/jsonx.go:47-72 | The set computed from the tree alone is exactly the set of texts that extraction gives over all map iteration orders |
| TextOutcomes.SettledExactly | internal/jsonx/jsonx.go:65-69 | Extraction ignores map order exactly when that set has one text |
| TextOutcomes.ObjectIgnoresOrder | internal/jsonx/jsonx.go:58-69 | Extraction from an object without preferred text ignores map order exactly when its members, extracted on their own under any orders, have no two different texts |
| Collector.MergeItems | output.go:292-314 | The loop with its id-to-index map and in-place replacement computes the linear-search merge, or the incoming list when there was none |
| Collector.MergeKeepsPositions | output.go:302-313 | Existing ids keep their positions and the list never shrinks |
| Collector.MergeIsLinear | output.go:293-295 | The merge is the linear-search merge exactly when there are existing items or no non-empty incoming id repeats |
| Collector.RemergeIsIdle | output.go:302-313 | Merging the same list again changes nothing exactly when all its ids are non-empty |
| Collector.LatestInMerge | output.go:292-314 | For every non-empty id the merge ends with the version that plain appending would leave last |
| Collector.MostRecentVersion | output.go:135-171 | After any captures the last occurrence of a non-empty id in the collector is the version observed most recently, and it is there exactly when it was observed |
| Collector.CaptureEffect | output.go:135-171 | What each kind of capture does to turn, items, payloads, deltas and usage: what is added goes at the end, and the rest is kept |
| Captures.CapturedInOrder | output.go:135-171 | After any captures the deltas and the payloads are those of all captures in the order made |
| Captures.LatestIsKept | output.go:135-171 | After any captures the turn and the usage are those captured last |
| Captures.LastAgentMessageWins | turn.go:33-46 | The last agent message with text decides the agent text, and without any there is none |
| Captures.LastPayloadWins | output.go:248-254 | The last payload with text decides the payload text |
| Captures.FinalMessageOf | output.go:229-255 | After any captures the message is the turn's agent text, else the collected one, else all deltas ever captured spelled out in order, else the last captured payload with text |
| Captures.FinalAgentTextOf | turn.go:28-51 | The text of a result is its own agent text, else the turn's, both already trimmed, else the trimmed deltas |
| Captures.RunResultOf | thread.go:137-161 | The result keeps the turn's own items and usage where it has any, and spells out the deltas exactly when there is no agent text |
| FinalTexts.PathsAlwaysAgree | output.go:229-255 | FinalAgentText of Run's result equals the trimmed finalAgentMessage under all map iteration orders of the scans exactly under a condition on the payloads, deltas and lists |
| FinalTexts.PathsAgree | thread.go:137-161 | The same for given orders of each scan |
| FinalTexts.PathsAgreeOnCaptured | turn.go:28-51 | When the turn has no items or has agent text, and an agent text or a delta was captured, they agree under all orders exactly when that agent text is settled |
| FinalTexts.PathsCanDisagree | thread.go:137-140 | A turn that lists only another item hides a message the collector saw |
| FinalTexts.OrdersCanDisagree | internal/jsonx/jsonx.go:65-69 | An agent message with two texts under ordinary keys gives different texts under two orders |
| Collector.ScanAgentText | turn.go:33-46 | The backward loop finds the text of the last agent message that has any |
| Collector.OutputCollector.CaptureTurn | output.go:135-147 | Stores the turn, merges its items and keeps every non-empty payload in order |
| Collector.OutputCollector.CaptureEvent | output.go:149-171 | Each event kind changes exactly the fields it should |
| Collector.OutputCollector.Message | output.go:229-255 | Turn items, then collected items, then deltas, then payloads, latest first |
| Wait.LastTurnHasId | wait.go:135-140 | A turn is found exactly when one has the id, and the one found has it |
| Wait.ReadsInOrder | wait.go:70-119 | The reads follow the iterations of the loop, up to the one whose select sees the context end |
| Wait.ReadsOfRound | wait.go:70-119 | An iteration reads once, and a second time exactly after a matching turn/completed, item/completed or item/started event |
| Wait.SettlesWhen | wait.go:71-86 | A read settles the wait exactly when it finds a completed, failed or interrupted turn, is a hard error, or fails transiently after four others in a row |
| Wait.ReadTurn | wait.go:121-141 | The backward scan returns the last turn with the id; a thread that is not materialized counts as no turn, and which other errors are transient is decided by their text, status and kind |
| Wait.Check | wait.go:71-86 | The counter is the length of the trailing run of transient failures, and the check returns exactly when the reads are settled |
| Wait.WaitForTurn | wait.go:43-119 | Goes through the reads of both check sites and stops at the first terminal turn, hard error or fifth transient failure in a row; a success is a terminal turn with the requested id |
| OutputWait.ReturnedItemsAreCollected | output.go:52-120 | Every named item of a returned turn is in the collector, in the version observed last |
| OutputWait.GivesUpAfterFive | output.go:77-85 | A wait that is still going gives up next exactly when that first read is the fifth in a row to fail transiently |
| OutputWait.OneMoreTurn | output.go:62-120 | What any turn of the loop does to any wait still going: it settles on an ended turn, fails on a hard error or the fifth transient failure, else does what its select says; after a matching turn/completed it returns the turn it reads again, else the event's own |
| OutputWait.SettlesAtOnce | output.go:87-103 | An ended turn is returned as read, with the pending matching events captured in order, unless it completed and neither it nor any event brought anything |
| OutputWait.EmptyTurnIsReadAgain | output.go:176-198 | An empty completed turn is read again up to three times, and the first read that finds items or usage is returned in its place |
| OutputWait.ReturnsEndedTurnsExactly | output.go:105-116 | Over the events the decoder produces, only ended turns are returned if and only if every turn the server gives after reporting the turn over has ended |
| OutputWait.CapturePendingEvents | output.go:206-224 | Captures the matching pending events, in order, and no other |
| OutputWait.RetryReadTurnForItems | output.go:176-198 | At most three attempts; returns the last turn read, and stops once anything was captured |
| OutputWait.WaitForTurnOutputSub | output.go:52-120 | The loop ends as specified, and its collector holds exactly the captures made in order |
| ThreadSlots.SlotsAreConserved | client.go:338-399 | Occupied slots are the starts in flight, the sessions not closed and the releases begun but not done, never above the limit; however often Close is called, each is given back at most once, only after a failed start or a Close, and the default branch of release is never taken |
| ThreadSlots.EndedIsGivenBack | client.go:338-399 | Over every run, a failed start, a failed first turn and a Close each end their slot, and it can then be given back at once |
| ThreadSlots.ThreadSem.Acquire | client.go:384-399 | Takes a slot exactly when one is free; a nil semaphore has no limit |
| ThreadSlots.SessionThread.Close | thread.go:96-102 | Gives the slot back the first time and does nothing after that |
| ThreadSlots.StartThread | client.go:338-357 | A slot stays taken exactly when a session is returned, whatever fails |
| Retry.WithDefaults | internal/transport/retry.go:32-50 | Every setting becomes positive: each positive setting is kept whatever the others are, and every other takes its own default |
| Retry.BackoffBound | internal/transport/retry.go:90-101 | A delay is at least zero and at most (1+Jitter) times the capped exponential |
| Retry.BackoffRange | internal/transport/retry.go:90-101 | A delay is also more than (1-Jitter) times min(BaseDelay*M^k, MaxDelay) less one nanosecond |
| Retry.BackoffIs | internal/transport/retry.go:90-101 | The delay as a function of the random number, in plain arithmetic, cut to whole nanoseconds and at zero |
| Retry.RawSumIs | internal/transport/retry.go:91 | The sum of the uncapped delays, times M-1, is BaseDelay*(M^k-1) |
| Retry.Widen | internal/transport/retry.go:73-87 | Any number of delays the loop can make stays within both bounds for MaxAttempts |
| Retry.Call | internal/transport/retry.go:68-88 | Calls until the first success or error not worth retrying, at most MaxAttempts times and cut short only by the context; the total wait is the sum of the back-offs made, plus a cut one, and within (1+Jitter) times both bounds |
| ItemCodec.DecodeAfterEncode | internal/protocol/item.go:33-50 | Encoding fails exactly on a payload that is not an object; decoding gives the item back exactly when its payload has no "id" or "type" key and no old id shows through |
| ItemCodec.EncodeAfterDecode | internal/protocol/item.go:52-84 | An object survives exactly when "type" is a string and "id" is a non-empty string, or missing with no old id |
| ItemCodec.DecodeIgnoresReceiver | internal/protocol/item.go:58-69 | Which objects fail to decode; the receiver's old contents show exactly when the object decodes and leaves "type" or "id" unset |
| ItemCodec.ItemRecord.MarshalJSON | internal/protocol/item.go:33-50 | The loop over the payload's keys, in any order, writes the encoded object |
| ItemCodec.ItemRecord.UnmarshalJSON | internal/protocol/item.go:52-84 | Reports what decoding reports and leaves the fields as decoding says, also after an error |

## Left out

- SessionRuns.Correlation and the other run theorems on the two transports: for runs with fewer than 2^64 calls and sessions; the counters do wrap in the model, and after a wrap ids and sessions repeat.
- EventBrokers.IdsAreNeverReused: the subscription counter is unbounded, so it does not model the wrap after 2^64 subscriptions.
- SessionIsolation.RepliesStayHome: a write that fails counts as one envelope on the wire; partial writes are not modelled, and neither is the Result member that error replies also carry.
- SessionLoss.NoStuckCall: says who can act next, not that the scheduler or the server lets it; fairness and time are not modelled.
- Retry.BackoffBound: delays are real numbers cut to whole nanoseconds, without float rounding, and without the overflow of a Duration for a (1+Jitter)*MaxDelay of 2^63 nanoseconds or more.
- Retry.Call: which of two ready select branches runs is a parameter.
- OutputWait.WaitForTurnOutputSub: replies, events and branch choices come from a script, and the pending events of each drain are given as a list instead of being read from a broker queue.
- Streaming.StreamsAreCorrect: the bounded output channel is a sequence, so a slow reader shows as a stream that stays in its sending phase.
- Inbound requests and notifications go to unbounded sequences; the capacity of 32 of the two channels only delays the reader.
- The opener, the stream and the context of a call are parameters or steps; a connection is an arbitrary sequence of frames and an error.
- JSON byte syntax and the decoding of each member: a frame is already classified, and values are trees; strings that are not valid UTF-8 are not modelled.
- Notify on both transports, and awaitReply of the WebSocket transport.
- structuredPayload and CollectJSONCandidates: validity of JSON text is library behaviour.
- The decoding of events from their parameters: an event has any value its method allows, or the raw value of parameters that do not decode.
- requestLoop and notificationLoop of the stdio transport, loadModelCatalog, and the RPC wrappers.
- The reconnecting HTTP and WebSocket wrappers, the stdio and HTTP transports, and process handling.
