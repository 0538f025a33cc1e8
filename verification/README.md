# Pystrand-Go: a verified model of the bridge

Pystrand-Go accepts WebSocket clients, asks TCP backends to approve them, forwards what they say to a
backend, and routes what backends answer. This project models the three parts of it that goroutines
change together, and the wiring between them, and proves what holds in every interleaving.

## What is modelled

**The store-and-forward queue of the TCP server** (`Messages`, `Roster`, `RosterRuns`, `Store`,
`StoreConservation`, `StoreBounds`, `StoreOrder`, `OrderSteps`, `StoreStranding`, `StoreRuns`, `StrandingRuns`). Senders, flushes,
the accept loop, the connection handlers and the heartbeat are goroutines; one event is one region under `mu` or `queueMu`, one
connection write, or the start of a goroutine. Any number of senders and flushes can be in progress. `Run`
gives the state after a sequence of events, so a statement about all `es` with `Reaches(n, es, s)` is a
statement about all runs of a server whose `maxQueueSize` is `n`.

**The methods over their slices and fields** (`Slices`, `ServerSlices`, `Server`). Go slices are windows
into shared backing arrays, so `queue[1:]`, `append`, `append(queue[i:], ...)` and the in-place deletion are
done on arrays, and each region is proved equal to the step that models it. `Server.TCPServer` holds the
methods as their goroutines perform them: at each `Yield` the other goroutines may make any number of steps,
and the methods are proved with only what those steps cannot change. A ghost field records the events; it
stays a run of `Store`, so every theorem about runs holds of the methods.

**The request/response rendezvous** (`Rendezvous`, `Services`, `Handlers`, `Intake`): callers with one-slot
response channels registered by request ID, one dispatcher, the 256-slot channel in front of it, and the
connection handlers that fill it. `Services.Services` and `Handlers.Channel` hold the methods, again with
others in between; `Intake` joins the two machines at the channel.

**Framing** (`Framing`): how `bufio.Writer` cuts a line into connection writes, how writes of several
goroutines interleave on one connection, and what a reader splits out again.

**The client map and room index of the WebSocket server** (`RoomIndex`, `Hub`, `HubFaults`, `WebSockets`,
`HubServer`, `Bridge`): the two regions that change them as functions, the race of registrations, read loops
and failing broadcasts as a state machine, the methods over mutable maps and room objects, and the same
methods with other goroutines in between.

**The composition** (`EchoBackend`, `EchoSystem`, `EchoProofs`, `EchoTheorems`, `EchoReports`, `EchoIntake`,
`EchoRun`): all parts wired as the bridge does it, its callbacks included, with one process of echo backends.
The composition shows that the echo backends meet the conditions of the other parts (one answer to a request,
client IDs that are fresh) and gives the end-to-end promise: what a client receives is exactly what was written
to it, all of it texts of its own, and for every text there is a run that brings it back. Backends may miss any
line, and lines and answers may overtake each other.

## Where the code does less than it seems to

Each of these is stated with the exact condition under which the property does hold.

- `maxQueueSize` does not bound the queue once a flush has been interrupted: putting the unsent tail back
  (backend/server.go:332) does not look at the size. The bound that holds is `maxQueueSize * (1 + k)` after
  `k` interruptions, and it is reached for every `k` (`StoreBounds.QueueLength`, `QueueLengthAttained`,
  `LimitExact`).
- Messages can leave the queue out of order when two flushes overlap, and when a single flush finds no
  backend and its message is enqueued again behind newer ones. `OrderSteps.OrderExact` says of every step after
  a safe run whether it endangers the order.
- A message can wait while a backend is connected, with no flush coming: after an interrupted flush, or
  when a sender saw no backend, one connected, and its flush looked at the queue too early. Either alone is
  enough, and a step strands a message exactly when it is one of the two, a backend is live and no flush is
  coming (`StrandingRuns.StrandingExact`).
- A backend that answers one connection request three times can leave the dispatcher at a full response
  channel for good; two answers cannot (`Rendezvous.StuckExact`, `Rendezvous.StuckForGood`).
- Registering a client ID that is still connected in another room leaves a stale member in the old room
  (`RoomIndex.RegisterExact`, `Hub.CrossingBreaks`).
- `handleDisconnect` looks a client up by ID, so a goroutine of an earlier connection can take a later client
  of the same ID off the index and report it, even when no registration was overwritten
  (`HubFaults.ReuseBlamesOther`). A registration makes that possible exactly when such a goroutine is still
  there (`HubFaults.BlameExact`).
- A message longer than 4095 bytes is written in several pieces, and a heartbeat or another message can come
  between them (`Framing.FramingExact`).

## Assumptions

- Request IDs are fresh: a new call's ID has not been used by a call or an answer before.
- A connection write either succeeds, and all of it reaches the backend, or fails, and nothing does.
- Encoding never fails and round-trips. Encoded messages contain no newline byte: JSON strings escape
  control characters (section 7 of RFC 8259) and `json.Marshal` puts no whitespace between tokens.
- `maxQueueSize` is at least 0; a negative size would index an empty queue (backend/server.go:300-301).
- The parameters `room_id`, `client_id`, `message` and `conn_id` of backend messages are strings. The
  assertion of `client_id` (client/server.go:153) happens with `mu` held, so it is a precondition of the server
  and not an error path.
- In the composition, client texts are valid UTF-8, the backend numbers are those of the connections, and a
  line that another writer has torn does not decode, so that its reader skips it.

## Model

| member | source | states |
|---|---|---|
| Roster.LiveList | backend/server.go:133-145 | in every run `Clients` is the acceptance order without the removed connections: no duplicates, in order, never a connection whose handler has finished |
| Roster.NeverAgain | backend/server.go:195-198 | a connection that has left `Clients` is never in it again, in any continuation |
| Roster.RemovalIdempotent | backend/server.go:252-264 | handler cleanup and heartbeat eviction of the same connection compose to one removal of exactly it |
| Roster.RemoveFirstKeeps | backend/server.go:137-142 | deleting in place at the first match keeps exactly the other live connections in acceptance order |
| Roster.RemoveEachKeeps | backend/server.go:254-262 | the heartbeat's deletions keep exactly the connections that are not dead, whoever was deleted before |
| Roster.KeepOrder | backend/server.go:196 | what is kept stays in acceptance order |
| Roster.InvStep | backend/server.go:133-265 | every region on `Clients`, and every ping, keeps the description of the live list |
| RosterRuns.LiveExactly | backend/server.go:133-265 | read off the events of a run alone: a connection is in `Clients` exactly when it was accepted, its handler has not exited, and no ping of it has failed in a round that came to its end |
| RosterRuns.RemovedExactly | backend/server.go:134-265 | what has been taken off are exactly the connections whose handler exited or that were evicted after a failed ping |
| RosterRuns.PingsInOrder | backend/server.go:224-250 | the heartbeat goes through its copy of the list in order, and the dead are exactly those whose ping failed since the copy |
| RosterRuns.RoundComplete | backend/server.go:228-252 | evictions begin only when every connection of the copy has been pinged |
| RosterRuns.HealthyStays | backend/server.go:239-262 | a connection whose handler runs and whose every ping succeeded is in `Clients` |
| RosterRuns.FlushForEach | backend/server.go:195-202 | each accepted connection gets one flush, and only that of the last can still be to start |
| RosterRuns.ExitsOnce | backend/server.go:133-145 | a handler exits after its connection was accepted, and only once |
| StoreConservation.Conservation | backend/server.go:270-338 | in every run a message is in exactly one place (written, queued, one batch, dropped) if its top-level send returned nil, in none otherwise, and in one flush at most |
| StoreConservation.FailedOnly | backend/server.go:270-282 | a message whose send failed is nowhere, and did not also succeed |
| StoreConservation.AtMostOnce | backend/server.go:283-286 | no two successful writes, by senders or flushes, carry the same request, and all are of sent messages |
| StoreConservation.InCallOnly | backend/server.go:275-286 | a message still inside its top-level send is not written, queued, or in any batch |
| StoreConservation.ConnectionRequestsNeverWait | backend/server.go:277-280 | no connection request is ever in the queue or in a batch, or dropped |
| StoreConservation.ConnectionRequestsAreWritten | backend/server.go:277-286 | a connection request whose send returned nil has been written once, any other never |
| StoreConservation.InterruptedOnlyByWrite | backend/server.go:325-334 | a flush is interrupted exactly by a failed write of its current message, and keeps that message in what it puts back |
| StoreConservation.FitsHolds | backend/server.go:291-294 | with queueing off nothing is queued and no flush has a batch |
| StoreConservation.BalancedStep | backend/server.go:270-338 | every region keeps both balances: calls against results, results against places |
| StoreConservation.OutcomeExactly | backend/server.go:270-338 | read off the events: a send has returned nil exactly if its message was written or enqueued by it, and an error exactly if its write failed or it found no backend and could not enqueue |
| StoreConservation.PicksLive | backend/server.go:348-358 | a send goes on to write to a listed connection, or, with none listed, to enqueue what may wait |
| StoreBounds.QueueLength | backend/server.go:299-333 | in every run the queue is at most `maxQueueSize * (1 + interrupted flushes so far)` |
| StoreBounds.QueueLengthAttained | backend/server.go:330-333 | for every size and every number of interruptions some run reaches that bound |
| StoreBounds.LimitExact | backend/server.go:299-303 | `maxQueueSize` bounds the queue in all runs with `k` interruptions exactly when it or `k` is 0 |
| StoreBounds.RequeuesCounted | backend/server.go:330-334 | the counter of the bound is the number of re-queue events of the run |
| StoreBounds.BoundedStep | backend/server.go:291-338 | every region keeps the weighted bound over the queue and every outstanding batch |
| StoreOrder.SlidingWindow | backend/server.go:299-306 | any number of enqueues keep the last `Window` elements of the old queue followed by the arrivals |
| StoreOrder.QueueSlides | backend/server.go:299-306 | between any two points of a run without take or re-queue the queue is that window over what was enqueued |
| StoreOrder.FirstInFirstOut | backend/server.go:299-334 | in safe runs, flushed messages, rest of the batch, queue are in strictly increasing enqueue order, across drops, interruptions and concurrent enqueues |
| StoreOrder.OrderlySafe | backend/server.go:313-338 | runs with one flush outstanding that always finds a backend are safe |
| StoreOrder.OneBatchStep | backend/server.go:314-322 | a step that is no overlapping take keeps at most one batch outstanding |
| StoreOrder.FlushAppendOrdered | backend/server.go:276-306 | a flush that enqueues its last message again into a one-slot queue drops what is newer, so the order stays |
| StoreOrder.OnlySendersEnqueue | backend/server.go:275-281 | in such runs no flush gets as far as enqueueing |
| StoreOrder.PushOrdered | backend/server.go:299-306 | the enqueue region keeps a line in order, dropping its oldest queued message when full |
| StoreOrder.StampedSucceeded | backend/server.go:306-308 | a message is numbered only once its top-level send has returned nil |
| OrderSteps.OrderExact | backend/server.go:276-333 | after a safe run a step keeps order through every continuation of safe steps exactly when it is no overlapping take and no flush that enqueues again with something newer to come |
| OrderSteps.OverlapDisorders | backend/server.go:314-333 | after a take beside another batch, safe steps alone lead to a newer message before an older one |
| OrderSteps.LoseDisorders | backend/server.go:276-306 | so they do after a flush that finds no backend, unless nothing newer can stay queued |
| OrderSteps.OlderFirst | backend/server.go:325-333 | in safe runs the current message of a batch is older than its rest and the queue |
| StoreRuns.OverlapReorders | backend/server.go:320-326 | overlapping flushes whose sends find a backend can write the newer message first |
| StoreRuns.LostBackendReorders | backend/server.go:276-281 | a single flush that finds no backend can put the older message behind the newer one |
| StoreRuns.OrderlyIsBoth | backend/server.go:313-338 | the runs of the order theorem are exactly those with both conditions |
| StoreRuns.NothingQueued | backend/server.go:292-294 | with queueing off no flush writes anything and the queue stays empty |
| StrandingRuns.StrandingExact | backend/server.go:195-334 | a step strands a message exactly when it re-queues an interrupted flush or enqueues after a connect it has not seen, while a backend is live and no flush is coming |
| StrandingRuns.InterruptionStrands | backend/server.go:326-335 | one interrupted flush and no late enqueue leave a message waiting beside a connected backend with no flush coming |
| StrandingRuns.LateEnqueueStrands | backend/server.go:275-281 | so does one sender that enqueues after a connect it has not seen, with no flush interrupted |
| StrandingRuns.NothingStranded | backend/server.go:195-334 | without either, whenever a message waits beside a connected backend a flush is coming |
| StoreStranding.Stranding | backend/server.go:195-334 | those two are the only ways: queue and `Clients` both non-empty means a flush is coming, or one of them happened since the last take |
| StoreStranding.FlagsMean | backend/server.go:313-334 | the history flags are events of the run with no take of the queue after them |
| StoreStranding.InvHolds | backend/server.go:195-202 | a thread about to enqueue that has missed no accepted connection does so with no backend live; and the stranding condition holds with the flags |
| Slices.Clone | backend/server.go:226-227 | `make` and `copy` give the same contents in an array of their own |
| Slices.Append | backend/server.go:306 | `append` extends the contents by one and touches at most the slot behind the slice |
| Slices.AppendAll | backend/server.go:332 | `append(s, t...)` concatenates, in place or in a new array |
| Slices.DeleteAt | backend/server.go:139 | the in-place deletion drops one element and changes nothing outside the slice's tail |
| ServerSlices.MessageQueue.Enqueue | backend/server.go:299-306 | `queue[1:]` and `append` over a shared array are the enqueue step, and no batch in progress changes |
| ServerSlices.MessageQueue.EnqueueAll | backend/server.go:299-306 | n enqueues on the slice form leave exactly the sliding window |
| ServerSlices.MessageQueue.Take | backend/server.go:320-321 | the batch has the queue's contents, and no two of the queue and the batches in progress share an array |
| ServerSlices.MessageQueue.Requeue | backend/server.go:328-332 | `append(queue[i:], s.messageQueue...)` puts the unsent tail in front of what was queued meanwhile and leaves every other batch in progress as it is |
| ServerSlices.MessageQueue.InterruptedFlush | backend/server.go:320-333 | with any other flushes in progress, enqueues do not reach into a batch: tail in front, arrivals behind, other batches unchanged |
| ServerSlices.ConnList.Accept | backend/server.go:196 | the new connection is last |
| ServerSlices.ConnList.Remove | backend/server.go:137-142 | the deletion loop is `RemoveFirst` on the contents, in the same array |
| ServerSlices.ConnList.Snapshot | backend/server.go:226-227 | the copy has the same contents and shares no array |
| ServerSlices.ConnList.Evict | backend/server.go:254-262 | the nested loops are one removal for each dead connection |
| ServerSlices.ConnList.PingBackends | backend/server.go:224-265 | alone: each listed connection pinged once in order, exactly those with a failed write deleted |
| ServerSlices.ConnList.RemoveDuringPing | backend/server.go:225-228 | an in-place deletion by a handler leaves the heartbeat's copy intact |
| ServerSlices.FirstAt | backend/server.go:137-142 | deleting at the first matching index is `RemoveFirst` |
| Server.KeptRun | backend/server.go:270-338 | whatever the others do, a goroutine's own position stays as it left it |
| Server.TCPServer.GetRandomConnection | backend/server.go:348-358 | false exactly when `Clients` is empty, otherwise one of them |
| Server.TCPServer.SendMessage | backend/server.go:270-287 | with others in between: ends in nil only by writing the message or enqueueing it, and in an error only by a failed write, or without backend when it must not or cannot queue; the result is the one on record |
| Server.TCPServer.Enqueue | backend/server.go:296-308 | one step: oldest dropped when full, message last |
| Server.TCPServer.TakeQueue | backend/server.go:314-322 | the batch is the whole queue, the queue is empty |
| Server.TCPServer.PutBack | backend/server.go:328-334 | the tail is in front of whatever is queued by then |
| Server.TCPServer.FlushQueue | backend/server.go:313-338 | with others in between: never ends holding messages; interrupted, the unsent end of the batch is the front of the queue |
| Server.TCPServer.Send | backend/services.go:66-73 | when a callback's send returns, its message is in exactly one place if it returned nil and in none if not; a connection request has been written exactly if it returned nil |
| Server.TCPServer.Accept | backend/server.go:195-204 | the connection is accepted before its flush starts |
| Server.TCPServer.HandlerExit | backend/server.go:134-145 | one deletion on the list of that moment; the connection is off it and finished, whether or not the heartbeat was first |
| Server.TCPServer.PingBackends | backend/server.go:224-265 | with the list changing meanwhile: one result for each connection of the copy, a connection is dead exactly when a write to it failed, and every dead one is off the list afterwards |
| Server.TCPServer.PingOne | backend/server.go:239-250 | a ping puts its connection among the dead exactly when the write failed |
| Server.TCPServer.EvictDead | backend/server.go:252-264 | one step: the dead are deleted from the list as it is then, and nobody else |
| Server.ClientsExactly | backend/server.go:133-265 | so in every run of the whole TCP server: listed exactly if accepted, handler running, and not evicted after a failed ping |
| Rendezvous.Correlation | backend/services.go:56-63 | a call with a response has the first dispatched response that carries its own ID |
| Rendezvous.AnswersMeaning | backend/services.go:114-118 | what counts as an answer: the responses carrying that request ID |
| Rendezvous.NoLeak | backend/services.go:34-61 | the keys of `PendingResponses` are exactly the calls between registration and deletion, on the error path too |
| Rendezvous.InvStep | backend/services.go:30-127 | every step keeps, for each caller: received, slot and held-out response are its answers looked up so far |
| Rendezvous.NeverBlocks | backend/services.go:115-124 | with at most one answer to a request the dispatcher never blocks on a response channel |
| Rendezvous.BlockedIsRelievable | backend/services.go:115-124 | with at most two, a blocked dispatcher waits for a caller that has yet to receive |
| Rendezvous.RelievableEnds | backend/services.go:56-61 | that caller's own next steps end the block, and nobody else's step takes this away |
| Rendezvous.StuckForGood | backend/services.go:120 | blocked on a caller past its receive, the dispatcher stays blocked in every continuation |
| Rendezvous.ThreeAnswersStick | backend/services.go:115-124 | a run with three answers that gets it stuck |
| Rendezvous.StuckExact | backend/services.go:34-124 | with at most `a` answers a request, no run gets stuck exactly when `a <= 2` |
| Rendezvous.BlockExact | backend/services.go:34-124 | with at most `a` answers a request, no run ever blocks exactly when `a <= 1` |
| Rendezvous.SecondLookup | backend/services.go:116-120 | a run with two answers that blocks |
| Rendezvous.CallerExactly | backend/services.go:30-64 | read off the events: a call fails exactly when its send failed, has its response exactly when it received, and has ended exactly when its entry was deleted |
| Rendezvous.DispatchedExactly | backend/services.go:106-113 | read off the events: the dispatcher takes out what arrived, in order and all of it; another request can arrive exactly while fewer than 256 wait |
| Rendezvous.OthersPass | backend/services.go:114-132 | an answer nobody waits for, or a request that is no response, leaves the dispatcher free and every caller alone |
| Services.KeptRun | backend/services.go:30-127 | whatever the others do, a caller's and the dispatcher's own position stay |
| Services.Services.Register | backend/services.go:34-37 | the channel is empty and registered before anything is sent |
| Services.Services.Await | backend/services.go:56-61 | the response received is the first dispatched answer, and the entry is gone exactly if it came; still waiting means that its channel is registered and empty |
| Services.Services.NewSocketConnection | backend/services.go:30-64 | error exactly if its request was never written; otherwise the first dispatched answer to its own ID; no entry left after a return; still waiting means that its channel is registered and empty |
| Services.Services.Delete | backend/services.go:59-61 | the entry of that request is gone, on the success and on the error path |
| Services.Services.LookUp | backend/services.go:116-119 | found exactly when the request ID is registered; an answer nobody waits for is discarded |
| Services.Services.Deliver | backend/services.go:119-124 | the response goes into the caller's slot, or the dispatcher is still holding it because the slot is full |
| Services.Services.HandleRequest | backend/services.go:107-132 | takes the oldest request; a response writes to no client, anything else writes its own message once to each client its action is for and to nobody else; only a broadcast disconnects; ends idle unless a full slot held it up |
| Handlers.DispatchOrder | backend/server.go:149-177 | per connection, what is dispatched, in the channel and in the handler's hand is, while its handler runs, the request of every well-formed line, each once, in reading order; what is dispatched is always a prefix of these |
| Handlers.RequestsAll | backend/server.go:162-170 | taking the requests of the lines skips exactly the malformed ones: increasing positions, and every well-formed line is among them |
| Handlers.ReadExactly | backend/server.go:147-160 | read off the events: no line a handler has read is forgotten, and only its own exit closes it |
| Handlers.ChannelBound | backend/server.go:170-176 | the channel holds at most 256 requests, and a handler can push exactly while it holds fewer |
| Handlers.OnlyRead | backend/server.go:163-174 | nothing is dispatched that was not read as a well-formed line |
| Handlers.KeptRun | backend/server.go:133-178 | whatever the others do, what a handler has read and holds stays |
| Handlers.Channel.HandleConnection | backend/server.go:133-178 | with handlers, dispatcher and the rest of the server in between: the request of every well-formed line goes into the channel, each once and in order, malformed ones are skipped; on shutdown this holds of the lines read, but for the one request in hand; and the connection is taken off the list as it is then |
| Intake.GuardsAgree | backend/server.go:170-176 | the handlers' channel send and the dispatcher's receive are possible exactly when the other side says so |
| Intake.BothRun | backend/services.go:106-111 | a run of handlers and dispatcher joined at the channel is a run of each |
| Intake.DispatcherReads | backend/services.go:108-113 | what the dispatcher has taken out is, per connection, a prefix of its well-formed lines, and nothing else |
| Intake.ResponseRead | backend/services.go:56-63 | a call's response was read as a well-formed line with its ID from some backend connection |
| Framing.Writer.WriteString | backend/server.go:283-284 | full buffers are written out, the last piece stays buffered |
| Framing.ChunksExactly | backend/server.go:283-284 | cutting a line loses nothing: full buffers, then a rest that is not empty |
| Framing.SendLine | backend/server.go:283-286 | the connection writes of a line are all of it, in full 4096-byte buffers and a rest; a line that fits is one write |
| Framing.LinesExactly | backend/server.go:147-150 | the lines hold no newline, and with their newlines and the open tail they are the stream |
| Framing.RoundTrip | backend/server.go:239-286 | for any interleaving of senders and heartbeats, splitting at newlines gives the written messages in write order, nothing over |
| Framing.PrefixRoundTrip | backend/server.go:149-150 | any prefix of the stream gives a prefix of the messages |
| Framing.DecodedPrefix | cmd/echo-backend/main.go:65-74 | with a codec that round-trips, what is decoded is a prefix of what was encoded |
| Framing.ReadLines | backend/server.go:147-150 | the lines read do not depend on the chunks the connection hands over |
| Framing.PrefixLines | backend/server.go:150 | more bytes only add lines |
| Framing.TornByShort | backend/server.go:239-244 | a heartbeat between the pieces of a long message: the lines are its head with the heartbeat, and its rest |
| Framing.TornByLong | backend/server.go:283-286 | the pieces of two long messages alternating: the lines are head, head and rest in one, and the other rest |
| Framing.TooLongTears | backend/server.go:239-286 | a message that does not fit is lost to a heartbeat or to another message of its length, though written completely |
| Framing.FramingExact | backend/server.go:239-286 | beside heartbeats and another message of its length, a newline-free message survives every interleaving exactly when it has at most 4095 bytes |
| Framing.DecodeSkips | backend/server.go:163-168 | wherever it stands, a line that decodes adds its value and one that does not adds nothing |
| RoomIndex.ExactMeans | client/server.go:131-157 | `rooms` is `clients` grouped by RoomID exactly when the index agrees and no room member is stale |
| RoomIndex.RegisterAgrees | client/server.go:131-159 | registration keeps: each client is in its room, no empty room, members carry their room's ID |
| RoomIndex.UnregisterAgrees | client/server.go:187-206 | so does a disconnect |
| RoomIndex.RegisterExact | client/server.go:156-157 | registration keeps exactness if and only if the ID is not connected in another room |
| RoomIndex.UnregisterExact | client/server.go:196-204 | a disconnect keeps exactness |
| RoomIndex.RoomIsFilter | client/services.go:21-31 | in an exact index a room's members are the clients whose RoomID it is |
| RoomIndex.RegisterUnregister | client/server.go:131-206 | registering a new ID and disconnecting it gives back the index |
| Hub.IndexAgrees | client/server.go:131-206 | in every run, with read loops and broadcasts racing, the index agrees |
| Hub.IndexExact | client/server.go:156-157 | without cross-room reuse of a connected ID it is exact after every region |
| Hub.CrossingBreaks | client/server.go:156-157 | a step from such a run keeps exactness if and only if it is not a cross-room reuse |
| Hub.DisconnectLedgerHolds | client/server.go:156-229 | registrations = connected + removals + overwritten; each removal leads to exactly one `onDisconnect`; nobody is reported twice |
| Hub.NothingOverwritten | client/server.go:156 | with distinct IDs nothing is overwritten and no cross-room reuse happens |
| Hub.DistinctReportedOnce | client/server.go:173-209 | with distinct IDs each registered client is connected, about to be reported, or reported, exactly one of them and once |
| Hub.RegisteredExactly | client/server.go:131-180 | read off the events: the registrations in order, and a read loop runs from its registration to its read error |
| HubFaults.BlameExact | client/server.go:131-228 | after a run that has registered no ID in use, a registration lets some later report blame a client without fault, with no further registration, exactly when its ID is in use |
| HubFaults.OwnFaultsHold | client/server.go:173-228 | where no ID in use was registered, every reported client's own connection gave an error |
| HubFaults.ReadBlames | client/server.go:173-179 | an earlier read loop takes the new client off and reports it |
| HubFaults.CastBlames | client/server.go:224-229 | so does a broadcast that has yet to write to an earlier client of that ID |
| HubFaults.ReuseBlamesOther | client/server.go:176-204 | a run that reports a client whose connection is fine, with no registration overwritten |
| HubFaults.OwnStep | client/server.go:187-206 | without such a registration, whoever may call `handleDisconnect` means the client connected under that ID |
| HubFaults.DistinctNeverReuses | client/server.go:156 | distinct client IDs are enough |
| WebSockets.WebSocketServer.Join | client/server.go:131-159 | the region over mutable maps and room objects is the registration step |
| WebSockets.WebSocketServer.Leave | client/server.go:196-202 | out of the room, and the room away when empty |
| WebSockets.WebSocketServer.Unlist | client/server.go:188-206 | the region over mutable maps and room objects is the disconnect step |
| WebSockets.WebSocketServer.HandleDisconnect | client/server.go:187-210 | the disconnect step, with one callback if the ID was connected and none otherwise |
| WebSockets.WebSocketServer.Listen | client/server.go:173-183 | every message goes to `onMessage`, in order |
| WebSockets.WebSocketServer.HandleConnection | client/server.go:110-184 | alone: served exactly when approved and upgraded; greeted, heard, reported once; a new ID leaves the index as it was |
| WebSockets.WebSocketServer.Copy | client/server.go:218-221 | the snapshot lists each client once, in whatever iteration order |
| WebSockets.WebSocketServer.BroadcastMessage | client/server.go:216-231 | the message is written once to each connected client; left are exactly those whose write succeeded; one callback for each of the others; the index still agrees |
| WebSockets.WebSocketServer.MessageToRoom | client/services.go:19-37 | writes once to each member of the room; under an exact index these are the clients whose RoomID it is |
| WebSockets.WebSocketServer.MessageToConnection | client/services.go:39-49 | one write to the client of that ID, none if it is not connected |
| WebSockets.WithoutFailed | client/server.go:224-229 | taking out the failures one by one leaves the clients whose write succeeded |
| HubServer.KeptRun | client/server.go:110-231 | whatever the others do, a read loop, a broadcast and an owed callback stay where they are |
| HubServer.GoneMeans | client/server.go:187-209 | a client taken off the index is never connected again, and is reported once unless it was overwritten |
| HubServer.Sockets.HandleDisconnect | client/server.go:187-210 | with others in between: the region, then exactly one callback for the client it took off |
| HubServer.Sockets.HandleConnection | client/server.go:110-184 | with others in between: greeted once, heard in order, and on return off the index and reported by exactly one goroutine unless overwritten |
| HubServer.Sockets.BroadcastMessage | client/server.go:216-231 | with others in between: the snapshot lists each client once, the broadcast writes exactly once to each in that order; each client whose write failed is off the index and reported once unless overwritten |
| Bridge.RunAction | bridge/bridge.go:76-87 | each of the three actions writes its own message once to each client it is for (the members of the room, the client of the ID, everybody) and to nobody else; only a failed broadcast disconnects, and the index still agrees |
| EchoBackend.DecimalInjective | cmd/echo-backend/main.go:78 | different counters print differently |
| EchoBackend.DecimalValue | cmd/echo-backend/main.go:78 | the digits printed for a counter stand for it, without leading zero |
| EchoBackend.ClientIdsUnique | cmd/echo-backend/main.go:78-130 | different backend numbers or counters give different client IDs |
| EchoBackend.Backend.Run | cmd/echo-backend/main.go:61-110 | for any set of failing sends: what is sent answers, in order and once each, exactly the connection requests and texts whose send does not fail; an approval carries its own counter, a text goes back to the client that said it; the counters count all requests and all texts |
| EchoBackend.AnswersExactly | cmd/echo-backend/main.go:76-108 | a request is answered exactly as often as it is received on a line to be answered whose send does not fail |
| EchoBackend.RepliesPicked | cmd/echo-backend/main.go:61-108 | the replies are the answers to strictly increasing line positions, and these are all the lines to be answered |
| EchoSystem.PartsStep | bridge/bridge.go:27-87 | a step of the whole system is a step of each part, so runs of it are runs of each part |
| EchoProofs.EmissionsDiffer | cmd/echo-backend/main.go:76-104 | any two answers in a run carry different request IDs and approve different client IDs |
| EchoProofs.EchoesText | cmd/echo-backend/main.go:90-104 | what a backend answers to a text is this text, to the client that said it, under its request ID |
| EchoProofs.ApprovesRequest | cmd/echo-backend/main.go:76-89 | what it answers to a connection request is an approval under its next client ID, in the one room |
| EchoProofs.IgnoresOthers | cmd/echo-backend/main.go:105-107 | no other request is answered |
| EchoProofs.EmissionsStep | cmd/echo-backend/main.go:61-104 | each answer belongs to its own write, with a counter not used before |
| EchoProofs.ArrivalsStep | backend/server.go:170-174 | what arrives at the dispatcher was answered by a backend, once |
| EchoTheorems.DispatcherNeverBlocks | backend/services.go:115-124 | with echo backends each request has at most one answer, so the dispatcher never blocks |
| EchoTheorems.ClientIdsFresh | client/server.go:131-157 | no two registrations share an ID, so nothing is overwritten and the index is exact |
| EchoTheorems.ReportsOwnFaults | client/server.go:173-229 | every client for which onDisconnect is called has had an error on its own connection |
| EchoReports.DisconnectsTrue | bridge/bridge.go:59-66 | every disconnect request written to a backend names a client that was registered, taken off, and reported, through an error of its own connection |
| EchoReports.DisconnectsBegun | bridge/bridge.go:59-66 | every onDisconnect call has begun the send of a request that names its client |
| EchoReports.DisconnectsOnce | backend/services.go:75-82 | no two disconnect requests written name the same client |
| EchoReports.WelcomesOnce | bridge/bridge.go:40-48 | every connection-success request written names a registered client, and no two the same |
| EchoReports.ComplaintsExactly | bridge/bridge.go:27-38 | the error reports begun are one for each complaint of a failed call, and no call complains twice |
| EchoReports.ToldStep | bridge/bridge.go:40-66 | the requests begun by the two callbacks are one for each call, in order |
| EchoTheorems.ReceivedWasSent | bridge/bridge.go:50-83 | a received text was sent by the client that received it, under the request ID of that text |
| EchoTheorems.EndToEndEcho | bridge/bridge.go:50-83 | each client receives only texts it sent, each at most as often as it sent it, whatever is queued, flushed or dropped, and whichever lines and answers are lost or overtaken (the lower side: `TextDelivered`, `ReceivedExactly`, `EchoRun.RoundTrip`) |
| EchoTheorems.TextDelivered | client/services.go:39-49 | a successful write of a text to a connected client gives that client exactly this text, once |
| EchoTheorems.NothingDelivered | client/services.go:39-49 | a failed write, an absent client, or any other action gives nobody anything |
| EchoTheorems.ReceivedExactly | bridge/bridge.go:76-83 | in every run what clients have received is exactly, in order, the texts that the dispatcher wrote to connected clients |
| EchoTheorems.TextAccounted | bridge/bridge.go:50-58 | every text a client said is in exactly one place, once: inside its send, refused, written, queued, in a batch, or dropped as oldest |
| EchoTheorems.RegisteredInRoom | cmd/echo-backend/main.go:79-85 | every registered client is in the room that the echo backends name |
| EchoTheorems.OneRoom | client/server.go:131-157 | so there is one room, and its members are exactly the connected clients |
| EchoRun.RoundTrip | bridge/bridge.go:27-87 | for every text and every `maxQueueSize`, a run from the start in which a client connects, says the text, and receives it exactly once |
| EchoRun.RoundTripWithHandlers | backend/server.go:149-177 | such a run with the handlers spelled out |
| EchoTheorems.NoStepLost | bridge/bridge.go:27-38 | the wiring takes no step away: a returning connection request always has its waiting caller |
| EchoIntake.Simulates | backend/server.go:149-177 | every run with the handlers spelled out between backends and dispatcher is a run of the composed system |
| EchoIntake.Realizes | backend/server.go:149-177 | and every run of the composed system, with every order of arrival, can be had with the handlers |
| EchoIntake.Skipped | backend/server.go:163-168 | a line that does not decode is read and changes nothing else |
| EchoIntake.GuardsAllow | backend/server.go:170-176 | a handler's push is an arrival the composed system allows |
| EchoIntake.EndToEndEcho | bridge/bridge.go:50-83 | the end-to-end promise with the handlers, whose lines reach the dispatcher in reading order per connection |
| EchoTheorems.RequestsStep | backend/services.go:39-56 | every written connection request belongs to a caller whose send has returned nil |
| EchoTheorems.OriginsStep | client/server.go:111-157 | every registered client comes from an approved call of its own |

## Left out

- Sockets, the HTTP upgrade, gorilla internals, tickers, deadlines and logging: a connection is a sequence of
  writes whose results are arbitrary, and a message counts as delivered when its last write succeeds.
- A write that fails after part of it has been sent, as a heartbeat at its deadline can: it counts as nothing
  sent, so a line torn by it is not modelled.
- Server.TCPServer.GetRandomConnection: the random choice is any choice.
- Services.Services.Await: the receive looks `patience` times, because a method of the model must end; a wait
  that outlasts it is reported as `StillWaiting`, with the channel found empty, where the code goes on waiting.
- Services.Services.NewSocketConnection: waits through `Await`, so it can also end as `StillWaiting`.
- Services.Services.Deliver: the channel send looks `patience` times, and then reports that the dispatcher is still
  holding the response before a full slot.
- Services.Services.HandleRequest: delivers through `Deliver`; the action of a request runs without other
  goroutines in between, whose interleavings are in `Hub` and `HubServer`.
- Handlers.Channel.HandleConnection: the select between the channel send and shutdown takes shutdown after any
  number of looks, so a handler that waits for ever is not modelled.
- WebSockets.WebSocketServer.HandleConnection: run alone, like the other methods of that class;
  `HubServer.Sockets` has the methods with others in between. The results of the upgrade and of the reads are
  parameters, since the network decides them. A missing `accepted` key counts as accepted, as in the code.
- EchoBackend.Backend.Run: the wrap-around of the 64-bit counters.
- EchoTheorems.EndToEndEcho: `Framing` is not part of the composed machine, which lets any line be missed.
  Heartbeat pings are not among the writes backends read, since echo backends ignore them.
- Liveness: a caller has no timeout, and nothing is assumed about scheduling, so progress is stated as steps that
  are enabled and stay so.
- `Start`, `Stop` and the timing of shutdown; a handler's exit covers its effect on the list and the channel.
- Encoding errors, `encoding/json` and UUID internals, and panics of type assertions on malformed parameters.
- Metadata, headers and URLs: no decision of the modelled code depends on them.
- `Room.BroadcastMessage` and `Client.SendMessage` (client/services.go:9-17), which nothing calls, and
  `QueueLen` and `GetListener`, which only read.
- config/config.go, main.go, cmd/echoserver, cmd/loadtest, cmd/perftest and k6-tests: flags, measuring and
  reporting.
