# Mofka's event path in Dafny

Mofka is an event-streaming service: producers push events, each with metadata and data, to the partitions
(targets) of a topic, where they are stored in logs; consumers pull them back. This project models the whole path of
one event and proves what the parts promise, separately and together:

`Producer::push` → batch queue → RPC → log of the topic manager → `feedConsumer` → `recvBatch` → `Consumer::pull`

`dafny verify dfyconfig.toml` checks all of it.

## The layers

**Log engine.** `TopicLog.dfy` says what the nine arrays of the in-memory topic manager mean as one append-only
sequence of events, and what one batch does to them for any bytes; `MemoryTopicManager.dfy` has the operations as
methods on the arrays. `Sessions.dfy` is the state machine of consumer sessions and their cursors.

**Producer protocol.** `EventPath.dfy` is a state machine of any number of producers, targets, ULTs, sender loops and
servers; a step is an atomic stretch of the code, and any interleaving is a run. `EventPathSafety.dfy` has its
invariant, `EventPathCalls.dfy` what the calls of a run put into the state, `EventPathResults.dfy` what follows for
callers, `EventPathOrder.dfy` the order of logs, `EventPathOnePush.dfy` a run that delivers, `EventPathLanes.dfy` that each lane is a batch queue,
`EventPathTickets.dfy` that each producer is a run of the ticket protocol, `Tickets.dfy` that protocol (order,
progress, the barrier of `flush()`), `TurnWait.dfy` how its ULTs sleep and wake. `Producer.dfy` has the stretches of
`Producer::push` as methods, each proved to be its step.
`BatchQueue.dfy` is the state machine of a batch queue, `BatchQueueLoop.dfy` what its loop does after the last call,
`ActiveProducerBatchQueue.dfy` the queue as an object, and `ProducerBatch.dfy` packs batches. `PrioPool.dfy` is the pool that runs the ULTs.

**Consumer protocol.** `ConsumerBatch.dfy` scatters the four regions of a `feed()` call, `Consumer.dfy` walks them and
hands events out, `Pairing.dfy` is the state machine of `pull()` calls and received events. `Handshake.dfy` is the
state machine of registering, feeding and stopping consumers, `Provider.dfy` its stretches as methods.

**Codecs.** `BufferWrapperArchive.dfy`, `DefaultSerializer.dfy`, `DataDescriptor.dfy` (save and load),
`DescriptorViews.dfy` (what views select, and what `flatten` makes of them), `DataDescriptorImpl.dfy` (the object),
`WireFormat.dfy` (the bytes themselves, and what loading makes of bytes that are cut off or carry unknown tags),
`RapidJsonUtil.dfy` (the bracket scanner for metadata).

**Together.** `Delivery.dfy`, `Streams.dfy` (the batches of a session as one stream), `Arrivals.dfy` (several targets in
one deque) and `EndToEnd.dfy` compose the layers.

## How things are modelled

- A bulk handle is the concatenation of the segments it exposes; an RDMA transfer copies bytes, the shorter of the two
  sizes if they differ. `size_t` has 8 bytes, little-endian; sums and differences of sizes wrap (`Bytes.Add`,
  `Bytes.Minus`).
- A critical section is one step. Where code leaves a critical section early, the step ends there. Three stretches of
  a ULT that touch disjoint state are merged: under loose ordering the creation of a queue, the push to it and the
  count of ready events; and in the catch block that count and the promise.
- A notification is part of the step that sends it, except in the wait for a turn and in the stopping of a consumer,
  where it is a step of its own. A sender loop can also wake without one, as it does when one comes late; statements
  about what happens without further calls leave this out.
- Validation, target selection, RPC outcomes, selectors and brokers are arbitrary. An RPC can fail before or after the
  server has appended the batch.
- Sizes stay below the address space: preconditions such as `RoomForBatch` say so.
- Promises hold the shared state weakly: setting one whose futures are gone does nothing (`abandoned`).

## Where the code and what it says differ

The code is kept, and the exact condition under which it does what it says is proved.

- `src/Producer.cpp:98-103` counts a failed push as ready whatever ticket is being served. The order of a log never
  suffers (`StrictLogOrder` has no hypothesis on failures), but another push can be passed over, and then waits for
  ever and `flush()` with it: `ActKeepsTurnIff`, `RejectPassesOverIff`, `PassedOverWaitsForever`,
  `FlushHangsAfterPassingOver`. If it is the very next push that fails, all later ones stall as well, until yet another
  one fails: `RejectStallsIff`, `StalledEnqueuesNothing`.
- `src/Producer.cpp:98-105` raises the count and notifies without the mutex of the waiters, so that a failure in its own
  turn can be slept through by the push whose turn it makes: `NotifyOversleepsIff`, `FailureIsSleptThrough`. Nothing
  else stops a producer with its tickets in turn: `AllServedIff`. Runs without failures are safe:
  `NobodyOversleepsFromNew`.
- `src/ProducerBatchImpl.hpp:211` clears the flush request after one batch, also one that came in while a batch was
  being sent, and line 180 ignores one that comes before the loop's ULT has run: `FlushDrainsIff`,
  `FlushDrainsShapedIff`, `FlushInFlightIsLost`. A batch size of 0 is accepted and queues an empty batch:
  `ZeroBatchSizeQueuesEmptyBatch`.
- `src/ProducerBatchImpl.hpp:149-160` notifies the loop of a batch that is opened behind a full one, not of the push that
  fills the first: a sleeping loop then sleeps on a batch it should send until the next call, `PushToSleepingIff`,
  `FullBatchIsSleptOn`.
- `src/ProducerBatchImpl.hpp:164` ignores a stop request that comes before the loop's ULT has run, so that a queue
  stopped or destroyed then never sends what it holds: `StopDrainsIff`, `StopBeforeStartIsLost`. An accepted request
  does drain the queue: `StopDrains`.
- `src/MemoryTopicManager.cpp:95` (and its twin for metadata) leaves a size check to do, and line 73 subtracts without one:
  `AppendPacksIff`, `ShortBulkCutsLog`.
- `src/MemoryTopicManager.cpp:216` keeps the last acknowledgement, not the furthest, and accepts any id:
  `SessionStartsAfterLastAck`, `AnyAcknowledgementIff`. `include/mofka/TopicManager.hpp` makes the topic manager
  responsible for feeding each event only once; sessions of one name do not know of each other: `FedTwiceIff`.
- `src/ConsumerHandle.cpp:44-46` only logs a failed feed: `SessionIsSliceIff`.
- `src/ConsumerHandle.cpp:49-52` notifies without the mutex of the log: `WakeUpIsLostIff`. A consumer id that is in use
  is not registered again (`src/ProviderImpl.hpp:220`), and a consumer uses one id for all its targets:
  `RegisteredIff`, `UnregisteredNeverStops`.
- `src/Consumer.cpp:249-252` sends the event's descriptor rather than the selected one: `RequestedIsHead`,
  `PartialRequestIff`.
- `src/DataDescriptorImpl.hpp:48` starts from a size that already counts the views, and line 59 compares with the
  wrong offset: `ShippedFlattenIff` for the code as it is, `FlattenMeansSlicing` with both corrected.
- `src/DataDescriptorImpl.hpp:142-171` skips tags it does not know: `UnknownTagIsSkipped`, `CanonicalIff`.
- `src/RapidJsonUtil.hpp:66-102` accepts more than JSON: `AcceptedIff` and `PiecesAcceptedIff` say exactly what,
  `OtherTextsAreAccepted` gives two such texts.

## Model

| member | source | states |
|---|---|---|
| EndToEnd.PushedIsPulled | src/Producer.cpp:46-126 | In any run of producers, queues and servers from an initial state, any sessions, targets and pulls: a push() call resolved to (t, n) is what exactly one pull of a consumer of any number of targets returns, with id n and the metadata and data that were the arguments of that call, once its session at t has sent entry n and enough pulls were made |
| EndToEnd.ResolvedIsDelivered | src/Consumer.cpp:148-213 | In any run, entry n of the log, after any later appends, is delivered with the arguments of the push() call whose future resolved to n |
| EndToEnd.EntryIsPulledOnce | src/Consumer.cpp:91-101 | With arrivals of any targets interleaved with pulls in any way, entry n of target t is returned by the pull of its position and by no other |
| Arrivals.PullIsArrivalIff | src/ConsumerImpl.hpp:44-63 | Pull j returns exactly arrival j, whatever target it is from |
| Arrivals.PositionsIncrease | src/Consumer.cpp:151-173 | The events of one target are pulled in the order in which it feeds them |
| Streams.SessionStream | src/MemoryTopicManager.cpp:145-204 | Over any run of a topic, the results of a session without a failed feed are those of the entries of the final log from its start on, without a gap |
| EndToEnd.AppendIsReceiveBatch | src/MemoryTopicManager.cpp:36-122 | The append step is receiveBatch of the packed batch: same log afterwards, same first id in the reply |
| EventPathResults.FutureNamesItsEvent | src/ProducerBatchImpl.hpp:190-246 | In every run, a future resolved to id n of a target belongs to the event stored at index n of its log, which is the argument of that push() call, and the selector answered that target for it |
| EventPathResults.FuturesAreDistinct | src/ProducerBatchImpl.hpp:47-53 | No two futures, of any producers, resolve to the same id of the same target |
| EventPathResults.StoredWasPushed | src/ProducerBatchImpl.hpp:217-246 | In every run, every stored entry is the argument of the push() call of its id, in the log of the target that the selector answered for it |
| EventPathCalls.EventsAreArguments | src/Producer.cpp:56-62 | In every run, the events a producer holds are the arguments of its push() calls, in the order of the calls |
| EventPathCalls.TargetIsSelected | src/Producer.cpp:68-80 | In every run, a push waits or is enqueued for a target iff the selector answered that target for it |
| EventPathCalls.FailedPushErrs | src/Producer.cpp:98-103 | In every run, a push whose validation or selection threw has its future resolved to the exception |
| EventPathCalls.NoFailureNoException | src/ProducerBatchImpl.hpp:217-246 | In every run in which no push of a producer throws and no batch is lost, none of its futures gets an exception |
| EventPathCalls.AppendAddsBatch | src/ProducerBatchImpl.hpp:228-246 | An append puts the batch at the end of its log and reports the length before; a lost batch leaves all logs alone, a lost reply does not, and both report a failure |
| EventPathCalls.SettleFulfils | src/ProducerBatchImpl.hpp:47-59 | Settling a batch resolves push i of it to firstId + i if the reply came, and to the exception if not |
| EventPathCalls.CountersCount | src/Producer.cpp:91-121 | In every run, the ready counter is the number of enqueued and failed pushes, and the posted counter the number of posted ones less those that left |
| EventPathCalls.EnqueueEnabledIff | src/Producer.cpp:73-77 | A loose push never waits for its turn, and a strict one may go on iff its ticket is the one served |
| EventPathCalls.PushMayIff | src/Producer.cpp:58-121 | What may happen to a push next: any target may be answered for a posted one, or it may fail, and it leaves once it is through |
| EventPathCalls.LaneMayIff | src/ProducerBatchImpl.hpp:163-246 | What may happen to a lane next: flush and stop at any time, and any batch that is sent may be appended, or lost before or after the append |
| EventPathResults.StoredOnce | src/ProducerBatchImpl.hpp:190-215 | No push is stored twice, in one log or in two |
| EventPathResults.StoredAtItsId | src/ProducerBatchImpl.hpp:238-239 | A stored event with a resolved future is stored at exactly that id |
| EventPathResults.StrictLogOrder | src/Producer.cpp:71-94 | Under strict ordering each log lists the events of a producer by increasing local id, failures or not |
| EventPathOrder.LogFollowsEnqueueOrder | src/Producer.cpp:78-91 | In every run, strict or loose: the events of a producer in a log, followed by those on their way to it, are its pushes for that target in the order in which they were enqueued, with only lost batches missing |
| EventPathOnePush.OnePushIsDelivered | src/ProducerBatchImpl.hpp:139-246 | Non-vacuity: from any state and any logs, allowed steps take the first push of a producer to the end of the log, and resolve its future to that place |
| EventPathResults.EnqueuedIsAccountedFor | src/ProducerBatchImpl.hpp:139-161 | An enqueued push has its promise fulfilled or is pending in the queue or batch of its target |
| EventPathResults.OutcomeKept | src/Promise.hpp:26-36 | No step touches a fulfilled promise: it is set at most once |
| EventPathResults.OutcomesAndLogsLast | src/MemoryTopicManager.cpp:39-122 | In every continuation fulfilled promises keep their value and logs only grow |
| EventPathSafety.DoKeepsInv | src/Producer.cpp:46-126 | Every step of any producer, queue or server keeps the invariant of all producers and logs |
| EventPathSafety.AlwaysInv | src/ProducerBatchImpl.hpp:190-246 | The invariant holds after every run |
| EventPathSafety.FulfilledValue | src/ProducerBatchImpl.hpp:47-53 | Entry i of a batch accepted at firstId resolves to firstId + i, and to the exception if the sender learned of a failure |
| EventPathLanes.LanesAreBatchQueues | src/Producer.cpp:78-97 | In every reachable state, for every producer and target, some enabled steps take a new batch queue to the queue of that lane |
| EventPathLanes.LaneBatchesAreSized | src/ProducerBatchImpl.hpp:149-157 | Hence in every reachable state, with batch size B >= 1, all batches of all producers hold 1 to B events, queued ones but the last are full, and sleeping loops leave at most one queued |
| EventPathLanes.LaneStopDrainsIff | src/ProducerBatchImpl.hpp:163-215 | Hence in every reachable state a stop() call ends a lane on an empty queue iff its loop has started (and not ended before later pushes) |
| Producers.ProducerImpl.Push | src/Producer.cpp:46-126 | The caller's part of push takes the next ticket and posts its ULT with the event it was given: two steps of the state machine |
| Producers.ProducerImpl.IsMyTurn | src/Producer.cpp:72-77 | The wait ends exactly when the enqueueing step is enabled, which is at once unless the producer is strict and another ticket is served |
| Producers.ProducerImpl.Enqueue | src/Producer.cpp:78-94 | Finding or creating the queue, pushing and counting is the enqueueing step |
| Producers.ProducerImpl.Fail | src/Producer.cpp:98-103 | The catch block is the rejecting step: the count grows out of turn, the promise gets the exception |
| Producers.ProducerImpl.LeavePool | src/Producer.cpp:106-115 | Leaving is its step, and notifies exactly when flush() may go on |
| Producers.MayFlushIff | src/Producer.cpp:128-135 | After any calls and steps, flush() may go on iff each push is not posted yet or its ULT has left after it was enqueued or failed |
| Tickets.ActKeepsTurnIff | src/Producer.cpp:71-103 | Exactly the tickets below the served one stay done, unless and only unless a push fails out of turn |
| Tickets.EnqueueOrderIsPushOrder | src/Producer.cpp:73-94 | A strict producer without failures enqueues local ids 0, 1, 2, ... in every run |
| Tickets.TicketOrder | src/Producer.cpp:73-94 | The same from any state in turn, with the count of ready events equal to the number of enqueued ones |
| Tickets.RejectPassesOverIff | src/Producer.cpp:98-103 | A failure passes some ticket over iff its own turn had not come |
| Tickets.PassedOverWaitsForever | src/Producer.cpp:74-76 | A waiting push that was passed over is in its wait loop in every continuation |
| Tickets.FlushHangsAfterPassingOver | src/Producer.cpp:128-135 | From then on the counter that flush() waits for is never zero |
| Tickets.RejectStallsIff | src/Producer.cpp:98-103 | A failure makes the served ticket one that is already done iff it is the failure of the very next ticket |
| Tickets.StalledEnqueuesNothing | src/Producer.cpp:73-76 | Then no push at all is enqueued in any continuation, until another one fails |
| Tickets.NoDeadlock | src/Producer.cpp:71-97 | With tickets in turn, the ticket protocol lets the served one move, and moving lowers the remaining work; whether its ULT is awake is in TurnWaits |
| Tickets.WorkDecreases | src/Producer.cpp:58-123 | Every action of a ULT lowers the measure, and only a new push call raises it |
| Tickets.EveryTicketIsServed | src/Producer.cpp:71-97 | Moving the served ticket ends with every push enqueued; whether its ULT is awake is in TurnWaits |
| TurnWaits.AllServedIff | src/Producer.cpp:71-105 | With tests, sleeps and notifications as steps of their own and tickets in turn: all pushes can still be enqueued, none failing, iff the ULT whose turn it is has not overslept it |
| TurnWaits.NotifyOversleepsIff | src/Producer.cpp:74-105 | It oversleeps iff the last pending notification comes between its failed test and its sleep |
| TurnWaits.OnlyNotifyOversleeps | src/Producer.cpp:71-105 | No other step makes anybody oversleep |
| TurnWaits.RejectKeepsAttentiveIff | src/Producer.cpp:98-105 | A failure endangers the next turn iff the ULT whose turn comes has just tested in vain |
| TurnWaits.NobodyOversleepsFromNew | src/Producer.cpp:73-105 | In no run without failures does anybody oversleep |
| TurnWaits.OversleptForever | src/Producer.cpp:74-76 | An overslept turn is not taken in any continuation without a further failure |
| TurnWaits.FlushHangsAfterOversleeping | src/Producer.cpp:128-135 | Nor does the counter of flush() reach zero in one |
| TurnWaits.PostingIsAllowed | src/Producer.cpp:46-72 | Two pushes reach the state in which the failing run starts |
| TurnWaits.FailureIsSleptThrough | src/Producer.cpp:74-105 | The failing run: the second push tests, the first fails and notifies, the second sleeps although its turn has come |
| TurnWaits.WaiterMayIff | src/Producer.cpp:73-105 | With the mutex, a waiting ULT enqueues iff its ticket is the one served and sleeps iff it is any other; ULTs notify before they leave |
| TurnWaits.RunsAreTicketRuns | src/Producer.cpp:46-126 | Without tests, sleeps and notifications every run is one of the ticket protocol |
| Tickets.ActKeepsCount | src/Producer.cpp:106-121 | m_num_posted_ults counts exactly the ULTs posted and not yet gone |
| Tickets.CountZeroIff | src/Producer.cpp:106-121 | The count of ULTs in the pool is zero iff each one is not posted yet or has left |
| Tickets.FlushBarrier | src/Producer.cpp:128-135 | When the counter is zero every posted push has been enqueued or has failed |
| EventPathTickets.ProducersAreTicketRuns | src/Producer.cpp:46-126 | Every producer of a reachable state of the whole system is where a run of the ticket protocol takes a new one |
| EventPathTickets.FlushBarrier | src/Producer.cpp:128-135 | In every reachable state with the counter at zero, each posted push has failed, has its promise fulfilled, or waits in its queue or batch |
| EventPathTickets.PostedIsCounted | src/Producer.cpp:106-121 | In every reachable state the counter is the number of ULTs posted and not gone |
| EventPathTickets.TicketsAreInTurn | src/Producer.cpp:73-94 | In every reachable state of a strict producer without failures exactly the pushes below the count are enqueued |
| BatchQueues.ConcatEnqueued | src/ProducerBatchImpl.hpp:149-157 | Whatever batches are opened, a push puts its event at the very end |
| BatchQueues.Conservation | src/ProducerBatchImpl.hpp:139-215 | In every reachable state sent, in-flight and queued batches together are what was pushed, in order |
| BatchQueues.SentBatches | src/ProducerBatchImpl.hpp:149-213 | For fixed B >= 1 sent batches hold 1 to B events, and at most one per flush call and one more is short |
| BatchQueueLoops.LoopRests | src/ProducerBatchImpl.hpp:190-215 | From any state the loop, without calls and notifications, sleeps or ends after at most one step per queued batch and two more, and keeps conservation |
| BatchQueueLoops.LoopSendsAllIff | src/ProducerBatchImpl.hpp:190-215 | From any state the loop, without calls and notifications, empties the queue iff a condition on its sender state, requests and batches holds; a sleeping loop sends nothing |
| BatchQueueLoops.PushToSleepingIff | src/ProducerBatchImpl.hpp:144-160 | A push to a sleeping loop leaves it asleep on a batch it should send iff the push fills that batch; without further calls everything is sent iff batches are adaptive, or B = 1 and a full batch was slept on before |
| BatchQueueLoops.FullBatchIsSleptOn | src/ProducerBatchImpl.hpp:144-160 | The failing input: B = 1, a loop that waits on an empty queue, one push; the full batch stays |
| BatchQueues.DoKeepsSleepsOnOne | src/ProducerBatchImpl.hpp:149-201 | Every step keeps that a sleeping loop leaves at most one batch queued, and none if batches are adaptive |
| BatchQueueLoops.StopDrainsIff | src/ProducerBatchImpl.hpp:163-215 | A stop() call makes the loop end with every event sent iff the loop has started before it (and has not ended before later pushes) |
| BatchQueueLoops.StopDrains | src/ProducerBatchImpl.hpp:193-215 | From an accepted stop request on, the loop ends within one step per queued batch and one more with every event sent exactly once |
| BatchQueueLoops.StopBeforeStartIsLost | src/ProducerBatchImpl.hpp:163-177 | The failing input: one push, then stop() before the loop's ULT has run; the event is never sent |
| BatchQueues.DoKeepsDrainable | src/ProducerBatchImpl.hpp:163-215 | Every step keeps the condition under which a terminated loop has left nothing behind |
| BatchQueueLoops.FlushDrainsIff | src/ProducerBatchImpl.hpp:179-212 | For any batch size and any state of the loop: a flush() call leaves nothing queued iff nothing was, or a loop that has not ended is being stopped, is adaptive, or finds full every batch but the one that a waiting loop takes because of the call |
| BatchQueueLoops.FlushDrainsShapedIff | src/ProducerBatchImpl.hpp:179-212 | For B >= 1 that is: nothing queued, adaptive, the last batch full, or at most one batch and the loop waiting |
| BatchQueueLoops.FlushInFlightIsLost | src/ProducerBatchImpl.hpp:208-211 | The failing input: a flush() call while a batch is being sent leaves the one queued event |
| BatchQueueLoops.OneInFlightIsReached | src/ProducerBatchImpl.hpp:139-209 | Three pushes and one pass of the loop reach the state of that input |
| BatchQueues.ZeroBatchSizeQueuesEmptyBatch | src/ProducerBatchImpl.hpp:149-157 | With batch size 0 the first push queues an empty batch before its own |
| ActiveProducerBatchQueues.ActiveProducerBatchQueue.Push | src/ProducerBatchImpl.hpp:139-161 | The method is the push of the state machine, notification included |
| ActiveProducerBatchQueues.ActiveProducerBatchQueue.Add | src/ProducerBatchImpl.hpp:144-157 | The event goes to the end of the batches, and a notification is due exactly if batches are adaptive, or the last batch is full (an empty queue counts as full only for batch size 0) |
| ActiveProducerBatchQueues.ActiveProducerBatchQueue.Stop | src/ProducerBatchImpl.hpp:163-169 | Requests a stop and wakes the loop exactly if the loop runs |
| ActiveProducerBatchQueues.ActiveProducerBatchQueue.Flush | src/ProducerBatchImpl.hpp:179-186 | Requests a flush and wakes the loop exactly if the loop runs |
| ActiveProducerBatchQueues.ActiveProducerBatchQueue.BeginLoop | src/ProducerBatchImpl.hpp:191-192 | The loop runs and is about to look at the queue |
| ActiveProducerBatchQueues.ActiveProducerBatchQueue.TakeNext | src/ProducerBatchImpl.hpp:193-208 | The loop with the mutex, with its inner wait and continue, does what Look of the state machine does |
| ActiveProducerBatchQueues.ActiveProducerBatchQueue.AfterSending | src/ProducerBatchImpl.hpp:209-212 | What follows sendBatch is the Returned step of the state machine |
| ActiveProducerBatchQueues.ActiveProducerBatchQueue.IsAwake | src/ProducerBatchImpl.hpp:194-201 | The wait's predicate is that of the state machine |
| ActiveProducerBatchQueues.ActiveProducerBatchQueue.RunLoop | src/ProducerBatchImpl.hpp:190-215 | From its start, or from a notification on, the loop without further calls sends what the state machine sends and comes to rest in the same state |
| ActiveProducerBatchQueues.CallReceiveBatch | src/ProducerBatchImpl.hpp:217-237 | Exposing, transferring and appending a batch appends exactly its events to the stored log and returns its old length; a refused call changes nothing and a lost reply is an error all the same |
| ActiveProducerBatchQueues.SendBatch | src/ProducerBatchImpl.hpp:217-246 | If the RPC succeeds promise i holds the old length of the log plus i, where event i is stored; if it is refused or its reply is lost all hold the exception, and the log has grown only in the second case |
| ProducerBatches.ProducerBatch.Push | src/ProducerBatchImpl.hpp:61-79 | The arrays stay the packed form of the pushed events, with sizes that add up: what receiveBatch trusts |
| ProducerBatches.ProducerBatch.ExposeMetadata | src/ProducerBatchImpl.hpp:81-88 | The bulk holds all sizes, then all metadata, and is as long as it announces |
| ProducerBatches.ProducerBatch.ExposeData | src/ProducerBatchImpl.hpp:90-112 | The same for data, with empty segments left out |
| ProducerBatches.ProducerBatch.SetPromises | src/ProducerBatchImpl.hpp:47-59 | Every promise is set once: promise i to firstId + i, or the first to the exception and the others to what a moved-from exception says |
| Promises.Promise.Set | src/Promise.hpp:26-36 | Sets the shared state unless no future is left |
| TopicLog.PacksIffSums | src/MemoryTopicManager.hpp:41-49 | Three arrays store some sequence of entries iff offsets are the prefix sums of the sizes and the sizes add up to the content |
| TopicLog.AppendPacks | src/MemoryTopicManager.cpp:40-72 | A well-formed bulk adds its entries behind the others and moves none |
| TopicLog.AppendPacksIff | src/MemoryTopicManager.cpp:88-95 | For any bulk at least as long as the sizes it announces: the arrays still store a log iff the sizes sent add up to the content sent |
| TopicLog.ShortBulkCutsLog | src/MemoryTopicManager.cpp:73-87 | For a shorter bulk the subtraction wraps: the content array is cut below what the log needs, or asked to grow to almost all of the address space |
| TopicLog.ReceiveStores | src/MemoryTopicManager.cpp:39-119 | receiveBatch of a well-formed batch refines appending its events to the log |
| TopicLog.IssuedReadsData | src/MemoryTopicManager.cpp:102-118 | The descriptor issued for entry i reads exactly its data, also after any later appends |
| MemoryTopicManagers.MemoryTopicManager.FillOffsets | src/MemoryTopicManager.cpp:97-101 | The offset loop fills exactly the new entries with running sums |
| MemoryTopicManagers.MemoryTopicManager.ReceiveColumn | src/MemoryTopicManager.cpp:73-101 | Growing the arrays and receiving the bulk in one transfer appends its sizes, content and offsets |
| MemoryTopicManagers.MemoryTopicManager.IssueDescriptors | src/MemoryTopicManager.cpp:102-118 | One saved descriptor per new event, with its size and running offset |
| MemoryTopicManagers.MemoryTopicManager.ReceiveBatch | src/MemoryTopicManager.cpp:36-122 | Returns the old length and does to the nine arrays what TopicLog says, for any two bulks |
| MemoryTopicManagers.MemoryTopicManager.ReadCursor | src/MemoryTopicManager.cpp:136-140 | Returns the cursor of the name, inserting 0 for a new one |
| MemoryTopicManagers.MemoryTopicManager.NextFeed | src/MemoryTopicManager.cpp:131-203 | A pass sends nothing iff the session is at the end of the log; with batch size 0 it goes to the end, with B > 0 it sends B events or goes to the end; its four references hold exactly their sizes, metadata and descriptors |
| MemoryTopicManagers.FeedHoldsRange | src/MemoryTopicManager.cpp:158-193 | Arrays that store a log expose exactly the entries of any range of it |
| MemoryTopicManagers.MemoryTopicManager.Acknowledge | src/MemoryTopicManager.cpp:210-218 | Stores the id after the acknowledged one and changes no other name |
| MemoryTopicManagers.MemoryTopicManager.GetData | src/MemoryTopicManager.cpp:220-243 | Transfers the bytes at the location of the first descriptor, then reports an error unless it is the only one |
| Sessions.FedIsPrefix | src/MemoryTopicManager.cpp:136-205 | If clients acknowledge what they were fed, the ids ever fed under a name are a gap-free prefix of the log, and its cursor lies in it |
| Sessions.NeverWraps | src/MemoryTopicManager.cpp:150-151 | Over any run whose acknowledgements are of events of the log, fed or not, or of the largest size_t, the subtraction never wraps, in any session |
| Sessions.FedIsInLog | src/MemoryTopicManager.cpp:129-218 | Clients that acknowledge only what they were fed meet that condition |
| Sessions.AnyAcknowledgementIff | src/MemoryTopicManager.cpp:210-218 | In any state, after acknowledging an arbitrary id a new session subtracts without wrapping iff that id meets the condition |
| Sessions.SessionIsSliceIff | src/ConsumerHandle.cpp:26-47 | In any run, a session has delivered exactly the log from its start on iff none of its feed() calls is a step that failed |
| Sessions.FeedEnabledIff | src/MemoryTopicManager.cpp:131-156 | In any run, a session can be fed iff it is behind the end of the log; a pass then goes to the end if it was opened with batch size 0, and sends B events or goes to the end for B > 0 |
| Sessions.PassesReachEnd | src/MemoryTopicManager.cpp:145-204 | Without appends, passes bring a session to the end of the log in at most as many passes as events are left, and deliver all of them |
| Sessions.StateOfCalls | src/MemoryTopicManager.cpp:129-140 | In any run the log is what was appended, in order, and there is one session per call of feedConsumer, with its name and batch size |
| Sessions.SessionStartsAfterLastAck | src/MemoryTopicManager.cpp:136-140 | A session starts right after the last acknowledged event of its name, or at 0 |
| Sessions.FedTwiceIff | include/mofka/TopicManager.hpp:121-131 | A pass feeds an event again iff another session of the name is or was ahead |
| Sessions.AlwaysFedInv | src/MemoryTopicManager.cpp:129-218 | Every interleaving of appends, sessions, passes and such acknowledgements keeps both invariants |
| ConsumerBatches.ConsumerBatch.PullFrom | src/ConsumerBatchImpl.hpp:58-95 | The four vectors hold exactly the four remote regions |
| ConsumerBatches.FourWrites | src/ConsumerBatchImpl.hpp:77-94 | Four transfers at running offsets fill the local bulk without overlap |
| Consumers.Consumer.Scatter | src/Consumer.cpp:142-144 | The batch holds the sizes, metadata and descriptors of the fed range of the log |
| Consumers.Consumer.EntryBytes | src/Consumer.cpp:184-193 | The bytes between two running offsets are those of one entry |
| Consumers.Consumer.Decode | src/Consumer.cpp:181-207 | Deserializing, loading and requesting gives the outcome of the log entry |
| Consumers.Consumer.Walk | src/Consumer.cpp:148-213 | Walking the batch with running offsets gives event i the metadata and descriptor of entry first + i |
| Consumers.Consumer.RecvBatch | src/Consumer.cpp:132-215 | Feed then receive is the identity: the next cells hold, in order, the outcomes of exactly the fed entries |
| Consumers.FeedsJoin | src/Consumer.cpp:132-215 | Consecutive feeds of any sizes, with appends in between, give what one feed of the whole range of the final log gives |
| Consumers.OutcomesStay | src/MemoryTopicManager.cpp:102-118 | What a consumer made of entries is what it would make of them after any later appends |
| Consumers.Consumer.Pull | src/Consumer.cpp:55-74 | Returns the cell of the first event not pulled yet, or a new one |
| Consumers.Consumer.NextPromise | src/Consumer.cpp:154-173 | The next event gets the cell of the oldest pull without one, or a new one, and it is still open |
| Consumers.Consumer.RequestData | src/Consumer.cpp:217-262 | Nothing is asked for without a selector or for size 0; memory of a wrong size is an error; else the data behind the event's own descriptor is copied over the front of the broker's memory |
| Pairing.AlwaysPaired | src/ConsumerImpl.hpp:44-63 | In every interleaving and for any initial flag the deque is the difference of both counts and the flag names the side |
| Pairing.KthPullGetsKthEvent | src/Consumer.cpp:55-74 | Pull k gets event k as soon as it is received, no other, and no other pull gets it |
| Delivery.PackedDescriptorReadsData | src/DataDescriptorImpl.hpp:95-173 | Loading from the packed array at an entry's offset gives a descriptor that reads that entry's data and leaves the rest |
| Delivery.PulledIsPushed | src/Consumer.cpp:181-207 | An event in any log is decoded to its id, metadata and, if all of it is wanted, data |
| Delivery.PullFailsIff | src/Consumer.cpp:217-252 | The pull of a pushed event fails iff the broker provides memory of a wrong size for what was selected, with that error |
| Delivery.RequestedIsHead | src/Consumer.cpp:248-252 | Whatever part is selected, the head of the data is delivered |
| Delivery.PartialRequestIff | src/Consumer.cpp:222-252 | The delivered bytes are the selected ones for all data iff nothing is selected or the views start at the beginning |
| Handshake.DoKeepsInv | src/ProviderImpl.hpp:200-261 | Every step of any handler or loop keeps the invariant when ids are unique |
| Handshake.RemoveCompletesOnlyAfterStop | src/ProviderImpl.hpp:243-261 | removeConsumer completes only after its consumer was registered and its flag set |
| Handshake.OnlyTheRemovedIsStopped | src/ProviderImpl.hpp:248-259 | A consumer is stopped only by a removal that names it |
| Handshake.RemovalFindsItsConsumer | src/ProviderImpl.hpp:249-258 | A removal, however early, can go on once its consumer is registered iff no other removal has taken it |
| Handshake.AtMostOneLateBatch | src/MemoryTopicManager.cpp:145-204 | In any run, at most one batch of a request is fed in states in which its flag is set |
| Handshake.StateOfCalls | src/ProviderImpl.hpp:200-261 | In any run there is one request per requestEvents call, with its id and topic, and one removal per removeConsumer call, with its id |
| Handshake.NewEventsAreFed | src/MemoryTopicManager.cpp:120-157 | New events of a topic wake the loops that sleep on it, and no others: one that was not told to stop can then feed and go on, one that was leaves and is gone |
| Handshake.NewEventsWakeOnlySleepers | src/MemoryTopicManager.cpp:120-127 | They change nothing else |
| Handshake.NothingToSend | src/MemoryTopicManager.cpp:147-156 | A loop that finds nothing to send sleeps unless it was told to stop, and then leaves |
| Handshake.MayIff | src/ProviderImpl.hpp:200-261 | Requests, removals and events come at any time, and a search goes on iff its consumer is registered |
| Handshake.EraseUnregisters | src/ProviderImpl.hpp:224-227 | The end of requestEvents takes exactly its id out of the map |
| Handshake.RemovalStopsTheLoop | src/ProviderImpl.hpp:243-261 | Non-vacuity: removeConsumer of a registered consumer whose loop sleeps goes through to its end, and the loop is gone |
| Handshake.LastEraseDropsNothing | src/ProviderImpl.hpp:224-227 | The erase after feeding never drops another registration |
| Handshake.RegisteredIff | src/ProviderImpl.hpp:218-221 | A request is registered iff its id is free at that moment |
| Handshake.UnregisteredNeverStops | src/ProviderImpl.hpp:218-227 | A request that was not registered is never told to stop, in any continuation |
| Handshake.WakeUpIsLostIff | src/ConsumerHandle.cpp:49-52 | After the notification a stopped loop can still fall asleep iff it came between the look at the flag and the sleep |
| Providers.ProviderImpl.Register | src/ProviderImpl.hpp:213-222 | The part of requestEvents before feeding is its step |
| Providers.ProviderImpl.Unregister | src/ProviderImpl.hpp:224-227 | The part after feeding is its step |
| Providers.ProviderImpl.Find | src/ProviderImpl.hpp:249-258 | One turn of the search takes the handle exactly when the step is enabled, else changes nothing |
| Providers.ProviderImpl.SetShouldStop | src/ConsumerHandle.cpp:49-50 | Setting the flag is its step |
| Providers.ProviderImpl.WakeUp | src/ConsumerHandle.cpp:51 | Waking the sleeping loops of the topic is its step |
| DataDescriptors.SelfDelimiting | src/DataDescriptorImpl.hpp:95-173 | Loading a saved descriptor with any views and any tail gives it back and leaves exactly the tail |
| DataDescriptors.CanonicalIff | src/DataDescriptorImpl.hpp:129-173 | Saving what was loaded reproduces the bytes iff every announced view has tag 0, 1 or 2 |
| WireFormats.DescriptorLayout | src/DataDescriptorImpl.hpp:119-126 | A saved descriptor is its size, the length of the location, the location, the number of views, the views |
| WireFormats.ViewLayout | src/DataDescriptorImpl.hpp:96-118 | A view is one byte, 0, 1 or 2, and its fields in the order of the structure |
| WireFormats.SegmentsLayout | src/DataDescriptorImpl.hpp:111-117 | Segment i lies at byte 16 i, offset before size |
| WireFormats.IssuedLayout | src/MemoryTopicManager.cpp:102-118 | The descriptor issued for stored data is five numbers: size, 16, offset, size, 0 |
| WireFormats.SizeLayout | include/mofka/BufferWrapperArchive.hpp:26-34 | A size_t is written as its eight bytes, low byte first |
| WireFormats.SizesLayout | src/ProducerBatchImpl.hpp:84-87 | Element i of an array of size_t values lies at byte 8 i |
| WireFormats.LoadExtends | src/DataDescriptorImpl.hpp:129-173 | Loading does not look at the bytes behind what it takes |
| WireFormats.TruncatedFails | src/DataDescriptorImpl.hpp:129-173 | The first k bytes of any saved descriptor load iff they are all of it, and else loading reads past the end |
| WireFormats.UnknownTagIsSkipped | src/DataDescriptorImpl.hpp:142-171 | A view with a tag above 2 is its tag alone, and is not kept |
| DataDescriptorImpls.DataDescriptorImpl.Save | src/DataDescriptorImpl.hpp:95-127 | Appends exactly the encoding |
| DataDescriptorImpls.DataDescriptorImpl.Load | src/DataDescriptorImpl.hpp:129-173 | Loads exactly what the parser yields, with its remaining bytes or its error |
| DataDescriptorImpls.DataDescriptorImpl.LoadViews | src/DataDescriptorImpl.hpp:135-172 | The loop keeps the known views and fails where the parser does |
| DataDescriptorImpls.DataDescriptorImpl.Flatten | src/DataDescriptorImpl.hpp:47-93 | The nested loops compute the segments of either variant, or the error of a view they do not support |
| DataDescriptorImpls.DataDescriptorImpl.FlattenSub | src/DataDescriptorImpl.hpp:51-78 | The loop with its two accumulators computes one pass |
| DataDescriptorImpls.DataDescriptorImpl.MakeSubView | src/DataDescriptor.cpp:70-81 | A new object at the same location with the clamped view on top, or the null descriptor; the old one is unchanged |
| DescriptorViews.SubViewSelects | src/DataDescriptor.cpp:70-81 | makeSubView stands for cutting the bytes, at the same location and with the exact size, or is null exactly when there is nothing to select |
| DescriptorViews.CutSelects | src/DataDescriptor.cpp:70-81 | Any chain of makeSubView calls stands for cutting the same data in turn |
| DescriptorViews.ViewsSelect | src/DataDescriptor.cpp:29-31 | A nested stack selects one range inside the data, of exactly m_size bytes |
| DescriptorViews.FlattenMeansSlicing | src/DataDescriptorImpl.hpp:47-93 | With both corrections, flattening any sub-views reads what slicing by each in turn selects, iff no view's end wraps to exactly 0 or nothing is selected; with stacks of makeSubView none does |
| DescriptorViews.FlattenIsChain | src/DataDescriptorImpl.hpp:90-92 | Starting from one segment, sub-views never make two: either variant ends with one segment or none |
| DescriptorViews.FlattenFailsIff | src/DataDescriptorImpl.hpp:80-92 | flatten fails iff some view is not a sub-view, and the first such view decides the message |
| DescriptorViews.ShippedFlattenIff | src/DataDescriptorImpl.hpp:47-93 | As it is, flatten is right iff a stated condition on the offsets holds |
| DescriptorViews.ShippedFlattenFails | src/DataDescriptorImpl.hpp:48 | The second half of ten bytes is flattened to nothing |
| BufferWrapperArchive.OutputArchive.Write | include/mofka/BufferWrapperArchive.hpp:26-34 | Appends the bytes |
| BufferWrapperArchive.InputArchive.Read | include/mofka/BufferWrapperArchive.hpp:44-50 | Takes the front or throws and takes nothing |
| BufferWrapperArchive.ParseBlockOfEncode | src/DefaultSerializer.hpp:19-32 | A framed string is read back with exactly its tail left |
| BufferWrapperArchive.EncodeOfParseBlock | src/DefaultSerializer.hpp:19-32 | What was read reproduces the bytes |
| DefaultSerializer.Serialize | src/DefaultSerializer.hpp:19-24 | Appends length and string |
| DefaultSerializer.Deserialize | src/DefaultSerializer.hpp:26-32 | Reads what the parser reads, or throws |
| RapidJsonUtils.ValidateIsJson | src/RapidJsonUtil.hpp:66-102 | The loop with its stack and two flags decides whether the brackets outside the strings of a text are well nested |
| RapidJsonUtils.AcceptedIff | src/RapidJsonUtil.hpp:66-102 | Accepted iff the text is strings, escaped and other characters, and perhaps an unclosed string, such that the characters { } [ ] outside are a well-nested word |
| RapidJsonUtils.PiecesAcceptedIff | src/RapidJsonUtil.hpp:66-102 | However a text is taken apart into such pieces, it is accepted iff the brackets outside are well nested |
| RapidJsonUtils.TextHasPieces | src/RapidJsonUtil.hpp:68-99 | Every text can be taken apart so |
| RapidJsonUtils.JsonIsAccepted | src/RapidJsonUtil.hpp:66-102 | Every text of sections 2 to 7 of RFC 8259, at any depth and with any escapes, is accepted |
| RapidJsonUtils.ExtraBracketIsRejected | src/RapidJsonUtil.hpp:76-101 | A JSON text with one more bracket of any kind before or behind it is not accepted |
| RapidJsonUtils.UnclosedIsRejected | src/RapidJsonUtil.hpp:82-101 | Nor is an array or object without its last bracket, or with a wrong one |
| RapidJsonUtils.ValueIsNeutral | src/RapidJsonUtil.hpp:71-99 | Every value leaves stack, string flag and escape flag as it found them |
| RapidJsonUtils.OtherTextsAreAccepted | src/RapidJsonUtil.hpp:101 | The empty text and an unterminated string are accepted too |
| PrioPools.LessIsStrictTotalOrder | src/PrioPool.cpp:26-36 | operator< is a strict order, total on different threads |
| PrioPools.TakenAscend | src/PrioPool.cpp:147-162 | Units leave the pool by ascending value in their argument blocks, one without a block before all of positive value, equal ones by descending address, and none that should leave first is left behind |
| PrioPools.OrderIsDetermined | src/PrioPool.cpp:42 | Units and order that leave the pool depend on nothing else |
| PrioPools.PrioPool.Push | src/PrioPool.cpp:83-93 | Adds one unit; pushed equals popped plus contents |
| PrioPools.PrioPool.PushMany | src/PrioPool.cpp:95-110 | Adds them all |
| PrioPools.PrioPool.Pop | src/PrioPool.cpp:131-145 | Takes the unit that may precede all others by value and then address, or nothing exactly if the pool is empty |
| PrioPools.PrioPool.PopMany | src/PrioPool.cpp:147-162 | Takes min(max, size) units in that order, and none left behind should have preceded them |

## Left out

- EventPath steps: the merged stretches named above are single steps, so states between them are not observed.
- ActiveProducerBatchQueues.ActiveProducerBatchQueue.Push: batches are held as sequences of entries, not as ProducerBatch objects; SendBatch has the object.
- ActiveProducerBatchQueues.ActiveProducerBatchQueue.RunLoop: one method for the loop without further calls; its interleavings with calls are in BatchQueues.
- Producers.ProducerImpl.Enqueue: the queues of a producer are values in its map, and promises and ULTs are ghost state; waiting on condition variables is a step that is not enabled.
- Tickets.NoDeadlock: a waiting ULT moves without being woken; TurnWaits.AllServedIff has the wait and its wake-up.
- Tickets.EveryTicketIsServed: the same.
- Consumers.Consumer.RecvBatch: decodes the events of one batch one after the other and then hands them out, where the code runs a ULT per event; Pairing has the interleavings.
- Consumers.Consumer.RequestData: RPC errors and RDMA failures are not modelled, nor memory of several segments.
- DataDescriptorImpls.DataDescriptorImpl.Load: the half-written object after an exception is not described.
- MemoryTopicManagers.MemoryTopicManager.GetData: an empty list of descriptors, and a location outside the log, are undefined in the code and excluded.
- MemoryTopicManagers.MemoryTopicManager.ReceiveBatch: the nine arrays are three columns of three; capacity growth and partial transfers are not modelled. A bulk shorter than the sizes it announces is excluded: what the transfer does after the wrapped resize that TopicLog.ShortBulkCutsLog describes is undefined.
- MemoryTopicManagers.MemoryTopicManager.ReceiveColumn: excludes the same short bulks.
- TopicLog.AppendPacksIff: excludes the same short bulks; TopicLog.ShortBulkCutsLog has them up to the resize.
- ProducerBatches.ProducerBatch.Push: a serializer that throws half-way would leave stray bytes; only the default serializer is modelled.
- BufferWrapperArchive.OutputArchive.Write: the archive owns its buffer and callers copy it back, where the code writes through a reference.
- Handshake.UnregisteredNeverStops: topics that do not exist, and errors of feedConsumer, are not modelled.
- Sessions.SessionIsSliceIff: what a failed feed() call may have delivered before it failed counts as missed.
- PrioPools.PrioPool.Pop: the heap inside std::priority_queue, and pool_pop_wait's timed wait, are taken at their contracts.
- RapidJsonUtils.JsonIsAccepted: texts are sequences of characters, not UTF-8 bytes; numbers and escapes are a superset of the grammar's.
- DefaultTopicManager and WarabiDataStore: they depend on a storage service that is not part of this model.
- makeStridedView and makeUnstructuredView: flatten refuses both kinds of view; save and load are modelled for them.
- MetadataImpl caching, JSON schema validation, factories, UUIDs, logging, Bedrock and SSG modules, and command-line clients.
- Target selection, topic and provider lookup: the target is arbitrary.
- Real time, the latency and fairness of wake-ups, and the lifetimes of producers and consumers.
