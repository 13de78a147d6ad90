# Verified models of the gRPC wrapper's state machines

This project models the parts of the wrapper library in which something can go
wrong that no single function shows: the server's broadcast stream handler, the
client's connection state machine, the two accept loops, the blocking queue and
its monitor, and the bit-level comparison of floating-point numbers. It proves
properties of every run of these machines, over every interleaving of their
threads and every answer gRPC may give.

## How the machines are modelled

Each critical section is one atomic step on a value type (`World`, `Client`,
`Server`, ...). A run is a list of steps, each possible in the state the earlier
ones led to; theorems quantify over all runs. gRPC is an adversary: it returns each
tag it was lent at most once, in any order, with any `ok` flag. The allocator is
one too: it may return any address that is not in use, including a freed one. The
C++ classes appear as Dafny classes whose methods update their fields in place, in
the loops the source has; each method's contract equates its new state with a step
of the machine, so that what is proved about runs is proved about the methods.

| file | source | what is in it |
|---|---|---|
| Tags.dfy | `tag.cpp` (both versions) | the table of tags lent to gRPC |
| Sequences.dfy | | prefixes of sequences of steps |
| StreamRpc.dfy | `stream_rpc_handler.hpp` | the broadcast handler's steps and what holds whatever gRPC returns |
| StreamDeletion.dfy | `stream_rpc_handler.hpp` | who is deleted and when; the completion contract and its exactness |
| StreamRpcHandler.dfy | `stream_rpc_handler.hpp` | the handler object, and the lock and threads around its data |
| Monitors.dfy | `atomic_data.hpp` | mutex, condition variable and data; when a wake-up can be lost |
| StreamWakeup.dfy | `stream_rpc_handler.hpp` | writers that sleep and are woken |
| BlockingQueues.dfy | `blocking_queue.hpp` (both versions) | the queue, its history, its sleepers |
| HandOff.dfy, HandOffWakeup.dfy | `blocking_queue_tests.cpp` | two threads taking turns through two queues, first with pops that just wait, then with sleeping and waking |
| Bits.dfy, FloatingPoint.dfy | `AlmostEquals.h` | unsigned words, masks, the comparison |
| Ulps.dfy | `AlmostEquals.h` | what the comparison means over the reals |
| ClientStreams.dfy | `grpc_client_stream.hpp` | one stream: starts, stops, callbacks |
| Clients.dfy, GrpcClient.dfy | `grpc_client.hpp` | the client's sessions, and the client object |
| AcceptLoop.dfy, GrpcAsyncServer.dfy | `grpc_async_server.hpp`, `non_stream_rpc_handler.hpp` | the accept loop over unary and stream handlers; the server, its map and the unary handler as objects |
| AsyncServerRuns.dfy, AsyncServerLoops.dfy, AsyncServer.dfy | `async_server.hpp`, `unary_rpc_handler.hpp`, `tagger.cpp` | the new-architecture server |

## The completion contract of the stream handler

The handler removes a connection in a race between its "done" tag and an
outstanding "writing" tag, and relies on an ordering it never checks (the comment at
`stream_rpc_handler.hpp:294`). `StreamDeletion.Contract` states it for one returned
tag: a done event is handled only for an activated connection, and an operation
fails exactly when the done event of its connection has been handled.

- Theorems that do **not** use the contract: everything in StreamRpc.dfy
  (`AlwaysConsistent`, `BatchesDoNotOverlap`), everything in StreamWakeup.dfy, and the
  methods of the handler object.
- Theorems that **do**: `DeletedExactlyOnce`, `AlwaysDoneBeforeGone`, `NothingAfterDone`,
  `ErasedIsForgotten`, `TagCount`, `AllGone`, `RaceHasOneOutcome`.
- `ContractIsExact` and `AccountedIffContract` show that the contract is not merely
  sufficient: the bookkeeping survives a return, and a whole run, if and only if the
  contract is kept. `DanglingWithoutContract` is a five-event run without it in which
  the deletion callback reads a destroyed connection.

## Where the code and its comments differ

- `grpc_client.hpp:96` says an in-process client is always connected. After
  `kill_streams_and_channel` it still reports that state although the channel is gone:
  `Clients.KillReturns` proves that a killed client reports "not connected" if and only
  if its last session was not an in-process one.
  `KilledInProcessStaysConnected` is a run that gets there.
- `change_server` does not start streams that are already registered when the new
  channel is ready at once (`grpc_client.hpp:208`): `Clients.LaggingIsDecidedAtConnect`
  gives the condition and `ReadyAtOnceLeavesStreamStopped` a run.
- `register_async` tests the flag at `async_server.hpp:116` and queues its task at 120
  without a lock, and `start` queues the null task before it sets the flag (133-134). A
  registration queued behind the null task is accepted without an exception and never
  carried out: `AsyncServerRuns.RegisteredBeforeServing` is the exact condition. It
  happens between the two lines of `start` (`RegisteredTooLate`) and also when `start`
  has returned, to a call that passed its test earlier (`RegisteredAfterStart`).
- `write` to a client that has left returns without notifying while other clients are
  active (`stream_rpc_handler.hpp:187`, `195-197`), and the next sleeping writer is not
  woken: `StreamWakeup.CallIsSafeIff` gives the exact condition,
  `AbsentClientLosesWakeup` a run, and `LostUntilNextCall` how long it lasts.
- `pop_all_but_most_recent` leaves the item it returns in the queue, and
  `AtomicData::wait_to_use_safely` does not wait for a notification when its
  predicate already holds. The model follows the code.

## Model

| member | source | states |
|---|---|---|
| Tags.TagTable.MakeTag | src/grpcw/server/detail/tag.cpp:51-56 | a new tag enters the table under its own, unused address; no other entry changes |
| Tags.TagTable.GetTag | src/grpcw/server/detail/tag.cpp:58-63 | a lent tag is returned once and leaves the table; an unknown key is reported and changes nothing |
| StreamRpc.AlwaysConsistent | include/grpcw/server/detail/stream_rpc_handler.hpp:142-304 | in every run, with no assumption on gRPC: the tag table is what gRPC holds, `processing` is a subset of `active` and exactly the connections with one writing tag, and each connection was sent its share of the global log in order with at most one operation in flight |
| StreamRpc.BatchesDoNotOverlap | include/grpcw/server/detail/stream_rpc_handler.hpp:180-208 | when a write or finish body runs, every operation of all earlier batches has come back |
| StreamRpc.CompleteConsistent | include/grpcw/server/detail/stream_rpc_handler.hpp:271-305 | handling any returned tag with any `ok` keeps that consistency |
| StreamRpc.IssueConsistent | include/grpcw/server/detail/stream_rpc_handler.hpp:186-208 | so does the body of write or finish, broadcast or targeted |
| StreamRpc.AcceptConsistent | include/grpcw/server/detail/stream_rpc_handler.hpp:144-169 | so does activating the waiting connection and creating the next |
| StreamRpc.IssueReaches | include/grpcw/server/detail/stream_rpc_handler.hpp:186-208 | in every run a write or finish starts its operation on the connection its client argument means, or on all active ones if it is null, and on no other |
| StreamRpc.IssueMarks | include/grpcw/server/detail/stream_rpc_handler.hpp:189-204 | it marks exactly these connections as being processed, with one new writing tag for each, and leaves the rest of the state alone |
| StreamRpc.AcceptConnects | include/grpcw/server/detail/stream_rpc_handler.hpp:144-169 | an accept makes the waiting connection active, tells the connection callback, and leaves a new one waiting with its done tag |
| StreamRpc.OperationReturns | include/grpcw/server/detail/stream_rpc_handler.hpp:276-291 | a returned operation leaves its connection unprocessed and counted, and deletes it if and only if it failed |
| StreamRpc.DoneReturns | include/grpcw/server/detail/stream_rpc_handler.hpp:293-303 | a done event is noted and deletes its connection at once unless an operation on it is being processed |
| StreamRpc.DrainsIffLast | include/grpcw/server/detail/stream_rpc_handler.hpp:290-310 | a returned tag wakes a writer iff it is that of the only operation still being processed |
| StreamRpc.ReturnsAreRun | include/grpcw/server/detail/stream_rpc_handler.hpp:263-312 | a stretch of the synchronisation thread's loop is a stretch of the run, possible iff the run is |
| StreamDeletion.ContractIsExact | include/grpcw/server/detail/stream_rpc_handler.hpp:276-304 | from a well-kept state, handling a return keeps tags, done marks and deletion log in order if and only if the completion contract holds for it |
| StreamDeletion.AccountedIffContract | include/grpcw/server/detail/stream_rpc_handler.hpp:142-304 | over a whole run the books balance after every step if and only if every return kept the contract |
| StreamDeletion.DeletedExactlyOnce | include/grpcw/server/detail/stream_rpc_handler.hpp:283-301 | under the contract the connections that ever connected are the disjoint union of the active and the deleted, the deletion callback firing once for each of the latter and never on a destroyed object |
| StreamDeletion.RaceHasOneOutcome | include/grpcw/server/detail/stream_rpc_handler.hpp:276-304 | both orders in which a done tag and a writing tag of one connection may return are allowed, delete it once and end in the same state |
| StreamDeletion.NothingAfterDone | include/grpcw/server/detail/stream_rpc_handler.hpp:189-207 | under the contract no write or finish is issued on a connection whose done event was handled |
| StreamDeletion.ErasedIsForgotten | include/grpcw/server/detail/stream_rpc_handler.hpp:281-301 | when a return erases a connection no tag names its address any more, so the address may be reused |
| StreamDeletion.TagCount | include/grpcw/server/detail/stream_rpc_handler.hpp:160-161 | gRPC holds one tag per operation in flight plus one per created connection whose done event is unhandled; those are the waiting one and the active ones not marked |
| StreamDeletion.AlwaysDoneBeforeGone | include/grpcw/server/detail/stream_rpc_handler.hpp:276-304 | under the contract no connection is deleted before its done event was handled, and every connection made has connected or waits |
| StreamDeletion.AllGone | include/grpcw/server/detail/stream_rpc_handler.hpp:293-303 | once gRPC holds a single tag everybody who connected has been deleted |
| StreamDeletion.DanglingWithoutContract | include/grpcw/server/detail/stream_rpc_handler.hpp:281-301 | a run that breaks the contract and makes the deletion callback read a destroyed connection |
| StreamRpcHandlers.StreamRpcHandler.ActivateNext | include/grpcw/server/detail/stream_rpc_handler.hpp:143-170 | the method performs exactly the accept step |
| StreamRpcHandlers.StreamRpcHandler.WriteOrFinish | include/grpcw/server/detail/stream_rpc_handler.hpp:178-215 | the body of write and finish performs exactly the issue step for a null, present or absent client, and asks for a notification iff nobody is active |
| StreamRpcHandlers.StreamRpcHandler.StartAll | include/grpcw/server/detail/stream_rpc_handler.hpp:198-207 | the loop over the active connections, in any order, makes one tag, one `processing` entry and one operation for each and touches nothing else |
| StreamRpcHandlers.StreamRpcHandler.Handle | include/grpcw/server/detail/stream_rpc_handler.hpp:271-310 | one round of the synchronisation thread performs exactly the return step and asks for a notification iff it emptied `processing` |
| StreamRpcHandlers.StreamRpcHandler.RunSynchronization | include/grpcw/server/detail/stream_rpc_handler.hpp:263-312 | the loop handles a stretch of returns in turn and notifies once for each that drained the batch |
| Monitors.BodyIsSafeIff | include/grpcw/util/atomic_data.hpp:119-123 | a waiting thread's body never loses a wake-up, whatever threads there are, iff it notifies whenever it leaves the condition true |
| Monitors.UseIsSafeIff | include/grpcw/util/atomic_data.hpp:105-108 | a plain critical section never loses one iff it notifies whenever it makes the condition true |
| Monitors.AtomicData.WaitToUseSafely | include/grpcw/util/atomic_data.hpp:117-123 | an awake thread runs its function if the predicate holds of the data it finds, and otherwise sleeps and changes nothing |
| Monitors.AtomicData.UseSafely | include/grpcw/util/atomic_data.hpp:103-108 | the function is applied to the data under the lock; no thread is woken or put to sleep |
| Monitors.AtomicData.NotifyOne | include/grpcw/util/atomic_data.hpp:133-136 | one sleeping thread, if there is any, becomes awake |
| StreamWakeup.ThreadsRefine | include/grpcw/server/detail/stream_rpc_handler.hpp:186-212 | every interleaving of sleeping, waking and notifying threads is, on the shared structures, a run of the handler |
| StreamWakeup.WritersComeAndGo | include/grpcw/server/detail/stream_rpc_handler.hpp:186-212 | a thread waits from its call to the attempt at which its body runs, and sleeps from an attempt that found a batch in progress to its next wake-up |
| StreamWakeup.NotificationsAreCounted | include/grpcw/server/detail/stream_rpc_handler.hpp:211-310 | a notification is owed by the return of the last operation and by a body that ran while nobody was active, by nothing else, and is used once |
| StreamWakeup.WakeupsAreNotifications | include/grpcw/server/detail/stream_rpc_handler.hpp:307-310 | a stretch of returns owes as many notifications as the loop counts |
| StreamWakeup.NoLostWakeup | include/grpcw/server/detail/stream_rpc_handler.hpp:185-212 | with any number of writers whose calls are broadcasts or reach an active client (or find none), a sleeping writer implies an operation in flight, a pending notification or an awake writer |
| StreamWakeup.QuiescentMeansNobodyBlocked | include/grpcw/server/detail/stream_rpc_handler.hpp:290-310 | when all writing tags are back and nobody is awake or owes a notification, no writer is blocked |
| StreamWakeup.CallIsSafeIff | include/grpcw/server/detail/stream_rpc_handler.hpp:187-197 | a body can never lose a wake-up iff it is a broadcast, or its client is active, or nobody is |
| StreamWakeup.AbsentClientLosesWakeup | include/grpcw/server/detail/stream_rpc_handler.hpp:187-197 | a possible run whose last step is a write to a client that is not active, while another is; no wake-up was lost before that step and one is lost after it |
| StreamWakeup.LostUntilNextCall | include/grpcw/server/detail/stream_rpc_handler.hpp:211-213 | after a lost wake-up every sleeping writer sleeps on, whatever gRPC returns and whoever connects, until another thread calls write or finish or a spurious wake-up comes |
| StreamRpcHandlers.AtomicConnections.WaitToIssue | include/grpcw/server/detail/stream_rpc_handler.hpp:185-213 | one attempt of a writer: it issues its batch if nothing is being processed, notifying iff nobody is active, and otherwise falls asleep |
| StreamRpcHandlers.AtomicConnections.UseToHandle | include/grpcw/server/detail/stream_rpc_handler.hpp:270-310 | one round of the synchronisation thread with its notification is a step of the monitor |
| StreamRpcHandlers.AtomicConnections.UseToActivate | include/grpcw/server/detail/stream_rpc_handler.hpp:143-170 | so is an activation, which notifies nobody |
| BlockingQueues.PushedIsConsumedThenQueued | include/grpcw/util/blocking_queue.hpp:59-113 | with any producers, consumers and interleaving, what was pushed is what left, in order, followed by what is queued |
| BlockingQueues.PushedAreArguments | include/grpcw/util/blocking_queue.hpp:59-75 | the push log is the sequence of the pushing calls' arguments |
| BlockingQueues.ConsumerTakesOldest | include/grpcw/util/blocking_queue.hpp:78-84 | a consumer that gets the lock receives the oldest item, or nothing if there is none |
| BlockingQueues.ConsumersComeAndGo | include/grpcw/util/blocking_queue.hpp:78-84 | a consumer waits from its call to the attempt that finds an item, and sleeps from an attempt on an empty queue to its next wake-up |
| BlockingQueues.PushesNotify | include/grpcw/util/blocking_queue.hpp:59-75 | every push owes one notification, nothing else does, and each is used once |
| BlockingQueues.ClearingLeavesNothing | include/grpcw/util/blocking_queue.hpp:107-113 | clear leaves the queue empty and returns nothing to anybody |
| BlockingQueues.OnlyTheNewItem | ltb-util/src/ltb/util/blocking_queue.hpp:53-62 | after clearing and pushing only the new item is queued |
| BlockingQueues.ConsumersReceiveAPrefix | include/grpcw/util/blocking_queue.hpp:59-84 | without discarding operations the consumers together receive a prefix of what was pushed, nothing lost or repeated |
| BlockingQueues.MostRecentIsLastPushed | include/grpcw/util/blocking_queue.hpp:86-93 | pop_all_but_most_recent yields the latest pushed item and leaves exactly that one queued |
| BlockingQueues.SleepersAreCovered | include/grpcw/util/blocking_queue.hpp:59-84 | while a consumer sleeps, queued items are at most awake consumers plus pending notifications |
| BlockingQueues.NobodySleepsOnItems | include/grpcw/util/blocking_queue.hpp:78-84 | in a quiescent state no consumer sleeps on a non-empty queue |
| BlockingQueues.BlockingQueue.Push | include/grpcw/util/blocking_queue.hpp:59-65 | the value is appended behind everything queued and one notification is sent |
| BlockingQueues.BlockingQueue.Pop | include/grpcw/util/blocking_queue.hpp:78-84 | a consumer that gets the lock removes and returns the oldest item, or falls asleep if there is none |
| BlockingQueues.BlockingQueue.PopAllButMostRecent | include/grpcw/util/blocking_queue.hpp:86-93 | the loop leaves one item, the youngest, and returns it |
| BlockingQueues.BlockingQueue.DropUntil | include/grpcw/util/blocking_queue.hpp:108-113 | the popping loops discard from the front, in order, until at most the wanted number is left |
| BlockingQueues.BlockingQueue.ClearAll | include/grpcw/util/blocking_queue.hpp:107-113 | everything queued is discarded in order and nobody is notified |
| BlockingQueues.BlockingQueue.ClearAllAndPushBack | ltb-util/src/ltb/util/blocking_queue.hpp:53-62 | everything queued is discarded in order and the new value is alone |
| HandOff.TakesTurns | src/testing/util/blocking_queue_tests.cpp:79-94 | for every number of rounds and interleaving the threads never touch the shared data together, and it counts from zero |
| HandOff.ExactlyOneMoves | src/testing/util/blocking_queue_tests.cpp:79-94 | no deadlock: until both are done exactly one thread can move |
| HandOff.EndsOrdered | src/testing/util/blocking_queue_tests.cpp:96-103 | every interleaving is over after exactly 6n steps with 0..2n-1 in order and both queues empty |
| HandOffWakeups.WakeupsRefine | src/testing/util/blocking_queue_tests.cpp:69-104 | over queues with locks, condition variables and delayed notifications every interleaving is, with sleeping and waking forgotten, one of those above |
| HandOffWakeups.NobodyIsStuck | src/testing/util/blocking_queue_tests.cpp:69-104 | no wake-up is missed: when nothing but spurious wake-ups can happen, both threads are done, nobody sleeps, the numbers are in order and both queues empty |
| HandOffWakeups.RunsAreBounded | src/testing/util/blocking_queue_tests.cpp:69-104 | an interleaving has at most 60n + 2 steps that are not spurious wake-ups, and one more for each spurious wake-up |
| Bits.LowIsMod | ltb-util/src/google/AlmostEquals.h:246-262 | keeping the low bits of a result is wrapping modulo a power of two, for negative differences too |
| FloatingPoint.FloatAndDoubleMasks | ltb-util/src/google/AlmostEquals.h:131-147 | the masks for float and double as constants |
| FloatingPoint.MasksSelectFields | ltb-util/src/google/AlmostEquals.h:193-197 | for every width the masks isolate the exponent and fraction fields |
| FloatingPoint.FieldsAreDigits | ltb-util/src/google/AlmostEquals.h:102-117 | the fields are quotient and remainder of the word by powers of two, and put together again they are the magnitude |
| FloatingPoint.NanIsBeyondInfinity | ltb-util/src/google/AlmostEquals.h:203-207 | the NaN test holds exactly for magnitudes above infinity's |
| FloatingPoint.BiasedIsShifted | ltb-util/src/google/AlmostEquals.h:246-254 | in wrapping unsigned arithmetic of any width the biased code is the signed number plus half the range |
| FloatingPoint.DistanceIsDifference | ltb-util/src/google/AlmostEquals.h:258-262 | the computed distance is the distance of the signed numbers; nothing wraps |
| FloatingPoint.ComparisonLaws | ltb-util/src/google/AlmostEquals.h:215-222 | symmetric, reflexive exactly on numbers, unchanged by negating both sides, and true of a number and its negation only within two steps of zero |
| FloatingPoint.TransitiveIff | ltb-util/src/google/AlmostEquals.h:215-222 | the comparison is transitive in a format if and only if infinity is at most two steps from zero |
| FloatingPoint.TransitiveFormats | ltb-util/src/google/AlmostEquals.h:215-222 | those are the formats with one exponent bit and at most one fraction bit |
| FloatingPoint.NotTransitive | ltb-util/src/google/AlmostEquals.h:215-222 | an example: 0, 4 and 5 steps from zero, in any format that has them |
| FloatingPoint.ChainDrift | ltb-util/src/google/AlmostEquals.h:161-222 | a chain of n almost equal hops drifts at most 4n steps |
| Ulps.ScaleIsProduct | ltb-util/src/google/AlmostEquals.h:102-117 | the scaling by which a word's value is defined is multiplication by a power of two |
| Ulps.SignificandIsQuotient | ltb-util/src/google/AlmostEquals.h:102-117 | the fraction is the fraction field over two to the number of its bits |
| Ulps.PowerIsPow2 | ltb-util/src/google/AlmostEquals.h:102-117 | the powers are those of the integers, and their inverses |
| Ulps.DecodeIsValue | ltb-util/src/google/AlmostEquals.h:102-117 | decoding a word as IEEE 754-2008 section 3.4 says is reading its signed magnitude off the line of representable numbers |
| Ulps.BiasIsOne | ltb-util/src/google/AlmostEquals.h:102-117 | the word whose exponent field is the bias and whose fraction is zero decodes to 1 |
| Ulps.MaskIsInfinity | ltb-util/src/google/AlmostEquals.h:183 | the exponent mask by itself decodes to infinity |
| Ulps.BiasedOrdersValues | ltb-util/src/google/AlmostEquals.h:231-254 | the biased code orders words that are not NaN exactly as their values, the two zeros equal |
| Ulps.DistanceCountsNumbers | ltb-util/src/google/AlmostEquals.h:256-262 | the distance is the number of representable values from one number to the other, infinity being one step past the largest |
| Ulps.AlmostEqualsMeans | ltb-util/src/google/AlmostEquals.h:209-222 | two words are almost equal iff both are numbers and at most four representable values lie from the one to the other |
| Ulps.ErrorBound | ltb-util/src/google/AlmostEquals.h:149-161 | almost equal finite numbers differ by at most 4 times the larger of 2^-f of the bigger and the smallest positive number |
| Ulps.CloseNumbersAreAlmostEqual | ltb-util/src/google/AlmostEquals.h:149-161 | finite numbers of one sign within four units in the last place of the smaller are almost equal |
| ClientStreams.CallbacksComeInRounds | include/grpcw/client/grpc_client_stream.hpp:79-117 | in every interleaving the trace consists of rounds start, updates, final status, stop; one reader lives at most, and no thread object is dropped unjoined |
| ClientStreams.OneStatusPerRound | include/grpcw/client/grpc_client_stream.hpp:96-112 | each launched reader delivers its final status exactly once, before the stop that joins it returns |
| ClientStreams.HeardIsSaid | include/grpcw/client/grpc_client_stream.hpp:87-100 | over every run the callbacks receive exactly the updates read and the statuses the reader ended with, in order |
| ClientStreams.StartLaunches | include/grpcw/client/grpc_client_stream.hpp:79-86 | a start leaves the stream streaming, with a reader launched unless there was one |
| ClientStreams.StopEndsRound | include/grpcw/client/grpc_client_stream.hpp:104-112 | when a stop returns the round is over and no reader is left |
| ClientStreams.DrainIsStretch | include/grpcw/client/grpc_client_stream.hpp:87-100 | the rest of the reader's body is the steps that deliver each remaining update and then the status, each possible where it is taken |
| ClientStreams.StopIsStretch | include/grpcw/client/grpc_client_stream.hpp:104-112 | stop_stream is the beginning of a stop, those steps, and the join |
| ClientStreams.StretchExtendsRun | include/grpcw/client/grpc_client_stream.hpp:79-112 | such a stretch continues every run that reached its first state |
| ClientStreams.GrpcClientStream.Start | include/grpcw/client/grpc_client_stream.hpp:79-101 | a stream that is streaming is left alone; otherwise one reader is launched |
| ClientStreams.GrpcClientStream.Stop | include/grpcw/client/grpc_client_stream.hpp:104-112 | the reader's remaining updates and its status are delivered before the stop returns, and the stream is no longer streaming |
| ClientStreams.GrpcClientStream.RunReader | include/grpcw/client/grpc_client_stream.hpp:87-100 | the reader loop delivers the updates in order and then the status, if it has not ended already |
| Clients.OneNotification | include/grpcw/client/grpc_client.hpp:215-217 | in an address session exactly one state notification is outstanding while the channel lives, and none is asked for once the queue is shut down |
| Clients.StatesAreMapped | include/grpcw/client/grpc_client.hpp:44-59 | a connectivity state means connected iff it is READY, and not connected iff it is IDLE or SHUTDOWN |
| Clients.EventIsFollowed | include/grpcw/client/grpc_client.hpp:340-371 | in every run a successful event sets the reported state; iff it means another state to the user a callback with it is due, and then every stream runs iff the state is READY |
| Clients.FailureIsIgnored | include/grpcw/client/grpc_client.hpp:340-371 | a failed event only asks for the next notification |
| Clients.EventAfterDrop | include/grpcw/client/grpc_client.hpp:365-371 | once the channel is gone an event moves to SHUTDOWN with a callback, unless the client was not connected already |
| Clients.CallbacksAreMade | include/grpcw/client/grpc_client.hpp:220-376 | a due callback is made with the state found, and no other report is made |
| Clients.CallsProceed | include/grpcw/client/grpc_client.hpp:185-287 | every call of change_server or kill_streams_and_channel takes its steps in the order of the source: stop and drop, shut down, join, then return, adopt the given channel, or open one, tell the user and launch the run thread |
| Clients.LoopTakesOrLeaves | include/grpcw/client/grpc_client.hpp:329-338 | the run loop takes one notification with its flag, or leaves once the queue is shut down and none is left |
| Clients.ConnectLooks | include/grpcw/client/grpc_client.hpp:196-218 | a new session holds its channel in the state it reports, waits for one notification, and has a callback due iff that state is another to the user |
| Clients.AttachAdopts | include/grpcw/client/grpc_client.hpp:229-243 | an in-process session holds its channel, is READY and starts no stream |
| Clients.RegisteredStreamStarts | include/grpcw/client/grpc_client.hpp:247-263 | a registered stream is started iff the channel is held and READY, in both kinds of session |
| Clients.DisconnectStops | include/grpcw/client/grpc_client.hpp:266-276 | a kill first stops every stream and drops the channel, and leaves the state |
| Clients.DrainEnds | include/grpcw/client/grpc_client.hpp:278-286 | while the controlling thread waits to join, the run thread can always go on, has at most five steps left, each lowering a rank nothing else raises, and at rank zero the join succeeds |
| Clients.KillReturns | include/grpcw/client/grpc_client.hpp:266-287 | when kill_streams_and_channel returns no stream runs and nothing is pending, and the state is "not connected" iff the last session was not in-process |
| Clients.KilledInProcessStaysConnected | include/grpcw/client/grpc_client.hpp:229-287 | a run after which a killed client, without a channel, still reports that it is connected |
| Clients.StreamsNeedConnection | include/grpcw/client/grpc_client.hpp:250-276 | in every reachable state a stream is streaming only while the channel is held and ready |
| Clients.StreamsFollowUnlessLagging | include/grpcw/client/grpc_client.hpp:337-358 | in an address session every registered stream is streaming exactly when the state is READY, iff the session is not still in the READY state its channel started with while streams were registered |
| Clients.LaggingIsDecidedAtConnect | include/grpcw/client/grpc_client.hpp:200-218 | after the new channel is made the streams follow it iff it is not READY or none is registered |
| Clients.ReadyAtOnceLeavesStreamStopped | include/grpcw/client/grpc_client.hpp:200-218 | a run in which a registered stream stays stopped although the new channel is READY |
| Clients.SessionStreamsFollow | include/grpcw/client/grpc_client.hpp:250-358 | if a new channel does not start READY, or no stream is registered yet, every stream of that session, whenever registered, is streaming exactly while the state is READY |
| Clients.NoStateReportedTwice | include/grpcw/client/grpc_client.hpp:337-376 | over any sequence of sessions no state is reported twice in a row, the silent move to connected included |
| Clients.ReportsAreTruthful | include/grpcw/client/grpc_client.hpp:196-222 | when no callback is due the last report is the client's state |
| Clients.OneReporter | include/grpcw/client/grpc_client.hpp:220-225 | no two threads ever have a callback to make |
| GrpcClients.StreamMap.SwitchAll | include/grpcw/client/grpc_client.hpp:268-357 | the loop over the registered streams starts each one that is not running, or stops each one with its reader drained and joined, in any order, and touches no other |
| GrpcClients.GrpcClient.DropChannel | include/grpcw/client/grpc_client.hpp:266-276 | all streams are stopped, then the channel is dropped |
| GrpcClients.GrpcClient.ConnectToAddress | include/grpcw/client/grpc_client.hpp:191-218 | the critical section of change_server(address), whatever state the new channel reports |
| GrpcClients.GrpcClient.AttachInProcess | include/grpcw/client/grpc_client.hpp:233-243 | the channel is adopted and the state becomes READY without a callback |
| GrpcClients.GrpcClient.RegisterStream | include/grpcw/client/grpc_client.hpp:247-263 | the new stream is started iff the channel is held and READY; no other stream changes |
| GrpcClients.GrpcClient.HandleChange | include/grpcw/client/grpc_client.hpp:337-371 | the run loop's critical section, with the channel held, gone, or an event that failed |
| GrpcClients.GrpcClient.KillStreamsAndChannel | include/grpcw/client/grpc_client.hpp:266-287 | the whole call, drain loop included, ends with everything stopped and joined and the user told the last state, whatever streams other threads register meanwhile |
| AcceptLoop.AlwaysBalanced | include/grpcw/server/grpc_async_server.hpp:91-137 | between steps every registered handler, unary or streaming, has exactly one accept outstanding, so the lookup never throws and a handler is destroyed with none outstanding; a unary handler's responses are the callback mapped over its requests |
| AcceptLoop.EveryCallIsServed | include/grpcw/server/grpc_async_server.hpp:91-97 | each accepted call is served exactly once: answered by a unary handler, connected by a stream handler |
| AcceptLoop.AnswersAreToRequests | include/grpcw/server/detail/non_stream_rpc_handler.hpp:106-132 | over every run a unary handler's responses are its callback mapped over the requests of the calls that were returned to it |
| AcceptLoop.HandlersAreAsRegistered | include/grpcw/server/grpc_async_server.hpp:111-138 | a living handler has the number and the kind of its registration |
| AcceptLoop.HandlersDiffer | include/grpcw/server/grpc_async_server.hpp:111-138 | no two living handlers come from one registration, so none answers with another's callback |
| AcceptLoop.StretchExtendsRun | include/grpcw/server/grpc_async_server.hpp:91-97 | a stretch of the loop continues every run that reached its first state |
| AcceptLoop.StreamsRun | include/grpcw/server/detail/stream_rpc_handler.hpp:142-170 | what the accept loop and the other threads do to a stream handler in the map is a valid run of that handler |
| AcceptLoop.StreamsAreConsistent | include/grpcw/server/detail/stream_rpc_handler.hpp:142-170 | so in every state of the server each stream handler has the consistency of `StreamRpc.AlwaysConsistent` |
| GrpcAsyncServers.NonStreamRpcHandler.Activate | include/grpcw/server/detail/non_stream_rpc_handler.hpp:106-132 | a waiting connection's request is answered and a new connection waits; the assertions hold iff there was none or gRPC could send the response |
| GrpcAsyncServers.RpcMap.Erase | include/grpcw/server/detail/non_stream_rpc_handler.hpp:95-103 | the handler leaves the map; a unary one's private queue is empty then, so the assertion in the destructor's loop is never evaluated |
| GrpcAsyncServers.GrpcAsyncServer.Insert | include/grpcw/server/grpc_async_server.hpp:120-135 | a new handler of either kind enters the map with no accept outstanding |
| GrpcAsyncServers.GrpcAsyncServer.ActivateFirst | include/grpcw/server/grpc_async_server.hpp:122-136 | its first activation arms one accept |
| GrpcAsyncServers.GrpcAsyncServer.OnEvent | include/grpcw/server/grpc_async_server.hpp:91-97 | a successful accept is served by a handler of either kind and re-armed, a failed one erases the handler; no other handler changes |
| GrpcAsyncServers.GrpcAsyncServer.Run | include/grpcw/server/grpc_async_server.hpp:91-97 | any stretch of the loop, from a balanced server on, finds a handler for every tag and leaves the server balanced |
| AsyncServerRuns.LockDiscipline | example/src/server/unary_rpc_handler.hpp:127-153 | in no interleaving is a writer touched without the mutex or the mutex locked by a thread that holds it |
| AsyncServerRuns.TagsAreOwned | example/src/server/async_server.hpp:138-176 | the tag table is exactly what is in transit, so `get_tag` never throws; every tag names an rpc `data_` owns, one tag each unless it is the user's turn |
| AsyncServerRuns.AcceptsAreAccountedFor | example/src/server/async_server.hpp:149-185 | each registered rpc has exactly one queued accept until an accept fails, and what it accepted is completed or in flight |
| AsyncServerRuns.TaskRegisters | example/src/server/async_server.hpp:120-185 | a registration carried out puts one queued rpc under its number into `data_` with one new tag at gRPC |
| AsyncServerRuns.TakenIsHandled | example/src/server/async_server.hpp:142-145 | a tag taken from the queue is a lent one, leaves gRPC, and is handled next with the flag it came with |
| AsyncServerRuns.CallGoesToUser | example/src/server/async_server.hpp:149-158 | an accepted call goes to the user's callback under the mutex, behind a queued clone with a new tag for the same registration |
| AsyncServerRuns.OtherTagErases | example/src/server/async_server.hpp:160-175 | any other returned tag erases its rpc, as failed or completed, and is forgotten |
| AsyncServerRuns.FinishingMakesTag | example/src/server/unary_rpc_handler.hpp:127-153 | finishing on any thread makes one done tag for the rpc and passes it to gRPC while that thread holds the mutex |
| AsyncServerLoops.WaitIsStretch | example/src/server/unary_rpc_handler.hpp:127-153 | waiting for the mutex is a stretch of possible steps of its holder |
| AsyncServerLoops.FinishIsStretch | example/src/server/unary_rpc_handler.hpp:127-153 | finish off the run thread is the steps call, wait, lock, touch, release, each possible where it is taken |
| AsyncServerLoops.FinishFinishes | example/src/server/unary_rpc_handler.hpp:127-153 | afterwards its done tag names the rpc and is with gRPC, the rpc is being finished, and the mutex is free |
| AsyncServerLoops.RoundIsStretch | example/src/server/async_server.hpp:142-175 | a round is the steps take, wait, handle, the callback's finishes and return, unlock, each possible where it is taken |
| AsyncServerLoops.RoundsAreStretch | example/src/server/async_server.hpp:138-176 | so are any number of rounds |
| AsyncServerLoops.StretchExtendsRun | example/src/server/async_server.hpp:138-176 | such a stretch continues every run that reached its first state, so all theorems on runs hold after it |
| AsyncServerRuns.RegisteredBeforeServing | example/src/server/async_server.hpp:112-135 | once the run loop has started, every registration that was taken has been carried out iff none was queued behind the null task |
| AsyncServerRuns.RegisteredTooLate | example/src/server/async_server.hpp:131-135 | a run in which a registration made between the two lines of `start` is taken and never carried out |
| AsyncServerRuns.RegisteredAfterStart | example/src/server/async_server.hpp:116-135 | a run in which a call that passed the test before `start` queues its task when `start` has returned; it is taken and never carried out |
| AsyncServerRuns.TestRefusesIff | example/src/server/async_server.hpp:116-118 | a call of register_async is refused iff a call of start set the flag before its test |
| AsyncServerRuns.RefusedAfterStart | example/src/server/async_server.hpp:116-118 | once start has returned, every call that makes its test from then on is refused, and only calls already past the test can still be taken |
| AsyncServerLoops.MutexBecomesFree | example/src/server/unary_rpc_handler.hpp:127-153 | while the mutex is held its holder, the run thread or a finisher, has a step it can take, each such step lowers a rank of at most two, nothing else changes the rank or the holder, and at rank zero the mutex is free |
| AsyncServers.AsyncServer.TestRunning | example/src/server/async_server.hpp:116-118 | the call passes, or is refused if the flag is set |
| AsyncServers.AsyncServer.QueueTask | example/src/server/async_server.hpp:120-128 | a call that passed queues its task, whatever happened since |
| AsyncServers.AsyncServer.RegisterAsync | example/src/server/async_server.hpp:112-129 | both, with anything other threads do around registration, start and initialization in between |
| AsyncServers.AsyncServer.Start | example/src/server/async_server.hpp:132-135 | both lines of start, with the same in between |
| AsyncServers.AsyncServer.Initialize | example/src/server/async_server.hpp:75-80 | any stretch of the initialization loop, with other threads registering and starting, carries the queued tasks out in order and keeps the lock, tag, call and registration books; the mutex is free for every task |
| AsyncServers.AsyncServer.RunOnce | example/src/server/async_server.hpp:142-175 | one round, waiting for whoever holds the mutex: an accepted call goes to the user behind a queued clone and the callback may finish rpcs, anything else erases its rpc |
| AsyncServers.AsyncServer.Run | example/src/server/async_server.hpp:138-176 | any stretch of the run loop keeps all the books, and needs nothing but them |
| AsyncServers.AsyncServer.Finish | example/src/server/unary_rpc_handler.hpp:127-153 | finish on another thread waits for the mutex, makes its done tag with the mutex held and passes it to gRPC, releases the mutex and keeps all the books |
| AsyncServers.AsyncServer.FinishInCallback | example/src/server/unary_rpc_handler.hpp:127-153 | finish on the run thread makes its tag under the mutex that thread already holds |

## Left out

- gRPC itself, channels, protobuf messages, deadlines and clocks: only tags, completion events and reported states appear; requests, updates and statuses are integers.
- The boolean results of `write` and `finish`: the source computes one and always returns true.
- "No write after finish": the stream handler does not track finished streams, so this is up to its callers.
- StreamRpcHandlers.StreamRpcHandler.WriteOrFinish: one body stands for the four write and finish overloads, which differ only in the operation they start; the wait before it and the notification after it are in `AtomicConnections.WaitToIssue`.
- StreamWakeup.NoLostWakeup: excludes targeted calls to an absent client while others are active, for which it is false; `CallIsSafeIff` gives the exact condition.
- GrpcAsyncServers.GrpcAsyncServer.Run: as a method it runs without writers and synchronisation threads acting on the stream handlers meanwhile, and `activate_next` is atomic; AcceptLoop.dfy has all interleavings.
- AsyncServers.AsyncServer.Run: as a method it meets one other thread at a time, the one that holds the mutex; AsyncServerRuns.dfy has all interleavings.
- `AtomicData::notify_all`, `BlockingQueue::empty` and `size`, `GrpcClient::use_stub` and the getters: easy members.
- User callbacks that re-enter the client or handler, and callbacks set while threads run.
- Operations started on a queue of the new-architecture server after its shutdown; the stream handler's destructor.
- `example/src/client/client.hpp` and `example/src/server/server_stream_rpc_handler.hpp`, which are unfinished or unused, and the example programs.
- The unsynchronised reads and writes of `running_`: a test or an assignment of the flag is one step.
- Utilities: enumerations, containers, strings, results, errors, files, timers, hashing, CUDA checks.
