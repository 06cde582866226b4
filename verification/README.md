# MyNetLib: a verified model

MyNetLib is a Reactor network library: one event loop per thread, connections
that are handed between loops as queued functors, and an asynchronous logger
with rotating buffers. This project models its stateful core and proves what
the design relies on.

Each component comes as a pair. A `...Spec` module holds the component as a
state machine on plain values. Steps of different threads, and of the kernel,
are separate wherever their order can change the outcome, down to the test and
the store of a state that two threads share; the theorems quantify over all
sequences of steps. A second module holds the classes, with the fields and
loops of the original, and each method is proved to do exactly what the state
machine does. What system calls, clocks and user callbacks give back is a
parameter of the step or method, limited only by the call's own contract.

| component | state machine and theorems | classes |
|---|---|---|
| asynchronous logger | `AsyncLogSpec`, `AsyncLogProofs`, `AsyncLogStop` | `AsyncLogging` |
| task queue and wakeup | `TaskQueueSpec`, `TaskQueueRuns` | `EventLoop` |
| connections across loops | `LifecycleSpec`, `LifecycleLedger`, `LifecycleRaw`, `LifecycleOrder` | `TcpServer` |
| one connection | `ConnectionSpec`, `ConnectionProofs`, `ConnectionRuns`, `ConnectionCalls` | `TcpConnection` |
| channel registration | `PollerSpec` | `Pollers` |
| timers | `TimerHeap`, `TimerSpec`, `TimerRuns`, `TimerTimes` | `TimerManager` |
| byte buffer | `BufferSpec` | `Buffer` |
| log files | `LogFileSpec`, `LogFileRolls` | `LogFile` |

## Where the code falls short of its intent

The model follows the code. Where that breaks a property the design wants,
the exact condition is proved, or an example run is given.

- Logger, trim: the guard reads the length of the producers' vector while it
  trims the consumer's (src/async_logging.cc:97). The consumer resets a null
  buffer exactly when three or more buffers are waiting and its own batch has
  one (`AsyncLogProofs.FaultsExactly`, `AsyncLogProofs.TrimGuardCounterexample`).
- Logger, discard: a batch of more than 25 buffers is erased with an iterator
  of the other vector (src/async_logging.cc:91), which is the only other fault
  (`AsyncLogProofs.DiscardCounterexample`).
- Logger, long messages: a message of a buffer's size or more is dropped
  without notice, and nothing else is ever lost (`AsyncLogProofs.NothingLostIff`).
- Task queue: a functor that the loop thread queues in a timer callback, or
  before `Loop`, gets no wakeup and waits for the next event or timeout
  (`TaskQueueSpec.StallsExactly`); so does a `Quit` in a timer callback
  (`TaskQueueSpec.QuitSleptThroughExactly`).
- Callbacks: an event with POLLHUP and POLLPRI but without POLLIN closes
  twice if the read finds the end (`ConnectionProofs.DownTwiceIff`); with the
  poll backend a hang-up repeats until the channel is removed, and with epoll
  after such a double close. The number of down callbacks is exact for every run
  (`ConnectionRuns.DownCallbacksExactly`).
- Half-close: `ShutDown` on another thread can send SHUT_WR twice, and a
  `Send` of another thread that is still queued can write after SHUT_WR;
  `ConnectionRuns.ShutTwiceIff` and `ConnectionRuns.WriteAfterShutIff` say
  exactly when.
- Close: `ShutDown` tests the state and then stores it. If the close falls
  between, the store takes the connection out of disconnected again: a queued
  message is then sent after the down callback, and data that was pending waits
  with the write event off (`ConnectionRuns.ReopensIff`,
  `ConnectionRuns.WritesAfterCloseIff`, `ConnectionRuns.StrandsIff`).
- Raw pointers: the functors of `Send` and `ShutDown` bind the connection's
  address. With one reported close, such a functor finds the connection held if
  and only if it was queued before the swap that took ConnectionDestroyed, or
  the base loop still has the vector that ran the removal
  (`LifecycleRaw.RawFunctorHeldIff`); `LifecycleRaw.LateFunctorRuns` is a run
  that meets an unheld connection and leaves its channel in the poller.
- Poll backend: removing a channel leaves its index and map entry. Removing it
  again always leaves the vector's bounds or takes another channel's slot
  (`PollerSpec.RemoveTwiceBreaks`), and so does a late send that enables writing
  on it (`PollerSpec.UpdateAfterRemoveBreaks`); a second reported close leads to
  a second removal (`LifecycleLedger.RemovedOncePerClose`).
- Log files: a file past its limit is not closed while the clock stays in the
  second of its creation (`LogFileSpec.SameSecondPilesUp`); what a failing
  write took is in the file but not in `written_bytes_`
  (`LogFileSpec.UncountedIff`); because of a dangling else, a due flush is
  skipped on the day the file was started (`LogFileSpec.DueFlushSkippedIff`).

## Model

| member | source | states |
|---|---|---|
| AsyncLogProofs.AppendKeepsInv | src/async_logging.cc:32-47 | a producer's critical section keeps unique ownership, the supply of spares and the stream's order, whatever the consumer is doing |
| AsyncLogStop.RetiresIff | src/async_logging.cc:34-46 | in any reachable state, a message retires the current buffer if and only if it is as long as the room left or longer, and a buffer is created if and only if the spare is gone as well |
| AsyncLogProofs.SwapKeepsInv | src/async_logging.cc:74-86 | the exchange under the lock moves the whole front end to the batch, leaves producers an empty buffer and a spare, and guarantees two batch buffers whenever the second spare was given away |
| AsyncLogStop.WaitsIff | src/async_logging.cc:74-84 | at the loop head before Stop, the consumer waits if and only if no full buffer is queued, and otherwise its batch is the whole front end in order |
| AsyncLogProofs.WriteKeepsInv | src/async_logging.cc:94-96 | writing one buffer moves exactly its messages from the batch to the end of the file |
| AsyncLogProofs.RecycleMoves | src/async_logging.cc:97-110 | without the trim fault, both spares are refilled, empty, from buffers of the batch, and no buffer gets a second owner |
| AsyncLogProofs.NextKeepsInv | src/async_logging.cc:27-113 | every step of any thread other than the two faulting ones keeps the whole invariant |
| AsyncLogProofs.FaultsExactly | src/async_logging.cc:87-105 | a step crashes if and only if it is the discard of a batch over 25 or the trim of a one-buffer batch while more than two buffers wait; which one it was decides the fault |
| AsyncLogProofs.StreamConservation | src/async_logging.cc:32-113 | over every interleaving, file, unwritten batch, full buffers and current buffer spell all messages that fit a buffer, in lock order; the file ends after a whole message and every buffer holds whole ones |
| AsyncLogProofs.NothingLostIff | include/log_stream.h:30-35 | they spell all messages handed to Append if and only if each is shorter than a buffer |
| AsyncLogProofs.ExitTail | src/async_logging.cc:62-113 | when the thread has exited, the file is the stream up to the last swap and the front end is exactly what was appended after it |
| AsyncLogStop.ExitsOnlyAfterStop | src/async_logging.cc:27-31 | over every run, the consumer has exited only if Stop was called |
| AsyncLogStop.HeadExitsIff | src/async_logging.cc:62 | in any reachable state at the loop head, the next step exits if and only if Stop was called |
| AsyncLogStop.StopEnds | src/async_logging.cc:62-112 | after any run and Stop, whatever producers still append, the consumer has exited or crashed after as many steps as there are buffers queued, in the batch and appended meanwhile, and five more; it swaps at most once more, and only if it was waiting |
| AsyncLogProofs.SparesNeverRunDry | src/async_logging.cc:62-66 | at every loop head the three asserts hold; a missing spare means full buffers wait; no two owners share a buffer; the pool is never popped empty |
| AsyncLogProofs.CrashedIff | src/async_logging.cc:87-105 | a whole run has crashed if and only if one of its steps met one of the two fault conditions |
| AsyncLogProofs.TrimGuardCounterexample | src/async_logging.cc:97-104 | four buffer-sized messages after a one-buffer batch make the consumer reset a null buffer |
| AsyncLogProofs.DiscardCounterexample | src/async_logging.cc:87-92 | for every number of buffer-sized messages from 26 on before the first swap, the consumer erases with the other vector's iterator |
| AsyncLogging.FixedBuffer.Append | include/log_stream.h:30-35 | the array holds the old bytes and the message, or is unchanged when the message does not fit |
| AsyncLogging.AsyncLog.Append | src/async_logging.cc:32-47 | the object's buffers change as the producer's step says, and stay pairwise separate in memory |
| AsyncLogging.AsyncLog.Exchange | src/async_logging.cc:81-86 | the front end is handed over whole, in order, and shares no buffer with what the producers keep |
| AsyncLogging.LoggingThread.Swap | src/async_logging.cc:66-86 | after the exchange the batch is the old front end in order, and consumer and producers own disjoint memory |
| AsyncLogging.LoggingThread.WriteBatch | src/async_logging.cc:94-96 | the bytes given to the log file are the batch's messages in order |
| AsyncLogging.LoggingThread.Recycle | src/async_logging.cc:97-110 | succeeds exactly when the state machine's trim and refill do not fault, with the same result |
| TaskQueueSpec.NextKeepsInv | src/event_loop.cc:46-126 | every step of the loop thread or another thread keeps order, the meaning of the calling flag, and the announcement of pending functors |
| TaskQueueSpec.NoLostWakeup | src/event_loop.cc:81-118 | while the loop is in the multiplexer, a pending functor not queued quietly, or a foreign quit request, means the eventfd is readable or some thread is about to write it |
| TaskQueueSpec.StallsExactly | src/event_loop.cc:50-53 | entering the multiplexer strands work if and only if a functor was queued in the timer phase or before Loop and no signal is outstanding |
| TaskQueueSpec.TimerCallbackStalls | src/event_loop.cc:108-110 | from any reachable timer phase without an outstanding signal, queueing a functor and polling strands it |
| TaskQueueSpec.QuitSleptThroughExactly | src/event_loop.cc:59-65 | entering the multiplexer sleeps through a request to quit if and only if the loop thread made it in the timer phase and no signal is outstanding |
| TaskQueueRuns.StopsIff | src/event_loop.cc:46-65 | over every run, the test of quit_ leaves the loop if and only if a Quit of any thread was taken since Loop was called, read off the actions |
| TaskQueueRuns.NoRoundAfterQuit | src/event_loop.cc:50-55 | after such a Quit no further round starts, and the multiplexer is entered at most in the round under way |
| TaskQueueRuns.CountsWakeups | src/event_loop.cc:113-126 | over every run, the eventfd holds the number of wakeups since it was last read |
| TaskQueueRuns.WokenRoundReads | src/event_loop.cc:69-78 | a round in which the wakeup channel is active reads the eventfd before it turns to the functors |
| TaskQueueSpec.TasksInOrder | src/event_loop.cc:81-111 | run, rest of the batch and pending, concatenated, are all queued functors in enqueue order |
| TaskQueueSpec.BatchIsSnapshot | src/event_loop.cc:82-89 | until the batch ends, run plus batch is what was run plus pending at the swap, and as many functors return as were pending, whatever is queued meanwhile |
| EventLoop.EventLoop.QueueInLoop | src/event_loop.cc:102-111 | the fields change by the queue step and the wakeup step, the wakeup only when the caller is another thread or the loop is calling functors |
| EventLoop.EventLoop.RunBatch | src/event_loop.cc:88 | runs the batch in order; afterwards the queue is what functors and other threads queued meanwhile, in order, one wakeup each |
| EventLoop.EventLoop.DoPendingFunctors | src/event_loop.cc:81-90 | runs exactly the functors pending at the swap, in order, and leaves everything queued meanwhile pending and signalled |
| EventLoop.EventLoop.Quit | src/event_loop.cc:59-65 | quit_ is set; from another thread the eventfd is written as well |
| EventLoop.EventLoop.TestQuit | src/event_loop.cc:50 | the loop goes round again exactly while quit_ is not set |
| EventLoop.EventLoop.GoRound | src/event_loop.cc:50-54 | one round runs everything that was pending and what its handlers queue, in order, and nothing else |
| EventLoop.EventLoop.Loop | src/event_loop.cc:46-57 | the loop runs the rounds up to and including the first in which a handler calls Quit, and stops |
| LifecycleSpec.NextKeepsInv | src/tcp_server.cc:48-81 | every step of every loop keeps: functors only on the loop they belong to, a holder for each live connection, one registration per established connection |
| LifecycleSpec.LifetimeAcrossLoops | src/tcp_server.cc:48-81 | over every interleaving of loops, from NewConnection until ConnectionDestroyed returns something holds the connection; so each registered channel and each raw channel pointer being dispatched, always on its own loop, is of a held connection, or of one whose channel came back after ConnectionDestroyed |
| LifecycleSpec.DestroyedAtHomeAfterErase | src/tcp_connection.cc:127-135 | ConnectionDestroyed runs only on the home loop of an established connection, after the base loop erased the map entry |
| LifecycleSpec.NothingLeaks | src/tcp_server.cc:71-81 | with all loops quiet, the map is exactly what was not destroyed and exactly the registered channels of such, and nothing holds the others |
| LifecycleOrder.FirstInFirstOut | src/event_loop.cc:81-111 | over every interleaving of loops, what a loop has queued at any moment is run next, in that order and before anything queued later, and nothing is dropped |
| LifecycleOrder.DispatchesInOrder | src/event_loop.cc:69-78 | the channels handled and those still to do are, in order, what the poller returned, and functors are taken only when all are done |
| LifecycleOrder.LivesWhereAccepted | src/tcp_server.cc:48-60 | over every run, the k-th connection lives for good on the loop chosen when it was accepted |
| LifecycleOrder.EstablishedAtOnceIff | src/tcp_server.cc:69 | a connection of the base loop is established within NewConnection; of another loop not, and its functor is then the last of that loop |
| LifecycleOrder.RemovedAtOnceIff | src/tcp_server.cc:71-81 | a close reported on the base loop erases the entry and queues ConnectionDestroyed before that loop does anything else; from another loop the removal is the last functor of the base loop |
| LifecycleLedger.StepLedger | src/tcp_server.cc:71-81 | every step of every loop conserves: closes in flight plus removals equal closes in flight before plus closes reported |
| LifecycleLedger.PollerStep | src/tcp_connection.cc:121-135 | every step balances the poller: a channel enters when established or put back, leaves by a removal that finds it, and before ConnectionDestroyed no removal misses it and none is put back |
| LifecycleLedger.RemovedOncePerClose | src/tcp_connection.cc:127-135 | over every interleaving, removals never exceed reported closes, and with at most one close none finds the channel missing; with nothing in flight they are equal, and the removals that found it missing are exactly the extra closes less the times it was put back |
| LifecycleRaw.RawFunctorHeldIff | src/tcp_connection.cc:43-44 | over every interleaving, for a connection with at most one reported close: a functor with a raw pointer about to run finds it held if and only if it was queued before the swap that took ConnectionDestroyed, or the base loop still has the vector that ran the removal |
| LifecycleRaw.HeldIff | src/event_loop.cc:81-90 | in any state with the invariant, a connection is held if and only if it is not destroyed, a close of it is in flight, or a running vector still has a functor that ran with it |
| LifecycleRaw.RegisteredHeldUnlessPutBack | src/channel.cc:28-41 | over every interleaving, with any number of reported closes, each registered or dispatched channel that no functor put back after its removal is of a held connection |
| LifecycleRaw.RegisteredHeldIff | src/tcp_server.cc:66-81 | over every interleaving, for a connection with at most one reported close: its registered channel is of a held connection if and only if no functor put it back after ConnectionDestroyed, or a running vector still keeps it |
| LifecycleRaw.QuietRegistered | src/tcp_server.cc:71-81 | with all loops quiet, a channel is in the poller if and only if its connection is in the map or some functor put it back |
| LifecycleRaw.LateFunctorRuns | src/tcp_connection.cc:43-44 | a run with one close in which a raw functor is next on a connection that nothing holds, and enabling writing leaves its channel in the poller |
| TcpServer.TcpServer.NewConnection | src/tcp_server.cc:48-70 | a fresh name, a map entry, and ConnectionEstablished queued on another loop or run at once on this one |
| TcpServer.TcpServer.RemoveConnection | src/tcp_server.cc:71-73 | queued on the base loop from another loop, called at once from the base loop |
| TcpServer.TcpServer.RemoveconnectionInLoop | src/tcp_server.cc:74-81 | the entry is gone and ConnectionDestroyed is queued on the home loop, also when that is the base loop |
| ConnectionProofs.OpsKeep | src/tcp_connection.cc:70-105 | user code, re-entering Send and ShutDown from the write-complete callback to any depth, keeps the stream and the write flag and changes no callback count |
| ConnectionProofs.EventKeeps | src/channel.cc:43-72 | one dispatched event keeps all invariants, never moves the state back, and makes one down callback per close it contains |
| ConnectionProofs.AcceptedIff | src/tcp_connection.cc:81-104 | a message joins the stream, before anything its callbacks send, if and only if its first write does not fail with EPIPE or ECONNRESET |
| ConnectionCalls.SendHandsOver | src/tcp_connection.cc:80-104 | on an open connection a send writes at once only with the write flag off and an empty buffer; the socket takes a front part, the rest is buffered, and the write event is on exactly if it was or something was buffered |
| ConnectionCalls.WriteEventHandsOver | src/tcp_connection.cc:153-162 | a write event hands over exactly the front part that the socket takes, and is turned off exactly when nothing is left |
| ConnectionCalls.CallbackRunsIff | src/tcp_connection.cc:83-88 | the write-complete callback's calls take effect within the send if and only if the first write took the whole message |
| ConnectionCalls.CallbacksAreCalls | src/tcp_connection.cc:121-143 | the calls of the message callback and of the up callback act as the same calls made one by one |
| ConnectionCalls.CloseBeforeRead | src/channel.cc:45-64 | what the message callback calls after a hang-up in the same event is ignored |
| ConnectionCalls.ReadBeforeWrite | src/channel.cc:59-71 | what the message callback could not write goes out in the same event |
| ConnectionProofs.DownTwiceIff | src/channel.cc:43-64 | one event on an open connection makes two down callbacks if and only if it hangs up without POLLIN, has POLLPRI, and the read finds the end |
| ConnectionRuns.OutgoingStreamConserved | src/tcp_connection.cc:70-169 | over every run, with any writes and callers on any thread, kernel bytes and output buffer concatenate to the accepted messages; the write event is on only with data buffered and, on an open connection, always then, unless a late store stranded data |
| ConnectionRuns.StrandsIff | src/tcp_connection.cc:107-111 | in any reachable state, a step leaves data waiting with the write event off if and only if it is the store of another thread's ShutDown on a connection closed with data pending |
| ConnectionRuns.StoreAfterClose | src/tcp_connection.cc:107-111 | the run: test, hang-up and close with data pending, store; the connection has left disconnected and its data is stranded |
| ConnectionRuns.HalfCloseSafe | src/tcp_connection.cc:107-119 | for callers on the loop thread: at most one SHUT_WR, no write after it, every accepted byte handed over before it, and a pending one is waiting for the drain |
| ConnectionRuns.DrainShutsDown | src/tcp_connection.cc:153-166 | when ShutDown found data pending, a write event issues SHUT_WR if and only if it drains the buffer |
| ConnectionCalls.ShutDownTakesEffect | src/tcp_connection.cc:107-166 | over every run with callers on any thread: ShutDown on the loop thread leaves the connected state; with nothing pending it issues SHUT_WR at once, and with data pending the write event that takes all of it does |
| ConnectionCalls.RemoteShutDownTakesEffect | src/tcp_connection.cc:107-119 | from another thread the store leaves the connected state, and the functor issues SHUT_WR if and only if writing is off |
| ConnectionRuns.ShutTwiceIff | src/tcp_connection.cc:107-119 | over every run with callers on any thread, SHUT_WR is issued more than once if and only if, after one, a ShutdownInLoop functor finds writing off or a write event drains a half-closed connection |
| ConnectionRuns.WriteAfterShutIff | src/tcp_connection.cc:81-105 | over every run, a write follows SHUT_WR if and only if, after one, a SendInLoop functor finds nothing ahead on an open connection or a write event without a close finds writing on |
| ConnectionRuns.WriteAfterShut | src/tcp_connection.cc:38-119 | the run: a send queued by another thread, ShutDown on the loop thread, the functor; a write follows SHUT_WR |
| ConnectionRuns.LateSendIff | src/tcp_connection.cc:38-56 | in any reachable state, a queued send is the first late write if and only if the connection is not closed, nothing is ahead of the message and SHUT_WR was issued |
| ConnectionRuns.RemoteShutDownTwice | src/tcp_connection.cc:107-119 | a run in which the drain and then the functor of another thread's ShutDown both issue SHUT_WR |
| ConnectionRuns.ReopensIff | src/tcp_connection.cc:107-111 | a closed connection can leave disconnected, in some continuation, if and only if another thread is between ShutDown's test and its store |
| ConnectionRuns.WritesAfterCloseIff | src/tcp_connection.cc:70-105 | after the close a byte can still reach the kernel, in some continuation, if and only if such a store and a SendInLoop functor are outstanding |
| ConnectionRuns.RegistersAgainIff | src/tcp_connection.cc:100-104 | a removed channel can come back into the poller, through EnableWrite, under exactly the same condition |
| ConnectionRuns.RegisteredAfterRemoval | src/tcp_connection.cc:100-135 | the run: test, hang-up, close and ConnectionDestroyed, store, queued send that would block; the removed channel is watched again |
| ConnectionRuns.SendAfterClose | src/tcp_connection.cc:70-82 | the run: test, hang-up and close, store, queued send; a message reaches the kernel after the down callback |
| ConnectionRuns.DownCallbacksExactly | src/tcp_connection.cc:127-184 | over every run, with either backend and callers on any thread, the down callbacks are one per close contained in a delivered event and one per destruction of a connected connection; they are at most one if and only if at most one step closes, once |
| ConnectionRuns.CallbacksOnce | src/tcp_connection.cc:121-184 | with epoll, loop-thread calls and no event that closes twice, up and down callbacks come at most once, up first, and the state is disconnected exactly from the down callback on |
| ConnectionRuns.StateMovesForward | src/tcp_connection.cc:107-184 | with loop-thread calls, no continuation of a run moves the state back |
| ConnectionRuns.PollRepeatsDown | src/tcp_connection.cc:175-184 | with poll, two hang-up reports make two down callbacks |
| ConnectionRuns.EpollRepeatsDown | src/epoll_poller.cc:52-66 | with epoll, an event that closes twice watches the empty mask again, and a further hang-up makes a third down callback |
| TcpConnection.TcpConnection.SendInLoop | src/tcp_connection.cc:70-105 | object, output Buffer and channel mask change as the machine says, with the callback re-entering |
| TcpConnection.TcpConnection.StoreDisconnecting | src/tcp_connection.cc:109 | the store lands whatever the state has become, and changes nothing else |
| TcpConnection.TcpConnection.TestConnected | src/tcp_connection.cc:108 | the test passes exactly in the connected state, and changes nothing |
| TcpConnection.TcpConnection.HandleWrite | src/tcp_connection.cc:153-174 | hands over a prefix of the Buffer's contents, disables writing and half-closes exactly when drained |
| TcpConnection.TcpConnection.HandleEventWithGuard | src/channel.cc:43-72 | close, error, read and write handlers run in this order on the object as in the machine |
| TcpConnection.TcpConnection.ConnectionEstablished | src/tcp_connection.cc:121-126 | connected, registered and reading before the up callback runs |
| TcpConnection.TcpConnection.ConnectionDestroyed | src/tcp_connection.cc:127-135 | a down callback only when still connected, and the channel is unregistered in either case |
| PollerSpec.EpollSetKeeps | src/epoll_poller.cc:48-68 | a mask update issues a legal epoll_ctl, keeps index, map and kernel set in agreement, takes a registered descriptor out of the kernel set on an empty mask and otherwise leaves it there with the mask, and changes the watched map at this descriptor only |
| PollerSpec.EpollRemoveKeeps | src/epoll_poller.cc:72-78 | removal does the same for every index value |
| PollerSpec.PollSetKeeps | src/poll_poller.cc:46-66 | adding or modifying keeps slots and live channels in bijection and changes the watched map at this descriptor only |
| PollerSpec.PollRemoveMoves | src/poll_poller.cc:68-78 | exactly one slot goes; the last slot's entry moves to the hole and only that channel's index changes, to the hole |
| PollerSpec.PollRemoveKeeps | src/poll_poller.cc:68-78 | swap-with-last keeps every live channel's index the unique slot with its descriptor and mask, and unwatches only the removed one |
| PollerSpec.RemoveSoundIff | src/poll_poller.cc:68-78 | whatever the channel's index, removal stays in the vector's bounds and keeps the list consistent if and only if the map has the channel and the slot at its index has its descriptor |
| PollerSpec.RemoveTwiceBreaks | src/poll_poller.cc:68-78 | a second removal leaves the vector's bounds if the channel was in the last slot, and breaks another channel's slot otherwise |
| PollerSpec.UpdateSoundIff | src/poll_poller.cc:46-66 | whatever the channel's index, a mask update stays in the vector's bounds and keeps the list consistent if and only if a new channel's descriptor is free, or the slot at the index has the descriptor and is the channel's own or has that mask already |
| PollerSpec.UpdateAfterRemoveBreaks | src/poll_poller.cc:58-64 | a mask update after the removal leaves the vector's bounds if the channel was in the last slot, and breaks another channel's slot otherwise |
| PollerSpec.TwinsStep | src/epoll_poller.cc:48-78 | the same call on both backends keeps them watching the same map, and that map changes as the simple one does |
| PollerSpec.TwoBackendsOneMeaning | src/poll_poller.cc:46-78 | after any allowed call sequence the non-empty masks of the epoll set, of the poll list and of the simple map are the same, and no epoll_ctl failed |
| PollerSpec.ActiveExactlyReady | src/poll_poller.cc:30-44 | with an accurate ready count the early stop loses nothing: exactly the ready live channels, once each |
| PollerSpec.FillActiveStops | src/poll_poller.cc:32-43 | with any ready count, the loop returns that many of the ready channels, the first in slot order |
| Pollers.EpollPoller.UpdateChannel | src/epoll_poller.cc:48-68 | map, kernel set and the channel's index change as the machine says |
| Pollers.EpollPoller.RemoveChannel | src/epoll_poller.cc:72-78 | the map entry goes first, EPOLL_CTL_DEL only for an added channel, index back to new |
| Pollers.EpollPoller.Update | src/epoll_poller.cc:104-119 | the kernel's set gets the channel's descriptor, mask and pointer, or the call is recorded as failed |
| Pollers.MaskOperations | include/channel.h:30-52 | reading and writing are independent interests: each operation sets its own and keeps the other; a mask of these bits is empty exactly without either |
| Pollers.EpollPoller.EnableRead | include/channel.h:33-36 | the channel's mask gains the read bits and the kernel's follows |
| Pollers.EpollPoller.DisableWrite | include/channel.h:45-48 | the channel's mask loses the write bit and the kernel's follows |
| Pollers.PollPoller.UpdateChannel | src/poll_poller.cc:46-66 | for any index: refused exactly past the end of the vector, else a new channel gets the next slot as its index and a known one has its slot rewritten |
| Pollers.PollPoller.RemoveChannel | src/poll_poller.cc:68-78 | for any index: refused exactly outside the vector, else swap, reindex through the map and pop, with the list and all channel objects ending as the machine says |
| Pollers.PollPoller.FillActiveChannels | src/poll_poller.cc:30-44 | returns the machine's active channels in slot order, each carrying the revents of its own slot |
| TimerHeap.PushHeap | include/timer_manager.h:38-45 | a push keeps the heap order and adds exactly the timer |
| TimerHeap.PopHeap | include/timer_manager.h:38-45 | a pop keeps the heap order and takes exactly the root |
| TimerHeap.RootIsLeast | include/timer_manager.h:38-45 | no timer is before the root in (expiry, repeats) order |
| TimerHeap.PopRaisedRoot | src/timer_manager.cc:38-40 | popping after the root's key was changed in place, to anything, gives the same heap and multiset as popping before |
| TimerSpec.RootStays | src/timer_manager.cc:31-33 | timers that a callback adds under a clock not running backwards never displace the root being fired |
| TimerSpec.FireKeeps | src/timer_manager.cc:33-42 | one round keeps the heap; its multiset loses the root and gains the root's next occurrence, if any, and what the callback added |
| TimerSpec.FireShrinksDue | src/timer_manager.cc:30-42 | one round removes exactly the fired timer from the set of due timers, which is why the pass ends |
| TimerSpec.PassFiresDueInOrder | src/timer_manager.cc:27-46 | a pass fires each due timer once, in order, none created meanwhile, and leaves nothing due |
| TimerTimes.PassOrder | include/timer_manager.h:38-43 | within a pass timers fire by expiry, and of equal expiry by fewer repeats left, written out |
| TimerSpec.PassConserves | src/timer_manager.cc:27-46 | timers left plus fired are those there before plus re-queued plus created |
| TimerTimes.PassReschedules | src/timer_manager.cc:32-42 | after a pass, a timer that was not due is unchanged; a fired one with repeats left is queued exactly once, for one interval after the clock of the pass and with one repeat less; a fired one without is gone |
| TimerSpec.PassCreates | src/timer_manager.cc:3-10 | the timers a pass creates are those asked for by the callbacks of the timers it fired, the k-th fired making the k-th callback's requests, under consecutive identities |
| TimerSpec.RemoveExactly | src/timer_manager.cc:12-25 | RemoveTimer leaves a heap of exactly the other timers |
| TimerRuns.FiresExactly | test/test_timer_manager.cc:25 | over every run, fires so far plus repeats left is the repeat count given; a timer created with r >= 0 and never removed has left exactly when it fired r + 1 times |
| TimerTimes.FiresApart | src/timer_manager.cc:27-46 | over every run, no timer fires before one interval after it was added, and two fires of one timer are at least its interval apart |
| TimerTimes.AddExactly | src/timer_manager.cc:3-10 | AddTimer queues exactly one timer, due one interval after the clock, or nothing for a non-positive interval |
| TimerRuns.Exec | src/timer_manager.cc:3-46 | after any run of additions, removals and passes the queue is a heap of distinct timers, and every timer's account of fires and repeats balances |
| TimerRuns.PassAccounts | src/timer_manager.cc:27-46 | a pass keeps that account for all timers at once |
| TimerManager.TimerManager.AddTimer | src/timer_manager.cc:3-10 | null exactly for a non-positive interval; else a fresh timer, pushed |
| TimerManager.TimerManager.RekeyRoot | src/timer_manager.cc:38-39 | the mutators change the root in place and no other element |
| TimerManager.TimerManager.CheckAndHandle | src/timer_manager.cc:27-46 | the loop over timer pointers ends and does the specified pass |
| TimerManager.TimerManager.RemoveTimer | src/timer_manager.cc:12-25 | popping everything and pushing back all but one timer gives the specified queue |
| TimerManager.SiftUpPointers | include/timer_manager.h:38-45 | the sift over pointers, comparing through the objects, is the sift of their keys and permutes the pointers |
| TimerManager.SiftDownPointers | include/timer_manager.h:38-45 | the same for the way down |
| BufferSpec.EnsureMakesRoom | include/buffer.h:52-86 | after EnsureWriteableBytes(len), by either branch, len bytes are writable and the readable count is the same |
| BufferSpec.GrowsIff | include/buffer.h:73-86 | the storage grows if and only if what is readable and what is to come do not fit behind the first eight bytes, and then to exactly what is needed |
| BufferSpec.EmptyIsAllRoom | include/buffer.h:38-44 | over every run, a buffer that holds nothing can be written to in all its storage but the first eight bytes |
| BufferSpec.StorageBounded | include/buffer.h:73-86 | over every run the storage is at most the larger of 8 + max(initialSize, peak) and 2 * peak + 6, with peak the most bytes ever readable |
| BufferSpec.BoundIsReached | include/buffer.h:73-86 | for every initial size from 2 on, a run of three calls reaches the bound, so it is sharp |
| Buffer.Buffer.MakeSpace | include/buffer.h:73-86 | growing, or the overlapping forward copy in one array, keeps the contents |
| Buffer.Buffer.Append | include/buffer.h:58-62 | the contents are the old ones followed by the data |
| Buffer.Buffer.Retrive | include/buffer.h:38-44 | drops a front part, or everything when asked for at least that much |
| Buffer.Buffer.RetriveAsString | include/buffer.h:45-49 | result followed by the new contents is the old contents |
| Buffer.Buffer.CopyForward | include/buffer.h:81-82 | copying front to back within one array is right even when the ranges overlap, as the target is in front |
| Buffer.Buffer.ReadFd | src/buffer.cc:13-39 | appends exactly what readv delivered, also when it spills into the 65535-byte region; an error changes nothing |
| Buffer.Buffer.WriteFd | src/buffer.cc:42-49 | hands over a prefix of the contents and keeps them |
| LogFileSpec.CutShortIff | src/log_file.cc:15-31 | a line is cut short if and only if some write sets the error flag while all writes up to it leave the line unfinished |
| LogFileSpec.RollKeepsInv | src/log_file.cc:114-129 | file names keep growing and a roll never opens a name already on disk, whatever the clock does |
| LogFileSpec.RollingKeepsTheStream | src/log_file.cc:70-90 | over every run, the files hold whole accepted lines, and in creation order they hold them all |
| LogFileSpec.NothingLostIff | src/log_file.cc:15-31 | the files in creation order concatenate to everything appended if and only if no line met a failing short write |
| LogFileSpec.CrashesIff | src/log_file.cc:35-48 | an append finds no open file if and only if the first clock reading was not after the epoch |
| LogFileSpec.UncountedIff | src/log_file.cc:18-30 | written_bytes_ falls behind the file if and only if the call that ends the loop with an error took something, and then by exactly that |
| LogFileSpec.OverLimitStaysIff | src/log_file.cc:72-73 | in any reachable state, a line that takes the file past the limit leaves it open if and only if the clock has not passed the file's creation |
| LogFileRolls.OpensIff | src/log_file.cc:70-90 | in any reachable state, an append opens a file if and only if the clock is past the open file's creation, and the file passed the limit or the line is the check_every_n-th within the limit and of another day than the file; the new file is empty and all marks are the clock's |
| LogFileRolls.FlushesIff | src/log_file.cc:82-87 | in any reachable state, without a new file the interval flushes if and only if the line is checked, its day is another than the file's, and the last flush is longer ago than the interval |
| LogFileRolls.SamePeriodIff | src/log_file.cc:80-81 | two clocks have the same period if and only if they lie in the same day of 86400 seconds |
| LogFileRolls.WrittenIsFileLength | src/log_file.cc:28-30 | over every run without a failing write, written_bytes_ is the length of the open file |
| LogFileSpec.SameSecondPilesUp | src/log_file.cc:118-128 | for every roll size, a run of lines within the second of creation all goes to the first file |
| LogFileSpec.DueFlushSkippedIff | src/log_file.cc:82-87 | in any reachable state, a due flush of the file that stays open is skipped if and only if the day is still the file's first |
| LogFileSpec.SameDayNeverFlushes | src/log_file.cc:82-87 | however long a run is, while its checks see the first day and the file stays open, the interval never flushes it |
| LogFileSpec.NewDayRolls | src/log_file.cc:77-83 | when as many lines as the check interval still lacks are checked against another day by a clock past the last roll, at least one new file is opened |
| LogFile.AppendFile.Append | src/log_file.cc:15-31 | the short-write loop ends; the file grows by the accepted prefix and written_bytes_ by what was counted |
| LogFile.LogFile.RollFile | src/log_file.cc:114-129 | true exactly when the clock passed the last roll; then a new file is open and all marks are reset |
| LogFile.LogFile.AppendUnlocked | src/log_file.cc:70-90 | the object follows the machine through size roll, day roll and the dangling else |

## Left out

- Sockets, addresses, accept, socket options, eventfd and epoll creation, configuration, time formatting: plumbing; their results are parameters.
- Logger and LogStream formatting, log levels: only the fixed buffer carries state that matters here.
- Round-robin choice of the next loop and thread start-up: a connection's home loop is arbitrary.
- GetRecentTimeout and its conversion to int: the unsigned difference is compared with zero, so it promises no deadline.
- The message pointer bound into a send from another thread: the message is captured by value.
- LifecycleRaw.RawFunctorHeldIff: after a functor ran on an unheld connection the machine goes on as if the memory were still there; when such a functor enables writing is decided in ConnectionRuns, and left open here.
- A user's own pointer to a connection: the holders are the server's map and functors.
- The message and read callbacks' view of the input buffer: reads are modelled through Buffer.ReadFd only.
- Timer callbacks that call RemoveTimer: the rebuild may put another tied timer at the root, which the pass then changes; callbacks may add timers only.
- The inner algorithm of std::priority_queue: push and pop are sift-up and sift-down on an array, one legal implementation.
- Integer widths and wrap-around of clocks, counters and expiry times; event masks are bit-vectors.
- Server destruction, functors still queued when a loop quits, and a quit before Loop beyond the reset of the flag.
- What stdio holds back before a flush: a file's contents are what was given to fwrite; the flush itself is not modelled, only last_flush_.
- LogFile.AppendFile.Append: writes that take nothing without an error, for ever, are not modelled, since fwrite takes something or sets the error flag; a line meets finitely many short writes.
- Two processes or two loggers using one base name: the time of creation alone names a file.
- The copy of ready events out of epoll's array and its doubling: a plain copy.
- The poll wrapper's fatal exit on EINTR, and logging of failures.
- HasChannel after PollPoller::RemoveChannel: the map entry stays, so poll invariants are about live channels.
- TcpServer.TcpServer.NewConnection: the name text and the setting of callbacks are not modelled; connections are numbered.
- AsyncLogging.LoggingThread.Swap: waiting on the condition variable is a step of the state machine, not of the method.
- TcpConnection.TcpConnection.SendInLoop: a failed write other than a fault is logged by the original; the log line is not modelled.
