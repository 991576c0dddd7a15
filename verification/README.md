# Verified core of the clia reactor server and logger

clia is a reactor-style TCP server library with an asynchronous logger. This project models its protocols in Dafny and
proves what they keep over every run.

* **Connections across threads.** `Lifecycle.dfy` is the protocol between the base loop, which accepts, and any number
  of I/O loops, which establish, serve, close and destroy connections: open descriptors, the server's connection map,
  each connection's state, each loop's active channels, functor batch and pending functors, each poller's channel map
  and kernel interest set, user-held pointers, and the end of an object when its last reference goes. Every assertion
  of the code on the way is a check that may report a fault. `LifecycleSafety.dfy` holds the global invariant, its
  preservation by every step, and what follows from it. `LifecycleEffects.dfy` says what each step does and which assertions it has
  passed. `LifecycleProgress.dfy` shows that removals complete
  in every fair run, `ShutdownRace.dfy` what a `shutdown` from another thread can break. `Server.dfy` is the same protocol in the source's imperative form. `LifecycleExample.dfy` is one whole life of a connection, so the steps are not vacuous.
* **One connection's streams.** `NetBuffer.dfy` is the byte buffer with compaction and growth; `Connection.dfy` is
  direct, partial and deferred writing, half-close, reading, closing and the dispatch of one ready mask;
  `Echo.dfy` is the echo server on top of it; `ConnectionEffects.dfy` says what user, peer and
  socket observe of each operation; `Simulation.dfy` relates this view of a connection to that of the protocol.
* **Poller and loop.** `Poller.dfy` is the channel index and map bookkeeping against the kernel's interest set;
  `EventLoops.dfy` is the functor queue with its eventfd wakeup under arbitrary interleaving.
* **Logging.** `AsyncLog.dfy` is the double-buffered logger as a protocol of producers, one writing thread and the
  destructor; `AsyncLogger.dfy` is its heap form, in which a ghost map gives every buffer one place;
  `FixedBuffers.dfy` is its fixed-size buffer; `FileLog.dfy` is the rolling appender; `EndToEnd.dfy` joins them;
  `Decimal.dfy` is integer formatting.

`Checks.dfy` is the result type of checked operations and `Sequences.dfy` holds facts about concatenation. Where the
source works in place, there is a class whose methods are proved equal to the functions the theorems are about; a
contract that equates the new state with such a function is a refinement, and the function's properties are the lemmas
listed beside it. System calls, clocks and user callbacks are parameters: what `read`, `write`, `accept`, `epoll_wait`,
`fwrite` and the clock deliver, and what a callback does.

What the code needs of its surroundings, each as a guard of a step or as a condition that is proved exact:

* `send` and `shutdown` are called on the connection's loop thread. The test and the store of `shutdown` are not atomic
  (`clia/src/net/tcp_connection.cc:58-59`); from another thread it is harmless exactly if the loop has not closed the
  connection in between (`ShutdownRace.StoreIsSafeIff`). A cross-thread `send` captures a raw pointer.
* A ready mask with hang-up but no input does not ask for a read, and what is read fits: `read_fd` finds free room, and
  its scratch copy of 65536 bytes holds the readable bytes and a terminator. This is exact:
  `Connection.HandleEventFaultIff`, `Connection.SafeMaskIff`, `LifecycleSafety.HandleEventFaultIff`. No mask that reads
  is safe without a promise about how much arrives (`Connection.AlwaysSafeMaskIff`). When the next read finds no room
  is exact by `Connection.NextReadFindsNoRoomIff`, with an instance in `Connection.RoomCanRunOut`; the echo server
  always has room (`Echo.EchoReadFitsIff`).
* A logged message is shorter than a buffer. The guard of `log` admits equality but the buffer does not; exact by
  `AsyncLog.StoreFaultIff`. No `log` call is in progress when the logger is destroyed; exact by
  `AsyncLog.DestroyIsSafeIff`.
* `convert` leaves its digit table for negative values; exact by `Decimal.IndicesInRangeIff` and `Decimal.Convert`.
* The loop's own thread queues nothing before `loop()`, unless another thread has woken the loop or is about to; exact
  by `EventLoops.LostWakeupIff`.
* A log file stays within its bound as long as no append goes to a file that has outgrown the roll size; exact by
  `FileLog.BoundKeptIff` and `FileLog.FilesBoundedIff`, in terms of written bytes, clock and file name by
  `FileLog.TargetWithinIff`, and over runs that open new names by `FileLog.FilesBoundedByClockIff`. The clock is read
  again for the name, so a full file can be opened a second time (`FileLog.ReopenedFileOutgrows`).
* A descriptor appears at most once in a poll result, and `accept` returns descriptors that are not open.

The code's test of the write error (`clia/src/net/tcp_connection.cc:195`) is always true, so every error other than
EWOULDBLOCK loses the message; the model follows the code.

## Model

| member | source | states |
|---|---|---|
| LifecycleSafety.NoAssertionFails | clia/src/net/tcp_server.cc:57-94 | from a started server with any number of loops, in every interleaving of accept, poll, dispatch (with reads that fit), functor, hold and release steps, no assertion on connection map, connection state, poller map, active channels or destructors fails and no dead object is used |
| LifecycleSafety.RunInv | clia/src/net/tcp_connection.cc:81-159 | every run from a state with the global invariant is free of faults and ends in one |
| LifecycleSafety.NextInv | clia/src/reactor/event_loop.cc:55-74 | every enabled step of any thread, followed by the end of unreferenced objects, keeps the global invariant |
| LifecycleSafety.PerformInv | clia/src/reactor/event_loop.cc:55-74 | each of the ten kinds of step is free of faults and keeps the invariant |
| LifecycleSafety.InitialInv | clia/src/net/tcp_server.cc:9-19 | a server with no connection and idle loops satisfies the invariant |
| LifecycleSafety.NewConnectionInv | clia/src/net/tcp_server.cc:57-79 | accepting an unopened descriptor never meets the map assertion and owes exactly one establish, run at once if the I/O loop is the base loop, else queued |
| LifecycleSafety.EstablishedInv | clia/src/net/tcp_connection.cc:81-90 | the owed establish finds the connection Connecting and its descriptor free in the poller, and discharges the duty whatever the up callback does |
| LifecycleSafety.HandleCloseInv | clia/src/net/tcp_connection.cc:147-159 | closing an up connection keeps the invariant through the down and close callbacks, whatever user code does in them |
| LifecycleSafety.RemoveInLoopInv | clia/src/net/tcp_server.cc:86-94 | the owed removal finds exactly this connection in the map and turns into one queued destroy on its I/O loop |
| LifecycleSafety.EndCloseInv | clia/src/net/tcp_server.cc:81-84 | the close callback removes at once on the base loop and otherwise queues exactly one removal there |
| LifecycleSafety.DestroyedInv | clia/src/net/tcp_connection.cc:93-106 | the owed destroy finds the connection down with no interest, so the channel's removal meets its assertions |
| LifecycleSafety.HandleEventInv | clia/src/reactor/channel.cc:139-163 | handling a safe ready mask of an up connection, whose read fits, is free of faults and keeps the invariant |
| LifecycleSafety.HandleEventFaultIff | clia/src/reactor/channel.cc:139-163 | whatever the callbacks do, handling a mask fails exactly when it has one of the bits EPOLLIN, EPOLLPRI, EPOLLRDHUP and the read does not fit, or it also has EPOLLHUP and no EPOLLIN and the read meets end of stream; `Simulation.EventSimulated` says from the buffer when a read fits |
| Simulation.EventSimulated | clia/src/reactor/channel.cc:139-163 | an event of a connection with its bytes and buffers is an event of the protocol: with the corresponding inputs (whether the read fits the input buffer among them) an assertion breaks in both or in neither, and state, interest and callbacks end the same |
| Simulation.CallsSimulated | clia/src/net/tcp_connection.cc:47-62 | sends, shutdowns and retrievals of user code are the acts of the protocol |
| Simulation.EstablishSimulated | clia/src/net/tcp_connection.cc:81-90 | so is establishment |
| LifecycleSafety.HandleReadInv | clia/src/net/tcp_connection.cc:112-125 | reading data that fits, end of stream or an error keeps the invariant |
| LifecycleSafety.HandleWriteInv | clia/src/net/tcp_connection.cc:127-145 | the write handler keeps the invariant also on a connection that has just closed |
| LifecycleSafety.CallNextInv | clia/src/reactor/event_loop.cc:147-160 | calling the next functor of a batch discharges the duty it stands for |
| LifecycleSafety.PollInv | clia/src/reactor/epoller.cc:54-66 | every reported channel is in the poller's map and its owner is alive and up |
| LifecycleSafety.HandleNextInv | clia/src/reactor/event_loop.cc:65-68 | handing out the next active channel is free of faults even after earlier handlers ran |
| LifecycleSafety.ReapInv | clia/src/net/tcp_connection.cc:27-29 | whenever last references go, the destructors' assertions hold and closing the descriptors keeps the invariant |
| LifecycleSafety.ExpiredIsRemoved | clia/src/reactor/channel.cc:28-34 | only a Disconnected connection that is out of the map and out of its poller can lose its last reference |
| LifecycleSafety.DescriptorsAreExclusive | clia/src/net/tcp_server.cc:65-67 | in every reachable state a living connection's descriptor is open and belongs to no other living connection |
| LifecycleSafety.ClosedOnlyAfterLeaving | clia/src/net/tcp_connection.cc:93-106 | a step that closes a connection's descriptor ends a connection that is down and whose channel has left the poller's map and the kernel |
| LifecycleSafety.FunctorsOutstandingOnce | clia/src/net/tcp_server.cc:77-94 | in every reachable state each establish, remove and destroy that a connection's state calls for is outstanding exactly once, on its own loop, and no other is |
| LifecycleSafety.ActiveStaysAlive | clia/src/reactor/event_loop.cc:61-72 | from poll to the end of dispatch every channel not yet handled is in the poller's map and its owner alive and up, base loop and I/O loop equal or not |
| LifecycleSafety.CallbacksInOrder | clia/src/net/tcp_connection.cc:81-125 | in every reachable state each connection saw one up, then only messages, then one down directly followed by one close; an ended one saw all of it |
| LifecycleProgress.EveryFairRunCloses | clia/src/net/tcp_server.cc:81-94 | no descriptor leaks: in every endless run in which each loop keeps going, whatever all threads, users and peers do, a connection that is down and that user code neither holds nor takes hold of again ends, and its descriptor is closed |
| LifecycleProgress.EveryStepAdvances | clia/src/reactor/event_loop.cc:61-72 | every step of any thread, other than taking a new pointer to it, ends a connection that is down, or brings its removal to the next stage, or takes no loop farther from dropping it and the loop that moves nearer |
| LifecycleProgress.RemovalCompletes | clia/src/net/tcp_server.cc:81-94 | from every reachable state in which a connection is down and not held there is a run of loop turns alone (polls that report nothing, handlers that do nothing, functor calls, ends of batches) that ends its object and closes its descriptor |
| LifecycleProgress.DriveLoop | clia/src/reactor/event_loop.cc:61-72 | a loop that goes on with its rounds drops every functor of a connection that is down, unless the removal reaches its next stage first |
| LifecycleProgress.MentionedSomewhere | clia/src/net/tcp_server.cc:86-94 | as long as a connection that is down lives, some loop has its removal, its destruction or a called functor of it |
| LifecycleSafety.DestroyFineIff | clia/src/net/tcp_server.cc:21-28 | destroying a connection out of turn meets its assertions exactly if it is Connected, or Disconnected and still in its poller |
| ShutdownRace.StoreIsSafeIff | clia/src/net/tcp_connection.cc:57-62 | after a test that found the connection Connected, storing Disconnecting keeps every later run free of faults exactly if the connection has not been closed in between; otherwise a run leads to the failing assertion of the destructor |
| ShutdownRace.StoredRunFails | clia/src/net/tcp_connection.cc:27-29 | after a store that came too late, every run of loop turns that would end the object breaks the assertion of its destructor |
| LifecycleSafety.CallKeepsRounds | clia/src/reactor/event_loop.cc:147-160 | calling a functor takes nothing off any loop's queues and disturbs no loop's round; what it queues goes to the end of what is pending |
| LifecycleSafety.EventKeepsRounds | clia/src/reactor/event_loop.cc:65-106 | nor does handling an event |
| LifecycleSafety.FunctorsAreAtHome | clia/src/net/tcp_connection.cc:134-136 | in every reachable state every functor a loop has belongs to a living connection, and a completion to a connection of that loop |
| LifecycleEffects.AcceptIsOpen | clia/src/net/tcp_server.cc:57-67 | whenever the base loop dispatches, any descriptor that is not open can be accepted for any loop without fault |
| LifecycleEffects.AcceptQueuesElsewhere | clia/src/net/tcp_server.cc:62-78 | a connection for another loop is in the map at once, Connecting and open, with exactly one establishment at the end of that loop's queue and nothing else changed |
| LifecycleEffects.AcceptEstablishesHere | clia/src/net/tcp_server.cc:62-78 | a connection of the base loop is in the map, Connected, registered for EPOLLIN and EPOLLPRI, and the user told once, with nothing queued |
| LifecycleEffects.DestroyLeaves | clia/src/net/tcp_connection.cc:93-106 | a destroyed connection has left its poller; one still Connected is taken down first and the user told |
| LifecycleEffects.ReadyIsReportable | clia/src/reactor/epoller.cc:32-66 | any registered channels, each once, with masks that do not close and read, can be what a poll reports |
| LifecycleEffects.RoundMoves | clia/src/reactor/event_loop.cc:61-72 | a poll hands over everything that is ready, in order; the end of dispatch takes everything pending, in order, as the batch; the end of the batch drops its functors |
| LifecycleEffects.HandlesInOrder | clia/src/reactor/event_loop.cc:65-68 | active channels are handled one by one in order, each once, and no loop's round is disturbed |
| LifecycleEffects.CallsInOrder | clia/src/reactor/event_loop.cc:156-158 | functors are called one by one in order, each once; what they queue waits |
| LifecycleEffects.ActDoes | clia/src/net/tcp_connection.cc:47-62 | user code acts on Connected connections of its own loop and on nothing else: write interest, one completion at the end of the queue, or Disconnecting |
| LifecycleEffects.UpAndCompletionRunUserCode | clia/src/net/tcp_connection.cc:87-89 | the up callback runs user code on the established connection; the completion callback runs it on the world as it is |
| LifecycleEffects.DownRunsUserCode | clia/src/net/tcp_connection.cc:147-159 | the down callback runs user code when the connection is down and still in the server's map |
| LifecycleEffects.OutsideDoes | clia/src/net/tcp_server.cc:65-67 | user pointers and descriptors of others come and go, and nothing else changes |
| LifecycleEffects.DrainCompletes | clia/src/net/tcp_connection.cc:129-136 | when the last waiting byte is out, write interest ends and exactly one completion is queued on this loop if wanted; otherwise nothing changes |
| LifecycleEffects.UpdateChecks | clia/src/reactor/epoller.cc:76-87 | a poller update without fault has met its assertions and the rules of epoll_ctl |
| LifecycleEffects.LeaveChecks | clia/src/reactor/event_loop.cc:113-120 | leaving without fault has met the assertions of loop, channel and poller |
| LifecycleEffects.HandlersCheck | clia/src/net/tcp_connection.cc:81-149 | handlers and functors without fault have met the assertions on life, thread, state and room |
| LifecycleEffects.ServerChecks | clia/src/net/tcp_server.cc:57-91 | accept and removal without fault have met the assertions on thread and map |
| LifecycleEffects.PollAndEndCheck | clia/src/reactor/channel.cc:28-34 | a poll without fault has met the map assertion, and an object that ends those of the destructors |
| LifecycleExample.WholeLife | clia/src/net/tcp_server.cc:57-94 | nine steps take a connection from accept to a closed descriptor with callbacks up, down, close and empty map, kernel and queues |
| Server.TcpServer.constructor | clia/src/net/tcp_server.cc:9-19 | a new server is an initial state of the protocol |
| Server.TcpServer.NewConnection | clia/src/net/tcp_server.cc:57-79 | in-place accept refines the protocol's step |
| Server.TcpServer.RemoveConnection | clia/src/net/tcp_server.cc:81-84 | in-place close callback refines the protocol's: at once on the base loop, else queued |
| Server.TcpServer.RemoveConnectionInLoop | clia/src/net/tcp_server.cc:86-94 | in-place removal refines the protocol's |
| Server.TcpServer.ConnectEstablished | clia/src/net/tcp_connection.cc:81-90 | in-place establishment refines the protocol's |
| Server.TcpServer.ConnectDestroyed | clia/src/net/tcp_connection.cc:93-106 | in-place destruction refines the protocol's |
| Server.TcpServer.HandleRead | clia/src/net/tcp_connection.cc:112-125 | in-place read handler refines the protocol's |
| Server.TcpServer.HandleWrite | clia/src/net/tcp_connection.cc:127-145 | in-place write handler refines the protocol's |
| Server.TcpServer.HandleClose | clia/src/net/tcp_connection.cc:147-159 | in-place close refines the protocol's |
| Server.TcpServer.HandleEvent | clia/src/reactor/channel.cc:139-163 | close, then read, then write, as the ready mask says |
| Server.TcpServer.HandleNext | clia/src/reactor/event_loop.cc:65-68 | needs only the global invariant, performs the protocol's step and keeps the invariant |
| Server.TcpServer.Accept | clia/src/net/tcp_server.cc:57-79 | needs only the global invariant and an unopened descriptor, performs the step and keeps the invariant |
| Server.TcpServer.CallBatch | clia/src/reactor/event_loop.cc:156-158 | the loop over a batch calls each functor once, in order, and ends with the invariant and an empty batch |
| Poller.EveryRunRefines | clia/src/reactor/epoller.cc:68-133 | over every run of constructing, changing, detaching and destructing channels, no assertion (those of the destructor included) and no epoll_ctl rule fails, map members are exactly the channels that are not New, kernel entries exactly the Added ones with their masks, Deleted means no interest and New not added |
| Poller.EmptyInv | clia/src/reactor/epoller.cc:18-27 | an empty poller satisfies what every run keeps |
| Poller.ApplyRefines | clia/src/reactor/epoller.cc:68-133 | one such operation keeps that refinement |
| Poller.SetEventsFineIff | clia/src/reactor/epoller.cc:68-97 | changing interest meets every assertion and epoll_ctl rule exactly when a New channel's descriptor is not taken in the map |
| Poller.SetEventsShape | clia/src/reactor/epoller.cc:68-97 | where a successful interest change leaves channel, map and kernel, stated without the operation's own branches |
| Poller.SetEventsRefines | clia/src/reactor/channel.cc:79-102 | it keeps the refinement, leaves other channels alone, and ends Deleted exactly if an Added channel lost all interest |
| Poller.DetachFineIff | clia/src/reactor/channel.cc:128-132 | leaving meets every assertion exactly for a registered channel without interest |
| Poller.DetachRefines | clia/src/reactor/epoller.cc:99-114 | it keeps the refinement and ends New, out of map and kernel |
| Poller.DestructFineIff | clia/src/reactor/channel.cc:28-34 | a channel may end exactly when its index is New |
| Poller.Epoller.UpdateChannel | clia/src/reactor/epoller.cc:68-97 | the in-place update refines the registry function |
| Poller.Epoller.RemoveChannel | clia/src/reactor/epoller.cc:99-114 | the in-place removal refines the registry function |
| Poller.Epoller.Update | clia/src/reactor/epoller.cc:116-133 | the kernel set changes as the legal epoll_ctl says |
| Poller.Epoller.HasChannel | clia/src/reactor/epoller.cc:135-139 | in the map exactly if the channel's index is not New |
| Poller.Epoller.FillActiveChannels | clia/src/reactor/epoller.cc:54-66 | the active list is the poll result in order, each channel registered, Added and carrying its own ready mask, all others untouched |
| Poller.Channel.Update | clia/src/reactor/channel.cc:134-137 | replacing the mask refines the registry function and keeps the refinement |
| Poller.Channel.EnableReading | clia/src/reactor/channel.cc:79-82 | adds the read bits and keeps the refinement |
| Poller.Channel.EnableWriting | clia/src/reactor/channel.cc:89-92 | adds the write bit and keeps the refinement |
| Poller.Channel.DisableWriting | clia/src/reactor/channel.cc:94-97 | takes the write bit away and keeps the refinement |
| Poller.Channel.DisableAll | clia/src/reactor/channel.cc:99-102 | clears the mask and keeps the refinement |
| Poller.Channel.Remove | clia/src/reactor/channel.cc:128-132 | the channel is New again and its descriptor out of the kernel |
| EventLoops.NoLostWakeup | clia/src/reactor/event_loop.cc:61-106 | in every interleaving a loop at its poll point with pending functors or a quit request has a positive eventfd counter or another thread about to write it |
| EventLoops.LostWakeupIff | clia/src/reactor/event_loop.cc:97-106 | in every state before `loop()`, whoever queued what: no later run sleeps on work if and only if nothing is pending or another thread has woken the loop or is about to |
| EventLoops.EveryRunInv | clia/src/reactor/event_loop.cc:129-160 | in every interleaving: executed functors, the rest of the batch and the pending ones are together everything ever queued, in order |
| EventLoops.NextInv | clia/src/reactor/event_loop.cc:55-106 | each step of the loop thread or another thread keeps queue order and an announced quit |
| EventLoops.StaysAnnounced | clia/src/reactor/event_loop.cc:97-106 | each step, other than a push of the own thread before `loop()`, keeps pending work announced |
| EventLoops.RunBatchEffect | clia/src/reactor/event_loop.cc:147-160 | a batch ends even if its functors queue more: it ran exactly what was pending, what it queued is pending next, with a wakeup |
| EventLoops.PushIsPending | clia/src/reactor/event_loop.cc:97-106 | a functor queued by any thread at any time is pending behind those before it, and another thread's eventfd write makes the counter positive |
| EventLoops.BatchIsPending | clia/src/reactor/event_loop.cc:147-160 | the batch is all that was pending, in order, and its first functor is called next |
| EventLoops.RoundGoesOn | clia/src/reactor/event_loop.cc:55-74 | test, wait, dispatch, functors and round again, until the test finds a request to quit |
| EventLoops.QuitIsNoted | clia/src/reactor/event_loop.cc:76-81 | a request to quit by any thread is there at once, another thread's with a wakeup to follow |
| EventLoops.QuitIsFinal | clia/src/reactor/event_loop.cc:61-81 | once asked to quit, in every run the request stays and the loop never waits again after its present wait |
| EventLoops.QuitStopsLoop | clia/src/reactor/event_loop.cc:61-73 | a loop that has been asked to quit finishes its round and stops, by its own steps alone |
| EventLoops.StopsOnlyOnQuit | clia/src/reactor/event_loop.cc:61-81 | in every run a loop stops only after a request to quit |
| EventLoops.EventLoop.QueueInLoop | clia/src/reactor/event_loop.cc:97-106 | the functor is pending, last; the counter is positive afterwards, unless on the loop's own thread outside the functor phase, when it is unchanged |
| EventLoops.EventLoop.RunInLoop | clia/src/reactor/event_loop.cc:88-94 | on the loop's own thread it runs at once, so exactly what it queues becomes pending; otherwise it is pending itself |
| EventLoops.EventLoop.Wakeup | clia/src/reactor/event_loop.cc:129-135 | the counter rises by one, or stays positive when full |
| EventLoops.EventLoop.HandleRead | clia/src/reactor/event_loop.cc:138-144 | reading the eventfd clears its counter |
| EventLoops.EventLoop.DoPendingFunctors | clia/src/reactor/event_loop.cc:147-160 | the loop over the swapped batch runs all of it once in order and leaves exactly what it queued |
| Connection.EveryRunInv | clia/src/net/tcp_connection.cc:47-215 | in every run of sends, shutdowns, safe ready masks with reads that fit, short writes, would-blocks and errors: no assertion fails, wire bytes then waiting output are the messages taken, write interest mirrors waiting output, the write side is shut at most once, last and with all taken bytes written, no completion is announced early or missed, callbacks are in order |
| Connection.SendInv | clia/src/net/tcp_connection.cc:173-208 | a send keeps that invariant and the state |
| Connection.SendConserves | clia/src/net/tcp_connection.cc:184-207 | after a direct, partial or deferred write, wire then waiting output grew by exactly the message |
| ConnectionEffects.FailedSendTakesNothing | clia/src/net/tcp_connection.cc:191-202 | a write error on an idle connection leaves everything as it was: nothing written, kept or announced |
| ConnectionEffects.SendWritesAndKeeps | clia/src/net/tcp_connection.cc:184-207 | on an idle connection exactly the accepted bytes are on the wire, the rest waits with write interest on, and only a whole message is announced |
| ConnectionEffects.BlockedSendKeepsAll | clia/src/net/tcp_connection.cc:191-207 | a socket that would block takes nothing and all of the message waits |
| ConnectionEffects.SendQueuesBehind | clia/src/net/tcp_connection.cc:184-207 | behind waiting output a message waits its turn, whatever the socket would say |
| ConnectionEffects.SendOutsideConnected | clia/src/net/tcp_connection.cc:47-55 | a connection that is not Connected sends nothing |
| Connection.SendAnnounces | clia/src/net/tcp_connection.cc:186-190 | a send announces completion only with its bytes on the wire, and never leaves everything written but unannounced |
| Connection.HandleWriteConserves | clia/src/net/tcp_connection.cc:127-145 | the write handler only moves bytes from waiting output to the wire |
| ConnectionEffects.HandleWriteMovesAccepted | clia/src/net/tcp_connection.cc:127-145 | exactly the accepted bytes move from the output to the wire; the last one ends write interest, completes, and shuts the write side of a Disconnecting connection |
| ConnectionEffects.HandleWriteIdle | clia/src/net/tcp_connection.cc:127-145 | a write error, or an event without write interest, changes nothing |
| Connection.HandleWriteAnnounces | clia/src/net/tcp_connection.cc:131-136 | draining the output announces completion of everything taken |
| Connection.HandleWriteShutsLast | clia/src/net/tcp_connection.cc:131-140 | draining the output of a Disconnecting connection shuts the write side, once and last |
| Connection.HandleWriteInterest | clia/src/net/tcp_connection.cc:129-133 | write interest is dropped exactly when nothing is left waiting |
| Connection.HandleWriteInv | clia/src/net/tcp_connection.cc:127-145 | the write handler keeps the invariant |
| Connection.ShutdownInv | clia/src/net/tcp_connection.cc:57-62 | shutdown keeps the invariant, waiting for pending output |
| ConnectionEffects.ShutdownShutsOrWaits | clia/src/net/tcp_connection.cc:57-62 | a first shutdown makes the connection Disconnecting and shuts the write side at once if nothing waits; a second does nothing |
| ConnectionEffects.EstablishedTells | clia/src/net/tcp_connection.cc:81-90 | only a Connecting connection is established; it is then registered for EPOLLIN and EPOLLPRI and the user told |
| ConnectionEffects.CloseTells | clia/src/net/tcp_connection.cc:147-159 | only a connection that is up can be closed; it then wants nothing of its socket and the user is told down and close |
| Connection.HandleReadInv | clia/src/net/tcp_connection.cc:112-125 | the read handler keeps it when the read fits, whatever the message callback does |
| Connection.HandleEventInv | clia/src/reactor/channel.cc:139-163 | a safe mask whose read fits is handled without fault and keeps the invariant |
| Connection.HandleEventFaultIff | clia/src/reactor/channel.cc:139-163 | handling a mask breaks an assertion or overruns the scratch copy exactly when it has one of the bits EPOLLIN, EPOLLPRI, EPOLLRDHUP and there is no room, or 65536 or more bytes would be readable, or it also has EPOLLHUP and no EPOLLIN and the read meets end of stream |
| Connection.SafeMaskIff | clia/src/reactor/channel.cc:141-156 | a mask is handled well, whatever arrives that fits, exactly when it does not close and read, or no read fits at all |
| Connection.AlwaysSafeMaskIff | clia/src/net/buffer.cc:124-148 | without a promise about how much arrives, exactly the masks that do not read are safe |
| ConnectionEffects.CallsAreFree | clia/src/net/tcp_connection.cc:47-62 | in every state user code may send with any outcome of the write, shut down, and retrieve what is readable, one after another |
| ConnectionEffects.ReadBits | clia/src/reactor/channel.cc:141-152 | a mask reads exactly with EPOLLIN, EPOLLPRI or EPOLLRDHUP |
| ConnectionEffects.ReadDelivers | clia/src/net/tcp_connection.cc:112-118 | data that fits is readable behind what was, and the user told once |
| ConnectionEffects.AnyReadBitDelivers | clia/src/reactor/channel.cc:152-156 | any of those bits alone delivers it, in a mask that does not close |
| ConnectionEffects.ReadErrorIdle | clia/src/net/tcp_connection.cc:121-124 | a read error changes nothing |
| ConnectionEffects.EndOfStreamCloses | clia/src/net/tcp_connection.cc:119-120 | end of stream on any of those bits closes the connection |
| ConnectionEffects.HangUpCloses | clia/src/reactor/channel.cc:141-145 | a hang-up without input or another read bit closes it, whatever the socket would deliver |
| ConnectionEffects.OutputBitWrites | clia/src/reactor/channel.cc:157-161 | the output bit alone hands the accepted bytes to the socket and leaves the reading side alone |
| ConnectionEffects.ReadsThenWrites | clia/src/reactor/channel.cc:152-161 | input and output in one mask: the data is delivered, and then the accepted bytes go out |
| ConnectionEffects.OtherBitsDoNothing | clia/src/reactor/channel.cc:139-163 | a mask without these bits changes nothing |
| ConnectionEffects.RetrieveTakesFront | clia/src/net/buffer.cc:77-84 | taking bytes out of the input leaves exactly those behind them |
| ConnectionEffects.NewConnIs | clia/src/net/tcp_connection.cc:11-25 | Connecting, no interest, two empty buffers of 1024 bytes behind 8, empty histories |
| Connection.NextReadFindsNoRoomIff | clia/src/net/tcp_connection.cc:112-118 | after a read and its message callback the next read finds no room exactly when the callback left bytes unread and the read filled the room to the last byte or, beyond it, left no slack |
| Connection.RoomCanRunOut | clia/src/net/buffer.cc:131-131 | a new connection that reads 1025 bytes and leaves them unread cannot read again, whatever arrives |
| Connection.TcpConnection.constructor | clia/src/net/tcp_connection.cc:11-25 | a new connection is the model's: Connecting, no interest, two empty default buffers |
| Connection.TcpConnection.Send | clia/src/net/tcp_connection.cc:47-55 | refines the send function: nothing unless Connected |
| Connection.TcpConnection.SendInLoop | clia/src/net/tcp_connection.cc:173-208 | in-place buffers, channel and poller refine the send function |
| Connection.TcpConnection.Shutdown | clia/src/net/tcp_connection.cc:57-62 | refines the shutdown function |
| Connection.TcpConnection.ShutdownInLoop | clia/src/net/tcp_connection.cc:210-215 | shuts the write side unless output is waiting |
| Connection.TcpConnection.ConnectEstablished | clia/src/net/tcp_connection.cc:81-90 | refines establishment |
| Connection.TcpConnection.HandleRead | clia/src/net/tcp_connection.cc:112-125 | refines the read handler, with the message callback's calls |
| Connection.TcpConnection.HandleWrite | clia/src/net/tcp_connection.cc:127-145 | refines the write handler |
| Connection.TcpConnection.HandleClose | clia/src/net/tcp_connection.cc:147-159 | refines closing |
| Connection.TcpConnection.HandleEvent | clia/src/reactor/channel.cc:139-163 | refines the dispatch of one ready mask |
| Echo.EchoIsIdentity | test/test_server.cc:36-40 | over every run without write fault whose reads fit, bytes read are bytes written then waiting, the input buffer is empty after every event and has room for the next read |
| Echo.EchoStep | clia/src/net/tcp_connection.cc:112-118 | one event keeps that, for every allowed mask and every split of the stream |
| Echo.EchoMessage | test/test_server.cc:36-40 | the message callback takes all input and sends exactly it |
| Echo.EchoAnswers | test/test_server.cc:36-40 | on an idle connection whose socket takes everything, what arrives is on the wire when the event has been handled |
| Echo.EchoStarts | clia/src/net/tcp_connection.cc:11-25 | a new connection satisfies the echo invariant |
| Echo.EchoReadFitsIff | clia/src/net/buffer.cc:124-148 | an echo read fits exactly when fewer than 65536 bytes arrive at once |
| NetBuffer.RunIsQueue | clia/src/net/buffer.cc:77-158 | over every run of append, retrieve, scatter read and write, bytes taken out then readable are bytes readable at first then put in |
| NetBuffer.RunStorageBound | clia/src/net/buffer.cc:102-182 | over every run storage stays within the larger of its first size and twice the peak of readable bytes plus 7 |
| NetBuffer.AppendGrowsIff | clia/src/net/buffer.cc:168-182 | storage grows exactly when readable, new and prepend bytes together exceed it |
| NetBuffer.ReadLeavesNoRoomIff | clia/src/net/buffer.cc:124-144 | exactly when a scatter read itself leaves no free byte |
| NetBuffer.Image.MakeSpace | clia/src/net/buffer.cc:168-182 | growth or compaction keeps the readable bytes and the index order and frees enough room |
| NetBuffer.Image.Append | clia/src/net/buffer.cc:109-114 | readable bytes grow by the data at the end |
| NetBuffer.Image.Retrieve | clia/src/net/buffer.cc:77-84 | readable bytes lose exactly their first len, storage keeps its size |
| NetBuffer.Image.ScatterRead | clia/src/net/buffer.cc:136-144 | readable bytes grow by all that arrived, directly or by way of the stack buffer |
| NetBuffer.ShiftStep | clia/src/net/buffer.cc:174-177 | in the overlapping forward copy the next source byte is still the original one |
| NetBuffer.Buffer.constructor | clia/src/net/buffer.cc:10-18 | empty, with the initial size writable and the prepend area free |
| NetBuffer.Buffer.Retrieve | clia/src/net/buffer.cc:77-84 | in-place retrieve refines the function |
| NetBuffer.Buffer.RetrieveAll | clia/src/net/buffer.cc:86-89 | both indices return to the prepend size |
| NetBuffer.Buffer.RetrieveAsString | clia/src/net/buffer.cc:95-100 | returns exactly the first len readable bytes and removes them |
| NetBuffer.Buffer.RetrieveAllAsString | clia/src/net/buffer.cc:91-93 | returns all readable bytes and leaves none |
| NetBuffer.Buffer.EnsureWritableBytes | clia/src/net/buffer.cc:102-107 | refines the function and ends with enough room |
| NetBuffer.Buffer.Compact | clia/src/net/buffer.cc:172-180 | the overlapping copy loop moves the readable bytes to the front unchanged |
| NetBuffer.Buffer.MakeSpace | clia/src/net/buffer.cc:168-182 | refines the function; the compaction assertion follows from the guard |
| NetBuffer.Buffer.Append | clia/src/net/buffer.cc:109-114 | refines the function |
| NetBuffer.Buffer.ReadFd | clia/src/net/buffer.cc:124-148 | fails exactly when there is no room or the scratch copy cannot hold the result; otherwise refines the scatter read, or changes nothing on a read error |
| NetBuffer.Buffer.TakeIn | clia/src/net/buffer.cc:139-144 | what arrived goes behind the readable bytes, directly or by way of the stack buffer |
| NetBuffer.Buffer.CopyOut | clia/src/net/buffer.cc:145-146 | the scratch copy holds the readable bytes and a terminator, and overruns exactly when they do not fit |
| NetBuffer.Buffer.WriteFd | clia/src/net/buffer.cc:150-158 | hands out and removes exactly the accepted prefix, or changes nothing on error |
| AsyncLog.EveryRunInv | clia/src/log/async_logger.cc:33-115 | in every interleaving of producers, writing thread and destructor no assertion fails; batches, `buffers_` and current buffer hold the admitted messages in lock order; appender output plus the rest of the batch in hand is what the batches call for; next and spares are empty; a missing next implies a non-empty `buffers_`, which implies a non-empty current buffer |
| AsyncLog.NextInv | clia/src/log/async_logger.cc:33-115 | every step keeps that |
| AsyncLog.StoreInv | clia/src/log/async_logger.cc:37-49 | a logged message ends whole at the end of the current buffer |
| AsyncLog.LoggedIsAdmitted | clia/src/log/async_logger.cc:33-50 | whatever else is going on, a message shorter than a buffer that is logged while the logger runs is admitted, last |
| AsyncLog.StoreBeginsBufferIff | clia/src/log/async_logger.cc:37-49 | a new buffer is begun exactly if the message would leave no free byte; the full one is kept, in order |
| AsyncLog.StoreChecks | clia/clia/container/fixed_buffer.h:99-100 | a stored message leaves a byte of its buffer free, as the buffer asserts |
| AsyncLog.SwapTakesEverything | clia/src/log/async_logger.cc:63-76 | the swap takes every full buffer and then the current one, and leaves an empty current and an empty next buffer |
| AsyncLog.DropsOverTwentyFive | clia/src/log/async_logger.cc:78-88 | a batch of up to 25 buffers is kept; of a longer one the first two, and the appender is told how many were not |
| AsyncLog.WritesNextBuffer | clia/src/log/async_logger.cc:90-95 | the appender gets the next buffer if it holds any byte, and nothing else changes |
| AsyncLog.SyncChecks | clia/src/log/async_logger.cc:59-105 | steps of the writing thread without fault have met its assertions on spares and batch |
| AsyncLog.StoreFaultIff | clia/src/log/async_logger.cc:34-47 | of the messages the guard admits, exactly those as long as a whole buffer break the buffer's assertion |
| AsyncLog.SwapInv | clia/src/log/async_logger.cc:63-76 | the locked swap moves everything into one batch and leaves a current and a next buffer |
| AsyncLog.DropInv | clia/src/log/async_logger.cc:78-88 | over 25 buffers, all from the third on are dropped and one notice gives their number |
| AsyncLog.WriteInv | clia/src/log/async_logger.cc:90-95 | writing the next buffer moves exactly it to the output |
| AsyncLog.RecycleInv | clia/src/log/async_logger.cc:97-111 | after any drop, recycling finds enough buffers, so its assertions and those of the next turn hold |
| AsyncLog.DrainedOnExit | clia/src/log/async_logger.cc:25-31 | when the thread has ended, the batches are exactly the admitted messages, the appender received exactly the kept ones in order and the notices sum to the dropped buffers |
| AsyncLog.NothingLostWithoutNotice | clia/src/log/async_logger.cc:59-95 | with no notice the appender received every admitted message once, in order |
| AsyncLog.RoundInv | clia/src/log/async_logger.cc:59-113 | an undisturbed turn of the loop is free of faults and leaves the current buffer empty |
| AsyncLog.EndsAfterDestroy | clia/src/log/async_logger.cc:25-31 | wherever the writing thread is when the destructor clears the flag, its own steps bring it to its end, so the join returns |
| AsyncLog.DestroyIsSafeIff | clia/src/log/async_logger.cc:25-39 | clearing the flag leaves every later run with all admitted messages in batches when the thread ends, exactly if no `log` call is past its guard |
| AsyncLogger.AsyncLogger.constructor | clia/src/log/async_logger.cc:14-23 | fresh current and next buffer, the protocol's first state |
| AsyncLogger.AsyncLogger.Begin | clia/src/log/async_logger.cc:52-57 | two fresh spares, keeping the invariant |
| AsyncLogger.AsyncLogger.Log | clia/src/log/async_logger.cc:33-50 | a message that is not below the level, not empty and not longer than a buffer is stored while the logger runs, and nothing else is; a fault exactly for one as long as a buffer |
| AsyncLogger.AsyncLogger.Store | clia/src/log/async_logger.cc:37-49 | moving buffers between owners refines the protocol's store; a new buffer is allocated only when no next one is left |
| AsyncLogger.AsyncLogger.Test | clia/src/log/async_logger.cc:59-62 | the loop test with its three assertions |
| AsyncLogger.AsyncLogger.Swap | clia/src/log/async_logger.cc:63-76 | the swap moves buffers without sharing any |
| AsyncLogger.AsyncLogger.DropExcess | clia/src/log/async_logger.cc:78-88 | refines the drop with its notice |
| AsyncLogger.AsyncLogger.WriteBatch | clia/src/log/async_logger.cc:90-95 | the writing loop hands over each buffer's bytes in order, skipping empty ones |
| AsyncLogger.AsyncLogger.Recycle | clia/src/log/async_logger.cc:97-111 | the missing spares come emptied from the end of the batch |
| AsyncLogger.AsyncLogger.SyncRound | clia/src/log/async_logger.cc:59-113 | one turn of the loop refines the protocol's round and says whether to go on |
| AsyncLogger.AsyncLogger.Destroy | clia/src/log/async_logger.cc:25-31 | clears the flag, when no `log` call is in progress, and keeps the invariant |
| AsyncLogger.AsyncLogger.NoSharing | clia/src/log/async_logger.cc:52-111 | current, next, both spares, `buffers_` and the batch never share a buffer or its storage |
| FixedBuffers.FixedBuffer.constructor | clia/clia/container/fixed_buffer.h:69-82 | empty, with its whole capacity available |
| FixedBuffers.FixedBuffer.Append | clia/clia/container/fixed_buffer.h:99-109 | contents grow by the values at the end |
| FixedBuffers.FixedBuffer.AppendOne | clia/clia/container/fixed_buffer.h:85-96 | contents grow by one value |
| FixedBuffers.FixedBuffer.Add | clia/clia/container/fixed_buffer.h:117-120 | advances the position, staying inside |
| FixedBuffers.FixedBuffer.Reset | clia/clia/container/fixed_buffer.h:80-82 | contents become empty |
| FileLog.ShortWritesLandAll | clia/src/log/file_appender.cc:147-160 | without an error any pattern of short writes puts down and counts all bytes |
| FileLog.AppendsStayWhole | clia/src/log/file_appender.cc:134-162 | for every clock and every pattern of short writes without error no append is split between openings, and in order of opening they hold exactly what was appended |
| FileLog.ContentsAreAppends | clia/src/log/file_appender.cc:134-162 | the files' contents concatenate to the appended bytes |
| FileLog.BoundKeptIff | clia/src/log/file_appender.cc:134-162 | for every state and clock, after an append every file, however often opened, exceeds the roll size by at most its last append exactly if this was so and the file written to had not outgrown the roll size |
| FileLog.FilesBoundedIff | clia/src/log/file_appender.cc:134-162 | over every run the files end within the bound exactly if no append went to a file that had outgrown it |
| FileLog.TargetWithinIff | clia/src/log/file_appender.cc:77-146 | when the open file was opened once: the file written to has not outgrown the roll size exactly if the clock does not hold back a roll by size and a file that is opened is not full already |
| FileLog.FilesBoundedByClockIff | clia/src/log/file_appender.cc:77-162 | over every run whose opened names are new, the files end within the bound exactly if the clock never held back a roll by size |
| FileLog.ReopenedFileOutgrows | clia/src/log/file_appender.cc:77-110 | rolls at seconds 10 and 11 that both read second 11 for the name put two appends into one file beyond the bound |
| FileLog.PeriodRollsInTime | clia/src/log/file_appender.cc:137-146 | once the clock left the open file's period, a new file is opened within `check_every_` appends |
| FileLog.AppendOpensIff | clia/src/log/file_appender.cc:134-146 | an append opens a file exactly if the clock left the second of the last roll and the open file is over size, or the check due every `check_every_` appends finds the clock outside the period that contains the last roll |
| FileLog.PeriodContains | clia/src/log/file_appender.cc:82-82 | a period begins at a multiple of its length and contains the second it was computed from |
| FileLog.PeriodIsUnique | clia/src/log/file_appender.cc:141-143 | two seconds have the same period exactly if they lie between the same two multiples |
| FileLog.PeriodStaysOfRoll | clia/src/log/file_appender.cc:77-104 | over every run the stored period is the one that contains the last roll |
| FileLog.OneOpeningPerSecond | clia/src/log/file_appender.cc:78-79 | however much is written within one second, at most one file is opened in it |
| FileLog.ErrorStops | clia/src/log/file_appender.cc:147-160 | after an error the bytes that got through stay, those of the failing call are not counted, and no more are tried |
| FileLog.EmptyAppend | clia/src/log/file_appender.cc:61-64 | an append of nothing changes nothing |
| FileLog.FileAppender.constructor | clia/src/log/file_appender.cc:25-51 | size, period and check count are the arguments; one empty file is open, in the period of its opening, unless the clock reads zero, when none is |
| FileLog.FileAppender.RollFile | clia/src/log/file_appender.cc:77-104 | refines rolling: at most once a second |
| FileLog.FileAppender.Append | clia/src/log/file_appender.cc:134-162 | refines the append function, with its choice to roll |
| FileLog.FileAppender.Write | clia/src/log/file_appender.cc:147-160 | the partial-write loop lands and counts exactly what the results of `fwrite` allow, stopping at an error |
| EndToEnd.MessagesStayWhole | clia/src/log/async_logger.cc:90-95 | after shutdown every admitted and undropped message lies whole in exactly one file; in order of opening the files hold them in lock order, with each notice, whatever its text, in its place and the numbers adding up to the dropped buffers |
| EndToEnd.PiecesArePayload | clia/src/log/async_logger.cc:78-95 | without the notices the pieces are exactly the messages handed to the appender, in order |
| EndToEnd.FilesHoldEverything | clia/src/log/file_appender.cc:134-162 | if nothing was dropped, the files' contents in order of opening are exactly the logged bytes |
| Decimal.IndicesInRangeIff | clia/clia/util/str_func.h:27-31 | the digit table is indexed inside its bounds in every round exactly for non-negative values |
| Decimal.NumeralRoundTrip | clia/clia/util/str_func.h:26-37 | the text is a canonical numeral and reads back as the value |
| Decimal.NumeralUnique | clia/clia/util/str_func.h:26-37 | every canonical text is the numeral of its value, so the output is the only one |
| Decimal.NumeralLength | clia/clia/util/str_func.h:20-22 | the text fits k characters exactly when the value is below ten to the k |
| Decimal.SixtyFourBitsFitTwentyDigits | clia/clia/util/str_func.h:20-22 | a 64-bit value needs at most twenty digits |
| Decimal.WriteDigitsBackwards | clia/clia/util/str_func.h:25-31 | the do-while loop leaves the reversed numeral and touches nothing behind it; it leaves the digit table exactly for negative values |
| Decimal.ReversePrefix | clia/clia/util/str_func.h:36-36 | the digits are reversed in place, the rest kept |
| Decimal.Convert | clia/clia/util/str_func.h:19-38 | with 32 bytes of space: a fault exactly for negative values, else the numeral, its terminator inside the space, its length returned, nothing else written; with less: zero and no write |

## Left out

- ShutdownRace.StoreIsSafeIff: the functor that `shutdown` queues with a raw pointer is not part of it.
- `~TcpServer`: not a step of the protocol; `LifecycleSafety.DestroyFineIff` says for which connections its assertions hold (not for one that is Connecting or Disconnecting).
- Lifecycle: payload bytes, and the half-close inside the write handler, are modelled in Connection only; each handler or functor is one step together with the user code in its callbacks, and a push to another loop's queue is atomic as its mutex makes it.
- The wakeup channel and the acceptor's channel are not entries of a loop's registry in Lifecycle; `Accept` may happen at any point of the base loop's dispatch.
- LifecycleProgress.EveryFairRunCloses: loops that `quit` no longer keep going; a wait ends after `kPollTimeMs` at the latest.
- Server.TcpServer.CallBatch: object ends (the last reference going with the batch) are in the value model `Lifecycle.Reap` only.
- Server.TcpServer.HandleWrite: the half-close of lines 137-139 is in Connection.
- Server.TcpServer.HandleEvent: the error callback only logs and is left out.
- Connection.TcpConnection.HandleEvent: the error callback only logs and is left out.
- Moved-from and copied buffers, and `size_t` wrap-around of buffer sizes.
- Epoll masks are records of the six bits the code uses, without their numeric values.
- EventLoops.EventLoop.RunInLoop: what a functor does apart from queuing is abstract; the loop thread's own push and wakeup are one step.
- `quit()` before `loop()` is forgotten by the code; the model follows it.
- AsyncLogger.AsyncLogger.Log: the comparison of levels is a flag.
- The text of a drop notice is a parameter, its number is not.
- `cond_.wait_for` may end at any time, so flushing intervals and `notify_one` do not appear.
- FixedBuffers.FixedBuffer.AppendOne: needs a second free cell, because the advance asserts one (line 118).
- FileLog.FileAppender.constructor: the roll period is positive; a failed `fopen` goes to the standard stream, which has no size bound; contents a file had before the process started are not counted.
- Deleting old log files, log line formatting, timestamps, sockets, addresses and the acceptor's system calls.
- The bounded blocking queue, circular buffer, fixed output stream, countdown latch, memory pool, spin lock, logger manager and round-robin choice of loops: defective, unused by the core, or easy.
