# A verified model of the reactor

This project models the core of a multi-reactor TCP library in C++ (one event loop
per thread, epoll, non-blocking sockets) and proves, for every input and every
interleaving, what its design is for: no byte is lost, reordered or written after
the FIN; no queued task is lost, run twice or left waiting for a poll timeout; the
poller, the channels and the kernel agree about every registration; and a
connection goes through its life across two loops without ever being reached after
it was freed.

`dafny verify dfyconfig.toml` checks everything.

## How it is laid out

Each part that the source changes in place is a class whose methods are proved
equal to a function on values; the properties are then proved of those functions,
over whole runs. What the functions of a connection compute is fixed by a machine
of its own (Ideal.dfy), which knows only two byte streams, how far each has been
carried, and whether a shutdown has been asked for.

| file | contents |
|---|---|
| Buffer.dfy | the growable byte buffer as a class over an array; the arithmetic of its indices; the memory bound |
| Poller.dfy | event masks, the poller with the kernel's interest list, classes Channel and EpollPoller |
| Connection.dfy | one connection as a state machine on values |
| ConnectionProofs.dfy | stream conservation, half-close, write interest, callback order, over every run |
| Operations.dfy | what each operation of a connection means for the bytes, the state and the mask |
| Ideal.dfy | an independent machine without states, masks and buffers, and that the connection is that machine |
| Requests.dfy | what becomes of every send, shutdown and byte read, over every run |
| Notices.dfy | the trace of a run through all its handlers and callbacks, and what its notices say |
| CrossThread.dfy | send and shutdown called from another thread |
| Echo.dfy | the example server on one connection |
| TcpConnection.dfy | class TcpConnection over its two buffers and its channel; class EchoServer |
| EventLoop.dfy | the task queue and wakeup protocol, step by step; class EventLoop |
| ThreadPool.dfy | round-robin choice of a loop; class EventLoopThreadPool |
| ConnectionNames.dfy | the names of connections |
| TcpServer.dfy | the server and all its loops as one transition system; class TcpServer |
| ServerProofs.dfy | what every interleaving of the loops keeps |
| ServerConnections.dfy | each connection of the server as a run of its own; the example server end to end |
| ServerProgress.dfy | what the loops have to do always ends, with every closed connection erased and destroyed |
| ServerQueues.dfy | functors run in the order queued, and every reported channel is dispatched |
| KernelProofs.dfy | the poller operations of a server run, their legality, and the interest lists they leave |

What the outside does is an argument: the answer of each `readv` and `write` (any
byte count, any error), the events epoll reports, the code of the user's callbacks
(any sequence of sends, shutdowns and retrievals), and which thread steps next. The
kernel is assumed to report only events inside a channel's mask plus ERR and HUP,
each channel once per poll, and to drop a registration when its fd is closed.

An event mask is a record with one field per bit the program names. Byte counts
are unbounded integers.

## Properties that hold only under a condition

The code was followed wherever it differs from what it seems meant to do, and the
exact condition was proved:

* A dispatch can close a connection twice. Per dispatch, it keeps every invariant
  if and only if the kernel does not report a hang-up together with priority data
  and no plain data that a read then answers (`DispatchKeepsInvIff`). A second
  close registers the dead channel again with an empty mask (`DoubleCloseExample`).
* `callingPendingFunctors_` has no initializer and is never cleared. Wakeups are
  safe for tasks that the loop's own thread queues before `loop()` if and only if
  the flag happens to start out true (`SafeBeforeLoopIff`, which exhibits the lost
  wakeup); tasks queued later are always safe (`NoLostWakeup`).
* A connection never removes its channel from `channels_`. That a new channel is
  absent from the table holds over a run if and only if no channel is created at the
  address and fd of a dead one still listed (`NewIsAbsentIff`, `AddressReused`); the
  rest of the agreement holds regardless (`RegistrationAgreement`).
* `retriveAsString` copies before it checks the length: its result is what it
  dropped if and only if the length fits (`RetrieveAsString`, `RetrieveTooMuch`).
* A `shutdown` from another thread changes the state at once and queues the rest. The
  queued part is harmless if and only if no FIN has gone out meanwhile and, should
  the connection have closed, no byte was left behind (`QueuedShutdownIff`;
  `SecondFinExample` sends two FINs).
* A `sendInLoop` that another thread queued puts its bytes into the stream if and only
  if no shutdown has been announced meanwhile and the socket does not refuse
  (`QueuedSendRecordedIff`; `LostSendExample` loses a message). It disturbs nothing that
  came before if and only if a shutdown has been announced, the connection is still
  connected, or the socket refuses (`QueuedSendKeepsIff`; `SendAfterCloseExample`
  writes after the close). Both at once is `QueuedSendIff`.
* `connectDestroyed` ends a connection that is still up if and only if no shutdown has
  been asked for on it; one that is shutting down, or has sent its FIN, stays registered
  (`DestroyClosesIff`, `DestroyExample`). In a server it only ever runs on closed
  connections (`DestroyedIsNoOp`).
* The comment over the error callback says that it is made on errors; the code
  makes it on every dispatch, and so does the model (`Epoll.Dispatch`).

## Model

| member | source | states |
|---|---|---|
| Buffers.MemoryBound | include/Buffer.hh:124-141 | over any run of append, retrieve and readFd the array never exceeds max(8 + initial size, 2 * largest readable count + 7) |
| Buffers.MemoryBoundIsTight | include/Buffer.hh:126-128 | that bound is reached for every peak from 2 upwards |
| Buffers.AppendKeepsBound | include/Buffer.hh:93-98 | a resizing append keeps the bound because the dead prefix is shorter than what is appended |
| Buffers.RunKeepsBound | include/Buffer.hh:44-98 | the bound is kept along every run from any state within it |
| Buffers.Layout.Retrieve | include/Buffer.hh:44-53 | drops min(len, readable) bytes and keeps 8 <= reader <= writer <= size; asking for more than is readable also gives back all room behind the prefix |
| Buffers.Layout.MakeSpace | include/Buffer.hh:124-141 | after growing or compacting there is room for len bytes and as many bytes are readable as before |
| Buffers.Layout.EnsureWritable | include/Buffer.hh:80-87 | room for len bytes, readable count unchanged, size never shrinks |
| Buffers.Layout.Append | include/Buffer.hh:93-98 | readable count grows by exactly len and the indices stay in order |
| Buffers.Layout.Offered | src/Buffer.cc:11-25 | readFd always offers at least 65536 bytes, so a read of zero bytes means end of stream; the extra array is offered only to a buffer with less room |
| Buffers.Layout.ReadFd | src/Buffer.cc:7-40 | for any n the readable count grows by exactly n, spilled or not |
| Buffers.Buffer.constructor | include/Buffer.hh:15-19 | an empty queue behind an 8-byte prefix |
| Buffers.Buffer.RetrieveAll | include/Buffer.hh:55-59 | empties the queue |
| Buffers.Buffer.Retrieve | include/Buffer.hh:44-53 | drops exactly the first min(len, readable) bytes of the queue |
| Buffers.Buffer.RetrieveAsString | include/Buffer.hh:70-78 | returns len bytes that start with what is dropped, and are it if and only if len fits |
| Buffers.Buffer.RetrieveAllAsString | include/Buffer.hh:62-65 | returns the whole queue and empties it |
| Buffers.RetrieveTooMuch | include/Buffer.hh:70-78 | one byte asked of an empty buffer comes back although nothing is dropped |
| Buffers.Buffer.MakeSpace | include/Buffer.hh:124-141 | both branches keep the readable bytes; the in-place forward copy only happens past a dead prefix |
| Buffers.Buffer.EnsureWritableBytes | include/Buffer.hh:80-87 | makes room without changing the queue |
| Buffers.Buffer.Append | include/Buffer.hh:93-98 | adds exactly the given bytes at the tail of the queue |
| Buffers.Buffer.Readv | src/Buffer.cc:10-26 | the scatter read: writable tail first, the rest into the extra array |
| Buffers.Buffer.ReadFd | src/Buffer.cc:7-40 | a successful scatter read is one append of exactly the bytes read; a failed one changes nothing |
| Buffers.Buffer.WriteFd | src/Buffer.cc:41-53 | hands the kernel a prefix of the queue and leaves the queue alone |
| Epoll.RegistrationAgreement | src/EpollPoller.cc:90-147 | over every sequence of creations, mask changes, removals and closings, fds and addresses reused, every epoll_ctl call is legal, kAdded means in the kernel under the channel's mask and nothing else is, and what is not kNew is in the table |
| Epoll.SetEventsAgrees | include/Channel.hh:45-49 | a mask change keeps the agreement, its kernel call succeeds, and no other channel changes |
| Epoll.RegisteredAfterSetEvents | src/EpollPoller.cc:94-116 | after a mask change the fd is in the kernel if and only if the mask is non-empty or the channel was not added before |
| Epoll.RemoveAgrees | src/EpollPoller.cc:118-128 | removal keeps the agreement and its kernel call succeeds |
| Epoll.CloseAgrees | src/Socket.cc:11-14 | closing the fd of a dead channel keeps the agreement of the live ones |
| Epoll.SharedFdIsRefused | src/EpollPoller.cc:130-147 | on a shared fd the second registration is refused exactly when the first channel is added |
| Epoll.CtlLegalIff | src/EpollPoller.cc:130-147 | which kernel calls succeed, and what each leaves registered |
| Epoll.DispatchSelects | src/Channel.cc:60-83 | a dispatch makes exactly the callbacks that the reported events call for |
| Epoll.DispatchOrder | src/Channel.cc:60-83 | each once, close before read before write before error |
| Epoll.NewIsAbsentIff | src/EpollPoller.cc:94-103 | new channels stay out of the table over a run if and only if none is created where a dead one is still listed |
| Epoll.StepKeepsAbsentIff | src/EpollPoller.cc:118-128 | the same for each single operation |
| Epoll.AddressReused | src/TcpConnection.cc:216-224 | a run after which a new channel is found in the table |
| Epoll.Channel.constructor | src/Channel.cc:10-12 | a new channel is unregistered with an empty mask |
| Epoll.Channel.EnableReading | include/Channel.hh:45 | sets the plain and priority data bits and no other, through a legal kernel call, other channels untouched |
| Epoll.Channel.DisableReading | include/Channel.hh:46 | clears those two bits likewise |
| Epoll.Channel.EnableWriting | include/Channel.hh:47 | sets the write bit likewise |
| Epoll.Channel.DisableWriting | include/Channel.hh:48 | clears the write bit likewise |
| Epoll.Channel.DisableAll | include/Channel.hh:49 | clears the mask likewise, which deregisters an added channel |
| Epoll.Channel.Remove | src/Channel.cc:35-38 | leaves the channel new and the views in agreement |
| Epoll.Channel.HandleEvent | src/Channel.cc:39-83 | nothing if the tied owner is gone; otherwise close, read, write, error callbacks in that order |
| Epoll.EpollPoller.UpdateChannel | src/EpollPoller.cc:90-117 | the object takes the step of the value model, including the kernel call's outcome, and the channel records it |
| Epoll.EpollPoller.RemoveChannel | src/EpollPoller.cc:118-128 | the object takes the step of the value model |
| Epoll.EpollPoller.FillActiveChannels | src/EpollPoller.cc:35-45 | lists the reported channels in order with their reported events |
| Epoll.EpollPoller.Poll | src/EpollPoller.cc:56-89 | every channel handed out is live, added and reported within its mask; the event list doubles exactly when full |
| Epoll.EpollPoller.HasChannel | src/Poller.cc:13-18 | true of every channel that is not new, and of no other unless a dead channel's entry names it |
| Connections.HandleEventStages | src/Channel.cc:60-83 | a dispatch is close, then read, then write, each on what the one before left |
| ConnectionProperties.SendIsAtomic | src/TcpConnection.cc:128-193 | a send is dropped whole on EPIPE or ECONNRESET and otherwise appended whole to the stream |
| ConnectionProperties.FaultDropsAll | src/TcpConnection.cc:156-167 | after such an error nothing else has changed |
| ConnectionProperties.SendMask | src/TcpConnection.cc:172-192 | a send keeps write interest on exactly while bytes are pending |
| ConnectionProperties.SendNotices | src/TcpConnection.cc:147-179 | which notice a send queues, exactly, and with what count |
| ConnectionProperties.SendKeeps | src/TcpConnection.cc:194-208 | send keeps the connection invariant and every history |
| ConnectionProperties.ShutdownKeeps | src/TcpConnection.cc:225-241 | shutdown keeps the invariant and leaves kConnected |
| ConnectionProperties.WriteDrains | src/TcpConnection.cc:67-91 | a successful handleWrite strictly shrinks the pending bytes; at zero it drops write interest and releases a deferred FIN |
| ConnectionProperties.WriteKeeps | src/TcpConnection.cc:67-101 | handleWrite keeps the invariant for any result |
| ConnectionProperties.ReadKeeps | src/TcpConnection.cc:44-66 | handleRead keeps the invariant whatever the message callback does |
| ConnectionProperties.CloseKeeps | src/TcpConnection.cc:103-112 | handleClose makes the down and removal callbacks once and deregisters |
| ConnectionProperties.EstablishKeeps | src/TcpConnection.cc:209-215 | connectEstablished opens the connection before anything else can happen to it |
| ConnectionProperties.DestroyKeeps | src/TcpConnection.cc:216-224 | connectDestroyed keeps the invariant in every phase |
| ConnectionProperties.DestroyAfterCloseIsNoOp | src/TcpConnection.cc:216-224 | connectDestroyed after a close changes nothing |
| ConnectionProperties.EventKeeps | src/Channel.cc:60-83 | a dispatch keeps the invariant and ends open or closed with one removal request |
| ConnectionProperties.DispatchKeepsInvIff | src/Channel.cc:64-74 | a dispatch keeps the invariant if and only if hang-up, no plain data, priority data and an answered read do not meet |
| ConnectionProperties.DoubleCloseExample | src/Channel.cc:64-74 | an established connection that one dispatch closes twice and registers again |
| ConnectionProperties.PhaseMeansOrder | src/TcpConnection.cc:209-224 | an orderly history is up, messages, down once, at most one removal request |
| ConnectionProperties.RunKeeps | src/TcpConnection.cc:44-241 | the invariant in every state of every run, and histories only grow |
| ConnectionProperties.OutboundStream | src/TcpConnection.cc:67-193 | bytes on the wire followed by pending bytes are the concatenation of the accepted sends |
| ConnectionProperties.GracefulClose | src/TcpConnection.cc:225-241 | one FIN at most, only with every accepted byte on the wire, and nothing written after it |
| ConnectionProperties.WriteInterest | src/TcpConnection.cc:79-193 | while open, write interest is on exactly when bytes are pending; otherwise the channel is deregistered |
| ConnectionProperties.CallbackOrder | src/TcpConnection.cc:44-112 | messages lie strictly between up and down, and down comes at most once |
| ConnectionProperties.CompletesBounded | src/TcpConnection.cc:80-84 | write-completes plus one for pending bytes never exceed the accepted sends |
| ConnectionProperties.DrainsExactly | src/TcpConnection.cc:67-91 | write events drain exactly as many bytes as there is room for, and release the FIN if and only if that is all of them |
| OperationProperties.IdleSend | src/TcpConnection.cc:141-168 | with nothing pending, what the socket has room for is on the wire and the rest pending; the send is dropped, whole, if and only if the answer is EPIPE or ECONNRESET |
| OperationProperties.PendingSend | src/TcpConnection.cc:172-192 | with bytes pending the socket is not asked and the data goes behind them |
| OperationProperties.SendIsAnswered | src/TcpConnection.cc:194-208 | a send on an established connection joins the stream whole or is refused by the socket; it is never ignored |
| OperationProperties.SendFrame | src/TcpConnection.cc:128-193 | what a send leaves alone, and the mask it leaves bit by bit |
| OperationProperties.ShutdownMeans | src/TcpConnection.cc:225-241 | FIN at once with nothing pending, deferred otherwise, nothing on any further call; all else unchanged |
| OperationProperties.RetrieveMeans | include/Buffer.hh:44-53 | takes the oldest bytes, as many as are asked for and there; all else unchanged |
| OperationProperties.WriteDoesIff | src/TcpConnection.cc:67-101 | a write event does something if and only if bytes are pending and the socket takes at least one |
| OperationProperties.WriteMeans | src/TcpConnection.cc:73-89 | which bytes go out, and that the last one drops write interest and lets a waiting FIN follow |
| OperationProperties.CloseMeans | src/TcpConnection.cc:103-112 | closing sends, drops and accepts nothing, whatever its callback tries |
| OperationProperties.ReadMeans | src/TcpConnection.cc:44-66 | a failed read changes nothing, an empty one closes, any other reaches the user behind what was unread |
| OperationProperties.EstablishMeans | src/TcpConnection.cc:209-215 | one update of the mask, to plain and priority data, then the up callback |
| OperationProperties.DestroyClosesIff | src/TcpConnection.cc:216-224 | connectDestroyed ends an open connection if and only if no shutdown was asked for |
| OperationProperties.DestroyExample | src/TcpConnection.cc:216-224 | a connection that has sent its FIN stays registered |
| OperationProperties.AlwaysReading | src/TcpConnection.cc:213 | over every run an open connection waits for plain and priority data |
| OperationProperties.DataIsDelivered | src/TcpConnection.cc:44-55 | data for an open connection can always be reported, and is then told to the user and kept for it |
| OperationProperties.HangupCloses | src/Channel.cc:64-67 | a hang-up can always be reported, and closes |
| OperationProperties.RoomIsUsed | src/Channel.cc:77-79 | room in the socket is reported whenever bytes are pending, and used |
| Ideals.RunMatches | src/TcpConnection.cc:44-241 | after every run every field of the connection is what the ideal machine makes of the run's steps |
| Ideals.StepMatches | src/TcpConnection.cc:44-241 | each step of the connection is that step of the machine |
| RequestProperties.AcceptedAreHonoured | src/TcpConnection.cc:128-208 | over every run the accepted sends are those made on the established connection that the socket did not refuse, each once, in order |
| RequestProperties.InboundStream | src/TcpConnection.cc:44-55 | over every run what the user has retrieved and what is unread are the bytes read, in order |
| RequestProperties.StaysConnected | src/TcpConnection.cc:67-112 | an established connection stays so until its user asks for a shutdown or it closes |
| RequestProperties.NoVainUpdates | include/Channel.hh:45-49 | over every run each update of a connection's channel changes its mask |
| RequestProperties.FinIff | src/TcpConnection.cc:225-241 | the FIN has gone out if and only if a shutdown was asked for and nothing is pending |
| NoticeProperties.WriteNotices | src/TcpConnection.cc:77-84 | handleWrite queues a write-complete exactly when it writes the last pending byte |
| NoticeProperties.RunIsTrace | src/TcpConnection.cc:44-241 | the list of all connections that a run passes through, inside its callbacks too, goes one operation at a time from its first state to its last, the invariant holding at each |
| NoticeProperties.TraceNotifies | src/TcpConnection.cc:145-187 | at each point of it at most one notice is queued, and one that is true there |
| NoticeProperties.EveryNoticeWasTrue | src/TcpConnection.cc:77-187 | every write-complete of every run was queued with all accepted bytes on the wire, every high-water notice with the exact pending count, just across the mark |
| NoticeProperties.HighWaterAlternates | src/TcpConnection.cc:175-179 | between two high-water notices of a run the pending count was below the mark |
| CrossThreadProperties.SharedStepKeeps | src/TcpConnection.cc:225-241 | the invariant that allows for a shutdown announced by another thread is kept by every step of the loop |
| CrossThreadProperties.QueuedShutdownIff | src/TcpConnection.cc:229-240 | a queued shutdown ends where the loop's own operations could if and only if no FIN has gone out and a closed connection left no byte behind |
| CrossThreadProperties.DrainThenFunctor | src/TcpConnection.cc:85-88 | whenever a write event drains the output between the announcement and the functor there are two FINs |
| CrossThreadProperties.SecondFinExample | src/TcpConnection.cc:85-88 | a drain between the announcement and the functor makes two FINs |
| CrossThreadProperties.QueuedSendRecordedIff | src/TcpConnection.cc:134-167 | the bytes of a queued send enter the stream if and only if no shutdown was announced and the socket does not refuse; after an announcement they vanish |
| CrossThreadProperties.QueuedSendKeepsIff | src/TcpConnection.cc:202-206 | a queued send disturbs nothing before it if and only if shutdown was announced, the connection is connected, or the socket refuses |
| CrossThreadProperties.QueuedSendIff | src/TcpConnection.cc:194-208 | a queued send does what a send on the loop does if and only if it finds the connection connected and the socket not refusing |
| CrossThreadProperties.LostSendExample | src/TcpConnection.cc:134-138 | send then shutdown from another thread: the message is lost |
| CrossThreadProperties.SendAfterCloseExample | src/TcpConnection.cc:141-144 | a send queued before a close writes after it |
| EchoProperties.OnMessageEffect | example/testserver.cc:42-47 | the message callback is: take everything, send it, shut down |
| EchoProperties.EchoEndToEnd | example/testserver.cc:42-47 | a peer is sent a prefix of its first message, and the FIN goes out exactly when all of it has (or it was refused) |
| TcpConnections.TcpConnection.constructor | src/TcpConnection.cc:19-37 | a new object is the new connection of the value model |
| TcpConnections.TcpConnection.WriteDirectly | src/TcpConnection.cc:141-168 | the direct write: count, fault and write-complete as the value model says |
| TcpConnections.TcpConnection.BufferRest | src/TcpConnection.cc:172-192 | appends the rest, with the high-water check before and write interest after |
| TcpConnections.TcpConnection.SendInLoop | src/TcpConnection.cc:128-193 | the object does what the value model's sendInLoop does |
| TcpConnections.TcpConnection.Send | src/TcpConnection.cc:194-208 | likewise for send on the loop thread |
| TcpConnections.TcpConnection.Shutdown | src/TcpConnection.cc:225-232 | likewise for shutdown on the loop thread |
| TcpConnections.TcpConnection.ShutdownInLoop | src/TcpConnection.cc:234-241 | likewise for shutdownInLoop |
| TcpConnections.TcpConnection.HandleRead | src/TcpConnection.cc:44-66 | likewise for handleRead over the scatter read |
| TcpConnections.TcpConnection.HandleWrite | src/TcpConnection.cc:67-101 | likewise for handleWrite |
| TcpConnections.TcpConnection.HandleClose | src/TcpConnection.cc:103-112 | likewise for handleClose |
| TcpConnections.TcpConnection.HandleEvent | src/Channel.cc:39-83 | a whole dispatch of the channel does what the value model's dispatch does, for any number of bytes that the input buffer then offers |
| TcpConnections.TcpConnection.ConnectEstablished | src/TcpConnection.cc:209-215 | likewise for connectEstablished, which leaves the channel tied; no other method ties or unties it |
| TcpConnections.TcpConnection.ConnectDestroyed | src/TcpConnection.cc:216-224 | likewise for connectDestroyed |
| TcpConnections.EchoServer.OnMessage | example/testserver.cc:42-47 | the callback on the object is the three operations of the value model |
| EventLoops.NoLostWakeup | src/EventLoop.cc:61-146 | whenever the loop is about to poll with tasks pending, the eventfd is readable or a producer is about to write it |
| EventLoops.SafeBeforeLoopIff | src/EventLoop.cc:125-135 | for tasks its own thread queues before loop(), that holds if and only if the uninitialized flag is true |
| EventLoops.ExactlyOnceFifo | src/EventLoop.cc:125-170 | executed tasks, rest of the batch and pending tasks are the log of appends in lock order |
| EventLoops.StepRefinesQueue | src/EventLoop.cc:125-170 | seen from outside the loop is one queue: append at the tail, run at the head |
| EventLoops.BatchIsFixed | src/EventLoop.cc:147-170 | until the next swap only tasks queued before this one run, so every batch ends |
| EventLoops.WakeupReadSucceeds | src/EventLoop.cc:136-146 | the wakeup handler always finds the eventfd readable and leaves it drained |
| EventLoops.CounterCounts | src/EventLoop.cc:95-103 | the eventfd counts the wakeups since its handler last ran |
| EventLoops.CatchesUp | src/EventLoop.cc:61-81 | with no producer mid-wakeup the loop runs everything queued without ever waiting for the poll timeout |
| EventLoops.StepKeepsWake | src/EventLoop.cc:95-146 | each step keeps the wakeup invariant unless the loop's thread queues too early |
| EventLoops.ReachesIsRun | src/EventLoop.cc:56-84 | every state of the loop object is the end of a run of the protocol |
| EventLoops.EventLoop.constructor | src/EventLoop.cc:28-48 | starts the protocol, with the flag as it happens to be |
| EventLoops.EventLoop.Wakeup | src/EventLoop.cc:95-103 | raises the eventfd counter unless it is at its maximum |
| EventLoops.EventLoop.QueueInLoop | src/EventLoop.cc:125-135 | is the append step followed by the wakeup step, with a wakeup exactly under the source's condition |
| EventLoops.EventLoop.RunInLoop | src/EventLoop.cc:104-121 | runs at once on the loop's own thread, queues and wakes from any other |
| EventLoops.EventLoop.HandleRead | src/EventLoop.cc:136-146 | drains the eventfd |
| EventLoops.EventLoop.DoPendingFunctors | src/EventLoop.cc:147-170 | runs exactly the functors queued before the swap, in order; what is queued later, by them or by other threads, stays pending with the eventfd readable |
| EventLoops.EventLoop.LoopOnce | src/EventLoop.cc:61-81 | one turn, other threads queueing at any point of it, runs everything queued before its swap, in order; the rest is pending with the eventfd readable |
| ThreadPools.RoundRobin | src/EventLoopThreadPool.cc:31-44 | the k-th pick is loop k mod n, and after k picks each loop has had k / n or one more |
| ThreadPools.Fair | src/EventLoopThreadPool.cc:31-44 | no loop is ever more than one pick ahead of another |
| ThreadPools.EventLoopThreadPool.Start | src/EventLoopThreadPool.cc:13-23 | creates the given number of loops in order |
| ThreadPools.EventLoopThreadPool.GetNextLoop | src/EventLoopThreadPool.cc:31-44 | the base loop if there are no others, else the loop whose turn it is; next_ stays in range |
| ConnectionNames.DecimalReadsBack | src/TcpServer.cc:49-52 | the rendering of an id reads back as the id, in digits without a leading zero |
| ConnectionNames.DecimalInjective | src/TcpServer.cc:49-52 | different ids have different decimal renderings |
| ConnectionNames.NameIsWhole | src/TcpServer.cc:49-52 | a name is the server's, a dash, the address, a sharp and the id, which can be read back from it; the 64-character buffer never truncates |
| ConnectionNames.NamesDistinct | src/TcpServer.cc:49-52 | different int ids have different connection names |
| ServerProperties.NeverDangling | src/TcpServer.cc:46-109 | over every interleaving no dispatch and no functor reaches a freed connection |
| ServerProperties.RegisteredIsReferenced | src/TcpServer.cc:68-108 | a connection whose channel is in an epoll set is in the map under its own name |
| ServerProperties.FunctorsAreDueOnce | src/TcpServer.cc:76-107 | each functor waits in exactly one queue exactly once, and only in the phase it is meant for |
| ServerProperties.DestroyedIsNoOp | src/TcpServer.cc:107 | connectDestroyed changes nothing when the I/O loop runs it |
| ServerProperties.MapCounts | src/TcpServer.cc:68-105 | insertion never overwrites, every removal run finds its entry, and the map size is the acceptances minus the removals of the run |
| ServerProperties.StepCounts | src/TcpServer.cc:97-108 | each removal, queued or at once, finds its entry and erases one |
| ServerProperties.LoopsAreRoundRobin | src/TcpServer.cc:48-67 | the k-th connection lives on loop k mod n |
| ServerProperties.QuietMeansSettled | src/TcpServer.cc:97-108 | when the queues are empty the map is exactly the open connections and every other one may be freed |
| ServerProperties.EveryConnection | src/TcpServer.cc:46-109 | stream, half-close, write interest and callback order hold of each connection under every interleaving |
| ServerProperties.ServerStepKeeps | src/TcpServer.cc:46-109 | every step any loop may take is safe and keeps the server invariant |
| ServerProperties.DispatchKeeps | src/TcpConnection.cc:103-112 | a dispatch, closing or not, keeps the server invariant |
| ServerProperties.RunRemove | src/TcpServer.cc:102-108 | erasing finds the connection's own entry, takes out that one alone, and queues the destruction last on the connection's loop |
| ServerProperties.FreedIsUnlisted | src/TcpServer.cc:102-108 | a connection without references is closed, deregistered and out of the map |
| ServerConnectionProperties.EachConnectionRuns | src/TcpServer.cc:46-109 | what any interleaving does to one connection is, step by step, a run of the connection state machine |
| ServerConnectionProperties.EachConnectionIsIdeal | src/TcpServer.cc:46-109 | so every connection of the server is, field by field, what the ideal machine makes of its steps |
| ServerQueueProperties.FunctorsInOrder | src/TcpServer.cc:76-107 | on every loop the functors run, then those waiting, are those queued, in that order |
| ServerQueueProperties.ReportsAreDispatched | src/EventLoop.cc:61-81 | on every loop the channels dispatched, then those still to be, are those reported by poll, in that order |
| ServerConnectionProperties.EchoServerEndToEnd | example/testserver.cc:42-47 | over every interleaving each peer is sent a prefix of its first message, and the FIN exactly when all of it has gone (or was refused) |
| ServerQueueProperties.ReportReaches | src/EpollPoller.cc:35-45 | epoll may report any registered connection of an idle loop with any events inside its mask, and the connection then handles them |
| ServerProgress.OwnStepDescends | src/TcpServer.cc:97-109 | every dispatch and every functor leaves less work, whatever its callbacks do |
| ServerProgress.OwnStepsAreFew | src/TcpServer.cc:97-109 | however the loops take turns, their own steps are bounded by the work at hand |
| ServerProgress.ServerSettles | src/TcpServer.cc:97-109 | within that bound the server becomes quiet, and where no own step is left the map is the open connections and the others may be freed |
| KernelProperties.EventGrows | src/Channel.cc:60-83 | a whole dispatch changes the channel by the updates it records and nothing else |
| KernelProperties.StepRunsPoller | src/TcpServer.cc:46-109 | the poller operations that a step makes run from where the poller stood, every kernel call succeeding, to where the loop's channels then stand |
| KernelProperties.KernelMatchesServer | src/EpollPoller.cc:90-147 | at every moment of every interleaving the operations made so far on a loop have made legal kernel calls only and left exactly its registered connections in the interest list, under their masks |
| KernelProperties.WatchedIsReferenced | src/TcpServer.cc:68-108 | whatever a loop's epoll instance watches is in the connection map under its own name |
| TcpServers.TcpServer.Start | src/TcpServer.cc:86-95 | only the first call starts the pool |
| TcpServers.TcpServer.NewConnection | src/TcpServer.cc:46-77 | the object takes the step of the transition system |
| TcpServers.TcpServer.RemoveConnection | src/TcpServer.cc:97-100 | likewise, at once on the base loop and queued from any other |
| TcpServers.TcpServer.RemoveConnectionInLoop | src/TcpServer.cc:102-109 | likewise |

## Left out

- Cross-thread `send` and `shutdown`: the raw pointers that the queued functors bind, and a state change between the check of the state and its assignment on the caller's thread; CrossThread.dfy takes the two as one step.
- ServerProperties.NeverDangling: covers the server while it lives; the destructors of TcpServer, EventLoop and Acceptor, and quitting with tasks pending, are not modelled.
- ServerProperties.EveryConnection: assumes of each dispatch the condition of `DispatchKeepsInvIff`, and that at most 2^31 - 2 connections are accepted, after which `nextConnId_` would overflow.
- EventLoops.EventLoop.LoopOnce: takes each other thread's append and its wakeup together; that the loop may step between the two is in the protocol (`NoLostWakeup`), not in the method.
- TcpServers.TcpServer.NewConnection: holds connections as values of the state machine, not as TcpConnection objects, so aliasing between server and connection objects is not captured; the two are tied by the snapshots of class TcpConnection.
- The order of queued notices among other functors, and their delivery to the user; the connection records which notices it queued, in order, and with what count.
- References that user code keeps to a connection: they can only delay freeing it.
- `shared_ptr`, `weak_ptr` and `std::function`: a reference is an entry in the map or in a queue.
- Overflow of `size_t` and failure to allocate in the buffer.
- The accepting socket, addresses, thread start-up and thread ids, logging and timestamps.
