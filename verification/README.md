# Siren's reactor, modelled and proved

Siren is a C++ reactor library: one event loop per thread, an epoll poller, timers on a
timerfd, and TCP servers, clients and connections built on them. This project models the
stateful core of the library in Dafny and proves what its users rely on, over every run.

Each part has the same shape. A state and a step function, written branch by branch from the
source, describe what one handler, one functor or one call by another thread does; what the
kernel answers (bytes written, errno, flags reported, the clock) is a parameter of the step, so
a theorem over all runs is a theorem over all kernels and schedules. Beside it stands a class
with the source's fields and methods; each method is proved to take the state where the step
function says. The theorems are about runs of the step function.

The files named Outcomes, and `ConnectionMoves.dfy`, say what every step and every run comes to in
terms of the events alone: which bytes, functors, handlers, callbacks, timers and sockets, in which
order. They use none of the step functions' parts and none of the histories a state keeps of itself.

The loop's rounds are part of each state: a loop polls, handles what was reported, then runs its
whole queue as it stood, and polls again. A connection, a connector and a server are followed
through these rounds, so what may come between two functors, and what must, is what the loop does.

| files | part |
|---|---|
| `Buffer.dfy` | the two-index growing byte buffer |
| `Poller.dfy` | channels, the epoll poller, the kernel's interest set |
| `ConnectionSpec.dfy`, `ConnectionProofs.dfy`, `ConnectionTheorems.dfy`, `ConnectionOutcomes.dfy`, `ConnectionMoves.dfy`, `ConnectionShutdown.dfy`, `ConnectionAborts.dfy`, `TcpConnection.dfy` | one TCP connection |
| `EventLoop.dfy` | the functor queue and the wakeup protocol |
| `TimerSpec.dfy`, `TimerProofs.dfy`, `TimerOutcomes.dfy`, `TimerQueue.dfy` | the timer queue and its alarm |
| `ConnectorSpec.dfy`, `ConnectorProofs.dfy`, `ConnectorTheorems.dfy`, `ConnectorOutcomes.dfy`, `Connector.dfy` | the connector with the client that owns it |
| `ServerSpec.dfy`, `ServerProofs.dfy`, `ServerTheorems.dfy`, `ServerOutcomes.dfy`, `TcpServer.dfy` | the server, its connections and their loops |
| `LoopPool.dfy` | which loop serves the next connection |

`dafny verify dfyconfig.toml` checks everything.

## Where the code does less than it means to

Each of these is a lemma with the exact condition, or a concrete run that shows it.

- `shutdown()` can lose messages already accepted from other threads. Called in the loop's own
  thread with nothing buffered, it can if and only if one waits (`LocalShutdownLosesIff`). With bytes
  buffered, or called from another thread (`RemoteShutdownLosesIff`), it can if and only if the
  buffered bytes may be written out before a waiting message's functor runs: one waits beyond the
  batch being run, and bytes are buffered or a send is left in the batch; or one waits behind a backlog
  at the poll; or one waits while events are handled and the connection's own writability is still to
  be handled. Messages that all go in one batch are not lost.
- `disableAll()` on a channel already out of the interest set puts it back with an empty mask
  (`DisableAllTwiceRegisters`), so a connection closed while its reading is stopped and it has
  nothing to write can be closed a second time, which trips an assertion: exactly when nothing ahead
  in its loop's queue takes the channel out again before the next poll (`CloseExposesIff`,
  `StopReadExposes`). Starting to read on a connection that is not up, or stopping where that
  registers the channel, leaves it watched in the same way, with the same remedy (`WatchedIsDoomed`).
  An event with hang-up, no ordinary data, and urgent data closes twice if the read then finds the end
  of the stream (`DeliverAbortsIff`). These are all: `CalmIff` says that nothing else can fail an
  assertion of a connection, and that each of them can. On a server's base loop the end of a
  connection closed by a handler is queued in the same round and comes in time (`OrdinaryIff`).
- `connectDestroyed`, as the server's destructor runs it, fails on a connection that is not connected
  and still asks for events, as a closing one does, or is unknown to the poller (`DestroyAbortsIff`).
- A forced close of a connected connection with nothing to drain leaves it closing without a
  half-close to come (`StepPromised`).
- A timer whose expiration another timer already has is silently refused (`NewTimerRefusedIff`),
  and a repeating timer is lost when it is put back onto an expiration in use
  (`RepeaterRefusedIff`, `TwinsCollide`).
- The alarm's wait is cut to whole microseconds, so it may ring up to a microsecond early, find
  nothing due, and be set again (`DueWindow`, `EmptyBatchIsEarly`).
- Functors queued from the loop's own thread before `loop()` are not announced: the loop goes to sleep
  on them, until another event or the poll's ten-second limit, exactly when no other thread has pushed
  too (`EarlyQueueIff`).
- A `stop()` that falls between `removeConnection`'s check and the `restart()` it leads to is not
  obeyed, exactly then (`StopIsFinalIff`), and exactly then can end in `connecting()` finding the old
  channel (`OvertakenStopAbortsIff`, `RestartIsReached`). A `disconnect()` in the same gap does not keep
  the connection from being restarted, and exactly there (`DisconnectIsHeeded`). A retry timer that
  fires in the very round that set it finds the old channel too, exactly when a new attempt is then
  made (`EarlyTimerAbortsIff`).
- After an errno of the third group in `connect()` the connector never tries again, although it is
  neither stopped nor told to give up (`FatalIsFinal`).
- `makeSpace` called directly can trip its own assertion (`MakeSpaceCanAbort`), though never through
  `ensureWritableBytes`.

## Model

| member | source | states |
|---|---|---|
| Buffers.RunRefinesQueue | include/siren/net/Buffer.h:53-123 | whatever sequence of appends, prepends, retrieves and scatter reads is applied, through both branches of makeSpace, the readable window is what a plain byte string would hold |
| Buffers.ApplyRefinesQueue | include/siren/net/Buffer.h:53-101 | one operation on the two-index layout is the same operation on a byte string |
| Buffers.AbortsIffAskedTooMuch | include/siren/net/Buffer.h:72-123 | any run fails an assertion if and only if its caller asks for more bytes than the window holds or more room in front than is free; makeSpace's own assertion is never the one |
| Buffers.AbortsIffOverRetrieves | include/siren/net/Buffer.h:72-123 | without prepends that can be told from the byte string alone, and the eight reserved bytes stay free |
| Buffers.EnsureWritableNeverAborts | include/siren/net/Buffer.h:103-123 | ensureWritableBytes reaches makeSpace only where its assertion holds, and delivers the room with the same contents |
| Buffers.MakeSpaceCanAbort | include/siren/net/Buffer.h:103-116 | called directly on a fresh buffer makeSpace trips its assertion |
| Buffers.StepGrowth | include/siren/net/Buffer.h:103-123 | growth leaves at most readable + 2 * len + 7 bytes, and happens only when compacting cannot do |
| Buffers.MemoryBound | include/siren/net/Buffer.h:86-123 | over a run with backlog at most m and chunks at most l the vector stays within the larger of its first size and m + 2l + 7 |
| Buffers.FreshMemoryBound | include/siren/net/Buffer.h:27-34 | the same bound from construction |
| Buffers.FreshSizes | include/siren/net/Buffer.h:22-34 | eight bytes reserved, room for 1024, and a read that may bring 64 KiB more |
| Buffers.Buffer.constructor | include/siren/net/Buffer.h:27-34 | an empty window behind eight reserved bytes |
| Buffers.Buffer.Swap | include/siren/net/Buffer.h:35-39 | the two buffers exchange their whole state |
| Buffers.Buffer.Retrieve | include/siren/net/Buffer.h:53-59 | drops a prefix, or everything when the length is not inside the window |
| Buffers.Buffer.RetrieveAll | include/siren/net/Buffer.h:63-66 | empties the window and moves it back behind the prefix |
| Buffers.Buffer.RetrieveAsString | include/siren/net/Buffer.h:72-77 | returns exactly the prefix it removes |
| Buffers.Buffer.MakeSpace | include/siren/net/Buffer.h:103-116 | compacts or grows the array in place with the readable bytes unchanged |
| Buffers.Buffer.EnsureWritableBytes | include/siren/net/Buffer.h:118-123 | leaves room for len bytes and the same readable bytes |
| Buffers.Buffer.Append | include/siren/net/Buffer.h:86-90 | the window gains exactly the bytes given at its end |
| Buffers.Buffer.Prepend | include/siren/net/Buffer.h:96-101 | the window gains exactly the bytes given at its front |
| Buffers.Buffer.ReadFd | src/net/Buffer.cpp:16-37 | appends exactly the bytes read however they split over the window and the 64 KiB overflow buffer; an error changes nothing |
| Pollers.RunAgrees | src/net/poller/EPollPoller.cpp:58-129 | after any sequence of operations on any channels the kernel watches exactly the Added ones, each with its own mask, and has refused nothing |
| Pollers.ApplyAgrees | src/net/poller/EPollPoller.cpp:58-103 | an operation trips an assertion exactly when a new channel's descriptor is taken, or a removed one still wants events or is unknown; otherwise agreement is kept |
| Pollers.UpdateAgrees | src/net/poller/EPollPoller.cpp:58-85 | updateChannel brings the kernel back in step with a mask that ran ahead of it |
| Pollers.MaskUpdateAgrees | src/net/Channel.cpp:73-96 | changing a mask and updating keeps agreement |
| Pollers.UpdateSetsNextIndex | src/net/poller/EPollPoller.cpp:58-85 | the three-valued index after an update depends only on the index before and on whether anything is wanted |
| Pollers.RemoveAgrees | src/net/poller/EPollPoller.cpp:87-103 | removal forgets the channel, and aborts if and only if it still wants events or was never known |
| Pollers.OneChannelPerDescriptor | src/net/poller/EPollPoller.cpp:66-69 | of channels sharing a descriptor at most one is known to the poller |
| Pollers.EnableAdds | src/net/Channel.cpp:73-96 | enabling adds its flags to the mask and disabling takes them away; an Added channel is then watched for exactly that |
| Pollers.ApplyMasks | src/net/Channel.cpp:73-96 | an operation changes the mask of its own channel as asked and leaves every other channel alone |
| Pollers.RunMasks | src/net/poller/EPollPoller.cpp:58-129 | after any sequence of operations each channel's mask, and what the kernel watches it for, is the fold of its own enables and disables |
| Pollers.WatchedIsAlive | src/net/poller/EPollPoller.cpp:105-113 | what the kernel reports for a descriptor is a live registered channel of that descriptor |
| Pollers.DisableAllTwiceRegisters | src/net/poller/EPollPoller.cpp:62-84 | disabling everything on a channel out of the interest set puts it back in |
| Pollers.Channel.EnableReading | src/net/Channel.cpp:73-76 | In and Pri join the mask, and poller and kernel follow |
| Pollers.Channel.EnableWriting | src/net/Channel.cpp:83-86 | Out joins the mask, and poller and kernel follow |
| Pollers.Channel.DisableReading | src/net/Channel.cpp:73-96 | the mask loses the read events and poller and kernel follow |
| Pollers.Channel.DisableWriting | src/net/Channel.cpp:73-96 | the mask loses the write event and poller and kernel follow |
| Pollers.Channel.DisableAllEvents | src/net/Channel.cpp:73-96 | the mask is emptied and poller and kernel follow |
| Pollers.Channel.UpdateWith | src/net/Channel.cpp:132-135 | a mask change handed to the poller is the specified update, and keeps agreement |
| Pollers.Channel.RemoveSelf | src/net/Channel.cpp:162-165 | removal through the poller, its assertion among its preconditions |
| Pollers.EPollPoller.UpdateChannel | src/net/poller/EPollPoller.cpp:58-85 | the poller's own map, index and kernel calls amount to the specified update |
| Pollers.EPollPoller.RemoveChannel | src/net/poller/EPollPoller.cpp:87-103 | the poller's own map, index and kernel calls amount to the specified removal |
| Pollers.EPollPoller.EpollCtl | src/net/poller/EPollPoller.cpp:115-129 | one epoll_ctl call: refused on a descriptor present for ADD or absent for MOD and DEL |
| Pollers.EPollPoller.FillActiveChannels | src/net/poller/EPollPoller.cpp:105-113 | the active list is the reported descriptors' channels, in order, with their flags |
| ConnectionTheorems.StreamIntegrity | src/net/TcpConnection.cpp:171-270 | in every run from construction wire and output buffer together are the accepted messages in order; write interest is on exactly while bytes wait; a half-close of a live connection finds all of them on the wire |
| ConnectionOutcomes.SendSends | src/net/TcpConnection.cpp:80-84 | send() by a connected user in the loop's thread is recorded once, as kept unless nothing was buffered and the kernel said EPIPE or ECONNRESET; a kept message is owed whole, and reaches the wire as far as the kernel took it, with nothing buffered before |
| ConnectionOutcomes.QueuedSendSends | src/net/TcpConnection.cpp:218-263 | so is a message from another thread, when its functor runs, in any live state |
| ConnectionOutcomes.WriteDrains | src/net/TcpConnection.cpp:171-176 | a write of n bytes moves exactly the first n buffered to the wire and keeps the rest |
| ConnectionOutcomes.StepDelivers | src/net/TcpConnection.cpp:171-263 | every step of any kind: the bytes that reach the wire, those taken on, and the record made, from the event alone |
| ConnectionOutcomes.RunDelivers | src/net/TcpConnection.cpp:62-263 | over every run the wire grows by exactly what the kernel took, and with the output buffer by exactly the messages handed over and not refused, in order |
| ConnectionOutcomes.WireIsWhatWasSent | src/net/TcpConnection.cpp:62-263 | the same from construction |
| ConnectionOutcomes.ReadArrives | src/net/TcpConnection.cpp:157-163 | the bytes of a read reach the end of the input buffer and the message callback runs |
| ConnectionOutcomes.StepReceives | src/net/TcpConnection.cpp:157-169 | every step of any kind: the bytes that come in, and those the user is given, from the front |
| ConnectionOutcomes.RunReceives | src/net/TcpConnection.cpp:157-169 | over every run what the user was given, followed by the input buffer, is everything read from the socket, in order |
| ConnectionMoves.StepMoves | src/net/TcpConnection.cpp:96-206 | every step: when an assertion fails, which state follows, which functor leaves the queue and which join it, which handler is taken and which an event makes due |
| ConnectionMoves.InOrder | src/net/EventLoop.cpp:71-85 | over every run the functors run, then those queued, are those called for, each once and in order; and so are the handlers of the events reported |
| ConnectionMoves.RoundRunsAll | src/net/EventLoop.cpp:135-149 | a round runs the whole queue as it stood at the swap, and nothing queued since, before it can end |
| ConnectionMoves.StepFollows | src/net/Channel.cpp:73-165 | every step leaves the channel as the poller of Poller.dfy leaves it after the calls the source makes in that step, failed removals included |
| ConnectionMoves.RunFollows | src/net/poller/EPollPoller.cpp:58-103 | over every run with no failed assertion the poller, given those calls in order, ends where the connection says |
| ConnectionMoves.StepNotes | src/net/TcpConnection.cpp:136-263 | every step calls exactly these callbacks, in this order |
| ConnectionMoves.EstablishedReads | src/net/TcpConnection.cpp:136-144 | a connection just established is up, and watched for what is to be read |
| ConnectionMoves.ForceCloseEnds | src/net/TcpConnection.cpp:104-110 | in every run from forceClose() the connection is closed or its functor still waits |
| ConnectionMoves.ForcedCloses | src/net/TcpConnection.cpp:272-278 | that functor leaves the connection closed |
| ConnectionProofs.RunInv | src/net/TcpConnection.cpp:62-309 | the connection's invariant holds after every legal run |
| ConnectionProofs.RunWhole | src/net/EventLoop.cpp:71-85 | and with it, that handlers are due only while events are handled, a batch is part of the queue, and connectEstablished and connectDestroyed are queued once each, where the connection is down before the second and known to the poller until it runs |
| ConnectionProofs.StepInv | src/net/TcpConnection.cpp:62-309 | every call, handler and functor keeps it, or fails an assertion |
| ConnectionProofs.SendInv | src/net/TcpConnection.cpp:218-263 | a send keeps the stream whole through full, partial, refused and failed direct writes |
| ConnectionProofs.WriteInv | src/net/TcpConnection.cpp:171-193 | draining moves bytes to the wire without gap or repeat; it half-closes exactly when it empties the buffer of a closing connection, and then all accepted bytes are on the wire |
| ConnectionTheorems.NothingAfterFin | src/net/TcpConnection.cpp:96-102 | after the half-close nothing reaches the wire and nothing more is accepted |
| ConnectionTheorems.HighWaterCountsRises | src/net/TcpConnection.cpp:244-256 | high-water callbacks are queued exactly as often as the backlog rises to the mark from below |
| ConnectionTheorems.StepHighs | src/net/TcpConnection.cpp:244-256 | one step queues one high-water callback if it takes the backlog from below the mark to it or above, and none otherwise |
| ConnectionTheorems.WriteCompleteIff | src/net/TcpConnection.cpp:176-184 | write-complete is queued by exactly the steps that bring the last owed byte to the wire, which then holds all accepted |
| ConnectionTheorems.DeliverInOrder | src/net/Channel.cpp:137-160 | an event closes, then reads, then writes, and stops at a failed assertion |
| ConnectionShutdown.LocalShutdownLosesIff | src/net/TcpConnection.cpp:96-102 | shutdown() in the loop's thread, in handlers and functors alike: with nothing buffered it can lose a promised message if and only if one waits; with bytes buffered if and only if one waits beyond the running batch, or one waits in the handlers and the connection's writability is still to be handled this round with no close before it |
| ConnectionShutdown.RemoteShutdownLosesIff | src/net/EventLoop.cpp:71-85 | shutdown() from another thread can lose one if and only if, at the poll, one waits behind a backlog; in a batch, one waits beyond it and bytes are buffered or a send is left in it; in the handlers, as in the loop's own thread |
| ConnectionShutdown.SafeRun | src/net/TcpConnection.cpp:265-270 | from a state with no message in danger no run loses one |
| ConnectionShutdown.ShutdownKeepsItsWord | src/net/TcpConnection.cpp:96-102 | in every run from shutdown(), forced closes included, a connection not yet closed is half-closed, draining, or about to run the shutdown; with nothing queued and nothing buffered it is half-closed and everything accepted is on the wire |
| ConnectionShutdown.StepPromised | src/net/TcpConnection.cpp:104-122 | the one step that leaves a connection closing with no half-close to come is a forced close of a connected one with nothing to drain, and it always does |
| ConnectionAborts.NeverAborts | src/net/TcpConnection.cpp:104-206 | no assertion fails in any run whose steps are calm: reading is switched on a live connection and a connection is closed while watched, or what that leaves is put right by functors ahead of the next poll; and no hang-up comes with urgent but no ordinary data |
| ConnectionAborts.CalmIff | src/net/EventLoop.cpp:71-85 | exact in the loop's rounds: a step is calm if and only if nothing the loop and the kernel then do can bring an assertion down |
| ConnectionAborts.WatchedIsDoomed | src/net/TcpConnection.cpp:195-206 | a connection that is not live but watched, with nothing ahead of the next poll to put that right, fails at the latest at the next hang-up |
| ConnectionAborts.DestroyAbortsIff | src/net/TcpServer.cpp:26-36 | connectDestroyed on a connection in any state, as the server's destructor runs it, fails if and only if the connection is not connected and asks for events or is unknown to the poller |
| ConnectionAborts.DeliverAbortsIff | src/net/Channel.cpp:137-160 | one event fails an assertion if and only if it closes by hang-up and then reads the end of the stream |
| ConnectionAborts.CloseExposesIff | src/net/TcpConnection.cpp:195-206 | a close leaves the connection open to a second one if and only if it was not watched before and nothing ahead in its loop's queue takes the channel out before the next poll |
| ConnectionAborts.StopReadExposes | src/net/TcpConnection.cpp:272-309 | a run in which stopping reads and a forced close end in that second hang-up |
| TcpConnections.TcpConnection.constructor | src/net/TcpConnection.cpp:136-144 | a connecting connection with empty buffers and an unregistered channel |
| TcpConnections.TcpConnection.Send | src/net/TcpConnection.cpp:62-94 | a send at once in the loop's thread, by a queued copy from another, and nothing if not connected |
| TcpConnections.TcpConnection.SendInLoop | src/net/TcpConnection.cpp:218-263 | the fast path, the partial write, the error classes, the mark and the lazily enabled write event leave the state specified |
| TcpConnections.TcpConnection.HandleWrite | src/net/TcpConnection.cpp:171-193 | the drain, its write-complete and its half-close leave the state specified |
| TcpConnections.TcpConnection.HandleRead | src/net/TcpConnection.cpp:157-169 | data is appended to the input buffer, end of stream closes, an error changes nothing |
| TcpConnections.TcpConnection.HandleClose | src/net/TcpConnection.cpp:195-206 | disconnected, unwatched, down and close callbacks in that order |
| TcpConnections.TcpConnection.Shutdown | src/net/TcpConnection.cpp:96-102 | disconnecting, and the half-close run or queued |
| TcpConnections.TcpConnection.ShutdownInLoop | src/net/TcpConnection.cpp:265-270 | half-closes unless bytes are still to be written |
| TcpConnections.TcpConnection.ForceClose | src/net/TcpConnection.cpp:104-110 | disconnecting, and the close queued even in the loop's own thread |
| TcpConnections.TcpConnection.ForceCloseWithDelay | src/net/TcpConnection.cpp:112-122 | disconnecting now; the close comes by timer |
| TcpConnections.TcpConnection.ForceCloseInLoop | src/net/TcpConnection.cpp:272-278 | closes a live connection, leaves one that is down alone |
| TcpConnections.TcpConnection.ConnectEstablished | src/net/TcpConnection.cpp:136-144 | connected, watched for reading, up callback |
| TcpConnections.TcpConnection.ConnectDestroyed | src/net/TcpConnection.cpp:146-155 | removed from the poller, closed first if still connected |
| TcpConnections.TcpConnection.StartReadInLoop | src/net/TcpConnection.cpp:295-301 | read interest on |
| TcpConnections.TcpConnection.StopReadInLoop | src/net/TcpConnection.cpp:303-308 | read interest off, the flag left as the source leaves it |
| TcpConnections.TcpConnection.HandleEvent | src/net/Channel.cpp:137-160 | the handlers of one event, in order, to the end or to a failed assertion |
| TcpConnections.TcpConnection.RunFunctor | src/net/EventLoop.cpp:144-147 | the connection's next functor |
| EventLoops.NoLostWakeup | src/net/EventLoop.cpp:71-85 | in every interleaving, polls that leave out a readable eventfd included, a loop at poll with functors waiting or quit set has a readable eventfd or some thread between its push and its wakeup |
| EventLoops.WakeupIsEnough | src/net/EventLoop.cpp:67-88 | such a loop, left alone, runs every functor ever queued and leaves if told to, whether or not the poll reports the eventfd |
| EventLoops.ExactlyOnceInOrder | src/net/EventLoop.cpp:135-170 | functors run, then the batch, then the queue are all functors pushed by anyone, in order, those queued before loop() first, and only empty ones skipped |
| EventLoops.RunQueues | src/net/EventLoop.cpp:158-178 | over any run exactly the functors pushed are queued, and quit_ is set exactly if someone set it |
| EventLoops.OnlyEmptySkipped | src/net/EventLoop.cpp:144-147 | an empty functor is passed over and any other is not |
| EventLoops.DrainTakesBatchOnly | src/net/EventLoop.cpp:135-149 | a drain ends after exactly the length of the batch swapped out, whatever is queued meanwhile |
| EventLoops.DrainRuns | src/net/EventLoop.cpp:135-149 | a drain left alone runs its batch and returns to the loop condition |
| EventLoops.EarlyQueueIff | src/net/EventLoop.cpp:158-170 | whatever was queued before loop(), by its own thread or others, no run loses a wakeup if and only if the queue is empty, the eventfd readable, or a thread on its way to writing it |
| EventLoops.RunInv | src/net/EventLoop.cpp:67-178 | the protocol's invariant holds after every legal run |
| EventLoops.EventLoop.QueueInLoop | src/net/EventLoop.cpp:158-170 | a push, and a wakeup if called from another thread or while functors run; before loop() the push becomes part of what it starts with |
| EventLoops.EventLoop.Wakeup | src/net/EventLoop.cpp:111-117 | the eventfd becomes readable |
| EventLoops.EventLoop.HandleRead | src/net/EventLoop.cpp:119-125 | reading clears the eventfd |
| EventLoops.EventLoop.Quit | src/net/EventLoop.cpp:172-178 | the flag, and a wakeup from another thread; before loop() too, which forgets it |
| EventLoops.EventLoop.DoPendingFunctors | src/net/EventLoop.cpp:135-149 | calls exactly the non-empty functors pending at the swap, in order; what is left pending is, functor by functor, what other threads pushed before it ran and what it queued itself, each push announced |
| EventLoops.EventLoop.RunFunctor | src/net/EventLoop.cpp:144-147 | the call of one functor, which queues what it does and announces it |
| EventLoops.EventLoop.Loop | src/net/EventLoop.cpp:67-88 | rounds of poll, handlers and functors, with other threads pushing in all three, are a legal run of the protocol from whatever was queued before with quit_ cleared; the loop is left exactly when told to during it |
| Timers.InsertSorted | src/net/TimerQueue.cpp:149-160 | insertion keeps the set strictly sorted and tells truly whether the first expiration changed |
| Timers.InsertRefinesMap | include/siren/net/Timer.h:45-51 | the set is an insert-if-absent map keyed by expiration |
| Timers.BatchIsExactlyTheDue | src/net/TimerQueue.cpp:137-147 | the batch is exactly the timers due by now, and the rest are all later |
| TimerProofs.AlarmTracksMinimum | src/net/TimerQueue.cpp:93-135 | in every run, outside a batch, the alarm is set for the least expiration or has fired and is still to be handled |
| TimerProofs.EachTimerInOnePlace | src/net/TimerQueue.cpp:100-160 | in every run each timer is in exactly one of the set, the batch, the deleted and the refused |
| TimerProofs.RunInv | src/net/TimerQueue.cpp:93-160 | the queue's invariant holds after every legal run |
| TimerProofs.NewTimerRefusedIff | src/net/TimerQueue.cpp:149-160 | a new timer is refused if and only if another waits for the same expiration |
| TimerProofs.RepeaterRefusedIff | src/net/TimerQueue.cpp:116-135 | a repeating timer is lost if and only if its next expiration is taken, or one ahead in its batch has the same interval |
| TimerProofs.TakenAfterRecycling | src/net/TimerQueue.cpp:116-135 | what expirations are taken while a batch is put back |
| TimerOutcomes.AddPlaces | src/net/TimerQueue.cpp:82-97 | a timer added is in the set unless its expiration is taken, and the alarm is set for it exactly if it is the first to expire |
| TimerOutcomes.BeginTakes | src/net/TimerQueue.cpp:137-147 | the handler takes exactly the timers due, in order, and leaves exactly the others |
| TimerOutcomes.EndPutsBack | src/net/TimerQueue.cpp:116-135 | reset() leaves in the set what was there and, of the batch, each repeating timer its interval in whole seconds after the time the batch was taken at, unless that expiration is taken or the interval met before; the others are done with, and the alarm is set at the end for the first |
| TimerOutcomes.RecycledAre | src/net/TimerQueue.cpp:116-130 | the same of any batch and any set, timer by timer |
| TimerProofs.TwinsCollide | src/net/TimerQueue.cpp:121-122 | a run that loses one of two one-second timers |
| TimerProofs.DueWindow | src/net/TimerQueue.cpp:27-40 | the alarm rings less than a microsecond before its target, and not after the later of its target and a tenth of a millisecond from its setting |
| TimerProofs.EmptyBatchIsEarly | src/net/TimerQueue.cpp:100-135 | after a ring nothing is due if and only if it came early, by less than a microsecond; nothing is lost, the alarm is set again, and the second ring is not early |
| TimerQueues.Timer.Restart | src/net/Timer.cpp:10-17 | a repeating timer's next expiration counts from the time given; any other takes the clock's time |
| TimerQueues.TimerQueue.Insert | src/net/TimerQueue.cpp:149-160 | the sorted insert in place, and the timer refused if its expiration is taken |
| TimerQueues.TimerQueue.AddTimer | src/net/TimerQueue.cpp:83-98 | a new timer inserted, the alarm set anew if it is now the first |
| TimerQueues.TimerQueue.GetExpired | src/net/TimerQueue.cpp:137-147 | the timers due leave the set, in order |
| TimerQueues.TimerQueue.Reset | src/net/TimerQueue.cpp:116-135 | repeating timers restarted while in no set and put back, the others deleted, the alarm set for the first |
| TimerQueues.TimerQueue.HandleRead | src/net/TimerQueue.cpp:100-115 | a whole round: alarm read, batch taken, callbacks that add timers of their own, batch put back |
| TimerQueues.InsertAt | src/net/TimerQueue.cpp:149-160 | the place found by comparing expirations is where the sorted insert puts the timer |
| ConnectorTheorems.SingleAttempt | src/net/Connector.cpp:37-60 | at most one start, retry timer, attempt, connection or restart exists in any run; startInLoop always sees kDisconnected and connecting() a channel already reset; no descriptor is registered twice and no socket closed twice |
| ConnectorTheorems.SocketsConserved | src/net/Connector.cpp:62-99 | every socket opened is held by the connecting channel, closed, with its one connection, or released by it, and the poller knows exactly the held and the handed ones |
| ConnectorTheorems.DescriptorsMayRecur | src/net/poller/EPollPoller.cpp:58-69 | descriptor numbers given again after a close are never found registered: whatever number is free to the kernel is registered to nobody, and a registered one to the socket that has it now |
| ConnectorTheorems.RunMoves | src/net/Connector.cpp:123-184 | a socket closed or released stays so, and one handed over never comes back |
| ConnectorTheorems.StepMoves | src/net/Connector.cpp:123-184 | each step moves a socket only from held to closed or handed, or from handed to released |
| ConnectorTheorems.AttemptEnds | src/net/Connector.cpp:135-184 | one event, in error, writable or both, hands the socket over if it is a success still wanted and closes it otherwise, once, with a retry exactly when it failed and is wanted |
| ConnectorTheorems.StartOpens | src/net/Connector.cpp:62-99 | every start, first, retry or restart, opens one socket if wanted and none if not, and what connect(2) says decides where it goes |
| ConnectorTheorems.BeginOpens | src/net/Connector.cpp:31-45 | so does a start() on the loop's own thread |
| ConnectorTheorems.StopEndsAttempt | src/net/Connector.cpp:53-60 | stop's functor closes the socket of an attempt under way and sets no retry |
| ConnectorTheorems.LeavesInOwnHandler | src/net/EventLoop.cpp:101-110 | while handlers run a channel of connector or client leaves the poller only inside its own handler, as removeChannel asserts |
| ConnectorTheorems.RetryDelays | include/siren/net/Connector.h:34-35 | in every run the k-th retry since construction or restart waits min(500 * 2^k, 30000) ms |
| ConnectorTheorems.RunBackoff | src/net/Connector.cpp:171-184 | the next delay and all scheduled ones follow that law after any sequence of events |
| ConnectorTheorems.StopIsFinal | src/net/TcpClient.cpp:86-89 | after stop() no socket is opened and no connection made, whatever was pending |
| ConnectorTheorems.StopIsFinalIff | src/net/TcpClient.cpp:117-133 | stop() keeps its word if and only if it does not fall between removeConnection's check and the restart |
| ConnectorTheorems.OvertakenStopAbortsIff | src/net/Connector.cpp:101-121 | a stop() can end in connecting() finding the old channel, with no early timer, if and only if it falls between removeConnection's check and the restart |
| ConnectorTheorems.RestartIsReached | src/net/TcpClient.cpp:117-133 | a run that reaches that gap |
| ConnectorTheorems.DisconnectIsHeeded | src/net/TcpClient.cpp:128-131 | after disconnect() no run restarts a lost connection if and only if it did not fall between removeConnection's check and the restart |
| ConnectorTheorems.DisconnectIsKept | src/net/TcpClient.cpp:75-84 | in any run after it the client wants no connection, and those told to shut down stay told |
| ConnectorOutcomes.DisconnectTells | src/net/TcpClient.cpp:75-84 | disconnect() tells the connection there is, and changes nothing else |
| ConnectorOutcomes.RunTells | src/net/TcpClient.cpp:75-84 | over any run exactly the connections there were at each disconnect() are told |
| ConnectorOutcomes.NeverRetried | src/net/TcpClient.cpp:128-131 | a client that was not asked to retry never restarts, in every legal run, wherever start() was called |
| ConnectorOutcomes.RestartsIff | src/net/TcpClient.cpp:117-133 | a connection lost, by itself or by force, leads to a restart if and only if the client retries and still wants one; it is forgotten and its end queued either way |
| ConnectorOutcomes.StopIsCarriedOut | src/net/Connector.cpp:47-60 | in every tame run from stop() an attempt is under way only while stop's functor is still to come |
| ConnectorOutcomes.ForceCloseEnds | src/net/TcpConnection.cpp:104-110 | in every tame run from a forced close that connection is gone or its functor still waits |
| ConnectorOutcomes.QueueInOrder | src/net/EventLoop.cpp:135-170 | in every tame run the functors run, then those queued, are those called for, each once and in order |
| ConnectorOutcomes.StepQueues | src/net/Connector.cpp:47-184 | each step takes at most the functor at the head and adds exactly those called for |
| ConnectorOutcomes.RestartWaitsAfresh | src/net/Connector.cpp:101-107 | a restart that is refused waits half a second again, whatever waits came before |
| ConnectorTheorems.EarlyTimerAbortsIff | src/net/Connector.cpp:109-133 | a retry timer firing in the round that set it finds the old channel exactly when a reset is queued and a new attempt is made |
| ConnectorTheorems.FatalIsFinal | src/net/Connector.cpp:83-98 | after an errno of the third group, met by the first start, a retry or a restart, no socket is opened again |
| ConnectorTheorems.BeginFatal | src/net/Connector.cpp:83-98 | nor after one met by a start() on the loop's own thread |
| ConnectorProofs.StepInv | src/net/Connector.cpp:31-184 | every step of connector, client, kernel and loop keeps the invariant and fails no assertion |
| ConnectorProofs.HandedOverInv | src/net/TcpClient.cpp:91-115 | a connection's channel is registered for the connecting socket only after the connecting channel, still alive, has left the poller |
| ConnectorProofs.ResetBeforeClose | src/net/EventLoop.cpp:135-149 | when a forced close reaches its connection no reset is queued and the old channel is gone |
| ConnectorObjects.Connector.constructor | src/net/Connector.cpp:18-27 | disconnected, not wanted, no channel, first delay |
| ConnectorObjects.Connector.Start | src/net/Connector.cpp:31-35 | wanted, and startInLoop run at once in the loop's own thread or queued from another |
| ConnectorObjects.Connector.StartInLoop | src/net/Connector.cpp:37-45 | the assertion and the attempt as specified |
| ConnectorObjects.Connector.Stop | src/net/Connector.cpp:47-51 | no longer wanted, and stopInLoop queued |
| ConnectorObjects.Connector.StopInLoop | src/net/Connector.cpp:53-60 | an attempt is given up as specified |
| ConnectorObjects.Connector.Connect | src/net/Connector.cpp:62-99 | the three groups of errno as specified |
| ConnectorObjects.Connector.Restart | src/net/Connector.cpp:101-107 | first delay again, wanted, and started at once |
| ConnectorObjects.Connector.Connecting | src/net/Connector.cpp:109-121 | a channel of its own, registered for writing, where none was left |
| ConnectorObjects.Connector.RemoveAndResetChannel | src/net/Connector.cpp:123-131 | out of the poller now, reset by a queued functor |
| ConnectorObjects.Connector.ResetChannel | src/net/Connector.cpp:133-133 | the channel dies, unknown to the poller |
| ConnectorObjects.Connector.HandleWrite | src/net/Connector.cpp:135-159 | failure retried, success handed over or closed, as specified |
| ConnectorObjects.Connector.HandleError | src/net/Connector.cpp:161-169 | an attempt in error is retried, as specified |
| ConnectorObjects.Connector.HandleEvent | src/net/Channel.cpp:149-158 | error first, then write, on the same event |
| ConnectorObjects.Connector.RetryLater | src/net/Connector.cpp:171-184 | closed, and if wanted the next delay scheduled and doubled up to the limit |
| ConnectorObjects.Connector.RemoveConnection | src/net/TcpClient.cpp:117-133 | the connection forgotten, its end queued, and a restart if wanted |
| ConnectorObjects.Connector.ClientStop | src/net/TcpClient.cpp:86-89 | client and connector both told to stop |
| ConnectorObjects.Connector.RunFunctor | src/net/EventLoop.cpp:144-147 | the next functor of the loop as specified |
| ConnectorObjects.TcpClient.NewConnection | src/net/TcpClient.cpp:91-115 | the socket becomes the connection's, with a channel of its own |
| ConnectorObjects.TcpClient.Disconnect | src/net/TcpClient.cpp:75-84 | no reconnection is wanted any more, and the connection there is is told to shut down |
| ServerTheorems.Protocol | src/net/TcpServer.cpp:52-88 | in every run on any number of loops, whatever users and kernel do, each connection is created, established, closed, erased and destroyed, each once and in that order, and its up and down callbacks run once |
| ServerTheorems.ServerNeverAborts | src/net/TcpServer.cpp:80-88 | with every connection used calmly no assertion fails in any run: the erase finds its one entry, the removal an empty mask; the poller knows every connection established and not destroyed, and watches at the poll none that is not up |
| ServerTheorems.OrdinaryIff | src/net/TcpServer.cpp:75-88 | exact in every loop's rounds, connectDestroyed queued where the source queues it: a step keeps to it if and only if nothing the loops and the kernel then do can fail an assertion |
| ServerTheorems.StepsCommute | src/net/EventLoop.cpp:71-85 | what happens to two connections may happen in either order, on one loop or two, and leaves the same behind but for the order in which the base loop is told of closes |
| ServerTheorems.ConnectionsAre | src/net/TcpServer.cpp:62-84 | the map holds exactly the connections created and not yet erased |
| ServerTheorems.OwnRun | src/net/TcpServer.cpp:60-72 | every connection of a server has had a legal run of its own, so its streams are whole whatever the others did |
| ServerOutcomes.RunHistory | src/net/TcpServer.cpp:52-88 | over any run a connection has taken exactly the steps that were its own, establishment and removal included, in order |
| ServerOutcomes.RunRemoves | src/net/TcpServer.cpp:75-88 | the base loop removes connections in the order it is told of their closes, each once, and each accept makes one connection |
| ServerOutcomes.EachConnection | src/net/TcpServer.cpp:52-73 | after n accepts there are connections 1 to n, each where its own events bring a fresh one |
| ServerTheorems.Placement | src/net/TcpServer.cpp:54-54 | in any sequence of events the id-th connection lives on the loop the round robin gives the id-th call |
| ServerTheorems.LeavesInFunctor | src/net/EventLoop.cpp:101-110 | whatever users do, a server's connection leaves the poller only in connectDestroyed, run as a functor of its own loop with no handler of the round still to run, as removeChannel asserts |
| ServerTheorems.Drains | src/net/TcpServer.cpp:52-88 | conservation over any run, whatever turns the loops take: the protocol's functors run and those left are those found and those the run's accepts and closes called for; nothing is queued if and only if all have run |
| ServerTheorems.FunctorMoves | src/net/TcpServer.cpp:80-88 | each functor of the protocol takes one connection exactly one mark on and touches no other |
| ServerTheorems.QuietIff | src/net/TcpServer.cpp:80-88 | nothing of the protocol is queued on any loop if and only if no connection is between two places |
| ServerTheorems.AtRest | src/net/TcpServer.cpp:75-88 | with nothing pending a connection is up and in the map or destroyed and out of it |
| ServerProofs.StepInv | src/net/TcpServer.cpp:52-88 | every legal accept, connection step and removal keeps the server's invariant, or fails an assertion of a connection: the server's own never fails |
| ServerProofs.StepLife | src/net/TcpConnection.cpp:104-206 | of its own a connection keeps its place in its life or goes down once, and the poller never forgets its channel |
| ServerProofs.ClosesIff | src/net/TcpConnection.cpp:195-206 | the close callback is called exactly by the step that takes the connection down |
| TcpServers.TcpServer.NewConnection | src/net/TcpServer.cpp:52-73 | next loop, next id, map entry, and established at once or by a functor of that loop |
| TcpServers.TcpServer.RemoveConnection | src/net/TcpServer.cpp:75-78 | erased at once on the base loop, by its functor from another |
| TcpServers.TcpServer.Erase | src/net/TcpServer.cpp:84-85 | one entry erased; the assertion fails exactly when there is none |
| TcpServers.TcpServer.RemoveConnectionInLoop | src/net/TcpServer.cpp:80-88 | the entry erased and the end queued on the connection's loop |
| TcpServers.TcpServer.OnConnection | src/net/TcpConnection.cpp:195-206 | one step of a connection, and if it closed the close callback |
| TcpServers.TcpServer.RunRemove | src/net/EventLoop.cpp:144-147 | the base loop's next removeConnectionInLoop as specified |
| LoopPools.RoundRobin | src/net/EventLoopThreadPool.cpp:30-41 | after m calls on n loops the i-th loop, counted from one, has been given exactly (m + n - i) / n times |
| LoopPools.ServedInTurn | src/net/EventLoopThreadPool.cpp:30-41 | the k-th call gives loop k mod n from wherever the pool stands |
| LoopPools.Balanced | src/net/EventLoopThreadPool.cpp:30-41 | any two loops differ by at most one |
| LoopPools.EventLoopThreadPool.Start | src/net/EventLoopThreadPool.cpp:16-28 | the loops started, in order |
| LoopPools.EventLoopThreadPool.GetNextLoop | src/net/EventLoopThreadPool.cpp:30-41 | the loop whose turn it is, or the base loop if there are none |
| LoopPools.EventLoopThreadPool.GetLoopForHash | src/net/EventLoopThreadPool.cpp:43-51 | the residue of the hash, or the base loop if there are none |

## Left out

Hypotheses the theorems carry:

- ConnectionAborts.NeverAborts: assumes calm steps; `CalmIff` says that the assumption is exact, for an owner on the connection's own loop, whose connectDestroyed is queued there by the close itself, and for one on another, who may be as slow as it likes.
- ServerTheorems.ServerNeverAborts: the same assumption for every connection of the server; `OrdinaryIff` says that it is exact. The server is not destroyed while connections are up; `DestroyAbortsIff` says what its destructor's calls then do.
- ServerTheorems.Protocol: speaks of runs in which no assertion has failed; by `ServerProofs.StepInv` only a connection's can.
- ConnectorTheorems.SingleAttempt: one `connect()`, from any thread; a retry timer does not fire in the round that set it, and stop() does not fall between removeConnection's check and the restart; the three writes of TcpClient::stop() (lines 86-89, and those of Connector::stop) are one atomic step; `EarlyTimerAbortsIff`, `StopIsFinalIff` and `OvertakenStopAbortsIff` say what happens otherwise.
- Buffers.AbortsIffOverRetrieves: runs without prepend, whose own assertion depends on the layout and not on the bytes alone; `AbortsIffAskedTooMuch` covers all runs.
- ConnectionTheorems.StreamIntegrity: the check and the set of `state_` in `shutdown` and `forceClose` are one atomic step; so are `send`'s check of `state_` and its queueing (lines 80-93), on which the shutdown theorems rest; messages are passed by value, as the Buffer overload of `send` does; the user does not touch the output buffer.
- EventLoops.NoLostWakeup: the push in `queueInLoop` is one atomic step (line 163 declares a lock and holds none); runs begin with an empty queue after line 69 has cleared `quit_`, and `EarlyQueueIff` says what other queues do.
- ServerTheorems.OrdinaryIff: each connection goes through the rounds of its loop on its own; those of two connections on one loop are not tied together, which by `StepsCommute` leaves the same behind. A connection not yet watched is taken to be made while its loop handles events, since it cannot tell the difference.
- TimerProofs.AlarmTracksMinimum: one integer clock that does not jump, and integer intervals in seconds.

Not modelled:

- Thread identity checks, and the ten-second limit of the poll other than as a return at any time.
- Sizes beyond 2^31 in `retrieve(int)`, overflow of the eventfd's counter, and the growth of the epoll event array.
- The value of `reading_` to a user: `stopReadInLoop` leaves it true.
- `TimerQueue::cancel`, which is empty; intervals that are not whole seconds.
- Destructors of server, client, connector and loop; shared and weak ownership beyond the order in which objects are let go.
- Addresses, connection names and the acceptor: a connection is known by its number, and a server's connections have no descriptors. In the connector sockets are numbered in order; `DescriptorsMayRecur` says why their descriptors may recur.
- System calls themselves: their results are parameters of the steps.
- In `Connector.dfy` the methods of the client that call the connector are methods of the connector's class, which holds the reference. The loop's queue, the poller's channels and the sockets are fields of one host object there, and the loops' queues and the connections of one object in `TcpServer.dfy`, rather than the objects of `EventLoop.dfy`, `Poller.dfy` and `TcpConnection.dfy`. A connection's channel is a record in `TcpConnection.dfy`; `RunFollows` says that it is the poller's.
- Logging, the poll(2) poller (a stub), examples and benchmarks.
