# A verified model of the multi-reactor TCP server

The library is a TCP server in the reactor style: one base loop accepts connections, any number of
sub-loops own them, and loops talk only through mutex-guarded functor queues and an eventfd. This
project models its core in Dafny and proves what it keeps over whole runs: for every interleaving of
threads, every answer of the kernel and every behaviour of the user's callbacks.

Each layer has functions or a step relation on values, theorems about all runs of them, and, where the
source updates objects in place, a class whose methods are proved to do what those functions say.

| file | content |
|---|---|
| `kernel.dfy` | what the operating system may answer: write, readv, epoll_ctl |
| `buffer.dfy` | the gap buffer: indices, byte queue, capacity; class `Buffer` over an array |
| `registry.dfy` | the three records of a watched channel (index_, channels_, the epoll set) and their agreement |
| `reactor.dfy` | classes `Channel` and `EPollPoller`, dispatch order |
| `eventloop.dfy` | functor queue and wake-up protocol: one loop thread, any number of other threads |
| `loopobject.dfy` | class `EventLoop`, tied to the protocol's steps |
| `connmodel.dfy` | the connection state machine as functions |
| `connproofs.dfy` | its invariant, kept by every event |
| `conntheorems.dfy` | what follows for every run of a connection |
| `conneffects.dfy` | what each event does in every state of every run: to streams, buffers, callbacks, functors and the kernel's mask |
| `connsteps.dfy` | what one event of a connection asks of its poller |
| `connection.dfy` | class `TcpConnection` over a `Channel`, its `EPollPoller` and two `Buffer`s |
| `threadpool.dfy`, `naming.dfy` | loop rotation and connection names |
| `lifecycle.dfy` | connections across loops: map, queues, batches, active lists, pollers, ownership, descriptors |
| `lifeproofs.dfy`, `lifetheorems.dfy` | its invariant and what follows for every connection in every run |
| `barefunctors.dfy` | functors bound to a bare `this`: exactly when one can be started after its connection is gone |
| `projection.dfy` | each connection's part of a run of the server is a run of the connection state machine |
| `server.dfy` | class `TcpServer`: its methods are steps of the lifecycle and keep its invariant |

`dafny verify dfyconfig.toml` checks everything.

## What the theorems assume

- `shutdown()` tests and sets state_ in one step; include/TcpConnection.h line 52 forbids simultaneous
  calls. `ForeignShutdown` is one step of another thread, and the queuing of its functor is a later one.
- A queued `sendInLoop` carries its message by value (the code binds `c_str()`, src/TcpConnection.cpp
  line 75). That it also binds a bare `this`, as line 154 does, is not assumed away: see `BareFunctors` below.
- A run of `ConnModel` describes a connection while the object exists. A run of `Lifecycle` that starts a
  bare functor of a freed connection says nothing about the code from that start on.
- In runs of `ConnModel` poll never reports a hang-up with urgent data and without ordinary data for a
  connection. `ConnTheorems.ClosesOnceIff` shows that handleClose runs at most once in a dispatch exactly then.
- `quit()` comes after `loop()` has reset quit_ (src/EventLoop.cpp line 70).
- An accepted socket's descriptor is not in use by another living connection; the kernel answers
  EPIPE once the write side is shut, never takes more than it was offered, and fills readv's first
  block before its second.
- The user does not change the callbacks or the high-water mark of a connection during its life.

## Where the code does not keep a property

- `LoopProtocol.NoLostWakeupIff`: a functor queued from the loop's own thread before `loop()` is not
  signalled, and poll can then sleep on a waiting functor. Wake-ups are never lost exactly for loops
  entered with everything already queued signalled or about to be.
- `ConnTheorems.HalfCloseIsGracefulIff`: a shutdownInLoop that is still queued when the peer hangs up
  half-closes the socket with bytes left in outputBuffer_, because disableAll has cleared the write
  interest it tests. That is the only case; `ConnTheorems.LateHalfCloseLosesBacklog` is a run of it.
- `Registry.UpdateKeepsAgreementIff`, `Registry.DropKeepsAgreementIff`: registering, or removing, an
  unregistered channel keeps the poller's records in agreement exactly when its descriptor is free.
- `ConnTheorems.ClosesOnceIff`: see the assumption on poll above.
- `BareFunctors.MeetsFreedIff`: send() and shutdown() called by another thread queue a functor bound to a
  bare `this`, which does not keep the connection alive. Such a functor, queued or in the running batch,
  can be started after the connection has been freed exactly when the connection is out of the server's map
  and no functor that owns it is in that queue or, for one in the batch, in that batch.
  `BareFunctors.BareCanMeetFreed` shows that a server reaches such a start: the peer hangs up between
  the test of state_ and the queuing. Functors bound to a shared_ptr never meet this
  (`LifeTheorems.NothingDangles`).

## Model

| member | source | states |
|---|---|---|
| Kernel.Write | src/TcpConnection.cpp:99-122 | of write(2): never more bytes than offered, and only EPIPE after SHUT_WR |
| Kernel.Ctl | src/EPollPoller.cpp:139-177 | of epoll_ctl(2): ADD fails exactly on a present descriptor, MOD and DEL on an absent one; other entries stay |
| ByteBuffer.Layout.Reserve | include/Buffer.h:87-98 | room for len bytes with the readable bytes kept, and a larger vector only when the gap in front is too small |
| ByteBuffer.RunIsAByteQueue | include/Buffer.h:49-107 | over any run of append, retrieve, retrieveAll and readFd, what came out followed by what is left is what was there followed by what went in |
| ByteBuffer.Buffer.Perform | include/Buffer.h:49-107 | the same on the array itself, which also stays within the capacity bound below |
| ByteBuffer.StepCapacity | include/Buffer.h:139-155 | one operation never shrinks the vector and grows it at most to twice the bytes then held plus 7 |
| ByteBuffer.RunCapacity | include/Buffer.h:139-155 | over any run the vector stays within max(first size, 2 * peak readable bytes + 7) |
| ByteBuffer.CapacityBoundIsTight | include/Buffer.h:139-144 | that bound is reached |
| ByteBuffer.OfferIsAmple | src/Buffer.cpp:14-39 | one read is offered at least 64 KiB, and the free space of the buffer, whatever is in it |
| ByteBuffer.Buffer.constructor | include/Buffer.h:21-25 | an empty buffer of size 8 + initialSize with both indices at 8 |
| ByteBuffer.Buffer.Retrieve | include/Buffer.h:49-59 | drops the first len readable bytes, all of them if there are fewer |
| ByteBuffer.Buffer.RetrieveAll | include/Buffer.h:62-65 | leaves no readable byte and both indices at 8 |
| ByteBuffer.Buffer.RetrieveAsString | include/Buffer.h:74-84 | fatal exactly when more is asked than is readable; otherwise result followed by the rest is what was readable |
| ByteBuffer.Buffer.RetrieveAllAsString | include/Buffer.h:68-71 | returns all readable bytes and leaves none |
| ByteBuffer.Buffer.EnsureWriteableBytes | include/Buffer.h:87-98 | makes room for len bytes without changing the readable bytes |
| ByteBuffer.Buffer.MakeSpace | include/Buffer.h:139-155 | grows or shifts in place, readable bytes unchanged |
| ByteBuffer.Buffer.ShiftDown | include/Buffer.h:148-150 | the overlapping copy moves the readable bytes to index 8 intact |
| ByteBuffer.Buffer.Resize | include/Buffer.h:143 | vector::resize keeps every old byte |
| ByteBuffer.Buffer.Append | include/Buffer.h:101-107 | concatenates to the readable bytes, whatever happens to the vector |
| ByteBuffer.Buffer.Readv | src/Buffer.cpp:25-39 | the scatter read fills the writable block before the stack block |
| ByteBuffer.Buffer.ReadFd | src/Buffer.cpp:12-60 | for every number of bytes delivered, up to the offered capacity, exactly those are appended; an error changes nothing |
| ByteBuffer.Buffer.WriteFd | src/Buffer.cpp:63-75 | offers all readable bytes, reports the prefix taken, leaves the buffer alone |
| Registry.RequestsMeanWhatTheySay | include/Channel.h:45-54 | each enable or disable call changes exactly the interest it names |
| Registry.UpdateKeepsAgreementIff | src/EPollPoller.cpp:77-108 | updateChannel keeps index_, channels_ and the epoll set in agreement if and only if the channel is registered or its descriptor is free |
| Registry.DropKeepsAgreementIff | src/EPollPoller.cpp:112-125 | removeChannel does so under the same condition |
| Registry.RunAgrees | src/EPollPoller.cpp:77-125 | after any sequence of enable, disable and remove over channels with distinct descriptors the records agree and no epoll_ctl was refused |
| Registry.KernelFollowsRequests | src/EPollPoller.cpp:77-125 | after any such sequence the kernel watches each channel for exactly the interests its own calls left on, from its first request until its removal, and neither poller nor kernel knows it otherwise |
| Registry.UpdateIsLocal | src/EPollPoller.cpp:77-108 | an update changes its own channel's records only, in a way that depends on those alone |
| Registry.DropIsLocal | src/EPollPoller.cpp:112-125 | so does a removal |
| Registry.TouchesOneDescriptor | src/EPollPoller.cpp:77-125 | no operation touches what is kept under another descriptor |
| Registry.KernelEntryIsMapped | src/EPollPoller.cpp:128-136 | the pointer epoll returns is the mapped channel of that descriptor, marked kAdded |
| Reactor.DispatchAnswers | src/Channel.cpp:64-105 | for every mask: close exactly for hang-up without ordinary data, error exactly for an error, read exactly for ordinary or urgent data, write exactly for room to write; each once and in this order |
| Reactor.AnswersAreUnique | src/Channel.cpp:64-105 | that leaves one sequence of callbacks for each mask |
| Reactor.CloseAndReadTogetherIff | src/Channel.cpp:64-105 | one dispatch reports both a close and a read exactly for hang-up with urgent data only |
| Reactor.OnlyErrorsBeforeRead | src/Channel.cpp:64-105 | otherwise at most the error callback precedes a read |
| Reactor.Channel.constructor | src/Channel.cpp:12-14 | a new channel has no interest, is kNew and not tied |
| Reactor.Channel.Tie | src/Channel.cpp:21-25 | ties the channel |
| Reactor.Channel.EnableReading | include/Channel.h:45 | the poller's records become those after an EnableReading request |
| Reactor.Channel.DisableReading | include/Channel.h:46 | likewise for DisableReading |
| Reactor.Channel.EnableWriting | include/Channel.h:47 | likewise for EnableWriting |
| Reactor.Channel.DisableWriting | include/Channel.h:48 | likewise for DisableWriting |
| Reactor.Channel.DisableAll | include/Channel.h:49 | likewise for DisableAll |
| Reactor.Channel.RemoveSelf | src/Channel.cpp:40-43 | the poller's records become those after a removal |
| Reactor.Channel.HandleEvent | src/Channel.cpp:46-61 | a tied channel calls nothing once its owner is gone, and otherwise exactly the callbacks that the returned bits call for, in order |
| Reactor.Channel.HandleEventWithGuard | src/Channel.cpp:64-105 | calls exactly those callbacks |
| Reactor.EPollPoller.UpdateChannel | src/EPollPoller.cpp:77-108 | changes channels_, index_ and the epoll set as the registry's Update says |
| Reactor.EPollPoller.RemoveChannel | src/EPollPoller.cpp:112-125 | changes them as the registry's Remove says |
| Reactor.EPollPoller.EpollCtl | src/EPollPoller.cpp:139-177 | one epoll_ctl call; a refusal is counted and changes nothing |
| Reactor.EPollPoller.Poll | src/EPollPoller.cpp:31-65 | the active channels are those of the returned descriptors in order, all mapped and kAdded, with the returned events; no other channel's events change |
| LoopProtocol.Signal | src/EventLoop.cpp:182-190 | a wakeup leaves the eventfd counter positive, also when it is full |
| LoopProtocol.NoLostWakeupIff | src/EventLoop.cpp:74-168 | in no run does the loop thread sit at poll with a waiting functor, a zero counter and no producer about to signal, if and only if what was queued before loop() was signalled or about to be |
| LoopProtocol.FunctorsRunOnceInOrder | src/EventLoop.cpp:101-168 | functors started, rest of the batch and queue are at every moment the history of the queue, in order |
| LoopProtocol.PassRunsItsBatch | src/EventLoop.cpp:101-119 | inside doPendingFunctors a prefix of what was pending at the swap has been run, whatever is queued meanwhile |
| LoopProtocol.PassRunsWholeBatch | src/EventLoop.cpp:101-119 | when it ends, exactly all of that has been run |
| LoopProtocol.QuitProgress | src/EventLoop.cpp:74-138 | quit_ set in a running loop stays set, is not stuck behind poll, and allows at most one more return from poll |
| LoopProtocol.QuitTestedBeforePoll | src/EventLoop.cpp:74-95 | between handling events and the next poll quit_ has been found unset |
| LoopProtocol.LeftOnlyWhenQuit | src/EventLoop.cpp:74-98 | a loop that was left had been asked to quit |
| LoopProtocol.EveryMoveIsOneOn | src/EventLoop.cpp:67-119 | the thread's only way: quit_ reset, tested before each poll, every reported channel handled in order and the eventfd drained, the whole queue taken over, run to its end, and back to the test |
| LoopProtocol.ThreadIsNeverStuck | src/EventLoop.cpp:67-119 | in every state of every run before the exit the thread can move on, start the next functor or signal what a functor queued |
| LoopProtocol.AnyReportIsTakenUp | src/EventLoop.cpp:80-86 | whatever poll reports is taken up for handling, whole and in order |
| LoopObject.QueueInLoopIsItsSteps | src/EventLoop.cpp:155-168 | queueInLoop is push and wakeup from another thread or a functor, and push alone from a handler |
| LoopObject.QuitIsItsSteps | src/EventLoop.cpp:127-138 | quit sets quit_ and signals from another thread, and only sets it from user code on the loop's own |
| LoopObject.AllAreHandled | src/EventLoop.cpp:82-86 | of the channels of a pass none is passed over: what its handler queues is among the functors queued, and its quit() counts |
| LoopObject.PassesKeepOrder | src/EventLoop.cpp:74-119 | over any number of passes, functors run followed by those pending are what was pending at first and all queued since, in order |
| LoopObject.EventLoop.constructor | src/EventLoop.cpp:31-56 | a loop with an empty queue and a zero counter, whose own poller watches its eventfd, and nothing else, for reading |
| LoopObject.EventLoop.Wakeup | src/EventLoop.cpp:182-190 | signals the eventfd |
| LoopObject.EventLoop.HandleRead | src/EventLoop.cpp:170-178 | drains it |
| LoopObject.EventLoop.QueueInLoop | src/EventLoop.cpp:155-168 | appends the functor and signals from another thread or while functors run |
| LoopObject.EventLoop.RunInLoop | src/EventLoop.cpp:141-153 | runs at once on the loop's thread, queues and signals from any other |
| LoopObject.EventLoop.Quit | src/EventLoop.cpp:127-138 | sets quit_ and signals from another thread |
| LoopObject.EventLoop.DoPendingFunctors | src/EventLoop.cpp:101-119 | runs exactly what was pending, in order; what that queued is pending in order and signalled |
| LoopObject.EventLoop.Handle | src/EventLoop.cpp:82-86 | handles one active channel: drains the eventfd, or runs the user's handler, whose functors are queued unsignalled |
| LoopObject.EventLoop.Iterate | src/EventLoop.cpp:76-94 | one pass runs every handler in order and then exactly what was pending followed by what the handlers queued; what the functors queued is pending and signalled; quit_ is set if it was or any of them quits; the eventfd is 0 if drained and not signalled since |
| LoopObject.EventLoop.Loop | src/EventLoop.cpp:67-98 | resets quit_, makes passes, and returns after the first one in which quit() was called |
| ConnProofs.StepKeeps | src/TcpConnection.cpp:65-260 | every event of a connection keeps the invariant on channel, bytes, shutdown, callbacks, obligations and marks |
| ConnProofs.SendInLoopKeeps | src/TcpConnection.cpp:81-146 | sendInLoop keeps it for every message and kernel answer |
| ConnProofs.HandleWriteKeeps | src/TcpConnection.cpp:214-247 | handleWrite keeps it |
| ConnProofs.HandleCloseKeeps | src/TcpConnection.cpp:250-260 | handleClose keeps it and leaves the connection down |
| ConnProofs.RunKeeps | src/TcpConnection.cpp:65-260 | so it holds in every state of every run |
| ConnTheorems.OutputIsConserved | src/TcpConnection.cpp:81-247 | bytes in the kernel followed by outputBuffer_ are the messages not refused, in sendInLoop order |
| ConnTheorems.InputIsConserved | src/TcpConnection.cpp:189-212 | bytes the user took followed by inputBuffer_ are the bytes read |
| ConnTheorems.MessagesAreAllOrNothing | src/TcpConnection.cpp:81-146 | a message is refused exactly when the connection is down or a direct write meets EPIPE or ECONNRESET, and then whole |
| ConnTheorems.StreamGrowsUntilOver | src/TcpConnection.cpp:81-260 | the kernel's stream only grows, and is frozen by shutdownWrite and by handleClose, for good |
| ConnTheorems.HalfCloseIsGracefulIff | src/TcpConnection.cpp:149-164 | when the write side is shut every accepted byte is in the kernel, if and only if it is not a connection already down with a backlog |
| ConnTheorems.LateHalfCloseLosesBacklog | src/TcpConnection.cpp:158-164 | a run in which a late shutdownInLoop half-closes with a byte in outputBuffer_ |
| ConnTheorems.HalfCloseIsNeverForgotten | src/TcpConnection.cpp:149-236 | kDisconnecting with nothing left and no shutdownInLoop on its way implies the write side is shut; while up, a shut side means nothing is left |
| ConnTheorems.ChannelFollowsState | src/TcpConnection.cpp:81-260 | up: kAdded, kernel mask equal to events_, reading, writing exactly with a backlog; before and after: not watched; mapped until connectDestroyed |
| ConnTheorems.ProtocolIsThePhases | src/TcpConnection.cpp:168-212 | the callback automaton accepts exactly UP, messages, one DOWN, then notifications only |
| ConnTheorems.CallbacksFollowProtocol | src/TcpConnection.cpp:168-260 | every run's callbacks have that form, DOWN exactly when the connection is down, handleClose at most once |
| ConnTheorems.OneCloseOneDestruction | src/TcpConnection.cpp:178-260 | one close is followed through by one removal request, one queued connectDestroyed or its run: always exactly one of them |
| ConnTheorems.ClosesOnceIff | src/Channel.cpp:64-105 | a dispatch closes at most once for every kernel answer, if and only if it is not a hang-up with urgent data only |
| ConnTheorems.HighWaterIsUpCrossings | src/TcpConnection.cpp:127-139 | the high-water callbacks made, then those queued, carry exactly the backlog sizes at its upward crossings of the mark, in order; none if the callback is not set; between two the backlog was below |
| ConnTheorems.CrossingsAlternate | src/TcpConnection.cpp:127-139 | upward and downward crossings of a level alternate |
| ConnTheorems.WriteCompleteIsDrains | src/TcpConnection.cpp:97-107 | write-complete callbacks made and queued are as many as drops of the backlog to empty and messages written whole at once, each queued with all accepted bytes in the kernel |
| ConnEffects.KernelMaskFollows | src/Channel.cpp:7-9 | in every state: up, the kernel's mask has EPOLLIN and EPOLLPRI, EPOLLOUT exactly with a backlog, and no other bit; otherwise the kernel does not watch |
| ConnEffects.DispatchSays | src/TcpConnection.cpp:189-260 | for every mask and answer on a connection that is up: bytes read are received whole and told by one Message; hang-up without ordinary data, or end of stream, means kDisconnected, one Down, one removal request and no kernel entry; nothing else does, and otherwise it stays up and watched |
| ConnEffects.RoomFlushes | src/TcpConnection.cpp:214-247 | with room to write, exactly the bytes the kernel takes, from the front, move to the stream, in kConnected and kDisconnecting, whole or part; when none is left the write interest goes, a write-complete is queued, and a requested half-close is made; else nothing more changes |
| ConnEffects.WritesComeLast | src/Channel.cpp:64-105 | a dispatch with several events is the one without room to write, then that one alone; after a close the latter does nothing |
| ConnEffects.SendSays | src/TcpConnection.cpp:65-146 | send() in kConnected puts exactly its message into stream and backlog, or refuses it whole, with the notification due; in other states it does nothing |
| ConnEffects.ShutdownSays | src/TcpConnection.cpp:149-164 | shutdown() in kConnected leaves kDisconnecting, shut exactly if nothing waits; in other states it does nothing |
| ConnEffects.RetrieveSays | include/Buffer.h:49-59 | the user takes up to n bytes from the front of the input and changes nothing else |
| ConnEffects.ForeignSays | src/TcpConnection.cpp:65-156 | send() and shutdown() from another thread end in exactly one functor, in kConnected only, queued behind all others |
| ConnEffects.FunctorSays | src/EventLoop.cpp:113-116 | what each queued functor does: its own message sent or refused, the write side shut unless bytes wait on a connection that is up, the user told, or the channel out of the poller |
| ConnEffects.EstablishSays | src/TcpConnection.cpp:168-176 | connectEstablished: kConnected, Up, watched for input |
| ConnEffects.RemovalSays | src/TcpServer.cpp:126-135 | the removal queues one connectDestroyed behind all else |
| ConnEffects.DestroyedWhileUp | src/TcpConnection.cpp:178-187 | connectDestroyed on a connection still up takes it out of the poller, and tells Down exactly in kConnected |
| ConnEffects.QueueIsFifo | src/EventLoop.cpp:101-168 | an event takes at most the first functor and queues behind all others |
| ConnEffects.CallsAreMade | src/TcpConnection.cpp:168-260 | user code in a callback takes effect as its calls made one by one right after the event, exactly when a callback was made |
| ConnSteps.EventMoves | src/TcpConnection.cpp:168-260 | a connection comes up by connectEstablished alone, goes down in a dispatch alone, is destroyed by its queued connectDestroyed alone, and never goes back |
| ConnSteps.EventsAskWhatStepsDo | src/TcpConnection.cpp:81-260 | whatever the kernel answers and the callbacks do, an event has on the poller's records the effect of at most reading enabled on coming up, one change of the write interest while up, everything disabled on going down, removal on destruction |
| Connection.TcpConnection.constructor | src/TcpConnection.cpp:26-56 | a connection in kConnecting with an unregistered channel and empty buffers |
| Connection.TcpConnection.Send | src/TcpConnection.cpp:65-78 | sends only in kConnected: at once on the loop's thread, otherwise by a functor to be queued |
| Connection.TcpConnection.SendInLoop | src/TcpConnection.cpp:81-146 | on socket, buffer, channel and poller does what ConnModel.SendInLoop says, other descriptors untouched |
| Connection.TcpConnection.Shutdown | src/TcpConnection.cpp:149-156 | kConnected becomes kDisconnecting and shutdownInLoop runs or is to be queued |
| Connection.TcpConnection.ShutdownInLoop | src/TcpConnection.cpp:158-164 | shuts the write side unless the channel is writing |
| Connection.TcpConnection.ConnectEstablished | src/TcpConnection.cpp:168-176 | kConnected, tied, reading, UP |
| Connection.TcpConnection.ConnectDestroyed | src/TcpConnection.cpp:178-187 | the channel leaves the poller, after DOWN if still kConnected |
| Connection.TcpConnection.HandleRead | src/TcpConnection.cpp:189-212 | stores what was read and calls the user, closes at end of stream, ignores an error |
| Connection.TcpConnection.HandleWrite | src/TcpConnection.cpp:214-247 | moves what the kernel takes, and on empty stops writing, notifies and half-closes if asked |
| Connection.TcpConnection.HandleClose | src/TcpConnection.cpp:250-260 | kDisconnected, no interest, DOWN, then the removal request last |
| Connection.TcpConnection.HandleEvent | src/Channel.cpp:46-105 | runs the handlers in dispatch order, none once the owner is gone |
| Connection.TcpConnection.RunTask | src/EventLoop.cpp:113-116 | runs the connection's next functor |
| ThreadPool.KthLoop | src/EventLoopThreadPool.cpp:39-54 | the k-th call, from 0, returns loop k mod n |
| ThreadPool.Balanced | src/EventLoopThreadPool.cpp:39-54 | after any number of calls two loops differ by at most one |
| ThreadPool.EventLoopThreadPool.SetThreadNum | include/EventLoopThreadPool.h:20 | how many loops start will make |
| ThreadPool.EventLoopThreadPool.Start | src/EventLoopThreadPool.cpp:18-36 | the loops in the order their threads deliver them; the init callback is called once for every loop that takes connections, which is the base loop when there are no threads |
| ThreadPool.EventLoopThreadPool.GetNextLoop | src/EventLoopThreadPool.cpp:39-54 | returns the next loop, or the base loop when there is none, and advances |
| Naming.ValueOfDecimal | src/TcpServer.cpp:83 | the digits of a counter determine it |
| Naming.NamesAreDistinct | src/TcpServer.cpp:83-84 | two connections of a server have the same name only if they are the same |
| LifeProofs.StepKeeps | src/TcpServer.cpp:74-135 | every step of every loop, of the user and of the last owner keeps the lifecycle invariant |
| LifeProofs.RunKeeps | src/TcpServer.cpp:74-135 | so it holds in every state of every run |
| LifeProofs.AcceptKeeps | src/TcpServer.cpp:74-118 | newConnection keeps it, inline on the base loop or queued to a sub-loop |
| LifeProofs.CloseKeeps | src/TcpServer.cpp:120-124 | handleClose with removeConnection keeps it, inline or queued |
| LifeProofs.RemoveKeeps | src/TcpServer.cpp:126-135 | removeConnectionInLoop keeps it |
| LifeProofs.DestroyKeeps | src/TcpConnection.cpp:178-187 | connectDestroyed keeps it |
| LifeProofs.UnheldIsDestroyed | src/TcpServer.cpp:126-135 | a connection that neither the map nor a functor holds has been destroyed |
| LifeTheorems.StageSaysAll | src/TcpServer.cpp:74-135 | each accepted connection is at one stage that fixes its place in the map, its registration, and exactly one functor owed by exactly one loop, or none |
| LifeTheorems.StagesMoveForward | src/TcpServer.cpp:74-135 | stages only move forward |
| LifeTheorems.RemovedAndDestroyedOnce | src/TcpServer.cpp:126-135 | removal and destruction happen at most once, in that order, and memory and descriptor go last |
| LifeTheorems.MapIsAcceptedMinusRemoved | src/TcpServer.cpp:83-131 | the map holds exactly the connections accepted and not removed, each under its generated name |
| LifeTheorems.ReferredChannelsAreOwned | src/EventLoop.cpp:74-95 | a channel in a poller's map, a kernel set or an active list belongs to a connection held by the server's map, a queued functor or the running batch |
| LifeTheorems.ReportedStaysRegistered | src/EventLoop.cpp:80-86 | from poll until it is handled a reported channel stays registered and its connection established |
| LifeTheorems.NothingDangles | src/Channel.cpp:46-61 | a reported channel is always that of a living connection, and so is that of a functor that owns one; a bare functor meets a freed connection only when neither the map nor any functor of its loop holds it |
| LifeTheorems.DescriptorReuseIsSafe | src/EPollPoller.cpp:85-125 | in every step, with recycled descriptors, an entry of a poller's map stays its connection's or goes because that connection is destroyed, a new one is that of a connection not registered before, and no epoll_ctl is refused |
| LifeTheorems.EntriesLast | src/EPollPoller.cpp:85-125 | over a whole run an entry lasts until its own connection is destroyed |
| LifeTheorems.DutiesFindTheirDescriptor | src/TcpServer.cpp:117-134 | a connectEstablished still to run finds its descriptor free in its poller, a connectDestroyed finds its own channel under it |
| BareFunctors.GuardedIsSafe | src/TcpConnection.cpp:65-78 | while the map holds the connection, or an owning functor is in the same queue or the same batch, no continuation starts a bare functor of it after it is freed |
| BareFunctors.MeetsFreedIff | src/TcpConnection.cpp:149-156 | for every bare functor waiting in any run: some continuation starts it after its connection is freed if and only if it is not so guarded |
| BareFunctors.BareCanMeetFreed | src/TcpConnection.cpp:149-156 | a server, from its start, reaches the start of a bare functor of a freed connection |
| Projection.StepSlice | src/EPollPoller.cpp:77-125 | a step of the server changes what poller and kernel hold about its own connection, as that connection's machine says, and about no other |
| Projection.StepProjects | src/TcpServer.cpp:74-135 | every step of the server is, for every connection, a sequence of that connection's events that can happen, and records, state and obligations agree again afterwards |
| Projection.PartIsARun | src/TcpServer.cpp:74-135 | so each connection's part of any run of the server is a run of the connection state machine, in step with it |
| LifeTheorems.LoopsTakeTurns | src/TcpServer.cpp:82 | in every run the c-th connection belongs to sub-loop (c - 1) mod n |
| LifeTheorems.LoopsGoRound | src/EventLoop.cpp:67-119 | in every step every loop stays where it is or goes on as loop() does: no reported channel and no queued functor is passed over, lost or taken twice |
| LifeTheorems.NoLoopIsStuck | src/EventLoop.cpp:67-119 | in every state of every run each loop can go on |
| TcpServerObject.AcceptMeans | src/TcpServer.cpp:74-118 | an accepted connection is a new one under a name no entry has, is the one entry added, and is watched at once when the base loop keeps it |
| TcpServerObject.RemovalMeans | src/TcpServer.cpp:126-135 | the removal erases the connection's own entry and no other; its loop then owes exactly one connectDestroyed, which keeps it alive |
| TcpServerObject.QueuedRemovalMeans | src/TcpServer.cpp:120-124 | a queued removal is owed once, by the base loop, and the entry stays until it runs |
| TcpServerObject.CloseMeans | src/TcpConnection.cpp:250-260 | after a close the kernel does not report the connection, it is alive, and the base loop owes it exactly one functor |
| TcpServerObject.TcpServer.constructor | src/TcpServer.cpp:18-34 | a server with no connection and its counter at 1, which satisfies the lifecycle invariant |
| TcpServerObject.TcpServer.NewConnection | src/TcpServer.cpp:74-118 | keeps the invariant; the connection gets the next loop and a name that was not in the map, exactly one entry is added, it is watched at once or its establishment is the last functor of its loop; other loops unchanged |
| TcpServerObject.TcpServer.RemoveConnection | src/TcpServer.cpp:120-124 | keeps the invariant; on the base loop the one entry goes and one connectDestroyed is owed, from another loop the entry stays and one removal is owed by the base loop |
| TcpServerObject.TcpServer.RemoveConnectionInLoop | src/TcpServer.cpp:126-135 | keeps the invariant; exactly that entry goes and its own loop owes exactly one connectDestroyed, which keeps it alive |
| TcpServerObject.TcpServer.HandleClose | src/TcpConnection.cpp:250-260 | keeps the invariant; the kernel watches the connection no more, it is still in the map unless the base loop owns it, and exactly one functor is owed, by the base loop |

## Left out

- The TcpServer destructor: its second way of destroying connections skips DOWN in kDisconnecting.
- TcpServer::start and its once-only counter: it starts the pool, which is modelled, and the acceptor, which is not.
- Acceptor, Socket, InetAddress, Logger, Timestamp, CurrentThread and DefaultPoller: wrappers without state worth an invariant.
- Thread and EventLoopThread: the start-up handshake; the model begins with loops already running.
- The growth of the epoll event vector, the poll timeout and the wall-clock time of events.
- The integer width of nextConnId_ and of buffer sizes.
- Text of log entries, and SO_ERROR in handleError, which only reports.
- The errno of a failed write in `writeFd`: its unsigned result makes that branch dead, so only the count is modelled.
- LoopObject.EventLoop.Iterate: describes one pass without other threads; their interleaving is the subject of LoopProtocol.
- LoopObject.EventLoop.Loop: also stops when the given answers of poll are used up, where the source would go on waiting.
- Connection.TcpConnection.HandleEvent: with a hang-up and urgent data only, where the user's DOWN callback may change inputBuffer_ before the read, the read delivers at most the size of the stack block.
- TcpServerObject.TcpServer: the loops it posts to are values of its fields, not objects, so aliasing between loop objects is not modelled.
- Lifecycle and LoopProtocol are separate machines: a functor on a lifecycle queue is run whenever its loop swaps, and that the loop wakes for it is LoopProtocol's result.
- Projection.PartIsARun: the server's machine leaves out bytes and callbacks, so the events it yields carry the least traffic that has their effect; that any other traffic has no other effect is ConnSteps.EventsAskWhatStepsDo.
- ByteBuffer.RunCapacity: ensureWriteableBytes called by itself, without an append, is not one of its operations, since it reserves room for bytes that may never come.
- Appending a range of a buffer to the same buffer.
