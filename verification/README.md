# HUAWEIP2P: verified model

A Dafny 4.11 model of the muduo-style reactor and of the small update protocol on top of it:
the byte path from one user to the other, the event loop's functor queue, the poller, the life
of a server connection across loops, the connector, the swarm of clients that climb to level
100, and the server's catalogue of users. `dafny verify dfyconfig.toml` checks everything.

Each piece is written twice over. A class or method follows the C++ code, with its fields,
loops and in-place updates, and its contract ties the new state to a function of the old one.
Beside it stands a value-level machine made of those functions, whose runs are arbitrary
sequences of enabled steps; the theorems quantify over all runs. Everything the program does
not decide is a parameter of a step: what `write`, `readv`, `connect`, `poll` and the liveness
probe return, when timers fire, how threads interleave, which messages are lost.

| file | content |
|---|---|
| `Bytes.dfy` | bytes, `char` conversions, the key order of ordered containers |
| `Buffer.dfy` | `Buffer`: index arithmetic, size bound, array with in-place compaction |
| `Codec.dfy` | `LengthHeaderCodec`: pure decoder, its characterisation, the incremental loop |
| `Channel.dfy` | `Channel`: interest and dispatch |
| `TcpConnection.dfy` | sending through partial writes, half-close, close |
| `EndToEnd.dfy` | sender, wire and receiver together |
| `EventLoop.dfy` | functor queue, eventfd and loop phases, all interleavings |
| `PollPoller.dfy` | `pollfds_` and `channels_`, swap-remove, `fillActiveChannels` |
| `TcpServer.dfy` | connection lifecycle over any number of loops |
| `Connector.dfy` | connect, retry, deferred reset, socket ownership |
| `UserCatalogue.dfy` | groups kept as set and queue, eviction |
| `Messages.dfy` | the message format of the update protocol |
| `P2PClient.dfy` | neighbour table, failover loops, reading replies |
| `P2PServer.dfy` | the server's replies and their round trip |
| `UpdateProtocol.dfy` | levels of an unbounded swarm |

## Assumptions about the environment

- `send` and `shutdown` are called from the connection's own loop thread.
- The server outlives its connections. `poll` reports on a registered channel at most once per
  call, never on a negative descriptor, and never a hang-up without input together with urgent
  data or a half-close; `DispatchSafeIff` shows that exactly this last report breaks the
  lifecycle.
- The connector is started once, before any stop. A retry timer fires, and a new connection
  closes, in a later loop iteration than the one it stems from (`EarlyTimerFindsOldChannel`
  shows why the first is needed). `restart` follows the close of a handed-over connection of a
  client that was not stopped. `stop` comes at any time, also between a report and its dispatch.
- Clients of one swarm have different addresses, and none has the server's "1111". An address is
  any string.
- An address that accepts or refuses a connection does so throughout one failover loop.
- The active `operator<` of `UserInfo` (source/p2pserver/inc/usercatalogue.h:17-20) is not a strict
  weak order, so `std::set` has no defined meaning under it. The model uses the order by IP that
  the commented criterion below it describes.

## Where the code does not keep a property

- A functor queued by the loop thread before `loop()` is not noticed by the first `poll`
  (`EarlyQueueIsNotNoticed`); `NoLostWakeupAfterSetUp` gives the exact condition.
- `stop` called by a handler that runs after `poll` reported the connector's channel and before the
  attempt has ended fails the assert of `EventLoop::removeChannel`; and where asserts are compiled
  out, a report with an error then removes the channel a second time, indexing `pollfds_` with an
  index that is past the end or another channel's (`RemovedIndexIsStale`), and closes the socket a
  second time (`StopBeforeDispatch`).
  `AssertsHoldIff` and `SocketsAndRetries` give the exact conditions.
- A client's address is its port as a string (source/p2pclient/src/main.cpp:57), and the readers of
  a message take characters 2 to 5 for the address and character 6 for the level. From a client at
  a port of five digits they read a digit as the level, and a client at level 1 rises to 2 without
  the server (`PortOfFiveDigits`). `ReadsTrueIff` and `ReachableLevels` give the exact conditions.
- A channel that asked for no events is never polled again, even if it asks for some later
  (`PausedIsNotPolled`; `DisabledIsIgnored` gives the exact condition); and a channel first registered without interest cannot be removed
  without failing an assert (`RegisteredIdleFails`), which an `Acceptor` destroyed before
  `listen` does.
- A message of more than 65536 bytes is sent, is refused by the receiver and blocks everything
  after it (`DeliveredIffSmall`); `DeliveredIsPrefix` says over whole runs what still arrives.
- The failover loops never end when neither the server nor a neighbour ahead accepts
  (`LoopEndsIff`).

## Model

| member | source | states |
|---|---|---|
| `Buffers.SizeBound` | source/base/inc/Buffer.h:94-169 | over every run of append, prepend, retrieve and readFd the array never shrinks and holds at most max(1032, 2 * peak readable bytes + 6) bytes |
| `Buffers.SizeBoundIsTight` | source/base/inc/Buffer.h:152-169 | some run attains the bound |
| `Buffers.Reserved` | source/base/inc/Buffer.h:105-112 | afterwards len bytes are writable, the readable count is kept and the array has not shrunk |
| `Buffers.Buffer.MoveDown` | source/base/inc/Buffer.h:160-164 | the overlapping forward copy moves the readable bytes intact |
| `Buffers.Buffer.MakeSpace` | source/base/inc/Buffer.h:152-169 | contents kept in both branches; the assert on the reader index holds whenever its branch is taken |
| `Buffers.Buffer.Append` | source/base/inc/Buffer.h:94-99 | contents become old contents followed by the data |
| `Buffers.Buffer.Prepend` | source/base/inc/Buffer.h:127-133 | contents become the data followed by old contents |
| `Buffers.Buffer.Retrieve` | source/base/inc/Buffer.h:56-67 | the first len bytes are dropped; an emptied buffer returns to its initial indices |
| `Buffers.Buffer.RetrieveAsString` | source/base/inc/Buffer.h:86-92 | result followed by the new contents is the old contents |
| `Buffers.Buffer.ReadFd` | source/base/src/Buffer.cpp:14-41 | whatever `readv` returns, the bytes it delivered over both vectors are appended in order, and none on error |
| `Codec.Be32RoundTrip` | source/base/inc/codec.h:34-35 | every int32 survives the big-endian header |
| `Codec.HeaderOrder` | source/base/inc/codec.h:63-66 | the header is in network byte order: as byte strings headers compare as the lengths do |
| `Codec.DecodeCharacterised` | source/base/inc/codec.h:30-55 | the decoder's answer is the only split of a stream into frames of at most 65536 bytes and a rest that starts with no complete one, for every stream |
| `Codec.DecodeIncremental` | source/base/inc/codec.h:30-55 | decoding a longer stream continues from the bytes left over |
| `Codec.ChunkingIsInvisible` | source/base/inc/codec.h:26-56 | for every stream and every way of cutting it into reads, messages and leftover are those of the whole stream |
| `Codec.RefusedIsFinal` | source/base/inc/codec.h:36-41 | after an out-of-range header nothing is ever emitted again |
| `Codec.DeliveredIffSmall` | source/base/inc/codec.h:36-48 | a message is delivered exactly if it has at most 65536 bytes; a longer one blocks the stream |
| `Codec.OnMessage` | source/base/inc/codec.h:26-56 | the loop over the buffer refines the pure decoder and calls `shutdown` exactly when a refused header is in front |
| `Codec.Encode` | source/base/inc/codec.h:63-67 | the buffer given to the connection holds exactly one frame |
| `Channels.CloseThenReadIff` | source/base/src/Channel.cpp:62-95 | close and read callback run in one dispatch exactly for a hang-up without input but with urgent data or half-close |
| `Channels.CallbacksAre` | source/base/src/Channel.cpp:62-95 | for every report, which of the four callbacks are made, bit by bit, each at most once and in the order close, error, read, write |
| `Channels.Channel.EnableReading` | source/base/inc/Channel.h:51-55 | read interest set, write interest kept, and the poller told once |
| `Channels.Channel.EnableWriting` | source/base/inc/Channel.h:57-61 | write interest set, read interest kept, and the poller told once |
| `Channels.Channel.DisableWriting` | source/base/inc/Channel.h:63-67 | write interest cleared, read interest kept, and the poller told once |
| `Channels.Channel.DisableAll` | source/base/inc/Channel.h:69-73 | no interest left, and the poller told once |
| `TcpConnections.OutputConserved` | source/base/src/TcpConnection.cpp:127-171 | over every run, bytes written followed by the backlog are the bytes accepted; while open, write interest is exactly a non-empty backlog; at most one `shutdownWrite` |
| `TcpConnections.GracefulHalfClose` | source/base/src/TcpConnection.cpp:173-192 | after `shutdown()` nothing is accepted; the write side is shut only when all accepted bytes are written, and as soon as they are |
| `TcpConnections.NothingAfterHalfClose` | source/base/src/TcpConnection.cpp:244-266 | once the write side is shut no byte is written and no second shutdown made |
| `TcpConnections.WrittenIsTaken` | source/base/src/TcpConnection.cpp:134-170 | over every run, what the connection counts as written is what the kernel took of each offer to `write`; with conservation, the backlog is what was accepted and not yet taken |
| `TcpConnections.KernelTook` | source/base/src/TcpConnection.cpp:134-139 | the same for one step: data of an idle connection or the backlog is offered, and its first n bytes are taken |
| `TcpConnections.StateHistory` | source/base/src/TcpConnection.cpp:173-208 | over every run the state is what the calls made it: up, half-closed by the first `shutdown()`, closed by `handleClose` |
| `TcpConnections.AcceptsWhileUp` | source/base/src/TcpConnection.cpp:102-120 | all that is sent while up is accepted, and the write side is not shut before a `shutdown()` |
| `TcpConnections.NotUpAcceptsNothing` | source/base/src/TcpConnection.cpp:102-106 | nothing is accepted otherwise |
| `TcpConnections.TcpConnection.SendInLoop` | source/base/src/TcpConnection.cpp:127-171 | the code moves the connection as the machine does, for every return of `write` |
| `TcpConnections.TcpConnection.Send` | source/base/src/TcpConnection.cpp:102-120 | data is taken only while connected, and then the caller's buffer is emptied |
| `TcpConnections.TcpConnection.Shutdown` | source/base/src/TcpConnection.cpp:173-182 | first call while connected starts the disconnection; shut at once if nothing is pending |
| `TcpConnections.TcpConnection.ShutdownInLoop` | source/base/src/TcpConnection.cpp:184-192 | shuts the write side exactly if not writing |
| `TcpConnections.TcpConnection.HandleWrite` | source/base/src/TcpConnection.cpp:244-285 | written bytes leave the backlog; the last one clears the interest and completes a pending shutdown |
| `TcpConnections.TcpConnection.HandleClose` | source/base/src/TcpConnection.cpp:287-298 | disconnected, without interest |
| `TcpConnections.TcpConnection.HandleRead` | source/base/src/TcpConnection.cpp:223-242 | messages and leftover are the decoding of old input and new bytes; a refused header shuts the connection down; end of file closes; an error changes nothing |
| `TcpConnections.TcpConnection.ConnectEstablished` | source/base/src/TcpConnection.cpp:199-208 | connected and reading |
| `EndToEnd.DeliveredIsPrefix` | source/base/inc/codec.h:26-71 | for every run of sends of any size, partial or failed writes, shutdown, close and reads of any size, the messages delivered are a prefix of those sent before the first of more than 65536 bytes, and all of these once no byte is on its way; with no such message, of all that were sent |
| `EndToEnd.FramesPrefix` | source/base/inc/codec.h:59-71 | frames of deliverable messages at the front of a stream of frames are those of its first messages |
| `EndToEnd.SendThroughCodec` | source/base/inc/codec.h:59-71 | sending a message gives its frame to the connection |
| `EventLoops.NoLostWakeupIff` | source/base/src/EventLoop.cpp:140-151 | in every interleaving, a `poll` with pending functors or a quit request has a set eventfd or a thread about to set it, exactly when that held at the start of `loop()` |
| `EventLoops.NoLostWakeupAfterSetUp` | source/base/src/EventLoop.cpp:86-151 | for every sequence of calls before `loop()`: no later `poll` misses anything unless the loop thread queued a functor, no other thread did and none called `wakeup` |
| `EventLoops.WakeRun` | source/base/src/EventLoop.cpp:86-151 | the invariant behind it, over every run of a started loop |
| `EventLoops.EarlyQueueIsNotNoticed` | source/base/src/EventLoop.cpp:147-150 | queueing from the loop thread before `loop()` leaves a blocked `poll` with work pending |
| `EventLoops.FunctorsRunInOrder` | source/base/src/EventLoop.cpp:221-236 | executed, rest of the batch and pending always concatenate to what was queued |
| `EventLoops.BatchIsTheSwappedQueue` | source/base/src/EventLoop.cpp:221-236 | one `doPendingFunctors` executes exactly the functors present at its swap |
| `EventLoops.History` | source/base/src/EventLoop.cpp:116-151 | in every interleaving the queue received what was pushed, in order; one functor runs per turn of the batch loop; the eventfd is set exactly if the loop was woken since the last read; a thread is about to wake exactly if it pushed or quit last; `quit_` is set exactly if somebody quit since `loop()` began |
| `EventLoops.TurnOfLoop` | source/base/src/EventLoop.cpp:94-114 | every `poll` can be followed by a turn that executes all that was pending, clears the eventfd and returns to `poll`, or ends the loop exactly if asked to quit |
| `EventLoops.EventLoop.QueueInLoop` | source/base/src/EventLoop.cpp:140-151 | the push is the machine's step, and `wakeup` follows exactly when the machine requires it |
| `EventLoops.EventLoop.Wakeup` | source/base/src/EventLoop.cpp:201-209 | the eventfd is incremented, up to its limit |
| `EventLoops.EventLoop.HandleRead` | source/base/src/EventLoop.cpp:211-219 | the eventfd is reset |
| `EventLoops.EventLoop.SwapFunctors` | source/base/src/EventLoop.cpp:223-229 | the swap is the machine's step |
| `EventLoops.EventLoop.DoPendingFunctors` | source/base/src/EventLoop.cpp:221-236 | functors that queue functors: the old queue is executed in order, the new ones are pending in order, and the eventfd is set if there are any |
| `PollPollers.AlwaysAgrees` | source/base/src/PollPoller.cpp:60-122 | after every sequence of registrations, updates and swap-removals, array and map are in bijection through the index, entries decode to their channel's descriptor and events match |
| `PollPollers.EntryIsLastAsked` | source/base/src/PollPoller.cpp:60-93 | after every sequence of operations the entry of a descriptor asks for what the last operation on it asked for, and there is none after a removal |
| `PollPollers.DisabledIsIgnored` | source/base/src/PollPoller.cpp:83-91 | after every sequence of operations an entry is polled, and its removal would fail an assert, exactly if no update to no interest came after its last registration |
| `PollPollers.PausedIsNotPolled` | source/base/src/PollPoller.cpp:78-92 | read, pause, read again: the channel wants to read and is not polled |
| `PollPollers.RemovalsAreSafe` | source/base/src/PollPoller.cpp:95-106 | if every first registration shows interest, no removal fails an assert |
| `PollPollers.RegisteredIdleFails` | source/base/src/Acceptor.cpp:30-35 | a channel registered without interest and then removed fails the assert |
| `PollPollers.RemoveKeeps` | source/base/src/PollPoller.cpp:105-121 | swap-remove keeps the agreement and drops exactly one channel |
| `PollPollers.RemovedIndexIsStale` | source/base/src/PollPoller.cpp:101-121 | the index a removed channel keeps points past the end, exactly if it was the last, or at another channel |
| `PollPollers.ReadyDistinct` | source/base/src/PollPoller.cpp:43-57 | each ready descriptor is listed once |
| `PollPollers.ReadyIsSubset` | source/base/src/PollPoller.cpp:46-48 | ready are exactly the entries whose `revents`, as a signed short, are positive |
| `PollPollers.ReadyAt` | source/base/src/PollPoller.cpp:43-57 | the ready entries stand in array order |
| `PollPollers.PollPoller.UpdateChannel` | source/base/src/PollPoller.cpp:60-93 | registers or updates the entry, which then asks for the events of the channel, and keeps both structures in agreement |
| `PollPollers.PollPoller.RemoveChannel` | source/base/src/PollPoller.cpp:95-122 | removes the entry, re-indexes the moved channel and keeps the agreement |
| `PollPollers.PollPoller.FillActiveChannels` | source/base/src/PollPoller.cpp:40-58 | the ready channels in array order with their events copied, as many as there are up to `numEvents` |
| `TcpServers.Lifecycle` | source/base/src/TcpServer.cpp:70-116 | over every run of the base loop and any number of io loops, each connection goes through up, messages, down, erased, removed in this order; the functor for its next stage is queued on the right loop; no assert of a functor about to run fails; events reach only connections that are up and in the map |
| `TcpServers.LogOrder` | source/base/src/TcpConnection.cpp:199-221 | in such a log everything but messages occurs at most once, in order, and messages lie between up and down |
| `TcpServers.DispatchSafeIff` | source/base/src/Channel.cpp:62-95 | a dispatch keeps the order for every read result exactly if the report is not a hang-up with a read, that is, does not run both callbacks |
| `TcpServers.ExecuteKeeps` | source/base/src/TcpServer.cpp:105-116 | running a queued functor finds the state its asserts demand and keeps the invariant |
| `TcpServers.HandleKeeps` | source/base/src/Channel.cpp:45-60 | handling a report finds the connection alive and keeps the invariant |
| `TcpServers.LogIsHistory` | source/base/src/TcpConnection.cpp:223-242 | over every run the log of a connection is what the functors and reports on it say: up when `connectEstablished` runs, a message for each read with data, down at a hang-up or end of file, nothing for a read error |
| `TcpServers.StepNotes` | source/base/src/TcpConnection.cpp:199-242 | for every step the notes it adds to each connection and the state it leaves it in |
| `TcpServers.DispatchAdds` | source/base/src/TcpConnection.cpp:223-242 | the same for one report, with the rest of the server untouched, and all of it if nothing is added |
| `TcpServers.AcceptAdds` | source/base/src/TcpServer.cpp:70-97 | one new connection on the chosen loop, up at once on the base loop, all others untouched |
| `TcpServers.DestroyAdds` | source/base/src/TcpConnection.cpp:210-221 | a connection destroyed while up gets its down before its removal |
| `TcpServers.QueuesAreFifo` | source/base/src/EventLoop.cpp:140-151 | each step takes at most the first functor of a loop and adds at the end |
| `TcpServers.TcpServer.NewConnection` | source/base/src/TcpServer.cpp:70-97 | a new entry and one queued or executed `connectEstablished` |
| `TcpServers.TcpServer.HandleClose` | source/base/src/TcpConnection.cpp:287-298 | down, then removal run or queued on the base loop |
| `TcpServers.TcpServer.HandleRead` | source/base/src/TcpConnection.cpp:223-242 | a message for data, a close at end of file, nothing on an error |
| `TcpServers.TcpServer.RemoveConnectionInLoop` | source/base/src/TcpServer.cpp:105-116 | the entry is erased and the destruction queued on the connection's loop |
| `TcpServers.TcpServer.ConnectDestroyed` | source/base/src/TcpConnection.cpp:210-221 | the channel is removed, after a down if there was none |
| `TcpServers.TcpServer.RunFunctor` | source/base/src/EventLoop.cpp:231-234 | one functor of a loop is run and the invariant kept |
| `Connectors.SocketsAndRetries` | source/base/src/Connector.cpp:40-220 | over every run at most one retry is scheduled and none while connecting or connected; the k-th delay since a reset is min(500 * 2^k, 30000); each socket is in flight, closed once or handed over once exactly if no report with an error is dispatched after an in-loop stop of the same iteration |
| `Connectors.AssertsHoldIff` | source/base/src/EventLoop.cpp:182-192 | over every run the asserts of the connector and of `removeChannel` hold exactly if no in-loop stop falls between the report of the channel and the end of its attempt |
| `Connectors.StopBeforeDispatch` | source/base/src/Connector.cpp:61-70 | a run with such a stop that closes a socket twice |
| `Connectors.NoOldChannel` | source/base/src/Connector.cpp:114-151 | over every run, whenever `startInLoop` is about to run its assert holds and `connecting` would find no old channel |
| `Connectors.EarlyTimerIff` | source/base/src/Connector.cpp:138-151 | a timer that fires finds the old channel exactly if the reset is still queued, which needs a timer of the same iteration |
| `Connectors.EarlyTimerFindsOldChannel` | source/base/src/Connector.cpp:204-220 | such a run exists |
| `Connectors.RestartKeeps` | source/base/src/TcpClient.cpp:147-165 | a restart after the close of a handed-over connection finds no channel and keeps the invariant |
| `Connectors.NothingIsLost` | source/base/src/Connector.cpp:34-70 | over every run the client is wanted exactly between `start` and the first `stop`; a start or stop from another thread is carried out; as many sockets are handed over as clean reports are dispatched while connecting and wanted, and as many as connections closed and living; without a fatal error a wanted client never falls idle |
| `Connectors.FatalGivesUp` | source/base/src/Connector.cpp:95-111 | an attempt leaves a wanted client idle exactly if its error is fatal |
| `Connectors.AttemptOutcome` | source/base/src/Connector.cpp:72-112 | one new socket, in flight, closed with one retry after the next delay, or closed without |
| `Connectors.WriteOutcome` | source/base/src/Connector.cpp:153-190 | a connected socket is handed to a client that wants it and closed for one that was stopped; a failed one is closed and retried |
| `Connectors.ErrorOutcome` | source/base/src/Connector.cpp:192-202 | the socket is closed and, if wanted, one retry scheduled |
| `Connectors.RestartOutcome` | source/base/src/Connector.cpp:114-121 | the series of delays begins anew at 500 |
| `Connectors.Connector.Retry` | source/base/src/Connector.cpp:204-220 | the socket is closed; with `connect_` set a timer with the current delay is requested and the delay doubled up to its maximum |
| `Connectors.Connector.Connect` | source/base/src/Connector.cpp:72-112 | one new socket, in flight, closed with a retry, or closed |
| `Connectors.Connector.StartInLoop` | source/base/src/Connector.cpp:40-52 | connects only if still wanted |
| `Connectors.Connector.StopInLoop` | source/base/src/Connector.cpp:61-70 | a pending attempt is abandoned and its socket closed |
| `Connectors.Connector.RemoveAndResetChannel` | source/base/src/Connector.cpp:138-146 | the reset is queued, the channel kept until then |
| `Connectors.Connector.HandleWrite` | source/base/src/Connector.cpp:153-190 | the socket is handed over, closed or retried; nothing happens unless connecting |
| `Connectors.Connector.HandleError` | source/base/src/Connector.cpp:192-202 | the socket is closed and the attempt retried |
| `Connectors.Connector.Restart` | source/base/src/Connector.cpp:114-121 | the delay is reset and a new attempt made |
| `UserCatalogues.CatalogueAgrees` | source/p2pserver/src/usercatalogue.cpp:20-83 | for every sequence of insertions and probe results, set and queue of each group hold the same IPs, without duplicates, of one prefix, at most three |
| `UserCatalogues.InsertRecords` | source/p2pserver/src/usercatalogue.cpp:49-80 | exactly who is in a group and with which level after an insertion: everybody stays but a front that is evicted; other groups are untouched |
| `UserCatalogues.FillsInOrder` | source/p2pserver/src/usercatalogue.cpp:49-55 | over every run, as long as at most three IPs of a prefix have come, the queue holds them all in the order of arrival |
| `UserCatalogues.RoomGrows` | source/p2pserver/src/usercatalogue.cpp:52-55 | a newcomer to a group with room goes to the end of the queue |
| `UserCatalogues.LevelsAreCurrent` | source/p2pserver/src/usercatalogue.cpp:49-80 | over every run each user in the catalogue has the level it announced last |
| `UserCatalogues.SameGroupIff` | source/p2pserver/src/usercatalogue.cpp:95-98 | two users share a group exactly if the first three characters agree |
| `UserCatalogues.FullGroupShifts` | source/p2pserver/src/usercatalogue.cpp:56-73 | in a full group each newcomer moves all members behind the front forward by one |
| `UserCatalogues.DeadIsEvicted` | source/p2pserver/src/usercatalogue.cpp:56-73 | a member that stays dead is at its place minus the number of newcomers, and gone once that exceeds it: within three newcomers |
| `UserCatalogues.WorkingStays` | source/p2pserver/src/usercatalogue.cpp:60-65 | a member that answers every probe is never evicted |
| `UserCatalogues.UserCatalogue.InsertUser` | source/p2pserver/src/usercatalogue.cpp:20-83 | the code changes both structures as specified and keeps them in agreement |
| `UserCatalogues.UserCatalogue.HasNeighbor` | source/p2pserver/src/usercatalogue.cpp:84-88 | size of the group minus one |
| `UserCatalogues.UserCatalogue.GetNeighborUsers` | source/p2pserver/src/usercatalogue.cpp:89-93 | the group, whose IPs are those of the queue |
| `P2PClients.FindNeiIP` | source/p2pclient/src/p2pclient.cpp:55-66 | the first neighbour in key order that is ahead, else the server |
| `P2PClients.LoopEndsIff` | source/p2pclient/src/p2pclient.cpp:200-205 | the failover loops end exactly if the server or a neighbour ahead accepts, and then within one attempt more than there are such neighbours |
| `P2PClients.P2PNode.ChangeConnection` | source/p2pclient/src/p2pclient.cpp:230-237 | chooses the first accepting neighbour ahead, else the server; the attempts are bounded; only refused neighbours are removed |
| `P2PClients.P2PNode.Reconnect` | source/p2pclient/src/p2pclient.cpp:200-205 | the same after the lost peer was removed |
| `P2PClients.UnknownIsAhead` | source/p2pclient/src/p2pclient.cpp:43-66 | a neighbour heard of at level 1 counts as ahead of every client up to level 100, any other by the level heard |
| `P2PClients.P2PNode.InsertNeiIP` | source/p2pclient/src/p2pclient.cpp:43-48 | level 1 is stored as 101 |
| `P2PClients.P2PNode.ProcessUpdateFile` | source/p2pclient/src/p2pclient.cpp:76-87 | the level rises by one exactly if the peer is ahead |
| `P2PClients.P2PNode.InsertEntries` | source/p2pclient/src/p2pclient.cpp:267-272 | the index loop records the entries one after the other |
| `P2PClients.P2PNode.ProcessMessage` | source/p2pclient/src/p2pclient.cpp:259-290 | the effect of each message type and the three return values |
| `P2PClients.P2PNode.OnReply` | source/p2pclient/src/p2pclient.cpp:210-244 | asks again after progress, moves to the first accepting neighbour ahead, else the server, after none, stops at level 100; only a move removes neighbours, and only refused ones |
| `P2PClients.P2PNode.OnRequest` | source/p2pclient/src/p2pclient.cpp:312-327 | notes the asking client and answers with the own level |
| `P2PServers.ReachableGroupsRoundTrip` | source/p2pserver/src/p2pserver.cpp:78-120 | for every catalogue that can arise from users with addresses of four characters, reading the 'b' reply records exactly the members other than the one who asked, with level 1 as 101 |
| `P2PServers.NeighbourReplyRoundTrip` | source/p2pclient/src/p2pclient.cpp:264-275 | the same for any group of announced users, in whatever order it is visited |
| `P2PServers.RetNeighborIP` | source/p2pserver/src/p2pserver.cpp:102-120 | count and entries of the others in key order |
| `P2PServers.P2PServer.OnStringMessage` | source/p2pserver/src/p2pserver.cpp:41-76 | catalogue change, answer and shutdown for each message type; the neighbour list is sent exactly if the group has another member |
| `Messages.ReadsTrueIff` | source/p2pclient/src/p2pclient.cpp:276-284 | the level replies of a client are read as they were meant exactly if its address has four characters |
| `Messages.RequestReadBack` | source/p2pclient/src/p2pclient.cpp:220-222 | type, sender and level of a request are read back as meant |
| `UpdateProtocol.ReachableLevels` | source/p2pclient/src/p2pclient.cpp:76-87 | for every set of addresses that may join: in every reachable state levels lie in 1..100 and no client is further above level 1 than the number of server replies taken in, exactly if no fifth character of an address reads as a level above 1; and exactly then every reply in flight carries at most its sender's level |
| `UpdateProtocol.PortOfFiveDigits` | source/p2pclient/src/p2pclient.cpp:312-327 | a client at port 10000 lifts another to level 2 without the server |
| `UpdateProtocol.MisreadLevel` | source/p2pclient/src/p2pclient.cpp:276-284 | the same run for every address with such a character and every asking client |
| `UpdateProtocol.LevelsNeverDecrease` | source/p2pclient/src/p2pclient.cpp:76-87 | over every run of any clients no level falls, and none rises by more than the replies taken in |
| `UpdateProtocol.ServerLifts` | source/p2pserver/src/p2pserver.cpp:65-71 | over every run of any clients, a client that took in k replies of the server is k levels higher or at 100 |
| `UpdateProtocol.CanFinish` | source/p2pclient/src/p2pclient.cpp:210-244 | from every state any client can still reach level 100 by asking the server |
| `UpdateProtocol.AnswerIs` | source/p2pclient/src/p2pclient.cpp:312-327 | a request is answered by one reply to its sender, with level 100 or the answering client's, which notes who asked and at which level |
| `UpdateProtocol.PacketsConserved` | source/p2pserver/src/p2pserver.cpp:65-71 | over every run each question is in flight, as itself or as its answer, until taken in or lost |
| `UpdateProtocol.StepTables` | source/p2pclient/src/p2pclient.cpp:43-53 | a step changes the level and table of the one client it concerns, in the way its kind says |
| `UpdateProtocol.LevelsAreSafe` | source/p2pclient/src/p2pclient.cpp:259-290 | the invariant behind the bounds, over every run of clients without such an address |
| `UpdateProtocol.MaximumStep` | source/p2pserver/src/p2pserver.cpp:65-71 | among them the highest level rises only by taking in a reply of the server, and then by one |
| `UpdateProtocol.StepLevels` | source/p2pclient/src/p2pclient.cpp:276-284 | no step of any swarm lowers a level and only taking in a reply raises one, by at most one |
| `UpdateProtocol.HeardLevel` | source/p2pclient/src/p2pclient.cpp:276-284 | the exact effect of a level reply; a server reply lifts a client by one until 100 |

## Left out

- `TimerQueue` and `Timer`: `insert` stores nothing and `restart` does not reschedule, so nothing holds of them; timer expiry is a step of the environment.
- `SocketsOps`, `Socket`, `Acceptor`, `InetAddress`: wrappers over system calls, represented by their results; only the destructor order of `Acceptor` appears, in `RegisteredIdleFails`.
- `Thread`, `MutexLock`, `Condition`, `Singleton`, `AtomicIntegerT`, `EventLoopThread`: a critical section is one atomic step.
- `EventLoopThreadPool`: the io loop of a connection is an arbitrary pick.
- Cross-thread `send` and `shutdown`, destruction of a `TcpServer` with live connections, races on the static client fields.
- `TcpClient`: not a class of its own; its use of the connector is the discipline of the connector's runs.
- Connection names: identified with the value of `nextConnId_`; the 32-byte buffer of `snprintf` and the overflow of the counter are not modelled.
- Write-complete and high-water-mark callbacks, `findCRLF`, `retrieveUntil`, logging and time stamps.
- The `processMyself` reply has no level byte, so reading it is undefined and is not modelled; that it is sent is part of `OnStringMessage`. The logging call of `hasNeighbor` before an insertion is left out.
- `P2PServers.P2PServer.OnStringMessage`: messages of fewer than six characters are excluded, because the code reads character 6 without a check; of a string of six it reads the null character at the end.
- `P2PClients.P2PNode.OnRequest`: the same.
- `P2PClients.P2PNode.ProcessMessage`: messages shorter than what is read of them are excluded; the copy it reads is not constant, so that reading at its end is not defined either.
- `TcpConnections.TcpConnection.ConnectEstablished`: the connection callback and `tie` are not part of this class; the callbacks are the notes of `TcpServers.Lifecycle`.
- `TcpConnections.TcpConnection.HandleClose`: the same for its two callbacks.
- `Connectors.StopBeforeDispatch`: states the second close; what the poller does with the stale index of the second removal is undefined and not modelled.
- A descriptor number is not reused in the connector: sockets are numbered in the order of their creation.
- The effect of `changeServer` on the old `TcpClient`: only whether the address accepts.
- `EventLoops.EventLoop.DoPendingFunctors`: states the run without other threads; the interleaved one is the machine's, in `BatchIsTheSwappedQueue`.
