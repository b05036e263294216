# The link protocol, verified

A Dafny model of the link library: typed packets over a QUIC byte stream, the client that matches responses to
requests and reconnects, and the server that manages its connections and broadcasts to them.

**Framing.** `Bits` and `Packets` give the wire format bit by bit, as the derived codec reads and writes it: fields are
cut to their width on writing, an unknown packet type, command, message type or status is a parse error, a short input
is incomplete. `Codec` proves the format canonical, prefix-free and exact, `Layout` gives its frames byte by byte.
`SimpleBuf` is the two-index buffer over an array. `LinkRead` holds the parser and the read loop, `LinkReadProofs`
shows that they do what a one-shot parse of the whole stream does under every chunking, and `ReaderSpace` says when the
reader runs out of space. `LinkWrite` holds the sender, `LinkWriteProofs` its conservation laws. `LinkSystem` puts both
ends, the stream and the channels between them together as one step system and shows that it refines a FIFO queue of
packets; `LinkProgress` shows that it can always go on to deliver.

**Environment of the sender.** A QUIC stream delivers the bytes it accepted reliably and in order (section 2.2 of
RFC 9000) and may refuse more at any time (section 4 of RFC 9000). The list of its future answers is a parameter, so
statements hold for every schedule of partial writes. One axiom about it is used: after a refused write, further writes
are refused until the connection does something else (`recv`, `send`, `on_timeout`). It is the `done` flag of
`LinkWrite.Stream`, and `OvertakesIfRefusalEnds` shows why it is needed.

**Client.** `Client` is a step system of user calls, data loop, processing task and peer. Forwarding a request and
registering its waiter are separate steps, and so is each subscribe request after an auth response, so other tasks run
in between. A call that times out drops its receiver, and nothing takes its entry out of the pending map. The peer is
assumed to echo the id and command of a request it received, as often and in whatever order it likes. The processing
channel may be full at any time, since pushes and requests share it. `ClientTraffic` says over every run what is sent,
taken up and called back. `ClientProofs` has the invariant of the matching and its theorems, `ClientTask` the arms as
methods on shared fields with the loop that drives them, and the retry loop. Matching is right for runs in which each
connection epoch issues at most 2^24 ids and reconnects happen in quiet states: every caller in the pending map gone,
and nothing queued, held by a call or waiting to be processed. `ClientReconnect` proves that this condition is exact:
from any reachable state that is not quiet, a reconnect leads to some run that hands a waiting caller another request's
response. A stale entry does harm even so: `StaleEntryTakesAuth` shows that it can swallow on_connected.

**Server.** `Server` is a step system of connection loops, manager and callback loops; `ServerProofs`, `ServerTrace`,
`ServerMap` and `BroadcastProofs` show what every run keeps. The map is judged through the map it becomes once the
waiting signals are processed. `ServerTask` has the manager's loop and one connection's main loop, timeouts included,
as methods.

Statements that look natural but are false of the code appear as lemmas with a run or a state that shows it, most
beside the exact condition: `RoomIsNotEnough` (`SpaceFailureIff`), `FullReadAfterOneByteFails` (`FullReadFailsIff`),
`SenderRoomIsNotEnough` (`FrameOutcome`), `OvertakesIfRefusalEnds`, `StaleEntryTakesAuth` (`QuietIff`),
`SecondAuthLeaks` (`LeakIff`), `EarlyReuseLosesEntry` (`ListedIff`), `TwoNamesTwoCopies` (`NeverTwiceIff`) and
`NeverAuthenticatedNeverClosed` (`TimeoutIff`). The comment in link/src/server.rs:430 is followed by the code; the
comment in link/src/config.rs:8-10 asks for buffers of one packet plus one read, which the sizes handed out in
link/src/transport/transport.rs:178-196 do not guarantee.

## Model

| member | source | states |
|---|---|---|
| `Codec.RoundTrip` | link/src/packets.rs:177-280 | decoding an encoded packet with any bytes behind returns that packet and exactly those bytes, if and only if the packet is well-formed (2-bit reserved, 24-bit id, true 24-bit body length) |
| `Codec.ParsedIsWritten` | link/src/packets.rs:27-36 | the code is canonical: whatever decodes is well-formed and re-encodes to exactly the bytes consumed; the bit cursor is zero after every packet and `total_bytes` is the number of bytes read |
| `Codec.PrefixFree` | link/src/packets.rs:27-36 | no frame is a proper prefix of another frame |
| `Codec.HeaderAgreement` | link/src/packets.rs:310-366 | on every input the header reader and the packet reader agree: same verdict, same fields, and the body is read exactly when `need_bytes` bytes are there |
| `Codec.HeaderStable` | link/src/transport/link.rs:409-428 | more input never changes a header or a parse error already found |
| `Codec.ParsedStable` | link/src/transport/link.rs:431-437 | a packet already readable is read again, same value, whatever is appended |
| `Packets.ToBytes` | link/src/packets.rs:231-244 | the bytes are the packet's fields written bit by bit, and there are header size plus body length of them |
| `Packets.RequestIdTrim` | link/src/packets.rs:18-21 | the bit mask keeps the id modulo 2^24 |
| `RequestIds.ConstructedIsWellFormed` | link/src/packets.rs:79-88 | a constructed request is well-formed exactly when its body is shorter than 2^24 bytes |
| `RequestIds.ResponseIsWellFormed` | link/src/packets.rs:90-99 | a response to a request is well-formed exactly when the request's id and the body fit; heartbeat responses to received requests always are; both keep the id |
| `RequestIds.EchoKeepsId` | link/src/packets.rs:79-99 | a request arrives with exactly the command, body and trimmed counter value it was made with, and its response comes back with the same id and command and the status and body it was given |
| `Layout.FrameLayout` | link/src/packets.rs:167-280 | every packet is written as exactly these bytes: type, reserved bits and command in the first, the id and the body length in three bytes each, most significant first, the body behind |
| `Layout.CodesAreOrdinals` | link/src/packets.rs:209-308 | the codes of commands, message types and statuses are their places in the declared order, and no other code is read |
| `Layout.HeartbeatEcho` | link/src/packets.rs:139-164 | a heartbeat comes back as a successful heartbeat response with the id and the body that were sent |
| `RequestIds.IdsCollideIff` | link/src/client.rs:72-73 | two allocations get the same 24-bit id exactly when their distance is a multiple of 2^24, across the 32-bit wrap-around |
| `RequestIds.IdsDistinctInWindow` | link/src/client.rs:72-73 | any two allocations fewer than 2^24 apart have different ids |
| `SimpleBuffers.SimpleBuf.constructor` | link/src/simple_buf.rs:12-19 | a new buffer is empty with the given capacity |
| `SimpleBuffers.SimpleBuf.Len` | link/src/simple_buf.rs:27-29 | the number of occupied bytes |
| `SimpleBuffers.SimpleBuf.MaxLen` | link/src/simple_buf.rs:31-33 | capacity minus occupied bytes, wherever they lie |
| `SimpleBuffers.SimpleBuf.PushSlice` | link/src/simple_buf.rs:35-47 | appends the whole slice, or refuses and changes nothing exactly when the tail is too short |
| `SimpleBuffers.SimpleBuf.OccupiedSlice` | link/src/simple_buf.rs:53-55 | the occupied bytes |
| `SimpleBuffers.SimpleBuf.Reuse` | link/src/simple_buf.rs:57-62 | the in-place, possibly overlapping copy moves the occupied bytes to the front unchanged |
| `SimpleBuffers.SimpleBuf.ReuseIf` | link/src/simple_buf.rs:64-70 | compacts exactly when the tail is used up |
| `SimpleBuffers.SimpleBuf.Free` | link/src/simple_buf.rs:72-85 | drops exactly the first bytes, or refuses and changes nothing exactly when there are too few |
| `SimpleBuffers.BufferIsBoundedFifo` | link/src/simple_buf.rs:22-86 | after any operation sequence the content is the accepted bytes not yet freed, in order, and lies where the bytes freed since the last move leave it; a push is refused exactly when it would run over the end |
| `LinkRead.ParsePacketBuf` | link/src/transport/link.rs:399-465 | the loop with its running counts emits exactly the packets of the greedy reference parse, reports the bytes consumed and the next need size, and fails exactly when the rest can never parse; its second incomplete arm is unreachable |
| `LinkRead.ParseBuffered` | link/src/transport/link.rs:327-341 | parses the buffered bytes and frees exactly what was consumed |
| `LinkRead.ReceiveChunk` | link/src/transport/link.rs:308-348 | one received chunk: space check, compaction, push, gated parse, free, in terms of the buffer's value |
| `LinkRead.LinkReadLoop` | link/src/transport/link.rs:296-356 | the read loop over its chunks computes the reader state that the theorems below speak about |
| `LinkReadProofs.GreedyConcat` | link/src/transport/link.rs:408-464 | parsing may stop anywhere and resume on the leftover without losing or repeating anything |
| `LinkReadProofs.GreedyIsCanonical` | link/src/transport/link.rs:408-464 | the parsed packets re-encode to exactly the consumed bytes and what is left holds no complete packet |
| `LinkReadProofs.StreamRoundTripIff` | link/src/transport/link.rs:399-465 | the concatenated encodings of a packet list followed by a tail parse to exactly that list and leave that tail if and only if all packets are well-formed and the tail does not start with a packet |
| `LinkReadProofs.FramePrefixIncomplete` | link/src/transport/link.rs:418-424 | a proper prefix of a frame is incomplete, never an error |
| `LinkReadProofs.PrefixParse` | link/src/transport/link.rs:408-464 | parsing any prefix of a stream of frames gives a prefix of the packets and less than one frame left over |
| `LinkReadProofs.GateIsExact` | link/src/transport/link.rs:327-335 | below the need size nothing can be parsed, and once a header is known the need size is exactly its frame |
| `LinkReadProofs.NeedSizeStable` | link/src/transport/link.rs:304-335 | the remembered need size stays right while chunks arrive below it |
| `LinkReadProofs.ReaderTracksStream` | link/src/transport/link.rs:306-352 | after any chunks the reader stands where the one-shot parse of their concatenation stands: same packets, same leftover, right need size, and malformed input goes unnoticed only while fewer than 5 bytes are buffered |
| `LinkReadProofs.ChunkingInvariance` | link/src/transport/link.rs:306-352 | two cuts of one byte stream emit the same packets unless one run stopped for space; if only one has noticed malformed input, the other has fewer than the 5 bytes of a header buffered |
| `LinkReadProofs.ReaderEmitsPrefix` | link/src/transport/link.rs:306-352 | fed part of the encoding of a packet list the reader emits a prefix of it and never finds it malformed; fed all of it without a space failure, all of it |
| `ReaderSpace.SpaceFailureIff` | link/src/transport/link.rs:313-323 | a chunk is refused for room exactly when it is longer than the occupied bytes and does not fit beside them, and fails to be pushed exactly when it is no longer and does not fit behind the consumed front; nothing else changes |
| `ReaderSpace.ChunkPlaces` | link/src/transport/link.rs:313-342 | where the leftover lies after a chunk: compacted before it if the chunk is longer than what was buffered, and after it exactly if the chunk reached the end of the buffer |
| `ReaderSpace.TailNeverUsedUp` | link/src/transport/link.rs:342 | in every run, between chunks, either nothing consumed lies in front of the leftover or there is room behind it |
| `ReaderSpace.ReaderNeverRunsOut` | link/src/transport/link.rs:313-342 | frames up to f, chunks of non-decreasing length up to c and capacity f + c - 1: no run ever stops |
| `ReaderSpace.TwoChunksFit` | link/src/transport/link.rs:313-323 | a first chunk of k bytes inside a frame and a second of c >= k bytes are read without failure exactly when k + c bytes fit, so the bound above is tight |
| `ReaderSpace.FullReadFailsIff` | link/src/transport/transport.rs:178-196 | the transport uses one size for the stream read buffer and the packet buffer: in every run a full read is refused for space exactly when anything is left over |
| `ReaderSpace.FullReadAfterOneByteFails` | link/src/transport/transport.rs:178-196 | for instance, a first read of one byte and then a full read stop the reader on any stream longer than the buffer |
| `ReaderSpace.RoomIsNotEnough` | link/src/transport/link.rs:313-323 | a reachable state with capacity 10 in which pushing 2 bytes fails with 6 bytes free |
| `LinkWrite.QuicStream.Send` | link/src/transport/link.rs:246-260 | a write takes a non-empty prefix, is refused, or fails; once refused it stays refused until the connection moves (the environment axiom) |
| `LinkWrite.QuicSender.FlushBacklog` | link/src/transport/link.rs:214-230 | the loop over the backlog, as a function of the sender's state |
| `LinkWrite.QuicSender.SendDirectly` | link/src/transport/link.rs:244-262 | the loop over the new frame's bytes |
| `LinkWrite.QuicSender.MakeRoom` | link/src/transport/link.rs:232-242 | compacts for the frame, or finds it oversize |
| `LinkWrite.QuicSender.ParkUnsent` | link/src/transport/link.rs:264-280 | what the stream did not take of the frame goes behind the backlog |
| `LinkWrite.QuicSender.SendFrame` | link/src/transport/link.rs:208-286 | the whole arm on one frame |
| `LinkWrite.QuicSender.TickerTick` | link/src/transport/link.rs:159-197 | the ticker arm |
| `LinkWrite.QuicProcessLoop` | link/src/transport/link.rs:91-294 | the loop over any events and any answers of the stream computes the sender state that the theorems below speak about |
| `LinkWriteProofs.FlushConserves` | link/src/transport/link.rs:214-230 | flushing moves bytes from the head of the backlog to the stream and ends empty, refused or failed |
| `LinkWriteProofs.FlushEnds` | link/src/transport/link.rs:214-230 | flushing sends as much of the backlog as the stream takes before it first answers otherwise, uses no further answer, and fails exactly on an error |
| `LinkWriteProofs.DirectConserves` | link/src/transport/link.rs:244-262 | the direct path writes a prefix of the frame, nothing while the stream refuses, and ends with everything sent, refused or failed |
| `LinkWriteProofs.DirectEnds` | link/src/transport/link.rs:244-262 | it sends as much of the frame as the stream takes before it first answers otherwise, uses no further answer, and fails exactly on an error |
| `LinkWriteProofs.FrameOutcome` | link/src/transport/link.rs:232-280 | the exact fate of a frame: dropped whole iff too long for what the flush leaves, fatal without any byte sent iff it is no longer than the backlog and the tail is short, otherwise taken on; the second capacity check never fires; a backlog is left only if the stream refuses |
| `LinkWriteProofs.FrameTakenOn` | link/src/transport/link.rs:232-280 | how much of a frame that is taken on goes to the stream, by its answers, and what is left in the backlog and where it lies |
| `LinkWriteProofs.TickOutcome` | link/src/transport/link.rs:159-197 | a tick sends as much of the backlog as the stream takes, whatever the connection's timer says; the timer moves the connection |
| `LinkWriteProofs.NetworkEndsRefusal` | link/src/transport/link.rs:91-157 | once the network moves the connection, the next tick sends what the stream then takes |
| `LinkWriteProofs.ConnEndsForGood` | link/src/transport/link.rs:199-205 | once the connection has ended, nothing is sent, parked or taken on any more |
| `LinkWriteProofs.SenderConserves` | link/src/transport/link.rs:159-280 | in every reachable state the stream followed by the backlog is the accepted frames in order; after a stream error a prefix of them |
| `LinkWriteProofs.OvertakesIfRefusalEnds` | link/src/transport/link.rs:225-247 | without the axiom, in any state with a backlog, bytes of the new frame go to the stream ahead of it exactly when the stream takes any |
| `LinkWriteProofs.SenderRoomIsNotEnough` | link/src/transport/link.rs:264-280 | a run with capacity 10 after which a frame of 2 bytes is fatal with 6 bytes free |
| `LinkSystem.LinkWriteLoop` | link/src/transport/link.rs:358-397 | one frame per packet, in order; their concatenation is the encoding of the packets |
| `LinkSystem.EndToEnd` | link/src/transport/link.rs:208-397 | in every run of the whole link the packets out are a prefix of the packets taken on, which are the ones submitted by the steps minus the refused ones, in order |
| `LinkSystem.DrainedDeliversAll` | link/src/transport/link.rs:208-397 | drained without a failure, exactly the taken packets came out; with nothing refused or waiting, exactly the submitted ones |
| `LinkProgress.CanDeliverAll` | link/src/transport/link.rs:208-397 | from every reachable state without a failure, with frames that fit both buffers, an empty receive channel and a stream willing to take the rest, some steps deliver everything: nothing more is refused, and all taken and all waiting packets come out in order |
| `LinkSystem.StepRefinesFifo` | link/src/transport/link.rs:208-397 | every step of the link is a step of a FIFO queue: the packet whose frame is sent goes in at the tail, or packets go out from the head |
| `ClientTask.LinkClient.constructor` | link/src/client.rs:49-56 | the initial client: counter 1, nothing queued, nothing pending |
| `ClientProofs.OneTicketPerId` | link/src/client.rs:72-73 | within one epoch a 24-bit id belongs to one request |
| `ClientProofs.RegisterKeeps` | link/src/client.rs:313-323 | registering keeps the invariant and never pushes out a caller that still waits |
| `ClientProofs.StepKeeps` | link/src/client.rs:158-401 | every step of every task keeps the invariant: ids, queues, pending map and answers fit together |
| `ClientProofs.MatchingIsRight` | link/src/client.rs:167-188 | over every interleaving, with quiet reconnects and at most 2^24 ids per epoch, each answer that reached a waiting caller is to its own request and carries its id, never to an auth, heartbeat or subscribe request, and no waiter is answered twice |
| `ClientProofs.RegisteredBeforeLookup` | link/src/client.rs:307-328 | a response about to be looked up belongs to a request that already left the data loop; the lookup finds exactly its caller if that one is registered and still waits, else nobody who waits |
| `ClientReconnect.QuietIff` | link/src/client.rs:405-411 | in every run, when the data loop breaks, reconnecting is harmless if and only if the state is quiet: if every pending caller is gone and nothing is queued, held or unprocessed, no later run within 2^24 ids misleads a caller that waits, even if locks time out; otherwise one does, without any lock timeout (channel capacity positive) |
| `ClientReconnect.StaleEntryTakesAuth` | link/src/client.rs:167-188 | an entry left in the pending map across a reconnect with no response left to process: in some run of the next epoch it takes the auth response, so on_connected is not called, and a caller that still waits gets it as its own |
| `ClientTask.RunTasks` | link/src/client.rs:60-445 | all tasks, calls and the peer in any order, on the shared fields: requests made and sent, responses to callers, on_connected and on_response are what the steps say; with quiet reconnects each answer a waiter got is to its own request, and none is answered twice |
| `ClientTraffic.TrafficIsRight` | link/src/client.rs:158-401 | over every run, read off the steps: each epoch sends its auth request first, one heartbeat a tick, the subscriptions in order after each good auth, and user requests as queued; responses are taken up in order, a rejected auth and nothing else ends the epoch, what is kept is processed in order, and each response goes to its caller, to on_connected or to on_response as its lookup says |
| `ClientTraffic.CallbacksAreRight` | link/src/client.rs:178-187 | on_response never gets a heartbeat or an auth response |
| `ClientTask.RetryLoop` | link/src/client.rs:211-441 | at most `retry_times` attempts; retries are exhausted exactly when that many passes in a row lost the connection, with one Error event fewer and then DisconnectedForever; never with `retry_times` 0 |
| `ServerTask.ConnMgmtTask` | link/src/server.rs:162-223 | the manager loop: its map holds exactly the names whose last event was a New signal, each for that signal's connection; a close request tells the connection that has the name to exit; each packet goes to the connections in the map at that moment, once per name, in order |
| `ServerTask.PushToAll` | link/src/server.rs:214-220 | visiting the entries in any order pushes the packet to each connection once per name it is listed under |
| `ServerTask.ClientMainLoop` | link/src/server.rs:340-437 | one connection's loop: it runs on until the first event that ends it, which decides the way out; up to there, the names announced are those of the accepted auth requests, every heartbeat is answered, the Exit signal names the last auth request, accepted or not, and on_disconnect is called once exactly if one was accepted |
| `ServerTask.TimeoutIff` | link/src/server.rs:349-362 | a tick ends a running loop if and only if neither the start nor any packet lies within the timeout before it: the auth timeout while unauthenticated, the heartbeat timeout after |
| `ServerTask.LoopEndsIff` | link/src/server.rs:346-428 | which events end the loop, read off the trace alone: it still runs exactly if none did, and the first that did decides how it ended, under which name, and with which names announced and heartbeats answered |
| `ServerTask.NeverAuthenticatedNeverClosed` | link/src/server.rs:357 | packets alone keep an unauthenticated connection open for any length of time: a trace for every length |
| `ServerProofs.EntriesAreAuthenticated` | link/src/server.rs:197-206 | in every run an entry of `clients` is a connection at that address whose on_auth accepted that client name |
| `ServerProofs.DisconnectOnceIffAuthenticated` | link/src/server.rs:430-433 | on_disconnect is called once for each terminated connection that authenticated, with the client name of its last auth request, and for no other |
| `ServerProofs.FarewellIsKnownIff` | link/src/server.rs:392-432 | the client named to on_disconnect, who is the one of the last auth request even if rejected, was announced to the manager if and only if on_auth ever accepted that name on this connection |
| `ServerProofs.NoLeakWithOneAttempt` | link/src/server.rs:389-437 | with at most one auth request per connection, drained signals leave no entry of a terminated connection |
| `ServerTrace.TraceIsRight` | link/src/server.rs:166-437 | over every run, read off the steps: every connection goes by the name of its last auth request, signals reach the manager in the order sent, each close tells one listed connection to exit, and each broadcast sees the map of that moment |
| `ServerMap.ListedIff` | link/src/server.rs:166-206 | in every run, waiting signals processed: a connection is listed under a name exactly when its own New signal is the last signal sent about that name and the operator did not close the name since |
| `ServerMap.MapIsExact` | link/src/server.rs:166-206 | waiting signals processed, for the newest connection of an address that was never taken while an earlier connection there was alive: listed under a name exactly when it announced the name, did not close under it, and the operator did not close the name since |
| `ServerMap.LeakIff` | link/src/server.rs:393-435 | for such a connection, once terminated: it leaves no entry behind exactly when each name it announced is its last name or was closed by the operator since |
| `ServerMap.SecondAuthLeaks` | link/src/server.rs:387-435 | a second auth under another name, even a rejected one, leaves the first entry behind, and on_disconnect is told the rejected name |
| `ServerMap.EarlyReuseLosesEntry` | link/src/server.rs:435 | an address reused before the old connection sent its Exit signal loses the new connection's entry |
| `ServerMap.ClosedIsOut` | link/src/server.rs:174-189 | closing a client takes its name out of the map at once, and nothing else |
| `ServerProofs.NameTextUnique` | link/src/server.rs:393 | the printed name determines client name and address |
| `BroadcastProofs.OnSendInOrder` | link/src/server.rs:213-332 | on_send sees only packets broadcast while the client was in the map, in order; none twice if no broadcast found it under two names; the queue is the newest part, and a lag is reported exactly if something was lost; without lag exactly those packets, each as often as the client was listed |
| `BroadcastProofs.DrainedHandsAll` | link/src/server.rs:317-332 | in every run, as many turns of the callback loop as packets are queued, and one more after a lag, hand over everything queued; without lag on_send then got every packet broadcast while the client was listed |
| `BroadcastProofs.HangupIsFinal` | link/src/server.rs:280-334 | once the callback loop is gone nothing is queued or handed over any more |
| `BroadcastProofs.NeverTwiceIff` | link/src/server.rs:213-332 | while the callback loop is there, no packet is pushed twice to a client if and only if no broadcast found it under two names; without lag the same of what on_send saw and what is queued |
| `BroadcastProofs.OneNameIsOnceListed` | link/src/server.rs:197-220 | a connection that announced at most one name was never listed under two |
| `BroadcastProofs.PushOrders` | link/src/server.rs:317-332 | pushing a newer packet keeps the flow ordered whether or not the oldest is lost, and a loss is flagged as a lag |
| `BroadcastProofs.TwoNamesTwoCopies` | link/src/server.rs:214-220 | a run in which a connection authenticates under two names and gets the next packet twice |

## Left out

- quiche, TLS, UDP sockets, the handshake, connection ids, DNS, configuration, metrics and logging: only the abstract
  byte stream of a connection remains; errors of the connection are the `Broken` answer and the `ConnEnds` event.
- Prost bodies, `parse_quotation` and the conversions of responses: bodies are opaque byte strings; a body that does not
  decode is an input of the step that reads it.
- The receiver of parsed packets going away (link/src/transport/link.rs:447-452): it ends the reader like any error.
- User pushes and responses (`send_push`, `send_response`), and requests and pushes received by the client: they
  allocate no id and touch no waiter; all they do to the model is fill the processing channel (`Receive`).
- ClientTask.RetryLoop: the retry counter wraps as in a release build; the overflow panic of a debug build after 2^32
  attempts without a retry limit is not modelled.
- Client.Do: a data loop that waits for room in the processing channel is a step that is not enabled; user exit
  signals appear only in the retry loop.
- Server.Do: waiting for room in the signal channel is part of the `Announcing` and `Leaving` phases, and a connection's
  main loop may break at any time for any of its reasons; which reason is in `ServerTask.ClientMainLoop` only. Shutdown
  and the order of packets a server receives from one client under a full channel are not modelled.
- Liveness that rests on the scheduler's fairness: a select is a nondeterministic choice, and only safety is proved.
- `mint_token`, `validate_token`: unused.
