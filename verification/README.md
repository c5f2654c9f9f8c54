# The connector, verified

A Dafny model of the connector access server, its client SDK and the framework under both, with
proofs of what they promise.  `dafny verify dfyconfig.toml` checks everything.

The original is a C++ system in which game clients talk to a *connector* over length-prefixed
protobuf messages; the connector authenticates them, opens a session with one of several backend
servers, and then passes data both ways.  Six parts carry the difficulty, and each is modelled by
functions that say what one operation does, by classes and methods in the source's own imperative
form that are proved equal to those functions, and by lemmas about whole runs:

* **The wire codec** (`Varint`, `Codec`, `CodecLaws`, `CodecMachine`, `ClientMessages`).  The nine
  generated messages differ only in their field tables, so one schema-driven parser, writer, size
  and merge stands for all of them.  Proved: the round trip for every message no required field of
  which is missing at any depth, sizes at every nesting level, concatenation is merge, the exact inputs that can be read in
  two parts, and the jump from field to field with `ExpectTag` equals the plain tag loop.
* **Framing and socket buffers** (`Bytes`, `Framing`, `SocketBuffer`, `Transport`).  Whatever way the
  stream is cut into arrivals and callbacks, what is delivered is the frames that were sent, in
  order; the exact buffer size for which all are delivered; the client's two buffers are queues; the
  codec and the framing together make a connection a queue of messages.
* **Timers** (`Timers`).  The list merges arithmetic progressions, with none skipped, and the exact
  number of firings after which the queue has caught up with the clock.
* **The connection table** (`NetTable`).  The sweep visits every connection that stays once per
  round whatever comes and goes, and within ceil(n/1024)+1 calls; a call closes exactly the
  connections it visits that are overdue, and the rate limits bound what the others deliver.
* **Coroutines and asynchronous calls** (`Coroutines`, `EasyRpc`, `RpcSystem`).  Calls answered out
  of order, more than once or never still behave as direct calls, and none is lost or run twice.
* **The handshake** (`ClientProtocol`, `ConnectorSession`, `ConnectorApp`, `ConnectorRuns`,
  `HandshakeWorld`, `HandshakeConn`, `HandshakeBacks`, `Handshake`, `HandshakeDown`,
  `HandshakeProgress`).
  `ConnectorRuns` sets the connector against clients and backends that may send anything: when a
  session opens, and which backends are chosen.  The `Handshake` modules put any number of clients,
  connections (with their descriptors reused) and backends together over FIFO channels, with each
  client's send buffer apart from the wire and the connector's receive buffer of a given size:
  agreement, the absence of unexpected messages, order upstream and downstream, routing, and exactly
  when the handshake gets through.

What comes from outside is a parameter: how many bytes a send or a receive moved and what it
returned, the clock, where a hash map puts a new entry, the order of events.  Connections carry
their `nid` counted from the first front-end connection, a renaming of the shared counter.

## Where the code falls short of its promise

Each of these is kept as the code has it, with a lemma that shows it and the exact condition.

* `-1` means "no package yet" and "wrong or error body" in the client
  (`sdk/connector_client_api.h:21`): while it waits for its key it swallows any wrong answer, and it
  never notices an error message (`ClientProtocol.WrongAnswersAreSwallowed`,
  `ClientProtocol.WhenTheHandshakeFails`).
* `OnHandShakeSucceed` is guarded by a flag that lives as long as the process
  (`sdk/connector_client_api_imp.cpp:433`), so it is reported once for all clients together, resumed
  or not (`ClientProtocol.SuccessIsReportedOnce`).
* The only flush of the client's send buffer is the one that follows a push
  (`sdk/connector_client_api_imp.cpp:172`), and a send that would block is no error there.  A SYN or
  AUTH that is not sent whole stays in the buffer, and the answer the client waits for never comes
  (`HandshakeProgress.OneBlockedSendStalls`).  Without failures this, and a handshake message too
  big for the connector's receive buffer, are the only ways to hang
  (`HandshakeProgress.DeliveriesFinish`), and what hangs does so until it is resumed
  (`HandshakeProgress.HungForGood`).
* The client sends credentials of up to 2 MB, the connector's receive buffer holds 1 MB: the clients
  get through if and only if both handshake messages of each fit
  (`HandshakeProgress.HandshakesFinishExactlyWhenTheyFit`).
* The connector does not look at `bodyid` before STATE_OK.  A session becomes STATE_OK exactly when,
  with its SYN unanswered and the send of START_APP working, an accepted message of the client or a
  message of a backend that is not data reaches it; the backend has acknowledged it exactly when the
  message that did it is the ACK (`ConnectorRuns.BecomesOkExactlyWhen`,
  `ConnectorRuns.OkAndAcknowledged`; `ConnectorApp.ClientOpensUnacknowledged` and
  `ConnectorApp.FinOpensUnacknowledged` are the two ways past it).  The agreement proved in
  `Handshake` is for clients that push no data before they are DONE and backends that answer each SYN
  with one ACK first.
* A push the full send buffer refuses still uses up its sequence number, after which the connector
  rejects everything that client pushes on that connection; and pushes the buffer took are lost when
  a send fails or the client resumes before they went out (`Handshake.ForwardedInOrder`,
  `ClientProtocol.FailedSendIsNotNoticed`, `Handshake.LeftBehindForGood`).
* A frame larger than the receive buffer blocks its connection for good
  (`Framing.FrontFrameIsDelivered`, `Framing.EverythingFittingIsDelivered`).
* A submessage whose length runs past the end of the input is accepted with what there is
  (`ClientMessages.CutOffHeadIsAccepted`), so input can be read in two parts exactly when the first
  does not end inside one (`CodecLaws.ParseConcat`, `CodecLaws.CutOffInputDoesNotConcat`).
* When the header of a frame is written and its payload is not, the header stays and swallows what
  comes after it (`Framing.EasyNet.Send`, `Framing.StrayHeaderSwallows`).
* `GetNextActiveTimer` never compares with the clock, so the loop in `Tick()` ends only when there is
  no timer (`Timers.TickLoopStopsOnlyWhenEmpty`).
* A resume from inside a coroutine loses the outer one, unless it resumes nobody: the number is
  unknown or its own (`Coroutines.NestedResumeKeepsTheRunnerOnlyIdle`,
  `Coroutines.NestedResumeLosesTheRunner`).

## Model

| member | source | states |
|---|---|---|
| Bytes.BigEndianRoundTrip | framework/rapidapp_framework_imp.h:174-183 | a number written as a length field in network order is read back |
| Bytes.BigEndianOfOctets | framework/rapidapp_framework_imp.h:174-183 | and any octets are the length field of the number they are read as |
| Bytes.MostSignificantFirst | framework/rapidapp_framework_imp.h:174-183 | in network order the first octet is the most significant |
| Varint.RoundTrip64 | sdk/client.pb.cc:541-576 | every 64-bit value written as a varint is read back with its exact length, whatever octets follow |
| Varint.EncodeSize | sdk/client.pb.cc:541-576 | the size computed for a varint is the number of octets it takes |
| Varint.SignedRoundTrip | sdk/client.pb.cc:425-492 | int64 fields keep every value, int32 fields every 32-bit value, through the ten-octet two's complement form |
| Varint.LeastSignificantFirst | sdk/google/protobuf/io/coded_stream.h:92-105 | a varint is its number in groups of seven bits, the first the least significant, with the high bit set on all octets but the last |
| Varint.SizeIsSevenBitsAnOctet | sdk/google/protobuf/io/coded_stream.h:690-693 | a number takes at most k octets exactly when it has at most 7 k bits |
| Varint.TwosComplement | sdk/client.pb.cc:425-492 | signed fields travel as their remainder modulo 2^64, and are read as the number of their type equal to it modulo the type's width |
| Varint.NegativeTakesTen | sdk/google/protobuf/io/coded_stream.h:694-696 | every negative number takes ten octets |
| CodecLaws.SizeIsLength | sdk/client.pb.cc:2401-2464 | ByteSize is the number of octets serialization writes, for every message at every nesting level, tags included |
| CodecLaws.ParseConcat | sdk/client.pb.cc:2174-2291 | octets that parse on their own, and do not end inside a submessage, can be read first and the rest into the result, with the same outcome as reading all at once |
| CodecLaws.CutOffInputDoesNotConcat | sdk/google/protobuf/wire_format_lite_inl.h:394-410 | that condition is exact: after input that does end inside a submessage there are octets that can be read on their own into the result but not in one go |
| CodecLaws.TagFindsField | sdk/client.pb.cc:2174-2291 | every tag of a valid field table is a non-zero 32-bit number that leads to its own field and no other |
| CodecLaws.FieldRoundTrip | sdk/client.pb.cc:2343-2399 | one written field is read back into its own slot, merged with what was there, using exactly its octets |
| CodecLaws.ParseSerialized | sdk/client.pb.cc:2478-2504 | reading a serialized message into another one, whatever octets follow, merges it in as MergeFrom does, recursively through submessages, and goes on with what follows |
| CodecLaws.RoundTrip | sdk/client.pb.cc:2634-2754 | parsing a serialization fails exactly when some path of present submessages leads to a required field that is missing, and otherwise gives the same message back |
| CodecLaws.ParseRejects | sdk/client.pb.cc:2793-2803 | the same for any octets: ParseFromArray fails exactly when the tag loop does or leaves a required field missing at some depth |
| CodecLaws.InitializedExactly | sdk/client.pb.cc:2518-2532 | IsInitialized is false exactly when a path leads to a missing required field |
| CodecLaws.UnknownFieldIsSkipped | sdk/client.pb.cc:2174-2291 | a well-formed field of any wire type with a number the message does not have changes nothing, wherever it stands |
| CodecLaws.GroupsFail | sdk/client.pb.cc:2174-2291 | groups and wire types that do not exist end the parse as a failure |
| CodecLaws.ConcatenationIsMerge | sdk/client.pb.cc:2768-2779 | parsing one serialized message after another gives the first merged with the second |
| CodecLaws.MergeIntoEmpty | sdk/client.pb.cc:2768-2779 | merging a message into an empty one gives that message |
| CodecLaws.MergeAssociative | sdk/client.pb.cc:2478-2504 | merging is associative, in nested messages too |
| CodecLaws.SerializeInjective | sdk/client.pb.cc:2703-2724 | two different messages never share an encoding |
| CodecMachine.ComputeByteSize | sdk/client.pb.cc:2401-2464 | the running total over the present fields is the length of the serialization |
| CodecMachine.SerializeToArray | sdk/client.pb.cc:2703-2724 | the writer that advances through an array writes exactly the serialization at its place and touches nothing else |
| CodecMachine.SerializeToString | sdk/client.pb.cc:2703-2724 | into a buffer of ByteSize octets the writer produces exactly the serialization |
| CodecMachine.MergePartialFromCodedStream | sdk/client.pb.cc:2174-2291 | the loop that jumps to the next field when its tag follows gives, on every input, the result of reading tag by tag |
| CodecMachine.JumpIsLoop | sdk/google/protobuf/io/coded_stream.h:861-882 | a jump after ExpectTag leaves the reader where reading that tag and looking up its field would |
| CodecMachine.ExpectedTagIsRead | sdk/google/protobuf/io/coded_stream.h:861-882 | octets that match an expected tag are read as that tag |
| ClientMessages.SchemasAreValid | server/connector/client.proto:25-73 | the field tables of all nine messages have distinct positive field numbers within range |
| ClientMessages.BodyTags | sdk/client.pb.cc:2401-2464 | the fields numbered 16 and 100 have two-octet tags, the others one |
| ClientMessages.BuiltMessagesAreInitialized | sdk/client.pb.cc:2793-2803 | every message the two ends build has all its required fields |
| ClientMessages.MessageRoundTrip | sdk/client.pb.cc:2634-2754 | the receiver parses the very message the sender built, and its encoding is not empty |
| ClientMessages.OnTheWire | sdk/client.pb.cc:2343-2399 | octet by octet what each message of the two ends is on the wire: tags, lengths, numbers and their order |
| ClientMessages.TurnedDownExactlyWhen | sdk/client.pb.cc:618-622 | a protocol message is turned down exactly when the head, the body, one of the three fields of the head, or a required field of the body's syn, ack, auth or error is missing |
| ClientMessages.ToWireInjective | server/connector/client.proto:1-73 | different protocol messages are different on the wire |
| ClientMessages.CutOffHeadIsAccepted | sdk/google/protobuf/wire_format_lite_inl.h:394-410 | the two octets 10, 5 parse as a message with an empty head, of which five octets are still wanted |
| Framing.EasyNet.Send | framework/rapidapp_easy_net.cpp:136-177 | an established connection appends exactly one frame for a non-empty payload; any other state appends nothing and returns its own error; a failing write returns the send error and leaves nothing, or the bare header if it is the second |
| Framing.EasyNet.OnFrontEndMsg | framework/rapidapp_framework_imp.cpp:1066-1147 | the callback delivers the frames within its receive window in order, drains exactly their octets, and adds what it took to the packet and byte counters |
| Framing.HasFrameExactly | framework/rapidapp_framework_imp.cpp:1092-1111 | a frame is there exactly when its length field, as a signed number, is positive and no more than what has come; a field below 4 leaves a wrapped size |
| Framing.FrameReadsBack | framework/rapidapp_framework_imp.h:174-183 | a written frame at the front is recognised with its own length and delivered as its payload |
| Framing.PartialFrameWaits | framework/rapidapp_framework_imp.cpp:1099-1111 | a proper piece of a frame is never taken for a frame |
| Framing.CutsAtFrames | framework/rapidapp_framework_imp.cpp:1099-1141 | reading any first part of a written stream delivers exactly the payloads that are in whole, and uses exactly their octets |
| Framing.FragmentationIsHarmless | framework/rapidapp_framework_imp.cpp:1099-1141 | for every list of payloads, every split into arrivals, callbacks anywhere and every buffer size, delivered payloads are the first ones sent and, with the octets waiting, make up what arrived |
| Framing.CallbackEmptiesTheFront | framework/rapidapp_framework_imp.cpp:1099-1141 | if what waits fits the receive buffer, a callback leaves no complete frame at the front |
| Framing.FrontFrameIsDelivered | framework/rapidapp_framework_imp.cpp:1075-1111 | a complete frame at the front is delivered if it and a whole length field fit the receive buffer; otherwise callbacks change nothing ever again |
| Framing.EverythingFittingIsDelivered | framework/rapidapp_framework_imp.cpp:1099-1141 | with the stream in, one callback per payload delivers all before the first that outgrows the buffer, so all of them if and only if all fit |
| Framing.TrafficIsPayloadPlusHeaders | framework/rapidapp_framework_imp.cpp:1138-1144 | the octets drained for a list of payloads are their lengths plus four for each packet |
| Framing.StrayHeaderSwallows | framework/rapidapp_easy_net.cpp:159-172 | a header left without its payload makes the receiver deliver as many octets of what comes next as that payload |
| SocketBuffer.RingBuffer.Recycle | sdk/tsocket_util.cpp:228-234 | compaction moves the queued bytes to the front and changes none |
| SocketBuffer.TcpSocketUtil.Reset | sdk/tsocket_util.cpp:54-63 | a reset socket has empty buffers and a fresh account of its bytes |
| SocketBuffer.TcpSocketUtil.PushvToSendQ | sdk/tsocket_util.cpp:309-358 | either all pieces are appended in order or none is, and which is decided by the sum the first loop counts; bytes on the wire followed by queued bytes stay all bytes pushed |
| SocketBuffer.TcpSocketUtil.Send | sdk/tsocket_util.cpp:137-205 | for every partial or failed send, wired bytes grow by what was sent, nothing is lost or repeated, and state and code follow |
| SocketBuffer.TcpSocketUtil.Recv | sdk/tsocket_util.cpp:207-280 | for every partial or failed receive and every compaction, popped bytes followed by buffered bytes stay all bytes received |
| SocketBuffer.TcpSocketUtil.HasNewPkg | sdk/tsocket_util.cpp:360-377 | true exactly when a whole package is at the front |
| SocketBuffer.TcpSocketUtil.PeekFromRecvQ | sdk/tsocket_util.cpp:379-405 | gives the package at the front, or nothing while it is incomplete |
| SocketBuffer.TcpSocketUtil.PopFromRecvQ | sdk/tsocket_util.cpp:407-425 | takes exactly the package at the front |
| SocketBuffer.NextPackage | sdk/connector_client_api_imp.cpp:21-30 | a client that has popped k frames of a stream finds frame k as soon as, and only when, all of it is in |
| SocketBuffer.FullBufferHasPackage | sdk/tsocket_util.cpp:207-280 | a full receive buffer holds a complete frame if and only if that frame fits the buffer |
| Transport.MessagesArriveInOrder | framework/rapidapp_framework_imp.cpp:1066-1147 | however the stream is cut, the connector parses the first messages the client sent, in order, and nothing else |
| Transport.AllMessagesArrive | framework/rapidapp_framework_imp.cpp:1066-1147 | all messages get through if and only if every frame fits the receive buffer |
| Transport.FrontMessageGetsThrough | framework/rapidapp_framework_imp.cpp:1075-1111 | a message at the front of the input is taken if and only if its frame fits the receive buffer; otherwise callbacks change nothing |
| Transport.AllGetThrough | framework/rapidapp_framework_imp.cpp:1075-1141 | every message of a stream gets through by itself if and only if all frames fit |
| Transport.OnlyWholeMessagesArrive | framework/rapidapp_framework_imp.cpp:1099-1111 | a message of which not every octet has been sent is never delivered |
| Timers.TimerMgr.GetNextActiveTimer | framework/rapidapp_timer_mgr.cpp:48-67 | returns the first timer, stepped and put back behind all that are not later, and keeps the list sorted |
| Timers.TimerMgr.AddTimer | framework/rapidapp_timer_mgr.cpp:69-105 | refuses a zero gap or a full list; otherwise the new timer, one gap from now, is inserted in order |
| Timers.FindUpperBound | framework/rapidapp_timer_mgr.cpp:7-18 | the binary search finds the first place whose timer is strictly later |
| Timers.FireKeepsQueue | framework/rapidapp_timer_mgr.cpp:48-67 | firing keeps the list sorted, every timer in it once, and nothing earlier than the deadline just fired |
| Timers.DeadlinesNeverGoBack | framework/rapidapp_timer_mgr.cpp:48-67 | over any number of firings the deadlines are non-decreasing |
| Timers.TimerFiresItsProgression | framework/rapidapp_easy_timer.h:24-26 | each timer fires at s, s+p, s+2p, ..., none repeated, and its next deadline continues the series |
| Timers.NoDeadlineIsSkipped | framework/rapidapp_timer_mgr.cpp:48-67 | when a deadline has fired, every timer has fired at every earlier point of its series and at none later |
| Timers.ListOrderIsFiringOrder | framework/rapidapp_timer_mgr.cpp:48-67 | timers first fire in list order, so ties fire in the order they were put in |
| Timers.CatchingUp | framework/rapidapp_timer_mgr.cpp:48-67 | the head is due exactly while fewer firings have happened than deadlines were due |
| Timers.TickLoopStopsOnlyWhenEmpty | framework/rapidapp_framework_imp.cpp:874-886 | the loop in Tick ends if and only if there is no timer at all |
| NetTable.NetHandlerMgr.AddHandlerBySocket | framework/rapidapp_net_mgr.cpp:124-143 | a known descriptor is overwritten where it stands, a new one goes where the map puts it, the cursor stays on its entry, and the connection gets the next number |
| NetTable.NetHandlerMgr.RemoveHandlerByFd | framework/rapidapp_net_mgr.cpp:186-220 | the entry goes, and a cursor on it moves to the next |
| NetTable.NetHandlerMgr.GetHandlerByAsyncIds | framework/rapidapp_net_mgr.cpp:246-258 | finds a connection only if both descriptor and number are its own |
| NetTable.NetHandlerMgr.WalkThrough | framework/rapidapp_net_mgr.cpp:261-296 | visits up to 1024 entries from the cursor, removes those the visit closes, and starts over at the end |
| NetTable.NetHandlerMgr.VisitOne | framework/rapidapp_framework_imp.cpp:1596-1646 | one visit is DoSomething on the entry at the cursor, which is erased or passed |
| NetTable.VisitsCloseOnlyOverdue | framework/rapidapp_framework_imp.cpp:1596-1646 | after any history a visit takes a connection out exactly when it has been silent for longer than a positive limit, or has delivered more packets or octets since its last visit than a positive limit; otherwise it restarts the counters of the limits that are on, and nothing else changes |
| NetTable.WalkClosesExactly | framework/rapidapp_net_mgr.cpp:261-296 | after any history a call takes a connection out exactly when it is overdue and among the next 1024 from the cursor |
| NetTable.WithinLimitsStays | framework/rapidapp_framework_imp.cpp:1596-1646 | after any history, for any further one, a connection no call finds overdue is never taken out by a call, whatever happens to the others |
| NetTable.OverdueIsClosed | framework/rapidapp_framework_imp.cpp:1596-1646 | one that every call finds overdue is out within ceil(n/1024)+1 calls |
| NetTable.NetHandlerMgr.CountTraffic | framework/rapidapp_framework_imp.cpp:1099-1147 | what a callback delivers and drains is added to the counters of its connection and to no other |
| NetTable.FeedExactly | framework/rapidapp_framework_imp.cpp:1138-1144 | traffic on a descriptor adds to the counters and the clock of the connection on it, and of no other |
| NetTable.RemoveExactly | framework/rapidapp_net_mgr.cpp:186-220 | a removal takes out the connection on that descriptor and no other |
| NetTable.AddExactly | framework/rapidapp_net_mgr.cpp:124-143 | a connect puts a connection with the next number and nothing counted on its descriptor, in place of the one that was there |
| NetTable.RunKeepsFds | framework/rapidapp_net_mgr.cpp:124-143 | whatever happens, no descriptor is in the table twice |
| NetTable.SweepVisitsEachOnce | framework/rapidapp_net_mgr.cpp:261-296 | after any history of connects, removals, traffic and calls, closures for speed among them, when a sweep ends every connection there throughout was visited in it exactly once |
| NetTable.EveryoneIsVisited | framework/rapidapp_net_mgr.cpp:261-296 | without insertions every connection not removed is visited in the course of the next ceil(n/1024)+1 calls, from any cursor and whatever else is removed or comes in |
| NetTable.CallsToBound | framework/rapidapp_net_mgr.cpp:261-296 | the number of calls until an entry is reached is at most ceil(n/1024)+1 |
| NetTable.RateBound | framework/rapidapp_framework_imp.cpp:1596-1646 | after any history from an empty table, a connection that survived k visits had delivered at most k times each limit that is on by the last of them, and that limit's counter is what it has delivered since |
| NetTable.ByteCounterIsPayloadPlusHeaders | framework/rapidapp_framework_imp.cpp:1138-1144 | when all that comes in is written frames, cut anywhere, a connection's byte counter is the payload delivered since its last visit plus four per packet |
| NetTable.DrainedIsPayloadPlusHeaders | framework/rapidapp_framework_imp.cpp:1099-1144 | what a callback drains of a written stream is the payloads it delivers and four octets for each |
| Coroutines.CoroutineScheduler.CreateCoroutine | coroutine/mc_coroutine.cpp:35-63 | a full table refuses; otherwise the next number, never used before, is ready |
| Coroutines.CoroutineScheduler.DestroyCoroutine | coroutine/mc_coroutine.cpp:65-80 | removes that coroutine and no other |
| Coroutines.CoroutineScheduler.YieldCoroutine | coroutine/mc_coroutine.cpp:82-106 | suspends the running coroutine, and does nothing in the main context |
| Coroutines.CoroutineScheduler.ScheduleFunctionEnd | coroutine/mc_coroutine.cpp:108-125 | the running coroutine becomes DONE and nothing runs |
| Coroutines.CoroutineScheduler.ResumeBegin | coroutine/mc_coroutine.cpp:127-170 | a ready or suspended coroutine takes over; an unknown or running one changes nothing; assert(0) is not reached |
| Coroutines.CoroutineScheduler.ResumeEnd | coroutine/mc_coroutine.cpp:170-180 | after the switch back a finished coroutine is destroyed |
| Coroutines.CoroutineScheduler.CoroutineBeenAlive | coroutine/mc_coroutine.cpp:182-197 | true exactly for a known coroutine that is not DONE |
| Coroutines.CreateKeepsMain | coroutine/mc_coroutine.cpp:35-63 | a number is given that is in no table, and the table stays within its limit |
| Coroutines.SwitchInRuns | coroutine/mc_coroutine.cpp:127-170 | from the main context a known coroutine always takes over and is then the only one running |
| Coroutines.RunsStayInMain | coroutine/mc_coroutine.cpp:35-180 | over any run, whatever coroutines create and destroy while they run and short of nested resumes: in the main context none runs or is DONE, running_cid_ is -1, the table is within its limit, and numbers are never reused |
| Coroutines.SegmentKeepsRunning | coroutine/mc_coroutine.cpp:35-80 | what a running coroutine creates and destroys keeps it the one that runs, and gives only new numbers |
| Coroutines.NestedResumeKeepsTheRunnerOnlyIdle | coroutine/mc_coroutine.cpp:127-180 | a resume from inside a coroutine, followed by the other's yield or end, leaves it the running one if and only if the other is unknown or itself |
| Coroutines.NestedResumeLosesTheRunner | coroutine/mc_coroutine.cpp:82-180 | otherwise it still counts as running while running_cid_ is -1, and its own yield does nothing |
| EasyRpc.EasyRpc.RpcCall | framework/rapidapp_easy_rpc.cpp:158-229 | either nothing changes and -1 is returned, or the call waits, listed under the very async id its request went out with |
| EasyRpc.AcceptedCallIsListed | framework/rapidapp_easy_rpc.cpp:186-229 | a call is accepted exactly when the scheduler has room; then the request that goes out is the caller's under the id of the pair just listed, and that pair's new coroutine waits; otherwise nothing changes |
| EasyRpc.EasyRpc.Resume | framework/rapidapp_easy_rpc.cpp:231-324 | wakes the coroutine listed under the reply's id, runs its callback with the status and response the reply carries, and unlists it; an unreadable buffer changes nothing |
| EasyRpc.EasyRpc.GetCoroutineIdxByAsyncId | framework/rapidapp_easy_rpc.cpp:282-294 | the scan finds the first pair with the id, or -1 |
| EasyRpc.EasyRpc.RemoveByCoroutineId | framework/rapidapp_easy_rpc.cpp:269-280 | removes the first pair with that coroutine and nothing else |
| EasyRpc.EasyRpc.CleanUp | framework/rapidapp_easy_rpc.cpp:133-142 | destroys exactly the coroutines listed |
| EasyRpc.EasyRpcClosure.Set | framework/rapidapp_easy_rpc.cpp:15-31 | takes all three parts or, if one is missing, none |
| EasyRpc.EasyRpcClosure.Done | framework/rapidapp_easy_rpc.cpp:33-61 | sends one response under the call's id, and can send nothing again |
| EasyRpc.EasyRpcClosure.Cancel | framework/rapidapp_easy_rpc.cpp:63-90 | sends one error under the call's id, and can send nothing again |
| RpcSystem.CallbacksRefineDirectCalls | framework/rapidapp_easy_rpc.cpp:158-324 | for every interleaving, each callback runs at most once, for an accepted call, with the server's value for its own request, or with -1 exactly when its reply is an error or does not parse |
| RpcSystem.AwaitedArrives | framework/rapidapp_easy_rpc.cpp:296-324 | a reply to a waiting call runs that call's callback, once, and no other call is affected |
| RpcSystem.AnswerComesHome | framework/rapidapp_easy_rpc.cpp:205-324 | in every state the server's answer to a request under way whose call still waits runs that call's callback, with the value for the request it was made with, or with -1 if it was cancelled or garbled |
| RpcSystem.CallReturns | framework/rapidapp_easy_rpc.cpp:158-324 | a call, its request served, its reply back: the callback gets the function of the caller's own argument |
| RpcSystem.UnawaitedIsIgnored | framework/rapidapp_easy_rpc.cpp:296-324 | a message no call of the stub waits for changes nothing |
| RpcSystem.DuplicatesChangeNothing | framework/rapidapp_framework_imp.cpp:1244-1261 | once a reply has been taken, any message with its id at any later time leaves the whole system as it is |
| RpcSystem.CallsAreConserved | framework/rapidapp_easy_rpc.cpp:186-200 | accepted calls are callbacks run plus calls waiting plus calls dropped with their stub; the waiting coroutines are suspended and divided among the stubs, under distinct ids below the seed |
| RpcSystem.CallKeeps | framework/rapidapp_easy_rpc.cpp:158-201 | a call is accepted exactly when the scheduler has room, waits under the id its request carries, and every invariant survives it |
| RpcSystem.DestroyKeeps | framework/rapidapp_easy_rpc.cpp:133-142 | destroying a stub takes away its own waiting calls and no others |
| ClientProtocol.ConnectorClientProtocolImp.SocketSend | sdk/tsocket_util.cpp:137-205 | the messages that leave the send buffer are the front of it, the rest stay, and state and code follow the send; in no state but those of a live socket does anything leave |
| ClientProtocol.ConnectorClientProtocolImp.SocketRecv | sdk/tsocket_util.cpp:207-280 | what came in joins the receive buffer, and state and code follow the recv |
| ClientProtocol.ConnectorClientProtocolImp.SocketClose | sdk/tsocket_util.cpp:125-135 | both buffers are emptied and the socket is as new |
| ClientProtocol.ConnectorClientProtocolImp.Connect | sdk/connector_client_api_imp.cpp:68-81 | waits for the connection if dialling worked, changes nothing otherwise |
| ClientProtocol.ConnectorClientProtocolImp.CheckConnect | sdk/tsocket_util.cpp:81-102 | connected, still pending, or closed again; without a descriptor an assertion failure |
| ClientProtocol.ConnectorClientProtocolImp.SerializeAndSendToPeer | sdk/connector_client_api_imp.cpp:155-181 | a refused push queues nothing; a message taken stays queued behind what is unsent even if the send then fails; a partial send is no failure |
| ClientProtocol.ConnectorClientProtocolImp.TryToRecvFromPeerAndParse | sdk/connector_client_api_imp.cpp:183-235 | takes one whole message if there is one, and answers -1 both for none and for an error message |
| ClientProtocol.ConnectorClientProtocolImp.HandShake_SYN | sdk/connector_client_api_imp.cpp:238-258 | queues a SYN under the next number, which is used up either way, and moves on only if the send worked |
| ClientProtocol.ConnectorClientProtocolImp.HandShake_TRY_ACK | sdk/connector_client_api_imp.cpp:261-285 | takes the key out of a SYNACK and refuses anything else |
| ClientProtocol.ConnectorClientProtocolImp.HandShake_AUTH | sdk/connector_client_api_imp.cpp:288-307 | queues the authentication under the next number |
| ClientProtocol.ConnectorClientProtocolImp.HandShake_TRY_READY | sdk/connector_client_api_imp.cpp:310-337 | takes the passport, goes on waiting on -1, refuses another body |
| ClientProtocol.ConnectorClientProtocolImp.HandShake_TRY_DONE | sdk/connector_client_api_imp.cpp:340-366 | becomes DONE on START_APP, goes on waiting on -1, refuses another body |
| ClientProtocol.ConnectorClientProtocolImp.DriveState | sdk/connector_client_api_imp.cpp:377-463 | the switch over the session state: one step of each, with its code, what was queued and what went out |
| ClientProtocol.ConnectorClientProtocolImp.Update | sdk/connector_client_api_imp.cpp:369-482 | one step of the client's state machine in every state: new state, messages queued and messages on the wire, events raised and code |
| ClientProtocol.ConnectorClientProtocolImp.PushMessage | sdk/connector_client_api_imp.cpp:485-508 | data goes out, behind what is unsent, under the next number, which is used up even when the buffer refuses it |
| ClientProtocol.ConnectorClientProtocolImp.PeekMessage | sdk/connector_client_api_imp.cpp:511-555 | shows the data at the front without taking it |
| ClientProtocol.ConnectorClientProtocolImp.PopMessage | sdk/connector_client_api_imp.cpp:557-575 | takes the message at the front |
| ClientProtocol.ConnectorClientProtocolImp.Resume | sdk/connector_client_api_imp.cpp:133-153 | drops both buffers and connects again, with the sequence number going on |
| ClientProtocol.ConnectorClientProtocolImp.Terminate | sdk/connector_client_api_imp.cpp:124-130 | closes the socket and ends the session |
| ClientProtocol.SendReports | sdk/tsocket_util.cpp:137-205 | exactly when a send fails the socket, is left uncompleted, or is refused, and how much of the buffer goes |
| ClientProtocol.RecvReports | sdk/tsocket_util.cpp:207-280 | exactly when a receive fails the socket or finds the peer gone, and what it brings |
| ClientProtocol.PushReports | sdk/connector_client_api_imp.cpp:485-508 | exactly when a push is reported as done, and that one the buffer took stays queued either way |
| ClientProtocol.EventsExactly | sdk/connector_client_api_imp.cpp:430-482 | exactly when the listener hears of a failed handshake, a closed peer or incoming data, never of two at once |
| ClientProtocol.BusyExactly | sdk/connector_client_api_imp.cpp:369-482 | an Update that does not fail returns 1 exactly when it sent a handshake message or had something to tell, and 0 otherwise |
| ClientProtocol.KeyIsTaken | sdk/connector_client_api_imp.cpp:261-285 | the key comes from the SYNACK at the front, and nothing else lets the client go on |
| ClientProtocol.PassportIsTaken | sdk/connector_client_api_imp.cpp:310-337 | the passport comes from the PASSPORT at the front, with which the client goes on |
| ClientProtocol.StartIsTaken | sdk/connector_client_api_imp.cpp:340-366 | the client becomes DONE exactly with a START_APP at the front |
| ClientProtocol.NumbersNeverRepeat | sdk/connector_client_api_imp.cpp:155-181 | whatever is called, resumes included, the messages the buffer takes carry ever larger numbers |
| ClientProtocol.ResumeStartsOver | sdk/connector_client_api_imp.cpp:133-153 | a resume empties both buffers, keeps the number, and connects if dialling works |
| ClientProtocol.TerminatedIsSilent | sdk/connector_client_api_imp.cpp:88-130 | after Terminate no Update does anything, and no push sends anything |
| ClientProtocol.QueueInOrder | sdk/connector_client_api_imp.cpp:155-181 | for every outcome of push and send, what was unsent followed by what was taken is what went out followed by what is unsent |
| ClientProtocol.SendStepQueues | sdk/connector_client_api_imp.cpp:238-307 | the two handshake sends keep that order, use up a number, and leave the socket connected when they succeed |
| ClientProtocol.UpdateNeverFlushes | sdk/connector_client_api_imp.cpp:369-482 | an Update with nothing received leaves state, send buffer and wire as they are, so what a blocked send left never leaves by waiting |
| ClientProtocol.FailedSendIsNotNoticed | sdk/tsocket_util.cpp:137-160 | after a failed send all pushes the buffer takes succeed and nothing more goes out |
| ClientProtocol.WrongAnswersAreSwallowed | sdk/connector_client_api_imp.cpp:402-416 | waiting for its key the client takes a wrong or error body out of the buffer and goes on waiting |
| ClientProtocol.WhenTheHandshakeFails | sdk/connector_client_api_imp.cpp:369-482 | exactly when an Update of the handshake fails: a socket error, a wrong body except in KEY_SYNING, or a failed send of the authentication; an error message never |
| ClientProtocol.SuccessIsReportedOnce | sdk/connector_client_api_imp.cpp:430-455 | over any calls on any clients of a process, success is reported at most once |
| ClientProtocol.SuccessOf | sdk/connector_client_api_imp.cpp:430-455 | one Update reports success precisely in DONE with the flag not yet set |
| ConnectorSession.ChoicesRotate | server/connector/connector_session.cpp:263-282 | with n backends the choice i turns after position pos is pos + i mod n, in bounds |
| ConnectorSession.BackendsAreBalanced | server/connector/connector_session.cpp:325-343 | in any number of successive choices any two backends come equally often, give or take one |
| ConnectorSession.BackEndSet.AddBackEnd | server/connector/connector_session.cpp:11-20 | the new backend goes behind the others; a full array refuses it |
| ConnectorSession.BackEndSet.Next | server/connector/connector_session.cpp:263-282 | takes the backend at the position, which wraps to the start, and moves past it |
| ConnectorSession.AcceptedAreConsecutive | server/connector/connector_session.cpp:138-155 | for every incoming list of 64-bit numbers other than zero, negative ones included, those accepted are s, s+1, ..., s+m |
| ConnectorSession.LastAdvances | server/connector/connector_session.cpp:138-155 | on such a list the filter stands exactly as many numbers further on as it let through |
| ConnectorSession.ConnectorSession.CheckUpSideMessage | server/connector/connector_session.cpp:138-155 | accepts the right magic with the first or the next number, and then only moves last_seq_ |
| ConnectorSession.ConnectorSession.DriveStateMachine | server/connector/connector_session.cpp:49-81 | one step of the session: the reply or SYN of its state, and the next state only if the send worked |
| ConnectorSession.ConnectorSession.SerializeAndSendToFrontEnd | server/connector/connector_session.cpp:157-174 | a failed send destroys the connection |
| ConnectorSession.ConnectorSession.HandleKeyMaking | server/connector/connector_session.cpp:287-304 | answers with SYNACK and waits for authentication |
| ConnectorSession.ConnectorSession.HandleAuthRequest | server/connector/connector_session.cpp:306-323 | answers with PASSPORT |
| ConnectorSession.ConnectorSession.HandShakeStartSession | server/connector/connector_session.cpp:325-343 | sends a SYN stamped with the session's own (fd, nid, sid) to the next backend |
| ConnectorSession.ConnectorSession.HandShakeOnStartAcked | server/connector/connector_session.cpp:345-362 | answers with START_APP and opens the session |
| ConnectorSession.ConnectorSession.ForwardUpSideMessage | server/connector/connector_session.cpp:84-104 | sends the payload with its sequence number and the session's tuple to the next backend |
| ConnectorSession.ConnectorSession.ForwardDownSideMessage | server/connector/connector_session.cpp:107-136 | sends a non-empty payload down unchanged |
| ConnectorApp.ConnectorApp.OnRecvFrontEnd | server/connector/connector_app.cpp:219-284 | checks, then drives the handshake, one step further straight after authentication, or forwards data; a failed step destroys the connection |
| ConnectorApp.ConnectorApp.OnRecvBackEnd | server/connector/connector_app.cpp:286-361 | an unknown session drops the message; otherwise it drives the session and sets its sid, or forwards data, or destroys the connection |
| ConnectorApp.RejectedChangesNothing | server/connector/connector_app.cpp:240-244 | a rejected message leaves session, position and outside untouched, an accepted one sets last_seq_ to its number, and which is which is decided by magic and number alone |
| ConnectorApp.DataGoesDownOnlyWhenOk | server/connector/connector_app.cpp:329-359 | data goes down exactly for non-empty data that meets STATE_OK under the session's own sid |
| ConnectorApp.DataGoesUpOnlyWhenOk | server/connector/connector_app.cpp:240-283 | data goes to a backend exactly for a DATA_TRANSPARENT message with the right magic and the next number in STATE_OK, and then carries its payload, number and the session's tuple |
| ConnectorApp.OthersAreOnlyCounted | server/connector/connector_app.cpp:271-279 | any other message that passes in STATE_OK only moves the filter: no effect, position as it was, code -1 |
| ConnectorApp.RepliesGoDown | server/connector/connector_app.cpp:240-269 | before STATE_OK a message that passes is answered with exactly the reply its state owes |
| ConnectorApp.SynGoesUpOnlyWhenStarting | server/connector/connector_app.cpp:255-269 | a SYN with the session's tuple goes to the next backend exactly right after the PASSPORT or when an earlier one had failed |
| ConnectorApp.FrontDestroysExactlyWhen | server/connector/connector_app.cpp:246-269 | a client's message destroys its connection exactly when the reply or the SYN it brings about cannot be sent |
| ConnectorApp.BackDestroysExactlyWhen | server/connector/connector_app.cpp:306-359 | a backend's does so exactly when its data meets another state or sid, when it is a FIN in STATE_OK, or when what it brings about cannot be sent |
| ConnectorApp.HandshakeStates | server/connector/connector_app.cpp:240-269 | the state a client's message leaves behind, in every state and for every outcome of the sends |
| ConnectorApp.BackDrives | server/connector/connector_app.cpp:306-327 | a backend's message that is not data brings about exactly the reply or the SYN of the session's state |
| ConnectorApp.BackStates | server/connector/connector_app.cpp:306-327 | and the session takes its session id exactly when that worked |
| ConnectorApp.ClientOpensUnacknowledged | server/connector/connector_app.cpp:246-269 | any accepted message of the client opens a session whose SYN is unanswered |
| ConnectorApp.FinOpensUnacknowledged | server/connector/connector_app.cpp:306-327 | so does a FIN, or any other message of the backend that is not data |
| ConnectorApp.FrontPicks | server/connector/connector_app.cpp:219-284 | a client's message turns to the next backend once, or to none |
| ConnectorApp.BackPicks | server/connector/connector_app.cpp:286-361 | so does a backend's message |
| ConnectorRuns.BecomesOkExactlyWhen | server/connector/connector_app.cpp:240-361 | whatever arrives, a session is in STATE_OK afterwards if and only if it was, or its SYN was unanswered, START_APP went down, and what came was an accepted message of the client or a backend's that is not data |
| ConnectorRuns.OkExactlyWhenOpened | server/connector/connector_session.cpp:49-81 | over any messages a session gets, it ends in STATE_OK if and only if one of them opened it, and was acknowledged if and only if that one is the ACK |
| ConnectorRuns.OkAndAcknowledged | server/connector/connector_app.cpp:219-361 | the same for every session of a connector among any clients, backends, accepts and closes: STATE_OK implies the acknowledgement exactly for those an ACK opened |
| ConnectorRuns.BackendsRotate | server/connector/connector_session.cpp:263-282 | over all handshakes and data of all sessions, whatever is sent, the k-th backend turned to is k mod n, and any two are used equally often, give or take one |
| HandshakeConn.FrontKeeps | server/connector/connector_app.cpp:219-284 | taking a client's message keeps the connection's invariant, sends at most one stamped message to a backend in bounds, and sends down only what the client expects next |
| HandshakeConn.AckKeeps | server/connector/connector_session.cpp:345-362 | the ACK is what the session waits for, and opens it under the backend's session id |
| HandshakeConn.OpenedKeeps | server/connector/connector_app.cpp:329-359 | in an open session exactly the non-empty data goes down, unchanged, and a FIN, and only a FIN, destroys the connection |
| HandshakeConn.UpdateKeeps | sdk/connector_client_api_imp.cpp:369-482 | an Update keeps client, send buffer and connection in step in every state and for every behaviour of the socket |
| HandshakeConn.PushKeeps | sdk/connector_client_api_imp.cpp:485-508 | a push, taken or refused, sent or left in the buffer, keeps forwarded and coming payloads, unsent ones included, equal to the pushes before the first refused |
| HandshakeBacks.AckTaken | server/connector/server_api/connector_server_api.cpp:92-110 | the next message about a session still waiting is its ACK and nothing else |
| HandshakeBacks.AnswerKeeps | server/connector/server_api/connector_server_api.cpp:92-110 | one ACK per SYN keeps both channels in order |
| Handshake.StepKeeps | server/connector/connector_app.cpp:157-361 | every step of any client, connection or backend keeps the invariant of the whole system |
| Handshake.DoneMeansAgreed | server/connector/connector_session.cpp:49-81 | in every reachable state a DONE client's session was acknowledged by its backend, and is in STATE_OK under that session id unless its connection has been closed |
| Handshake.OnlyTheNetworkFails | sdk/connector_client_api_imp.cpp:261-366 | a client never meets an unexpected body and never data before START_APP, so Updates fail only when the socket does |
| Handshake.ForwardedInOrder | server/connector/connector_session.cpp:84-104 | forwarded payloads are a prefix, in order, without gap or repeat, of those pushed on the connection, Resume included; once an open session has taken all that was sent they are all of them if and only if no push was refused and none is left unsent |
| Handshake.LeftBehindForGood | sdk/connector_client_api_imp.cpp:133-153 | what a resumed client left unsent on its old connection never leaves, whatever happens later |
| HandshakeDown.ReadInOrder | sdk/connector_client_api_imp.cpp:511-575 | over every run what a client's application has peeked and popped, followed by what is in its buffer or on the way, is exactly the non-empty data given to its session to send down, in order, none lost, none twice |
| HandshakeDown.NextIsShown | sdk/connector_client_api_imp.cpp:511-575 | what a DONE client is shown next is the next payload given, and a pop takes that one |
| Handshake.RefusedPushesCut | sdk/connector_client_api_imp.cpp:485-508 | the pushes before the first refusal are all pushes if and only if none was refused |
| Handshake.MessagesReachTheirOwnSession | framework/rapidapp_net_mgr.cpp:246-258 | over any history of connects and closes a backend's message reaches the connection it was stamped for or nothing, even if the descriptor has been reused |
| Handshake.HeadFitsItsSession | server/connector/connector_app.cpp:306-359 | a backend's message meets its session in the state it is meant for and under the right sid |
| Handshake.RunKeepsNames | framework/rapidapp_easy_net.cpp:9-12 | a connection keeps descriptor, number and owner for good, and a closed one never opens again |
| Handshake.BackendsTakeTurns | server/connector/connector_session.cpp:263-282 | in every run the k-th backend turned to, over all handshakes and data of all sessions, is k mod n, in bounds, and any two are used equally often, give or take one |
| HandshakeProgress.DeliveriesDecrease | server/connector/connector_session.cpp:287-362 | every message delivered and every productive poll, in DONE too, strictly decreases a measure over states, buffers and channels |
| HandshakeProgress.NothingElseIsStuck | server/connector/connector_app.cpp:246-269 | while nothing has failed and some client is neither DONE nor waiting behind a handshake message that is unsent or too big, something can be delivered |
| HandshakeProgress.DeliveriesFinish | sdk/connector_client_api_imp.cpp:382-453 | from any state without failures no run of deliveries is longer than the measure, and when one cannot go on each client is DONE if and only if it has no such message |
| HandshakeProgress.HungForGood | sdk/connector_client_api_imp.cpp:155-181 | whatever happens later short of its own Resume, a client with such a message never becomes DONE |
| HandshakeProgress.OneBlockedSendStalls | sdk/connector_client_api_imp.cpp:170-178 | one client whose SYN is not sent at once: no failure anywhere, nothing can be delivered, and it hangs |
| HandshakeProgress.DoneMeansFits | framework/rapidapp_net_mgr.cpp:9-31 | the two handshake messages of a DONE client fit the receive buffer |
| HandshakeProgress.HandshakesFinish | sdk/connector_client_api_imp.cpp:382-453 | N clients starting together whose handshake messages fit can all be DONE after at most 100 N deliveries |
| HandshakeProgress.HandshakesFinishExactlyWhenTheyFit | framework/rapidapp_framework_imp.cpp:1075-1111 | deliveries can bring all clients that start together to DONE if and only if both handshake messages of each of them fit the connector's receive buffer |

## Left out

- Unknown fields are skipped and not kept for writing, and groups end a parse as a failure.
- What a message holds after a parse that failed half-way: the protocol modules work on messages that parse, which `Transport` shows all messages between these senders and receivers do.
- The recursion and size limits of the protobuf runtime, and its descriptors and reflection; RPC payloads are numbers behind an injective encoding.
- Wrap-around of counters and identities after 2^31, 2^32 or 2^64 steps; a client in `HandshakeWorld` stops pushing before its sequence numbers reach 2^63.
- What PushLimit does with a negative length is in coded_stream.cc, which is not part of this model; it is taken to leave the limit in force.
- Names of RPC messages of MAX_MESSAGE_NAME characters or more, which cannot be sent: `EasyRpc.EasyRpc.RpcCall` is taken to be given a shorter one, `EasyRpc.EasyRpcClosure.Done` is told whether its response has one.
- A write of `Framing.EasyNet.Send` that fails: the stream theorems are about streams of whole frames.
- Octets of a message partly sent, in `ClientProtocol` and `HandshakeWorld`: a message counts as sent when it is wholly on the wire, before which nothing of it is delivered (`Transport.OnlyWholeMessagesArrive`).
- In `HandshakeWorld` the frames of backends, and those sent down, are taken to fit their receivers' buffers.
- A coroutine that destroys itself while it runs.
- The RPC service mode of the front-end callback, in which a request that cannot be dispatched closes its connection.
- SocketBuffer.TcpSocketUtil.PushvToSendQ: pieces that add up to 2^31 bytes or more, which the source sums in an `int`; and the `TSOCKET_UTIL_ATOMIC` build.
- Lifetime of C++ objects: a connection destroyed twice after a failed send, and `set_sid` after a FIN, are modelled by their effect only.
- Threads: the client is driven by one thread, and callbacks of asynchronous calls issue no calls of their own.
- NetTable.NetHandlerMgr.AddHandlerBySocket: rehashing of the map, which would invalidate the cursor, is not modelled; a new entry goes to an arbitrary place.
- Removing timers; `RemoveTimer` erases while it iterates.
- Terminate in the whole-system model: a client that stops acting covers it, as it does a Resume whose connect fails.
- ConnectorSession.BackEndSet.Next: backends lost while running, and the statistics kept about them.
- The debug build, which forwards downside data without looking at state or sid.
- The RSM message and StopToBackEnd, which nothing sends.
- libevent, sockets, ucontext, signals, configuration, logging, URI parsing, the command dispatch, the demo programs and the scripting bindings.
