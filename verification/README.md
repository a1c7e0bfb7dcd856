# A verified model of the reverse proxy

The repository forwards connections of *visitors* to services behind a NAT: a *server* accepts the
visitors, a *client* holds one control channel for each service and opens data channels when the
server asks for them. The project models the parts that are hard to get right and proves what they
keep, for all inputs, all runs and all interleavings.

| file | what it models |
|---|---|
| `Wrappers.dfy`, `Constants.dfy`, `Bincode.dfy` | option and result, sizes, bytes and little-endian integers |
| `Runs.dfy`, `Subsequences.dfy` | what a run of a state machine is, how an invariant of its states, or of its states and the actions so far, carries over one, and what its actions say |
| `ByteStream.dfy`, `Framing.dfy` | a reliable FIFO byte stream, and streams of frames for any framing |
| `Protocol.dfy`, `UdpTraffic.dfy` | the fixed-size messages and the UDP frames on such a stream |
| `Handshake.dfy`, `HandshakeTrace.dfy` | the control channel handshake and commands, byte by byte, both parties |
| `Heartbeat.dfy` | the two heartbeat timers in discrete time |
| `ClientTask.dfy` | the client's task that connects, retries and notices late that it was dropped |
| `MultiMapSpec.dfy`, `MultiMap.dfy` | the two-key index over heap boxes |
| `Config.dfy`, `ConfigWatcher.dfy` | validation of a configuration, the difference of two |
| `ServiceTable.dfy`, `Server.dfy`, `Client.dfy` | the tables that hot reload changes, and the methods that change them |
| `HotReload.dfy` | the pipeline from the changed file to the running table |
| `Sessions.dfy`, `SessionsProof.dfy` | handshakes, data channels and hot reloads of one server, interleaved, and what every run of them keeps |
| `SessionsDelivery.dfy`, `SessionsReload.dfy`, `SessionsGap.dfy` | the way of a data channel into a queue, what reloads take away, and a gap |
| `SessionsTrace.dfy`, `SessionsPairing.dfy`, `SessionsAlone.dfy` | the sessions and the pools from the actions of the run alone, and whole connections that nothing disturbs |
| `Pairing.dfy`, `TcpPool.dfy` | pairing in order, and the listener, requests and data channels of one TCP service |
| `UdpForwarding.dfy`, `UdpPayloads.dfy` | the client's UDP forwarding table and its forwarders, and what becomes of every payload |

## How it is modelled

Code that changes things in place is a class or a method with loops, proved against functions on
values: the index with its heap, the byte stream with its readers and writers, the validation loops,
the filling of the service tables, the hot reload handlers, the pairing loop. Tasks that interleave
are state machines: one action for each stretch of code between two await points, and a lock guard
is held by whoever stands between its acquisition and its release. A claim about a machine is
about every sequence of enabled actions from the initial state. Wherever a claim speaks of what
happened, some claim says it of the actions of the run, not only of what the machine noted.

Assumptions, all of them explicit in the statements that need them:

- SHA-256 is a parameter. No function into 32 bytes is injective, so the hypothesis is
  `NoCollision` on a named finite set: the service names that occur, or the strings that a run
  really hashed. That `token ++ nonce` determines both halves is proved, not assumed.
- Nonces are fresh: the action that sends one is enabled only for a nonce that the run has not used.
- A connection is a reliable FIFO byte stream that may fail at any await.
- A heap address is never handed out twice, so that a second free of a box would show.
- Rust strings are UTF-8 byte sequences and are byte sequences here.
- The order in which a hash map is walked is an arbitrary parameter of each walk.
- In `Heartbeat`, the server's command loop starts when its ack is written, and the connection
  delivers in at most `delay`.

## What turned out not to hold

- A live control channel need not match the services table. The service is looked up before the
  authentication and not again before the insertion, so a hot reload between the two leaves a
  deleted service with a live channel (`SessionsGap.DeletedServiceComesAlive`). With no reload
  of its service under way a channel agrees with the table exactly when the table agreed with it at its insertion
  (`SessionsProof.ChannelAgreesIffItDidAtInsert`); what always holds is that its configuration is
  the one that its own lookup found.
- If the ack cannot be written, the old channel is gone and no new one takes its place
  (`Server.Server.Establish`, `SessionsReload.BrokenAckAlone`).
- A UDP packet comes back from its frame exactly when its payload is shorter than 65536 bytes, for
  the length is cast to `u16` (`UdpTraffic.FrameRoundTripIffShort`). Both callers stay below 2048.
- A UDP forwarder that leaves through `?` keeps its entry in the table; from then on nothing that
  comes from that address is forwarded on this data channel. For every address there is a run that
  gets there (`UdpForwarding.StaleIsReached`), an entry is stale exactly when its forwarder failed
  (`UdpForwarding.StaleEntryIffFailed`), and it stays so (`UdpForwarding.StaleForever`).
- A client's control channel task whose handle was dropped may still complete one handshake
  (`ClientTask.OneLateHandshake`), never two (`ClientTask.AtMostOneLateHandshake`), and it may
  exactly when the drop finds it before its auth, waiting for its ack, or asleep before a retry
  (`ClientTask.LateHandshakeIffLooksTooLate`). The server does not tell such a handshake from
  another: it removes the channel that the service has (`Server.Server.Establish`).
- A ninth lost data channel can leave a visitor waiting until the next one comes
  (`TcpPool.NineLossesStarve`); up to eight cannot (`TcpPool.Conservation`), and a waiting visitor
  can be served exactly as long as a channel is ready or on its way (`TcpPool.ServedUnlessStarved`).
- The comment at `src/client/data_channel.rs:175` says that only the reading loop takes the write
  lock of the forwarding table; every forwarder takes it too, at line 255. Insertions still
  overwrite nothing, because a forwarder only removes (`UdpForwarding.TableSafety`).
- An instance that crashed or never came up is not replaced when the file changes: the next event
  that asks for a restart ends the run loop (`HotReload.DeadInstanceIsNotReplaced`).
- `docs/setting.md:25` gives the server a heartbeat timeout; the code has a heartbeat interval
  there, and the model follows the code.

## Model

| member | source | states |
|---|---|---|
| MultiMapSpec.RunKeepsBijection | src/multi_map.rs:31-42 | after any sequence of calls each key of either kind names at most one item |
| MultiMapSpec.KeysAreInterchangeable | src/multi_map.rs:93-123 | removing or updating through either key of an item is the same, and an update through one key is what the other key finds |
| MultiMapSpec.RemoveUndoesInsert | src/multi_map.rs:65-123 | removing through either key undoes an accepted insertion |
| MultiMapSpec.LookupFinds | src/multi_map.rs:87-103 | every item is found under both of its keys |
| MultiMap.Probe | src/multi_map.rs:14-29 | a hash table lookup dereferences stored key pointers, all of which are allocated; it finds an entry with the key, or there is none |
| MultiMap.KeysSeparateBoxes | src/multi_map.rs:65-85 | two live boxes never share a key of either kind |
| MultiMap.Probe1IsLookup | src/multi_map.rs:87-91 | a probe of the first table succeeds exactly for the first keys of live items and finds that item |
| MultiMap.Probe2IsLookup | src/multi_map.rs:99-103 | the same for the second table |
| MultiMap.AfterRemove | src/multi_map.rs:111-123 | taking one box out of both tables and freeing it keeps the tables consistent and removes exactly its item |
| MultiMap.MultiMap.constructor | src/multi_map.rs:45-50 | a new index is empty and owns no box |
| MultiMap.MultiMap.Insert | src/multi_map.rs:65-85 | accepted exactly when neither key is present; then the item is added, else nothing changes at all and the arguments are handed back |
| MultiMap.MultiMap.Get1 | src/multi_map.rs:87-91 | the value of the item with this first key, if there is one |
| MultiMap.MultiMap.Get2 | src/multi_map.rs:99-103 | the value of the item with this second key, if there is one |
| MultiMap.MultiMap.Get1Mut | src/multi_map.rs:93-97 | a reference to the live value of the item with this first key, if there is one |
| MultiMap.MultiMap.Get2Mut | src/multi_map.rs:105-109 | a reference to the live value of the item with this second key, if there is one |
| MultiMap.MultiMap.Store | src/multi_map.rs:93-109 | an assignment through such a reference changes the value of that item under both of its keys, and nothing else |
| MultiMap.MultiMap.Remove1 | src/multi_map.rs:111-116 | removes the item from both tables, reading its second key while the box still lives |
| MultiMap.MultiMap.Remove2 | src/multi_map.rs:118-123 | the mirror image |
| MultiMap.MultiMap.Drop | src/multi_map.rs:126-133 | frees every live box once and leaves none |
| MultiMap.Perform | src/multi_map.rs:65-123 | every call answers and changes the index as the set of items says |
| MultiMap.Lifetime | src/multi_map.rs:65-133 | over any calls ended by drop, all answers are right and the boxes freed are exactly those that accepted insertions allocated, once each |
| Protocol.ConcatDetermines | src/server/control_channel.rs:272-276 | token followed by a 32-byte nonce determines both |
| Protocol.PacketLen | src/protocol.rs:206-241 | the measured packet lengths: 37 for a hello, 32 for an auth, 4 for the others |
| Protocol.EncodingFillsPacket | src/protocol.rs:206-241 | every message of a kind has exactly the measured length of the sample |
| Protocol.DecodeEncode | src/protocol.rs:25-78 | every message comes back from its encoding |
| Protocol.Layout | src/protocol.rs:25-78 | the bytes of every variant: its index in four bytes, least significant first, then its fields; an auth is the digest alone |
| Protocol.ReadEncode | src/protocol.rs:247-341 | a reader takes exactly one message and leaves what follows; a hello of another version is refused |
| Protocol.ReadIff | src/protocol.rs:247-341 | a reader succeeds on exactly the streams that start with a message of its kind and the current version, and leaves what is behind it |
| Protocol.StreamAlignment | src/protocol.rs:247-341 | any sequence of messages, read by kind, comes back as sent with nothing left over |
| ByteStream.Stream.Take | src/protocol.rs:163-179 | read_exact takes exactly so many bytes or fails |
| UdpTraffic.Header | src/protocol.rs:83-90 | the header takes 12 bytes for IPv4 and 24 for IPv6 |
| UdpTraffic.FrameLayout | src/protocol.rs:101-131 | the bytes of a packet: header length, family, address, port, length of the payload, payload |
| UdpTraffic.HeaderAccepted | src/protocol.rs:163-171 | a header is accepted exactly when its family is known and nothing is missing, and is what was read |
| UdpTraffic.HeaderRoundTrip | src/protocol.rs:107-119 | every header comes back from its bytes |
| UdpTraffic.FrameReadsBack | src/protocol.rs:101-185 | what any written packet reads back as, oversized ones included |
| UdpTraffic.FrameRoundTripIffShort | src/protocol.rs:108-111 | a packet comes back, consuming exactly its frame, if and only if its payload is below 65536 bytes |
| UdpTraffic.CutFrame | src/protocol.rs:155-179 | a proper prefix of a frame is an error, never a packet |
| UdpTraffic.ReadFrameIff | src/protocol.rs:155-185 | from any sender's bytes a packet is read exactly when a length octet, a header of that length and the payload it announces stand there |
| UdpTraffic.CutUdpStream | src/protocol.rs:101-185 | from a stream that is cut anywhere a reader gets exactly the packets wholly before the cut |
| UdpTraffic.UdpStreamRoundTrip | src/protocol.rs:101-185 | reading everything that was written gives all packets in order and consumes every byte |
| UdpTraffic.Write | src/protocol.rs:103-131 | appends exactly the frame of the packet, or, with an error, the part of it that got through before the connection was lost |
| UdpTraffic.WriteSlice | src/protocol.rs:133-152 | does to the stream what `write` does for the same address and data |
| UdpTraffic.ReadFrom | src/protocol.rs:155-185 | reads header and payload behind the length octet, with its three errors |
| Framing.WholeBeforeIsMaximal | src/protocol.rs:155-185 | the packets wholly before a cut are the longest such prefix |
| Framing.CutStream | src/protocol.rs:155-185 | the cut theorem for any framing whose reader fits its writer |
| Framing.StreamRoundTrip | src/protocol.rs:101-185 | the round trip for any such framing |
| Handshake.StreamsStayAligned | src/server/control_channel.rs:237-323 | in every run both streams hold exactly the whole messages written and not yet read, then at most the part of the next one that a failed write left; no read fails or meets another message, and such a part is never read as one |
| Handshake.Agreement | src/client/control_channel.rs:76-137 | a client in its command loop was accepted on this connection, both ends hold the same session key and, without collision, the same token, and the commands it read are the first that were written |
| Handshake.Refusal | src/client/control_channel.rs:111-123 | a refused client was refused for the reason given, and nothing follows the ack |
| Handshake.VerdictIsRight | src/server/control_channel.rs:278-324 | without collision the server accepts exactly the token of the service |
| Handshake.RunKeepsInv | src/server/control_channel.rs:237-323 | every step of either party keeps the alignment and what each party knows about the other |
| HandshakeTrace.AckIsObeyed | src/client/control_channel.rs:111-137 | a client that read its ack is in its loop exactly if it was accepted, else refused with the reason, and hears the commands in order, one for each it reads; neither party fails unless its connection did or, on the server, it refused |
| HandshakeTrace.HandshakeAlone | src/server/control_channel.rs:237-323 | undisturbed, an unknown service and a wrong token are refused, and the right token brings both parties into their loops |
| HandshakeTrace.CommandAlone | src/client/control_channel.rs:139-160 | a command written with nothing under way before it is the next one that the client hears |
| Heartbeat.HeartbeatBound | src/client/control_channel.rs:139-168 | the client never takes the timeout branch, for any pattern of requests and any delays, if and only if the timeout is off or interval plus delay is below it with heartbeats on |
| Heartbeat.SafeRun | src/server/control_channel.rs:78-104 | no timeout in any run under that condition |
| Heartbeat.UnsafeRun | src/client/control_channel.rs:161-163 | whenever the condition fails some run times out |
| Heartbeat.TimersAreHonest | src/client/control_channel.rs:139-168 | in every run both timers show when the last command was written and read, and the connection holds in order what was written and not read |
| Config.ServerValidation | src/config.rs:358-376 | an accepted server block has name = key and a token in every service, is a fixed point of validation, and every complete block with a valid transport is accepted unchanged |
| Config.ClientValidation | src/config.rs:381-402 | the same for a client block, with the retry interval |
| Config.ServerFields | src/config.rs:358-376 | field by field: each service of an accepted block has its own token or else the default one and is otherwise unchanged, as is the block; a token is missing exactly when a service has neither, and then the transport is not looked at |
| Config.ClientFields | src/config.rs:381-402 | the same for a client block, with the retry interval of the service or else of the block |
| Config.TransportRules | src/config.rs:406-445 | which transports are refused, and for which reason, in which order |
| Config.BlocksAreKept | src/config.rs:336-353 | a file is accepted exactly when it has a block and each of its blocks is accepted; both are kept, and the server's complaint comes first |
| Config.ValidationIsIdempotent | src/config.rs:336-353 | an accepted configuration is complete and validating it again changes nothing |
| Config.ValidateServerConfig | src/config.rs:358-376 | the loop over the services computes the validation, whatever the order of the walk |
| Config.ValidateClientConfig | src/config.rs:381-402 | the same for the client |
| ServiceTable.ApplyAllIsRenameAll | src/server.rs:219-248 | changes applied to the table by digest give the table of the services changed by name |
| ServiceTable.Converges | src/server.rs:219-263 | changes that point at a configuration and cover every difference lead to its table, in any order and with repetitions |
| ConfigWatcher.InstanceEventsAreDiff | src/config_watcher.rs:291-313 | deletions and additions are one event for each service that differs, and nothing else |
| ConfigWatcher.InstanceEventsDistinct | src/config_watcher.rs:302-312 | no service occurs twice on one side |
| ConfigWatcher.ServiceEventsAreDiffs | src/config_watcher.rs:257-287 | without a general change the events are exactly the differences of both sides |
| ConfigWatcher.EventsClassifyTheChange | src/config_watcher.rs:241-288 | no events exactly when nothing changed, never an empty list; a general event, alone, exactly when a block came or went or a named field outside the services changed, and otherwise the two configurations are the same but for their services |
| ConfigWatcher.DiffRebuilds | src/config_watcher.rs:291-313 | a difference in any order turns the old table into the new one |
| ConfigWatcher.AnyOrderRebuilds | src/server.rs:219-263 | the events of one change, delivered in any order, turn both the server's and the client's old table into those built from the new configuration |
| Server.GenerateServiceHashmap | src/server.rs:252-263 | the loop builds the table of the services under the digests of their names |
| Server.SessionsAfterAre | src/server.rs:219-241 | the channels left after some events are exactly those whose digest no event touched |
| Server.OnlyChangedServicesLoseTheirChannel | src/server.rs:219-241 | after the events of a difference a channel is still there exactly when its service is the same before and after |
| Server.Server.constructor | src/server.rs:97-111 | a new server has the table of its configuration and no channel |
| Server.Server.HandleHotReload | src/server.rs:219-248 | a server change updates the table and removes the channel of that service; other changes do nothing |
| Server.Server.Establish | src/server/control_channel.rs:300-323 | the critical section: the old channel goes, and the new one comes, with an empty queue of its own, only if the ack was written |
| Server.Server.RouteDataChannel | src/server/data_channel.rs:21-38 | a data channel goes to the end of the queue of the handle registered under the key it names; it is dropped if there is none or its pool has ended, and waits while the queue is full |
| Client.Client.constructor | src/client.rs:93-105 | one handle with a channel of its own for each configured service |
| Client.Client.HandleHotReload | src/client.rs:138-168 | a client change starts or drops the handle of its service; other changes do nothing |
| Client.Client.Shutdown | src/client.rs:129-132 | every handle that was ever made has been dropped |
| Client.ServicesFollow | src/client.rs:138-168 | the services of the handles change as the table by name does |
| Client.OnlyChangedServicesRestart | src/client.rs:138-168 | after the events of a difference, in any order, the handles are those of the new configuration; an unchanged service keeps its channel and every other one got a new channel |
| ClientTask.AtMostOneLateHandshake | src/client/control_channel.rs:208-245 | after its handle is dropped a task sends at most one auth and completes at most one handshake, whatever fails; and it ends only if its handle was dropped |
| ClientTask.CountsAreRight | src/client/control_channel.rs:208-245 | where the task stands, and its auths and handshakes after the drop, follow from what it did |
| ClientTask.DroppedTaskCanStop | src/client/control_channel.rs:139-245 | a dropped task can end from wherever it is, and does nothing after that |
| ClientTask.LiveTaskCanLoop | src/client/control_channel.rs:208-245 | a task whose handle lives can always get back into its command loop |
| ClientTask.LoopsAgain | src/client/control_channel.rs:139-245 | in its loop a live task follows any number of commands, and after a failure it can come back |
| ClientTask.OneLateHandshake | src/client/control_channel.rs:55-174 | a run in which it does complete one |
| ClientTask.LateHandshakeIffLooksTooLate | src/client/control_channel.rs:139-245 | some continuation of a drop completes a handshake if and only if the drop finds the task on its way to the ack or asleep; in the command loop and after a failure a drop is clean |
| HotReload.EventsRebuild | src/config_watcher.rs:223-228 | the events of any accepted change lead from the table of the old configuration to that of the new one |
| HotReload.RestartKeepsInv | src/lib.rs:93-114 | discarding the queue of the old instance at a restart loses nothing |
| HotReload.RunKeepsInv | src/lib.rs:91-123 | every step of watcher, run loop and instance keeps the pipeline on course |
| HotReload.AcceptedIsLast | src/config_watcher.rs:203-228 | the watcher's configuration is always the last file of the run that validation accepted, as validation completed it |
| HotReload.IncrementalIsRebuild | src/lib.rs:91-123 | in every reachable state, while instance and run loop live, the events still on their way turn the running block and table into those built from the last valid file of the run; with none on the way they are those |
| HotReload.EverythingRunning | src/config_watcher.rs:203-228 | in every reachable state every service in the table and in every event has its name, token and retry interval, so the unwraps cannot fail |
| HotReload.DeliveryGetsOn | src/lib.rs:91-123 | every step that delivers leaves less to deliver, so delivering ends whatever is delivered first |
| HotReload.EventsGetThrough | src/lib.rs:91-123 | from every reachable state, unless the instance crashed or the run loop returned, delivering alone can end with the instance built from the last valid file |
| HotReload.FileGetsThrough | src/config_watcher.rs:203-228 | a valid file found after any such run can be taken up and delivered until the instance built from it runs |
| HotReload.DeadInstanceIsNotReplaced | src/lib.rs:98-114 | a crashed or failed instance stays what it was, and the next restart ends the run loop |
| HotReload.OnlyTheDeadStop | src/config_watcher.rs:203-228 | no file, valid or not, takes the instance or the run loop down: an instance crashes only by itself, and the loop returns only when a restart finds it gone |
| HotReload.RunModeRules | src/lib.rs:161-183 | one argument decides the mode; with both there is none; with none the only block decides |
| SessionsProof.KeysArePersonal | src/server/control_channel.rs:237-282 | two handshakes never compute the same session key, whether their auth is right or wrong |
| SessionsProof.InsertIsAccepted | src/server/control_channel.rs:300-323 | at the insertion neither the service nor the session key is in the table |
| SessionsProof.RunKeepsInv | src/server/control_channel.rs:222-327 | every step of every handler keeps the guards exclusive, the table owned, and the pools separate |
| SessionsTrace.AuthDecides | src/server/control_channel.rs:272-298 | in every run a live channel, and any handshake past its check, is of a connection that said hello for its service and answered the nonce with exactly the session key; a wrong auth never gets that far, and a right one is never denied |
| SessionsTrace.EndedIsClosed | src/server/connection.rs:29-64 | a connection that was refused, denied, found its pool gone or failed is closed for good |
| SessionsTrace.AckMeansInsertion | src/server/control_channel.rs:302-323 | once the ack has gone out nothing keeps the handshake from inserting its channel |
| SessionsTrace.ReloadsExclude | src/server.rs:219-241 | reloads do not overlap, and from the start of an addition until the old channel is removed no handshake looks a service up; an unknown service is refused before the services change again |
| SessionsTrace.EvictionHasACause | src/server/control_channel.rs:300-313 | an established channel that left the table was taken out by a handshake of another connection that said hello for that service, or by a reload of it |
| SessionsProof.EveryInsertIsOk | src/server/control_channel.rs:322-323 | the discarded result of the insertion was `Ok` every time, in every run |
| SessionsProof.EstablishedIsRoutable | src/server/data_channel.rs:20-38 | once the ack has gone out a data channel that names its key finds that handshake's handle, unless another handshake or a reload of the same service removed the channel |
| SessionsDelivery.DeliveryIsToLiveHandle | src/server/data_channel.rs:20-38 | until its send is over the handle that a data channel found stays in the table under the key it named; the send fails exactly when the pool has ended, and else appends to that handle's queue alone |
| SessionsDelivery.RouteAlone | src/server/data_channel.rs:20-38 | undisturbed, lookup and send give the answer and the queues of the method of the server, in all four cases |
| SessionsProof.PairedWithinService | src/server/pool.rs:37-119 | a data channel is joined only with visitors of the service whose one handshake made the key it named, even after the handle is replaced; a UDP service forwards on one data channel only |
| SessionsPairing.PoolsServeInOrder | src/server/pool.rs:37-119 | in every run the pairs and the waiting of every pool follow from the actions: a TCP pool gives each visitor, in the order of acceptance, the next working channel of those delivered, in their order; a UDP pool sends the datagrams of all visitors, in order, into the first channel delivered |
| SessionsProof.ConfigIsFromLookup | src/server/control_channel.rs:251-268 | a live channel's configuration is the one that the services table held at its handshake's lookup |
| SessionsProof.ChannelAgreesIffItDidAtInsert | src/server/control_channel.rs:251-323 | with no reload of its service under way a live channel agrees with the services table if and only if the table did at its insertion |
| SessionsTrace.ConfigWasConfigured | src/server/control_channel.rs:251-268 | a live channel's configuration is the one that the reloads of the run up to its own lookup had put into the table |
| SessionsTrace.AgreesIffItDidAtInsert | src/server/control_channel.rs:251-323 | the same agreement, with the tables computed from the reloads of the run |
| SessionsGap.DeletedServiceComesAlive | src/server/control_channel.rs:251-323 | a run in which a deleted service ends with a live channel, for every service, nonce and digest function |
| SessionsPairing.EndIsTheEnd | src/server/data_channel.rs:27-37 | a pool does and gets nothing after its end, and a data channel whose handle was found is dropped exactly if the pool has come to its end |
| SessionsReload.OtherReloadsSpareIt | src/server.rs:219-241 | a live channel survives any run that does not reload its own service, however often others are reloaded, unless another handshake for it replaced it |
| SessionsReload.OwnReloadRemovesIt | src/server.rs:219-241 | a run that reloads the service of a channel, and has finished its reloads, leaves that channel out of the table, whatever is interleaved |
| SessionsReload.BatchDisturbsExactlyTheChanged | src/server.rs:219-241 | from any reachable state, a batch of difference events amid any handshakes removes the live channels of changed services and spares those of unchanged ones, unless another handshake replaced them |
| SessionsReload.ServicesFollowReloads | src/server.rs:219-248 | whatever is interleaved, the services table is the old one with the reloads of the run applied in their order |
| SessionsReload.BatchEndsInTheNewTable | src/server.rs:219-263 | a batch of difference events amid any handshakes takes the table of the old services to that of the new ones |
| SessionsReload.ReloadAlone | src/server.rs:219-248 | undisturbed, the two steps of a reload are the method of the server |
| SessionsReload.EstablishAlone | src/server/control_channel.rs:299-323 | undisturbed, the four steps of a critical section do to the sessions and the queues what the method of the server does |
| SessionsReload.BrokenAckAlone | src/server/control_channel.rs:302-313 | a failed ack leaves the service without a channel |
| SessionsAlone.HandshakeAlone | src/server/control_channel.rs:222-327 | undisturbed, from the first byte: an unknown service or a wrong auth ends the connection and changes nothing else; the right auth replaces the channel of that service and changes nothing else |
| SessionsAlone.DataChannelAlone | src/server/data_channel.rs:11-40 | undisturbed, from any reachable state, a data channel is dropped, waits or joins the queue of the channel whose key it names |
| SessionsAlone.VisitorAlone | src/server/pool.rs:37-61 | undisturbed, a visitor is joined with the first data channel in the queue that works, and the broken ones before it are gone |
| SessionsAlone.DatagramsAlone | src/server/pool.rs:95-109 | undisturbed, datagrams of any visitors go out on the one data channel of the pool |
| TcpPool.RunTcpConnectionPool | src/server/pool.rs:37-61 | the loop pairs the i-th visitor with the i-th channel that works, sends one request for each broken one, and ends for one of three reasons |
| TcpPool.RunKeepsInv | src/server/pool.rs:37-61 | every step of listener, control channel, client tasks and pairing loop keeps conservation, order and distinctness |
| TcpPool.Conservation | src/server/control_channel.rs:145-154 | at every step queued requests, commands, client tasks, data channels and losses number the pool size plus the waiting visitors, with requests, commands, tasks and losses counted from the actions of the run |
| TcpPool.FirstComeFirstServed | src/server/connection.rs:125-140 | from the actions of the run alone: visitors are paired in the order of acceptance with the working channels in their order, the others wait in that order, and nothing is paired twice |
| TcpPool.ServedUnlessStarved | src/server/pool.rs:37-61 | a waiting visitor can be paired without another visitor if and only if some channel is ready or on its way |
| TcpPool.StarvedUntilNextVisitor | src/server/pool.rs:37-61 | with nothing ready and nothing on its way nobody is served before another visitor comes |
| TcpPool.NineLossesStarve | src/server.rs:38 | nine losses can bring that about |
| UdpForwarding.TableSafety | src/client/data_channel.rs:164-260 | each running forwarder owns the entry of its address, insertions overwrite nothing, and a clean-up removes its own entry |
| UdpForwarding.PacketsTravelWhole | src/server/pool.rs:102-114 | what is on the stream in either direction is always exactly what the peer will read |
| UdpForwarding.RepliesGoBack | src/server/pool.rs:105-114 | a datagram goes back to an address only if the server had received one from it, and from the forwarder made for it |
| UdpPayloads.PayloadsReachTheService | src/client/data_channel.rs:155-235 | what a forwarder sent to its service and still has is, in order and unchanged, part of the payloads received from its address |
| UdpPayloads.AnswersComeBack | src/client/data_channel.rs:236-248 | the answers sent and under way are those that the forwarders received, in order and unchanged, each to the address of its forwarder, from which a datagram had come |
| UdpPayloads.DatagramAlone | src/client/data_channel.rs:155-211 | undisturbed, a datagram ends at the end of the inbox of the forwarder of its address, which is made if there is none |
| UdpPayloads.InboxDrains | src/client/data_channel.rs:225-235 | a running forwarder can send its service all that it was given, in order |
| UdpPayloads.AnswerAlone | src/server/pool.rs:110-114 | undisturbed, an answer goes back to the address of its forwarder |
| UdpForwarding.StaleEntryIffFailed | src/client/data_channel.rs:225-256 | an entry has no live forwarder exactly when its forwarder left through an error at some point of the run; the loop ends exactly when reading failed |
| UdpForwarding.StaleIsReached | src/client/data_channel.rs:226-231 | for every address a run that leaves a stale entry |
| UdpForwarding.StaleForever | src/client/data_channel.rs:164-209 | such an entry is never repaired |

## Left out

- Transports and socket options (`src/transport.rs` and below): wrappers over libraries; a connection is a FIFO byte stream that may fail.
- Proxy connection, address lookup and the accept and retry backoff: foreign calls and clocks. A client whose control channel fails and retries is a new connection of the session machine.
- TOML parsing, file notification, command line, key generation and logging: the model starts from a parsed configuration.
- The rounds of SHA-256 and the generation of nonces: parameters, with the hypotheses given above.
- Raw TCP copying after the pairing: a library call.
- Progress of the client's UDP loop under interference: it may hold a read guard while it waits for another or for a full inbox, so beyond what one datagram does undisturbed safety alone is claimed. Where the source may block for good, as when it sends to a forwarder that is cleaning up and whose inbox is full, the model may wait or drop the datagram.
- TcpPool.Conservation: speaks of the time while the control channel lives. What is queued when it dies is dropped with it.
- TcpPool.RunTcpConnectionPool: the queues are given as what they yield before they close; how they fill is in the machine of the same file.
- Sessions: of a UDP pool it has the one data channel and whose datagrams go out on it; the loop itself is in `UdpForwarding`. A pool whose handle is gone may go on pairing in the model, while in the source it also may stop; every claim covers both.
- Heartbeat.HeartbeatBound: time is discrete and the timers are exact.
- Client.Client.Shutdown: speaks of handles; what the task behind a handle does after that is in `ClientTask`, where the times it sleeps and waits are left open.
- The restart of an instance is one step: the old one has ended before the new one is spawned.
