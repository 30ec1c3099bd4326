# LinkSocks in Dafny

LinkSocks carries byte streams over links that drop, reconnect, duplicate and
change path. This project models the state machines that keep those streams in
order and complete, the codecs and range checks under them, and proves what
they keep under every interleaving.

Most parts come in three layers:

- **Values.** Datatypes for the state and functions for what one operation does
  to it, including the error paths. What the environment decides (the outcome
  of a write, which frame arrives, a random position, elapsed time, the order
  in which a Go map is walked) is an argument.
- **Objects.** Where the Go code updates fields in place, a class with the same
  fields. Each method is proved equal to the value function, so a property of
  the function is a property of the method.
- **Whole runs.** A run folds one step function over a sequence of events. The
  theorems hold for every sequence.

| files | part of LinkSocks |
|---|---|
| `channel.dfy`, `channel_writes.dfy`, `migration.dfy` | the migrating logical channel: numbering, retention, path switches, replay |
| `secure.dfy`, `secure_runs.dfy`, `secure_flow.dfy` | the end-to-end encrypted session: XX handshake, counter stream, retries |
| `zone_cipher.dfy`, `zone_roster.dfy`, `zone_admission.dfy`, `zone_sealing.dfy`, `zone_runs.dfy`, `zone_packets.dfy` | the zone packet cipher and its roster |
| `zone_streams.dfy`, `zone_stream_ends.dfy`, `zone_stream_objects.dfy` | zone stream teardown, the frame queue, the stream table |
| `conncache.dfy`, `conncache_runs.dfy`, `conncache_laws.dfy`, `pump.dfy`, `pump_runs.dfy`, `pump_progress.dfy`, `server_cache.dfy` | the server's channel cache and its connector pumps |
| `registry.dfy`, `registry_laws.dfy`, `portpool.dfy` | reverse, forward and connector tokens, and ports |
| `forwarder.dfy`, `forwarder_laws.dfy` | adaptive batching |
| `codec.dfy`, `codec_laws.dfy`, `codec_layout.dfy`, `codec_reads.dfy`, `bytes.dfy` | the binary wire format |
| `access.dfy`, `access_laws.dfy`, `access_specs.dfy` | destination rules and address ranges |
| `stun.dfy` | STUN binding messages |

## What the networks may do

In `Migration` every frame an endpoint ever wrote, on whichever link, may reach
its peer at any time, any number of times or never; a failed write may still
have left the host. `SecureRuns` lets the relay lose, duplicate and reorder the
two endpoints' own frames; `SecureFlow` is the case of a relay that keeps them
all in order. In `ZoneRuns` the network may also put any header in
front of any body the sender ever sealed.

Cryptography is ideal and built from free constructors, so nothing is assumed:
a Noise message after the first is bound to the transcript it answers, a
transport key is a completed transcript and a direction (section 7.5 of the
Noise Protocol Framework, revision 34), a zone key is the zone and the ordered
pair of exchange keys, and a sealed body opens only under its own key, nonce
and header.

## Where a promise needs a condition

- **Duplicate suppression** holds until the 64-bit counter wraps: the message
  after number 2^64 - 1 gets number zero, which the receiver queues each time
  (`DuplicateSuppressedIff`). From there on a receiver that was level with its
  sender no longer is (`StaysLevelIff`), and the message numbered one is taken
  for a duplicate and lost at its first arrival (`LostAfterWrap`). The run
  theorems assume fewer than 2^64 messages.
- **Parsing within bounds** fails exactly when a 32-bit length plus its header
  wraps and the input is really that long (`OutOfRangeIff`, and
  `OutOfRangeExample` for such an input), so never below 2^32 bytes. Frames read
  from a WebSocket are limited to 32 MB (linksocks/conn.go:18, 123), so no
  received frame is that long.
- **Packing then parsing** is the identity exactly on canonical messages
  (`RoundTripIff`): one-byte lengths truncate, ports keep sixteen bits, and
  unknown protocol or operation names do not come back.
- **Network ranges** are exact unless a 16-byte network lies in the IPv4-mapped
  block with fewer than 128 prefix bits (`CidrExactIff`, `MappedNetworkExample`).
- **The batching delay** stays within its bounds exactly when the effective
  minimum does not exceed the maximum (`DelayInRangeIff`).
- **A batch always leaves** unless the timer handler has ended: the bytes behind
  a blocked read have no flush to come exactly then (`StrandedIff`), which takes
  a cancelled context (`StrandedExample`).
- **Port accounting** survives removing a token exactly when none of the
  internal tokens listed for it holds a port (`RemoveExactIff`); a reverse token
  named like a removed internal token loses its port (`ReusedInternalName`). It
  survives a joining client exactly when the name the client chose holds no port
  (`JoinExactIff`).
- **Bind before payload** holds of everything pumps write. It holds of every
  payload on every link exactly when each payload that bypassed a pump found its
  channel bound there (`PayloadsBackedIff`); the payloads that bypass are those
  of a mapped channel without a queue (`ArrivalWritesIff`), which takes a direct
  rendezvous (`NoDirectForward`, `DirectExample`).
- **Connector tokens** point at live reverse tokens until a removal takes away an
  internal token that one points at, and exactly then (`RemovePointedIff`,
  `ConnectorsPointed`, `DanglingConnector`).
- **A done stream** is off the table, given that `release` is only called by
  `discard` (`DoneIsUnlisted`), as it is in zone/streams.go:145-152.
- **Allocating a stream ID** ends exactly when some nonzero ID is free
  (`AllocateEndsIff`).

Where code and comment disagree the code is followed: the comment on the first
bind says that it sends the original request, but a bind that failed already
makes the next one a resume (linksocks/server.go:2543-2556).

## Model

| member | source | states |
|---|---|---|
| `Channel.InOrderAscending` | linksocks/channel.go:251-260 | the replay order is ascending in the sequence number |
| `Channel.InOrderMembers` | linksocks/channel.go:251-260 | the replay order holds exactly the retained messages |
| `Channel.Transport.WriteMessage` | linksocks/channel.go:78 | one link write: it may succeed, be refused, or fail after the frame has left |
| `Channel.LogicalChannel.constructor` | linksocks/channel.go:45-47 | a new channel retains nothing and has numbered nothing |
| `Channel.LogicalChannel.Switch` | linksocks/channel.go:103-115 | a closed channel or a missing writer changes nothing; otherwise writer and path change together |
| `Channel.LogicalChannel.ResumeDirect` | linksocks/direct_transport_quic.go:168-189 | a resumed direct channel takes over and replays everything retained |
| `Channel.LogicalChannel.PendingMessages` | linksocks/channel.go:251-260 | collecting the map in any order and sorting it gives the replay order |
| `Channel.LogicalChannel.ReplayPending` | linksocks/channel.go:269-280 | the loop writes the retained messages in order and stops at the first failure |
| `Channel.LogicalChannel.SwitchToFallback` | linksocks/channel.go:124-146 | every branch: closed, no fallback, no migration, failed control message, replay |
| `Channel.LogicalChannel.SwitchToRelay` | linksocks/channel.go:191-206 | the switch to the relay, with replay when migration is on |
| `Channel.LogicalChannel.WriteMessage` | linksocks/channel.go:49-94 | one write: numbering, retention, fallback, and what is written a second time (what it writes and when it succeeds: `ChannelWrites`) |
| `Channel.LogicalChannel.StampMessage` | linksocks/channel.go:62-72 | a data message gets the next 64-bit number and a retained copy |
| `Channel.LogicalChannel.RecoverWrite` | linksocks/channel.go:82-91 | after a failed write a numbered message goes out with the replay, anything else once more |
| `Channel.LogicalChannel.AcceptData` | linksocks/channel.go:208-222 | only the next number advances `received` |
| `Channel.LogicalChannel.RejectData` | linksocks/channel.go:224-233 | a message that could not be queued is taken back |
| `Channel.LogicalChannel.AcknowledgeReceived` | linksocks/channel.go:245-249 | an acknowledgement drops exactly that message |
| `Channel.LogicalChannel.AcknowledgeMessage` | linksocks/channel.go:262-267 | an acknowledgement is written only on a migrating channel |
| `Channel.Client.HandleDirectChannelFailure` | linksocks/direct_transport_quic.go:329-341 | a channel already on the relay is left alone, any other falls back |
| `Channel.HeldInOrder` | linksocks/relay.go:431-475 | messages for a channel that is not registered reach its queue in order, at once or when it binds, cut only at the tail by the capacity of 1000 |
| `Channel.Client.DeliverDataMessage` | linksocks/direct_transport_quic.go:343-375 | a registered channel decides; otherwise the message goes to the queue, or waits for the channel to bind |
| `Channel.Client.DeliverRegistered` | linksocks/direct_transport_quic.go:344-363 | a duplicate is acknowledged again, the next message is queued, and a full or missing queue rolls back |
| `Channel.Client.FlushOrphanData` | linksocks/relay.go:455-480 | what waited moves into the queue in order until it is full |
| `ChannelWrites.WriteOkIff` | linksocks/channel.go:49-94 | a write succeeds if and only if its link takes the message, or the relay takes the whole rescue: control message, replay, and the message unless the replay has it |
| `ChannelWrites.WriteDelivers` | linksocks/channel.go:74-91 | what a successful write wrote: the message, last and on the channel's link, or after a failover the rescue, on the relay, which is then the channel's link |
| `ChannelWrites.RescueCarries` | linksocks/channel.go:82-91 | the rescue ends with the message, or holds it in the replay when it is retained |
| `ChannelWrites.OkIsWritten` | linksocks/channel.go:49-94 | no message is lost behind a success: it stands among the frames written |
| `ChannelWrites.WriteFails` | linksocks/channel.go:49-94 | each way to fail, what it leaves of the channel, and that any message but a control message has moved the channel to its relay |
| `ChannelWrites.FallbackWrites` | linksocks/channel.go:124-146 | the switch to the relay succeeds if and only if the control message and the replay are taken |
| `ChannelWrites.RelayWrites` | linksocks/channel.go:191-206 | the same without a control message |
| `ChannelWrites.ReplayWrites` | linksocks/channel.go:269-280 | retained messages leave in ascending order up to the first failure, none skipped |
| `ChannelWrites.SwitchRefused` | linksocks/channel.go:124-206 | a closed channel, or one without a relay, stays as it is and writes nothing |
| `ChannelWrites.MigrateFollowed` | linksocks/direct_transport_quic.go:308-321 | a peer that migrates is followed to the relay with a replay and an answer; other channels and plain ones ignore it |
| `ChannelWrites.FailureFollowed` | linksocks/direct_transport_quic.go:329-341 | a failed direct channel moves to the relay; a late failure changes nothing |
| `ChannelWrites.ConsumedIsReleased` | linksocks/channel.go:245-267 | a message taken from the queue is acknowledged, and the acknowledgement releases exactly it at the sender |
| `ChannelWrites.DuplicateAnswered` | linksocks/direct_transport_quic.go:345-350 | a duplicate is not queued but acknowledged again |
| `ChannelWrites.PlainIsSilent` | linksocks/channel.go:262-267 | without migration nothing is acknowledged |
| `Migration.PrefixDelivery` | linksocks/channel.go:208-233 | in every run the receiver queued exactly the first `received` numbered messages: in order, no gap, no duplicate |
| `Migration.NoMessageLost` | linksocks/channel.go:64-72 | in every run each number is received or retained unchanged, and no acknowledgement in flight is ahead of `received` |
| `Migration.ReplayRecovers` | linksocks/channel.go:82-146 | from any reachable state and for either endpoint, one replay that arrives in order, with room, completes the peer's stream: after a resume, a switch to the relay, a failed direct channel, a failed write of any kind, or a peer that migrates |
| `Migration.NextIsDeliverable` | linksocks/channel.go:214-219 | a replay in order never shows the receiver a gap |
| `Migration.DuplicateSuppressedIff` | linksocks/channel.go:68-70 | a second arrival is never queued if and only if the 64-bit counter has not wrapped |
| `Migration.StaysLevelIff` | linksocks/channel.go:208-222 | a level receiver is level again after the next message if and only if the counter has not wrapped |
| `Migration.LostAfterWrap` | linksocks/channel.go:211-216 | after the wrap number zero is queued and number one is dropped at its first arrival |
| `Secure.Ship` | linksocks/secure_channel.go:396-421 | retries only ever add the same frame, and a landed frame is on the wire |
| `Secure.Link.Attempted` | linksocks/secure_channel.go:396-421 | one attempt to write a frame on the current link |
| `Secure.SecureSession.constructor` | linksocks/secure_channel.go:230-265 | a fresh session has no keys and is not established |
| `Secure.SecureSession.WriteWithGrace` | linksocks/secure_channel.go:396-421 | the retry loop ends with the frame landed or given up |
| `Secure.SecureSession.FinishWith` | linksocks/secure_channel.go:496-506 | the first error is kept and the session closes |
| `Secure.SecureSession.WriteMessage` | linksocks/secure_channel.go:343-385 | refused before establishment and after closing; a frame given up ends the session |
| `Secure.SecureSession.InstallCiphers` | linksocks/secure_channel.go:628-639 | each role takes the two directions' keys the right way round |
| `Secure.SecureSession.BeginHandshake` | linksocks/secure_channel.go:566-575 | the initiator's first message |
| `Secure.SecureSession.HandshakeFrame` | linksocks/secure_channel.go:566-626 | one handshake frame read in each role, with its failures |
| `Secure.SecureSession.DeliverFrame` | linksocks/secure_channel.go:440-456 | a call that does not block: the frame is buffered when there is room, and dropped only when the session has ended |
| `Secure.SecureSession.ReceiveFrame` | linksocks/secure_channel.go:538-561 | one turn of the transport loop, with decryption and parse failures |
| `SecureRuns.DispatchedIsPrefix` | linksocks/secure_channel.go:519-561 | what either side dispatches is a prefix of what the other sealed |
| `SecureRuns.NonceNeverReused` | linksocks/secure_channel.go:343-385 | no key and counter ever seal two plaintexts |
| `SecureRuns.AbandonedIsFinal` | linksocks/secure_channel.go:376-385 | after a sealed frame was given up that side never seals again |
| `SecureRuns.CiphersCrossMatched` | linksocks/secure_channel.go:566-639 | when both sides are established, send and receive keys are cross-matched and the directions differ |
| `SecureRuns.HandshakeSeparate` | linksocks/secure_channel.go:519-561 | nothing is sealed before establishment, and no frame the handshake read reaches transport decryption |
| `SecureRuns.FailuresStop` | linksocks/secure_channel.go:519-626 | in every run, on either side, a frame that does not open, parse or continue the handshake fails the session and is the last one read; every frame handed on was sealed under the receiving key with its place as counter |
| `SecureRuns.EndedIsFinal` | linksocks/secure_channel.go:496-561 | an ended side reads nothing more, and the first error stays |
| `SecureRuns.ShipLandsIff` | linksocks/secure_channel.go:396-421 | a frame lands if and only if the link takes it before the write is given up |
| `SecureRuns.WriteOkIff` | linksocks/secure_channel.go:343-385 | a write succeeds if and only if the session is open and established, the counter is below 2^64 - 1 and the frame lands |
| `SecureRuns.StartsIff` | linksocks/secure_channel.go:566-575 | the initiator goes on if and only if its first message lands, else the session fails |
| `SecureRuns.HandshakeGoesOnIff` | linksocks/secure_channel.go:566-626 | a waiting side goes on if and only if the frame continues the handshake and its answer lands, else the session fails; established exactly from its last step on |
| `SecureRuns.BufferedIff` | linksocks/secure_channel.go:440-456 | a frame is buffered exactly while the side has not ended and fewer than 512 frames wait |
| `SecureRuns.IdleEndsIff` | linksocks/secure_channel.go:538-561 | an idle transport loop ends exactly when the session was closed |
| `SecureFlow.FaultFreeDelivery` | linksocks/secure_channel.go:519-626 | in every interleaving with frames in order and none lost no session fails, and once the initiator has started and all is read both sides are established and each dispatched exactly what the other sealed |
| `SecureFlow.NobodyStuck` | linksocks/secure_channel.go:519-561 | until all is read some step brings that nearer |
| `SecureFlow.EverythingArrives` | linksocks/secure_channel.go:519-626 | every such run can be continued until the handshake is complete and everything sealed is dispatched |
| `ZoneCipher.DecodeExact` | zone/protocol.go:130-136 | accepted text decodes to exactly the demanded size |
| `ZoneCipher.DeriveMac` | zone/crypto.go:47-53 | a derived MAC is unicast and locally administered, and otherwise the digest |
| `ZoneCipher.SealEach` | zone/crypto.go:255-262 | a flood never changes the roster |
| `ZoneRoster.DecodeExactIff` | zone/protocol.go:130-136 | each byte string has exactly one accepted text, so members told apart by text are told apart by bytes |
| `ZoneRoster.UpdateInstalls` | zone/crypto.go:70-133 | an accepted roster installs exactly its members, keeps the one-to-one indexes, host addresses and the counter, no two peers share address, MAC, identity or key (as text or as bytes), and replay state is kept for exactly the unchanged members |
| `ZoneRoster.UpdateCarries` | zone/crypto.go:104-108 | a member listed unchanged keeps its entry, replay bound included |
| `ZoneRoster.AdmitAllLists` | zone/crypto.go:80-130 | the entry at a listed member's address is that member's |
| `ZoneRoster.AdmitKeeps` | zone/crypto.go:80-130 | one admitted member adds one entry and keeps the invariant |
| `ZoneAdmission.UpdateIff` | zone/crypto.go:70-133 | a roster is accepted if and only if its network is the cipher's own, there are at most 255 members, each is good on its own, and no two share address, identity, key or MAC |
| `ZoneAdmission.NetworkIff` | zone/protocol.go:138-149 | the network conditions by bytes and bits: 10/8, 172.16/12 or 192.168/16, 16 to 30 bits, host bits clear, MTU 576 to 1500, a proper own address |
| `ZoneAdmission.HexTextIff` | zone/protocol.go:130-136 | a text is accepted if and only if it is lower-case hexadecimal digits of the right number |
| `ZoneAdmission.UpdateReplays` | zone/crypto.go:104-126 | a member with the same identity, key and session keeps its entry and replay bound; any other starts at zero |
| `ZoneSealing.FrameSealedIff` | zone/crypto.go:226-264 | a frame is sealed if and only if its length is 14 to 1514, it comes from this member, is not meant for it, and goes to a group or a member with a number left for each copy; a group gets one copy per member |
| `ZoneSealing.StreamSealedIff` | zone/crypto.go:355-363 | stream data is sealed if and only if its size is in range, the peer is current and a number is left |
| `ZoneSealing.DatagramSealedIff` | zone/crypto.go:381-396 | a datagram is sealed if and only if its destination is a current member and a number is left |
| `ZoneSealing.FrameOpensIff` | zone/crypto.go:266-292 | a message opens to a frame if and only if some member sealed that frame, newer than all accepted from it, for this member or a group, with its own address as source |
| `ZoneSealing.StreamOpensIff` | zone/crypto.go:365-379 | a message opens to stream data if and only if that peer sealed it, newer than all accepted from it |
| `ZoneSealing.DatagramOpensIff` | zone/crypto.go:407-430 | a message opens to a datagram if and only if the member at its source address sealed it for this one, newer than all accepted from it |
| `ZoneSealing.StaleRefused` | zone/crypto.go:197-202 | a message for a peer the roster has replaced is refused and changes nothing |
| `ZoneRuns.LifeNumbers` | zone/crypto.go:178-190 | over any run the sealed messages carry consecutive numbers |
| `ZoneRuns.NonceNeverReused` | zone/crypto.go:168-190 | over any run of seals, floods and roster updates no 24-byte nonce is used twice |
| `ZoneRuns.OpenRaises` | zone/crypto.go:197-221 | a refused message changes nothing; an accepted one raises exactly one replay bound |
| `ZoneRuns.OpenAfterSeal` | zone/crypto.go:178-221 | a sealed message opens to its payload if and only if it is newer than the replay bound and passes its check |
| `ZoneRuns.AcceptedInOrder` | zone/crypto.go:197-221 | while every roster lists the sender unchanged, what is accepted is an in-order, duplicate-free, unaltered subsequence of what was sealed |
| `ZoneRuns.SealEachCopies` | zone/crypto.go:255-262 | a flood seals one copy per target under its own number and key, exactly when the counter has room |
| `ZoneRuns.FrameRoundTrip` | zone/crypto.go:226-292 | a frame for a member or a group is sealed for that member and that copy opens to the frame exactly when newer |
| `ZoneRuns.OnlyCopy` | zone/crypto.go:241-262 | no two copies of a frame are sealed under the same key, so each member gets one |
| `ZoneRuns.StreamRoundTrip` | zone/crypto.go:355-379 | stream data comes back with its stream ID and payload exactly when newer |
| `ZoneRuns.DatagramRoundTrip` | zone/crypto.go:381-430 | a datagram comes back with addresses, ports and payload exactly when newer |
| `ZonePackets.PeerCipher.constructor` | zone/crypto.go:124-125 | a new peer starts with replay bound zero |
| `ZonePackets.PacketCipher.constructor` | zone/crypto.go:64-66 | a new cipher has numbered nothing and knows nobody |
| `ZonePackets.PacketCipher.EntryFor` | zone/crypto.go:104-125 | the old object is kept exactly for an unchanged member |
| `ZonePackets.PacketCipher.CheckMember` | zone/crypto.go:81-101 | an entry passes exactly when it is admissible beside those before it |
| `ZonePackets.PacketCipher.AdmitMember` | zone/crypto.go:81-128 | one roster entry is checked and inserted in both indexes |
| `ZonePackets.PacketCipher.AdmitRoster` | zone/crypto.go:76-129 | the loop over the roster accepts all of it or refuses all of it |
| `ZonePackets.PacketCipher.Update` | zone/crypto.go:70-133 | the roster is replaced entirely or nothing changes |
| `ZonePackets.PacketCipher.SealLocked` | zone/crypto.go:178-190 | the next number is used once, or the counter is exhausted |
| `ZonePackets.PacketCipher.SealFor` | zone/crypto.go:168-175 | sealing for a peer that is no longer current is refused without using a number |
| `ZonePackets.PacketCipher.OpenFrom` | zone/crypto.go:197-221 | failed and invalid messages leave every replay bound unchanged |
| `ZonePackets.PacketCipher.Targets` | zone/crypto.go:245-249 | walking the roster in any order lists every member once |
| `ZonePackets.PacketCipher.SealCopies` | zone/crypto.go:255-262 | when the counter runs out nothing is returned and the numbers stay used |
| `ZonePackets.PacketCipher.SealFrame` | zone/crypto.go:226-264 | unicast, group and refused frames |
| `ZonePackets.PacketCipher.OpenFrame` | zone/crypto.go:266-292 | header, source, destination and inner MAC checks around one opening |
| `ZonePackets.PacketCipher.SealStreamData` | zone/crypto.go:355-363 | the payload size check and the stream header |
| `ZonePackets.PacketCipher.OpenStreamData` | zone/crypto.go:365-379 | the stream ID and payload, or nothing |
| `ZonePackets.PacketCipher.SealDatagram` | zone/crypto.go:381-396 | a datagram for an unknown address is refused |
| `ZonePackets.PacketCipher.OpenDatagram` | zone/crypto.go:407-430 | a datagram from an unknown address or for another member is refused |
| `ZoneStreams.FinishedOnce` | zone/streams.go:165-198 | in every interleaving `finished` is closed at most once, by the task whose step set `done` |
| `ZoneStreams.BothEndedIsDone` | zone/streams.go:252-292 | once both directions have ended and nobody is at work, the stream is done and `finished` is closed |
| `ZoneStreams.ListedIff` | zone/streams.go:145-152 | in every run an entry leaves the table if and only if a task of its own stream takes its discard step, whatever other streams had the same ID |
| `ZoneStreams.DiscardUnlists` | zone/streams.go:145-152 | a discarded stream is not listed afterwards |
| `ZoneStreamEnds.TornDownIsDone` | zone/streams.go:165-198 | once anybody aborts or discards a stream, or its reader breaks, it ends up done with `finished` and its queue closed |
| `ZoneStreamEnds.EndsOnBothSides` | zone/streams.go:252-292 | after the local end and the peer's close, in either order, the stream ends up done |
| `ZoneStreamEnds.QueueClosedIff` | zone/streams.go:174-192 | with nobody at work, the queue is closed if and only if the stream is done or the peer has closed |
| `ZoneStreamEnds.DoneIsUnlisted` | zone/streams.go:145-182 | with nobody at work, a done stream is off the table |
| `ZoneStreamObjects.QueueConserves` | zone/streams.go:40-76 | chunks come out in the order accepted, none lost, whatever is called |
| `ZoneStreamObjects.QueueBounded` | zone/streams.go:40-53 | the queued bytes stay below the limit plus one chunk |
| `ZoneStreamObjects.DrainsAfterClose` | zone/streams.go:55-76 | a closed queue still hands out everything it accepted without blocking |
| `ZoneStreamObjects.ServesIff` | zone/streams.go:40-76 | exactly when a push is accepted, a chunk handed out, and a call made to wait |
| `ZoneStreamObjects.FrameQueue.constructor` | zone/streams.go:34-38 | a new queue is empty and open |
| `ZoneStreamObjects.FrameQueue.PushChunk` | zone/streams.go:40-53 | a closed queue refuses; the byte count stays exact |
| `ZoneStreamObjects.FrameQueue.PopChunk` | zone/streams.go:55-69 | the oldest chunk, or nothing from a closed empty queue |
| `ZoneStreamObjects.FrameQueue.CloseQueue` | zone/streams.go:71-76 | closing keeps what is queued |
| `ZoneStreamObjects.ZoneStream.constructor` | zone/streams.go:130-137 | a new stream is open in both directions |
| `ZoneStreamObjects.ZoneStream.MarkDone` | zone/streams.go:165-173 | the first of abort and release wins, the others stop |
| `ZoneStreamObjects.ZoneStream.Unblock` | zone/streams.go:174-177 | the winner closes the queue |
| `ZoneStreamObjects.ZoneStream.NoteRemoteClosed` | zone/streams.go:273-282 | a peer close counts once and reports whether the local side had ended |
| `ZoneStreamObjects.ZoneStream.NoteLocalClosed` | zone/streams.go:252-256 | a local end reports whether the remote side had ended |
| `ZoneStreamObjects.StreamTable.constructor` | zone/streams.go:99-103 | the counter starts at the seed |
| `ZoneStreamObjects.AllocateEndsIff` | zone/streams.go:107-113 | counting up meets a free nonzero ID if and only if there is one |
| `ZoneStreamObjects.StreamTable.Allocate` | zone/streams.go:105-118 | the first free nonzero ID after the last one, around the 32-bit end |
| `ZoneStreamObjects.StreamTable.Insert` | zone/streams.go:120-127 | refused exactly for ID zero and IDs in use |
| `ZoneStreamObjects.StreamTable.Unregister` | zone/streams.go:145-150 | only this very stream leaves the table |
| `ConnCacheRuns.HeldQueuesOpen` | linksocks/server.go:2638-2833 | in every reachable state each held queue is open and held by one entry, and no step sent on, closed or drained a closed queue |
| `ConnCacheRuns.FailedDrainKeepsOrder` | linksocks/server.go:2688-2755 | whatever else happens, an expiry timer that finds the connector mapped included, frames written, then the buffer, are the drained frames followed by later arrivals, cut only at the tail by the capacity |
| `ConnCacheRuns.CompleteDrainKeepsOrder` | linksocks/server.go:2723-2755 | a drain that succeeds leaves exactly the later arrivals buffered |
| `ConnCacheRuns.CleanupKeeps` | linksocks/server.go:2812-2833 | cleaning up leaves nothing of the channel, closes its queues and keeps every other held queue open |
| `ConnCacheRuns.ForgetKeeps` | linksocks/server.go:981-990 | forgetting a token's channels without closing their queues keeps the rest open and unshared |
| `ConnCacheRuns.PublishKeeps` | linksocks/server.go:2515-2541 | a published channel has an open queue: its own, or a new one when it had expired |
| `ConnCacheLaws.OrphanDroppedIff` | linksocks/server.go:2791-2833 | in every state a channel loses its buffer if and only if its timer finds no provider, it is cleaned up, or its token is removed; otherwise it keeps it, open |
| `ConnCacheLaws.DroppedIsClosed` | linksocks/server.go:2791-2833 | a buffer that goes is closed with its frames kept, except with a removed token |
| `ConnCacheLaws.OrphanMadeIff` | linksocks/server.go:2758-2787 | a channel gets a new buffer if and only if it is reserved or published, or a frame comes while no provider has it |
| `ConnCacheLaws.ReturnDroppedIff` | linksocks/server.go:2688-2706 | a return buffer goes, closed, if and only if its timer finds no connector or the channel is cleaned up |
| `ConnCacheLaws.ReturnMadeIff` | linksocks/server.go:2668-2684 | a return buffer is made if and only if a frame comes for a channel without one |
| `ConnCacheLaws.BufferedIff` | linksocks/server.go:2638-2684 | a frame is appended exactly while fewer than 1000 wait; a full buffer keeps what it has |
| `ConnCacheLaws.LinksAfter` | linksocks/server.go:2515-2833 | the provider and connector link of a channel after any event; a pump never takes a channel from another connector link |
| `ConnCacheLaws.SeenAfter` | linksocks/server.go:2515-2522 | a token lists each channel once, in order, until the token goes |
| `PumpRuns.PublishOwned` | linksocks/server.go:2523-2536 | and no other entry holds that queue |
| `PumpRuns.BindBeforePayload` | linksocks/server.go:2546-2599 | every payload a pump writes goes to the link of the channel's latest bind, which succeeded |
| `PumpRuns.FramesConserved` | linksocks/server.go:2474-2600 | while a channel is not cleaned up, frames written, then the one in hand, then the queue equal the frames accepted, in order |
| `PumpRuns.ReservedConserved` | linksocks/server.go:2779-2787 | the same from the moment the channel is reserved, starting from nothing |
| `PumpRuns.OtherPumpItems` | linksocks/server.go:2523-2536 | the pump of one channel never takes from another channel's queue |
| `PumpProgress.QueueIsForwarded` | linksocks/server.go:2478-2600 | wherever a pump stands, with or without a link or a kept frame, finitely many of its own steps forward the frame in hand and then the queue, in order and nothing else |
| `PumpProgress.RunIsForwarded` | linksocks/server.go:2478-2600 | the same from every reachable state |
| `PumpProgress.ResumesElsewhere` | linksocks/server.go:2546-2600 | a failed write costs the pump its link; it resumes on the next provider found, with the frame it kept |
| `PumpProgress.FirstBindOnly` | linksocks/server.go:2543-2560 | from its start on only a pump's first attempt to bind carries the original request, every later one asks to resume |
| `PumpProgress.EndsIff` | linksocks/server.go:2482-2508 | while its channel has its queue a pump ends if and only if it waited in vain for its first provider |
| `PumpProgress.EndsWhenGone` | linksocks/server.go:2478-2590 | a pump ends when its channel was cleaned up or its closed queue is empty |
| `PumpProgress.PublishingMaps` | linksocks/server.go:2515-2522 | which link goes into which map, and that another connector's claim stands |
| `PumpProgress.StartAgain` | linksocks/server.go:2431-2446 | no second pump for a channel: a resuming connector takes it over, others change nothing |
| `PumpRuns.ArrivalWritesIff` | linksocks/server.go:2638-2662 | in any state an arrival is written past the pump if and only if its channel is mapped and has no queue |
| `PumpRuns.PayloadsBackedIff` | linksocks/server.go:2546-2662 | in every run every payload follows a bind of its channel on that link if and only if each payload that bypassed a pump does |
| `PumpRuns.DirectExample` | linksocks/server.go:2653-2660 | a concrete run that forwards a payload with no bind before it |
| `PumpRuns.NoDirectForward` | linksocks/server.go:2653-2660 | without a direct rendezvous every mapped channel has its queue and no payload bypasses the pump |
| `ServerCache.ConnectorCache.constructor` | linksocks/server.go:150-160 | an empty cache |
| `ServerCache.ConnectorCache.Send` | linksocks/server.go:2642-2652 | a non-blocking send drops exactly when the queue is full |
| `ServerCache.ConnectorCache.DrainQueue` | linksocks/server.go:2708-2718 | the loop ends with the queue empty and everything handed out |
| `ServerCache.ConnectorCache.ReserveOrphanQueue` | linksocks/server.go:2779-2787 | a channel gets one buffer |
| `ServerCache.ConnectorCache.BufferOrphanPayload` | linksocks/server.go:2758-2774 | a frame for an unbound channel is buffered |
| `ServerCache.ConnectorCache.RouteConnectorPayload` | linksocks/server.go:2638-2662 | queued, forwarded directly, or buffered |
| `ServerCache.ConnectorCache.BufferConnectorReturn` | linksocks/server.go:2668-2684 | a frame for an absent connector is buffered |
| `ServerCache.ConnectorCache.ExpireConnectorReturn` | linksocks/server.go:2688-2706 | only an unbound channel's buffer expires, and is closed once |
| `ServerCache.ConnectorCache.ExpireOrphanData` | linksocks/server.go:2791-2806 | only an unbound channel's buffer expires, and is closed once |
| `ServerCache.ConnectorCache.CleanupConnectorChannel` | linksocks/server.go:2812-2833 | mappings go, both buffers are closed once |
| `ServerCache.ConnectorCache.TakeReturn` | linksocks/server.go:2724-2731 | the first locked section of a drain |
| `ServerCache.ConnectorCache.RequeueReturn` | linksocks/server.go:2740-2751 | what was not written goes back ahead of later arrivals |
| `ServerCache.DrainedInOrder` | linksocks/server.go:2723-2755 | a drain that stops after n writes, whatever others do meanwhile, keeps the order of the return path |
| `ServerCache.ConnectorCache.Perform` | linksocks/server.go:2638-2833 | any locked section of another goroutine |
| `ServerCache.ConnectorCache.PerformAll` | linksocks/server.go:2638-2833 | any number of them, one after the other |
| `ServerCache.ConnectorCache.DrainConnectorReturn` | linksocks/server.go:2723-2755 | the write loop stops at the first failure and requeues the rest, with others at work during every write |
| `ServerCache.ConnectorCache.MapBinding` | linksocks/server.go:2515-2522 | a connector link that took the channel over keeps it |
| `ServerCache.ConnectorCache.PublishBinding` | linksocks/server.go:2515-2541 | the binding, the buffer (made anew when it expired) and the drain target |
| `ServerCache.ConnectorCache.ForgetChannels` | linksocks/server.go:981-990 | removing a token forgets its channels without closing their buffers |
| `ServerCache.ConnectorCache.Receive` | linksocks/server.go:2581-2585 | the pump takes the oldest frame |
| `ServerCache.ConnectorPump.constructor` | linksocks/server.go:2470-2476 | a pump starts unbound and empty-handed |
| `ServerCache.ConnectorPump.TryBind` | linksocks/server.go:2546-2556 | a failed bind drops the link and still counts as bound before |
| `ServerCache.ConnectorPump.TakeFrame` | linksocks/server.go:2571-2590 | the pending frame first, then the queue; a closed empty queue ends the pump |
| `ServerCache.ConnectorPump.TryWrite` | linksocks/server.go:2591-2600 | a frame that could not be written is kept |
| `ServerCache.ConnectorPump.Step` | linksocks/server.go:2478-2600 | one step of the pump loop at each of its places, for every outcome |
| `PortPool.PickAny` | linksocks/portpool.go:53-70 | with no port requested there is none exactly when every pool port is in use, wherever the scan starts |
| `PortPool.ScanFinds` | linksocks/portpool.go:59-67 | the wrap-around scan finds a free port if and only if one of its positions has one |
| `PortPool.Pool.constructor` | linksocks/portpool.go:17-24 | a new pool has no port in use |
| `PortPool.Pool.Get` | linksocks/portpool.go:40-70 | requested and random ports, with the loop |
| `PortPool.Pool.Put` | linksocks/portpool.go:73-78 | exactly this port is free again |
| `Registry.PortsExact` | linksocks/server.go:760-835 | over any sequence of calls live tokens hold pairwise distinct positive ports or none, and exactly those ports are in use |
| `Registry.RemoveExactIff` | linksocks/server.go:954-1067 | removing a token keeps the accounting if and only if no internal token listed for it holds a port |
| `Registry.JoinExactIff` | linksocks/server.go:1480-1496 | a client that joins keeps the accounting if and only if the internal name it chose holds no port |
| `Registry.RemoveLeaks` | linksocks/server.go:958-977 | a listed internal token that holds a port is forgotten with the port still in use |
| `Registry.ReusedInternalName` | linksocks/server.go:954-1067 | a concrete sequence of calls that leaves a port in use with no token |
| `RegistryLaws.PickIff` | linksocks/portpool.go:40-70 | no port is handed out if and only if the requested one, or every one of the pool, is in use; one that is was free |
| `RegistryLaws.AddRefusedIff` | linksocks/server.go:760-835 | a request is refused, changing nothing, if and only if its name is reserved or taken, or it needs a port and there is none |
| `RegistryLaws.AddAnswers` | linksocks/server.go:795-835 | the answer is the port the token then holds: the requested one or one of the pool, free before and in use now; nothing else changes |
| `RegistryLaws.RemoveLeaves` | linksocks/server.go:954-1090 | exactly which tokens, connectors, forwards and ports are left after a removal |
| `RegistryLaws.JoinLists` | linksocks/server.go:1480-1496 | a client of an autonomy token is listed for it under a name without a port; anybody else changes nothing |
| `RegistryLaws.ConnectorAddedIff` | linksocks/server.go:868-915 | a connector token is accepted exactly for a live target under a free name, and points at it |
| `RegistryLaws.ForwardAddedIff` | linksocks/server.go:838-865 | a forward token is accepted exactly under a free name |
| `RegistryLaws.RemovePointedIff` | linksocks/server.go:954-1036 | a removal leaves no connector dangling if and only if none points at an internal token that goes with it |
| `RegistryLaws.ConnectorsPointed` | linksocks/server.go:868-1036 | in every run without such a removal each connector points at a live reverse token |
| `RegistryLaws.DanglingConnector` | linksocks/server.go:954-977 | a concrete sequence of calls that leaves a connector dangling |
| `Registry.TokenRegistry.constructor` | linksocks/server.go:405-430 | an empty registry over an unused pool |
| `Registry.TokenRegistry.AddReverseToken` | linksocks/server.go:760-835 | every refusal, autonomy tokens without a port, and the port assignment |
| `Registry.TokenRegistry.JoinClient` | linksocks/server.go:1480-1496 | a client of an autonomy token gets a listed internal token without a port |
| `Registry.TokenRegistry.DropInternalTokens` | linksocks/server.go:958-977 | all listed internal tokens are removed |
| `Registry.TokenRegistry.DropConnectors` | linksocks/server.go:1012-1036 | exactly the connector tokens of this reverse token go |
| `Registry.TokenRegistry.RemoveToken` | linksocks/server.go:954-1090 | internal, connector, reverse and forward tokens in this order, the port returned |
| `ForwarderRuns.BytesConserved` | linksocks/forwarder.go:73-277 | under every interleaving, failed writes included, bytes written then the buffer equal the bytes read |
| `ForwarderRuns.BufferBounded` | linksocks/forwarder.go:243-255 | while writes succeed the buffer stays below the buffer size plus one read |
| `ForwarderRuns.StrandedIff` | linksocks/forwarder.go:193-275 | while writes succeed the bytes behind a blocked read have no flush to come if and only if the timer handler has ended, which takes a cancelled context |
| `ForwarderRuns.StrandedExample` | linksocks/forwarder.go:194-216 | a concrete run that leaves a byte behind |
| `ForwarderRuns.FlushedBeforeError` | linksocks/forwarder.go:216-235 | while writes succeed everything read is written before the read error is signalled, and nothing after |
| `ForwarderRuns.DelayInRangeIff` | linksocks/forwarder.go:91-100 | in every run the delay is zero or within bounds, if and only if the effective minimum does not exceed the maximum |
| `ForwarderRuns.FirstDelay` | linksocks/forwarder.go:155-158 | one fast read starts batching at the minimum delay |
| `ForwarderLaws.FastClimbs` | linksocks/forwarder.go:153-163 | fast traffic starts at the minimum delay and adds one step per flush up to the maximum |
| `ForwarderLaws.FastReachesMax` | linksocks/forwarder.go:153-163 | twenty fast flushes reach the maximum |
| `ForwarderLaws.SlowEnds` | linksocks/forwarder.go:167-173 | very slow traffic ends batching at once and only fast traffic starts it again |
| `ForwarderLaws.ModerateHalves` | linksocks/forwarder.go:174-182 | moderate traffic halves the delay down to the minimum and keeps it there |
| `ForwarderLaws.SpeedIs` | linksocks/forwarder.go:144-151 | bytes per second, zero over a millisecond or less |
| `ForwarderLaws.CountsBatch` | linksocks/forwarder.go:110-188 | in every run the bytes behind the speed are those that wait in the batch |
| `ForwarderLaws.FlushedAtOnceIff` | linksocks/forwarder.go:238-275 | a read leaves at once, with all that waited, if and only if there is no delay or the buffer is full; else a timer stands behind it |
| `ForwarderLaws.FailedFlushKeeps` | linksocks/forwarder.go:110-140 | a failed write is reported and keeps batch and delay |
| `Forwarder.MinDelay` | linksocks/forwarder.go:91-95 | the configured minimum if positive, else five milliseconds |
| `Forwarder.DelayStep` | linksocks/forwarder.go:96-99 | a tenth of the span, rounded down, or a millisecond when that is nothing |
| `ForwarderObject.DynamicForwarder.constructor` | linksocks/forwarder.go:84-107 | an empty batch with no delay |
| `ForwarderObject.DynamicForwarder.AdjustDelay` | linksocks/forwarder.go:144-187 | the delay after a flush, from the measured speed |
| `ForwarderObject.DynamicForwarder.FlushBatch` | linksocks/forwarder.go:110-188 | a failed write keeps the buffer; otherwise it is sent as one message |
| `ForwarderObject.DynamicForwarder.AppendRead` | linksocks/forwarder.go:238-247 | the locked append and what the reader saw |
| `ForwarderObject.DynamicForwarder.DecideFlush` | linksocks/forwarder.go:249-275 | flush when full or when there is no delay, otherwise set a timer if none is set |
| `ForwarderObject.DynamicForwarder.HandlerTurn` | linksocks/forwarder.go:194-204 | the handler flushes on a signal or ends on a cancelled context |
| `Codec.UuidRoundTrip` | linksocks/message.go:641-657 | a UUID's text gives back its bytes |
| `Codec.LongAt` | linksocks/message.go:1157-1175 | a four-byte length yields only bytes inside the input |
| `Codec.AppendUuid` | linksocks/message.go:641-648 | sixteen bytes are appended |
| `Codec.AppendControl` | linksocks/message.go:713-834 | the payload of auth, disconnect, connector and channel-open messages |
| `Codec.AppendReply` | linksocks/message.go:725-851 | the payload of the three response messages |
| `Codec.AppendConnect` | linksocks/message.go:737-754 | the payload of a connect message |
| `Codec.AppendData` | linksocks/message.go:769-809 | the payload of a data message |
| `Codec.AppendFrame` | linksocks/message.go:931-986 | the payload of sealed, web data and web socket frames |
| `Codec.PackMessageWithVersion` | linksocks/message.go:708-993 | the packed bytes of every kind, or an error |
| `CodecLaws.RoundTrip` | linksocks/message.go:708-993 | for every supported version a canonical message comes back unchanged with its version |
| `CodecLaws.RoundTripIff` | linksocks/message.go:1045-1514 | an uncompressed message comes back unchanged if and only if it is canonical |
| `CodecLaws.ParsedIsCanonical` | linksocks/message.go:1045-1514 | whatever bytes arrive, a message they parse to is canonical |
| `CodecLaws.OutOfRangeIff` | linksocks/message.go:1067-1514 | parsing leaves its input exactly when a 32-bit slice bound wraps, never below 2^32 bytes |
| `CodecLaws.OutOfRangeExample` | linksocks/message.go:1157-1175 | there is such an input |
| `CodecLayout.AuthLayout` | linksocks/message.go:713-722 | the bytes of an auth message, written out |
| `CodecLayout.AuthResponseLayout` | linksocks/message.go:725-736 | the bytes of its response |
| `CodecLayout.ConnectLayout` | linksocks/message.go:737-754 | the bytes of a connect message; TCP is 1 and has a destination, UDP is 2 |
| `CodecLayout.ConnectResponseLayout` | linksocks/message.go:755-768 | the bytes of its response |
| `CodecLayout.DataLayout` | linksocks/message.go:769-809 | the bytes of a data message, with its endpoints for UDP and its number unless zero |
| `CodecLayout.ControlLayout` | linksocks/message.go:810-930 | the bytes of disconnect, connector and channel-open messages |
| `CodecLayout.ConnectorResponseLayout` | linksocks/message.go:835-851 | the bytes of a connector response |
| `CodecLayout.FrameLayout` | linksocks/message.go:931-986 | the bytes of sealed, web data and web socket frames |
| `CodecLayout.JsonLayout` | linksocks/message.go:852-930 | which type bytes carry a JSON body, and nothing else is packed |
| `CodecReads.ParsesIff` | linksocks/message.go:1045-1514 | a byte string parses to a message if and only if it is a version of major 0 or 2, a type byte and a layout of that message, trailing bytes and odd flags included |
| `CodecReads.DataIff` | linksocks/message.go:1157-1227 | the same for data messages |
| `Access.IpNetEnd` | linksocks/access.go:163-176 | the loop computes the last address of a network |
| `Access.CompileAddrs` | linksocks/access.go:95-101 | all address entries of a rule parse, in order, or none is used |
| `Access.CompileRule` | linksocks/access.go:91-113 | a rule compiles exactly when all its entries parse |
| `Access.NewAccessControl` | linksocks/access.go:91-113 | all rules compile in order, or the first bad one refuses them all |
| `Access.PortInRanges` | linksocks/access.go:219-226 | some range contains the port |
| `Access.RuleMatches` | linksocks/access.go:200-216 | some resolved address lies in some range of the rule |
| `Access.Allow` | linksocks/access.go:187-217 | allowed if and only if there are no rules, or one rule matches both the port and some resolved address |
| `AccessLaws.BetweenIsPrefix` | linksocks/access.go:163-176 | lying between first and last address is sharing the prefix bits |
| `AccessLaws.CidrExactIff` | linksocks/access.go:127-176 | a network's range accepts exactly the addresses that share its prefix bits, unless it is a 16-byte IPv4-mapped network shorter than 128 bits |
| `AccessLaws.HostExact` | linksocks/access.go:127-176 | a single IPv4-mapped host is still exact |
| `AccessLaws.MappedNetworkExample` | linksocks/access.go:163-169 | a concrete mapped network whose range misses one of its addresses |
| `AccessSpecs.SpecMeans` | linksocks/access.go:127-231 | the range of an entry accepts exactly the addresses the entry means, for single hosts, spans, last-octet spans and networks |
| `AccessSpecs.HostMeans` | linksocks/access.go:155-160 | a single host accepts that address only |
| `AccessSpecs.SpanMeans` | linksocks/access.go:139-143 | a span accepts the addresses between its ends, read as 128-bit numbers |
| `AccessSpecs.LastOctetMeans` | linksocks/access.go:144-152 | a last-octet span accepts the IPv4 addresses with the same three bytes and the last one in range |
| `AccessSpecs.ParsesIff` | linksocks/access.go:127-160 | exactly which entries are refused |
| `AccessSpecs.AtMostIff` | linksocks/access.go:228-231 | comparing byte strings is comparing numbers |
| `AccessSpecs.AllowedBy` | linksocks/access.go:91-217 | rules are refused if and only if one entry is malformed; otherwise a destination is allowed if and only if the rules, as written, cover it |
| `Stun.EqualBytes` | linksocks/stun.go:208-218 | byte equality |
| `Stun.ParseXorMappedAddress` | linksocks/stun.go:167-206 | the masked address and port, or an error |
| `Stun.ParseStunBindingResponse` | linksocks/stun.go:89-141 | the attribute loop ends inside its input on every input and finds the first address |
| `Stun.FindsXorMapped` | linksocks/stun.go:89-206 | after any number of padded other attributes the XOR-MAPPED-ADDRESS gives its address and port (sections 15, 15.1 and 15.2 of RFC 5389) |
| `Stun.FindsMapped` | linksocks/stun.go:143-165 | the same for a plain MAPPED-ADDRESS |
| `Stun.AddressHasSource` | linksocks/stun.go:109-141 | conversely an address comes only from the first address attribute of a well-formed list |
| `Stun.XorValueBack` | linksocks/stun.go:167-206 | masking and unmasking an address and port are inverse |
| `Stun.RequestIdentified` | linksocks/stun.go:80-87 | a request carries its transaction and is never taken for a response |
| `Stun.ParsesIff` | linksocks/stun.go:89-206 | parsing gives an address and port if and only if the input is a success response with the cookie and this transaction whose first address attribute holds them |
| `Stun.MappedIsResponse` | linksocks/stun.go:89-108 | any other message type, cookie, transaction or length is refused |
| `Stun.XorAddressIff` | linksocks/stun.go:167-206 | exactly which attribute values hold a masked address and port |
| `Stun.PlainAddressIff` | linksocks/stun.go:143-165 | the same for a plain one |
| `Stun.XorAt` | linksocks/stun.go:167-206 | exclusive or, bit by bit |

## Left out

- WebSocket, QUIC, UDP, TAP and HTTP I/O: a link is a write that succeeds or fails, a network is what may arrive.
- Noise, X25519, HKDF, ChaCha20-Poly1305 and SHA-256: ideal constructors; the MAC hash and the test that a key is usable are arbitrary functions.
- JSON-encoded messages and gzip: JSON bodies travel as text and gzip is a pair of given functions, so both add only assumed inverses.
- Clocks and timers: expiry, timeouts and grace windows are steps the environment may take, under the checks the code makes.
- DNS lookup and textual addresses: addresses are byte sequences, resolution is an arbitrary list.
- linksocks/relay.go:382-403 (a write retried at the call site): it numbers the message anew, so claims are per call of `WriteMessage`.
- Channel.Client.DeliverDataMessage: handled as one step, although the source takes the lock several times; the expiry of data that waits for a channel is not modelled.
- secureHub registration, awaitChannel and dispatch: bookkeeping around the session.
- ZoneRuns.AcceptedInOrder: stated while the roster keeps the member; a member that is dropped and listed again starts with a fresh replay bound.
- ZoneRuns.FrameRoundTrip: a message is a pair of header and sealed body, so the length checks are on the plaintext.
- Zone control messages other than stream data (open, accept, refuse, close, reset): fixed-layout byte builders that would only add easy members.
- ZoneStreamObjects.StreamTable.Allocate: demands a free nonzero ID, since the source loops for ever without one (see AllocateEndsIff).
- The half-close of a local socket in remoteClose: draining is claimed for the queue only, not for the socket.
- PumpRuns.FramesConserved: a pump that exits with a frame in hand loses it and then cleans the channel up, so the claim ends when a pump of the channel exits.
- ConnCacheRuns.FailedDrainKeepsOrder: one drain at a time; two drains of the same channel may interleave their writes.
- The cleanup a pump does after it exits: a free event, so nothing is claimed about when it happens.
- Registry.PortsExact: each call is one step; the window between the existence check and the lock in AddReverseToken is not modelled.
- ForwarderRuns.BytesConserved: the speed at a flush is arbitrary, which only adds runs; `FlushBatch` computes it from bytes and elapsed time.
- CLI, HTTP API, web publishing, logging, Python bindings: plumbing.
