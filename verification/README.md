# Verified model of minimq and mqtt-staging

A Dafny model of an allocation-free MQTT 5 client and of the chunked staging protocol built on it, with proofs about
whole runs. `dafny verify dfyconfig.toml` checks the project.

The project has three parts.

**The client.** `Outbound` describes the three outbound queues (control packets, PUBRELs, retained packets) as values,
and `Arena` is the object that keeps the retained packets back to back in one byte array. `Session` and `Handshake`
describe every step of a connection as a function of the state and of what the transport does: accept some bytes,
accept none, fail, or be cancelled. `Client.Connection` is the client object itself, with an array for the arena, a
packet reader, a transport and mutable fields; each of its methods is proved to perform exactly such steps. `Runs`
strings the steps together in any order. `Client.Connection.Valid` says that the object's state is reachable by such a
run, so every theorem about runs is a theorem about the object. The theorems are:

- stream integrity: on every transport, under every pattern of partial writes, failures and cancellations, the bytes
  written are whole packets followed by at most the beginning of one, each packet parses to what the client means by
  it, and the scheduler resumes at the right byte (`Runs.StreamIntegrity`). A peer reading them with any buffer and in
  any fragmentation receives exactly the packets the client completed (`PeerView.PeerReceives`,
  `Client.Connection.PeerHas`);
- outbound QoS 2 (section 4.3.3 of MQTT Version 5.0), with a broker that parses the client's bytes, the CONNECT
  included, and may lose its session at any time: no publication is handed on twice, over any number of disconnects,
  resumes and session losses, unless the client resumes by mistake a session that replaced its own
  (`ExactlyOnce.HandedOnAtMostOnce`). If the broker answers faithfully and every PUBREL can be queued, the client
  gives up a publication only after it was handed on, or after it was told that it is refused or that the session is
  gone (`AtLeastOnce.GivenUpOnlyWhenHandedOn`); without such a message or mistake it was handed on exactly once
  (`AtLeastOnce.HandedOnExactlyOnce`);
- inbound QoS 2: two deliveries of an identifier always have a PUBREL between them
  (`InboundOnce.DeliveredOncePerRelease`);
- draining ends, by a lexicographic measure, and on success everything pending was written once and in order
  (`Client.Connection.FlushOutbound`, `Drain.DrainsAll`); replay after a resumed connect (`Drain.ReplayExactlyOnce`);
- on one connection, across all drains, requests, pings and inbound packets, a PUBREL or retained packet that was
  written stays written until it is acknowledged, so none is written twice (`Replay.StaysWritten`,
  `Replay.NotWrittenTwice`), and whenever the client is idle each was written (`Replay.IdleMeansWritten`);
- scheduling: an inbound packet is handled only while nothing is partly written and the control queue has room
  (preconditions of `Client.Connection.ProcessReceived`, established by `Client.Connection.DrivePacket`); of the
  outcomes of one round of waiting (`Client.Connection.WaitOnce`), only `Arrived` leaves a received packet, and after
  it the loop goes on, so none is left waiting when a call returns, which is what the request methods rely on;
- inbound packets: every PUBLISH above QoS 0 and every PUBREL is answered exactly once, with the right packet and code
  (`Answers.ReceiveAnswers`, `Answers.AnsweredExactlyOnce`, `Answers.AnswerKept`), and what is delivered, refused or
  ends the connection is characterised exactly (`Delivery`);
- connecting: the first packet on every connection reads as the CONNECT that the history of the session calls for
  (`Greetings.FirstIsConnect`), and the CONNACK settles the terms (`Negotiation`);
- keepalive: a PINGREQ is sent exactly when it is due, and its PINGRESP awaited for five seconds
  (`Keepalive.PingExactlyWhenDue`, `Keepalive.DeadlineIff`); no packet exceeds the broker's limit
  (`Limits.WithinBrokerLimit`); what is admitted, and what it says (`Admission`);
- operation handles: pending until acknowledged, then complete, invalidated exactly when state was discarded
  (`Handles.HandleStatus`, `Handles.InvalidatedIff`);
- the arena refines a plain list of packets (`Arena`), the CONNECT reserve (`Reconnect.ReconnectAlwaysFits`), packet
  identifiers (`PacketIds.NextPacketId`) and send quota (`Conservation.QuotaConservation`).

**The codec.** `Varint`, `Wire`, `Properties`, `Packets`, `Serializer`, `Deserializer`, `Cursor`, `Received` and
`PacketReader` model printing and parsing; `ServerPackets` and `ClientPackets` hold the layouts of the packets only one
side sends, and `Meaning` reads delivery off a packet's bytes. Encoders and decoders are defined independently and
proved inverse, and the parser is proved to accept nothing but layouts (`ServerPackets.AcceptedIsLayout`); the reader is
proved indifferent to fragmentation (`PacketReader.StreamRoundTrip`).

**The staging protocol.** `StagingDevice` is the device as functions, `StagingService.Service` the object,
`StagingHost` the host command. `Staging` runs both, with the device's storage, over a network that loses, repeats and
reorders messages: storage agrees with the object up to the next offset in every state, and a host reports success
only when the whole object is stored. `StagingAgreement` proves when the two sides agree on a chunk, through its bytes
on the wire, and `StagingStatus` what the host makes of each status, up to the whole exchange with chunks delivered
again (`StagingStatus.RoundsComplete`).

Four properties one might expect turn out to need a condition, stated exactly and with an input on which they fail
(`Scenario` is the small session the client's failing inputs are built from):

- A PUBREC does not always lead to a PUBREL. The publication is dropped first, and the release is queued if and only
  if the PUBREC reports success, the broker accepts a five-byte packet and fewer than eight releases are pending
  (`Release.ReleasedIff`; `Release.ReleaseCanBeRefused` reaches the failing case by a run of nine publications).
- A QoS 2 publication can be handed on twice. The broker loses its session, the CONNACK of the session that replaces
  it is lost, and the next CONNECT resumes the replacement: CONNACK says that a session is present, and nothing in it
  tells which. On a resumed connection whose packet limit lets the pending packets through, this can happen if and
  only if the session is such a replacement and a publication handed on in the lost one is still retained
  (`SessionLoss.HandedOnTwiceIff`, `SessionLoss.SessionLossRepeats`).
- The remaining length in a fixed header describes its packet if and only if the body is within the MQTT limit; a body
  of 4 GiB or more wraps in the cast to 32 bits (`Packets.FrameIffWithinLimit`, `Packets.LongBodyMisframed`). The run
  theorems therefore assume an arena smaller than 4 GiB.
- The device accepts the host's padded chunk if and only if the chunk, padding included, ends within the storage
  capacity (`StagingAgreement.ChunkVerdict`): an object that fits is still refused at its last chunk when its size
  rounded up to the write size does not (`StagingAgreement.FittingObjectRefused`).

## Model

| member | source | states |
|---|---|---|
| Varint.RoundTrip | minimq/src/varint.rs:66-115 | reading the canonical encoding of any value up to 2^28-1, in front of any bytes, gives the value and its length |
| Varint.Canonical | minimq/src/varint.rs:89-115 | the reader accepts a prefix if and only if it is the canonical encoding of the value it returns |
| Varint.IncompleteExactly | minimq/src/varint.rs:122-136 | the probe asks for more if and only if the bytes are a proper prefix of some encoding |
| Varint.FitsFourBytes | minimq/src/varint.rs:4-8 | an encoding has at most four bytes if and only if its value is within the MQTT maximum |
| Varint.LengthMonotone | minimq/src/varint.rs:16-24 | larger values never encode shorter |
| Varint.EncodedLen | minimq/src/varint.rs:16-24 | the length loop computes the length of the encoding |
| Varint.Write | minimq/src/varint.rs:66-82 | the encoding loop writes the canonical encoding, and refuses exactly the values above the maximum |
| Varint.Probe | minimq/src/varint.rs:89-136 | the accumulating loop agrees with the reference reader on every input |
| Wire.HeaderRoundTrip | minimq/src/wire.rs:145-170 | type and flags survive packing into a fixed header byte |
| Wire.PublishHeaderRoundTrip | minimq/src/wire.rs:172-220 | QoS, RETAIN and DUP are read back as they were packed, and the flags are valid |
| Wire.MarkDuplicateOnlyDup | minimq/src/wire.rs:188-246 | marking a PUBLISH as a retransmission changes the DUP flag and nothing else |
| Properties.SizeIsLength | minimq/src/properties.rs:606-744 | the separately computed size of a property is the number of bytes it serializes to |
| Properties.BlockSizeIsLength | minimq/src/properties.rs:231-244 | the same for every kind of property block |
| Deserializer.PropertyRoundTrip | minimq/src/properties.rs:484-589 | each of the 27 properties, serialized in front of any bytes, decodes to itself and consumes exactly its bytes |
| Deserializer.ListRoundTrip | minimq/src/properties.rs:362-400 | iterating a serialized list yields the same list |
| Deserializer.BlockRoundTrip | minimq/src/properties.rs:402-449 | a serialized block read back yields its content, which iterates to the same properties |
| Deserializer.DecodeIsBounded | minimq/src/properties.rs:362-400 | on arbitrary bytes the iterator yields at most one item a byte |
| Cursor.MqttDeserializer.Pop | minimq/src/de/deserializer.rs:132-140 | takes one byte and moves on by one, or reports missing data and stays |
| Cursor.MqttDeserializer.TryTakeN | minimq/src/de/deserializer.rs:110-118 | takes exactly the next n bytes, or none of them |
| Cursor.MqttDeserializer.ReadU16 | minimq/src/de/deserializer.rs:143-145 | the cursor reads what the big-endian parser reads and moves by what it uses |
| Cursor.MqttDeserializer.ReadU32 | minimq/src/de/deserializer.rs:203-205 | the same for four bytes |
| Cursor.MqttDeserializer.ReadBool | minimq/src/de/deserializer.rs:174-181 | accepts 0 and 1 only |
| Cursor.MqttDeserializer.ReadVarint | minimq/src/de/deserializer.rs:153-155 | agrees with the reference reader, including how far the cursor moves on an error |
| Cursor.MqttDeserializer.ReadBytes | minimq/src/de/deserializer.rs:218-225 | a length announced by the enclosing sequence replaces the two-byte prefix, once |
| Cursor.MqttDeserializer.ReadText | minimq/src/de/deserializer.rs:207-212 | length-prefixed text, refused unless it is well-formed UTF-8 |
| Cursor.MqttDeserializer.ReadBlock | minimq/src/de/deserializer.rs:240-253 | reads a whole property block under its announced length, which an empty block leaves announced |
| Cursor.MqttDeserializer.ReadValue | minimq/src/properties.rs:484-589 | the value of every property identifier, and an error for every other number |
| Cursor.MqttDeserializer.ReadProperty | minimq/src/properties.rs:592-604 | one property through the cursor is one property by the reference parser |
| Cursor.MqttDeserializer.ReadReason | minimq/src/de/deserializer.rs:231-238 | optional trailing fields are absent exactly when no bytes remain |
| Cursor.MqttDeserializer.ReadPublish | minimq/src/de/received_packet.rs:124-150 | topic, identifier above QoS 0, properties, with the flags of the header |
| Cursor.MqttDeserializer.ReadBody | minimq/src/de/received_packet.rs:119-172 | reads what the reference parser reads, which is the layout of each packet type a client can receive (`ServerPackets.ServerRoundTrip`, `ServerPackets.AcceptedIsLayout`) |
| Cursor.MqttDeserializer.ReadPacket | minimq/src/de/received_packet.rs:98-176 | the visitor pulls header, length, flags check and body in that order |
| Cursor.NextItem | minimq/src/properties.rs:362-400 | one call of the iterator gives one item and moves by at least one byte |
| Cursor.Iterate | minimq/src/properties.rs:362-400 | run to its end the iterator terminates on every input and yields the reference decoding |
| Cursor.ParsePacket | minimq/src/de/received_packet.rs:42-76 | the parser, remainder included, is the function the round trips are proved about |
| Received.PacketRoundTrip | minimq/src/de/received_packet.rs:42-176 | parsing an encoded PUBLISH, acknowledgement or DISCONNECT gives the packet back, every field and the payload |
| Received.NormalKeepsItems | minimq/src/properties.rs:247-260 | the undecoded property block of a parsed packet iterates to the properties that were sent |
| ServerPackets.ServerRoundTrip | minimq/src/de/received_packet.rs:98-176 | CONNACK, SUBACK, UNSUBACK and PINGRESP, laid out as in the standard, parse to themselves: flag, code, identifier, properties and every return code |
| ServerPackets.ReceivedIsTransmitted | minimq/src/de/received_packet.rs:42-176 | every packet a client can receive is one frame and parses to itself |
| ServerPackets.AcceptedIsLayout | minimq/src/de/received_packet.rs:42-176 | whatever whole packet the parser accepts is, byte for byte, the layout of the packet it returns |
| ClientPackets.FlagsRoundTrip | minimq/src/wire.rs:222-246 | each connect flag is read back, and no other bit is set |
| ClientPackets.ConnectRoundTrip | minimq/src/packets.rs:22-42 | a CONNECT that serializes reads back: clean start, keepalive, properties, client identifier, will and credentials |
| ClientPackets.SubscribeRoundTrip | minimq/src/packets.rs:89-94 | a SUBSCRIBE reads back with its identifier, properties, and each filter with its options |
| ClientPackets.UnsubscribeRoundTrip | minimq/src/packets.rs:103-125 | an UNSUBSCRIBE reads back with its identifier, properties and filters |
| Packets.FrameIffWithinLimit | minimq/src/ser/mod.rs:148-170 | the backfilled remaining length describes the packet if and only if the body is within the MQTT limit |
| Packets.LongBodyMisframed | minimq/src/ser/mod.rs:148-170 | a body of 4 GiB is encoded without an error and is not one packet |
| Packets.FramesPrefixFree | minimq/src/de/packet_reader.rs:61-87 | no packet is a proper prefix of another |
| Packets.FirstPacketStable | minimq/src/de/packet_reader.rs:61-87 | once the length of a packet is known, more input does not change it |
| Packets.EncodedIntoIsFrame | minimq/src/ser/mod.rs:91-99 | whatever encodes is one whole packet that fits its buffer |
| Packets.EncodedPublishIsFrame | minimq/src/ser/mod.rs:101-121 | the same for a PUBLISH with an arbitrary payload writer |
| Serializer.MqttSerializer.PushBytes | minimq/src/ser/mod.rs:173-184 | appends all the bytes, or refuses and writes nothing |
| Serializer.MqttSerializer.Serialize | minimq/src/ser/mod.rs:380-420 | pushing fields one by one writes their concatenation, or stops with the first error |
| Serializer.MqttSerializer.Finalize | minimq/src/ser/mod.rs:148-170 | header and remaining length end up right before the body |
| Serializer.MqttSerializer.SerializePublish | minimq/src/ser/mod.rs:101-116 | header, then payload written into the remaining space; a payload that claims more than it was offered is refused |
| Serializer.EncodeWithOffset | minimq/src/ser/mod.rs:91-99 | the array holds the encoded packet at the returned offset, and nothing outside the buffer changed |
| Serializer.EncodePublishWithOffset | minimq/src/ser/mod.rs:101-121 | the same with the payload written into the remaining space and its claimed length checked |
| PacketReader.ReadsAreSplit | minimq/src/de/packet_reader.rs:26-124 | any admissible sequence of reads ends in the reference framing of the bytes read |
| PacketReader.FragmentationIrrelevant | minimq/src/de/packet_reader.rs:26-124 | two fragmentations of the same input hand on the same packets, whatever the buffer sizes |
| PacketReader.StreamRoundTrip | minimq/src/de/packet_reader.rs:26-124 | any packets a client can receive, one after the other and read back in any fragmentation, come out as the same packets |
| PacketReader.NeverRefuses | minimq/src/de/packet_reader.rs:26-51 | a packet that fits the buffer is never refused on the way |
| PacketReader.Reader.ReceiveBuffer | minimq/src/de/packet_reader.rs:26-87 | offers exactly the bytes still missing, and an empty window if and only if a packet is complete |
| PacketReader.Reader.Commit | minimq/src/de/packet_reader.rs:53-59 | the received bytes grow by exactly what was read |
| PacketReader.Reader.TakePacket | minimq/src/de/packet_reader.rs:105-124 | hands on the parse of the bytes received, which are exactly one packet, and starts over |
| PacketReader.FillPacketReader | minimq/src/mqtt_client/session/drive.rs:35-57 | ends with a whole packet or an error, keeps every byte received on all exits, and its reads are an admissible run |
| Outbound.NextStepIsNext | minimq/src/mqtt_client/outbound.rs:341-375 | the two passes over three queues select what a single-list scheduler selects |
| Meaning.ParsedHeader | minimq/src/de/received_packet.rs:98-176 | the type and QoS of a parsed packet stand in its first byte |
| Meaning.EncodedPublishReads | minimq/src/mqtt_client/session/operations.rs:195-243 | what admission encodes above QoS 0 parses to that PUBLISH, with its identifier, QoS and payload |
| Meaning.EncodedDirectReads | minimq/src/mqtt_client/session/operations.rs:245-284 | a QoS 0 publication parses to that PUBLISH, without an identifier |
| Meaning.ReleaseGenuine | minimq/src/mqtt_client/outbound.rs:540-550 | an encoded PUBREL parses to a PUBREL for its identifier |
| Meaning.ControlGenuine | minimq/src/mqtt_client/outbound.rs:474-498 | no control packet parses to a PUBLISH or a PUBREL |
| Meaning.DuplicateReads | minimq/src/mqtt_client/outbound.rs:265-276 | setting the DUP flag changes nothing else about the parsed PUBLISH |
| OutboundLaws.AckPacketExact | minimq/src/mqtt_client/outbound.rs:208-225 | an acknowledgement deletes exactly the packet of its kind and identifier, and nothing else |
| OutboundLaws.AckPacketKeeps | minimq/src/mqtt_client/outbound.rs:208-225 | with nothing partly written it keeps every queue invariant |
| OutboundLaws.AckReleaseKeeps | minimq/src/mqtt_client/outbound.rs:247-257 | the swap removal deletes exactly the matching release and keeps the invariants |
| OutboundLaws.QueueControlKeeps | minimq/src/mqtt_client/outbound.rs:193-200 | queueing a control packet leaves the packet in progress in progress |
| OutboundLaws.RetainKeeps | minimq/src/mqtt_client/outbound.rs:310-325 | admitting a packet leaves the packet in progress in progress and the identifiers distinct |
| OutboundLaws.CompleteFlushKeeps | minimq/src/mqtt_client/outbound.rs:327-339 | after a flush nothing waits for one and the unwritten packets are as before |
| OutboundLaws.ArmReplayKeeps | minimq/src/mqtt_client/outbound.rs:422-445 | re-arming starts every packet over, keeps its frame and length, and keeps the invariants |
| OutboundLaws.WriteStep | minimq/src/mqtt_client/outbound.rs:53-75 | writing part of the selected packet extends what was begun, or completes it and leaves the rest of the plan |
| OutboundLaws.DrainedIsAllSent | minimq/src/mqtt_client/outbound.rs:327-375 | with no step left and no flush outstanding, everything is sent and the control queue is empty |
| Arena.ArenaIsConcatenation | minimq/src/mqtt_client/outbound.rs:139-178 | the used front of the arena is the concatenation of the listed packets in admission order |
| Arena.SlicesCompact | minimq/src/mqtt_client/outbound.rs:208-225 | moving the tail down over a removed packet leaves every other packet's bytes intact |
| Arena.OutboundArena.SetConnectWorkspace | minimq/src/mqtt_client/outbound.rs:180-191 | reserves the space if the retained packets leave it free, else changes nothing |
| Arena.OutboundArena.QueueControl | minimq/src/mqtt_client/outbound.rs:193-200 | appends a control packet not yet written, or refuses when eight are pending |
| Arena.OutboundArena.QueueRelease | minimq/src/mqtt_client/outbound.rs:233-245 | appends a release, or refuses when eight are pending |
| Arena.OutboundArena.AckPacket | minimq/src/mqtt_client/outbound.rs:208-225 | compaction in place deletes exactly one packet of the abstract list |
| Arena.OutboundArena.AckRelease | minimq/src/mqtt_client/outbound.rs:247-257 | removes the matching release as the list operation does |
| Arena.OutboundArena.EncodePacket | minimq/src/mqtt_client/outbound.rs:294-304 | encoding and packing leave the list unchanged, also on failure, and stage the packet behind it |
| Arena.OutboundArena.EncodePublish | minimq/src/mqtt_client/outbound.rs:278-292 | the same within the retained budget |
| Arena.OutboundArena.EncodeScratch | minimq/src/mqtt_client/outbound.rs:175-178 | scratch encoding of a CONNECT leaves the list unchanged and takes the space announced |
| Arena.OutboundArena.EncodeScratchPublish | minimq/src/mqtt_client/outbound.rs:175-178 | scratch encoding of a QoS 0 PUBLISH leaves the list unchanged |
| Arena.OutboundArena.Pack | minimq/src/mqtt_client/outbound.rs:447-455 | the move in place puts the packet right behind the retained ones |
| Arena.OutboundArena.RetainPacket | minimq/src/mqtt_client/outbound.rs:310-325 | appends the staged packet to the list, or refuses at eight |
| Arena.OutboundArena.CompleteFlush | minimq/src/mqtt_client/outbound.rs:327-339 | written packets become sent and written control packets are dropped |
| Arena.OutboundArena.MarkPublishDup | minimq/src/mqtt_client/outbound.rs:265-276 | sets the DUP bit of every retained PUBLISH in the array and touches no other byte |
| Arena.OutboundArena.ArmReplay | minimq/src/mqtt_client/outbound.rs:422-445 | everything starts over, publications marked as duplicates |
| Arena.OutboundArena.NextStep | minimq/src/mqtt_client/outbound.rs:341-375 | names the scheduled packet, its progress and where its bytes lie in the array |
| Arena.OutboundArena.SetControlWritten | minimq/src/mqtt_client/outbound.rs:377-384 | records progress on exactly that entry |
| Arena.OutboundArena.SetReleaseWritten | minimq/src/mqtt_client/outbound.rs:404-420 | records progress on the first release of the identifier |
| Arena.OutboundArena.SetRetainedWritten | minimq/src/mqtt_client/outbound.rs:386-402 | records progress on the first retained packet of the identifier |
| PacketIds.DrawsBounded | minimq/src/mqtt_client/session/state.rs:121-131 | consecutive draws that all hit live identifiers are at most the number of queue entries, across the wrap-around |
| PacketIds.NextPacketId | minimq/src/mqtt_client/session/state.rs:121-131 | ends within seventeen draws with an identifier not in use |
| Handshake.Negotiate | minimq/src/mqtt_client/session/handshake.rs:157-190 | the loop over CONNACK properties computes the fold, keeps the quota between 1 and the local maximum, and never renames a named client |
| Negotiation.LastDecides | minimq/src/mqtt_client/session/handshake.rs:157-195 | the last Maximum Packet Size, Server Keep Alive, Receive Maximum, Maximum QoS and assigned identifier decide |
| Negotiation.RefusedIff | minimq/src/mqtt_client/session/handshake.rs:157-195 | the terms are refused if and only if an item is undecodable, out of range, or an identifier that was not asked for |
| Negotiation.TermsTaken | minimq/src/mqtt_client/session/handshake.rs:157-215 | the connection runs on the terms decided |
| Negotiation.ConnectedIff | minimq/src/mqtt_client/session/handshake.rs:63-234 | a connect succeeds if and only if the CONNECT encodes, a CONNACK accepts it, no property offends and an assigned identifier fits |
| Negotiation.RefusalReported | minimq/src/mqtt_client/session/handshake.rs:146-149 | a refused CONNECT is reported with its code and leaves the session as it was |
| Negotiation.WrongAnswer | minimq/src/mqtt_client/session/handshake.rs:112-144 | any other answer fails the connect with its own error |
| Greetings.ConnectSays | minimq/src/mqtt_client/session/handshake.rs:67-107 | the CONNECT asks for a clean start if and only if no session is believed present, and announces keepalive, identity and limits |
| Greetings.OpenBelieves | minimq/src/mqtt_client/session/handshake.rs:151-155 | a connect makes the client believe in a session if it succeeds, and ends that belief if it is told there is none and fails |
| Greetings.PresentIff | minimq/src/mqtt_client/session/handshake.rs:151-226 | in every run state a session is believed present exactly as the history of connects says |
| Greetings.FirstIsConnect | minimq/src/mqtt_client/session/handshake.rs:67-107 | the first packet on every connection of every run reads as the CONNECT of that session |
| Runs.ServiceKeeps | minimq/src/mqtt_client/session/drive.rs:241-377 | one service step keeps the stream in order whatever the transport does |
| Runs.ReceiveKeeps | minimq/src/mqtt_client/session/inbound.rs:14-252 | handling any packet keeps it while nothing is partly written |
| Runs.AskKeeps | minimq/src/mqtt_client/session/operations.rs:62-243 | so does admitting any request |
| Runs.OpenKeeps | minimq/src/mqtt_client/session/handshake.rs:30-234 | so does any outcome of a connect |
| Runs.StreamIntegrity | minimq/src/mqtt_client/session/drive.rs:241-377 | in every state of every run the transport holds whole packets that parse to what the client means by them, and at most a beginning of one more, which the scheduler resumes at the right byte |
| PeerView.PeerReceives | minimq/src/mqtt_client/session/drive.rs:241-377 | a peer reading that stream in any fragmentation has received exactly the completed packets |
| Conservation.QuotaStep | minimq/src/mqtt_client/session/inbound.rs:48-81 | every event keeps quota plus publications in flight between the maximum and the maximum plus those inherited |
| Conservation.QuotaConservation | minimq/src/mqtt_client/session/operations.rs:205-243 | over every run no quota leaks; on a fresh session quota plus publications in flight is exactly the maximum |
| Conservation.OpenQuota | minimq/src/mqtt_client/session/handshake.rs:147-202 | a successful connect starts with the negotiated quota, at least one, and with nothing inherited on a fresh session |
| Reconnect.NeedGrows | minimq/src/mqtt_client/session/handshake.rs:205-212 | an assigned client identifier lengthens the next CONNECT by exactly its bytes |
| Reconnect.ReserveStep | minimq/src/mqtt_client/outbound.rs:180-191 | every event keeps the reserve equal to what the next CONNECT takes |
| Reconnect.ReconnectAlwaysFits | minimq/src/mqtt_client/session/handshake.rs:87-107 | after any successful connect the next CONNECT always encodes beside the admitted packets, if and only if it is within the MQTT limit |
| InboundOnce.InboundStep | minimq/src/mqtt_client/session/inbound.rs:117-195 | every event keeps the pending identifiers distinct, at most eight, and covering every unreleased delivery |
| InboundOnce.DeliveredOncePerRelease | minimq/src/mqtt_client/session/inbound.rs:117-195 | two deliveries of an identifier in one session generation always have a PUBREL for it in between |
| Answers.ActionReads | minimq/src/mqtt_client/outbound.rs:474-498 | each control packet parses to the acknowledgement it stands for |
| Answers.ReceiveAnswers | minimq/src/mqtt_client/session/inbound.rs:117-195 | handling a PUBLISH above QoS 0 or a PUBREL adds exactly one entry to the control queue, whose bytes parse to the answer with the right code; nothing else adds any |
| Answers.AnsweredExactlyOnce | minimq/src/mqtt_client/session/inbound.rs:117-195 | between idle states of a connection as many answers of an identifier and code are completed as packets called for them |
| Answers.AnswerKept | minimq/src/mqtt_client/session/inbound.rs:117-195 | an answer owed was completed since, or is still to be written, in every later state of the connection |
| Delivery.DeliversIff | minimq/src/mqtt_client/session/inbound.rs:141-196 | a packet reaches the application if and only if it is a fresh publication whose answer can be sent |
| Delivery.EndsIff | minimq/src/mqtt_client/session/inbound.rs:210-252 | a packet ends the connection if and only if it is a DISCONNECT, a CONNACK, a PUBLISH lacking its identifier, or needs an answer the broker does not accept |
| Delivery.RefusalTold | minimq/src/mqtt_client/session/inbound.rs:21-116 | the caller is told of a refusal if and only if the broker refuses something pending, and with its code |
| Delivery.PendingIff | minimq/src/mqtt_client/session/inbound.rs:117-195 | in every run state the pending identifiers are those noted and not released since |
| Delivery.DeliveredWhenNew | minimq/src/mqtt_client/session/inbound.rs:167-194 | over runs a QoS 2 PUBLISH is delivered if and only if none under its identifier was noted since the last PUBREL, there is room, and the PUBREC can be sent |
| Keepalive.PingPlanned | minimq/src/mqtt_client/session/state.rs:49-73 | in every run state the next PINGREQ is planned five seconds, or half the keepalive, before the keepalive runs out, counted from the last activity |
| Keepalive.PingExactlyWhenDue | minimq/src/mqtt_client/session/drive.rs:201-260 | an event adds a PINGREQ if and only if it is a service step on an idle stream at or after the due time, with none unanswered and none refused |
| Keepalive.DeadlineIff | minimq/src/mqtt_client/session/drive.rs:272-377 | a PINGRESP is awaited for five seconds from the PINGREQ it answers, and only then |
| Keepalive.TimersStopped | minimq/src/mqtt_client/session/handshake.rs:49-61 | without a connection no timer runs |
| Limits.WithinBrokerLimit | minimq/src/mqtt_client/session/drive.rs:272-377 | in every run state nothing completed after the CONNECT exceeds the Maximum Packet Size of the broker |
| Admission.PublishAdmitted | minimq/src/mqtt_client/session/operations.rs:195-243 | an admitted publication is kept once, within the limit, under an unused identifier, and parses to what was asked for |
| Admission.PublishAdmittedIff | minimq/src/mqtt_client/session/operations.rs:170-243 | a publication is admitted if and only if the connection lives, the QoS is granted, and slot, quota, space, payload and limit allow it |
| Admission.PublishRefused | minimq/src/mqtt_client/session/operations.rs:195-243 | which errors stand for a full list, missing quota or space, and the broker limit |
| Admission.SubscribeAdmitted | minimq/src/mqtt_client/session/operations.rs:62-102 | an admitted SUBSCRIBE is kept once and reads back with every filter |
| Admission.UnsubscribeAdmitted | minimq/src/mqtt_client/session/operations.rs:113-153 | the same for UNSUBSCRIBE |
| Admission.NotReissued | minimq/src/mqtt_client/session/state.rs:121-131 | an identifier is not drawn again within the next 3854 draws |
| Handles.GenerationCounts | minimq/src/mqtt_client/session/state.rs:109-115 | the session generation counts the connects that were told there is no session, modulo 2^32 |
| Handles.InvalidatedIff | minimq/src/mqtt_client/session/mod.rs:94-129 | a handle is invalidated if and only if session state was discarded since, up to 2^32 times over |
| Handles.HandleStatus | minimq/src/mqtt_client/session/mod.rs:94-129 | over runs a handle is pending until the acknowledgement that ends its operation, and complete from then on, until state is discarded or its identifier is drawn again |
| Drain.ServicePlan | minimq/src/mqtt_client/session/drive.rs:241-260 | a successful service step keeps the plan, apart from one ping, and lowers the measure unless there was nothing to do |
| Drain.DrainsAll | minimq/src/mqtt_client/session/drive.rs:396-399 | a successful drain leaves the stream clean and has written the pending packets, each once and in order |
| Drain.ServiceFailures | minimq/src/mqtt_client/session/drive.rs:241-399 | service on a live connection fails only if the transport does or a packet exceeds the broker's limit |
| Drain.CanDrain | minimq/src/mqtt_client/session/drive.rs:396-399 | on a transport that accepts everything, and with all packets within the limit, a drain reaches idle |
| Drain.ReplayedPackets | minimq/src/mqtt_client/outbound.rs:265-276 | a replayed packet has the bytes it was admitted with, except for the DUP flag of a PUBLISH |
| Drain.ReplayExactlyOnce | minimq/src/mqtt_client/session/handshake.rs:30-47 | after a resumed connect the drain writes each pending packet exactly once, in order, right after the CONNECT; `Replay.NotWrittenTwice` covers the rest of the connection |
| Replay.StepQueued | minimq/src/mqtt_client/session/drive.rs:60-399 | on a connection that stays alive, any event leaves a written entry written, and its acknowledgement alone takes it out |
| Replay.StaysWritten | minimq/src/mqtt_client/outbound.rs:327-420 | over any stretch of a connection a written entry stays written unless it is acknowledged |
| Replay.NotWrittenTwice | minimq/src/mqtt_client/outbound.rs:341-420 | two packets of one identifier and kind on a connection have the acknowledgement of the first between them |
| Replay.IdleMeansWritten | minimq/src/mqtt_client/session/drive.rs:241-260 | in every idle state of every run each queued entry was completed on the current connection |
| Release.ReleasedIff | minimq/src/mqtt_client/session/inbound.rs:66-104 | a PUBREC moves its identifier to the pending releases if and only if it reports success and a PUBREL can be queued |
| Release.ReleaseCanBeRefused | minimq/src/mqtt_client/session/inbound.rs:66-104 | a run from a new session to the state in which a successful PUBREC drops its publication and releases nothing |
| ExactlyOnce.ReleaseIsAlone | minimq/src/mqtt_client/session/state.rs:121-131 | when the broker reads a PUBREL, no publication is retained under its identifier |
| ExactlyOnce.SaidIntended | minimq/src/mqtt_client/session/drive.rs:272-377 | what the broker parses from the next packet is what the client kept it as |
| ExactlyOnce.ReadGood | minimq/src/mqtt_client/session/inbound.rs:66-116 | whatever the broker reads next, a publication handed on is not handed on again |
| ExactlyOnce.ReplyLinked | minimq/src/mqtt_client/session/inbound.rs:66-116 | handling any reply keeps the bookkeeping of client and broker, and what guards a publication handed on |
| ExactlyOnce.ReopenGood | minimq/src/mqtt_client/session/handshake.rs:63-234 | so does a new transport, whether the broker kept, lost or replaced its session, unless the resume is mistaken |
| ExactlyOnce.MoveKeepsLinked | minimq/src/mqtt_client/session/drive.rs:241-377 | every move of client, broker or network keeps the bookkeeping |
| ExactlyOnce.MoveKeepsGood | minimq/src/mqtt_client/session/drive.rs:241-377 | every move but a mistaken resume keeps the agreement about what was handed on |
| ExactlyOnce.HandedOnAtMostOnce | minimq/src/mqtt_client/session/inbound.rs:66-116 | in every history without a mistaken resume no publication is handed on twice |
| AtLeastOnce.ReadKept | minimq/src/mqtt_client/session/inbound.rs:66-116 | whatever the broker reads next, every answer under way is still true and every identifier it holds is accounted for at the client |
| AtLeastOnce.HandlePubs | minimq/src/mqtt_client/session/inbound.rs:14-206 | handling a packet drops a QoS 2 publication only if the packet is a PUBREC for it |
| AtLeastOnce.ReplyKept | minimq/src/mqtt_client/session/inbound.rs:66-116 | handling any reply keeps that accounting |
| AtLeastOnce.OpenLasts | minimq/src/mqtt_client/session/handshake.rs:63-234 | a connect keeps what is in flight unless the broker reports that it has no session |
| AtLeastOnce.MoveKeepsKept | minimq/src/mqtt_client/session/drive.rs:241-377 | every move of client, faithful broker or network keeps the accounting |
| AtLeastOnce.GivenUpOnlyWhenHandedOn | minimq/src/mqtt_client/session/inbound.rs:66-116 | in every faithful history a publication leaves the client only once handed on, refused, or with the session reported gone |
| AtLeastOnce.HandedOnExactlyOnce | minimq/src/mqtt_client/session/inbound.rs:66-116 | without a mistaken resume, a publication given up without a refusal was handed on once and only once |
| AtLeastOnce.NothingLost | minimq/src/mqtt_client/session/inbound.rs:66-116 | while the broker keeps its session, a publication leaves the client only once handed on or refused by PUBREC |
| SessionLoss.MistakeRepeats | minimq/src/mqtt_client/session/handshake.rs:142-234 | after a mistaken resume some continuation hands a publication on twice |
| SessionLoss.HandedOnTwiceIff | minimq/src/mqtt_client/session/handshake.rs:142-234 | a resumed connection can do so if and only if the session replaced the client's own unnoticed and a publication already handed on is still retained |
| SessionLoss.SessionLossRepeats | minimq/src/mqtt_client/session/handshake.rs:142-234 | a history from a new session in which a publication is handed on twice |
| Client.CheckCodes | minimq/src/mqtt_client/session/inbound.rs:26-28 | the loop over return codes reports the first failure |
| Client.WriteAll | minimq/src/mqtt_client/outbound.rs:554-567 | the transport holds exactly the first part of the bytes, and all of them if and only if it succeeds |
| Client.FullService | minimq/src/mqtt_client/session/drive.rs:66-74 | with a full control queue, service keeps it full until the flush that leaves nothing partly written |
| Client.Connection.constructor | minimq/src/mqtt_client/session/mod.rs:41-63 | a new session is at the start of a run |
| Client.Connection.PeerHas | minimq/src/mqtt_client/session/drive.rs:241-377 | whatever was called, a peer that read everything given to the live transport has exactly the completed packets |
| Client.Connection.Disconnect | minimq/src/mqtt_client/session/handshake.rs:49-61 | the transport is dead, timers and reader are reset, everything pending is armed for replay |
| Client.Connection.FlushNow | minimq/src/mqtt_client/session/drive.rs:379-394 | one flush step, including a suspended one |
| Client.Connection.Perform | minimq/src/mqtt_client/session/drive.rs:272-377 | one write step on the selected packet, with every outcome of the transport |
| Client.Connection.QueuePing | minimq/src/mqtt_client/session/drive.rs:201-223 | a PINGREQ is queued when due, unless one is pending or it would be refused; when that is: `Keepalive.PingPlanned` |
| Client.Connection.ServiceOutboundOnce | minimq/src/mqtt_client/session/drive.rs:241-260 | one service step of the run, keeping the object reachable |
| Client.Connection.FlushOutbound | minimq/src/mqtt_client/session/drive.rs:396-399 | the loop ends, its steps are a drain, and on success everything is sent and the stream is clean |
| Client.Connection.OnPubRec | minimq/src/mqtt_client/session/inbound.rs:66-104 | the PUBREC rules on the mutable state |
| Client.Connection.OnPubRel | minimq/src/mqtt_client/session/inbound.rs:117-146 | the PUBREL rules, with the order of forgetting and queueing |
| Client.Connection.OnPublish2 | minimq/src/mqtt_client/session/inbound.rs:167-194 | the rules for an inbound QoS 2 PUBLISH: recorded before the PUBREC is queued, delivered only when new |
| Client.Connection.OnPacket | minimq/src/mqtt_client/session/inbound.rs:14-206 | handling any packet on the object is handling it on the state, which answers, delivers and ends as `Answers.ReceiveAnswers` and `Delivery` say |
| Client.Connection.ProcessReceived | minimq/src/mqtt_client/session/inbound.rs:210-252 | one receive step of the run, or a disconnect when the packet does not parse |
| Client.Connection.ReadPacket | minimq/src/mqtt_client/session/drive.rs:225-239 | on an ended connection nothing is read; otherwise a packet is complete, or nothing changed but the reader, or the connection is over |
| Client.Connection.ServiceNow | minimq/src/mqtt_client/session/drive.rs:184-199 | a missed PINGRESP deadline ends the connection before anything is written |
| Client.Connection.DrivePacket | minimq/src/mqtt_client/session/drive.rs:60-108 | the loop ends; it hands on exactly the waiting packet, if that is for the application, or stops with everything sent and reports whether anything was done |
| Client.Connection.WaitOnce | minimq/src/mqtt_client/session/drive.rs:149-170 | a packet is read only when everything is sent and nothing else was done, and every other outcome leaves no packet waiting |
| Client.Connection.DrawId | minimq/src/mqtt_client/session/state.rs:121-131 | the identifier drawn is in use by no retained packet and no release |
| Client.Connection.AdmitPublication | minimq/src/mqtt_client/session/operations.rs:195-243 | admission of a publication, with its order of checks, on the arena and the quota |
| Client.Connection.PublishRetained | minimq/src/mqtt_client/session/operations.rs:195-243 | admit, then drain also when admission failed, and report the drain's failure first |
| Client.Connection.PublishDirect | minimq/src/mqtt_client/session/operations.rs:245-284 | at QoS 0: drain, encode in scratch space, write directly; nothing is retained |
| Client.Connection.Publish | minimq/src/mqtt_client/session/operations.rs:170-285 | a dead connection or an unsupported QoS is refused without touching anything; otherwise as above |
| Client.Connection.Subscribe | minimq/src/mqtt_client/session/operations.rs:62-102 | a dead connection or an empty list is refused without touching anything; otherwise drain, admit and drain again |
| Client.Connection.Unsubscribe | minimq/src/mqtt_client/session/operations.rs:113-153 | the same for UNSUBSCRIBE |
| Client.Connection.CloseWith | minimq/src/mqtt_client/session/operations.rs:18-46 | a DISCONNECT that does not encode is refused first; on success the stream is whole packets ending with it, and the connection is over |
| Client.DirectSays | minimq/src/mqtt_client/session/operations.rs:245-284 | the direct PUBLISH parses to what was asked for |
| Client.DisconnectSays | minimq/src/mqtt_client/session/operations.rs:18-46 | the DISCONNECT parses with its reason |
| Client.Connection.Greet | minimq/src/mqtt_client/session/handshake.rs:87-111 | the CONNECT is encoded beside the retained packets, sent whole, and its size reserved, or nothing changed; what it says is `Greetings.ConnectSays` |
| Client.Connection.AcceptAck | minimq/src/mqtt_client/session/handshake.rs:142-234 | reject, reset or resume, negotiate and commit, on the mutable state |
| Client.Connection.Connect | minimq/src/mqtt_client/session/handshake.rs:30-234 | a connect on the object is one open event of the run; it succeeds if and only if the handshake does |
| StagingDevice.MqttVarintLen | mqtt-staging/src/lib.rs:886-893 | the length loop agrees with the encoder |
| StagingDevice.RequiredRx | mqtt-staging/src/lib.rs:867-884 | the receive budget is the size of the largest chunk packet of that payload |
| StagingDevice.ReadChunkProperties | mqtt-staging/src/lib.rs:850-865 | the first correlation data and the last offset property count |
| StagingService.Service.QueueAction | mqtt-staging/src/lib.rs:630-640 | while subscribing a status waits for the subscription |
| StagingService.Service.Begin | mqtt-staging/src/lib.rs:254-269 | startup as the device function, keeping the run invariant |
| StagingService.Service.Stop | mqtt-staging/src/lib.rs:317-331 | abort ends an active transfer and its request |
| StagingService.Service.Report | mqtt-staging/src/lib.rs:352-397 | a storage result advances, completes or fails the transfer; a late one is ignored |
| StagingService.Service.TakeManifest | mqtt-staging/src/lib.rs:479-536 | a manifest is judged as the device function judges it; the codes are `StagingStatus.ManifestVerdict` |
| StagingService.Service.TakeChunk | mqtt-staging/src/lib.rs:538-624 | a chunk is judged as the device function judges it; what follows for storage and host is `StagingStatus.ChunkRepeated` and `StagingStatus.ChunkBeyond` |
| StagingService.Service.HandleInbound | mqtt-staging/src/lib.rs:399-424 | routing by topic and the retained flag |
| StagingService.Service.Advance | mqtt-staging/src/lib.rs:433-477 | one step, with every answer of the connection |
| StagingLaws.AcceptedIff | mqtt-staging/src/lib.rs:783-822 | a chunk is accepted if and only if it continues the object, is aligned, fits, and pads with erased bytes |
| StagingLaws.StepKeeps | mqtt-staging/src/lib.rs:254-640 | every operation keeps the run invariant, the identity of the transfer and the complete phase |
| StagingLaws.BeginArms | mqtt-staging/src/lib.rs:254-269 | startup leaves the service subscribed or about to be |
| StagingLaws.StaysArmed | mqtt-staging/src/lib.rs:433-477 | and every operation keeps it so |
| StagingLaws.ArmedSince | mqtt-staging/src/lib.rs:254-640 | in every run, every state after a startup is armed |
| StagingLaws.SubscribedIff | mqtt-staging/src/lib.rs:254-269 | in every run the service counts as subscribed exactly if a subscription finished since the last startup without a session |
| StagingLaws.EveryRun | mqtt-staging/src/lib.rs:254-640 | in every run the writes asked for lie end to end, aligned and within capacity; a request is outstanding exactly while preparing or writing |
| StagingHost.WaitStatus | mqtt-staging/py/mqtt_staging.py:223-246 | the first status that is neither skipped nor refused, with everything before it skipped |
| StagingHost.Stage | mqtt-staging/py/mqtt_staging.py:299-377 | the loop serves the messages as the reference does |
| StagingHost.ServeIsHonest | mqtt-staging/py/mqtt_staging.py:249-377 | everything published is object data that a status of this transfer asked for, and success needs a matching completion |
| StagingHost.PropertiesSurvive | mqtt-staging/py/mqtt_staging.py:178-183 | the device reads back the identifier and offset the host wrote |
| StagingAgreement.ChunkEnd | mqtt-staging/py/mqtt_staging.py:340-352 | the padded chunk is aligned and ends after a whole chunk or with the rounded-up object |
| StagingAgreement.ChunkSizeAligned | mqtt-staging/py/mqtt_staging.py:171-175 | the chunk size is the largest multiple of the write size within request and MTU |
| StagingAgreement.HostAnswers | mqtt-staging/py/mqtt_staging.py:299-377 | every status of a ready device is answered with the next chunk |
| StagingAgreement.ChunkVerdict | mqtt-staging/src/lib.rs:783-822 | that chunk is accepted if and only if it ends within capacity, and then strictly advances the transfer |
| StagingAgreement.FittingObjectRefused | mqtt-staging/src/lib.rs:783-822 | a run in which an object of exactly the storage capacity is refused at its second chunk |
| StagingAgreement.EveryChunkAccepted | mqtt-staging/src/lib.rs:783-822 | when the rounded-up object fits, no chunk is refused |
| StagingAgreement.ChunkFitsBudget | mqtt-staging/src/lib.rs:867-884 | the chunk's PUBLISH is no longer than the receive budget the device checked |
| StagingAgreement.BudgetIsTight | mqtt-staging/src/lib.rs:867-884 | a full chunk at a ten-digit offset takes exactly that budget |
| StagingAgreement.ChunkArrives | mqtt-staging/src/lib.rs:399-424 | parsed from its bytes, the PUBLISH carries the same chunk, offset and transfer |
| StagingStatus.StatusNotLost | mqtt-staging/src/lib.rs:433-477 | a status owed is published as the device then stands, or a status is still owed |
| StagingStatus.StatusPublished | mqtt-staging/src/lib.rs:433-477 | with a free connection it is published at once |
| StagingStatus.ManifestVerdict | mqtt-staging/src/lib.rs:479-536 | an idle device takes a manifest if and only if it is acceptable, and otherwise owes a status with the right code, on which the host gives up |
| StagingStatus.UnreadableManifest | mqtt-staging/src/lib.rs:479-487 | so it does for one that cannot be read |
| StagingStatus.ManifestRepeated | mqtt-staging/src/lib.rs:488-499 | a repeated manifest changes nothing but the status owed, and the host goes on, finishes or gives up as the transfer stands |
| StagingStatus.OtherManifest | mqtt-staging/src/lib.rs:488-505 | another manifest is ignored |
| StagingStatus.ChunkRepeated | mqtt-staging/src/lib.rs:538-624 | a chunk delivered again leaves transfer and storage alone, and the status owed makes the host send the next chunk |
| StagingStatus.ChunkBeyond | mqtt-staging/src/lib.rs:538-624 | a chunk from beyond the expected offset leaves them alone too, and the host gives up |
| StagingStatus.ChunkJudged | mqtt-staging/src/lib.rs:783-822 | a chunk from the expected offset is written if and only if it is whole write units that fit, erased past the end of the object; otherwise the transfer fails with the right code, and the host gives up |
| StagingStatus.LastOffsetDecides | mqtt-staging/src/lib.rs:850-865 | the last `offset` property decides, whatever else is there |
| StagingStatus.FirstIdDecides | mqtt-staging/src/lib.rs:850-865 | the first correlation data is the transfer identifier |
| StagingStatus.Unheeded | mqtt-staging/src/lib.rs:399-424 | retained messages, and chunks that lack offset or identifier, change nothing; only other topics are left to others |
| StagingStatus.ChunkIgnored | mqtt-staging/src/lib.rs:538-570 | chunks are ignored while preparing or writing, and those of other transfers always |
| StagingStatus.ChunkAfterEnd | mqtt-staging/src/lib.rs:556-562 | a chunk after the end is answered with a status that ends the command |
| StagingStatus.StorageFailure | mqtt-staging/src/lib.rs:352-397 | a failed storage request fails the transfer, and the host gives up |
| StagingStatus.StartupOwes | mqtt-staging/src/lib.rs:254-269 | a reconnect owes the current status again |
| StagingStatus.AbortHeard | mqtt-staging/src/lib.rs:317-333 | aborting an active transfer makes the host give up, and otherwise nothing happens |
| StagingStatus.RepeatsHarmless | mqtt-staging/src/lib.rs:538-624 | any number of chunks delivered again leaves the device waiting for, and prompting, the same chunk |
| StagingStatus.RoundsComplete | mqtt-staging/py/mqtt_staging.py:340-377 | the exchange completes in exactly as many rounds as chunks are left, whatever chunks are delivered again on the way, and the host reports success |
| Staging.EndJobKeeps | mqtt-staging/src/lib.rs:352-397 | a finished write extends the agreement to the new offset; a failed one does not harm it |
| Staging.DeliverKeeps | mqtt-staging/src/lib.rs:399-624 | delivering any message, in any order and any number of times, keeps the agreement |
| Staging.StorageAgrees | mqtt-staging/src/lib.rs:352-624 | in every state of every run storage agrees with the object up to the next offset, and wholly once complete |
| Staging.SuccessMeansStored | mqtt-staging/py/mqtt_staging.py:322-325 | a host that reports success has its whole object stored |
| Decimal.RoundTrip | mqtt-staging/src/lib.rs:853-861 | an offset survives the trip through decimal text |
| Decimal.AtMostTenDigits | mqtt-staging/src/lib.rs:875-876 | a 32-bit offset has at most ten digits |

## Left out

- The transport, timers and executors: transport calls are nondeterministic, instants are arbitrary numbers.
- The endless loops of `wait_for_progress`, `poll` and `recv`: one round is modelled (`Client.Connection.WaitOnce`).
- The second `packet_available` check in the drive loop: nothing is received between the two checks, so it never fires.
- A QoS 0 publish or a DISCONNECT cancelled half-way: documented as not cancel-safe; the model ends the connection.
- Arenas and payloads of 4 GiB and more: see `Packets.FrameIffWithinLimit`.
- Validity rules for the properties of requests and of DISCONNECT (`valid_for`), topic rules and subscription options.
- That retained publishes and pending releases stay within Receive Maximum: the code returns quota at PUBREC.
- The order of PUBRELs (section 4.6): acknowledging a release reorders the queue.
- At-least-once delivery of inbound QoS 2 when the PUBREC cannot be queued: only the no-duplicates direction holds.
- Logging, configuration builders, `mqtt-rpc`.
- serde plumbing: the model states the bytes each type pushes or pulls, not the serializer traits.
- The nine-byte workspace in which control packets are encoded before they are written: their bytes are used directly.
- JSON parsing of manifests and statuses and the FNV-1a checksum: a manifest carries what the JSON reader made of it.
- Topic string buffers beyond their length limit, and negative chunk sizes on the host's command line.
- StagingDevice.RequiredRx: does not model machine-word overflow for chunk sizes near the address-space limit.
- Liveness under loss: the host does not retransmit, so completion is stated for exchanges that lose nothing.
