# ptp4u, modelled and proved

ptp4u is a unicast server of the Precision Time Protocol, IEEE 1588-2019. This project models its three hard parts and
proves what they promise. `dafny verify dfyconfig.toml` checks all of it.

**The wire codec** (`Wire`, `Types`, `Tlvs`, `Packets`). Packets are a 34-octet header (section 13.3 of IEEE
1588-2019), a body and a chain of TLVs (section 14.1). Encoding and decoding are functions on octets; the code that
writes at hand-kept offsets into a buffer, and the loops that read, are methods proved against them. Round trips are
stated as equivalences: the exact side condition under which a TLV, a chain or a packet is read back. PATH_TRACE
(section 16.2) is the one kind whose reading depends on what follows it, so its condition names the octets behind it.
`Octets` says what stands where, octet by octet and by number, for every packet and TLV, and which octets are accepted.

**Transmit timestamps** (`ControlMessages`, `TxTimestamp`). Two scanners over control messages, proved against the plain
list of messages in the buffer, and two loops that drain the error queue, for any sequence of results.

**The subscription protocol** (section 16.1, unicast negotiation). `Subscription` and `Jobs` say on values what a
subscription is and what a worker's job does to it; `SubscriptionClients`, `Worker` and `Servers` are the program's
objects, whose fields are updated in place, proved against that. `Machine` is the server as a state machine. Its steps
are: a handler processes one TLV or one delay request; a spawned run starts, finds a tick, handles it, leaves its loop
for a stop token or a cancelled context, clears its flag, queues its Cancel; a worker takes a job or a signaling entry;
an inventory, drain, undrain, reload. A Stop that finds its slot full waits with the lock of its subscription, and a
step that takes a lock can happen only while it is free. `Invariants`, `History`, `Rounds`, `Locks` and `Queues` prove
what each step keeps. `Effects` says in numbers what each step does. `Runs`, `Deliveries`, `Timers`, `Origins` and `Contexts`
state the guarantees for every reachable state and every run, `Handlers` what a client observes of one step. `Servers.Server` makes each of these steps in place: it takes any step
exactly when the machine allows it, with exactly its effect. `Stats` holds the live and report counters.

Three promises hold with a condition only, which is proved to be exact. Queues hold references, so a packet is read when
its entry is taken: a grant that is followed by another one for the same subscription before that is never sent
(`Deliveries`). A cancel that comes while an earlier one is not served yet keeps the lock; if every run of that
subscription then leaves its loop by another way, run, handler and inventories wait for ever (`Locks`, `Runs`). A
renewal granted while the run is between its loop and the clearing of its flag is served by no run (`Runs`).

Where code and comments differ, the code is followed. A PATH_TRACE loop reads one identity more than its length field
names when the buffer allows it, and never the last octet of the buffer. A request is recorded (expiry, interval) before
its limits are looked at, so limits are claimed for grants and runs, not for the stored interval. `go sc.Start` is
asynchronous, so two requests in a row can spawn two runs of one subscription; one running subscription for each key is
not claimed. A reload takes over the dynamic settings only. `IncReload` and `IncTXTSMissing` store 1, whatever they are called.

## Model

| member | source | states |
|---|---|---|
| `Wire.ValueOfBE` | protocol/tlvs.go:43-46 | octets of a value that fits, most significant first (Wire.BEOctets), give the value back |
| `Wire.BEOfValue` | protocol/tlvs.go:48-53 | and the octets of any read value are the octets that were read |
| `Wire.BEOctets` | protocol/protocol.go:116-131 | octet i of a number written in n octets is v / 256^(n-1-i) modulo 256 |
| `Wire.PutOctets` | protocol/protocol.go:116-131 | after a number was put at an offset, octet off + i of the buffer is that octet and every other one is as it was |
| `Wire.U16Octets` | protocol/protocol.go:81-106 | a 16-bit read is 256 b[off] + b[off+1] |
| `Wire.U32Octets` | protocol/protocol.go:81-106 | a 32-bit read by the weights of its four octets |
| `Wire.U64Octets` | protocol/protocol.go:81-106 | a 64-bit read by the weights of its eight octets |
| `Octets.HeaderOctets` | protocol/protocol.go:116-131 | the 34 octets of a header, each by number: where every field stands, in which order its octets, signed ones in two's complement |
| `Octets.PacketParts` | protocol/protocol.go:177-350 | an encoded packet is 34 octets of header, the body up to 64, 44, 54 or 44, and the TLVs behind it |
| `Octets.SyncOctets` | protocol/protocol.go:245-296 | octets 34 to 44 of Sync, Delay_Req and Follow_Up: six of seconds, four of nanoseconds |
| `Octets.DelayRespOctets` | protocol/protocol.go:324-335 | octets 34 to 54 of a Delay_Resp: time of receipt, identity and port of the one who asked |
| `Octets.AnnounceOctets` | protocol/protocol.go:177-199 | octets 34 to 64 of an Announce, field by field |
| `Octets.SignalingOctets` | protocol/unicast.go:45-56 | octets 34 to 44 of a Signaling packet: identity and port of the target |
| `Octets.FixedSizeOctets` | protocol/tlvs.go:170-283 | every octet of the five fixed-size TLVs |
| `Octets.PathTraceOctets` | protocol/tlvs.go:295-304 | identity i of a PATH_TRACE stands at octet 4 + 8 i, most significant octet first |
| `Octets.TimeOffsetOctets` | protocol/tlvs.go:336-353 | the octets of an ALTERNATE_TIME_OFFSET_INDICATOR, with the length of the name, the name and a zero octet if that is odd |
| `Octets.ChainOctets` | protocol/tlvs.go:71-94 | the TLVs of a chain stand one behind the other |
| `Octets.TlvAccepted` | protocol/tlvs.go:96-157 | octets are read as a TLV if and only if they have one of seven types, a length that fits it and that many octets; the type number names the kind |
| `Octets.TlvErrors` | protocol/tlvs.go:57-157 | otherwise the error is that of the first of these that is wrong |
| `Octets.PathTraceRead` | protocol/tlvs.go:306-328 | which identities are read, by the octets of each |
| `Octets.ScanStops` | protocol/tlvs.go:96-157 | reading a chain stops with fewer than four octets left if and only if there is no error, and at octets that are no TLV otherwise, with their error |
| `Octets.TypesDecoded` | protocol/protocol.go:388-415 | message types 0, 1, 8, 9, 11 and 12 are decoded, each to its kind, and no others |
| `Octets.PacketAccepted` | protocol/protocol.go:201-415 | octets decode to a packet if and only if type nibble, length field, size and TLVs say so; the nibble names its kind |
| `Octets.PacketErrors` | protocol/protocol.go:201-415 | otherwise the error is that of the first check that fails, in the order of the code |
| `Octets.PacketRefused` | protocol/protocol.go:177-194 | a packet cannot be written if and only if it is a Signaling one without TLVs, the buffer ends before header and body, or a name has more than 255 octets; with which error |
| `Types.NewUnicastMsgTypeAndFlags` | protocol/unicast.go:28-36 | type nibble and flag nibble of a unicast TLV can be read back from the octet |
| `Types.NibblesOf` | protocol/types.go:68-78 | 16 * high + low has the low nibble as message type of a header and the high one as that of a unicast TLV |
| `Types.NewTimestampNamesTime` | protocol/types.go:362-377 | inside the 48-bit era the seconds and nanoseconds of a made timestamp name exactly the time it was made from |
| `Types.NewTimestampOctets` | protocol/types.go:362-377 | every time: the six octets of seconds are those of the seconds since 1970 by falling weight, and the rest is the nanoseconds; the zero time gives zeros |
| `Tlvs.IdCountIsExact` | protocol/tlvs.go:314-318 | the PATH_TRACE reader asks for the N identities written if and only if 1 to 8 octets follow them |
| `Tlvs.PathTraceRoundTrip` | protocol/tlvs.go:295-328 | a PATH_TRACE with right head is read back if and only if it has an identity and 1 to 8 octets of buffer follow it |
| `Tlvs.AlternateTimeOffsetRoundTrip` | protocol/tlvs.go:336-371 | an ALTERNATE_TIME_OFFSET_INDICATOR with right head is read back if and only if its name has at least 3 octets |
| `Tlvs.TextRoundTrip` | protocol/types.go:586-629 | a PTPText of 1 to 255 octets is read back whatever follows |
| `Tlvs.TlvRoundTrip` | protocol/tlvs.go:170-402 | every TLV kind: writing and then reading gives the same TLV exactly under the condition of its kind |
| `Tlvs.ChainRoundTrip` | protocol/tlvs.go:71-157 | writeTLVs then readTLVs gives the same list, without error and with the position at its end, if and only if each TLV survives what follows it |
| `Tlvs.RegularSurvives` | protocol/tlvs.go:71-157 | fixed-size kinds and named offsets in any number, then at most one PATH_TRACE at the end with 1 to 8 octets behind it: the condition of the chain round trip holds |
| `Tlvs.PathTraceLostAtEnd` | protocol/tlvs.go:314-318 | the round trip does fail for a PATH_TRACE that ends the buffer: a concrete one |
| `Tlvs.ScanBounds` | protocol/tlvs.go:57-157 | for every octet string reading stays in the buffer, each accepted TLV takes at least 6 octets, so at most (maxLength + 2) / 6 are read |
| `Tlvs.ScanExtends` | protocol/tlvs.go:96-157 | octets behind a chain without PATH_TRACE do not change what is read |
| `Tlvs.FixedSizeReencodes` | protocol/tlvs.go:170-283 | a fixed-size TLV that was read is written back as the octets it came from, reserved ones included |
| `Tlvs.ChainReencodes` | protocol/tlvs.go:71-157 | a chain of fixed-size TLVs is written back as the prefix that was read, also when reading ended in an error |
| `Tlvs.MarshalPathTrace` | protocol/tlvs.go:295-304 | the in-place writer puts exactly the encoding at its offset and touches nothing else |
| `Tlvs.MarshalAlternateTimeOffset` | protocol/tlvs.go:336-353 | the whole buffer after it, on the error for a name above 255 octets too; jump time and name are cut off at the end of the buffer, as copy does, and the full length is returned |
| `Tlvs.MarshalFixedSize` | protocol/tlvs.go:170-271 | the same for the five fixed-size kinds |
| `Tlvs.WriteTlvs` | protocol/tlvs.go:71-94 | the loop writes the concatenated encodings at the running offset, or fails exactly when a name is too long; either way the whole buffer is known, down to a last field cut off |
| `Tlvs.UnmarshalPathTraceLoop` | protocol/tlvs.go:306-328 | the reading loop with its two exits reads min(L/8 + 1, (n - 5)/8) identities, as the specification function says |
| `Tlvs.ReadTlvs` | protocol/tlvs.go:96-157 | the loop over the buffer appends what the recursive scan reads and ends in the same error |
| `Packets.HeaderRoundTrip` | protocol/protocol.go:81-131 | a header is read back from its 34 octets, whatever follows |
| `Packets.HeaderReencodes` | protocol/protocol.go:81-131 | any 34 octets are reproduced by reading and writing a header |
| `Packets.FieldsAt` | protocol/protocol.go:177-350 | the fixed fields of all five kinds are read from octets if and only if these are the encoding of the fields |
| `Packets.PacketRoundTrip` | protocol/protocol.go:364-415 | a packet with right type, length and heads decodes to itself, with any octets behind it, if and only if its TLV chain survives them |
| `Packets.DecodeThenEncode` | protocol/protocol.go:388-415 | octets that decode to a packet with fixed-size TLVs only are reproduced by encoding: header, body and every TLV whose head lies inside the message length |
| `Packets.DecodeIgnoresTail` | protocol/protocol.go:201-273 | a packet that decodes and holds no PATH_TRACE decodes to the same value with any octets added |
| `Packets.DecodeReadsFewTlvs` | protocol/protocol.go:107-112 | a decoded packet holds at most one TLV for six octets of its message length |
| `Packets.MarshalHeader` | protocol/protocol.go:116-131 | the in-place header writer puts the encoding at the front and leaves the rest |
| `Packets.MarshalBinaryTo` | protocol/protocol.go:177-194 | all five in-place packet writers: result, error cases and the whole buffer, also after an error |
| `Packets.BytesTo` | protocol/protocol.go:364-373 | the packet, two zero octets, the length n + 2, and the rest of the buffer untouched; on an error the buffer as the packet's writer left it |
| `Packets.FromBytes` | protocol/protocol.go:201-273 | reading fields in place and the chain with its loop gives the specified packet or error |
| `Packets.DecodePacket` | protocol/protocol.go:388-415 | the dispatch by type nibble, with its errors |
| `Packets.SendAndDecode` | protocol/protocol.go:364-415 | BytesTo into a real buffer and DecodePacket of what it returns: n + 2 octets, and the packet itself exactly when its chain survives two octets |
| `ControlMessages.ScanAdvances` | timestamp/timestamp_linux.go:257-277 | both scans move forward at every non-zero length, even one shorter than a header |
| `ControlMessages.ScmDataToTime` | timestamp/timestamp_linux.go:54-76 | the hardware time if its field is not zero, else the software time if its is not, else none (ControlMessages.TimeFromOctets says it in octets) |
| `ControlMessages.TimeFromOctets` | timestamp/timestamp_linux.go:54-93 | of a payload laid out octet by octet, eight little-endian ones of seconds and eight of nanoseconds at 32 and at 0: exactly sec * 1_000_000_000 + nsec of the hardware time, of the software time if that is zero, and none if both are |
| `ControlMessages.SeqIdFromOctets` | timestamp/timestamp_linux.go:78-89 | the ID in an error message is in octets 12 to 16, little-endian, and only if octets 0 to 4 say 42 (ENOMSG) |
| `ControlMessages.SocketControlMessageTimestamp` | timestamp/timestamp_linux.go:252-269 | the optimised scan gives the first timestamp of the list of messages, whatever lies behind it (FirstTimestampIs and FirstTimeFromOctets say which number that is) |
| `ControlMessages.SocketControlMessageSeqIdTimestamp` | timestamp/timestamp_linux.go:271-304 | the scan for an ID gives the last timestamp exactly when no message is malformed and the last ID (0 if none) is the requested one (LastTimestampIs, LastSeqIdIs and TaggedTimeFromOctets say which numbers these are) |
| `ControlMessages.FirstTimestampIs` | timestamp/timestamp_linux.go:252-269 | the first timestamp is the time in the first message of level 1 and type 65, or of type 37 |
| `ControlMessages.LastTimestampIs` | timestamp/timestamp_linux.go:271-304 | the last timestamp is the time in the last message of level 1 and type 65 |
| `ControlMessages.LastSeqIdIs` | timestamp/timestamp_linux.go:271-304 | the last ID is the one in the last error message, of level 41 and type 25 or level 0 and type 11 |
| `ControlMessages.FirstTimeFromOctets` | timestamp/timestamp_linux.go:252-269 | a buffer given octet by octet, with a timestamp message at its front: the scan returns sec * 1_000_000_000 + nsec |
| `ControlMessages.TaggedTimeFromOctets` | timestamp/timestamp_linux.go:271-304 | a buffer given octet by octet, with a timestamp and an error message: the scan returns sec * 1_000_000_000 + nsec if and only if the ID there is the requested one |
| `ControlMessages.NonZeroIdIsPresent` | timestamp/timestamp_linux.go:289-303 | a non-zero last ID is carried by a message that is there |
| `ControlMessages.ParsedAreMessages` | timestamp/timestamp_linux.go:252-254 | what a general parse-to-list gives for a filled buffer is the list the scans walk over |
| `ControlMessages.FirstTimestampOfParse` | timestamp/timestamp_linux.go:252-269 | so the optimised scan refines the general parser |
| `TxTimestamp.ReadTxTimestampBuf` | timestamp/timestamp_linux.go:307-346 | for any results: the time of the newest message read; an exit before the limit means the queue was seen empty after it; never more attempts than allowed |
| `TxTimestamp.ReadTimestampSeqIdBuf` | timestamp/timestamp_linux.go:350-369 | for any results: the first attempt tagged with the ID ends the loop, failing means that none of the allowed attempts was |
| `TxTimestamp.TaggedMeansPresent` | timestamp/timestamp_linux.go:363-365 | with a non-zero ID the buffer that gave the time holds a message with that ID |
| `TxTimestamp.ZeroIdAcceptsUntagged` | timestamp/timestamp_linux.go:275-302 | with ID zero a message without any tag is accepted |
| `Wire.Wrap64` | stats/stats.go:147-158 | int64 counters wrap: the result is congruent modulo 2^64 and equal inside the range |
| `Stats.ReportKeysAreLive` | stats/stats.go:168-182 | after any operations the keys of a report map are keys of the live map |
| `Stats.SnapshotIsExact` | stats/json.go:69-86 | after Snapshot every report map and value is the live one, nothing older is left |
| `Stats.Conservation` | stats/json.go:101-203 | what was reported at each Snapshot-Reset pair plus the live value is increments minus decrements, modulo 2^64 |
| `Stats.CountsAddUp` | stats/stats.go:147-158 | from any state, a row of operations without reset moves a counter by its increments minus decrements, modulo 2^64 |
| `Stats.MaxIsTheMax` | stats/json.go:191-203 | each SetMax counter is the largest value since the last reset, at least 0 |
| `Stats.MaxFrom` | stats/json.go:191-203 | from any state, a row of operations without reset takes such a counter to the largest value set, or leaves it |
| `Stats.MissingFrom` | stats/json.go:205-208 | and marks a missing timestamp exactly if one of them does; no other gauge changes |
| `Stats.ResetClears` | stats/stats.go:216-233 | after a reset no key counts anything and none is lost, the gauges are zero and the report is as it was |
| `Stats.SnapshotCopies` | stats/json.go:69-86 | after a snapshot the report has every live count and gauge; the live side is as it was |
| `Stats.CopyCounts` | stats/stats.go:168-172 | the copying loop, in any order of keys, overwrites with the source and keeps other keys |
| `Stats.ClearCounts` | stats/stats.go:175-182 | the reset loop zeroes every value and keeps every key |
| `Stats.JsonStats.Increment` | stats/json.go:106-144 | the new load of this key is the old one plus 1 in an int64, and every other key, counter, gauge and the report stay |
| `Stats.JsonStats.Decrement` | stats/json.go:151-189 | the same with 1 less |
| `Stats.JsonStats.RaiseMax` | stats/json.go:191-203 | the new load is the larger of the old one, 0 if missing, and the value; every other key, counter, gauge and the report stay |
| `Stats.JsonStats.TakeSnapshot` | stats/json.go:69-86 | Snapshot is the operation on values: every map copied, every gauge stored |
| `Stats.JsonStats.ResetAll` | stats/stats.go:216-233 | Reset is the operation on values: every map zeroed, every gauge cleared |
| `Subscription.GrantIsReady` | server/subscription.go:385-407 | a grant built for the subscription's client and type has Signaling type, that target, one TLV of that type, and its marshalled length |
| `Subscription.CancelIsReady` | server/subscription.go:410-419 | and so has the Cancel built after it |
| `Subscription.ReadySignalingDecodes` | server/subscription.go:385-436 | such a packet decodes to itself from the datagram a worker sends |
| `Subscription.FittingPacketsDecode` | server/subscription.go:200-366 | the Sync, Follow_Up, Announce and Delay_Resp of a subscription decode to themselves from their datagrams |
| `Subscription.TimerMessagesAreBounded` | server/subscription.go:88-128 | a run granted D at interval i queues at most 1 + D/i messages, whatever ends it and whatever ticks, cancels and renewals come in, as long as none moves the expiry later and ticks keep time; none for types that no timer sends |
| `Subscription.LoopCountsTicks` | server/subscription.go:107-128 | by type number: a going run of a Sync or Announce subscription has queued one message at its start and one at each tick, in time; Delay_Resp and DELAY_REQ ones queue none |
| `Subscription.TimerIsExact` | server/subscription.go:88-128 | for any script, by type number: exactly one message at the start and one at each tick no later than the expiry, none for Delay_Resp and DELAY_REQ; the ticker then has the interval of the subscription |
| `Subscription.NothingAfterExpiry` | server/subscription.go:113-127 | a tick after expiry queues nothing and ends the run, after any history of events and renewals |
| `Subscription.OverMeansCleared` | server/subscription.go:88-129 | the running flag is set exactly while the run is not over |
| `SubscriptionClients.SubscriptionClient.constructor` | server/subscription.go:66-85 | a new object is the specified value, packets included |
| `SubscriptionClients.SubscriptionClient.Stop` | server/subscription.go:149-158 | expired from now on; if it was running, a token in the one slot, or, with the slot full, a Stop that waits with the lock |
| `SubscriptionClients.SubscriptionClient.SendSignalingGrant` | server/subscription.go:385-430 | the field-by-field update is the specified grant, and one entry goes to the signaling queue |
| `SubscriptionClients.SubscriptionClient.SendSignalingCancel` | server/subscription.go:410-436 | the same for the Cancel |
| `SubscriptionClients.SubscriptionClient.Start` | server/subscription.go:88-129 | run on any script of ticks, tokens, cancellation and renewals: exactly the messages that Subscription.TimerIsExact counts are queued, and one Cancel when it is over, none for DELAY_REQ |
| `Jobs.SyncJob` | server/worker.go:177-242 | a Sync job sends the subscription's Sync with the current ID if the first send works, and its Follow_Up with that ID, the interval and the transmit time, shifted by the UTC offset for software time of older kernels, if there is one and the second send works; the ID moves on exactly when both went out |
| `Jobs.AnnounceJob` | server/worker.go:243-258 | an Announce job sends the subscription's Announce with the ID, the interval and the clock as configured at that moment; the ID moves on exactly when it went out |
| `Jobs.DelayRespJob` | server/worker.go:259-273 | a Delay_Resp job sends the packet that the last request filled in, to the general address |
| `Jobs.DelayReqJob` | server/worker.go:274-338 | an sptp job sends the Sync as the last exchange filled it in, and then the Announce with the time at which that Sync went out |
| `Jobs.JobKeepsTwoStep` | server/worker.go:173-242 | one job, whatever fails, continues the row of two-step rounds and the count that the ID keeps |
| `Jobs.FollowUpsNeedSyncs` | server/worker.go:173-242 | in a row of rounds Follow_Ups never outnumber Syncs |
| `Jobs.FollowUpNumbers` | server/worker.go:343 | the k-th Follow_Up, counting from 0, carries k modulo 2^16 |
| `Jobs.JobKeeps` | server/worker.go:173-344 | a job changes nothing of a subscription but its ID and, in the packets it sends, IDs, intervals, times and clock |
| `Jobs.JobSendsDecodable` | server/worker.go:173-344 | everything a job sends is read back by the client |
| `Jobs.PacketsAreSmall` | server/worker.go:156-158 | every packet of a subscription fits a worker's buffer with its trailing octets |
| `Jobs.RegisterIsFlat` | server/worker.go:397-406 | registering changes one entry of a flat table and no other |
| `Jobs.PrunedIsFlat` | server/worker.go:408-421 | an inventory removes from the flat table what does not run and nothing else |
| `Worker.SendWorker.FindSubscription` | server/worker.go:370-382 | a subscription is found exactly if one is registered for this type and client, and it is that one |
| `Worker.SendWorker.RegisterSubscription` | server/worker.go:397-406 | the nested maps change as the registry function says |
| `Worker.SendWorker.InventoryType` | server/worker.go:411-420 | the inner loop over one type, in any order: exactly what does not run is deleted, and both counters are raised by what is left |
| `Worker.SendWorker.InventoryClients` | server/worker.go:408-421 | exactly the entries that do not run are removed, each type's subscription counter is raised by the entries left under it, the worker's by their total, and no other counter changes |
| `Worker.CountedUpAdds` | stats/stats.go:147-151 | a counter raised n times is n more, modulo 2^64, and no other key changes |
| `Worker.TxCountsWhatIsSent` | server/worker.go:173-344 | whatever the kernel answers, the transmit counter of each message type moves on by exactly the messages of that type that the job put on the wire |
| `Worker.SignalsAreCounted` | server/worker.go:345-364 | a signaling packet that was sent raises the grant counter of its subscription's type by its grants, the cancel counter by its cancels, and no other key of either |
| `Worker.JobMarks` | server/worker.go:173-344 | a job raises the most attempts if its Sync was sent, marks a missing timestamp if none came, and raises the longest queue if it got to its end |
| `Worker.OnWireAt` | server/worker.go:228-330 | message i of a job is wire entry i: its own octets and two zero ones, at its socket and its address |
| `Worker.SendWorker.SendSyncMessage` | server/worker.go:185-226 | both ways of sending a Sync and getting its time, with the fall-back for older kernels and the three counters |
| `Worker.SendWorker.SyncJob` | server/worker.go:177-242 | the Sync case: the octets on the wire, the new state and the counters are those of the specification |
| `Worker.SendWorker.AnnounceJob` | server/worker.go:243-258 | the Announce case |
| `Worker.SendWorker.DelayRespJob` | server/worker.go:259-273 | the Delay_Resp case |
| `Worker.SendWorker.DelayReqJob` | server/worker.go:274-338 | the sptp case: Sync, then Announce |
| `Worker.SendWorker.TakeJob` | server/worker.go:173-344 | one job from the queue, packets read when it is taken: octets, subscription, kernel flag and counters as specified |
| `Worker.SendWorker.TakeSignaling` | server/worker.go:345-364 | one signaling entry, packet read when it is taken, each TLV counted if it was sent; nothing is sent without TLVs |
| `Machine.FindWorker` | server/server.go:467-474 | the worker's index is in range for any hash |
| `Effects.TypesGranted` | server/server.go:415-416 | the types granted are 0x0, 0xB and 0x9 |
| `Effects.EnlistByNumbers` | server/server.go:417-431 | the subscription found running is renewed in expiry, interval and general address; otherwise there is a new one, of that client, type and worker, with its Syncs going to port 319 of the address of the request |
| `Effects.LimitsByNumbers` | server/server.go:434 | a request passes if its interval is no shorter, its seconds no longer than configured, and the current context is live |
| `Effects.RequestByNumbers` | server/server.go:405-447 | the whole effect of a request on its subscription and on the runs, in numbers: what is renewed or new, the grant of 56 octets as asked or of 0, and one run of the current context for a new one that passes |
| `Effects.CancelByNumbers` | server/server.go:448-456 | the three cases of a cancel: not running, running, and running with a token there already |
| `Effects.OffsetIs` | server/server.go:319-325 | the worker offset is that of the last ALTERNATE_RESPONSE_PORT, and 0 without one |
| `Effects.DrainedByNumbers` | server/server.go:306-309 | a delay request does nothing if the current context is cancelled |
| `Effects.ResponseByNumbers` | server/server.go:356-364 | the whole effect of a plain delay request: one packet rewritten with ID, correction, identity and time of receipt, one job queued, and nothing without a subscription of type 0x9 |
| `Effects.BumpByNumbers` | server/server.go:328-353 | the subscription of an exchange: 300 s from now, its Syncs to where the request came from, its Announces there for port numbers above 10 and to port 320 otherwise; made and spawned if there is none |
| `Effects.ExchangeByNumbers` | server/server.go:354-364 | and then its Sync and Announce are rewritten and one job is queued |
| `Effects.BeginByNumbers` | server/subscription.go:88-98 | the start of a run: the flag is set, the ticker gets the interval, and types 0x0 and 0xB queue a job at once |
| `Effects.TickByNumbers` | server/subscription.go:113-127 | a tick up to the expiry: the ticker gets the interval, types 0x0 and 0xB queue a job; after it the run leaves its loop |
| `Effects.LeaveByNumbers` | server/subscription.go:107-113 | the other cases of the select: a token is taken, or that of a waiting Stop let in; a cancelled context leaves; a tick goes to its branch |
| `Effects.ClearByNumbers` | server/subscription.go:106 | the flag is cleared and nothing else of any subscription |
| `Effects.FinishByNumbers` | server/subscription.go:100-105 | the end of a run: a Cancel of 50 octets for the type of the subscription, and none for type 0x1 |
| `Effects.JobByNumbers` | server/worker.go:173-344 | a job takes the first entry of its queue; an older kernel is learned from a Sync that is refused as invalid, and not forgotten |
| `Effects.InventoryByNumbers` | server/worker.go:408-421 | an inventory of one worker keeps the entries that are running, drops all others, and changes nothing else |
| `Effects.DrainByNumbers` | server/server.go:477-480 | a drain cancels the current context and makes none, so all are cancelled |
| `Effects.UndrainByNumbers` | server/server.go:499-503 | an undrain appends exactly one live context and keeps all flags if the current one is cancelled, and changes nothing otherwise |
| `Effects.ReloadByNumbers` | server/server.go:506-523 | a reload takes over the dynamic settings and leaves domain, clock identity and kind of timestamps |
| `Invariants.StepKeepsBase` | server/server.go:371-503 | every step of the machine keeps the base invariant, and clients, types, workers, runs and cancelled contexts only grow |
| `Invariants.EnrollKeepsRegistry` | server/server.go:416-423 | a registration keeps the sharded registry equal to the flat table |
| `Invariants.InventoryKeeps` | server/worker.go:408-421 | so does an inventory |
| `History.StepKeepsHistory` | server/server.go:371-503 | every step keeps the record: grants by their limits, each run spawned once and behind its grant, cleared once, cancelled once, in this order |
| `Rounds.StepKeepsRounds` | server/worker.go:173-344 | every step keeps the rounds of every subscription, moves flags, tokens and waiting Stops only as its kind of step does, and only adds to what was sent |
| `Locks.StepKeepsRuns` | server/subscription.go:88-129 | every step moves only the run it belongs to, and that from one phase to the next |
| `Locks.StepKeepsLive` | server/subscription.go:160-172 | every step keeps: a running flag has a run behind it, and a Stop waits only at a running subscription with a full slot |
| `Locks.CancelWaits` | server/subscription.go:149-158 | a cancel has to wait exactly if its subscription is running with a token in the slot |
| `Locks.LockedOut` | server/subscription.go:142-172 | while it waits no run of that subscription begins, ticks or clears its flag, and no inventory passes it |
| `Locks.TwoCancelsCanStick` | server/server.go:448-456 | two cancels and a run that takes a tick or its cancelled context before the token: the lock is then held for good |
| `Queues.StepFollows` | server/subscription.go:132-139 | every step: each queue of each worker gains at its end the one entry the step puts in, loses its front if the step takes it, and is otherwise unchanged |
| `Queues.StepStays` | server/subscription.go:331-430 | every step but the one that builds it leaves what an entry of a subscription would send |
| `Runs.Reachable` | server/server.go:371-503 | in every reachable state, after any steps in any order, all these invariants hold |
| `Runs.RegistryIsFlat` | server/server.go:416-431 | in every reachable state a lookup for Announce, Sync or DelayResp finds the last registration of this client and type not yet collected |
| `Runs.EntriesAreFiledRight` | server/server.go:467-474 | in every reachable state each entry has the type and client it is filed under, uses that worker's queues, and for the signaled types sits where findWorker(id, 0) looks |
| `Runs.SignalsDecode` | server/subscription.go:385-436 | in every reachable state any subscription in a signaling queue holds a Signaling packet for its client, about its type, with its marshalled length, and what is sent decodes to it |
| `Deliveries.QueueIsTheRest` | server/subscription.go:132-139 | over every run each queue is the row of entries put in less those taken, in order: no entry of any subscription is lost, doubled or overtaken |
| `Deliveries.TakenIsWhatWasPutIn` | server/worker.go:175-345 | the n-th entry taken from a queue is the n-th put in |
| `Deliveries.EntrySendsLastWritten` | server/subscription.go:385-430 | over every run an entry sends what the last step up to its taking built for its subscription; so it sends what was built for itself if and only if that is the same |
| `Deliveries.SignalSentIsLastBuilt` | server/worker.go:345-355 | a Grant or Cancel as it goes out is the packet built last for its subscription, and decodes to it |
| `Deliveries.LaterGrantReplacesEarlier` | server/server.go:405-440 | two requests for one running subscription before its worker takes anything: two entries that both send the second grant, so the first is never sent |
| `Deliveries.DelayRespAnswersLast` | server/server.go:356-364 | over every run a Delay_Resp answers the last delay request of its subscription before its job was taken, by identity, ID, correction and time of receipt |
| `Deliveries.ExchangeAnswersLast` | server/server.go:328-355 | over every run a Sync and Announce answer the last sptp exchange of their subscription before the job was taken |
| `Origins.StepArrives` | server/server.go:405-440 | a subscription that a step makes has packets of this server, and if a request made it, port 319 of the request's address for its Syncs |
| `Origins.SentIsOwn` | server/subscription.go:200-366 | over every run each message sent has this server's version, domain, flags, length, port and control field, and an Announce names it as grandmaster, whatever was reloaded |
| `Origins.SentOctets` | server/subscription.go:200-366 | the same in octets of the datagram: 0 to 8, 20 to 30 and 32 of every message ever sent |
| `Origins.SignalsAreOwn` | server/subscription.go:368-383 | over every run a Grant or Cancel in a queue has this server's version, flag and port |
| `Origins.SyncsGoToPort319` | server/server.go:420-422 | over every run each Sync ever sent for a signaled subscription goes to port 319 of the address from which the request came that made it |
| `Timers.TimerJobsAreBounded` | server/subscription.go:88-128 | over every run of the server: with the expiry never beyond granted + D, one run's timer queues at most 1 + D/i jobs, with renewals, cancels, drains, jobs and other runs in between |
| `Timers.NeverRenewedIsBounded` | server/subscription.go:88-128 | in particular if no handler is about that subscription any more |
| `Timers.TimerEntriesAreExact` | server/subscription.go:88-128 | over every run of the server, by type number: the timer of a Sync or Announce run put exactly one entry into its worker's queue at the start and one at each tick in time, that of a Delay_Resp or DELAY_REQ run none |
| `Runs.GrantsMeetLimits` | server/server.go:405-447 | over every run a grant is what was asked within the limits of its moment and 0 beyond; DurationOf is an int64 for every 32-bit duration |
| `Runs.RunsFollowGrants` | server/server.go:433-444 | over every run each signaled run was spawned right behind a grant to the same subscription that met the limits |
| `Runs.RunsEndOnce` | server/subscription.go:100-127 | over any interleaving a run clears the flag once and queues exactly one Cancel after that, none for DELAY_REQ |
| `Runs.CancelsAreEndedRuns` | server/subscription.go:100-105 | over any interleaving the Cancels queued are exactly the ended runs that are not DELAY_REQ, one each |
| `Runs.TokenStays` | server/subscription.go:149-158 | a stop token stays through renewals and everything else until a run of its subscription takes it |
| `Runs.SyncRounds` | server/worker.go:173-242 | over every run what a Sync subscription sent is rounds of a Sync and a Follow_Up with its ID, numbered modulo 2^16 by completed rounds; the sequence ID counts them |
| `Runs.SentMessagesDecode` | server/worker.go:173-344 | over every run each message ever sent by a job decodes to itself |
| `Runs.OneLiveContext` | server/server.go:477-503 | in every reachable state at most one context is uncancelled, and it is the current one |
| `Runs.OldRunsStayCancelled` | server/subscription.go:107-110 | a run of a cancelled context stays cancelled for ever, and can leave its loop whenever it is in its select |
| `Runs.DrainedHandlersAreIdle` | server/server.go:306-309 | while drained a handler step starts no run, issues no non-zero grant and ignores delay requests altogether |
| `Runs.NothingIsSpawnedWhileDrained` | server/server.go:477-480 | from a drain to the next undrain no step spawns a run; one spawned before can still begin |
| `Contexts.UndrainLasts` | server/server.go:499-503 | from an undrain to the next drain the last context is live, and it is one more than before if the server was drained |
| `Contexts.UndrainedIsServed` | server/server.go:433-444 | in that time a request within the limits is granted what it asked, and a run that it spawns has the live context |
| `Runs.WaitingStopsAreFreedOrStuck` | server/subscription.go:107-158 | a waiting Stop is let go by a run of its subscription that takes the token, which is possible if and only if one is in its select |
| `Runs.StuckForEver` | server/subscription.go:149-158 | and if none is, no run of the server ever frees that lock |
| `Runs.RunningHasARun` | server/subscription.go:90-106 | in every reachable state a running flag was set by a run that has not cleared it |
| `Runs.GrantsAreServed` | server/server.go:433-444 | after a grant there is a run that is spawned or in its loop if and only if one was spawned now or was there before; if not, the flag was held up by a run between its loop and the clearing |
| `Runs.InventoryEmpties` | server/server.go:482-495 | once no run stands behind a flag, one inventory of a worker leaves its registry without an entry |
| `Handlers.RequestIsAnswered` | server/server.go:405-440 | a supported request queues exactly one grant, for the subscription that the registry then finds; that one takes over expiry, interval and general address, the grant's header repeats the request's, and no other subscription changes (Effects.RequestByNumbers says the rest) |
| `Handlers.RequestSpawns` | server/server.go:442-444 | a run is spawned if and only if the limits are met and the subscription is not running |
| `Handlers.CancelReachesOne` | server/server.go:448-456 | a cancel expires the subscription of this client and type, leaves a token, or a Stop that waits, if it runs, and changes nothing else |
| `Handlers.DelayRequestIsAnswered` | server/server.go:356-364 | a subscriber's delay request queues one job, which would now send one Delay_Resp with the request's identity, ID, correction and time of receipt (Deliveries.DelayRespAnswersLast says what it sends later) |
| `Handlers.ExchangeIsAnswered` | server/server.go:328-355 | an sptp request queues one job for a subscription made or bumped, which would now send a Sync and an Announce with the request's ID, its time of receipt, its correction, the configured clock and the Sync's time (Deliveries.ExchangeAnswersLast says what it sends later) |
| `Servers.Server.constructor` | server/worker.go:51-61 | a new server is an initial state of the machine |
| `Servers.Server.HandleRequest` | server/server.go:407-447 | the in-place handler of a request makes exactly the machine's step, whose effect is Effects.RequestByNumbers |
| `Servers.Server.HandleCancel` | server/server.go:448-456 | so does that of a cancel (Effects.CancelByNumbers), and it says whether its Stop waits |
| `Servers.Server.HandleSignaling` | server/server.go:405-462 | the loop over the TLVs of a message makes one machine step for each, and stops only before a lock that is held and after a Stop that waits, to go on from there |
| `Servers.Server.ReadOffset` | server/server.go:319-325 | the loop over the TLVs finds the offset of the last ALTERNATE_RESPONSE_PORT |
| `Servers.Server.HandleDelayRequest` | server/server.go:306-364 | the in-place handler of a delay request makes exactly the machine's step (Effects.ResponseByNumbers, Effects.ExchangeByNumbers) |
| `Servers.Server.BeginRun` | server/subscription.go:90-98 | the start of a run is the machine's step (Effects.BeginByNumbers) |
| `Servers.Server.TickRun` | server/subscription.go:113-127 | the ticker's case is the machine's step (Effects.TickByNumbers) |
| `Servers.Server.TakeStopToken` | server/subscription.go:111-112 | taking the token, and with it leaving the loop, is the machine's step |
| `Servers.Server.SeeCancelledContext` | server/subscription.go:109-110 | so is leaving it for a cancelled context |
| `Servers.Server.ClearRun` | server/subscription.go:106 | the deferred setRunning(false) is the machine's step |
| `Servers.Server.FinishRun` | server/subscription.go:101-103 | the last deferred call is the machine's step |
| `Servers.Server.WorkerTakesJob` | server/worker.go:175-344 | a worker's job is the machine's step, the octets on the wire are the datagrams of what the machine says is sent, and the counters are raised by it |
| `Servers.Server.WorkerTakesSignaling` | server/worker.go:345-364 | the same for a signaling entry |
| `Servers.Server.InventoryWorker` | server/worker.go:408-421 | an inventory is the machine's step, with its counters |
| `Servers.Server.Drain` | server/server.go:477-496 | with any steps of other goroutines before each inventory and while it waits for a lock, the whole is a path of the machine; a worker is waited for in a round exactly if one of its entries was running at its inventory there |
| `ServerSteps.Waits` | server/server.go:483-495 | so a worker is waited for at most ten times |
| `Servers.Server.Perform` | server/server.go:306-503 | any step of the machine, done in place: taken if and only if the machine allows it now, and then with exactly its effect |
| `Servers.Server.PerformAll` | server/server.go:306-503 | any script of steps in place is a path of the machine |
| `ServerSteps.ExecutionGoesOn` | server/server.go:306-503 | and such paths go on with the executions that the guarantees are about |
| `Servers.Server.Undrain` | server/server.go:499-503 | makes exactly the machine's step (Effects.UndrainByNumbers): a new context if and only if the current one is cancelled |

## Left out

- Sockets, polling, ioctl, DSCP, PID files, signals, HTTP, flags and YAML: input and output. What is sent and received is an arbitrary outcome.
- `maphash` in `findWorker` and `LogInterval.Duration` are unknown fixed functions of the model; `NewLogInterval`, `Correction` and `TimeInterval` rest on floating-point rounding and are not modelled.
- Times are unbounded numbers of nanoseconds; the overflow of `time.Unix` and of `time.Time` sums far outside the era is not modelled. DurationOf is within an int64.
- The capacity of the job queues: they never block in the model.
- Servers.Server.HandleSignaling: what other messages wait for behind a handler that waits; another handler step can come in between in the model, which only adds runs.
- The mutex of a worker's registry: an inventory that waits for the lock of an entry keeps it, so lookups of that worker wait too; the model lets them go on, which only adds runs.
- Servers.Server.InventoryWorker: reads the running flags of a worker's entries at one point, and Drain looks at what is left at that same point; in the program other goroutines can come in between.
- Memory-model races inside one handler step or one Update call: each is one step.
- The ticker: which intervals it is reset to is modelled, when it fires is an assumption of Subscription.TimerMessagesAreBounded.
- Receive counters of the handlers, and who sets the gauges for drain, reload and configuration.
- ControlMessages.SocketControlMessageTimestamp: asks for 64-bit little-endian control headers, and up to where it returns for messages inside the buffer with the data their kind needs; the program indexes outside a slice otherwise.
- ControlMessages.SocketControlMessageSeqIdTimestamp: asks for the same of what it reads.
- Packets.MarshalBinaryTo: a buffer that ends before a field that is not copied, where the program panics; a slice with more capacity than length.
- Packets.BytesTo: a buffer too short for the packet and its two octets; the program panics there.
- ProbeMsgType, PortAddress, clock accuracy tables, String methods and name tables, toMap: formatting or single branches.
