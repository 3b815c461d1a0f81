# wagaStrim, verified

wagaStrim takes WebRTC video from phones over WHIP, holds it back by a chosen delay, and hands it to
receivers over WHEP. This project models the five parts of it that keep state for as long as a stream
lives, and proves what each promises over every input and every run:

1. **Ownership** (`Servers`, `Ownership`, `Publishing`, `OwnershipRun`). Publishers reserve a camera,
   replace a dead predecessor and stop; subscribers reserve a slot, read tracks, and commit or are
   cancelled. Every region that runs under a mutex is one atomic step, and a run is any interleaving of
   the steps of any number of goroutines, with callbacks, retries and shutdown at any time. `Servers`
   holds the tables as classes, each method proved against a function on values; `Ownership` is the
   transition system over those functions; `Publishing` says that what was published is there and that
   negotiations and subscriptions come to their ends; `OwnershipRun` executes the events on the objects.
2. **Packet recovery** (`Bytes`, `Identities`, `RecoveryWire`, `Parity`, `GapTracking`, `GapRun`,
   `RecoveryHistory`, `RecoverySteps`, `RecoveryShelf`, `RecoveryTables`, `RecoveryArrivals`,
   `RecoveryCascade`, `RecoveryDelivery`, `Revocation`, `Recovery`, `RecoveryRun`). An exclusive-or erasure
   decoder over a bounded history of packets, the numbers each stream misses, the requests for them, the
   way of a rebuilt packet to the reader, and the removal of everything filed under an ICE identity.
   `Recovery.State` is the shared state with one method per critical section; what a step does to the
   tables is stated as functions and relations on values, and `RecoveryRun` runs arbitrary event
   sequences against the class.
3. **Playout** (`RtpClock`, `PlayoutHeap`, `PlayoutTrack`, `PlayoutLine`, `Admission`, `SenderReports`,
   `StreamClocks`, `Alignment`, `CameraPlayout`, `DepthRecovery`, `PlayoutTrails`, `PlayoutBuffer`,
   `PlayoutRun`). The hand-written heap, RTP timestamps that wrap, the anchor that rolls along with them,
   jumps that both tracks of a stream apply, the alignment of two tracks by their sender reports, and
   recovery from excess depth. `PlayoutLine` follows a track along the sender's true ticks and says when
   each packet is due and leaves. `CameraPlayout` is everything that happens to a camera's tracks as
   values, `PlayoutRun` the same on its objects.
4. **Delay control** (`DelayController`, `DelayGrowth`, `CameraDelay`). The piecewise linear delay curve
   with its growth and catch-up limits, its quiet period and its jumps, and the loop from a late packet to
   a longer delay.
5. **Two buffers** (`PacketBuffer`, `AudioTimeline`). A byte ring that grows while it is wrapped and
   must look like a plain queue of datagrams, and the player's audio timeline that fills gaps with
   silence.

Time is whole nanoseconds, 0 being Go's zero time, and is a parameter. Integers are unbounded; where the
program relies on wrap-around (sequence numbers, RTP timestamps, NTP differences) it is written out, and
where it relies on 64 bits being enough that is a lemma. Sender clocks, which the program keeps in
float64 milliseconds, are exact reals.

## What came out differently from what one might expect

- Two shared jumps at one and the same instant part the tracks: a track tells jumps apart by their
  instant alone, so one that saw the first ignores the second, and one that had not looked yet takes it.
  `PlayoutTrack.JumpsAtOneInstantPartTracks` reaches the case from the first configuration;
  `PlayoutTrack.SkippedJumpKeepsOffsetIff` says exactly when a skipped jump keeps the offset; with
  distinct instants it is always kept (`PlayoutTrack.CaughtUpTracksKeepTheirOffset`).
- The order of waiting parity groups may list a group that has been completed and filed again. When 256
  groups wait, such a group is pushed out the moment it is filed, exactly if that earlier listing comes
  before every group that waits (`RecoveryShelf.NewGroupStaysUnlessRefiled`;
  `RecoveryShelf.RefiledGroupIsLost` reaches it from an empty state).
- A change of catch-up speed does not touch the curve that is running: it finishes its second at the rate
  it was laid with. `DelayController.SlowedCurveFallsOn` reaches a delay configured to fall by 1 ms a second
  that falls by 50. The speed holds from an instant on, whatever follows, exactly if what is left of the
  running curve is slow enough for it (`DelayController.SpeedHoldsIff`); after a reconfiguration, exactly if
  a new curve was laid or the rest of the old one is that slow (`DelayController.ReconfiguredSpeedHoldsIff`).
- `RemoveConnByUfrag` matches text. That it hits exactly the identities of its ufrag needs the ufrag to
  be free of colons, which section 5.4 of RFC 8839 grants (`Identities.RevokesExactly`); with a colon it
  always reaches an identity of another ufrag (`Identities.ColonsReachFurther`).
- Recovery does not cascade: a packet that was rebuilt may leave another group lacking one packet, and that
  group keeps waiting (`RecoveryCascade.RebuiltPacketLeavesGroupWaiting`; `RecoveryCascade.PacketThreeIsLeft`
  for packets 1, 2 and 3). No order of the retries leaves such a group exactly if what the waiting groups can
  rebuild at once brings no other group within one packet (`RecoveryCascade.EveryOrderSettlesIff`); it is enough
  that no two of them share a packet (`RecoveryCascade.SeparateGroupsStaySettled`).
- Automatic catch-up reaches its top speed at nine tenths of the room above the base, as the comment in
  the source says, and neither earlier nor later (`DelayController.CatchUpTopsOutAtNineTenths`).

## Model

| member | source | states |
|---|---|---|
| `Servers.RelayTable.Publish` | internal/relay/relay.go:85-104 | a track is put into the camera's stream, which is created if there is none |
| `Servers.WhepServer.Reserve` | internal/egress/whep.go:187-208 | a slot is given exactly if the server is open and both counts, taken over both maps, are below their limits |
| `Servers.WhepServer.CountSessions` | internal/egress/whep.go:196-200 | the counting loop counts the committed sessions of one camera |
| `Servers.WhepServer.CloseIngest` | internal/egress/whep.go:241-256 | every session of the camera leaves and every reservation of it is cancelled; other cameras keep theirs |
| `Servers.WhepServer.CancelPending` | internal/egress/whep.go:243-247 | the loop cancels exactly the reservations of one camera |
| `Servers.WhepServer.Close` | internal/egress/whep.go:291-304 | all sessions leave, all reservations are cancelled, none can be made |
| `Ownership.StepKeepsInv` | internal/ingest/whip.go:279-386 | every step of every goroutine, from any state, keeps the invariant that ties publishers, streams and subscribers together |
| `Ownership.Run` | internal/ingest/whip.go:279-667 | the invariant holds along every interleaving |
| `Ownership.CameraHasOneOwner` | internal/ingest/whip.go:279-342 | after any interleaving sessions and byIngest mirror each other with one session per camera, and every track a camera streams was published by the session that owns it |
| `Ownership.SubscribersFollowTheOwner` | internal/egress/whep.go:86-179 | after any interleaving each committed subscriber, and each reservation that could still commit, holds tracks only of the publisher that owns its camera at that moment; one that has found its stream and not read it yet has found that publisher's |
| `Ownership.ForgetEndsItsSubscribers` | internal/ingest/whip.go:629-642 | once a publisher's forget has run, then and after any further steps nobody who is or may become committed holds one of its tracks |
| `Ownership.ForgottenForGood` | internal/ingest/whip.go:615-625 | a session that was forgotten stays so |
| `Ownership.StopDropsOnlyItsOwn` | internal/ingest/whip.go:635-639 | the drop inside a stop takes no other publisher's stream away, however late it runs |
| `Ownership.OwnerKeepsCamera` | internal/ingest/whip.go:627-642 | nothing but the last region of its own stop takes a camera from its owner |
| `Ownership.CapacityHolds` | internal/egress/whep.go:187-208 | at most 64 subscribers, and 8 of a camera, in every state reachable from one that has no more, although a committing one is in both maps |
| `Ownership.CapacityFromTheStart` | internal/egress/whep.go:187-208 | so in every reachable state |
| `Ownership.CancelledNeverCommits` | internal/egress/whep.go:163-170 | a reservation that was cancelled or released never becomes a session, whatever follows |
| `Publishing.PublishedTracksAreThere` | internal/relay/relay.go:85-104 | after any interleaving the stream of a publisher that has not dropped it holds exactly one track of every kind it has published, whatever else was published; a dropped stream still holds what it held |
| `Publishing.ReaderGetsAllTracks` | internal/relay/relay.go:109-134 | whoever reads a stream it has found holds every track published to it so far, and no other |
| `Publishing.SubscriberIsServed` | internal/egress/whep.go:86-179 | with room and a stream to read, reserving, finding, reading and committing ends in a session with all published tracks |
| `Publishing.ConnectedPublisherStays` | internal/ingest/whip.go:364-386 | over any run in which a camera's publisher is found connected, negotiations tear down only publishers that were already stopping |
| `Publishing.LostPublisherIsReplaced` | internal/ingest/whip.go:364-386 | a publisher that has lost its connection is torn down and the newcomer ends up owning the camera |
| `Publishing.RoomUnlessFull` | internal/egress/whep.go:187-208 | a slot is refused only by a closed server, to the 65th subscriber or to the ninth of a camera |
| `Publishing.ClosingCameraIsExact` | internal/egress/whep.go:241-256 | closing a camera ends exactly its sessions and reservations |
| `Publishing.LeavingFreesThePlace` | internal/egress/whep.go:181-185 | releasing a reservation or removing a session takes that one away and no other |
| `Publishing.ClosedServerIsEmpty` | internal/egress/whep.go:291-304 | a closed server has no session, commits no reservation and gives no slot |
| `OwnershipRun.Service.Execute` | internal/ingest/whip.go:279-667 | any event, executed on the objects from a state that satisfies the invariant, is the transition and keeps the invariant |
| `OwnershipRun.Serve` | internal/egress/whep.go:86-304 | any interleaving executed on new servers ends where the run of the transition system ends |
| `OwnershipRun.ServedTablesAgree` | internal/ingest/whip.go:629-647 | after any interleaving the objects' own tables mirror each other, every track in the relay and every track of a committed or standing subscriber is of the session that owns the camera, every track a session published is in the relay until that session drops it, and the limits of 64 and 8 hold |
| `Bytes.XorBit` | internal/ingest/recovery.go:424-426 | the exclusive or sets exactly the bits in which its operands differ |
| `Bytes.XorLaws` | internal/ingest/recovery.go:424-426 | exclusive or is commutative and associative, and every octet is its own inverse |
| `RecoveryWire.ParseGroup` | internal/ingest/recovery.go:570-615 | accepts exactly the datagrams with type 1, 2 to 32 entries of at least 12 octets and a parity as long as the longest, and returns their entries in order |
| `RecoveryWire.ParseTable` | internal/ingest/recovery.go:583-600 | the loop fails exactly on an entry shorter than an RTP header, else returns all entries and the longest length |
| `RecoveryWire.ParityRoundTrip` | internal/ingest/recovery.go:570-615 | every well-formed group survives being written and parsed, whatever the magic and reserved octets |
| `RecoveryWire.AcceptedIsEncoded` | internal/ingest/recovery.go:570-615 | conversely an accepted datagram is, octet by octet, the encoding of the group read from it |
| `RecoveryWire.Relabel` | internal/ingest/recovery.go:273-275 | every entry is filed under the authenticated identity and otherwise unchanged |
| `RecoveryWire.MakeRequest` | internal/ingest/recovery.go:651-666 | the datagram's header is right and reading the numbers back gives the list it was made from |
| `Parity.FindMissing` | internal/ingest/recovery.go:402-407 | the numbers of the listed packets that are not held, in listing order |
| `Parity.XorInto` | internal/ingest/recovery.go:424-426 | the packet, padded with zeros, goes into the whole buffer and every index is in bounds |
| `Parity.Decode` | internal/ingest/recovery.go:412-428 | gives the one lost packet, as parity and held packets determine it, exactly if all held lengths match |
| `Parity.RebuiltIsSent` | internal/ingest/recovery.go:401-436 | from an honest history and an honest group the decoder rebuilds the very octets that were sent |
| `Parity.HonestIsRecoverable` | internal/ingest/recovery.go:408-423 | an honest group with one packet missing never fails the length test |
| `Parity.SentParityIsHonest` | internal/ingest/recovery.go:570-615 | whatever packets a sender puts into a parity datagram, the receiver accepts it and reads an honest group |
| `GapTracking.TrackGap` | internal/ingest/recovery.go:329-363 | after a forward jump missing is exactly the numbers missing before and less than 4096 behind, plus the skipped ones less than 4096 behind that are not held, at any place of the 16-bit circle; request times are kept |
| `GapTracking.Trim` | internal/ingest/recovery.go:344-350 | exactly the numbers 4096 or more behind are forgotten |
| `GapTracking.Fill` | internal/ingest/recovery.go:351-361 | exactly the skipped numbers that are not held are added, never requested |
| `GapTracking.TrackedStaysDisjoint` | internal/ingest/recovery.go:351-361 | tracking a gap names no held packet as missing |
| `GapTracking.DueRepairs` | internal/ingest/recovery.go:628-649 | at most 32 distinct numbers, each missing, not stale and not asked for within 50 ms; of those looked at all stale ones are dropped and all due ones taken; all are looked at unless 32 were found |
| `GapTracking.RequestsNothingHeld` | internal/ingest/recovery.go:628-649 | what is asked for is missing and not held |
| `GapRun.MissingIsNotReceived` | internal/ingest/recovery.go:329-363 | by the sender's own numbers, however packets arrive, reorder and wrap: of the numbers less than 4096 behind the highest, exactly those neither received nor rebuilt are recorded as missing |
| `GapRun.ArrivalKeepsRecordExact` | internal/ingest/recovery.go:231-235 | one arrival, ahead or behind, keeps that record exact |
| `GapRun.FirstStartsRecord` | internal/ingest/recovery.go:329-336 | the first packet of a stream starts it |
| `GapRun.RebuiltIsStruck` | internal/ingest/recovery.go:428-433 | so does a packet that is rebuilt |
| `GapRun.RequestsKeepRecordExact` | internal/ingest/recovery.go:628-649 | and so does asking for repairs |
| `RecoveryHistory.Shed` | internal/ingest/recovery.go:372-375 | the eviction loop pushes out exactly the oldest packet of 4097, in bounds |
| `RecoveryHistory.StoredExact` | internal/ingest/recovery.go:365-380 | after storing, the order still lists every held packet exactly once, and at most 4096 |
| `RecoveryHistory.HistoryIsAWindow` | internal/ingest/recovery.go:365-380 | after any run of new packets exactly the latest 4096 are held, oldest first |
| `RecoverySteps.StoringKeepsConsistent` | internal/ingest/recovery.go:231-235 | storing a packet and striking its number keeps missing and held apart in every stream |
| `RecoverySteps.RecoveryKeepsConsistent` | internal/ingest/recovery.go:428-433 | so does rebuilding one |
| `RecoverySteps.RecoveryKeepsHonest` | internal/ingest/recovery.go:401-436 | a rebuilt packet that enters the history or goes to the reader is, octet for octet, what the sender has under the lost identity, SSRC and number |
| `RecoverySteps.RetriesKeepGood` | internal/ingest/recovery.go:382-399 | a pass over waiting groups, in any order, keeps every invariant |
| `RecoverySteps.RetriesKeepHonest` | internal/ingest/recovery.go:382-399 | and everything it rebuilds, stores and hands over is what the sender has under that id |
| `RecoverySteps.RetriesTouchOnlyTheirs` | internal/ingest/recovery.go:383-391 | a pass touches no group that does not list the arrived packet, adds none, and forgets no stream |
| `RecoveryCascade.SeparateGroupsStaySettled` | internal/ingest/recovery.go:382-399 | if every waiting group lacks two packets or more and no two share a packet (but the arriving one, or held ones that stay), then after the arrival, in any order of retries and whatever the history pushes out, every group left still lacks two or more |
| `RecoveryCascade.EveryOrderSettlesIff` | internal/ingest/recovery.go:382-399 | for any number of groups that list the packet: all orders of retries leave every group lacking two or more, if and only if what the groups can rebuild at once brings no further one within one packet |
| `RecoveryCascade.RebuiltPacketLeavesGroupWaiting` | internal/ingest/recovery.go:382-399 | with {a, b} and {b, c} waiting, the arrival of a rebuilds b and leaves {b, c} waiting for c alone, whatever the contents |
| `RecoveryCascade.PacketThreeIsLeft` | internal/ingest/recovery.go:382-399 | for instance packets 1, 2 and 3 of one stream |
| `RecoveryDelivery.PassDeliversRebuilt` | internal/ingest/recovery.go:382-399 | a pass over waiting groups, in any order, appends to the socket's ready queue datagrams of different packets, each for the repairing address, and every packet the pass puts into the history is among them with its octets |
| `RecoveryDelivery.ArrivalDeliversRebuilt` | internal/ingest/recovery.go:214-248 | so after an arrival whatever else is newly held waits for the reader |
| `RecoveryDelivery.LastMissingPacketIsDelivered` | internal/ingest/recovery.go:382-436 | a packet that leaves a waiting group lacking one other has that other rebuilt and queued for the reader, whatever the order of the retries |
| `RecoveryDelivery.IncompleteParityWaits` | internal/ingest/recovery.go:292-305 | a parity datagram that lacks two packets or more is filed, while there is room |
| `RecoveryDelivery.IncompleteParityNamesMissing` | internal/ingest/recovery.go:277-299 | it turns repairs on and every packet it lacks is missing from then on |
| `RecoveryDelivery.MissingIsAskedFor` | internal/ingest/recovery.go:628-649 | unless a request is full, everything an enabled stream misses has been asked for within the last 50 ms |
| `RecoveryDelivery.RemovalKeepsHanded` | internal/ingest/recovery_mux.go:39-77 | removing a ufrag takes its packets and its waiting datagrams away together |
| `RecoveryTables.OldestStream` | internal/ingest/recovery.go:558-568 | the stream that makes room is one touched least recently |
| `RecoveryTables.TrimIdle` | internal/ingest/recovery.go:550-556 | exactly the streams untouched for more than 30 s go |
| `RecoveryTables.OpenedShape` | internal/ingest/recovery.go:316-327 | opening a stream changes no other and keeps to 256 streams |
| `RecoveryShelf.Compact` | internal/ingest/recovery.go:441-452 | the compacted order lists each waiting group once, where it was first listed |
| `RecoveryShelf.Evict` | internal/ingest/recovery.go:457-460 | the loop stays inside the order because it covers the waiting groups |
| `RecoveryShelf.EvictedMeans` | internal/ingest/recovery.go:457-460 | of 257 groups exactly the first listed one that waits is pushed out; with fewer none is; the rest stay listed |
| `RecoveryShelf.ShelvedMeans` | internal/ingest/recovery.go:438-465 | filing a group keeps every waiting group listed, at most 256 of them and 512 order entries, and pushes out at most the first listed one |
| `RecoveryShelf.NewGroupStaysUnlessRefiled` | internal/ingest/recovery.go:453-460 | the exact condition under which a newly filed group is itself pushed out |
| `RecoveryShelf.RefiledGroupIsLost` | internal/ingest/recovery.go:438-465 | from an empty shelf: a group filed, completed, and filed again after any 256 others is gone at once |
| `RecoveryShelf.GroupZeroIsLost` | internal/ingest/recovery.go:438-465 | the same for the group that ends in packet 0, with those of packets 1 to 256 in between |
| `RecoveryTables.OnlyConfirmationIdentifies` | internal/ingest/recovery.go:518-531 | an address changes its identity only to the username that waited for this very answer, and only if it is active |
| `RecoveryTables.HandshakeIdentifies` | internal/ingest/recovery.go:498-531 | a request that names a user and Pion's answer give the address to that user exactly if the name is neither empty nor overlong and the user active |
| `RecoveryTables.FirstNameStands` | internal/ingest/recovery.go:498-516 | a second name under the same transaction is ignored |
| `RecoveryTables.ReceiptOpensBatch` | internal/ingest/delivery.go:22-40 | a receipt goes to the batch of its identity, and other addresses keep theirs while there is room |
| `RecoveryArrivals.ArrivedKeepsGood` | internal/ingest/recovery.go:214-248 | any arrival keeps missing and held disjoint in every stream and every identity active, and asks for no packet that is held |
| `RecoveryArrivals.ArrivedKeepsHonest` | internal/ingest/recovery.go:214-248 | if the packet is the sender's own, all that is held and rebuilt still is |
| `RecoveryArrivals.ParityKeepsGood` | internal/ingest/recovery.go:256-305 | the same invariants for any accepted parity datagram, honest or not |
| `RecoveryArrivals.ParityKeepsHonest` | internal/ingest/recovery.go:256-305 | if the parity is honest, so is everything stored, filed and rebuilt at once |
| `RecoveryArrivals.NameMissing` | internal/ingest/recovery.go:293-297 | the numbers the group lacks become missing; those already missing keep their request time |
| `Recovery.State.constructor` | internal/ingest/recovery.go:137-144 | an empty state, with a mux or without, satisfies all invariants |
| `Recovery.State.StorePacket` | internal/ingest/recovery.go:365-380 | map, order and head index together do what the plain first-in-first-out history does |
| `Recovery.State.StoreGroup` | internal/ingest/recovery.go:438-465 | the groups after filing one more; the order covers them all, with at most 256 groups and 512 order entries |
| `Recovery.State.OpenStream` | internal/ingest/recovery.go:316-327 | a known stream is returned as it is, a new one may cost the least recent its place |
| `Recovery.State.RecoverGroup` | internal/ingest/recovery.go:401-436 | the missing numbers, the rebuilt datagram if there is one, and the history and streams after it |
| `Recovery.State.RecoverPending` | internal/ingest/recovery.go:382-399 | the waiting groups that list the packet, each once, are retried in some order, with the effect of that sequence of retries |
| `Recovery.State.Remember` | internal/ingest/recovery.go:214-248 | a refused packet changes nothing; any other has exactly the effect of an arrival, the invariants hold, the request names only packets not held, and honesty is kept |
| `Recovery.State.ConsumeParity` | internal/ingest/recovery.go:256-305 | accepted exactly if it is let through, parses and its peer is active; then the group is used or filed, the request names only packets not held, and a datagram rebuilt from honest parity is the sender's own |
| `Recovery.State.PopReady` | internal/ingest/recovery.go:200-212 | the oldest rebuilt datagram, of an active identity, and if arrivals were honest what the sender has under its id |
| `Recovery.State.AuthenticatedIdentity` | internal/ingest/recovery.go:189-198 | only a confirmed binding gives an address an identity, and that identity is active |
| `Recovery.State.RememberBinding` | internal/ingest/recovery.go:498-516 | the first username of a transaction waits; a full table is cleared; overlong names are ignored |
| `Recovery.State.ConfirmBinding` | internal/ingest/recovery.go:518-531 | the waiting username becomes the address's identity only if it is active |
| `Recovery.State.FileReceipt` | internal/ingest/delivery.go:22-40 | a batch is filed exactly for a known, enabled stream, so under an active identity |
| `Recovery.State.Listen` | internal/ingest/recovery.go:57-60 | one more socket, with nothing in it |
| `Recovery.State.GetConn` | internal/ingest/recovery_mux.go:28-37 | the ufrag becomes active and nothing becomes inactive |
| `Recovery.State.RemoveConnByUfrag` | internal/ingest/recovery_mux.go:39-77 | the exact tables afterwards; nothing of the ufrag is left in any of them, and both stores keep their invariants |
| `Identities.PrefixIsFirstSegment` | internal/ingest/recovery_mux.go:48-53 | for a colon-free ufrag, starting with "ufrag:" is having it as first segment |
| `Identities.RevokesExactly` | internal/ingest/recovery_mux.go:43-73 | removal hits exactly the identities whose username starts with that ufrag |
| `Identities.ColonsReachFurther` | internal/ingest/recovery_mux.go:43-73 | a ufrag that contains a colon always reaches an identity of another |
| `Revocation.RemovalIsComplete` | internal/ingest/recovery_mux.go:39-77 | every invariant survives removal of any ufrag, and nothing of it is left in packets, streams, groups, ready, identities or deliveries |
| `Revocation.InactiveIsAbsent` | internal/ingest/recovery.go:533-542 | in any valid state a ufrag that is not active has nothing anywhere |
| `Revocation.OthersAreUntouched` | internal/ingest/recovery_mux.go:39-77 | removing a colon-free ufrag keeps everything filed under any other, also one sharing a textual prefix |
| `Revocation.Kept` | internal/ingest/recovery_mux.go:45-73 | deleting from a list keeps exactly the elements that are not revoked |
| `Revocation.KeptInOrder` | internal/ingest/recovery_mux.go:45-73 | what is left is a subsequence, each kept element as often as before |
| `Revocation.KeptExact` | internal/ingest/recovery_mux.go:58-64 | the filtered history still lists each held packet exactly once, oldest first |
| `RecoveryRun.Step` | internal/ingest/recovery.go:146-185 | any event keeps the class invariant; what it hands to the reader is active, and the sender's own if arrivals were; what it rebuilds is handed over or queued |
| `RecoveryRun.Serve` | internal/ingest/recovery.go:146-185 | over any run: if every packet and parity is the sender's own, then everything held and waiting is, and every datagram read is what the sender has under that identity, SSRC and number; a ufrag that is inactive and not admitted again leaves nothing behind and nothing of it is read, whatever was in flight; every packet that is held without having arrived was given to the reader or waits for it with these octets, and what was given or waited still is or does unless a ufrag was removed |
| `PacketBuffer.ImageRoundTrip` | internal/ingest/packet_buffer.go:65-71 | the octets of the ring determine the queue of datagrams |
| `PacketBuffer.PacketBuffer.Grow` | internal/ingest/packet_buffer.go:58-64 | larger storage holds the same queue, also when it was wrapped |
| `PacketBuffer.PacketBuffer.Write` | internal/ingest/packet_buffer.go:36-78 | appends exactly its packet, or fails as the state demands and changes nothing; storage never exceeds 1,000,000 octets |
| `PacketBuffer.PacketBuffer.Append` | internal/ingest/packet_buffer.go:65-71 | header and payload go behind the queue, wherever the end of storage falls |
| `PacketBuffer.PacketBuffer.Read` | internal/ingest/packet_buffer.go:80-107 | removes the oldest datagram and returns the prefix that fits, or reports why it cannot and changes nothing |
| `PacketBuffer.PacketBuffer.ReadPacket` | internal/ingest/packet_buffer.go:111-132 | the same for a nonempty queue, also when header or payload is split |
| `PacketBuffer.PacketBuffer.OldestSize` | internal/ingest/packet_buffer.go:112-118 | the length read from the header is the oldest datagram's, and what follows is the rest of the queue |
| `PacketBuffer.PacketBuffer.Close` | internal/ingest/packet_buffer.go:134-144 | closing keeps the queue |
| `PacketBuffer.Handle` | internal/ingest/packet_buffer.go:36-144 | each operation answers as the plain queue does and leaves the plain queue's contents |
| `PacketBuffer.Serve` | internal/ingest/packet_buffer.go:36-144 | every run of the ring gives, answer by answer, what the plain queue gives |
| `PacketBuffer.RunConserves` | internal/ingest/packet_buffer.go:36-132 | over every run deliveries line up one to one with the datagrams stored, oldest first, and the rest is queued |
| `PacketBuffer.TakenIffItFits` | internal/ingest/packet_buffer.go:43-57 | a datagram is taken exactly if the buffer is open, it has 1 to 65535 octets, and the octets stored with two more per datagram stay within 1,000,000 |
| `RtpClock.RtpDeltaIsUnique` | internal/relay/delay.go:187-196 | rtpDelta is the one value in [-2^31, 2^31) congruent to the difference |
| `RtpClock.RtpDeltaOfTicks` | internal/relay/delay.go:187-196 | for ticks less than half a wrap apart it is their true distance |
| `RtpClock.PlayerAgreesWithRelay` | internal/dynamicdelay/web/player.js:9-9 | the player's bitwise or with zero unwraps as the relay does, for all timestamps |
| `RtpClock.PlayoutFits` | internal/relay/delay.go:178-185 | no product in playoutOf leaves the 64-bit range |
| `RtpClock.SenderReportFits` | internal/relay/playback.go:18-28 | no product, sum or difference in SenderReport does either |
| `RtpClock.MediaTimeMonotone` | internal/relay/delay.go:178-185 | later media never plays earlier |
| `RtpClock.RollingAnchorIsExact` | internal/relay/delay.go:145-150 | after k anchor rolls any near tick is mapped to within k + 1 ns of the exact line through the first packet |
| `RtpClock.PlayerClock.Next` | internal/dynamicdelay/web/player.js:8-12 | the closure adds the wrapped distance to its running tick count |
| `RtpClock.Unwrap` | internal/dynamicdelay/web/player.js:5-13 | fed wrapped timestamps of a true tick sequence, the player returns that sequence |
| `PlayoutHeap.Push` | internal/relay/delay.go:462-477 | sifts up along the parents, and reports whether the item came to rest at the root |
| `PlayoutHeap.PushNewest` | internal/relay/delay.go:462-477 | heap and items are kept, and the flag is true exactly if the new item is due before everything queued |
| `PlayoutHeap.PushedIsHeap` | internal/relay/delay.go:462-477 | pushing keeps the heap and adds exactly the item |
| `PlayoutHeap.RestsAtRootIffNext` | internal/relay/delay.go:460-477 | resting at the root means being first under playout time and arrival |
| `PlayoutHeap.Sink` | internal/relay/delay.go:494-515 | the loop exchanges an item with its least child until it is not after either |
| `PlayoutHeap.Pop` | internal/relay/delay.go:479-491 | returns an item no other precedes and leaves a heap of the rest |
| `PlayoutHeap.PoppedIsHeap` | internal/relay/delay.go:479-515 | what is left after a pop is a heap of exactly the other items |
| `PlayoutHeap.DrainedIsSorted` | internal/relay/delay.go:479-515 | popping until empty yields the items in playout order |
| `PlayoutHeap.HeapDrainsAsStableSort` | internal/relay/delay.go:448-515 | packets pushed as they arrive come out stably sorted by playout time |
| `PlayoutHeap.HeapRunsAsSortedList` | internal/relay/delay.go:448-515 | from any heap, over any mix of pushes and pops, every pop gives what a list kept stably sorted by playout time gives: the first due, and of those due together the first to arrive |
| `PlayoutHeap.QueueRunsAsSortedList` | internal/relay/delay.go:448-515 | so from an empty queue |
| `PlayoutHeap.PopsInARow` | internal/relay/delay.go:479-491 | pops with no push between them give the first items of that list, in its order |
| `PlayoutHeap.DrainedShifted` | internal/relay/delay.go:396-398 | a uniform shift moves the drained schedule and changes nothing else about it |
| `PlayoutHeap.ShiftedIsHeap` | internal/relay/clock.go:129-131 | a uniform shift keeps the heap |
| `PlayoutTrack.JumpKeepsHome` | internal/relay/delay.go:404-423 | applying the latest jump leaves anchor minus shift, and the playback reference, unchanged |
| `PlayoutTrack.JumpsKeepHomes` | internal/relay/delay.go:404-423 | over any jumps at distinct instants, seen or skipped by any track at any time, this holds of every track, and a caught-up track has the controller's shift |
| `PlayoutTrack.CaughtUpTracksKeepTheirOffset` | internal/relay/delay.go:404-423 | tracks that have caught up stand exactly as far apart as at the start |
| `PlayoutTrack.SkippedJumpKeepsOffsetIff` | internal/relay/delay.go:412-415 | of two tracks level with each other one sees two more jumps and the other only the second: their offset is kept exactly if no instant is used again for another shift |
| `PlayoutTrack.JumpsAtOneInstantPartTracks` | internal/dynamicdelay/delay.go:126-181 | a run of the controller from its first configuration that jumps twice at one instant leaves two such tracks apart, both counting as caught up |
| `PlayoutLine.EveryItemIsOnTheLine` | internal/relay/delay.go:101-185 | over any run of pushes, pops, retargetings, jumps and clock corrections on a new track, every queued packet's playout time less the target is within k + 1 ns of the exact line through the first packet after k anchor rolls; only jumps and corrections move the line |
| `PlayoutLine.PushKeepsClock` | internal/relay/delay.go:145-150 | a push moves the media time of no near timestamp by more than the jump it applies and a nanosecond |
| `PlayoutLine.LeavesIffDue` | internal/relay/delay.go:200-237 | a packet leaves exactly if no jump has to be applied first, pacing does not hold it and one is due by its media time plus the curve's delay, or the target without a curve; it is the first of those due, and only it leaves |
| `PlayoutLine.NothingLeavesEarly` | internal/relay/delay.go:200-237 | after any run a packet leaves only when the place of its true tick on the exact line, plus the delay in force, has come |
| `PlayoutTrails.EveryTrackHasATrail` | internal/relay/relay.go:151-261 | everything a camera does to a track is made of the touches that this speaks of |
| `Admission.PushTakesIffTimely` | internal/relay/delay.go:101-176 | a packet joins the queue, at its media time plus the target, exactly if it was captured since the last jump, is not a stray from before a clock reset, and the track does not wait for a keyframe or this is one; any other is counted as dropped |
| `Admission.LateIffOverdue` | internal/relay/delay.go:127-130 | it counts as late exactly if its time to leave has passed on arrival, and by that much |
| `Admission.JumpPlaysKeyframeNow` | internal/relay/delay.go:166-172 | the keyframe that completes a jump is alone in the queue and due exactly the base delay from now |
| `Admission.FirstPacketCountsAsNow` | internal/relay/delay.go:109-115 | the first packet of a track counts as captured on arrival, whatever jumps there were |
| `Admission.ResetFollowsPackets` | internal/relay/clock.go:107-121 | which packet ends a clock reset and which number is remembered from then on |
| `Admission.MovedClockForgetsLateness` | internal/relay/delay.go:404-423 | a jump and a correction start the lateness sample afresh |
| `CameraPlayout.StepBalances` | internal/relay/relay.go:151-261 | creating, registering, releasing, pushing, popping, reporting, closing, configuring, stepping and correcting each keep every track's books balanced, and so does each buffer's turn in the loops of adjustDelay, ConfigureDelay and correctClocks taken by itself |
| `CameraPlayout.EveryPacketIsAccounted` | internal/relay/delay.go:101-237 | after any run from an empty camera, in which pushes, pops and jumps may also fall between two buffers of a loop, on every track, registered or not: packets accepted = packets given out + dropped + queued, and the queue is a heap |
| `CameraPlayout.RegisteredTracksFollowTheCurve` | internal/relay/relay.go:160-171 | a track registered under a curve follows it from where it stands, taking over its shift and the instant of its last jump; enabling the curve does the same for every registered track |
| `CameraDelay.LatePacketRaisesDelay` | internal/relay/relay.go:200-228 | a packet pushed at a registered track after its time to leave makes the next adjustment lay a curve that climbs 50 ms, or to what that lateness calls for |
| `CameraDelay.AdjustmentStepsWithWorst` | internal/relay/relay.go:200-228 | once a second the controller is stepped with the worst lateness of any registered track, and every sample starts afresh |
| `CameraDelay.ConfigurationReachesAll` | internal/relay/relay.go:232-261 | a configuration sets the target of every registered track and leaves the jumps a track follows alone |
| `CameraDelay.NewTrackJoinsRecovery` | internal/relay/relay.go:160-171 | an excess of a track that has just joined starts a new correction |
| `PlayoutBuffer.Stream.SampleAll` | internal/relay/relay.go:211-219 | the loop brings every buffer up to the curve, returns the worst lateness of any, and clears each |
| `PlayoutBuffer.Stream.ReconfigureAll` | internal/relay/relay.go:244-260 | the loop retargets every buffer, attaches it to the curve where it stands, and clears its lateness exactly if a new curve was laid |
| `PlayoutRun.Playout.Execute` | internal/relay/relay.go:151-261 | any operation on the stream, its controller and its buffers, registering, releasing and the single turns of the loops included, takes the objects where the run on values goes |
| `PlayoutRun.Serve` | internal/relay/delay.go:101-436 | any run of operations on new objects, loops whole or buffer by buffer: for every Buffer object, accepted = given out + dropped + queued |
| `PlayoutBuffer.Buffer.Push` | internal/relay/delay.go:101-175 | the whole effect of a push on buffer and controller: anchoring, jumps, staleness, lateness, catching up, rolling, queueing |
| `PlayoutBuffer.Buffer.Pop` | internal/relay/delay.go:200-237 | one pass of the loop: what is returned, and the buffer after it |
| `PlayoutBuffer.Buffer.SetTarget` | internal/relay/delay.go:389-401 | the target changes and the queue shifts by the difference |
| `PlayoutBuffer.Buffer.ShiftQueue` | internal/relay/delay.go:396-398 | the in-place loop shifts every queued packet alike |
| `PlayoutBuffer.Buffer.MoveClock` | internal/relay/clock.go:123-136 | the anchor moves, and the queue moves with it or is discarded into the count |
| `PlayoutBuffer.Buffer.Newest` | internal/relay/delay.go:264-274 | the latest playout time and the first item that has it |
| `PlayoutBuffer.Stream.AlignSenderClocks` | internal/relay/clock.go:46-70 | with two reported tracks or more, every track is put on the shared timeline, else nothing happens |
| `PlayoutBuffer.Stream.ClockCorrection` | internal/relay/clock.go:138-168 | the depth correction, the track charged with it, and whether a track waits for a keyframe |
| `PlayoutBuffer.Stream.FindWorst` | internal/relay/clock.go:143-152 | the loop finds the deepest track over its margin |
| `PlayoutBuffer.Stream.CorrectClocks` | internal/relay/clock.go:13-42 | the whole effect on all tracks of the stream; it reports a correction exactly if the shift is positive, and asks for a keyframe then or while a track waits |
| `PlayoutBuffer.CorrectOntoTimeline` | internal/relay/clock.go:13-70 | after it, with every track reported, all are on the timeline |
| `StreamClocks.ClocksEndOnTimeline` | internal/relay/clock.go:13-105 | after correctClocks every anchor is within 50 ms of the shared sender timeline, when all of two or more tracks have reports |
| `StreamClocks.RecoveryMovesAllAlike` | internal/relay/clock.go:23-35 | a depth correction moves the timeline and every track by the same amount |
| `StreamClocks.RecoveryKeepsTimeline` | internal/relay/clock.go:23-35 | so it leaves every track on the timeline |
| `StreamClocks.EqualInstantsPlayTogether` | internal/relay/playback.go:32-35 | media captured at one instant plays on any two tracks within 100 ms, and 4 ns of rounding; the mapping is that of section 6.4.1 of RFC 3550 |
| `StreamClocks.CorrectClocksConserves` | internal/relay/clock.go:123-136 | a correction discards packets only into the count of discarded ones |
| `StreamClocks.NoticedResetIsCounted` | internal/relay/clock.go:92-105 | a clock reset that a report revealed starts a new epoch at the next correction, and waits for its first packet |
| `StreamClocks.BackwardReportResetsClock` | internal/relay/playback.go:18-28 | a later report whose timestamp runs backward is such a reset |
| `SenderReports.ReportCountsIff` | internal/relay/playback.go:14-21 | a report is stored exactly if it moves the sender's clock forward, else it changes nothing |
| `SenderReports.ResetIsNoticed` | internal/relay/playback.go:14-29 | by the sender's own ticks and NTP clock: a reset is noticed if timestamps ran backward or went a nanosecond over the margin apart from NTP time, and not if they went forward within it |
| `SenderReports.PunctualSenderIsNeverReset` | internal/relay/playback.go:14-29 | over any run of reports a sender that keeps time is never taken to have reset its timestamps |
| `SenderReports.ClaimIsTheJump` | internal/relay/clock.go:72-90 | what a track claims back of a correction is how far its timestamps ran ahead of the sender's clock between the two reports |
| `SenderReports.TakesBackAtMostTheCharge` | internal/relay/clock.go:72-90 | only a jump beyond the margin is taken back, at most the charge, and once |
| `SenderReports.CorrectionStandsUntil` | internal/relay/clock.go:72-90 | how long a correction can be taken back |
| `Alignment.TimelineStartsAtFirstTrack` | internal/relay/clock.go:57-62 | the first alignment takes the timeline from the first track, which stands still |
| `Alignment.TimelineMovesByRollbacks` | internal/relay/clock.go:54-56 | later ones move it only by what reports take back |
| `Alignment.AlignmentMovesOrDiscards` | internal/relay/clock.go:92-105 | a track within 50 ms is left alone, any other is put on the timeline exactly; its queue moves along unless it was reset or is further off than its margin |
| `DepthRecovery.CorrectsIffDeep` | internal/relay/clock.go:138-168 | the depth is corrected exactly if some track has a packet queued further ahead of now than its target and margin |
| `DepthRecovery.CameraCorrectsIffDeep` | internal/relay/clock.go:13-42 | so in every state a camera can reach |
| `DepthRecovery.ShiftReachesTarget` | internal/relay/clock.go:138-168 | a new correction takes the newest packet of one deep track to exactly the target from now and every packet of every deep track at least that far; another within the window repeats the last |
| `DepthRecovery.FreshIff` | internal/relay/clock.go:142-151 | when a correction is new |
| `DepthRecovery.RecoverySetsBack` | internal/relay/clock.go:23-35 | exactly the tracks that take part have their clock set back, their queue discarded and wait for a keyframe; the others are left alone |
| `DepthRecovery.ChargedTrackReachesTarget` | internal/relay/clock.go:156-160 | the track charged is the one whose newest packet the correction takes to its target |
| `DepthRecovery.HealthyStreamIsLeftAlone` | internal/relay/clock.go:13-42 | without sender reports a stream in which nothing runs ahead is not touched |
| `DepthRecovery.AsksForKeyframeIff` | internal/relay/clock.go:37-39 | a keyframe is asked for exactly if some track is deep or waits for one |
| `DepthRecovery.NewestIsDueLast` | internal/relay/delay.go:264-274 | a correction is measured on the packet due last, the first of those due together |
| `DepthRecovery.ClosingDiscardsIffDeep` | internal/relay/delay.go:426-436 | closing discards the queue exactly if the track is deep |
| `DepthRecovery.MarginFollowsTarget` | internal/relay/delay.go:83-85 | the margin is the target, kept between 250 ms and 2 s |
| `DelayController.NormalizeSettles` | internal/dynamicdelay/delay.go:26-42 | options come out normal, normal options are left alone, and normalizing twice is normalizing once |
| `DelayController.CatchUpTopsOutAtNineTenths` | internal/dynamicdelay/delay.go:50-58 | 200 ms/s exactly from nine tenths of the room above the base |
| `DelayController.CatchUpBounds` | internal/dynamicdelay/delay.go:50-58 | never slower than the configured or automatic minimum, never over 200 ms/s |
| `DelayController.DelayMonotone` | internal/dynamicdelay/delay.go:72-76 | the curve moves from one end to the other and never turns back |
| `DelayController.RunsStaySane` | internal/dynamicdelay/delay.go:97-181 | over every run the goal stays in [base, maximum], the options stay normal, every curve stays within 50 ms up and 200 ms down, and it carries the controller's own last jump |
| `DelayController.CurveIsContinuous` | internal/dynamicdelay/delay.go:118-148 | the delay does not break where a step or an enabled reconfiguration replaces the curve |
| `DelayController.DelayStaysInside` | internal/dynamicdelay/delay.go:126-181 | inside [base, maximum] it stays inside, at every instant, whatever is late and whatever jumps |
| `DelayController.IntervalAbsorbsDelay` | internal/dynamicdelay/delay.go:126-165 | from outside, n steps bring it n times the slowest rate closer, whatever is late |
| `DelayController.QuietStepsFall` | internal/dynamicdelay/delay.go:126-165 | n quiet steps undo at least n times the slowest catch-up and stop at the base |
| `DelayController.QuietStepsRise` | internal/dynamicdelay/delay.go:126-165 | below a raised base, n quiet steps climb 50 ms each and stop at it |
| `DelayController.QuietReachesBase` | internal/dynamicdelay/delay.go:126-165 | (delay - base) / slowest rate quiet steps reach the base |
| `DelayController.DelayRateIsLimited` | internal/dynamicdelay/delay.go:126-151 | between any two instants of any steady run it rises at most 50 ms and falls at most 200 ms per second, give or take the truncated nanosecond |
| `DelayController.StepFallsAtCatchUp` | internal/dynamicdelay/delay.go:141-148 | a step lays a curve that falls at most at the catch-up rate for the delay it starts from |
| `DelayController.PacedAfterEach` | internal/dynamicdelay/delay.go:97-181 | steps, jumps and configurations that lay a level curve all leave a curve that falls no faster than the catch-up rate of its starting point |
| `DelayController.CatchUpMonotone` | internal/dynamicdelay/delay.go:50-58 | the higher the delay, the faster it may fall |
| `DelayController.FallIsLimited` | internal/dynamicdelay/delay.go:72-76 | between any two instants of any steady run the delay falls at most at the rate of its fastest curve, give or take the truncated nanosecond |
| `DelayController.SpeedHoldsIff` | internal/dynamicdelay/delay.go:72-76 | from any instant, the delay falls at most at the speed set by hand over every continuation at that speed, reconfigurations included, if and only if what is left of the running curve does |
| `DelayController.ReconfiguredSpeedHoldsIff` | internal/dynamicdelay/delay.go:97-122 | after any reconfiguration to a speed set by hand, that speed holds from then on if and only if a new curve was laid or the rest of the old one is slow enough |
| `DelayController.ManualSpeedLimitsFall` | internal/dynamicdelay/delay.go:50-58 | at a speed fixed by hand it falls, between any two instants, at most at that speed, once what is left of the running curve does |
| `DelayController.LaidRatesLimitFall` | internal/dynamicdelay/delay.go:126-151 | at any speeds, changed along the way or not, it falls over any steady run at most at the largest catch-up rate in force when one of the run's curves was laid, if the rest of the curve it starts on does |
| `DelayController.CatchUpLimitsFall` | internal/dynamicdelay/delay.go:126-151 | at any speed, also the automatic one, it falls over a run of steps at most at the catch-up rate of the highest delay reached |
| `DelayController.SlowedCurveFallsOn` | internal/dynamicdelay/delay.go:102-110 | from the first configuration, a run after which a speed of 1 ms/s is configured and the delay falls by 50 ms in a second |
| `DelayGrowth.LatenessRaisesDelay` | internal/dynamicdelay/delay.go:126-165 | from delay x, a step with lateness l and n - 1 more, none later than 5 s after one with lateness: the delay ends at x + 50 ms n, or at x + l + 100 ms within the maximum, or at a goal that was higher; exactly there if nothing else is late |
| `DelayGrowth.LatenessPasses` | internal/dynamicdelay/delay.go:126-165 | from 5 s after the last lateness on quiet steps take it back to the base |
| `DelayGrowth.JumpIsAskedForIff` | internal/dynamicdelay/delay.go:144-165 | a jump is asked for exactly if jumps are allowed and the maximum cannot hold the delay, or the delay with the lateness and 100 ms |
| `DelayGrowth.ConfigurationMakesForBase` | internal/dynamicdelay/delay.go:97-122 | a configuration that lays a new curve forgets what earlier lateness called for |
| `DelayGrowth.JumpMakesForBase` | internal/dynamicdelay/delay.go:167-181 | after a jump the delay is the base and stays so while nothing is late |
| `DelayGrowth.StepTakesEffectIff` | internal/dynamicdelay/delay.go:128-141 | a step does nothing before the last jump or within a second of the last step, and ends the curve when switched off |
| `DelayGrowth.OptionsMean` | internal/dynamicdelay/delay.go:26-42 | what unset, excessive and ordinary options become |
| `AudioTimeline.SilencePlaysItsDuration` | internal/dynamicdelay/web/player.js:29-38 | a generated packet decodes to exactly the duration recorded for it, by the TOC octet of section 3.1 of RFC 6716 |
| `AudioTimeline.FillGap` | internal/dynamicdelay/web/player.js:498-505 | the loop ends, and the filler is what the gap calls for |
| `AudioTimeline.FillCovers` | internal/dynamicdelay/web/player.js:498-505 | the filler is contiguous and leaves less than 120 ticks of the gap |
| `AudioTimeline.FillIsSilence` | internal/dynamicdelay/web/player.js:500-503 | each filler packet is 2.5 to 20 ms of silence that decodes to its recorded duration |
| `AudioTimeline.SpotIsClose` | internal/dynamicdelay/web/player.js:494-507 | a packet lands at or after the end of the audio, less than 120 ticks from its true time |
| `AudioTimeline.ReceivedPlacesPacket` | internal/dynamicdelay/web/player.js:492-512 | exactly the frames not before the origin, not covered already and of valid duration change anything: silence that continues the timeline is appended and then the packet, less than 120 ticks from its true time |
| `AudioTimeline.TimelineNeverOverlaps` | internal/dynamicdelay/web/player.js:492-512 | for any timestamps fragments are contiguous, nothing placed ever overlaps, and what was placed stays |
| `AudioTimeline.EveryPacketLiesNearItsTime` | internal/dynamicdelay/web/player.js:506-510 | over any run every frame that was to be placed is on the final timeline with its own data and duration, less than 120 ticks from its own time: no error accumulates |
| `AudioTimeline.ReceiveRun` | internal/dynamicdelay/web/player.js:492-512 | a new track fed any frames takes them all up to the first that makes it throw, and no further: what it sent and collects never overlaps and its fragments are contiguous |
| `AudioTimeline.AudioTrack.Receive` | internal/dynamicdelay/web/player.js:492-512 | the whole effect of a frame on samples, end and fragments sent; it throws exactly on a frame that is to be placed and has no valid duration |

## Left out

- Pion (ICE, DTLS, SRTP, SDP, STUN message integrity) and `internal/ingest/engine.go`: foreign code; a peer is an arbitrary connection state, and a STUN message is its transaction and username.
- HTTP servers, control API, configuration, settings pages, tray and reachability: plumbing; a stream key is taken as already resolved to a camera.
- `internal/stats`, `internal/ingest/paths.go`, `internal/ingest/path_failover.go`, `internal/ingest/playout.go`: counters and short branches that would add only easy members.
- Recovery.State.FileReceipt: models which batch an address has, not its tokens, count and flush, because their content is a hash of the datagram (`internal/ingest/delivery.go`).
- Timers, condition variables, deadlines and goroutine scheduling: any step may happen at any time; no real-time latency is claimed, and `now` is read once per operation.
- Packet pacing in `Pop` (`paceHoldLocked`, `startGroupLocked`, `chargePaceLocked`): the decision to hold is an arbitrary flag, so what is proved holds for any pacing.
- Keyframe parsing (`internal/relay/keyframe.go`): whether a packet is a keyframe is an arbitrary attribute of it; sending a keyframe request is left out, when one is due is not.
- The totals of late and dropped packets that `Untrack` adds up for the statistics, and the lookup of a camera's stream in `Track`, `Untrack` and `ConfigureDelay`: a run is of one camera's stream.
- `Relay.Playback`: only the arrival-based reference of a track is modelled, not the snapshot around it.
- Rounding of float64 sender clocks: exact reals; saturation of Go durations, wrap of 64-bit packet counters and the growth of `packetsSince` beyond 64 bits are not modelled.
- `clocksChanged`, `playbackRate`, the MP4 boxes, the renderer and the video branch of `player.js`; its base-2 logarithm is an exact integer choice.
- The `onPacket` callback of the packet buffer, and its wake-up channel.
- Resource ids are random in the source and taken never to repeat; a sender is taken to use one fixed content per identity, SSRC and sequence number.
- `ReadFrom` sorting datagrams by magic, RTP header and STUN: each event of a run is already sorted.
- `Teardown` and `CloseIngest` of the WHIP server: they only choose whose stop begins, which any run may do at any time.
- The work limiter of recovery is an arbitrary answer, so the cost it is charged is not modelled.
- The mux is attached to an empty recovery state, as the program does at start, or not at all.
- The sockets of the recovery layer are a sequence of values inside the shared state, named by their index, not objects that refer to it.
- StreamClocks.EqualInstantsPlayTogether: takes both tracks to have the same target delay, as ConfigureDelay sets it for every buffer of a stream.
- DelayController.RunsStaySane: takes the base to be a whole number of milliseconds, the unit in which it is configured.
- DelayController.ManualSpeedLimitsFall: takes what is left of the running curve at the start to be slow enough, which `SpeedHoldsIff` proves to be the exact condition.
- RecoveryCascade.EveryOrderSettlesIff: takes no packet of a waiting group to be among the oldest of a full history, about to be pushed out by this very pass; such a packet may come and go within a pass. `SeparateGroupsStaySettled` does without.
- PlayoutLine.EveryItemIsOnTheLine: takes every packet's true tick to be less than half a wrap, and a minute, from the newest one queued, the most that 32-bit timestamps can tell apart.
- RecoveryDelivery.LastMissingPacketIsDelivered: takes no packet of a waiting group to be about to be pushed out of a full history.
- DepthRecovery.CorrectsIffDeep: takes targets to be at least zero, as the callers of SetTarget clamp them, and the clock to be past the first 30 s after the zero time.
- DelayController.DelayRateIsLimited: speaks of runs in clock order in which nothing jumps and control stays enabled, since a jump and switching off leave the curve on purpose.
