/**
 * What the arrival of a packet and of a parity datagram do to the tables, as relations between
 * the values before and after. Go's map iteration leaves three things open (which of several
 * least recent streams makes room, in which order waiting groups are retried, which missing
 * packets are asked for first), so each relation is indexed by what was chosen.
 */
module RecoveryArrivals {
  import opened Basics
  import opened Bytes
  import opened Identities
  import opened RecoveryWire
  import opened Parity
  import opened GapTracking
  import opened RecoveryHistory
  import opened RecoverySteps
  import opened RecoveryShelf
  import opened RecoveryTables

  // ---- A stream is touched ----

  /** The packet with this number has arrived now. */
  function Touched(s: Stream, sequence: uint16, now: int): Stream {
    s.(lastTouched := now, missing := s.missing - {sequence})
  }

  /** Streams once the packet `id` is stored, its stream begun and its gap tracked. */
  ghost predicate Entered(before: Streams, packets: Packets, id: PacketId, now: int, begun: Streams, after: Streams) {
    var sid := StreamOf(id);
    && Opened(before, begun, sid, now)
    && sid in begun && sid in after
    && after == begun[sid := after[sid]]
    && Tracked(packets, id, Touched(begun[sid], id.sequence, now), after[sid])
  }

  lemma EnteredKeepsStreams(
    active: Option<set<string>>, before: Streams, packets: Packets, id: PacketId, now: int, begun: Streams,
      after: Streams)
    requires Entered(before, packets, id, now, begun, after) && now > 0 && Active(active, id.remote)
    requires StreamsOk(before) && StreamsActive(active, before)
    ensures StreamsOk(after) && StreamsActive(active, after) && after[StreamOf(id)].lastTouched == now
  {
    OpenedKeepsStreams(active, before, begun, StreamOf(id), now);
    EnteredTouches(before, packets, id, now, begun, after);
    ReplacedKeepsStreams(active, begun, StreamOf(id), after[StreamOf(id)]);
  }

  lemma EnteredTouches(before: Streams, packets: Packets, id: PacketId, now: int, begun: Streams, after: Streams)
    requires Entered(before, packets, id, now, begun, after)
    ensures after[StreamOf(id)].lastTouched == now
  {
  }

  lemma TrackedKeepsDisjoint(packets: Packets, begun: Streams, id: PacketId, now: int, tracked: Stream)
    requires StreamOf(id) in begun && AllDisjoint(packets, Unmissed(begun, id))
    requires Tracked(packets, id, Touched(begun[StreamOf(id)], id.sequence, now), tracked)
    ensures AllDisjoint(packets, begun[StreamOf(id) := tracked])
  {
    var sid, unmissed := StreamOf(id), Unmissed(begun, id);
    assert Disjoint(packets, sid, unmissed[sid].missing);
    TrackedStaysDisjoint(packets, id, Touched(begun[sid], id.sequence, now), tracked);
    ReplacedKeepsDisjoint(packets, unmissed, sid, tracked);
    assert begun[sid := tracked] == unmissed[sid := tracked];
  }

  lemma EnteredKeepsConsistent(
    before: Memory, id: PacketId, data: seq<byte>, now: int, begun: Streams, after: Streams)
    requires Consistent(before) && |before.streams| <= STREAM_LIMIT
    requires Entered(before.streams, Stored(before.past, id, data).packets, id, now, begun, after)
    ensures Consistent(Memory(Stored(before.past, id, data), after))
  {
    OpenedKeepsDisjoint(before.past.packets, before.streams, begun, StreamOf(id), now);
    StoringKeepsConsistent(Memory(before.past, begun), id, data);
    TrackedKeepsDisjoint(Stored(before.past, id, data).packets, begun, id, now, after[StreamOf(id)]);
  }

  // ---- Repairs are requested ----

  /** A stream that repairs are enabled for names what is due; any other asks for nothing. */
  ghost predicate Requested(before: Streams, after: Streams, id: StreamId, now: int, due: seq<uint16>,
      seen: set<uint16>) {
    && id in before && id in after
    && if !before[id].enabled then after == before && due == []
       else
         && after == before[id := before[id].(missing := after[id].missing)]
         && seen <= before[id].missing.Keys
         && Scanned(before[id], now, seen, after[id].missing, due)
         && (|due| < REQUEST_SIZE ==> seen == before[id].missing.Keys)
  }

  lemma RequestedKeeps(
    active: Option<set<string>>, packets: Packets, before: Streams, after: Streams, id: StreamId, now: int,
    due: seq<uint16>, seen: set<uint16>)
    requires Requested(before, after, id, now, due, seen)
    requires StreamsOk(before) && StreamsActive(active, before) && AllDisjoint(packets, before)
    ensures StreamsOk(after) && StreamsActive(active, after) && AllDisjoint(packets, after)
    ensures forall i :: 0 <= i < |due| ==> PacketOf(id, due[i]) !in packets
  {
    assert Disjoint(packets, id, before[id].missing);
    if before[id].enabled {
      RequestsNothingHeld(packets, id, before[id], now, seen, after[id].missing, due);
      ReplacedKeepsStreams(active, before, id, after[id]);
      ReplacedKeepsDisjoint(packets, before, id, after[id]);
    }
  }

  lemma TrimmedKeeps(active: Option<set<string>>, packets: Packets, before: Streams, after: Streams, now: int)
    requires Trimmed(before, after, now)
    requires StreamsOk(before) && StreamsActive(active, before) && AllDisjoint(packets, before)
    ensures StreamsOk(after) && StreamsActive(active, after) && AllDisjoint(packets, after)
  {
    SmallerStreams(after, before);
    forall k | k in after ensures Disjoint(packets, k, after[k].missing) {
      assert Disjoint(packets, k, before[k].missing);
    }
  }

  // ---- A packet arrives ----

  /** The choices one call of remember makes, and the streams after each of its steps. */
  datatype Arrival = Arrival(
    begun: Streams,
    entered: Streams,
    order: seq<GroupId>,
    trimmed: Streams,
    due: seq<uint16>,
    seen: set<uint16>)

  /** The desk once the packet is stored and its gap tracked. */
  ghost function EnteredDesk(before: Desk, id: PacketId, data: seq<byte>, a: Arrival): Desk {
    before.(memory := Memory(Stored(before.memory.past, id, data), a.entered))
  }

  /** The groups that list `id`: the only ones its arrival can complete. */
  ghost predicate Awaiting(groups: Groups, order: seq<GroupId>, id: PacketId) {
    && NoRepeatedGroups(order)
    && forall g :: g in order <==> g in groups && Contains(groups[g], id)
  }

  /** The same part way through, when `todo` have not been looked at. */
  ghost predicate AwaitingBut(groups: Groups, order: seq<GroupId>, id: PacketId, todo: set<GroupId>) {
    && NoRepeatedGroups(order)
    && forall g :: g in order <==> g in groups && g !in todo && Contains(groups[g], id)
  }

  lemma AwaitingStep(groups: Groups, order: seq<GroupId>, id: PacketId, todo: set<GroupId>, next: GroupId)
    requires AwaitingBut(groups, order, id, todo) && next in todo && next in groups
    ensures next !in order
    ensures AwaitingBut(groups, if Contains(groups[next], id) then order + [next] else order, id, todo - {next})
  {
  }

  /** remember, once it is not refused. */
  ghost predicate Arrived(before: Desk, after: Desk, id: PacketId, data: seq<byte>, remote: Address, now: int,
                          trims: bool, a: Arrival) {
    var desk := RetriedAll(EnteredDesk(before, id, data, a), a.order, remote);
    && Entered(before.memory.streams, Stored(before.memory.past, id, data).packets, id, now, a.begun, a.entered)
    && Awaiting(before.groups, a.order, id)
    && after == desk.(memory := Memory(desk.memory.past, after.memory.streams))
    && (if trims then Trimmed(desk.memory.streams, a.trimmed, now) else a.trimmed == desk.memory.streams)
    && Requested(a.trimmed, after.memory.streams, StreamOf(id), now, a.due, a.seen)
  }

  /** The stream of a packet that has just arrived is not idle. */
  lemma TouchedStays(d: Desk, order: seq<GroupId>, remote: Address, id: StreamId, trims: bool, after: Streams, now: int)
    requires id in d.memory.streams && d.memory.streams[id].lastTouched == now
    requires var retried := RetriedAll(d, order, remote).memory.streams;
             if trims then Trimmed(retried, after, now) else after == retried
    ensures id in after
  {
    RetriesStrike(d, order, remote, id);
  }

  lemma EnteredKeepsGood(active: Option<set<string>>, before: Desk, id: PacketId, data: seq<byte>, now: int, a: Arrival)
    requires Good(active, before) && StreamsOk(before.memory.streams) && now > 0 && Active(active, id.remote)
    requires Entered(before.memory.streams, Stored(before.memory.past, id, data).packets, id, now, a.begun, a.entered)
    ensures Good(active, EnteredDesk(before, id, data, a)) && StreamsOk(a.entered)
    ensures a.entered[StreamOf(id)].lastTouched == now
  {
    EnteredKeepsStreams(active, before.memory.streams, Stored(before.memory.past, id, data).packets, id, now,
      a.begun, a.entered);
    EnteredKeepsConsistent(before.memory, id, data, now, a.begun, a.entered);
    StoringKeepsActive(active, before.memory.past, id, data);
  }

  /** A pass over waiting groups leaves as many streams, each touched when it was. */
  lemma RetriesKeepStreamsOk(d: Desk, order: seq<GroupId>, remote: Address)
    requires StreamsOk(d.memory.streams)
    ensures StreamsOk(RetriedAll(d, order, remote).memory.streams)
  {
    var after := RetriedAll(d, order, remote).memory.streams;
    RetriesTouchOnlyTheirs(d, order, remote);
    SmallerStreams(after, d.memory.streams);
    forall k | k in after ensures after[k].lastTouched > 0 {
      RetriesStrike(d, order, remote, k);
    }
  }

  lemma ArrivedKeepsGood(active: Option<set<string>>, before: Desk, after: Desk, id: PacketId, data: seq<byte>,
                         remote: Address, now: int, trims: bool, a: Arrival)
    requires Good(active, before) && StreamsOk(before.memory.streams) && now > 0 && Active(active, id.remote)
    requires Arrived(before, after, id, data, remote, now, trims, a)
    ensures Good(active, after) && StreamsOk(after.memory.streams)
    ensures forall i :: 0 <= i < |a.due| ==> PacketOf(StreamOf(id), a.due[i]) !in after.memory.past.packets
  {
    EnteredKeepsGood(active, before, id, data, now, a);
    var entered := EnteredDesk(before, id, data, a);
    RetriesKeepGood(active, entered, a.order, remote);
    RetriesKeepStreamsOk(entered, a.order, remote);
    var desk := RetriedAll(entered, a.order, remote);
    if trims {
      TrimmedKeeps(active, desk.memory.past.packets, desk.memory.streams, a.trimmed, now);
    }
    RequestedKeeps(active, desk.memory.past.packets, a.trimmed, after.memory.streams, StreamOf(id), now, a.due, a.seen);
  }

  /** An arrival files no group, so the order still covers those that wait. */
  lemma ArrivedKeepsGroups(before: Desk, after: Desk, id: PacketId, data: seq<byte>, remote: Address, now: int,
                           trims: bool, a: Arrival, order: seq<GroupId>, head: nat)
    requires Arrived(before, after, id, data, remote, now, trims, a) && GroupsOk(before.groups, order, head)
    ensures GroupsOk(after.groups, order, head)
  {
    RetriesTouchOnlyTheirs(EnteredDesk(before, id, data, a), a.order, remote);
    FewerGroups(after.groups, before.groups, order, head);
  }

  lemma ArrivedKeepsHonest(active: Option<set<string>>, sender: Sender, before: Desk, after: Desk, id: PacketId,
                           data: seq<byte>, remote: Address, now: int, trims: bool, a: Arrival)
    requires Good(active, before) && StreamsOk(before.memory.streams) && now > 0 && Active(active, id.remote)
    requires Arrived(before, after, id, data, remote, now, trims, a)
    requires Honest(sender, before) && data == sender(id)
    ensures Honest(sender, after)
  {
    EnteredKeepsGood(active, before, id, data, now, a);
    StoringKeepsHonest(sender, before.memory.past, id, data);
    RetriesKeepHonest(active, sender, EnteredDesk(before, id, data, a), a.order, remote);
  }

  // ---- A parity datagram arrives ----

  /** The numbers a group lacks become missing; those already missing keep their request time. */
  ghost predicate Named(before: map<uint16, int>, after: map<uint16, int>, numbers: seq<uint16>) {
    && (forall m :: m in after <==> m in before || m in numbers)
    && (forall m :: m in after ==> after[m] == if m in before then before[m] else 0)
  }

  /** The loop of consumeParity over the numbers a group lacks. */
  method NameMissing(before: map<uint16, int>, numbers: seq<uint16>) returns (after: map<uint16, int>)
    ensures Named(before, after, numbers)
  {
    after := before;
    for i := 0 to |numbers|
      invariant Named(before, after, numbers[..i])
    {
      assert numbers[..i + 1] == numbers[..i] + [numbers[i]];
      if numbers[i] !in after {
        after := after[numbers[i] := 0];
      }
    }
    assert numbers[..|numbers|] == numbers;
  }

  lemma {:induction false} MissingAreNotHeld(packets: Packets, entries: seq<Entry>, sid: StreamId, m: uint16)
    requires forall k :: 0 <= k < |entries| ==> StreamOf(entries[k].id) == sid
    requires m in MissingNumbers(packets, entries)
    ensures PacketOf(sid, m) !in packets
  {
    var n := |entries| - 1;
    if m in MissingNumbers(packets, entries[..n]) {
      MissingAreNotHeld(packets, entries[..n], sid, m);
    } else {
      assert PacketOf(sid, m) == entries[n].id;
    }
  }

  /** Streams once a parity datagram has enabled repairs for its stream. */
  ghost predicate Enabled(before: Streams, id: StreamId, now: int, begun: Streams, after: Streams) {
    && Opened(before, begun, id, now)
    && id in begun
    && after == begun[id := begun[id].(enabled := true, lastTouched := now)]
  }

  lemma EnabledKeepsStreams(
    active: Option<set<string>>, before: Streams, id: StreamId, now: int, begun: Streams, after: Streams)
    requires Enabled(before, id, now, begun, after) && now > 0 && Active(active, id.remote)
    requires StreamsOk(before) && StreamsActive(active, before)
    ensures StreamsOk(after) && StreamsActive(active, after)
  {
    OpenedKeepsStreams(active, before, begun, id, now);
    ReplacedKeepsStreams(active, begun, id, after[id]);
  }

  lemma EnabledKeepsDisjoint(packets: Packets, before: Streams, id: StreamId, now: int, begun: Streams, after: Streams)
    requires Enabled(before, id, now, begun, after) && |before| <= STREAM_LIMIT && AllDisjoint(packets, before)
    ensures AllDisjoint(packets, after)
  {
    OpenedKeepsDisjoint(packets, before, begun, id, now);
    assert Disjoint(packets, id, begun[id].missing);
    ReplacedKeepsDisjoint(packets, begun, id, after[id]);
  }

  lemma NamedKeeps(active: Option<set<string>>, packets: Packets, streams: Streams, id: StreamId, group: Group,
                   missing: map<uint16, int>)
    requires id in streams && StreamsOk(streams) && StreamsActive(active, streams) && AllDisjoint(packets, streams)
    requires Listed(group.entries, id.remote, id.ssrc)
    requires Named(streams[id].missing, missing, MissingNumbers(packets, group.entries))
    ensures var after := streams[id := streams[id].(missing := missing)];
            StreamsOk(after) && StreamsActive(active, after) && AllDisjoint(packets, after)
  {
    var s := streams[id].(missing := missing);
    assert Disjoint(packets, id, streams[id].missing);
    forall m | m in missing ensures PacketOf(id, m) !in packets {
      if m !in streams[id].missing {
        MissingAreNotHeld(packets, group.entries, id, m);
      }
    }
    ReplacedKeepsStreams(active, streams, id, s);
    ReplacedKeepsDisjoint(packets, streams, id, s);
  }

  /** The choices one call of consumeParity makes, and the streams after each of its steps. */
  datatype ParityArrival = ParityArrival(
    begun: Streams,
    enabled: Streams,
    named: Streams,
    due: seq<uint16>,
    seen: set<uint16>)

  function StreamOfGroup(id: GroupId): StreamId {
    StreamId(id.remote, id.ssrc)
  }

  /**
   * consumeParity, once it is not refused: with at most one packet missing the group is used at
   * once; with more, it is filed (`queue` is the order of the groups waiting before it) and the
   * missing packets are asked for.
   */
  ghost predicate ParityTaken(before: Desk, after: Desk, queue: seq<GroupId>, id: GroupId, group: Group, now: int,
                              a: ParityArrival) {
    var sid, packets := StreamOfGroup(id), before.memory.past.packets;
    && Enabled(before.memory.streams, sid, now, a.begun, a.enabled)
    && if |MissingNumbers(packets, group.entries)| <= 1 then
         after == before.(memory := AfterRecovery(Memory(before.memory.past, a.enabled), group)) && a.due == []
       else
         && sid in a.named
         && a.named == a.enabled[sid := a.enabled[sid].(missing := a.named[sid].missing)]
         && Named(a.enabled[sid].missing, a.named[sid].missing, MissingNumbers(packets, group.entries))
         && Requested(a.named, after.memory.streams, sid, now, a.due, a.seen)
         && after == Desk(Memory(before.memory.past, after.memory.streams),
                          GroupsAfter(before.groups, queue, id, group), before.ready)
  }

  lemma GroupsAfterShape(groups: Groups, queue: seq<GroupId>, id: GroupId, group: Group)
    ensures forall k :: k in GroupsAfter(groups, queue, id, group) ==>
              GroupsAfter(groups, queue, id, group)[k] == (if k == id then group
                else groups[k]) && (k == id || k in groups)
  {
  }

  lemma AfterRecoveryKeepsStreamsOk(m: Memory, group: Group)
    requires StreamsOk(m.streams)
    ensures StreamsOk(AfterRecovery(m, group).streams)
  {
    if Covered(group) && Recoverable(m.past.packets, group) {
      var lost := Lost(m.past.packets, group).id;
      var after := Unmissed(m.streams, lost);
      SmallerStreams(after, m.streams);
      forall k | k in after ensures after[k].lastTouched > 0 {
        UnmissedStrikes(m.streams, lost, k);
      }
    }
  }

  lemma NamedAndRequestedKeep(active: Option<set<string>>, packets: Packets, after: Streams, sid: StreamId,
      group: Group,
                              now: int, a: ParityArrival)
    requires sid in a.enabled && StreamsOk(a.enabled) && StreamsActive(active, a.enabled)
             && AllDisjoint(packets, a.enabled)
    requires Listed(group.entries, sid.remote, sid.ssrc)
    requires sid in a.named && a.named == a.enabled[sid := a.enabled[sid].(missing := a.named[sid].missing)]
    requires Named(a.enabled[sid].missing, a.named[sid].missing, MissingNumbers(packets, group.entries))
    requires Requested(a.named, after, sid, now, a.due, a.seen)
    ensures StreamsOk(after) && StreamsActive(active, after) && AllDisjoint(packets, after)
    ensures forall i :: 0 <= i < |a.due| ==> PacketOf(sid, a.due[i]) !in packets
  {
    NamedKeeps(active, packets, a.enabled, sid, group, a.named[sid].missing);
    RequestedKeeps(active, packets, a.named, after, sid, now, a.due, a.seen);
  }

  lemma ParityKeepsGood(active: Option<set<string>>, before: Desk, after: Desk, queue: seq<GroupId>, id: GroupId,
                        group: Group, now: int, a: ParityArrival)
    requires Good(active, before) && StreamsOk(before.memory.streams) && now > 0 && Active(active, id.remote)
    requires FiledUnder(id, group) && ParityTaken(before, after, queue, id, group, now, a)
    ensures Good(active, after) && StreamsOk(after.memory.streams)
    ensures forall i :: 0 <= i < |a.due| ==> PacketOf(StreamOfGroup(id), a.due[i]) !in after.memory.past.packets
  {
    var sid, packets := StreamOfGroup(id), before.memory.past.packets;
    EnabledKeepsStreams(active, before.memory.streams, sid, now, a.begun, a.enabled);
    EnabledKeepsDisjoint(packets, before.memory.streams, sid, now, a.begun, a.enabled);
    if |MissingNumbers(packets, group.entries)| <= 1 {
      var m := Memory(before.memory.past, a.enabled);
      RecoveryKeepsConsistent(m, group);
      RecoveryKeepsActive(active, m, id, group);
      AfterRecoveryKeepsStreamsOk(m, group);
    } else {
      NamedAndRequestedKeep(active, packets, after.memory.streams, sid, group, now, a);
      GroupsAfterShape(before.groups, queue, id, group);
    }
  }

  lemma ParityKeepsHonest(sender: Sender, before: Desk, after: Desk, queue: seq<GroupId>, id: GroupId,
                          group: Group, now: int, a: ParityArrival)
    requires Consistent(before.memory) && |before.memory.streams| <= STREAM_LIMIT
    requires ParityTaken(before, after, queue, id, group, now, a)
    requires Honest(sender, before) && HonestGroup(sender, group)
    ensures Honest(sender, after)
    ensures Recovered(before.memory.past.packets, group).Some? ==>
              FromSender(sender, Recovered(before.memory.past.packets, group).value)
  {
    var packets := before.memory.past.packets;
    EnabledKeepsDisjoint(packets, before.memory.streams, StreamOfGroup(id), now, a.begun, a.enabled);
    RecoveryKeepsHonest(sender, Memory(before.memory.past, a.enabled), group);
    if |MissingNumbers(packets, group.entries)| > 1 {
      GroupsAfterShape(before.groups, queue, id, group);
    }
  }
}
