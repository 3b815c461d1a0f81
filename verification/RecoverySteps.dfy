/**
 * What the recovery layer remembers, as values: the packet history, the streams with their
 * missing numbers, the parity groups that wait for packets and the rebuilt datagrams that wait
 * to be read. The steps that rebuild packets are functions here, with the three invariants
 * every step keeps: nothing held is missing, every identity is active, and every packet is
 * the sender's own.
 */
module RecoverySteps {
  import opened Basics
  import opened Bytes
  import opened Identities
  import opened RecoveryWire
  import opened Parity
  import opened GapTracking
  import opened RecoveryHistory

  type Streams = map<StreamId, Stream>
  type Groups = map<GroupId, Group>

  /** A rebuilt datagram. The program keeps only the identity in `id`; the rest of it says which packet this is. */
  datatype Datagram = Datagram(data: seq<byte>, addr: Address, id: PacketId)

  datatype Memory = Memory(past: History, streams: Streams)

  /** Memory, the outstanding groups, and the rebuilt datagrams of one socket. */
  datatype Desk = Desk(memory: Memory, groups: Groups, ready: seq<Datagram>)

  // ---- Steps ----

  /** `id` is no longer missing from its stream, if the stream is still known. */
  function Unmissed(streams: Streams, id: PacketId): Streams {
    if StreamOf(id) !in streams then streams
    else
      var s := streams[StreamOf(id)];
      streams[StreamOf(id) := s.(missing := s.missing - {id.sequence})]
  }

  /** recoverGroupLocked: the datagram a group gives back. */
  ghost function Recovered(packets: Packets, group: Group): Option<Datagram> {
    if Covered(group) && Recoverable(packets, group)
    then Some(Datagram(Rebuilt(packets, group), group.remote, Lost(packets, group).id))
    else None
  }

  /** recoverGroupLocked: a rebuilt packet goes into the history and is no longer missing. */
  ghost function AfterRecovery(m: Memory, group: Group): Memory {
    if Covered(group) && Recoverable(m.past.packets, group) then
      var lost := Lost(m.past.packets, group).id;
      Memory(Stored(m.past, lost, Rebuilt(m.past.packets, group)), Unmissed(m.streams, lost))
    else m
  }

  predicate Contains(group: Group, id: PacketId) {
    exists k :: 0 <= k < |group.entries| && group.entries[k].id == id
  }

  /** One turn of recoverPendingLocked: a group with at most one missing packet is done with. */
  ghost function Retried(d: Desk, id: GroupId, remote: Address): Desk {
    if id !in d.groups then d
    else
      var packets, group := d.memory.past.packets, d.groups[id];
      var datagram := Recovered(packets, group);
      Desk(
        AfterRecovery(d.memory, group),
        if |MissingNumbers(packets, group.entries)| <= 1 then d.groups - {id} else d.groups,
        if datagram.Some? then d.ready + [datagram.value.(addr := remote)] else d.ready)
  }

  /** All turns, in the order in which the map was iterated. */
  ghost function RetriedAll(d: Desk, order: seq<GroupId>, remote: Address): Desk {
    if order == [] then d
    else Retried(RetriedAll(d, order[..|order| - 1], remote), order[|order| - 1], remote)
  }

  // ---- Nothing held is missing ----

  /** A group as it is filed: its packets belong to the stream of its id, and fit its parity. */
  ghost predicate FiledUnder(id: GroupId, group: Group) {
    Listed(group.entries, id.remote, id.ssrc) && Covered(group)
  }

  ghost predicate Filed(groups: Groups) {
    forall id :: id in groups ==> FiledUnder(id, groups[id])
  }

  ghost predicate Consistent(m: Memory) {
    Exact(m.past) && AllDisjoint(m.past.packets, m.streams)
  }

  /** Storing a packet and striking it from the missing ones keeps the two apart. */
  lemma StoringKeepsConsistent(m: Memory, id: PacketId, data: seq<byte>)
    requires Consistent(m)
    ensures Consistent(Memory(Stored(m.past, id, data), Unmissed(m.streams, id)))
  {
    StoredExact(m.past, id, data);
    StoredHolds(m.past, id, data);
    var packets, streams := Stored(m.past, id, data).packets, Unmissed(m.streams, id);
    forall sid | sid in streams ensures Disjoint(packets, sid, streams[sid].missing) {
      assert Disjoint(m.past.packets, sid, m.streams[sid].missing);
      forall n | n in streams[sid].missing ensures PacketOf(sid, n) !in packets {
        assert n in m.streams[sid].missing;
        assert PacketOf(sid, n) == id ==> sid == StreamOf(id) && n == id.sequence;
      }
    }
  }

  lemma RecoveryKeepsConsistent(m: Memory, group: Group)
    requires Consistent(m)
    ensures Consistent(AfterRecovery(m, group))
  {
    if Covered(group) && Recoverable(m.past.packets, group) {
      StoringKeepsConsistent(m, Lost(m.past.packets, group).id, Rebuilt(m.past.packets, group));
    }
  }

  // ---- Every identity is active ----

  ghost predicate PacketsActive(active: Option<set<string>>, packets: Packets) {
    forall id :: id in packets ==> Active(active, id.remote)
  }

  ghost predicate StreamsActive(active: Option<set<string>>, streams: Streams) {
    forall id :: id in streams ==> Active(active, id.remote)
  }

  ghost predicate GroupsActive(active: Option<set<string>>, groups: Groups) {
    forall id :: id in groups ==> Active(active, id.remote)
  }

  ghost predicate ReadyActive(active: Option<set<string>>, ready: seq<Datagram>) {
    forall i :: 0 <= i < |ready| ==> Active(active, ready[i].id.remote)
  }

  lemma StoringKeepsActive(active: Option<set<string>>, h: History, id: PacketId, data: seq<byte>)
    requires Exact(h) && PacketsActive(active, h.packets) && Active(active, id.remote)
    ensures PacketsActive(active, Stored(h, id, data).packets)
  {
    StoredHolds(h, id, data);
  }

  lemma RecoveryKeepsActive(active: Option<set<string>>, m: Memory, id: GroupId, group: Group)
    requires Consistent(m) && FiledUnder(id, group) && Active(active, id.remote)
    requires PacketsActive(active, m.past.packets) && StreamsActive(active, m.streams)
    ensures PacketsActive(active, AfterRecovery(m, group).past.packets)
    ensures StreamsActive(active, AfterRecovery(m, group).streams)
    ensures Recovered(m.past.packets, group).Some? ==>
              Recovered(m.past.packets, group).value.id.remote == id.remote
  {
    if Recoverable(m.past.packets, group) {
      StoringKeepsActive(active, m.past, Lost(m.past.packets, group).id, Rebuilt(m.past.packets, group));
    }
  }

  // ---- Every packet is the sender's own ----

  ghost predicate HonestGroups(sender: Sender, groups: Groups) {
    forall id :: id in groups ==> HonestGroup(sender, groups[id])
  }

  /** A datagram holds the very octets the sender has under its identity, SSRC and number. */
  ghost predicate FromSender(sender: Sender, d: Datagram) {
    d.data == sender(d.id)
  }

  ghost predicate HonestReady(sender: Sender, ready: seq<Datagram>) {
    forall i :: 0 <= i < |ready| ==> FromSender(sender, ready[i])
  }

  lemma StoringKeepsHonest(sender: Sender, h: History, id: PacketId, data: seq<byte>)
    requires Exact(h) && HonestPackets(sender, h.packets) && data == sender(id)
    ensures HonestPackets(sender, Stored(h, id, data).packets)
  {
    StoredHolds(h, id, data);
  }

  lemma RecoveryKeepsHonest(sender: Sender, m: Memory, group: Group)
    requires Consistent(m) && HonestPackets(sender, m.past.packets) && HonestGroup(sender, group)
    ensures HonestPackets(sender, AfterRecovery(m, group).past.packets)
    ensures Recovered(m.past.packets, group).Some? ==>
              FromSender(sender, Recovered(m.past.packets, group).value)
  {
    if Covered(group) && Recoverable(m.past.packets, group) {
      RebuiltIsSent(sender, m.past.packets, group);
      var lost := Lost(m.past.packets, group).id;
      StoringKeepsHonest(sender, m.past, lost, Rebuilt(m.past.packets, group));
    }
  }

  // ---- The three together, over whole passes ----

  ghost predicate Good(active: Option<set<string>>, d: Desk) {
    && Consistent(d.memory)
    && Filed(d.groups)
    && PacketsActive(active, d.memory.past.packets)
    && StreamsActive(active, d.memory.streams)
    && GroupsActive(active, d.groups)
    && ReadyActive(active, d.ready)
  }

  ghost predicate Honest(sender: Sender, d: Desk) {
    && HonestPackets(sender, d.memory.past.packets)
    && HonestGroups(sender, d.groups)
    && HonestReady(sender, d.ready)
  }

  lemma RetryKeepsGood(active: Option<set<string>>, d: Desk, id: GroupId, remote: Address)
    requires Good(active, d)
    ensures Good(active, Retried(d, id, remote))
  {
    if id in d.groups {
      assert FiledUnder(id, d.groups[id]);
      RecoveryKeepsConsistent(d.memory, d.groups[id]);
      RecoveryKeepsActive(active, d.memory, id, d.groups[id]);
    }
  }

  lemma RetryKeepsHonest(sender: Sender, d: Desk, id: GroupId, remote: Address)
    requires Consistent(d.memory) && Honest(sender, d)
    ensures Honest(sender, Retried(d, id, remote))
  {
    if id in d.groups {
      RecoveryKeepsHonest(sender, d.memory, d.groups[id]);
    }
  }

  lemma {:induction false} RetriesKeepGood(active: Option<set<string>>, d: Desk, order: seq<GroupId>, remote: Address)
    requires Good(active, d)
    ensures Good(active, RetriedAll(d, order, remote))
  {
    if order != [] {
      var n := |order| - 1;
      RetriesKeepGood(active, d, order[..n], remote);
      RetryKeepsGood(active, RetriedAll(d, order[..n], remote), order[n], remote);
    }
  }

  lemma {:induction false} RetriesKeepHonest(
    active: Option<set<string>>, sender: Sender, d: Desk, order: seq<GroupId>, remote: Address)
    requires Good(active, d) && Honest(sender, d)
    ensures Honest(sender, RetriedAll(d, order, remote))
  {
    if order != [] {
      var n := |order| - 1;
      RetriesKeepGood(active, d, order[..n], remote);
      RetriesKeepHonest(active, sender, d, order[..n], remote);
      RetryKeepsHonest(sender, RetriedAll(d, order[..n], remote), order[n], remote);
    }
  }

  /** A pass touches no group outside its order, adds none, and forgets no stream. */
  lemma {:induction false} RetriesTouchOnlyTheirs(d: Desk, order: seq<GroupId>, remote: Address)
    ensures var r := RetriedAll(d, order, remote);
            && (forall id :: id in r.groups ==> id in d.groups && r.groups[id] == d.groups[id])
            && (forall id :: id in d.groups && id !in order ==> id in r.groups)
            && r.memory.streams.Keys == d.memory.streams.Keys
            && d.ready <= r.ready
  {
    if order != [] {
      var n := |order| - 1;
      RetriesTouchOnlyTheirs(d, order[..n], remote);
      assert forall id :: id in order <==> id in order[..n] || id == order[n];
    }
  }

  /** `next` is `s` with some numbers struck from its missing ones. */
  ghost predicate Struck(s: Stream, next: Stream) {
    next == s.(missing := next.missing) && next.missing.Keys <= s.missing.Keys
  }

  lemma UnmissedStrikes(streams: Streams, id: PacketId, sid: StreamId)
    requires sid in streams
    ensures sid in Unmissed(streams, id) && Struck(streams[sid], Unmissed(streams, id)[sid])
  {
  }

  /** Rebuilding packets leaves every stream as it was but for the numbers struck out. */
  lemma {:induction false} RetriesStrike(d: Desk, order: seq<GroupId>, remote: Address, sid: StreamId)
    requires sid in d.memory.streams
    ensures sid in RetriedAll(d, order, remote).memory.streams
    ensures Struck(d.memory.streams[sid], RetriedAll(d, order, remote).memory.streams[sid])
  {
    if order != [] {
      var n := |order| - 1;
      var before := RetriedAll(d, order[..n], remote);
      RetriesStrike(d, order[..n], remote, sid);
      if order[n] in before.groups {
        var packets, group := before.memory.past.packets, before.groups[order[n]];
        if Covered(group) && Recoverable(packets, group) {
          UnmissedStrikes(before.memory.streams, Lost(packets, group).id, sid);
        }
      }
    }
  }
}
