/**
 * The recovery layer between the sockets and the ICE stack (internal/ingest/recovery.go and
 * recovery_mux.go). One state is shared by every socket; each method is one critical section.
 * The work limiter is an arbitrary answer (`allowed`), the clock is a parameter, and Go's map
 * iteration is an arbitrary choice.
 */
module Recovery {
  import opened Basics
  import opened Bytes
  import opened Identities
  import opened RecoveryWire
  import opened Parity
  import opened GapTracking
  import opened RecoveryHistory
  import opened RecoverySteps
  import opened RecoveryShelf
  import opened RecoveryTables
  import opened RecoveryArrivals
  import opened Revocation

  /** identityLocked; `local` is the address of the socket. */
  function IdentityOf(conn: Conn, local: Address, remote: Address): Identity {
    if remote in conn.identities && conn.identities[remote] != "" then Ice(conn.identities[remote])
    else Identity(local + "|" + remote)
  }

  lemma AcceptedIsFiled(data: seq<byte>, identity: Identity, remote: Address)
    requires Accepts(data)
    ensures FiledUnder(GroupIdIn(data, identity), GroupIn(data, identity, remote))
  {
    AcceptedIsListed(data, identity, remote);
    ItemsOfListing(ItemsIn(data), identity, SsrcIn(data));
    ListedIsCovered(GroupIn(data, identity, remote));
  }

  /** A parity datagram, if it is one, is honest about the peer it will be filed under. */
  ghost predicate HonestParity(sender: Sender, conn: Conn, data: seq<byte>, local: Address, remote: Address) {
    Accepts(data) ==> HonestGroup(sender, GroupIn(data, IdentityOf(conn, local, remote), remote))
  }

  lemma RecoveredIdentity(packets: Packets, id: GroupId, group: Group)
    requires FiledUnder(id, group)
    ensures Recovered(packets, group).Some? ==> Recovered(packets, group).value.id.remote == id.remote
  {
  }

  class State {
    var active: Option<set<string>>
    var conns: seq<Conn>
    var packets: Packets
    var packetOrder: seq<PacketId>
    var packetHead: nat
    var streams: Streams
    var groups: Groups
    var groupOrder: seq<GroupId>
    var groupHead: nat
    var packetsSince: nat

    ghost function Past(): History
      requires packetHead <= |packetOrder|
      reads this`packets, this`packetOrder, this`packetHead
    {
      History(packets, packetOrder[packetHead..])
    }

    /** The tables, with no socket. */
    ghost function Tables(): Desk
      requires packetHead <= |packetOrder|
      reads this`packets, this`packetOrder, this`packetHead, this`streams, this`groups
    {
      Desk(Memory(Past(), streams), groups, [])
    }

    /** The tables as seen from socket `c`. */
    ghost function At(c: nat): Desk
      requires packetHead <= |packetOrder| && c < |conns|
      reads this`packets, this`packetOrder, this`packetHead, this`streams, this`groups, this`conns
    {
      Desk(Memory(Past(), streams), groups, conns[c].ready)
    }

    /** What holds whenever the lock is free. */
    ghost predicate Valid()
      reads this
    {
      && HistoryOk(packets, packetOrder, packetHead)
      && GroupsOk(groups, groupOrder, groupHead)
      && StreamsOk(streams)
      && Good(active, Tables())
      && ConnsOk(active, conns)
    }

    /** Everything held, waiting or rebuilt is what `sender` sent. */
    ghost predicate Faithful(sender: Sender)
      requires packetHead <= |packetOrder|
      reads this
    {
      Honest(sender, Tables()) && HonestConns(sender, conns)
    }

    /** newRecoveryState, with a mux attached before any socket or without one. */
    constructor (mux: bool)
      ensures Valid() && active == (if mux then Some({}) else None)
      ensures conns == [] && packets == map[] && streams == map[] && groups == map[]
      ensures forall sender :: Faithful(sender)
    {
      active := if mux then Some({}) else None;
      conns := [];
      packets, packetOrder, packetHead := map[], [], 0;
      streams := map[];
      groups, groupOrder, groupHead := map[], [], 0;
      packetsSince := 0;
    }

    // ---- Bounded stores ----

    /** storePacketLocked */
    method StorePacket(id: PacketId, data: seq<byte>)
      requires HistoryOk(packets, packetOrder, packetHead)
      modifies this`packets, this`packetOrder, this`packetHead
      ensures HistoryOk(packets, packetOrder, packetHead)
      ensures Past() == Stored(old(Past()), id, data)
    {
      if id in packets {
        return;
      }
      ghost var before := Past();
      StoredExact(before, id, data);
      LiveAppend(packetOrder, packetHead, id);
      packetOrder := packetOrder + [id];
      packets, packetHead := Shed(packets[id := data], packetOrder, packetHead, before, id, data);
      if packetHead >= HISTORY_SIZE {
        LiveWhole(packetOrder[packetHead..]);
        packetOrder := packetOrder[packetHead..];
        packetHead := 0;
      }
    }

    /** storeGroupLocked */
    method StoreGroup(id: GroupId, group: Group)
      requires GroupsOk(groups, groupOrder, groupHead)
      modifies this`groups, this`groupOrder, this`groupHead
      ensures GroupsOk(groups, groupOrder, groupHead)
      ensures groups == GroupsAfter(old(groups), Tidied(old(groupOrder), old(groupHead), old(groups).Keys), id, group)
      ensures Shelf(groups, groupOrder, groupHead) == Shelved(old(Shelf(groups, groupOrder, groupHead)), id, group)
    {
      ShelvedMeans(Shelf(groups, groupOrder, groupHead), id, group);
      groups, groupOrder, groupHead := Shelve(groups, groupOrder, groupHead, id, group);
    }

    /** streamLocked */
    method OpenStream(id: StreamId, now: int)
      requires StreamsOk(streams)
      modifies this`streams
      ensures Opened(old(streams), streams, id, now)
    {
      if id !in streams {
        if |streams| >= STREAM_LIMIT {
          var victim := OldestStream(streams);
          streams := streams - {victim};
        }
        streams := streams[id := NewStream(now)];
      }
    }

    // ---- Rebuilding ----

    /** recoverGroupLocked */
    method RecoverGroup(group: Group) returns (datagram: Option<Datagram>, missing: seq<uint16>)
      requires HistoryOk(packets, packetOrder, packetHead) && Covered(group)
      modifies this`packets, this`packetOrder, this`packetHead, this`streams
      ensures HistoryOk(packets, packetOrder, packetHead)
      ensures missing == MissingNumbers(old(packets), group.entries)
      ensures datagram == Recovered(old(packets), group)
      ensures Memory(Past(), streams) == AfterRecovery(Memory(old(Past()), old(streams)), group)
    {
      missing := FindMissing(packets, group.entries);
      if |missing| != 1 {
        return None, missing;
      }
      var decoded := Decode(packets, group);
      if decoded.None? {
        return None, missing;
      }
      var wanted, data := decoded.value.0, decoded.value.1;
      StorePacket(wanted.id, data);
      streams := Unmissed(streams, wanted.id);
      datagram := Some(Datagram(data, group.remote, wanted.id));
    }

    /** One turn of recoverPendingLocked, for a group that lists the packet that arrived. */
    method RetryGroup(c: nat, id: GroupId, remote: Address)
      requires c < |conns| && id in groups && Covered(groups[id])
      requires HistoryOk(packets, packetOrder, packetHead)
      modifies this`packets, this`packetOrder, this`packetHead, this`streams, this`groups, this`conns
      ensures HistoryOk(packets, packetOrder, packetHead)
      ensures |conns| == |old(conns)| && conns == old(conns)[c := old(conns)[c].(ready := conns[c].ready)]
      ensures At(c) == Retried(old(At(c)), id, remote)
    {
      var datagram, missing := RecoverGroup(groups[id]);
      if |missing| <= 1 {
        groups := groups - {id};
      }
      if |missing| == 1 && datagram.Some? {
        conns := conns[c := conns[c].(ready := conns[c].ready + [datagram.value.(addr := remote)])];
      }
    }

    /** recoverPendingLocked: every waiting group that lists `arrived` is tried once, in some order. */
    method RecoverPending(c: nat, arrived: PacketId, remote: Address) returns (ghost order: seq<GroupId>)
      requires c < |conns| && Filed(groups) && HistoryOk(packets, packetOrder, packetHead)
      modifies this`packets, this`packetOrder, this`packetHead, this`streams, this`groups, this`conns
      ensures HistoryOk(packets, packetOrder, packetHead)
      ensures |conns| == |old(conns)| && conns == old(conns)[c := old(conns)[c].(ready := conns[c].ready)]
      ensures Awaiting(old(groups), order, arrived)
      ensures At(c) == RetriedAll(old(At(c)), order, remote)
    {
      order := [];
      var todo := groups.Keys;
      while todo != {}
        invariant HistoryOk(packets, packetOrder, packetHead)
        invariant |conns| == |old(conns)| && conns == old(conns)[c := old(conns)[c].(ready := conns[c].ready)]
        invariant At(c) == RetriedAll(old(At(c)), order, remote)
        invariant AwaitingBut(old(groups), order, arrived, todo)
        invariant todo <= old(groups).Keys
      {
        var id :| id in todo;
        RetriesTouchOnlyTheirs(old(At(c)), order, remote);
        assert id in groups && groups[id] == old(groups)[id];
        AwaitingStep(old(groups), order, arrived, todo, id);
        todo := todo - {id};
        if Contains(groups[id], arrived) {
          assert (order + [id])[..|order|] == order;
          RetryGroup(c, id, remote);
          order := order + [id];
        }
      }
    }

    // ---- A packet arrives ----

    /** The part of remember that stores the packet, touches its stream and tracks the gap. */
    method Enter(id: PacketId, data: seq<byte>, now: int) returns (ghost begun: Streams)
      requires HistoryOk(packets, packetOrder, packetHead) && StreamsOk(streams)
      modifies this`packets, this`packetOrder, this`packetHead, this`streams
      ensures HistoryOk(packets, packetOrder, packetHead)
      ensures Past() == Stored(old(Past()), id, data)
      ensures Entered(old(streams), packets, id, now, begun, streams)
    {
      StorePacket(id, data);
      var sid := StreamOf(id);
      OpenStream(sid, now);
      begun := streams;
      OpenedShape(old(streams), begun, sid, now);
      var tracked := TrackGap(packets, id, Touched(streams[sid], id.sequence, now));
      streams := streams[sid := tracked];
    }

    /** The end of remember and consumeParity: an enabled stream asks for what is due. */
    method RequestRepairs(id: StreamId, now: int)
      returns (request: seq<byte>, ghost due: seq<uint16>, ghost seen: set<uint16>)
      requires id in streams
      modifies this`streams
      ensures Requested(old(streams), streams, id, now, due, seen)
      ensures AsksFor(request, id.ssrc, due)
    {
      seen := {};
      if !streams[id].enabled {
        request, due := [], [];
      } else {
        var next, numbers;
        next, numbers, seen := DueRepairs(streams[id], now);
        due := numbers;
        streams := streams[id := next];
        request := MakeRequest(id.ssrc, numbers);
      }
    }

    /** Every 4096 packets, idle streams are dropped; never the one just touched. */
    method TrimSometimes(now: int)
      modifies this`packetsSince, this`streams
      ensures packetsSince == old(packetsSince) + 1
      ensures if packetsSince % HISTORY_SIZE == 0 then Trimmed(old(streams), streams, now) else streams == old(streams)
    {
      packetsSince := packetsSince + 1;
      if packetsSince % HISTORY_SIZE == 0 {
        streams := TrimIdle(streams, now);
      }
    }

    /** Waiting groups are retried, and idle streams dropped when it is time. */
    method Settle(c: nat, id: PacketId, remote: Address, now: int) returns (ghost order: seq<GroupId>)
      requires c < |conns| && Filed(groups) && HistoryOk(packets, packetOrder, packetHead)
      requires StreamOf(id) in streams && streams[StreamOf(id)].lastTouched == now
      modifies this`packets, this`packetOrder, this`packetHead, this`streams, this`groups, this`conns, this`packetsSince
      ensures HistoryOk(packets, packetOrder, packetHead)
      ensures |conns| == |old(conns)| && conns == old(conns)[c := old(conns)[c].(ready := conns[c].ready)]
      ensures Awaiting(old(groups), order, id) && StreamOf(id) in streams
      ensures packetsSince == old(packetsSince) + 1
      ensures var desk := RetriedAll(old(At(c)), order, remote);
              && At(c) == desk.(memory := Memory(desk.memory.past, streams))
              && (if packetsSince % HISTORY_SIZE == 0 then Trimmed(desk.memory.streams, streams, now)
                else streams == desk.memory.streams)
    {
      order := RecoverPending(c, id, remote);
      TrimSometimes(now);
      TouchedStays(old(At(c)), order, remote, StreamOf(id), packetsSince % HISTORY_SIZE == 0, streams, now);
    }

    /** The body of remember once the packet is let in. */
    method Admit(c: nat, id: PacketId, data: seq<byte>, remote: Address, now: int)
      returns (request: seq<byte>, ghost a: Arrival)
      requires c < |conns| && Filed(groups) && HistoryOk(packets, packetOrder, packetHead) && StreamsOk(streams)
      modifies this`packets, this`packetOrder, this`packetHead, this`streams, this`groups, this`conns, this`packetsSince
      ensures HistoryOk(packets, packetOrder, packetHead)
      ensures |conns| == |old(conns)| && conns == old(conns)[c := old(conns)[c].(ready := conns[c].ready)]
      ensures Arrived(old(At(c)), At(c), id, data, remote, now, packetsSince % HISTORY_SIZE == 0, a)
      ensures AsksFor(request, id.ssrc, a.due)
    {
      ghost var begun := Enter(id, data, now);
      ghost var entered := streams;
      EnteredTouches(old(streams), packets, id, now, begun, entered);
      ghost var desk := At(c);
      ghost var order := Settle(c, id, remote, now);
      ghost var trimmed := streams;
      ghost var due, seen;
      request, due, seen := RequestRepairs(StreamOf(id), now);
      a := Arrival(begun, entered, order, trimmed, due, seen);
      assert desk == EnteredDesk(old(At(c)), id, data, a);
    }

    /** remember from storePacketLocked on, for a packet of an active identity. */
    method TakePacket(c: nat, id: PacketId, data: seq<byte>, remote: Address, now: int, ghost sender: Sender)
      returns (request: seq<byte>, ghost a: Arrival)
      requires Valid() && c < |conns| && now > 0 && Active(active, id.remote)
      modifies this`packets, this`packetOrder, this`packetHead, this`streams, this`groups, this`conns, this`packetsSince
      ensures Valid()
      ensures |conns| == |old(conns)| && conns == old(conns)[c := old(conns)[c].(ready := conns[c].ready)]
      ensures Arrived(old(At(c)), At(c), id, data, remote, now, packetsSince % HISTORY_SIZE == 0, a)
      ensures AsksFor(request, id.ssrc, a.due)
      ensures forall i :: 0 <= i < |a.due| ==> PacketOf(StreamOf(id), a.due[i]) !in packets
      ensures old(Faithful(sender)) && data == sender(id) ==> Faithful(sender)
    {
      assert ConnOk(active, conns[c]);
      ghost var before := At(c);
      request, a := Admit(c, id, data, remote, now);
      ghost var after, trims := At(c), packetsSince % HISTORY_SIZE == 0;
      ArrivedKeepsGood(active, before, after, id, data, remote, now, trims, a);
      ArrivedKeepsGroups(before, after, id, data, remote, now, trims, a, groupOrder, groupHead);
      ConnReplaced(active, old(conns), c, conns[c]);
      if old(Faithful(sender)) && data == sender(id) {
        ArrivedKeepsHonest(active, sender, before, after, id, data, remote, now, trims, a);
        ConnReplacedHonest(sender, old(conns), c, conns[c]);
      }
    }

    /** remember */
    method Remember(c: nat, id: PacketId, data: seq<byte>, remote: Address, allowed: bool, now: int,
                         ghost sender: Sender)
      returns (request: seq<byte>, ghost a: Option<Arrival>)
      requires Valid() && c < |conns| && now > 0
      modifies this`packets, this`packetOrder, this`packetHead, this`streams, this`groups, this`conns, this`packetsSince
      ensures Valid()
      ensures a.Some? <==> Active(active, id.remote) && |data| <= MAX_DATAGRAM && allowed
      ensures a.None? ==> unchanged(this) && request == []
      ensures |conns| == |old(conns)| && conns == old(conns)[c := old(conns)[c].(ready := conns[c].ready)]
      ensures a.Some? ==>
                && Arrived(old(At(c)), At(c), id, data, remote, now, packetsSince % HISTORY_SIZE == 0, a.value)
                && AsksFor(request, id.ssrc, a.value.due)
                && (forall i :: 0 <= i < |a.value.due| ==> PacketOf(StreamOf(id), a.value.due[i]) !in packets)
      ensures old(Faithful(sender)) && (a.Some? ==> data == sender(id)) ==> Faithful(sender)
    {
      if !Active(active, id.remote) || !(|data| <= MAX_DATAGRAM && allowed) {
        return [], None;
      }
      ghost var arrival;
      request, arrival := TakePacket(c, id, data, remote, now, sender);
      a := Some(arrival);
    }

    // ---- A parity datagram arrives ----

    /** The part of consumeParity that enables repairs and tries the group at once. */
    method TryGroup(id: GroupId, group: Group, now: int)
      returns (datagram: Option<Datagram>, missing: seq<uint16>, ghost begun: Streams, ghost enabled: Streams)
      requires HistoryOk(packets, packetOrder, packetHead) && StreamsOk(streams) && Covered(group)
      modifies this`packets, this`packetOrder, this`packetHead, this`streams
      ensures HistoryOk(packets, packetOrder, packetHead)
      ensures Enabled(old(streams), StreamOfGroup(id), now, begun, enabled)
      ensures missing == MissingNumbers(old(packets), group.entries)
      ensures datagram == Recovered(old(packets), group)
      ensures Memory(Past(), streams) == AfterRecovery(Memory(old(Past()), enabled), group)
    {
      var sid := StreamOfGroup(id);
      OpenStream(sid, now);
      begun := streams;
      OpenedShape(old(streams), begun, sid, now);
      streams := streams[sid := streams[sid].(enabled := true, lastTouched := now)];
      enabled := streams;
      datagram, missing := RecoverGroup(group);
    }

    /** The part of consumeParity that files a group lacking several packets and asks for them. */
    method FileGroup(id: GroupId, group: Group, missing: seq<uint16>, now: int)
      returns (request: seq<byte>, ghost named: Streams, ghost due: seq<uint16>, ghost seen: set<uint16>)
      requires StreamOfGroup(id) in streams && GroupsOk(groups, groupOrder, groupHead)
      modifies this`streams, this`groups, this`groupOrder, this`groupHead
      ensures GroupsOk(groups, groupOrder, groupHead)
      ensures var sid := StreamOfGroup(id);
              && sid in named && named == old(streams)[sid := old(streams)[sid].(missing := named[sid].missing)]
              && Named(old(streams)[sid].missing, named[sid].missing, missing)
              && Requested(named, streams, sid, now, due, seen)
      ensures groups == GroupsAfter(old(groups), Tidied(old(groupOrder), old(groupHead), old(groups).Keys), id, group)
      ensures AsksFor(request, id.ssrc, due)
    {
      var sid := StreamOfGroup(id);
      var more := NameMissing(streams[sid].missing, missing);
      streams := streams[sid := streams[sid].(missing := more)];
      named := streams;
      StoreGroup(id, group);
      request, due, seen := RequestRepairs(sid, now);
    }

    /** The body of consumeParity once the datagram is let in. */
    method AdmitGroup(id: GroupId, group: Group, now: int)
      returns (datagram: Option<Datagram>, request: seq<byte>, ghost a: ParityArrival)
      requires HistoryOk(packets, packetOrder, packetHead) && GroupsOk(groups, groupOrder, groupHead)
      requires StreamsOk(streams) && Covered(group)
      modifies this`packets, this`packetOrder, this`packetHead, this`streams, this`groups, this`groupOrder,
                this`groupHead
      ensures HistoryOk(packets, packetOrder, packetHead) && GroupsOk(groups, groupOrder, groupHead)
      ensures ParityTaken(old(Tables()), Tables(), Tidied(old(groupOrder), old(groupHead), old(groups).Keys), id,
              group, now, a)
      ensures datagram == Recovered(old(packets), group)
      ensures AsksFor(request, id.ssrc, a.due)
    {
      ghost var begun, enabled;
      var missing;
      datagram, missing, begun, enabled := TryGroup(id, group, now);
      if |missing| <= 1 {
        request := [];
        a := ParityArrival(begun, enabled, enabled, [], {});
      } else {
        ghost var named, due, seen;
        request, named, due, seen := FileGroup(id, group, missing, now);
        a := ParityArrival(begun, enabled, named, due, seen);
      }
    }

    /** The part of consumeParity before the tables are touched: the group, filed under its identity. */
    method ReadGroup(c: nat, data: seq<byte>, local: Address, remote: Address, allowed: bool)
      returns (r: Option<(GroupId, Group)>)
      requires c < |conns|
      ensures var identity := IdentityOf(conns[c], local, remote);
              if |data| <= MAX_DATAGRAM && allowed && Accepts(data) && Active(active, identity)
              then r == Some((GroupIdIn(data, identity), GroupIn(data, identity, remote)))
              else r.None?
    {
      if !(|data| <= MAX_DATAGRAM && allowed) {
        return None;
      }
      var parsed := ParseGroup(data, remote);
      if parsed.None? {
        return None;
      }
      var group, id := parsed.value.0, parsed.value.1;
      var identity := IdentityOf(conns[c], local, remote);
      if !Active(active, identity) {
        return None;
      }
      var entries := Relabel(group.entries, identity);
      RelabelledIsParsed(ItemsIn(data), SsrcIn(data), Identity(remote), identity, entries);
      r := Some((id.(remote := identity), group.(entries := entries)));
    }

    /** The locked part of consumeParity, for a group filed under an active identity. */
    method TakeGroup(id: GroupId, group: Group, now: int, ghost sender: Sender)
      returns (datagram: Option<Datagram>, request: seq<byte>, ghost a: ParityArrival)
      requires Valid() && now > 0 && Active(active, id.remote) && FiledUnder(id, group)
      modifies this`packets, this`packetOrder, this`packetHead, this`streams, this`groups, this`groupOrder,
                this`groupHead
      ensures Valid()
      ensures ParityTaken(old(Tables()), Tables(), Tidied(old(groupOrder), old(groupHead), old(groups).Keys), id,
              group, now, a)
      ensures datagram == Recovered(old(packets), group)
      ensures AsksFor(request, id.ssrc, a.due)
      ensures forall i :: 0 <= i < |a.due| ==> PacketOf(StreamOfGroup(id), a.due[i]) !in packets
      ensures old(Faithful(sender)) && HonestGroup(sender, group) ==>
                Faithful(sender) && (datagram.Some? ==> FromSender(sender, datagram.value))
    {
      ghost var before := Tables();
      ghost var queue := Tidied(groupOrder, groupHead, groups.Keys);
      datagram, request, a := AdmitGroup(id, group, now);
      ParityKeepsGood(active, before, Tables(), queue, id, group, now, a);
      if old(Faithful(sender)) && HonestGroup(sender, group) {
        ParityKeepsHonest(sender, before, Tables(), queue, id, group, now, a);
      }
    }

    /** consumeParity */
    method ConsumeParity(c: nat, data: seq<byte>, local: Address, remote: Address, allowed: bool, now: int,
                         ghost sender: Sender)
      returns (datagram: Option<Datagram>, request: seq<byte>, ghost a: Option<ParityArrival>)
      requires Valid() && c < |conns| && now > 0
      modifies this`packets, this`packetOrder, this`packetHead, this`streams, this`groups, this`groupOrder,
                this`groupHead
      ensures Valid()
      ensures a.Some? <==>
                && |data| <= MAX_DATAGRAM && allowed && Accepts(data)
                && Active(active, IdentityOf(conns[c], local, remote))
      ensures a.None? ==> unchanged(this) && datagram.None? && request == []
      ensures a.Some? ==>
                var identity := IdentityOf(conns[c], local, remote);
                var id, group := GroupIdIn(data, identity), GroupIn(data, identity, remote);
                && ParityTaken(old(Tables()), Tables(), Tidied(old(groupOrder), old(groupHead), old(groups).Keys),
                  id, group, now, a.value)
                && datagram == Recovered(old(packets), group)
                && (datagram.Some? ==> datagram.value.id.remote == identity && datagram.value.addr == remote)
                && AsksFor(request, id.ssrc, a.value.due)
                && (forall i :: 0 <= i < |a.value.due| ==> PacketOf(StreamOfGroup(id), a.value.due[i]) !in packets)
      ensures old(Faithful(sender)) && HonestParity(sender, conns[c], data, local, remote) ==>
                Faithful(sender) && (datagram.Some? ==> FromSender(sender, datagram.value))
    {
      var read := ReadGroup(c, data, local, remote, allowed);
      if read.None? {
        return None, [], None;
      }
      AcceptedIsFiled(data, read.value.0.remote, remote);
      RecoveredIdentity(packets, read.value.0, read.value.1);
      ghost var arrival;
      datagram, request, arrival := TakeGroup(read.value.0, read.value.1, now, sender);
      a := Some(arrival);
    }

    // ---- Sockets ----

    /** ListenUDP: one more socket. */
    method Listen(ghost sender: Sender)
      requires Valid()
      modifies this`conns
      ensures Valid() && conns == old(conns) + [Conn([], map[], map[], map[])]
      ensures old(Faithful(sender)) ==> Faithful(sender)
    {
      conns := conns + [Conn([], map[], map[], map[])];
    }

    /** popReady: the oldest rebuilt datagram. */
    method PopReady(c: nat, ghost sender: Sender) returns (datagram: Option<Datagram>)
      requires Valid() && c < |conns|
      modifies this`conns
      ensures Valid() && |conns| == |old(conns)|
      ensures old(conns)[c].ready == [] ==> datagram.None? && conns == old(conns)
      ensures old(conns)[c].ready != [] ==>
                && datagram == Some(old(conns)[c].ready[0])
                && conns == old(conns)[c := old(conns)[c].(ready := old(conns)[c].ready[1..])]
                && Active(active, datagram.value.id.remote)
      ensures old(Faithful(sender)) ==> Faithful(sender) && (datagram.Some? ==> FromSender(sender, datagram.value))
    {
      assert ConnOk(active, conns[c]);
      var ready := conns[c].ready;
      if |ready| == 0 {
        return None;
      }
      datagram := Some(ready[0]);
      conns := conns[c := conns[c].(ready := ready[1..])];
    }

    /** authenticatedIdentity: only a confirmed binding gives an address its identity. */
    method AuthenticatedIdentity(c: nat, remote: Address) returns (identity: Option<Identity>)
      requires Valid() && c < |conns|
      ensures identity.Some? <==> remote in conns[c].identities && conns[c].identities[remote] != ""
      ensures identity.Some? ==> identity.value == Ice(conns[c].identities[remote]) && Active(active, identity.value)
    {
      assert ConnOk(active, conns[c]);
      if remote in conns[c].identities && conns[c].identities[remote] != "" {
        return Some(Ice(conns[c].identities[remote]));
      }
      return None;
    }

    /** One socket changes; what it has ready does not. */
    method SetConn(c: nat, conn: Conn, ghost sender: Sender)
      requires Valid() && c < |conns| && ConnOk(active, conn) && conn.ready == conns[c].ready
      modifies this`conns
      ensures Valid() && conns == old(conns)[c := conn]
      ensures old(Faithful(sender)) ==> Faithful(sender)
    {
      ConnReplaced(active, conns, c, conn);
      if Faithful(sender) {
        ConnReplacedHonest(sender, conns, c, conn);
      }
      conns := conns[c := conn];
    }

    /** rememberBindingLocked, with the username of a binding request, if it has one. */
    method RememberBinding(c: nat, key: BindingId, username: Option<string>, ghost sender: Sender)
      requires Valid() && c < |conns|
      modifies this`conns
      ensures Valid() && conns == old(conns)[c := Waiting(old(conns)[c], key, username)]
      ensures old(Faithful(sender)) ==> Faithful(sender)
    {
      assert ConnOk(active, conns[c]);
      SetConn(c, Waiting(conns[c], key, username), sender);
    }

    /** confirmBindingLocked, when Pion has answered a binding request. */
    method ConfirmBinding(c: nat, key: BindingId, ghost sender: Sender)
      requires Valid() && c < |conns|
      modifies this`conns
      ensures Valid() && conns == old(conns)[c := Confirmed(active, old(conns)[c], key)]
      ensures old(Faithful(sender)) ==> Faithful(sender)
    {
      ConfirmedOk(active, conns[c], key);
      SetConn(c, Confirmed(active, conns[c], key), sender);
    }

    /** deliveryReceipt, as far as it files a batch: only for a stream that is known and enabled. */
    method FileReceipt(c: nat, id: PacketId, size: nat, remote: Address, ghost sender: Sender) returns (filed: bool)
      requires Valid() && c < |conns|
      modifies this`conns
      ensures Valid()
      ensures filed <==> StreamOf(id) in streams && streams[StreamOf(id)].enabled && size <= MAX_DATAGRAM
      ensures conns == if filed then old(conns)[c := Receipted(old(conns)[c], id.remote, remote)] else old(conns)
      ensures old(Faithful(sender)) ==> Faithful(sender)
    {
      if StreamOf(id) !in streams || !streams[StreamOf(id)].enabled || size > MAX_DATAGRAM {
        return false;
      }
      assert Active(active, StreamOf(id).remote);
      ReceiptedOk(active, conns[c], id.remote, remote);
      SetConn(c, Receipted(conns[c], id.remote, remote), sender);
      filed := true;
    }

    // ---- The mux ----

    /** GetConn, when the mux below has given out a connection. */
    method GetConn(ufrag: string, ghost sender: Sender)
      requires Valid() && active.Some?
      modifies this`active
      ensures Valid() && active == Some(old(active).value + {ufrag})
      ensures old(Faithful(sender)) ==> Faithful(sender)
    {
      MoreActive(active.value, ufrag, Tables(), conns);
      active := Some(active.value + {ufrag});
    }

    /** The loop of RemoveConnByUfrag over the sockets. */
    method RevokeConns(ufrag: string)
      modifies this`conns
      ensures KeptConns(old(conns), conns, ufrag)
    {
      for i := 0 to |conns|
        invariant |conns| == |old(conns)|
        invariant forall k :: 0 <= k < i ==> conns[k] == KeptConn(old(conns)[k], ufrag)
        invariant forall k :: i <= k < |conns| ==> conns[k] == old(conns)[k]
      {
        conns := conns[i := KeptConn(conns[i], ufrag)];
      }
    }

    /** The part of RemoveConnByUfrag after that: the shared tables. */
    method RevokeTables(ufrag: string)
      requires HistoryOk(packets, packetOrder, packetHead) && GroupsOk(groups, groupOrder, groupHead)
               && StreamsOk(streams)
      modifies this`packets, this`packetOrder, this`packetHead, this`streams, this`groups, this`groupOrder,
                this`groupHead
      ensures HistoryOk(packets, packetOrder, packetHead) && GroupsOk(groups, groupOrder, groupHead)
              && StreamsOk(streams)
      ensures Tables() == KeptDesk(old(Tables()), ufrag)
      ensures groupHead == 0 && groupOrder == Kept(old(groupOrder)[old(groupHead)..], GroupOwner, ufrag)
    {
      KeptHistoryOk(packets, packetOrder, packetHead, ufrag);
      KeptGroupsOk(groups, groupOrder, groupHead, ufrag);
      KeptStreamsOk(streams, ufrag);
      packets := KeptPackets(packets, ufrag);
      packetOrder, packetHead := Kept(packetOrder[packetHead..], PacketOwner, ufrag), 0;
      streams := KeptStreams(streams, ufrag);
      groups := KeptGroups(groups, ufrag);
      groupOrder, groupHead := Kept(groupOrder[groupHead..], GroupOwner, ufrag), 0;
    }

    /** All that RemoveConnByUfrag changes. */
    method Revoke(ufrag: string)
      requires active.Some?
      requires HistoryOk(packets, packetOrder, packetHead) && GroupsOk(groups, groupOrder, groupHead)
               && StreamsOk(streams)
      modifies this`active, this`conns, this`packets, this`packetOrder, this`packetHead, this`streams, this`groups,
               this`groupOrder, this`groupHead
      ensures active == Some(old(active).value - {ufrag})
      ensures HistoryOk(packets, packetOrder, packetHead) && GroupsOk(groups, groupOrder, groupHead)
              && StreamsOk(streams)
      ensures Tables() == KeptDesk(old(Tables()), ufrag)
      ensures groupHead == 0 && groupOrder == Kept(old(groupOrder)[old(groupHead)..], GroupOwner, ufrag)
      ensures KeptConns(old(conns), conns, ufrag)
    {
      ghost var before := Tables();
      active := Some(active.value - {ufrag});
      RevokeConns(ufrag);
      assert Tables() == before;
      RevokeTables(ufrag);
    }

    /** RemoveConnByUfrag */
    method RemoveConnByUfrag(ufrag: string, ghost sender: Sender)
      requires Valid() && active.Some?
      modifies this`active, this`conns, this`packets, this`packetOrder, this`packetHead, this`streams, this`groups,
               this`groupOrder, this`groupHead
      ensures Valid() && active == Some(old(active).value - {ufrag})
      ensures Tables() == KeptDesk(old(Tables()), ufrag)
      ensures groupHead == 0 && groupOrder == Kept(old(groupOrder)[old(groupHead)..], GroupOwner, ufrag)
      ensures KeptConns(old(conns), conns, ufrag)
      ensures Absent(ufrag, Tables(), conns)
      ensures old(Faithful(sender)) ==> Faithful(sender)
    {
      ghost var was, before := active.value, Tables();
      Revoke(ufrag);
      RemovalIsComplete(was, before, old(conns), conns, ufrag);
      if old(Faithful(sender)) {
        KeptHonest(sender, before, ufrag);
        KeptConnsHonest(sender, old(conns), conns, ufrag);
      }
    }
  }
}
