/**
 * What RemoveConnByUfrag (internal/ingest/recovery_mux.go) leaves in each table. The tests are
 * on the text in front of an identity; that they hit exactly the identities of the removed
 * ufrag is RevokesExactly.
 */
module Revocation {
  import opened Basics
  import opened Identities
  import opened RecoveryWire
  import opened Parity
  import opened GapTracking
  import opened RecoveryHistory
  import opened RecoverySteps
  import opened RecoveryShelf
  import opened RecoveryTables

  // ---- What is kept ----

  function KeptPackets(packets: Packets, ufrag: string): Packets {
    map id | id in packets && !Revokes(ufrag, id.remote) :: packets[id]
  }

  function KeptStreams(streams: Streams, ufrag: string): Streams {
    map id | id in streams && !Revokes(ufrag, id.remote) :: streams[id]
  }

  function KeptGroups(groups: Groups, ufrag: string): Groups {
    map id | id in groups && !Revokes(ufrag, id.remote) :: groups[id]
  }

  function PacketOwner(id: PacketId): Identity { id.remote }

  function GroupOwner(id: GroupId): Identity { id.remote }

  function DatagramOwner(d: Datagram): Identity { d.id.remote }

  /** What slices.DeleteFunc leaves of `s`: the elements whose owner is not revoked, in order. */
  function Kept<T(!new)>(s: seq<T>, owner: T -> Identity, ufrag: string): (r: seq<T>)
    ensures forall x :: x in r <==> x in s && !Revokes(ufrag, owner(x))
    ensures |r| <= |s|
  {
    if s == [] then []
    else
      var n := |s| - 1;
      var rest := Kept(s[..n], owner, ufrag);
      assert forall x :: x in s <==> x in s[..n] || x == s[n];
      if Revokes(ufrag, owner(s[n])) then rest else rest + [s[n]]
  }

  /** `r` is `s` with some elements left out. */
  ghost predicate Subsequence<T>(r: seq<T>, s: seq<T>) {
    || r == []
    || (s != [] && (|| Subsequence(r, s[..|s| - 1])
                    || (r[|r| - 1] == s[|s| - 1] && Subsequence(r[..|r| - 1], s[..|s| - 1]))))
  }

  /** Revoked elements are left out and nothing else happens: order and multiplicity of the others stay. */
  lemma {:induction false} KeptInOrder<T(!new)>(s: seq<T>, owner: T -> Identity, ufrag: string)
    ensures Subsequence(Kept(s, owner, ufrag), s)
    ensures forall x :: multiset(Kept(s, owner, ufrag))[x] == if Revokes(ufrag, owner(x)) then 0 else multiset(s)[x]
  {
    if s != [] {
      var n := |s| - 1;
      KeptInOrder(s[..n], owner, ufrag);
      assert s == s[..n] + [s[n]];
      assert Kept(s, owner, ufrag) != [] ==> Subsequence(Kept(s, owner, ufrag), s);
    }
  }

  function KeptConn(conn: Conn, ufrag: string): Conn {
    Conn(
      Kept(conn.ready, DatagramOwner, ufrag),
      map b | b in conn.pendingBindings && !RevokesName(ufrag, conn.pendingBindings[b]) :: conn.pendingBindings[b],
      map a | a in conn.identities && !RevokesName(ufrag, conn.identities[a]) :: conn.identities[a],
      map a | a in conn.deliveries && !Revokes(ufrag, conn.deliveries[a]) :: conn.deliveries[a])
  }

  ghost predicate KeptConns(before: seq<Conn>, after: seq<Conn>, ufrag: string) {
    |after| == |before| && forall i :: 0 <= i < |after| ==> after[i] == KeptConn(before[i], ufrag)
  }

  ghost function KeptHistory(h: History, ufrag: string): History {
    History(KeptPackets(h.packets, ufrag), Kept(h.order, PacketOwner, ufrag))
  }

  // ---- The invariants survive ----

  /** What is not revoked stays active when the ufrag is taken out, whatever the ufrag. */
  lemma NotRevokedStaysActive(active: set<string>, ufrag: string, identity: Identity)
    requires Active(Some(active), identity) && !Revokes(ufrag, identity)
    ensures Active(Some(active - {ufrag}), identity)
  {
    if ':' !in ufrag {
      RevokesExactly(ufrag, identity);
    }
  }

  lemma {:induction false} KeptNoRepeats(order: seq<PacketId>, ufrag: string)
    requires NoRepeats(order)
    ensures NoRepeats(Kept(order, PacketOwner, ufrag))
  {
    if order != [] {
      var n := |order| - 1;
      KeptNoRepeats(order[..n], ufrag);
      assert order[n] !in order[..n];
    }
  }

  lemma KeptExact(h: History, ufrag: string)
    requires Exact(h)
    ensures Exact(KeptHistory(h, ufrag)) && Subsequence(KeptHistory(h, ufrag).order, h.order)
  {
    KeptInOrder(h.order, PacketOwner, ufrag);
    KeptNoRepeats(h.order, ufrag);
  }

  lemma KeptConsistent(m: Memory, ufrag: string)
    requires Consistent(m)
    ensures Consistent(Memory(KeptHistory(m.past, ufrag), KeptStreams(m.streams, ufrag)))
  {
    KeptExact(m.past, ufrag);
    var packets, streams := KeptPackets(m.past.packets, ufrag), KeptStreams(m.streams, ufrag);
    forall k | k in streams ensures Disjoint(packets, k, streams[k].missing) {
      assert Disjoint(m.past.packets, k, m.streams[k].missing);
    }
  }

  ghost function KeptDesk(d: Desk, ufrag: string): Desk {
    Desk(Memory(KeptHistory(d.memory.past, ufrag), KeptStreams(d.memory.streams, ufrag)),
         KeptGroups(d.groups, ufrag), Kept(d.ready, DatagramOwner, ufrag))
  }

  lemma KeptTablesActive(active: set<string>, packets: Packets, streams: Streams, groups: Groups, ufrag: string)
    requires PacketsActive(Some(active), packets) && StreamsActive(Some(active), streams)
             && GroupsActive(Some(active), groups)
    ensures PacketsActive(Some(active - {ufrag}), KeptPackets(packets, ufrag))
    ensures StreamsActive(Some(active - {ufrag}), KeptStreams(streams, ufrag))
    ensures GroupsActive(Some(active - {ufrag}), KeptGroups(groups, ufrag))
  {
    forall id | id in KeptPackets(packets, ufrag) ensures Active(Some(active - {ufrag}), id.remote) {
      NotRevokedStaysActive(active, ufrag, id.remote);
    }
    forall id | id in KeptStreams(streams, ufrag) ensures Active(Some(active - {ufrag}), id.remote) {
      NotRevokedStaysActive(active, ufrag, id.remote);
    }
    forall id | id in KeptGroups(groups, ufrag) ensures Active(Some(active - {ufrag}), id.remote) {
      NotRevokedStaysActive(active, ufrag, id.remote);
    }
  }

  lemma KeptReadyActive(active: set<string>, ready: seq<Datagram>, ufrag: string)
    requires ReadyActive(Some(active), ready)
    ensures ReadyActive(Some(active - {ufrag}), Kept(ready, DatagramOwner, ufrag))
  {
    var kept := Kept(ready, DatagramOwner, ufrag);
    forall i | 0 <= i < |kept| ensures Active(Some(active - {ufrag}), kept[i].id.remote) {
      assert kept[i] in kept;
      NotRevokedStaysActive(active, ufrag, kept[i].id.remote);
    }
  }

  lemma KeptGood(active: set<string>, d: Desk, ufrag: string)
    requires Good(Some(active), d)
    ensures Good(Some(active - {ufrag}), KeptDesk(d, ufrag))
  {
    KeptConsistent(d.memory, ufrag);
    KeptTablesActive(active, d.memory.past.packets, d.memory.streams, d.groups, ufrag);
    KeptReadyActive(active, d.ready, ufrag);
  }

  lemma KeptConnOk(active: set<string>, conn: Conn, ufrag: string)
    requires ConnOk(Some(active), conn)
    ensures ConnOk(Some(active - {ufrag}), KeptConn(conn, ufrag))
  {
    var kept := KeptConn(conn, ufrag);
    KeptReadyActive(active, conn.ready, ufrag);
    forall a | a in kept.identities ensures Active(Some(active - {ufrag}), Ice(kept.identities[a])) {
      RevokesIce(ufrag, kept.identities[a]);
      NotRevokedStaysActive(active, ufrag, Ice(kept.identities[a]));
    }
    forall a | a in kept.deliveries ensures Active(Some(active - {ufrag}), kept.deliveries[a]) {
      NotRevokedStaysActive(active, ufrag, kept.deliveries[a]);
    }
  }

  lemma KeptConnsOk(active: set<string>, before: seq<Conn>, after: seq<Conn>, ufrag: string)
    requires ConnsOk(Some(active), before)
    requires KeptConns(before, after, ufrag)
    ensures ConnsOk(Some(active - {ufrag}), after)
  {
    forall i | 0 <= i < |after| ensures ConnOk(Some(active - {ufrag}), after[i]) {
      KeptConnOk(active, before[i], ufrag);
    }
  }

  /** A ufrag more makes no identity inactive. */
  lemma MoreActive(active: set<string>, ufrag: string, d: Desk, conns: seq<Conn>)
    requires Good(Some(active), d) && ConnsOk(Some(active), conns)
    ensures Good(Some(active + {ufrag}), d) && ConnsOk(Some(active + {ufrag}), conns)
  {
    forall x: Identity | Active(Some(active), x) ensures Active(Some(active + {ufrag}), x) {
    }
    forall i | 0 <= i < |conns| ensures ConnOk(Some(active + {ufrag}), conns[i]) {
      assert ConnOk(Some(active), conns[i]);
    }
  }

  lemma KeptConnsHonest(sender: Sender, before: seq<Conn>, after: seq<Conn>, ufrag: string)
    requires HonestConns(sender, before)
    requires KeptConns(before, after, ufrag)
    ensures HonestConns(sender, after)
  {
    forall i, k | 0 <= i < |after| && 0 <= k < |after[i].ready| ensures FromSender(sender, after[i].ready[k]) {
      assert after[i].ready[k] in Kept(before[i].ready, DatagramOwner, ufrag);
      assert after[i].ready[k] in before[i].ready;
    }
  }

  lemma KeptHonest(sender: Sender, d: Desk, ufrag: string)
    requires Honest(sender, d)
    ensures Honest(sender, KeptDesk(d, ufrag))
  {
    var kept := Kept(d.ready, DatagramOwner, ufrag);
    forall i | 0 <= i < |kept| ensures FromSender(sender, kept[i]) {
      assert kept[i] in kept;
    }
  }

  lemma KeptCounts(streams: Streams, groups: Groups, ufrag: string)
    ensures |KeptStreams(streams, ufrag)| <= |streams| && |KeptGroups(groups, ufrag)| <= |groups|
  {
    SmallerStreams(KeptStreams(streams, ufrag), streams);
    SubsetSize(KeptGroups(groups, ufrag).Keys, groups.Keys);
    assert |KeptGroups(groups, ufrag)| == |KeptGroups(groups, ufrag).Keys| && |groups| == |groups.Keys|;
  }

  lemma KeptGroupsOk(groups: Groups, order: seq<GroupId>, head: nat, ufrag: string)
    requires GroupsOk(groups, order, head)
    ensures GroupsOk(KeptGroups(groups, ufrag), Kept(order[head..], GroupOwner, ufrag), 0)
  {
    KeptCounts(map[], groups, ufrag);
    LiveWhole(Kept(order[head..], GroupOwner, ufrag));
  }

  lemma KeptHistoryOk(packets: Packets, order: seq<PacketId>, head: nat, ufrag: string)
    requires HistoryOk(packets, order, head)
    ensures HistoryOk(KeptPackets(packets, ufrag), Kept(order[head..], PacketOwner, ufrag), 0)
    ensures History(KeptPackets(packets, ufrag), Kept(order[head..], PacketOwner, ufrag)[0..])
         == KeptHistory(History(packets, order[head..]), ufrag)
  {
    KeptExact(History(packets, order[head..]), ufrag);
    LiveWhole(Kept(order[head..], PacketOwner, ufrag));
  }

  lemma KeptStreamsOk(streams: Streams, ufrag: string)
    requires StreamsOk(streams)
    ensures StreamsOk(KeptStreams(streams, ufrag))
  {
    KeptCounts(streams, map[], ufrag);
  }

  // ---- What a revoked ufrag leaves, and what it does not touch ----

  /** Nothing of `ufrag` is left anywhere in these tables. */
  ghost predicate Absent(ufrag: string, d: Desk, conns: seq<Conn>) {
    && (forall id :: id in d.memory.past.packets ==> !BelongsTo(id.remote, ufrag))
    && (forall id :: id in d.memory.streams ==> !BelongsTo(id.remote, ufrag))
    && (forall id :: id in d.groups ==> !BelongsTo(id.remote, ufrag))
    && (forall i :: 0 <= i < |conns| ==> AbsentConn(ufrag, conns[i]))
  }

  ghost predicate AbsentConn(ufrag: string, conn: Conn) {
    && (forall i :: 0 <= i < |conn.ready| ==> !BelongsTo(conn.ready[i].id.remote, ufrag))
    && (forall a :: a in conn.identities ==> !BelongsTo(Ice(conn.identities[a]), ufrag))
    && (forall a :: a in conn.deliveries ==> !BelongsTo(conn.deliveries[a], ufrag))
  }

  /** In any good state, a ufrag that is not active has nothing anywhere. */
  lemma InactiveIsAbsent(active: set<string>, d: Desk, conns: seq<Conn>, ufrag: string)
    requires Good(Some(active), d) && ConnsOk(Some(active), conns) && ufrag !in active
    ensures Absent(ufrag, d, conns)
  {
    forall i | 0 <= i < |conns| ensures AbsentConn(ufrag, conns[i]) {
      assert ConnOk(Some(active), conns[i]);
    }
  }

  /** Removing a ufrag keeps every invariant and leaves nothing of it. */
  lemma RemovalIsComplete(active: set<string>, d: Desk, before: seq<Conn>, after: seq<Conn>, ufrag: string)
    requires Good(Some(active), d) && ConnsOk(Some(active), before)
    requires KeptConns(before, after, ufrag)
    ensures Good(Some(active - {ufrag}), KeptDesk(d, ufrag)) && ConnsOk(Some(active - {ufrag}), after)
    ensures Absent(ufrag, KeptDesk(d, ufrag), after)
  {
    KeptGood(active, d, ufrag);
    KeptConnsOk(active, before, after, ufrag);
    InactiveIsAbsent(active - {ufrag}, KeptDesk(d, ufrag), after, ufrag);
  }

  /** Removing a colon-free ufrag keeps everything filed under an identity that is not its own. */
  lemma OthersAreUntouched(d: Desk, conn: Conn, ufrag: string)
    requires ':' !in ufrag
    ensures forall id :: id in d.memory.past.packets && !BelongsTo(id.remote, ufrag) ==>
              id in KeptDesk(d, ufrag).memory.past.packets
    ensures forall id :: id in d.memory.streams && !BelongsTo(id.remote, ufrag) ==>
            id in KeptDesk(d, ufrag).memory.streams
    ensures forall id :: id in d.groups && !BelongsTo(id.remote, ufrag) ==> id in KeptDesk(d, ufrag).groups
    ensures forall g :: g in conn.ready && !BelongsTo(g.id.remote, ufrag) ==> g in KeptConn(conn, ufrag).ready
    ensures forall a :: a in conn.identities && !BelongsTo(Ice(conn.identities[a]), ufrag) ==>
            a in KeptConn(conn, ufrag).identities
    ensures forall a :: a in conn.deliveries && !BelongsTo(conn.deliveries[a], ufrag) ==>
            a in KeptConn(conn, ufrag).deliveries
  {
    forall x: Identity ensures Revokes(ufrag, x) <==> BelongsTo(x, ufrag) {
      RevokesExactly(ufrag, x);
    }
    forall a | a in conn.identities
      ensures RevokesName(ufrag, conn.identities[a]) <==> BelongsTo(Ice(conn.identities[a]), ufrag)
    {
      RevokesIce(ufrag, conn.identities[a]);
    }
  }
}
