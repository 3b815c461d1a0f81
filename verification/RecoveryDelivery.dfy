/**
 * Rebuilt packets reach the reader. Whatever a pass over waiting groups puts into the history it also puts, once,
 * into the socket's ready queue; and over every run a packet that is held without having arrived was handed to the
 * reader or still waits for it.
 */
module RecoveryDelivery {
  import opened Basics
  import opened Bytes
  import opened Identities
  import opened RecoveryWire
  import opened Parity
  import opened GapTracking
  import opened RecoveryHistory
  import opened RecoverySteps
  import opened RecoveryTables
  import opened RecoveryArrivals
  import opened RecoveryCascade
  import opened Revocation

  // ---- One pass ----

  /** The datagrams are of different packets, are addressed to `remote`, and hold what the history holds. */
  ghost predicate Deliverable(news: seq<Datagram>, packets: Packets, remote: Address) {
    && (forall i, j :: 0 <= i < j < |news| ==> news[i].id != news[j].id)
    && (forall i :: 0 <= i < |news| ==>
          news[i].addr == remote && news[i].id in packets && packets[news[i].id] == news[i].data)
  }

  /** Some datagram is of this packet and has these octets. */
  ghost predicate Carries(news: seq<Datagram>, p: PacketId, data: seq<byte>) {
    exists i :: 0 <= i < |news| && news[i].id == p && news[i].data == data
  }

  /** The packet was held before, with these octets. */
  predicate HeldAs(packets: Packets, p: PacketId, data: seq<byte>) {
    p in packets && packets[p] == data
  }

  /** Every packet that is held now was held before, or is among the datagrams. */
  ghost predicate CarriesNew(news: seq<Datagram>, before: Packets, after: Packets) {
    forall p :: p in after ==> HeldAs(before, p, after[p]) || Carries(news, p, after[p])
  }

  /** The history after n retries: each datagram's packet is recent enough to stay. */
  ghost predicate Lasting(news: seq<Datagram>, past: History, n: nat) {
    Exact(past) && forall i :: 0 <= i < |news| ==> RecoveryCascade.Recent(past.order, news[i].id, n)
  }

  ghost predicate Passed(start: Desk, r: Desk, remote: Address, n: nat) {
    && start.ready <= r.ready
    && var news := r.ready[|start.ready|..];
       && Deliverable(news, r.memory.past.packets, remote)
       && CarriesNew(news, start.memory.past.packets, r.memory.past.packets)
       && Lasting(news, r.memory.past, n)
  }

  lemma RecentLonger(order: seq<PacketId>, id: PacketId, n: int)
    requires RecoveryCascade.Recent(order, id, n)
    ensures RecoveryCascade.Recent(order, id, n + 1)
  {
    var i :| 0 <= i < |order| && |order| - 1 - n <= i && order[i] == id;
  }

  lemma LastingStored(news: seq<Datagram>, past: History, n: nat, lost: PacketId, data: seq<byte>, remote: Address)
    requires Lasting(news, past, n) && n < HISTORY_SIZE - 1 && lost !in past.packets
    ensures Lasting(news + [Datagram(data, remote, lost)], Stored(past, lost, data), n + 1)
  {
    var next := Stored(past, lost, data);
    StoredExact(past, lost, data);
    NewIsRecent(past, lost, data, n + 1);
    forall i | 0 <= i < |news| ensures RecoveryCascade.Recent(next.order, news[i].id, n + 1) {
      StoredRecent(past, news[i].id, n, lost, data);
    }
  }

  lemma DeliverableStored(news: seq<Datagram>, past: History, next: History, lost: PacketId, data: seq<byte>,
                          remote: Address)
    requires Exact(past) && next == Stored(past, lost, data) && lost !in past.packets
    requires Deliverable(news, past.packets, remote)
    requires forall i :: 0 <= i < |news| ==> news[i].id in next.packets
    ensures Deliverable(news + [Datagram(data, remote, lost)], next.packets, remote)
  {
    StoredHolds(past, lost, data);
  }

  lemma CarriesNewStored(news: seq<Datagram>, before: Packets, past: History, lost: PacketId, data: seq<byte>,
                         remote: Address)
    requires Exact(past) && lost !in past.packets && CarriesNew(news, before, past.packets)
    ensures CarriesNew(news + [Datagram(data, remote, lost)], before, Stored(past, lost, data).packets)
  {
    var next, more := Stored(past, lost, data).packets, news + [Datagram(data, remote, lost)];
    StoredHolds(past, lost, data);
    forall p | p in next ensures HeldAs(before, p, next[p]) || Carries(more, p, next[p]) {
      if p == lost {
        assert more[|news|].id == p;
      } else if !HeldAs(before, p, next[p]) {
        var i :| 0 <= i < |news| && news[i].id == p && news[i].data == past.packets[p];
        assert more[i] == news[i];
      }
    }
  }

  /** A turn that rebuilds a packet. */
  lemma RebuildPasses(start: Desk, r: Desk, after: Desk, remote: Address, n: nat, lost: PacketId, data: seq<byte>)
    requires Passed(start, r, remote, n) && n < HISTORY_SIZE - 1 && lost !in r.memory.past.packets
    requires after.memory.past == Stored(r.memory.past, lost, data)
    requires after.ready == r.ready + [Datagram(data, remote, lost)]
    ensures Passed(start, after, remote, n + 1)
  {
    var news, past := r.ready[|start.ready|..], r.memory.past;
    assert after.ready[|start.ready|..] == news + [Datagram(data, remote, lost)];
    LastingStored(news, past, n, lost, data, remote);
    forall i | 0 <= i < |news| ensures news[i].id in after.memory.past.packets {
      var more := news + [Datagram(data, remote, lost)];
      assert more[i] == news[i] && RecoveryCascade.Recent(after.memory.past.order, more[i].id, n + 1);
    }
    DeliverableStored(news, past, after.memory.past, lost, data, remote);
    CarriesNewStored(news, start.memory.past.packets, past, lost, data, remote);
  }

  lemma TurnPasses(start: Desk, r: Desk, id: GroupId, remote: Address, n: nat)
    requires Passed(start, r, remote, n) && n < HISTORY_SIZE - 1
    ensures Passed(start, Retried(r, id, remote), remote, n + 1)
  {
    if id in r.groups && Covered(r.groups[id]) && Recoverable(r.memory.past.packets, r.groups[id]) {
      var packets, group := r.memory.past.packets, r.groups[id];
      RebuildPasses(start, r, Retried(r, id, remote), remote, n, Lost(packets, group).id, Rebuilt(packets, group));
    } else {
      var news := r.ready[|start.ready|..];
      forall i | 0 <= i < |news| ensures RecoveryCascade.Recent(r.memory.past.order, news[i].id, n + 1) {
        RecentLonger(r.memory.past.order, news[i].id, n);
      }
    }
  }

  /**
   * After a pass over waiting groups, in any order: the ready queue has grown by datagrams of different packets,
   * all for the address that brought the repair, and every packet the pass put into the history is among them
   * with its octets.
   */
  lemma {:induction false} PassDeliversRebuilt(start: Desk, order: seq<GroupId>, remote: Address)
    requires Exact(start.memory.past) && |order| < HISTORY_SIZE
    ensures Passed(start, RetriedAll(start, order, remote), remote, |order|)
  {
    if order == [] {
      assert start.ready[|start.ready|..] == [];
    } else {
      var n := |order| - 1;
      PassDeliversRebuilt(start, order[..n], remote);
      TurnPasses(start, RetriedAll(start, order[..n], remote), order[n], remote, n);
    }
  }

  /** So after the arrival of a packet: whatever else is newly held waits for the reader. */
  lemma ArrivalDeliversRebuilt(before: Desk, after: Desk, id: PacketId, data: seq<byte>, remote: Address, now: int,
                               trims: bool, a: Arrival)
    requires Exact(before.memory.past) && |before.groups| <= GROUP_LIMIT
    requires Arrived(before, after, id, data, remote, now, trims, a)
    ensures before.ready <= after.ready
    ensures var news := after.ready[|before.ready|..];
            && Deliverable(news, after.memory.past.packets, remote)
            && forall p :: p in after.memory.past.packets && p != id ==>
                 || HeldAs(before.memory.past.packets, p, after.memory.past.packets[p])
                 || Carries(news, p, after.memory.past.packets[p])
  {
    var start := EnteredDesk(before, id, data, a);
    StoredExact(before.memory.past, id, data);
    StoredHolds(before.memory.past, id, data);
    NoRepeatedGroupsSize(a.order, before.groups.Keys);
    assert |before.groups| == |before.groups.Keys|;
    PassDeliversRebuilt(start, a.order, remote);
  }

  // ---- A group that can be completed is ----

  /** A turn of any group keeps what the waiting groups hold, and what they have been given. */
  lemma TurnKeeps(d: Desk, base: Packets, r: Desk, h: GroupId, n: nat, remote: Address)
    requires Keeps(d, base, r.memory.past, n) && WaitingOf(r.groups, d.groups) && n < |d.groups| <= 256
    ensures var after := Retried(r, h, remote).memory.past;
            Keeps(d, base, after, n + 1) && Grows(d.groups, r.memory.past, after)
  {
    var now := r.memory.past;
    KeepsStill(d, base, now, n);
    if h in r.groups && Yields(now.packets, r.groups[h]) {
      var k := LostIndex(now.packets, r.groups[h].entries);
      EntryIsListed(d.groups, h, k);
      var lost := Lost(now.packets, r.groups[h]).id;
      if lost in base {
        StaysHeld(d, now, lost, n);
        assert false;
      }
      KeepsRebuilt(d, base, now, n, lost, Rebuilt(now.packets, r.groups[h]));
    }
  }

  /** At its own turn a group that lacked one packet gives it back, unless another has done so. */
  lemma OwnTurnRebuilds(d: Desk, base: Packets, r: Desk, g: GroupId, n: nat, remote: Address)
    requires Keeps(d, base, r.memory.past, n) && g in d.groups && g in r.groups && r.groups[g] == d.groups[g]
    requires Yields(base, d.groups[g])
    ensures Lost(base, d.groups[g]).id in Retried(r, g, remote).memory.past.packets
            || Lost(base, d.groups[g]).id in r.memory.past.packets
  {
    YieldsTheSame(d, base, r.memory.past, n, g);
    if Yields(r.memory.past.packets, d.groups[g]) {
      StoredHolds(r.memory.past, Lost(base, d.groups[g]).id, Rebuilt(r.memory.past.packets, d.groups[g]));
    }
  }

  lemma PassRebuilds(d: Desk, base: Packets, start: Desk, order: seq<GroupId>, g: GroupId, remote: Address)
    requires NoRepeatedGroups(order) && Waits(d.groups, order) && |order| <= |d.groups| <= 256 && g in order
    requires start.groups == d.groups && Keeps(d, base, start.memory.past, 0) && Yields(base, d.groups[g])
    ensures Lost(base, d.groups[g]).id in RetriedAll(start, order, remote).memory.past.packets
  {
    var r, q := start, Lost(base, d.groups[g]).id;
    EntryIsListed(d.groups, g, LostIndex(base, d.groups[g].entries));
    assert order[..0] == [];
    for n := 0 to |order|
      invariant r == RetriedAll(start, order[..n], remote) && Keeps(d, base, r.memory.past, n)
      invariant g in order[..n] ==> q in r.memory.past.packets
    {
      r := PassRebuildsNext(d, base, start, order, g, n, remote, r);
    }
    assert order[..|order|] == order;
  }

  lemma PassRebuildsNext(d: Desk, base: Packets, start: Desk, order: seq<GroupId>, g: GroupId, n: nat, remote: Address,
                         r: Desk) returns (after: Desk)
    requires NoRepeatedGroups(order) && Waits(d.groups, order) && n < |order| <= |d.groups| <= 256 && g in order
    requires start.groups == d.groups && Yields(base, d.groups[g]) && Lists(d.groups, Lost(base, d.groups[g]).id)
    requires r == RetriedAll(start, order[..n], remote) && Keeps(d, base, r.memory.past, n)
    requires g in order[..n] ==> Lost(base, d.groups[g]).id in r.memory.past.packets
    ensures after == RetriedAll(start, order[..n + 1], remote) && Keeps(d, base, after.memory.past, n + 1)
    ensures g in order[..n + 1] ==> Lost(base, d.groups[g]).id in after.memory.past.packets
  {
    StillWaits(d, start, order, n, remote);
    OneMoreRetry(start, order, n, remote);
    RetriesTouchOnlyTheirs(start, order[..n], remote);
    after := Retried(r, order[n], remote);
    TurnKeeps(d, base, r, order[n], n, remote);
    if order[n] == g {
      OwnTurnRebuilds(d, base, r, g, n, remote);
    } else {
      assert g in order[..n + 1] ==> g in order[..n];
    }
  }

  /** Where the pass starts, whatever is held besides: the packet that has just arrived, and all that was held. */
  lemma KeepsFromTheStart(d: Desk, id: PacketId, data: seq<byte>)
    requires Exact(d.memory.past) && |d.groups| <= 256 && RecoveryCascade.Lasting(d) && id !in d.memory.past.packets
    ensures Keeps(d, d.memory.past.packets[id := data], Stored(d.memory.past, id, data), 0)
  {
    TracksFromTheStart(d, id, data);
  }

  /**
   * If a packet arrives that leaves a waiting group lacking one other, and the held ones have their lengths,
   * then that other is rebuilt and waits for the reader, whatever the order of the retries. No packet of the
   * waiting groups may be about to be pushed out of the history.
   */
  lemma LastMissingPacketIsDelivered(before: Desk, after: Desk, id: PacketId, data: seq<byte>, remote: Address,
                                     now: int, trims: bool, a: Arrival, g: GroupId)
    requires Exact(before.memory.past) && |before.groups| <= GROUP_LIMIT && RecoveryCascade.Lasting(before)
    requires Arrived(before, after, id, data, remote, now, trims, a) && id !in before.memory.past.packets
    requires g in before.groups && Contains(before.groups[g], id)
    requires Yields(before.memory.past.packets[id := data], before.groups[g])
    ensures before.ready <= after.ready
    ensures var lost := Lost(before.memory.past.packets[id := data], before.groups[g]).id;
            && lost in after.memory.past.packets
            && Carries(after.ready[|before.ready|..], lost, after.memory.past.packets[lost])
  {
    var base := before.memory.past.packets[id := data];
    var start := EnteredDesk(before, id, data, a);
    KeepsFromTheStart(before, id, data);
    NoRepeatedGroupsSize(a.order, before.groups.Keys);
    assert |before.groups| == |before.groups.Keys|;
    PassRebuilds(before, base, start, a.order, g, remote);
    ArrivalDeliversRebuilt(before, after, id, data, remote, now, trims, a);
  }

  /** A parity datagram that lacks two packets or more waits, while there is room. */
  lemma IncompleteParityWaits(before: Desk, after: Desk, queue: seq<GroupId>, id: GroupId, group: Group, now: int,
                              a: ParityArrival)
    requires ParityTaken(before, after, queue, id, group, now, a) && |before.groups| < GROUP_LIMIT
    requires !Ripe(before.memory.past.packets, group)
    ensures after.groups == before.groups[id := group]
  {
    assert |before.groups[id := group]| <= |before.groups| + 1 by {
      assert before.groups[id := group].Keys == before.groups.Keys + {id};
      assert |before.groups[id := group]| == |before.groups[id := group].Keys|;
      assert |before.groups| == |before.groups.Keys|;
    }
  }

  /** Unless the request is full, everything an enabled stream misses has been asked for within the last 50 ms. */
  lemma MissingIsAskedFor(before: Streams, after: Streams, id: StreamId, now: int, due: seq<uint16>, seen: set<uint16>,
                          m: uint16)
    requires Requested(before, after, id, now, due, seen) && before[id].enabled && |due| < 32
    requires id in after && m in after[id].missing && now > 0
    ensures now - after[id].missing[m] < 50_000_000
    ensures m in due || after[id].missing[m] == before[id].missing[m]
  {
  }

  // ---- Whole runs ----

  ghost predicate WaitsIn(conns: seq<Conn>, p: PacketId, data: seq<byte>) {
    exists c :: 0 <= c < |conns| && Carries(conns[c].ready, p, data)
  }

  /** The packet was given to the reader, or waits in a socket. */
  ghost predicate Handed(p: PacketId, data: seq<byte>, given: seq<Datagram>, conns: seq<Conn>) {
    Carries(given, p, data) || WaitsIn(conns, p, data)
  }

  /** Every packet held was so from the start or arrived, or was handed over with the octets that are held. */
  ghost predicate AllHanded(packets: Packets, conns: seq<Conn>, known: set<PacketId>, given: seq<Datagram>) {
    forall p :: p in packets && p !in known ==> Handed(p, packets[p], given, conns)
  }

  /** What was given or waited then is given or waits now. */
  ghost predicate KeepsHanded(conns: seq<Conn>, given: seq<Datagram>, conns': seq<Conn>, given': seq<Datagram>) {
    forall p, data :: Handed(p, data, given, conns) ==> Handed(p, data, given', conns')
  }

  function Given(given: seq<Datagram>, out: Option<Datagram>): seq<Datagram> {
    if out.Some? then given + [out.value] else given
  }

  lemma CarriesMore(news: seq<Datagram>, more: seq<Datagram>, p: PacketId, data: seq<byte>)
    requires Carries(news, p, data)
    ensures Carries(news + more, p, data) && Carries(more + news, p, data)
  {
    var i :| 0 <= i < |news| && news[i].id == p && news[i].data == data;
    assert (news + more)[i] == news[i] && (more + news)[|more| + i] == news[i];
  }

  /** A longer ready queue keeps what was handed over. */
  lemma LongerReady(conns: seq<Conn>, c: nat, conn: Conn, given: seq<Datagram>)
    requires c < |conns| && conns[c].ready <= conn.ready
    ensures KeepsHanded(conns, given, conns[c := conn], given)
  {
    forall p, data | WaitsIn(conns, p, data) ensures WaitsIn(conns[c := conn], p, data) {
      var k :| 0 <= k < |conns| && Carries(conns[k].ready, p, data);
      if k == c {
        CarriesMore(conns[c].ready, conn.ready[|conns[c].ready|..], p, data);
        assert conn.ready == conns[c].ready + conn.ready[|conns[c].ready|..];
      }
      assert Carries(conns[c := conn][k].ready, p, data);
    }
  }

  /** A read moves the oldest datagram from the queue to the reader. */
  lemma ReadKeepsHanded(conns: seq<Conn>, c: nat, given: seq<Datagram>)
    requires c < |conns| && conns[c].ready != []
    ensures KeepsHanded(conns, given, conns[c := conns[c].(ready := conns[c].ready[1..])], given + [conns[c].ready[0]])
  {
    var ready := conns[c].ready;
    var next := conns[c := conns[c].(ready := ready[1..])];
    forall p, data | Handed(p, data, given, conns) ensures Handed(p, data, given + [ready[0]], next) {
      if Carries(given, p, data) {
        CarriesMore(given, [ready[0]], p, data);
      } else {
        var k :| 0 <= k < |conns| && Carries(conns[k].ready, p, data);
        var i :| 0 <= i < |conns[k].ready| && conns[k].ready[i].id == p && conns[k].ready[i].data == data;
        if k == c && i == 0 {
          assert (given + [ready[0]])[|given|] == ready[0];
        } else {
          assert next[k].ready[if k == c then i - 1 else i] == conns[k].ready[i];
          assert Carries(next[k].ready, p, data);
        }
      }
    }
  }

  /** An arrival hands over what it rebuilds, and the arrived packet is known. */
  lemma ArrivalHandsOver(before: Desk, after: Desk, conns: seq<Conn>, c: nat, id: PacketId, data: seq<byte>,
                         remote: Address, now: int, trims: bool, a: Arrival, known: set<PacketId>, given: seq<Datagram>)
    requires Exact(before.memory.past) && |before.groups| <= GROUP_LIMIT
    requires Arrived(before, after, id, data, remote, now, trims, a)
    requires c < |conns| && before.ready == conns[c].ready
    ensures var conns' := conns[c := conns[c].(ready := after.ready)];
            && KeepsHanded(conns, given, conns', given)
            && (AllHanded(before.memory.past.packets, conns, known, given) ==>
                  AllHanded(after.memory.past.packets, conns', known + {id}, given))
  {
    var conns' := conns[c := conns[c].(ready := after.ready)];
    ArrivalDeliversRebuilt(before, after, id, data, remote, now, trims, a);
    LongerReady(conns, c, conns[c].(ready := after.ready), given);
    if AllHanded(before.memory.past.packets, conns, known, given) {
      var packets := after.memory.past.packets;
      forall p | p in packets && p !in known + {id} ensures Handed(p, packets[p], given, conns') {
        if !HeldAs(before.memory.past.packets, p, packets[p]) {
          var news := after.ready[|before.ready|..];
          CarriesMore(news, before.ready, p, packets[p]);
          assert after.ready == before.ready + news;
          assert Carries(conns'[c].ready, p, packets[p]);
        }
      }
    }
  }

  lemma GivenKeepsHanded(conns: seq<Conn>, given: seq<Datagram>, out: Option<Datagram>)
    ensures KeepsHanded(conns, given, conns, Given(given, out))
  {
    if out.Some? {
      forall p, data | Carries(given, p, data) ensures Carries(given + [out.value], p, data) {
        CarriesMore(given, [out.value], p, data);
      }
    }
  }

  /** Whatever is held now was held before, or is this datagram. */
  ghost predicate AddsOnly(before: Packets, after: Packets, out: Option<Datagram>) {
    forall p :: p in after ==>
      HeldAs(before, p, after[p]) || (out.Some? && out.value.id == p && out.value.data == after[p])
  }

  /** A parity datagram that completes its group puts the packet it gives back into the history, and no other. */
  lemma ParityAddsOnly(before: Desk, after: Desk, queue: seq<GroupId>, id: GroupId, group: Group, now: int,
                       a: ParityArrival)
    requires Exact(before.memory.past) && ParityTaken(before, after, queue, id, group, now, a)
    ensures AddsOnly(before.memory.past.packets, after.memory.past.packets,
                     Recovered(before.memory.past.packets, group))
  {
    var past, out := before.memory.past, Recovered(before.memory.past.packets, group);
    if out.Some? {
      assert after.memory.past == Stored(past, out.value.id, out.value.data);
      StoredHolds(past, out.value.id, out.value.data);
    }
  }

  /** What is returned to the reader at once is handed over. */
  lemma ReturnedIsHanded(before: Packets, after: Packets, out: Option<Datagram>, conns: seq<Conn>,
                         known: set<PacketId>, given: seq<Datagram>)
    requires AddsOnly(before, after, out) && AllHanded(before, conns, known, given)
    ensures AllHanded(after, conns, known, Given(given, out))
  {
    GivenKeepsHanded(conns, given, out);
    forall p | p in after && p !in known ensures Handed(p, after[p], Given(given, out), conns) {
      if !HeldAs(before, p, after[p]) {
        assert Given(given, out)[|given|] == out.value;
        assert Carries(Given(given, out), p, after[p]);
      }
    }
  }

  lemma CarriesIsIn(news: seq<Datagram>, p: PacketId, data: seq<byte>)
    ensures Carries(news, p, data) <==> exists g :: g in news && g.id == p && g.data == data
  {
  }

  /** Removing a ufrag takes its datagrams and its packets away together. */
  lemma RemovalKeepsHanded(packets: Packets, before: seq<Conn>, after: seq<Conn>, ufrag: string, known: set<PacketId>,
                           given: seq<Datagram>)
    requires AllHanded(packets, before, known, given) && KeptConns(before, after, ufrag)
    ensures AllHanded(KeptPackets(packets, ufrag), after, known, given)
  {
    forall p | p in KeptPackets(packets, ufrag) && p !in known ensures Handed(p, packets[p], given, after) {
      if !Carries(given, p, packets[p]) {
        var c :| 0 <= c < |before| && Carries(before[c].ready, p, packets[p]);
        var i :| 0 <= i < |before[c].ready| && before[c].ready[i].id == p && before[c].ready[i].data == packets[p];
        assert before[c].ready[i] in after[c].ready;
        CarriesIsIn(after[c].ready, p, packets[p]);
      }
    }
  }

  /** More known packets ask for less. */
  lemma KnownMore(packets: Packets, conns: seq<Conn>, known: set<PacketId>, more: set<PacketId>, given: seq<Datagram>)
    requires AllHanded(packets, conns, known, given)
    ensures AllHanded(packets, conns, known + more, given)
  {
  }

  /** Sockets that keep what they have ready, and new ones, keep what was handed over. */
  lemma SameReady(conns: seq<Conn>, conns': seq<Conn>, given: seq<Datagram>)
    requires |conns| <= |conns'| && forall i :: 0 <= i < |conns| ==> conns'[i].ready == conns[i].ready
    ensures KeepsHanded(conns, given, conns', given)
  {
    forall p, data | WaitsIn(conns, p, data) ensures WaitsIn(conns', p, data) {
      var c :| 0 <= c < |conns| && Carries(conns[c].ready, p, data);
      assert Carries(conns'[c].ready, p, data);
    }
  }

  /** A parity datagram that lacks packets turns repairs on, and every packet it lacks is missing from then on. */
  lemma IncompleteParityNamesMissing(before: Desk, after: Desk, queue: seq<GroupId>, id: GroupId, group: Group,
                                     now: int, a: ParityArrival, m: uint16)
    requires ParityTaken(before, after, queue, id, group, now, a) && |before.memory.streams| <= STREAM_LIMIT
    requires !Ripe(before.memory.past.packets, group) && m in MissingNumbers(before.memory.past.packets, group.entries)
    ensures var sid := StreamOfGroup(id);
            && sid in a.named && a.named[sid].enabled && a.named[sid].lastTouched == now && m in a.named[sid].missing
            && Requested(a.named, after.memory.streams, sid, now, a.due, a.seen)
  {
  }
}
