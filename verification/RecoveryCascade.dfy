/**
 * Does a group that lacks at most one packet ever keep waiting? recoverPendingLocked retries only the
 * groups that list the packet that arrived, so a packet it rebuilds can leave another group one short.
 * Here is a guard under which it cannot happen, the exact condition, and a case.
 */
module RecoveryCascade {
  import opened Bytes
  import opened Identities
  import opened RecoveryWire
  import opened Parity
  import opened GapTracking
  import opened RecoveryHistory
  import opened RecoverySteps
  import opened RecoveryArrivals

  /** A group that lacks at most one packet: it is done with when its turn comes. */
  ghost predicate Ripe(packets: Packets, group: Group) {
    |MissingNumbers(packets, group.entries)| <= 1
  }

  /** Every waiting group lacks two packets or more. */
  ghost predicate Settled(packets: Packets, groups: Groups) {
    forall g :: g in groups ==> !Ripe(packets, groups[g])
  }

  /** The tables once packet `id` is in the history; the streams play no part. */
  ghost function WithPacket(d: Desk, id: PacketId, data: seq<byte>, streams: Streams): Desk {
    d.(memory := Memory(Stored(d.memory.past, id, data), streams))
  }

  /** What a group holds of one history it holds of the other. */
  ghost predicate HoldsNoMore(entries: seq<Entry>, now: Packets, before: Packets) {
    forall k :: 0 <= k < |entries| && entries[k].id in now ==> entries[k].id in before
  }

  lemma {:induction false} LacksNoLess(entries: seq<Entry>, now: Packets, before: Packets)
    requires HoldsNoMore(entries, now, before)
    ensures |MissingNumbers(now, entries)| >= |MissingNumbers(before, entries)|
  {
    if entries != [] {
      LacksNoLess(entries[..|entries| - 1], now, before);
    }
  }

  // ---- A guard that is enough ----

  /** `id` is among the latest n + 1 of the history. */
  ghost predicate Recent(order: seq<PacketId>, id: PacketId, n: int) {
    exists i :: 0 <= i < |order| && |order| - 1 - n <= i && order[i] == id
  }

  /** How recent a packet must be to outlast the new one and one more for every waiting group. */
  ghost function Margin(d: Desk): int {
    HISTORY_SIZE - 2 - |d.groups|
  }

  ghost predicate Lasts(d: Desk, p: PacketId) {
    Recent(d.memory.past.order, p, Margin(d))
  }

  /** Two waiting groups share no packet but the one that arrives, unless it is held and stays so. */
  ghost predicate Separate(d: Desk, id: PacketId) {
    forall g, h, p :: g in d.groups && h in d.groups && g != h && p != id
                      && Contains(d.groups[g], p) && Contains(d.groups[h], p) ==>
      Lasts(d, p)
  }

  lemma StoredRecent(h: History, id: PacketId, n: int, lost: PacketId, data: seq<byte>)
    requires Exact(h) && Recent(h.order, id, n) && n < HISTORY_SIZE - 1
    ensures Recent(Stored(h, lost, data).order, id, n + 1)
  {
    var i :| 0 <= i < |h.order| && |h.order| - 1 - n <= i && h.order[i] == id;
    var next := Stored(h, lost, data).order;
    if lost in h.packets || |h.order| < HISTORY_SIZE {
      assert next[i] == id;
    } else {
      assert next[i - 1] == id;
    }
  }

  lemma NewIsRecent(h: History, id: PacketId, data: seq<byte>, n: nat)
    requires Exact(h) && id !in h.packets
    ensures Recent(Stored(h, id, data).order, id, n)
  {
    var order := Stored(h, id, data).order;
    assert order[|order| - 1] == id;
  }

  /** Recent enough, after n retries, to outlast the others. */
  ghost predicate Stays(d: Desk, past: History, p: PacketId, n: nat) {
    Recent(past.order, p, Margin(d) + 1 + n)
  }

  lemma StaysMore(d: Desk, past: History, p: PacketId, n: nat, lost: PacketId, data: seq<byte>)
    requires Exact(past) && Stays(d, past, p, n) && n < |d.groups|
    ensures Stays(d, Stored(past, lost, data), p, n + 1)
  {
    StoredRecent(past, p, Margin(d) + 1 + n, lost, data);
  }

  lemma StaysStill(d: Desk, past: History, p: PacketId, n: nat)
    requires Stays(d, past, p, n)
    ensures Stays(d, past, p, n + 1)
  {
    var i :| 0 <= i < |past.order| && |past.order| - 1 - (Margin(d) + 1 + n) <= i && past.order[i] == p;
  }

  lemma StaysHeld(d: Desk, past: History, p: PacketId, n: nat)
    requires Exact(past) && Stays(d, past, p, n)
    ensures p in past.packets
  {
  }

  /** The history after n retries: the arrived packet is still there, and whatever was to last. */
  ghost predicate Remembers(d: Desk, past: History, id: PacketId, n: nat) {
    Exact(past) && Stays(d, past, id, n) && forall p :: Lasts(d, p) ==> Stays(d, past, p, n)
  }

  lemma RemembersMore(d: Desk, past: History, id: PacketId, n: nat, lost: PacketId, data: seq<byte>)
    requires Remembers(d, past, id, n) && n < |d.groups|
    ensures Remembers(d, Stored(past, lost, data), id, n + 1)
  {
    StoredExact(past, lost, data);
    StaysMore(d, past, id, n, lost, data);
    forall p | Lasts(d, p) ensures Stays(d, Stored(past, lost, data), p, n + 1) {
      StaysMore(d, past, p, n, lost, data);
    }
  }

  lemma RemembersStill(d: Desk, past: History, id: PacketId, n: nat)
    requires Remembers(d, past, id, n)
    ensures Remembers(d, past, id, n + 1)
  {
    StaysStill(d, past, id, n);
    forall p | Lasts(d, p) ensures Stays(d, past, p, n + 1) {
      StaysStill(d, past, p, n);
    }
  }

  /** Of a group's packets only those held before, and the one that arrived, are held. */
  ghost predicate NothingNew(entries: seq<Entry>, now: Packets, before: Packets, id: PacketId) {
    forall k :: 0 <= k < |entries| && entries[k].id in now ==> entries[k].id in before || entries[k].id == id
  }

  ghost predicate WaitingOf(groups: Groups, all: Groups) {
    forall h :: h in groups ==> h in all && groups[h] == all[h]
  }

  /** Nothing the waiting groups list was rebuilt, and those already retried lack two. */
  ghost predicate Untouched(d: Desk, r: Desk, id: PacketId, order: seq<GroupId>, n: nat)
    requires n <= |order|
  {
    && WaitingOf(r.groups, d.groups)
    && (forall h :: h in r.groups ==>
          NothingNew(r.groups[h].entries, r.memory.past.packets, d.memory.past.packets, id))
    && (forall i :: 0 <= i < n && order[i] in r.groups ==>
          |MissingNumbers(r.memory.past.packets, r.groups[order[i]].entries)| >= 2)
  }

  /** The packet a group gives back is listed by no other group that waits. */
  lemma LostIsNotShared(d: Desk, past: History, id: PacketId, n: nat, g: GroupId, h: GroupId, lost: PacketId)
    requires Separate(d, id) && Remembers(d, past, id, n) && g in d.groups && h in d.groups && g != h
    requires Contains(d.groups[g], lost) && lost !in past.packets
    ensures !Contains(d.groups[h], lost)
  {
    StaysHeld(d, past, id, n);
    if Contains(d.groups[h], lost) {
      StaysHeld(d, past, lost, n);
    }
  }

  lemma StoringUnlisted(entries: seq<Entry>, past: History, before: Packets, id: PacketId, lost: PacketId,
      data: seq<byte>)
    requires Exact(past) && NothingNew(entries, past.packets, before, id)
    requires forall k :: 0 <= k < |entries| ==> entries[k].id != lost
    ensures NothingNew(entries, Stored(past, lost, data).packets, before, id)
    ensures |MissingNumbers(Stored(past, lost, data).packets, entries)| >= |MissingNumbers(past.packets, entries)|
  {
    StoredHolds(past, lost, data);
    LacksNoLess(entries, Stored(past, lost, data).packets, past.packets);
  }

  /** A retry that rebuilds a packet leaves the other waiting groups as they were, or lacking more. */
  lemma RebuildUntouches(d: Desk, r: Desk, id: PacketId, order: seq<GroupId>, n: nat, after: Desk, lost: PacketId,
                         data: seq<byte>)
    requires n < |order| && NoRepeatedGroups(order) && order[n] in r.groups
    requires Separate(d, id) && Remembers(d, r.memory.past, id, n) && Untouched(d, r, id, order, n)
    requires Contains(d.groups[order[n]], lost) && lost !in r.memory.past.packets
    requires after.memory.past == Stored(r.memory.past, lost, data) && after.groups == r.groups - {order[n]}
    ensures Untouched(d, after, id, order, n + 1)
  {
    forall h | h in after.groups
      ensures NothingNew(after.groups[h].entries, after.memory.past.packets, d.memory.past.packets, id)
      ensures |MissingNumbers(after.memory.past.packets, after.groups[h].entries)|
           >= |MissingNumbers(r.memory.past.packets, r.groups[h].entries)|
    {
      LostIsNotShared(d, r.memory.past, id, n, order[n], h, lost);
      StoringUnlisted(r.groups[h].entries, r.memory.past, d.memory.past.packets, id, lost, data);
    }
  }

  lemma RetryRemembers(d: Desk, r: Desk, id: PacketId, g: GroupId, n: nat, remote: Address)
    requires n < |d.groups| <= 256 && Remembers(d, r.memory.past, id, n)
    ensures Remembers(d, Retried(r, g, remote).memory.past, id, n + 1)
  {
    RemembersStill(d, r.memory.past, id, n);
    if g in r.groups && Covered(r.groups[g]) && Recoverable(r.memory.past.packets, r.groups[g]) {
      var packets, group := r.memory.past.packets, r.groups[g];
      RemembersMore(d, r.memory.past, id, n, Lost(packets, group).id, Rebuilt(packets, group));
    }
  }

  lemma RetryUntouches(d: Desk, r: Desk, id: PacketId, order: seq<GroupId>, n: nat, remote: Address, after: Desk)
    requires n < |order| && NoRepeatedGroups(order) && order[n] in r.groups && after == Retried(r, order[n], remote)
    requires Separate(d, id) && Remembers(d, r.memory.past, id, n) && Untouched(d, r, id, order, n)
    ensures Untouched(d, after, id, order, n + 1)
  {
    var group, packets := r.groups[order[n]], r.memory.past.packets;
    if Covered(group) && Recoverable(packets, group) {
      var lost := Lost(packets, group).id;
      assert Contains(group, lost);
      RebuildUntouches(d, r, id, order, n, after, lost, Rebuilt(packets, group));
    } else {
      FailureUntouches(d, r, id, order, n, after);
    }
  }

  /** A retry that rebuilds nothing drops its group, or leaves it lacking two. */
  lemma FailureUntouches(d: Desk, r: Desk, id: PacketId, order: seq<GroupId>, n: nat, after: Desk)
    requires n < |order| && Untouched(d, r, id, order, n) && order[n] in r.groups && after.memory == r.memory
    requires after.groups == if |MissingNumbers(r.memory.past.packets, r.groups[order[n]].entries)| <= 1
                             then r.groups - {order[n]} else r.groups
    ensures Untouched(d, after, id, order, n + 1)
  {
  }

  lemma OneMoreRetry(start: Desk, order: seq<GroupId>, n: nat, remote: Address)
    requires n < |order|
    ensures RetriedAll(start, order[..n + 1], remote) ==
            Retried(RetriedAll(start, order[..n], remote), order[n], remote)
  {
    assert order[..n + 1][..n] == order[..n];
  }

  ghost predicate Waits(groups: Groups, order: seq<GroupId>) {
    forall g :: g in order ==> g in groups
  }

  /** A group whose turn has not come still waits. */
  lemma StillWaits(d: Desk, start: Desk, order: seq<GroupId>, n: nat, remote: Address)
    requires n < |order| && NoRepeatedGroups(order) && start.groups == d.groups
    requires Waits(d.groups, order)
    ensures order[n] in RetriedAll(start, order[..n], remote).groups
  {
    RetriesTouchOnlyTheirs(start, order[..n], remote);
    assert order[n] in order && order[n] !in order[..n];
  }

  /** One turn of a pass: both facts go on to the next. */
  lemma PassTurn(d: Desk, r: Desk, id: PacketId, order: seq<GroupId>, n: nat, remote: Address, after: Desk)
    requires n < |order| <= |d.groups| <= 256 && NoRepeatedGroups(order) && Separate(d, id)
    requires order[n] in r.groups && after == Retried(r, order[n], remote)
    requires Remembers(d, r.memory.past, id, n) && Untouched(d, r, id, order, n)
    ensures Remembers(d, after.memory.past, id, n + 1) && Untouched(d, after, id, order, n + 1)
  {
    RetryRemembers(d, r, id, order[n], n, remote);
    RetryUntouches(d, r, id, order, n, remote, after);
  }

  lemma PassNext(d: Desk, start: Desk, id: PacketId, order: seq<GroupId>, n: nat, remote: Address, r: Desk)
    returns (after: Desk)
    requires n < |order| <= |d.groups| <= 256 && NoRepeatedGroups(order) && Waits(d.groups, order) && Separate(d, id)
    requires start.groups == d.groups && r == RetriedAll(start, order[..n], remote)
    requires Remembers(d, r.memory.past, id, n) && Untouched(d, r, id, order, n)
    ensures after == RetriedAll(start, order[..n + 1], remote)
    ensures Remembers(d, after.memory.past, id, n + 1) && Untouched(d, after, id, order, n + 1)
  {
    StillWaits(d, start, order, n, remote);
    OneMoreRetry(start, order, n, remote);
    after := Retried(r, order[n], remote);
    PassTurn(d, r, id, order, n, remote, after);
  }

  lemma PassUntouches(d: Desk, start: Desk, id: PacketId, order: seq<GroupId>, remote: Address)
    requires NoRepeatedGroups(order) && Waits(d.groups, order) && Separate(d, id)
    requires |order| <= |d.groups| <= 256 && start.groups == d.groups
    requires Remembers(d, start.memory.past, id, 0) && Untouched(d, start, id, order, 0)
    ensures Untouched(d, RetriedAll(start, order, remote), id, order, |order|)
  {
    var r := start;
    assert order[..0] == [];
    for i := 0 to |order|
      invariant r == RetriedAll(start, order[..i], remote)
      invariant Remembers(d, r.memory.past, id, i) && Untouched(d, r, id, order, i)
    {
      r := PassNext(d, start, id, order, i, remote, r);
    }
    assert order[..|order|] == order;
  }

  lemma NewPacketIsRecent(d: Desk, id: PacketId, data: seq<byte>)
    requires Exact(d.memory.past) && id !in d.memory.past.packets && |d.groups| <= 256
    ensures Remembers(d, Stored(d.memory.past, id, data), id, 0)
  {
    StoredExact(d.memory.past, id, data);
    NewIsRecent(d.memory.past, id, data, Margin(d) + 1);
    forall p | Lasts(d, p) ensures Stays(d, Stored(d.memory.past, id, data), p, 0) {
      StoredRecent(d.memory.past, p, Margin(d), id, data);
    }
  }

  /** Groups that lack two packets do nothing at their turn. */
  lemma {:induction false} UnripeDoNothing(start: Desk, order: seq<GroupId>, remote: Address)
    requires forall g :: g in order && g in start.groups ==> !Ripe(start.memory.past.packets, start.groups[g])
    ensures RetriedAll(start, order, remote) == start
  {
    if order != [] {
      var n := |order| - 1;
      UnripeDoNothing(start, order[..n], remote);
      assert order[n] in order;
    }
  }

  /**
   * If two waiting groups share no packet but the one that arrives (or only held ones that will not be pushed
   * out), then after the arrival, whatever the order of the retries, no group is left that
   * lacks at most one packet.
   */
  lemma SeparateGroupsStaySettled(d: Desk, id: PacketId, data: seq<byte>, streams: Streams, order: seq<GroupId>,
                                  remote: Address)
    requires Exact(d.memory.past) && |d.groups| <= 256 && Settled(d.memory.past.packets, d.groups)
    requires Awaiting(d.groups, order, id) && Separate(d, id)
    ensures var r := RetriedAll(WithPacket(d, id, data, streams), order, remote);
            Settled(r.memory.past.packets, r.groups)
  {
    var start := WithPacket(d, id, data, streams);
    if id in d.memory.past.packets {
      UnripeDoNothing(start, order, remote);
    } else {
      NewPacketIsRecent(d, id, data);
      StoredHolds(d.memory.past, id, data);
      NoRepeatedGroupsSize(order, d.groups.Keys);
      assert |d.groups| == |d.groups.Keys|;
      PassUntouches(d, start, id, order, remote);
      PassSettles(d, RetriedAll(start, order, remote), id, order);
    }
  }

  lemma PassSettles(d: Desk, r: Desk, id: PacketId, order: seq<GroupId>)
    requires Settled(d.memory.past.packets, d.groups) && Awaiting(d.groups, order, id)
    requires Untouched(d, r, id, order, |order|)
    ensures Settled(r.memory.past.packets, r.groups)
  {
    forall h | h in r.groups ensures |MissingNumbers(r.memory.past.packets, r.groups[h].entries)| >= 2 {
      if h in order {
        var i :| 0 <= i < |order| && order[i] == h;
      } else {
        assert !Contains(d.groups[h], id);
        LacksNoLess(r.groups[h].entries, r.memory.past.packets, d.memory.past.packets);
      }
    }
  }

  // ---- The exact condition ----

  predicate Lists(groups: Groups, p: PacketId) {
    exists g :: g in groups && Contains(groups[g], p)
  }

  /** No packet of a waiting group is about to be pushed out of the history. */
  ghost predicate Lasting(d: Desk) {
    forall p :: Lists(d.groups, p) && p in d.memory.past.packets ==> Lasts(d, p)
  }

  ghost predicate Yields(packets: Packets, group: Group) {
    Covered(group) && Recoverable(packets, group)
  }

  /** What the waiting groups can rebuild at once. */
  ghost function Gains(packets: Packets, groups: Groups): set<PacketId> {
    set g | g in groups && Yields(packets, groups[g]) :: Lost(packets, groups[g]).id
  }

  /** The packets held once all of that is rebuilt; only which they are matters here. */
  ghost function Filled(packets: Packets, groups: Groups): Packets {
    packets + map p | p in Gains(packets, groups) :: []
  }

  /** No group that is not done with at once comes within one packet by what the others rebuild. */
  ghost predicate NoneComesClose(packets: Packets, groups: Groups) {
    forall g :: g in groups && !Ripe(packets, groups[g]) ==> !Ripe(Filled(packets, groups), groups[g])
  }

  /** `now`, after n retries: of the packets the groups list, those of `base` are held as they were, and stay. */
  ghost predicate Keeps(d: Desk, base: Packets, now: History, n: nat) {
    && Exact(now)
    && forall p :: Lists(d.groups, p) ==>
         && (p in base || p in now.packets ==> Stays(d, now, p, n))
         && (p in base && p in now.packets ==> now.packets[p] == base[p])
  }

  /** And none are held but what the groups can rebuild at once. */
  ghost predicate Tracks(d: Desk, base: Packets, now: History, n: nat) {
    && Keeps(d, base, now, n)
    && forall p :: Lists(d.groups, p) && p in now.packets ==> p in base || p in Gains(base, d.groups)
  }

  lemma EntryIsListed(groups: Groups, g: GroupId, k: nat)
    requires g in groups && k < |groups[g].entries|
    ensures Lists(groups, groups[g].entries[k].id)
  {
    assert Contains(groups[g], groups[g].entries[k].id);
  }

  /** What a group holds before the pass it still holds. */
  lemma KeepsGroup(d: Desk, base: Packets, now: History, n: nat, g: GroupId)
    requires Keeps(d, base, now, n) && g in d.groups
    ensures forall k :: 0 <= k < |d.groups[g].entries| ==>
              var p := d.groups[g].entries[k].id;
              p in base ==> p in now.packets && now.packets[p] == base[p]
    ensures |MissingNumbers(now.packets, d.groups[g].entries)| <= |MissingNumbers(base, d.groups[g].entries)|
  {
    var entries := d.groups[g].entries;
    forall k | 0 <= k < |entries| && entries[k].id in base
      ensures entries[k].id in now.packets && now.packets[entries[k].id] == base[entries[k].id]
    {
      EntryIsListed(d.groups, g, k);
      StaysHeld(d, now, entries[k].id, n);
    }
    LacksNoLess(entries, base, now.packets);
  }

  /** And more only of what can be rebuilt. */
  lemma TracksGroup(d: Desk, base: Packets, now: History, n: nat, g: GroupId)
    requires Tracks(d, base, now, n) && g in d.groups
    ensures |MissingNumbers(now.packets, d.groups[g].entries)| <= |MissingNumbers(base, d.groups[g].entries)|
    ensures |MissingNumbers(now.packets, d.groups[g].entries)|
         >= |MissingNumbers(Filled(base, d.groups), d.groups[g].entries)|
  {
    var entries := d.groups[g].entries;
    KeepsGroup(d, base, now, n, g);
    forall k | 0 <= k < |entries| && entries[k].id in now.packets
      ensures entries[k].id in Filled(base, d.groups)
    {
      EntryIsListed(d.groups, g, k);
    }
    LacksNoLess(entries, now.packets, Filled(base, d.groups));
  }

  /** A group that is ripe from the start can be rebuilt at its turn exactly if it could and nobody else did it. */
  lemma YieldsTheSame(d: Desk, base: Packets, now: History, n: nat, g: GroupId)
    requires Keeps(d, base, now, n) && g in d.groups && Ripe(base, d.groups[g])
    ensures Yields(now.packets, d.groups[g]) ==>
              Yields(base, d.groups[g]) && Lost(now.packets, d.groups[g]).id == Lost(base, d.groups[g]).id
    ensures Yields(base, d.groups[g]) && Lost(base, d.groups[g]).id !in now.packets ==> Yields(now.packets, d.groups[g])
  {
    var group := d.groups[g];
    KeepsGroup(d, base, now, n, g);
    if Yields(now.packets, group) {
      LostIsUnique(base, group.entries, LostIndex(now.packets, group.entries));
    } else if Yields(base, group) && Lost(base, group).id !in now.packets {
      var k := LostIndex(base, group.entries);
      SomethingMissing(now.packets, group.entries);
      forall j | 0 <= j < |group.entries| && group.entries[j].id in now.packets
        ensures group.entries[j].id in base
      {
        if group.entries[j].id !in base {
          LostIsUnique(base, group.entries, j);
        }
      }
    }
  }

  lemma KeepsStill(d: Desk, base: Packets, now: History, n: nat)
    requires Keeps(d, base, now, n)
    ensures Keeps(d, base, now, n + 1)
  {
    forall p | Lists(d.groups, p) && (p in base || p in now.packets)
      ensures Stays(d, now, p, n + 1)
    {
      StaysStill(d, now, p, n);
    }
  }

  /** No packet the groups list is pushed out. */
  ghost predicate Grows(groups: Groups, now: History, next: History) {
    forall p :: Lists(groups, p) && p in now.packets ==> p in next.packets
  }

  lemma KeepsRebuilt(d: Desk, base: Packets, now: History, n: nat, lost: PacketId, data: seq<byte>)
    requires Keeps(d, base, now, n) && n < |d.groups| <= 256 && lost !in now.packets && lost !in base
    ensures Keeps(d, base, Stored(now, lost, data), n + 1) && Grows(d.groups, now, Stored(now, lost, data))
  {
    var next := Stored(now, lost, data);
    StoredExact(now, lost, data);
    StoredHolds(now, lost, data);
    forall p | Lists(d.groups, p)
      ensures p in base || p in next.packets ==> Stays(d, next, p, n + 1)
      ensures p in base && p in next.packets ==> next.packets[p] == base[p]
      ensures p in now.packets ==> p in next.packets
    {
      if p == lost {
        NewIsRecent(now, lost, data, Margin(d) + 1 + n + 1);
      } else if p in base || p in now.packets {
        StaysMore(d, now, p, n, lost, data);
        StaysHeld(d, now, p, n);
        StaysHeld(d, next, p, n + 1);
      }
    }
  }

  lemma TracksRebuilt(d: Desk, base: Packets, now: History, n: nat, lost: PacketId, data: seq<byte>)
    requires Tracks(d, base, now, n) && n < |d.groups| <= 256 && lost in Gains(base, d.groups) && lost !in now.packets
    requires lost !in base
    ensures Tracks(d, base, Stored(now, lost, data), n + 1) && Grows(d.groups, now, Stored(now, lost, data))
  {
    KeepsRebuilt(d, base, now, n, lost, data);
    StoredHolds(now, lost, data);
  }

  /** A group whose turn is over: gone if it was ripe, and what it could give back is held. */
  ghost predicate Handled(d: Desk, base: Packets, r: Desk, g: GroupId) {
    && g in d.groups
    && (Ripe(base, d.groups[g]) ==> g !in r.groups)
    && (Yields(base, d.groups[g]) ==> Lost(base, d.groups[g]).id in r.memory.past.packets)
  }

  /** The turn of a group that is ripe, or is never going to be. */
  lemma TracksTurn(d: Desk, base: Packets, r: Desk, g: GroupId, n: nat, remote: Address, after: Desk)
    requires n < |d.groups| <= 256 && Tracks(d, base, r.memory.past, n) && WaitingOf(r.groups, d.groups)
    requires g in r.groups && after == Retried(r, g, remote)
    requires Ripe(base, d.groups[g]) || !Ripe(Filled(base, d.groups), d.groups[g])
    ensures Tracks(d, base, after.memory.past, n + 1) && Grows(d.groups, r.memory.past, after.memory.past)
    ensures Handled(d, base, after, g)
  {
    var now, group := r.memory.past, d.groups[g];
    TracksGroup(d, base, now, n, g);
    KeepsStill(d, base, now, n);
    if Ripe(base, group) {
      YieldsTheSame(d, base, now, n, g);
      if Yields(now.packets, group) {
        var lost := Lost(base, group).id;
        assert lost in Gains(base, d.groups);
        StoredHolds(now, lost, Rebuilt(now.packets, group));
        TracksRebuilt(d, base, now, n, lost, Rebuilt(now.packets, group));
      }
    }
  }

  lemma HandledStays(d: Desk, base: Packets, r: Desk, after: Desk, g: GroupId)
    requires Handled(d, base, r, g) && Grows(d.groups, r.memory.past, after.memory.past)
    requires forall h :: h in after.groups ==> h in r.groups
    ensures Handled(d, base, after, g)
  {
    if Yields(base, d.groups[g]) {
      EntryIsListed(d.groups, g, LostIndex(base, d.groups[g].entries));
    }
  }

  ghost predicate AllHandled(d: Desk, base: Packets, r: Desk, order: seq<GroupId>) {
    forall g :: g in order ==> Handled(d, base, r, g)
  }

  /** One more turn of a pass. */
  lemma TracksNext(d: Desk, base: Packets, start: Desk, order: seq<GroupId>, n: nat, remote: Address, r: Desk)
    returns (after: Desk)
    requires n < |order| <= |d.groups| <= 256 && NoRepeatedGroups(order) && Waits(d.groups, order)
    requires start.groups == d.groups && r == RetriedAll(start, order[..n], remote)
    requires Tracks(d, base, r.memory.past, n) && AllHandled(d, base, r, order[..n])
    requires order[n] in d.groups
    requires Ripe(base, d.groups[order[n]]) || !Ripe(Filled(base, d.groups), d.groups[order[n]])
    ensures after == RetriedAll(start, order[..n + 1], remote)
    ensures Tracks(d, base, after.memory.past, n + 1) && AllHandled(d, base, after, order[..n + 1])
  {
    StillWaits(d, start, order, n, remote);
    OneMoreRetry(start, order, n, remote);
    RetriesTouchOnlyTheirs(start, order[..n], remote);
    after := Retried(r, order[n], remote);
    TracksTurn(d, base, r, order[n], n, remote, after);
    forall g | g in order[..n + 1] ensures Handled(d, base, after, g) {
      if g != order[n] {
        assert g in order[..n];
        HandledStays(d, base, r, after, g);
      }
    }
  }

  lemma TracksPass(d: Desk, base: Packets, start: Desk, order: seq<GroupId>, remote: Address)
    requires NoRepeatedGroups(order) && Waits(d.groups, order) && |order| <= |d.groups| <= 256
    requires start.groups == d.groups && Tracks(d, base, start.memory.past, 0)
    requires forall g :: g in order ==> Ripe(base, d.groups[g]) || !Ripe(Filled(base, d.groups), d.groups[g])
    ensures var r := RetriedAll(start, order, remote);
            Tracks(d, base, r.memory.past, |order|) && AllHandled(d, base, r, order)
  {
    var r := start;
    assert order[..0] == [];
    for n := 0 to |order|
      invariant r == RetriedAll(start, order[..n], remote)
      invariant Tracks(d, base, r.memory.past, n) && AllHandled(d, base, r, order[..n])
    {
      r := TracksNext(d, base, start, order, n, remote, r);
    }
    assert order[..|order|] == order;
  }

  /** Where the pass starts: the packets the groups list are those held before, and the new one. */
  lemma TracksFromTheStart(d: Desk, id: PacketId, data: seq<byte>)
    requires Exact(d.memory.past) && |d.groups| <= 256 && Lasting(d) && id !in d.memory.past.packets
    ensures Tracks(d, d.memory.past.packets[id := data], Stored(d.memory.past, id, data), 0)
  {
    var past := Stored(d.memory.past, id, data);
    NewPacketIsRecent(d, id, data);
    StoredHolds(d.memory.past, id, data);
    forall p | Lists(d.groups, p) && (p in d.memory.past.packets || p == id || p in past.packets)
      ensures Stays(d, past, p, 0)
    {
      assert p == id || Lasts(d, p);
    }
  }

  /** A group that does not list the packet is not ripe for it. */
  lemma RipeGroupsListIt(d: Desk, id: PacketId, data: seq<byte>, g: GroupId)
    requires Settled(d.memory.past.packets, d.groups) && g in d.groups
    requires Ripe(d.memory.past.packets[id := data], d.groups[g])
    ensures Contains(d.groups[g], id)
  {
    if !Contains(d.groups[g], id) {
      LacksNoLess(d.groups[g].entries, d.memory.past.packets[id := data], d.memory.past.packets);
      assert false;
    }
  }

  /** Under the condition, no group is left lacking at most one, whatever the order. */
  lemma NoneCloseSettles(d: Desk, id: PacketId, data: seq<byte>, start: Desk, order: seq<GroupId>, remote: Address)
    requires Exact(d.memory.past) && |d.groups| <= 256 && Lasting(d) && id !in d.memory.past.packets
    requires Settled(d.memory.past.packets, d.groups) && Awaiting(d.groups, order, id)
    requires start.groups == d.groups && start.memory.past == Stored(d.memory.past, id, data)
    requires NoneComesClose(d.memory.past.packets[id := data], d.groups)
    ensures var r := RetriedAll(start, order, remote); Settled(r.memory.past.packets, r.groups)
  {
    var base, r := d.memory.past.packets[id := data], RetriedAll(start, order, remote);
    NoRepeatedGroupsSize(order, d.groups.Keys);
    assert |d.groups| == |d.groups.Keys|;
    TracksFromTheStart(d, id, data);
    TracksPass(d, base, start, order, remote);
    RetriesTouchOnlyTheirs(start, order, remote);
    forall g | g in r.groups ensures |MissingNumbers(r.memory.past.packets, r.groups[g].entries)| >= 2 {
      if Ripe(base, d.groups[g]) {
        RipeGroupsListIt(d, id, data, g);
        assert false;
      }
      TracksGroup(d, base, r.memory.past, |order|, g);
    }
  }

  // The other half: an order that takes the groups that are not ripe first, when they can do nothing.

  lemma {:induction false} ListOf(groups: set<GroupId>) returns (order: seq<GroupId>)
    ensures NoRepeatedGroups(order) && forall g :: g in order <==> g in groups
    decreases groups
  {
    if groups == {} {
      order := [];
    } else {
      var g :| g in groups;
      order := ListOf(groups - {g});
      order := order + [g];
    }
  }

  lemma RetriedLast(start: Desk, order: seq<GroupId>, g: GroupId, remote: Address)
    ensures RetriedAll(start, order + [g], remote) == Retried(RetriedAll(start, order, remote), g, remote)
  {
    assert (order + [g])[..|order|] == order;
  }

  lemma {:induction false} RetriedInTurn(start: Desk, first: seq<GroupId>, second: seq<GroupId>, remote: Address)
    ensures RetriedAll(start, first + second, remote) == RetriedAll(RetriedAll(start, first, remote), second, remote)
    decreases |second|
  {
    if second == [] {
      assert first + second == first;
    } else {
      var n := |second| - 1;
      RetriedInTurn(start, first, second[..n], remote);
      RetriedLast(start, first + second[..n], second[n], remote);
      assert first + second == first + second[..n] + [second[n]];
    }
  }

  lemma NoRepeatsJoined(first: seq<GroupId>, second: seq<GroupId>)
    requires NoRepeatedGroups(first) && NoRepeatedGroups(second) && forall g :: g in first ==> g !in second
    ensures NoRepeatedGroups(first + second)
  {
    forall i, j | 0 <= i < j < |first + second| ensures (first + second)[i] != (first + second)[j] {
      if i < |first| <= j {
        assert first[i] in first && second[j - |first|] in second;
      }
    }
  }

  /** The waiting groups that list the packet, those that are not ripe first. */
  lemma RipeLast(d: Desk, id: PacketId, base: Packets) returns (first: seq<GroupId>, second: seq<GroupId>)
    ensures Awaiting(d.groups, first + second, id) && NoRepeatedGroups(second)
    ensures forall g :: g in first ==> g in d.groups && !Ripe(base, d.groups[g])
    ensures forall g :: g in second <==> g in d.groups && Contains(d.groups[g], id) && Ripe(base, d.groups[g])
  {
    first := ListOf(set g | g in d.groups && Contains(d.groups[g], id) && !Ripe(base, d.groups[g]));
    second := ListOf(set g | g in d.groups && Contains(d.groups[g], id) && Ripe(base, d.groups[g]));
    NoRepeatsJoined(first, second);
  }

  lemma RipeLastPass(d: Desk, base: Packets, start: Desk, first: seq<GroupId>, second: seq<GroupId>, remote: Address)
    requires |d.groups| <= 256 && start.groups == d.groups && Tracks(d, base, start.memory.past, 0)
    requires forall p :: p in start.memory.past.packets ==> p in base
    requires forall g :: g in first ==> g in d.groups && !Ripe(base, d.groups[g])
    requires NoRepeatedGroups(second) && forall g :: g in second ==> g in d.groups && Ripe(base, d.groups[g])
    ensures RetriedAll(start, first + second, remote) == RetriedAll(start, second, remote)
    ensures var r := RetriedAll(start, second, remote);
            Tracks(d, base, r.memory.past, |second|) && AllHandled(d, base, r, second)
  {
    forall g | g in first ensures !Ripe(start.memory.past.packets, start.groups[g]) {
      LacksNoLess(d.groups[g].entries, start.memory.past.packets, base);
    }
    UnripeDoNothing(start, first, remote);
    RetriedInTurn(start, first, second, remote);
    NoRepeatedGroupsSize(second, d.groups.Keys);
    assert |d.groups| == |d.groups.Keys|;
    TracksPass(d, base, start, second, remote);
  }

  /** If that order leaves no group lacking at most one, the condition holds. */
  lemma SettledMeansNoneClose(d: Desk, base: Packets, r: Desk, second: seq<GroupId>)
    requires Tracks(d, base, r.memory.past, |second|) && AllHandled(d, base, r, second)
    requires forall g :: g in d.groups && Ripe(base, d.groups[g]) ==> g in second
    requires forall g :: g in d.groups && !Ripe(base, d.groups[g]) ==> g in r.groups && r.groups[g] == d.groups[g]
    requires Settled(r.memory.past.packets, r.groups)
    ensures NoneComesClose(base, d.groups)
  {
    forall g | g in d.groups && !Ripe(base, d.groups[g]) ensures !Ripe(Filled(base, d.groups), d.groups[g]) {
      var entries := d.groups[g].entries;
      TracksGroup(d, base, r.memory.past, |second|, g);
      forall k | 0 <= k < |entries| && entries[k].id in Filled(base, d.groups)
        ensures entries[k].id in r.memory.past.packets
      {
        if entries[k].id !in base {
          var h :| h in d.groups && Yields(base, d.groups[h]) && Lost(base, d.groups[h]).id == entries[k].id;
          assert Handled(d, base, r, h);
        }
      }
      LacksNoLess(entries, Filled(base, d.groups), r.memory.past.packets);
    }
  }

  lemma EveryOrderMeansNoneClose(d: Desk, id: PacketId, data: seq<byte>, start: Desk, remote: Address)
    requires Exact(d.memory.past) && |d.groups| <= 256 && Lasting(d) && id !in d.memory.past.packets
    requires Settled(d.memory.past.packets, d.groups)
    requires start.groups == d.groups && start.memory.past == Stored(d.memory.past, id, data)
    requires forall order :: Awaiting(d.groups, order, id) ==> SettlesIn(start, order, remote)
    ensures NoneComesClose(d.memory.past.packets[id := data], d.groups)
  {
    var base := d.memory.past.packets[id := data];
    TracksFromTheStart(d, id, data);
    StoredHolds(d.memory.past, id, data);
    var first, second := RipeLast(d, id, base);
    RipeLastPass(d, base, start, first, second, remote);
    assert SettlesIn(start, first + second, remote);
    RetriesTouchOnlyTheirs(start, second, remote);
    forall g | g in d.groups && Ripe(base, d.groups[g]) ensures g in second {
      RipeGroupsListIt(d, id, data, g);
    }
    SettledMeansNoneClose(d, base, RetriedAll(start, second, remote), second);
  }

  /** A packet that was known changes nothing, and the condition holds. */
  lemma KnownPacketSettles(d: Desk, id: PacketId, data: seq<byte>)
    requires Settled(d.memory.past.packets, d.groups) && id in d.memory.past.packets
    ensures NoneComesClose(d.memory.past.packets[id := data], d.groups)
  {
    var base := d.memory.past.packets[id := data];
    forall g | g in d.groups ensures !Ripe(base, d.groups[g]) {
      LacksNoLess(d.groups[g].entries, base, d.memory.past.packets);
    }
    assert Gains(base, d.groups) == {};
    assert Filled(base, d.groups) == base;
  }

  ghost predicate SettlesIn(start: Desk, order: seq<GroupId>, remote: Address) {
    var r := RetriedAll(start, order, remote);
    Settled(r.memory.past.packets, r.groups)
  }

  /**
   * Exactly when recovery needs no cascade. Unless a packet that a waiting group needs is about to be pushed out of
   * the history, a pass leaves every waiting group lacking two packets or more, whatever the order of the retries,
   * if and only if what the groups can rebuild at once brings no further group within one packet.
   */
  lemma EveryOrderSettlesIff(d: Desk, id: PacketId, data: seq<byte>, streams: Streams, remote: Address)
    requires Exact(d.memory.past) && |d.groups| <= 256 && Lasting(d)
    requires Settled(d.memory.past.packets, d.groups)
    ensures (forall order :: Awaiting(d.groups, order, id) ==>
               SettlesIn(WithPacket(d, id, data, streams), order, remote))
        <==> NoneComesClose(d.memory.past.packets[id := data], d.groups)
  {
    var start := WithPacket(d, id, data, streams);
    if id in d.memory.past.packets {
      KnownPacketSettles(d, id, data);
      forall order | Awaiting(d.groups, order, id) ensures SettlesIn(start, order, remote) {
        UnripeDoNothing(start, order, remote);
      }
    } else if NoneComesClose(d.memory.past.packets[id := data], d.groups) {
      forall order | Awaiting(d.groups, order, id) ensures SettlesIn(start, order, remote) {
        NoneCloseSettles(d, id, data, start, order, remote);
      }
    } else if forall order :: Awaiting(d.groups, order, id) ==> SettlesIn(start, order, remote) {
      EveryOrderMeansNoneClose(d, id, data, start, remote);
    }
  }

  // ---- A case ----

  lemma MissingOfTwo(packets: Packets, x: Entry, y: Entry)
    ensures MissingNumbers(packets, [x, y]) ==
              (if x.id in packets then [] else [x.id.sequence]) + (if y.id in packets then [] else [y.id.sequence])
  {
    assert [x, y][..1] == [x] && [x][..0] == [];
    assert MissingNumbers(packets, []) == [];
    assert MissingNumbers(packets, [x]) == if x.id in packets then [] else [x.id.sequence];
  }

  ghost function PairOf(x: PacketId, y: PacketId, parity: seq<byte>, addr: Address): Group
    requires |parity| < 0x1_0000
  {
    Group([Entry(x, |parity|), Entry(y, |parity|)], parity, addr)
  }

  lemma PairListed(x: PacketId, y: PacketId, parity: seq<byte>, addr: Address, p: PacketId)
    requires |parity| < 0x1_0000
    ensures Contains(PairOf(x, y, parity, addr), p) <==> p == x || p == y
    ensures Covered(PairOf(x, y, parity, addr))
  {
    var group := PairOf(x, y, parity, addr);
    assert group.entries[0].id == x && group.entries[1].id == y;
  }

  /** An empty history, and two groups that wait for packets a and b, and for b and c. */
  ghost function TwoPairs(a: PacketId, b: PacketId, c: PacketId, parity: seq<byte>, addr: Address, g: GroupId,
    h: GroupId)
    : Desk
    requires |parity| < 0x1_0000
  {
    Desk(Memory(History(map[], []), map[]), map[g := PairOf(a, b, parity, addr), h := PairOf(b, c, parity, addr)], [])
  }

  lemma FirstPairYields(a: PacketId, b: PacketId, data: seq<byte>, parity: seq<byte>, addr: Address)
    requires a != b && |parity| == |data| < 0x1_0000
    ensures var group := PairOf(a, b, parity, addr);
            Yields(map[a := data], group) && Lost(map[a := data], group).id == b
  {
    var group := PairOf(a, b, parity, addr);
    MissingOfTwo(map[a := data], group.entries[0], group.entries[1]);
    PairListed(a, b, parity, addr, a);
    LostIsUnique(map[a := data], group.entries, 1);
  }

  /**
   * Groups {a, b} and {b, c} wait and packet a arrives. Whatever their contents, b is rebuilt and {a, b} is done
   * with; {b, c} then lacks c alone, could give it back with b held, and is left waiting.
   */
  lemma RebuiltPacketLeavesGroupWaiting(a: PacketId, b: PacketId, c: PacketId, data: seq<byte>, parity: seq<byte>,
                                        addr: Address, g: GroupId, h: GroupId, streams: Streams, remote: Address)
    requires a != b && b != c && a != c && g != h && |parity| == |data| < 0x1_0000
    ensures var d := TwoPairs(a, b, c, parity, addr, g, h);
            var r := RetriedAll(WithPacket(d, a, data, streams), [g], remote);
            && Settled(d.memory.past.packets, d.groups) && Awaiting(d.groups, [g], a)
            && b in r.memory.past.packets && g !in r.groups && h in r.groups
            && MissingNumbers(r.memory.past.packets, r.groups[h].entries) == [c.sequence]
  {
    var d := TwoPairs(a, b, c, parity, addr, g, h);
    var start := WithPacket(d, a, data, streams);
    MissingOfTwo(map[], d.groups[g].entries[0], d.groups[g].entries[1]);
    MissingOfTwo(map[], d.groups[h].entries[0], d.groups[h].entries[1]);
    PairListed(a, b, parity, addr, a);
    PairListed(b, c, parity, addr, a);
    FirstPairYields(a, b, data, parity, addr);
    assert [g][..0] == [];
    var r := Retried(start, g, remote);
    assert RetriedAll(start, [g], remote) == r;
    assert start.memory.past.packets == map[a := data];
    var rebuilt := Rebuilt(map[a := data], d.groups[g]);
    assert r.memory.past.packets == map[a := data][b := rebuilt] && r.groups == d.groups - {g};
    MissingOfTwo(r.memory.past.packets, d.groups[h].entries[0], d.groups[h].entries[1]);
  }

  const TWELVE: seq<byte> := [0, 0, 0, 0, 0, 0, 0, 0, 0, 0, 0, 0]

  /** For instance packets 1, 2 and 3 of one stream, twelve octets each. */
  lemma PacketThreeIsLeft(streams: Streams, remote: Address)
    ensures var me := Identity("ice:a:b");
            var d := TwoPairs(PacketId(me, 0, 1), PacketId(me, 0, 2), PacketId(me, 0, 3), TWELVE, "",
                              GroupId(me, 0, 2), GroupId(me, 0, 3));
            var r := RetriedAll(WithPacket(d, PacketId(me, 0, 1), TWELVE, streams), [GroupId(me, 0, 2)], remote);
            && Awaiting(d.groups, [GroupId(me, 0, 2)], PacketId(me, 0, 1))
            && !Settled(r.memory.past.packets, r.groups)
  {
    var me := Identity("ice:a:b");
    RebuiltPacketLeavesGroupWaiting(PacketId(me, 0, 1), PacketId(me, 0, 2), PacketId(me, 0, 3), TWELVE, TWELVE, "",
                                    GroupId(me, 0, 2), GroupId(me, 0, 3), streams, remote);
  }
}
