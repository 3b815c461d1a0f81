/**
 * The parity groups that wait for packets, with their order and its head index
 * (storeGroupLocked in internal/ingest/recovery.go).
 */
module RecoveryShelf {
  import opened Basics
  import opened Identities
  import opened RecoveryWire
  import opened RecoveryHistory
  import opened RecoverySteps

  datatype Shelf = Shelf(groups: Groups, order: seq<GroupId>, head: nat)

  /** At most 256 groups and 512 order entries, and every waiting group is listed from the head on. */
  ghost predicate GroupsOk(groups: Groups, order: seq<GroupId>, head: nat) {
    && head <= |order| <= 2 * GROUP_LIMIT
    && head < GROUP_LIMIT
    && |groups| <= GROUP_LIMIT
    && Covers(order[head..], groups.Keys)
  }

  // ---- Orders with a head index ----

  lemma LiveAppend<T>(order: seq<T>, head: nat, x: T)
    requires head <= |order|
    ensures (order + [x])[head..] == order[head..] + [x]
  {
  }

  lemma LiveWhole<T>(order: seq<T>)
    ensures order[0..] == order
  {
  }

  // ---- One more group is filed ----

  /** A long order is compacted. */
  ghost function Compacted(s: Shelf): (r: Shelf)
    requires s.head <= |s.order|
    ensures r.head <= |r.order|
  {
    if |s.order| < 2 * GROUP_LIMIT then s
    else Shelf(s.groups, FirstSeen(s.order[s.head..], s.groups.Keys), 0)
  }

  /** The eviction loop. */
  ghost function EvictedFrom(s: Shelf): (r: Shelf)
    ensures s.head <= |s.order| ==> r.head <= |r.order|
    decreases |s.order| - s.head
  {
    if |s.groups| <= GROUP_LIMIT || s.head >= |s.order| then s
    else EvictedFrom(Shelf(s.groups - {s.order[s.head]}, s.order, s.head + 1))
  }

  /** A long prefix that is done with is deleted. */
  ghost function Shortened(s: Shelf): (r: Shelf)
    requires s.head <= |s.order|
    ensures r.head <= |r.order|
  {
    if s.head < GROUP_LIMIT then s else Shelf(s.groups, s.order[s.head..], 0)
  }

  /** The group is listed unless it is waiting already, and waits. */
  ghost function Added(s: Shelf, id: GroupId, group: Group): Shelf {
    Shelf(s.groups[id := group], if id in s.groups then s.order else s.order + [id], s.head)
  }

  /** storeGroupLocked */
  ghost function Shelved(s: Shelf, id: GroupId, group: Group): (r: Shelf)
    requires s.head <= |s.order|
    ensures r.head <= |r.order|
  {
    Shortened(EvictedFrom(Added(Compacted(s), id, group)))
  }

  // ---- What that means ----

  /** The order storeGroupLocked works with, from its head on, before it adds the new id. */
  function Tidied(order: seq<GroupId>, head: nat, groups: set<GroupId>): seq<GroupId>
    requires head <= |order|
  {
    if |order| >= 2 * GROUP_LIMIT then FirstSeen(order[head..], groups) else order[head..]
  }

  /** The groups after one more is filed: the first outstanding one in the order makes room for it. */
  ghost function GroupsAfter(groups: Groups, queue: seq<GroupId>, id: GroupId, group: Group): Groups {
    var more := groups[id := group];
    var listed := if id in groups then queue else queue + [id];
    if |more| <= GROUP_LIMIT || Oldest(listed, more.Keys).None? then more
    else more - {Oldest(listed, more.Keys).value}
  }

  lemma CompactedMeans(s: Shelf)
    requires GroupsOk(s.groups, s.order, s.head)
    ensures var r := Compacted(s);
            && r.groups == s.groups && r.order[r.head..] == Tidied(s.order, s.head, s.groups.Keys)
            && |r.order| < 2 * GROUP_LIMIT && GroupsOk(r.groups, r.order, r.head)
  {
    if |s.order| >= 2 * GROUP_LIMIT {
      var order := FirstSeen(s.order[s.head..], s.groups.Keys);
      LiveWhole(order);
      NoRepeatedGroupsSize(order, s.groups.Keys);
      assert |s.groups| == |s.groups.Keys|;
    }
  }

  /** What one turn of the eviction loop does: a listed group goes, a stale id is passed over. */
  lemma EvictTurn(groups: Groups, order: seq<GroupId>, next: nat)
    requires next < |order| && Covers(order[next..], groups.Keys)
    ensures Covers(order[next + 1..], (groups - {order[next]}).Keys)
    ensures order[next] in groups ==>
              Oldest(order[next..], groups.Keys) == Some(order[next]) && |groups - {order[next]}| == |groups| - 1
    ensures order[next] !in groups ==>
              && Oldest(order[next..], groups.Keys) == Oldest(order[next + 1..], groups.Keys)
              && groups - {order[next]} == groups
  {
    assert order[next..][0] == order[next] && order[next..][1..] == order[next + 1..];
    CoversRest(order[next..], groups.Keys);
    assert (groups - {order[next]}).Keys == groups.Keys - {order[next]};
    if order[next] in groups {
      SizeWithout(groups, order[next]);
    }
  }

  lemma SomeListed(order: seq<GroupId>, groups: set<GroupId>)
    requires Covers(order, groups) && |groups| > 0
    ensures order != []
  {
    var id :| id in groups;
  }

  /** Of 257 groups exactly the first listed one goes, and the others stay listed. */
  lemma {:induction false} EvictedMeans(s: Shelf)
    requires s.head <= |s.order| && Covers(s.order[s.head..], s.groups.Keys) && |s.groups| <= GROUP_LIMIT + 1
    ensures var r, oldest := EvictedFrom(s), Oldest(s.order[s.head..], s.groups.Keys);
            && r.order == s.order && s.head <= r.head <= |r.order|
            && Covers(r.order[r.head..], r.groups.Keys) && |r.groups| <= GROUP_LIMIT
            && (|s.groups| > GROUP_LIMIT ==> oldest.Some? && r.groups == s.groups - {oldest.value})
            && (|s.groups| <= GROUP_LIMIT ==> r == s)
    decreases |s.order| - s.head
  {
    if |s.groups| > GROUP_LIMIT {
      SomeListed(s.order[s.head..], s.groups.Keys);
      EvictTurn(s.groups, s.order, s.head);
      var next := Shelf(s.groups - {s.order[s.head]}, s.order, s.head + 1);
      assert EvictedFrom(s) == EvictedFrom(next);
      if s.order[s.head] in s.groups {
        EvictDone(next);
      } else {
        EvictedMeans(next);
      }
    }
  }

  lemma AddedMeans(s: Shelf, id: GroupId, group: Group)
    requires GroupsOk(s.groups, s.order, s.head)
    ensures var r, queue := Added(s, id, group), s.order[s.head..];
            && r.order[r.head..] == (if id in s.groups then queue else queue + [id])
            && Covers(r.order[r.head..], r.groups.Keys) && |r.groups| <= GROUP_LIMIT + 1
  {
    LiveAppend(s.order, s.head, id);
    SizeWith(s.groups, id, group);
  }

  lemma ShortenedMeans(s: Shelf)
    requires s.head <= |s.order| <= 2 * GROUP_LIMIT && |s.groups| <= GROUP_LIMIT
             && Covers(s.order[s.head..], s.groups.Keys)
    ensures GroupsOk(Shortened(s).groups, Shortened(s).order, Shortened(s).head)
  {
    LiveWhole(s.order[s.head..]);
  }

  /** Filing keeps the order covering and bounded, and pushes out at most the first listed group. */
  lemma ShelvedMeans(s: Shelf, id: GroupId, group: Group)
    requires GroupsOk(s.groups, s.order, s.head)
    ensures var r := Shelved(s, id, group);
            && GroupsOk(r.groups, r.order, r.head)
            && r.groups == GroupsAfter(s.groups, Tidied(s.order, s.head, s.groups.Keys), id, group)
  {
    CompactedMeans(s);
    AddAndEvict(Compacted(s), id, group);
  }

  lemma AddAndEvict(s: Shelf, id: GroupId, group: Group)
    requires GroupsOk(s.groups, s.order, s.head) && |s.order| < 2 * GROUP_LIMIT
    ensures var r := Shortened(EvictedFrom(Added(s, id, group)));
            && GroupsOk(r.groups, r.order, r.head)
            && r.groups == GroupsAfter(s.groups, s.order[s.head..], id, group)
  {
    AddedMeans(s, id, group);
    EvictedMeans(Added(s, id, group));
    ShortenedMeans(EvictedFrom(Added(s, id, group)));
  }

  /** Groups may go without the order hearing of it. */
  lemma FewerGroups(fewer: Groups, groups: Groups, order: seq<GroupId>, head: nat)
    requires GroupsOk(groups, order, head) && forall id :: id in fewer ==> id in groups
    ensures GroupsOk(fewer, order, head)
  {
    SubsetSize(fewer.Keys, groups.Keys);
    assert |fewer| == |fewer.Keys| && |groups| == |groups.Keys|;
  }

  // ---- The loops ----

  /** Compaction of storeGroupLocked: outstanding groups only, each once, in order. */
  method Compact(order: seq<GroupId>, groups: Groups) returns (r: seq<GroupId>)
    ensures r == FirstSeen(order, groups.Keys)
  {
    r := [];
    var seen: set<GroupId> := {};
    for i := 0 to |order|
      invariant r == FirstSeen(order[..i], groups.Keys)
      invariant forall id :: id in seen <==> id in r
    {
      assert order[..i + 1][..i] == order[..i];
      if order[i] in groups && order[i] !in seen {
        r := r + [order[i]];
        seen := seen + {order[i]};
      }
    }
    assert order[..|order|] == order;
  }

  /** One turn of the eviction loop; coverage keeps the index inside the order. */
  lemma EvictStep(groups: Groups, order: seq<GroupId>, next: nat)
    requires next <= |order| && Covers(order[next..], groups.Keys) && |groups| > GROUP_LIMIT
    ensures next < |order| && Covers(order[next + 1..], (groups - {order[next]}).Keys)
    ensures EvictedFrom(Shelf(groups, order, next)) == EvictedFrom(Shelf(groups - {order[next]}, order, next + 1))
  {
    SomeListed(order[next..], groups.Keys);
    EvictTurn(groups, order, next);
  }

  lemma EvictDone(s: Shelf)
    requires |s.groups| <= GROUP_LIMIT
    ensures EvictedFrom(s) == s
  {
  }

  /** The eviction loop of storeGroupLocked. */
  method Evict(groups: Groups, order: seq<GroupId>, head: nat) returns (kept: Groups, next: nat)
    requires head <= |order| && Covers(order[head..], groups.Keys)
    ensures Shelf(kept, order, next) == EvictedFrom(Shelf(groups, order, head))
  {
    ghost var done := EvictedFrom(Shelf(groups, order, head));
    kept, next := groups, head;
    while |kept| > GROUP_LIMIT
      invariant next <= |order| && Covers(order[next..], kept.Keys)
      invariant EvictedFrom(Shelf(kept, order, next)) == done
      decreases |order| - next
    {
      EvictStep(kept, order, next);
      kept := kept - {order[next]};
      next := next + 1;
    }
    EvictDone(Shelf(kept, order, next));
  }

  /** storeGroupLocked, on the map, the order and the head index. */
  method Shelve(groups: Groups, order: seq<GroupId>, head: nat, id: GroupId, group: Group)
    returns (kept: Groups, listed: seq<GroupId>, next: nat)
    requires GroupsOk(groups, order, head)
    ensures Shelf(kept, listed, next) == Shelved(Shelf(groups, order, head), id, group)
  {
    CompactedMeans(Shelf(groups, order, head));
    AddedMeans(Compacted(Shelf(groups, order, head)), id, group);
    listed, next := order, head;
    if |order| >= 2 * GROUP_LIMIT {
      listed := Compact(order[head..], groups);
      next := 0;
    }
    if id !in groups {
      listed := listed + [id];
    }
    kept, next := Evict(groups[id := group], listed, next);
    if next >= GROUP_LIMIT {
      listed, next := listed[next..], 0;
    }
  }

  // ---- Not quite first in, first out ----

  lemma {:induction false} OldestAppend(order: seq<GroupId>, id: GroupId, groups: set<GroupId>)
    requires Oldest(order, groups).Some?
    ensures Oldest(order + [id], groups) == Oldest(order, groups)
  {
    if order[0] !in groups {
      OldestAppend(order[1..], id, groups);
      assert (order + [id])[1..] == order[1..] + [id];
    }
  }

  /**
   * When 256 groups wait, a new one is pushed out at once exactly when the order still lists an
   * earlier filing of it before every group that waits.
   */
  lemma NewGroupStaysUnlessRefiled(groups: Groups, queue: seq<GroupId>, id: GroupId, group: Group)
    requires |groups| == GROUP_LIMIT && id !in groups && Covers(queue, groups.Keys)
    ensures id in GroupsAfter(groups, queue, id, group) <==> Oldest(queue, groups.Keys + {id}) != Some(id)
  {
    SizeWith(groups, id, group);
    assert groups[id := group].Keys == groups.Keys + {id};
    assert groups.Keys != {} by {
      assert |groups| == |groups.Keys|;
    }
    var waiting :| waiting in groups.Keys;
    assert waiting in queue;
    OldestAppend(queue, id, groups.Keys + {id});
  }

  ghost function ShelvedAll(s: Shelf, ids: seq<GroupId>, group: Group): (r: Shelf)
    requires s.head <= |s.order|
    ensures r.head <= |r.order|
  {
    if ids == [] then s
    else Shelved(ShelvedAll(s, ids[..|ids| - 1], group), ids[|ids| - 1], group)
  }

  /** With room left and a short order, filing a new group only adds it. */
  lemma RoomyShelf(s: Shelf, id: GroupId, group: Group)
    requires s.head == 0 && |s.order| < 2 * GROUP_LIMIT && |s.groups| < GROUP_LIMIT && id !in s.groups
    ensures Shelved(s, id, group) == Shelf(s.groups[id := group], s.order + [id], 0)
    ensures |Shelved(s, id, group).groups| == |s.groups| + 1
  {
    SizeWith(s.groups, id, group);
  }

  /** With no room left and a stale listing of the group in front, filing it does not keep it. */
  lemma FullShelf(s: Shelf, id: GroupId, group: Group)
    requires s.head == 0 && 0 < |s.order| < 2 * GROUP_LIMIT && |s.groups| == GROUP_LIMIT
    requires id !in s.groups && s.order[0] == id
    ensures Shelved(s, id, group).groups == s.groups
  {
    SizeWith(s.groups, id, group);
    var more := Added(s, id, group);
    assert more.order[0] == id && more.groups - {id} == s.groups;
    assert EvictedFrom(more) == EvictedFrom(Shelf(s.groups, more.order, 1));
  }

  ghost predicate HoldsExactly(groups: Groups, ids: seq<GroupId>) {
    |groups| == |ids| && forall id :: id in groups <==> id in ids
  }

  lemma Prepended(g: GroupId, ids: seq<GroupId>, n: nat)
    requires |ids| == n + 1
    ensures [g] + ids[..n] + [ids[n]] == [g] + ids
    ensures forall id :: id in ids <==> id in ids[..n] || id == ids[n]
  {
    assert ids == ids[..n] + [ids[n]];
  }

  /** Up to 256 different groups filed behind one that was completed only lengthen the order. */
  lemma {:induction false} OthersAreShelved(g: GroupId, ids: seq<GroupId>, group: Group)
    requires |ids| <= GROUP_LIMIT && NoRepeatedGroups(ids) && g !in ids
    ensures var r := ShelvedAll(Shelf(map[], [g], 0), ids, group);
            r.order == [g] + ids && r.head == 0 && HoldsExactly(r.groups, ids)
  {
    if ids != [] {
      var n := |ids| - 1;
      OthersAreShelved(g, ids[..n], group);
      assert ids[n] !in ids[..n];
      RoomyShelf(ShelvedAll(Shelf(map[], [g], 0), ids[..n], group), ids[n], group);
      Prepended(g, ids, n);
    } else {
      assert [g] + ids == [g];
    }
  }

  /** A group is filed on an empty shelf and completed, as recoverPendingLocked does. */
  ghost function Completed(g: GroupId, group: Group): (s: Shelf)
    ensures g !in s.groups && s.head <= |s.order|
  {
    var filed := Shelved(Shelf(map[], [], 0), g, group);
    filed.(groups := filed.groups - {g})
  }

  /** File a group, complete it, file 256 others, file it again: it is gone, and the older 256 are there. */
  lemma RefiledGroupIsLost(g: GroupId, ids: seq<GroupId>, group: Group)
    requires |ids| == GROUP_LIMIT && NoRepeatedGroups(ids) && g !in ids
    ensures var full := ShelvedAll(Completed(g, group), ids, group);
            HoldsExactly(full.groups, ids) && Shelved(full, g, group).groups == full.groups
  {
    RoomyShelf(Shelf(map[], [], 0), g, group);
    assert [] + [g] == [g] && map[g := group] - {g} == map[];
    OthersAreShelved(g, ids, group);
    FullShelf(ShelvedAll(Completed(g, group), ids, group), g, group);
  }

  /** Group ids that end in packets 1 to n of one stream. */
  function Numbered(n: nat): (ids: seq<GroupId>)
    requires n < 0x1_0000
    ensures |ids| == n && forall i :: 0 <= i < n ==> ids[i] == GroupId(Identity(""), 0, i + 1)
  {
    if n == 0 then [] else Numbered(n - 1) + [GroupId(Identity(""), 0, n)]
  }

  /** For instance the group that ends in packet 0, with those of packets 1 to 256 filed in between. */
  lemma GroupZeroIsLost(group: Group)
    ensures var g := GroupId(Identity(""), 0, 0);
            g !in Shelved(ShelvedAll(Completed(g, group), Numbered(256), group), g, group).groups
  {
    var g := GroupId(Identity(""), 0, 0);
    assert g !in Numbered(256);
    RefiledGroupIsLost(g, Numbered(256), group);
  }
}
