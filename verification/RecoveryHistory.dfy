/**
 * The two bounded stores of the recovery layer, seen without their head indexes: the packet
 * history, first in first out, and the parity groups still waiting for packets, whose order
 * may also list groups that are gone or were filed twice.
 */
module RecoveryHistory {
  import opened Basics
  import opened Bytes
  import opened RecoveryWire
  import opened Parity
  import opened GapTracking

  const GROUP_LIMIT := 256

  // ---- Packets ----

  /** The packets held and their ids, oldest first. */
  datatype History = History(packets: Packets, order: seq<PacketId>)

  ghost predicate NoRepeats(order: seq<PacketId>) {
    forall i, j :: 0 <= i < j < |order| ==> order[i] != order[j]
  }

  /** `order` lists every held packet exactly once, and there are at most 4096. */
  ghost predicate Exact(h: History) {
    && NoRepeats(h.order)
    && (forall id :: id in h.packets <==> id in h.order)
    && |h.order| <= HISTORY_SIZE
  }

  /** A known packet changes nothing; a new one is appended, and the oldest of 4097 leaves. */
  ghost function Stored(h: History, id: PacketId, data: seq<byte>): History {
    if id in h.packets then h
    else if |h.order| < HISTORY_SIZE then History(h.packets[id := data], h.order + [id])
    else History(h.packets[id := data] - {h.order[0]}, h.order[1..] + [id])
  }

  lemma StoredExact(h: History, id: PacketId, data: seq<byte>)
    requires Exact(h)
    ensures Exact(Stored(h, id, data))
  {
    if id !in h.packets && |h.order| >= HISTORY_SIZE {
      var first, next := h.order[0], Stored(h, id, data);
      assert first in h.order;
      forall k ensures k in next.packets <==> k in next.order {
        assert k in h.order <==> k == first || k in h.order[1..];
        assert forall j :: 1 <= j < |h.order| ==> h.order[j] != first;
      }
    }
  }

  /** The new packet is held, nothing else appears, and nothing held changes its octets. */
  lemma StoredHolds(h: History, id: PacketId, data: seq<byte>)
    requires Exact(h)
    ensures id in Stored(h, id, data).packets
    ensures forall k :: k in Stored(h, id, data).packets ==>
              if k in h.packets then Stored(h, id, data).packets[k] == h.packets[k]
              else k == id && Stored(h, id, data).packets[k] == data
    ensures forall k :: k in h.packets && (|h.order| < HISTORY_SIZE || k != h.order[0]) ==>
              k in Stored(h, id, data).packets
  {
    if id !in h.packets && |h.order| >= HISTORY_SIZE {
      assert h.order[0] in h.order;
    }
  }

  /** A list without repeats has as many members as entries. */
  lemma {:induction false} NoRepeatsSize(order: seq<PacketId>, held: set<PacketId>)
    requires NoRepeats(order) && forall id :: id in held <==> id in order
    ensures |held| == |order|
  {
    if order == [] {
      assert held == {};
    } else {
      var n := |order| - 1;
      var last := order[n];
      assert last in order;
      forall id ensures id in held - {last} <==> id in order[..n] {
        assert id in order <==> id in order[..n] || id == last;
      }
      NoRepeatsSize(order[..n], held - {last});
      assert |held| == |held - {last}| + 1;
    }
  }

  lemma ExactSize(h: History)
    requires Exact(h)
    ensures |h.packets| == |h.order|
  {
    NoRepeatsSize(h.order, h.packets.Keys);
    assert |h.packets| == |h.packets.Keys|;
  }

  /** A history with one packet more than it had, before anything is pushed out. */
  ghost function Grown(h: History, id: PacketId, data: seq<byte>): History {
    History(h.packets[id := data], h.order + [id])
  }

  lemma GrownSize(h: History, id: PacketId, data: seq<byte>)
    requires Exact(h) && id !in h.packets
    ensures |Grown(h, id, data).packets| == |h.order| + 1
    ensures |Stored(h, id, data).packets| <= HISTORY_SIZE
    ensures |h.order| < HISTORY_SIZE ==> Grown(h, id, data) == Stored(h, id, data)
  {
    ExactSize(h);
    StoredExact(h, id, data);
    ExactSize(Stored(h, id, data));
  }

  /** One turn of the eviction loop of storePacketLocked. */
  lemma PushOut(h: History, id: PacketId, data: seq<byte>, order: seq<PacketId>, head: nat)
    requires Exact(h) && |h.order| == HISTORY_SIZE && id !in h.packets
    requires head < |order| && order[head..] == h.order + [id]
    ensures History(Grown(h, id, data).packets - {order[head]}, order[head + 1..]) == Stored(h, id, data)
  {
    assert order[head] == order[head..][0] == h.order[0];
    assert order[head + 1..] == order[head..][1..] == h.order[1..] + [id];
  }

  /** The eviction loop of storePacketLocked, after `id` was added to the history `h`. */
  method Shed(packets: Packets, order: seq<PacketId>, head: nat, ghost h: History, id: PacketId, ghost data: seq<byte>)
    returns (kept: Packets, next: nat)
    requires Exact(h) && id !in h.packets && head <= |order|
    requires History(packets, order[head..]) == Grown(h, id, data)
    ensures head <= next <= |order| && next <= head + 1
    ensures History(kept, order[next..]) == Stored(h, id, data)
  {
    GrownSize(h, id, data);
    kept, next := packets, head;
    while |kept| > HISTORY_SIZE
      invariant head <= next <= |order| && next <= head + 1
      invariant next == head ==> kept == packets
      invariant next == head + 1 ==> |kept| <= HISTORY_SIZE && History(kept, order[next..]) == Stored(h, id, data)
      decreases |order| - next
    {
      assert next == head && |h.order| == HISTORY_SIZE;
      assert |order[next..]| == |h.order| + 1;
      PushOut(h, id, data, order, next);
      kept := kept - {order[next]};
      next := next + 1;
    }
  }

  // ---- Storing a run of packets ----

  ghost function StoredAll(h: History, run: seq<(PacketId, seq<byte>)>): History
    decreases |run|
  {
    if run == [] then h else StoredAll(Stored(h, run[0].0, run[0].1), run[1..])
  }

  ghost predicate AllNew(h: History, run: seq<(PacketId, seq<byte>)>) {
    && (forall i :: 0 <= i < |run| ==> run[i].0 !in h.packets)
    && (forall i, j :: 0 <= i < j < |run| ==> run[i].0 != run[j].0)
  }

  /** How many of `n` packets followed by `k` new ones are pushed out. */
  function PushedOut(n: nat, k: nat): nat {
    if n + k > HISTORY_SIZE then n + k - HISTORY_SIZE else 0
  }

  ghost function IdsOf(run: seq<(PacketId, seq<byte>)>): (ids: seq<PacketId>)
    ensures |ids| == |run| && forall i :: 0 <= i < |run| ==> ids[i] == run[i].0
  {
    if run == [] then [] else [run[0].0] + IdsOf(run[1..])
  }

  lemma WindowStep(order: seq<PacketId>, id: PacketId, rest: seq<PacketId>)
    requires |order| <= HISTORY_SIZE
    ensures var next := if |order| < HISTORY_SIZE then order + [id] else order[1..] + [id];
            (next + rest)[PushedOut(|next|, |rest|)..] ==
              (order + ([id] + rest))[PushedOut(|order|, 1 + |rest|)..]
  {
    var next := if |order| < HISTORY_SIZE then order + [id] else order[1..] + [id];
    var all := order + ([id] + rest);
    if |order| < HISTORY_SIZE {
      assert next + rest == all;
    } else {
      assert next + rest == all[1..];
    }
  }

  lemma RestIsNew(h: History, run: seq<(PacketId, seq<byte>)>)
    requires Exact(h) && run != [] && AllNew(h, run)
    ensures AllNew(Stored(h, run[0].0, run[0].1), run[1..])
  {
    var next := Stored(h, run[0].0, run[0].1);
    StoredHolds(h, run[0].0, run[0].1);
    forall i | 0 <= i < |run[1..]| ensures run[1..][i].0 !in next.packets {
      assert run[i + 1].0 != run[0].0 && run[i + 1].0 !in h.packets;
    }
  }

  /** After any run of new packets, exactly the latest 4096 are held, in arrival order. */
  lemma {:induction false} HistoryIsAWindow(h: History, run: seq<(PacketId, seq<byte>)>)
    requires Exact(h) && AllNew(h, run)
    ensures Exact(StoredAll(h, run))
    ensures StoredAll(h, run).order == (h.order + IdsOf(run))[PushedOut(|h.order|, |run|)..]
    decreases |run|
  {
    if run != [] {
      StoredExact(h, run[0].0, run[0].1);
      RestIsNew(h, run);
      HistoryIsAWindow(Stored(h, run[0].0, run[0].1), run[1..]);
      WindowStep(h.order, run[0].0, IdsOf(run[1..]));
    }
  }

  // ---- Groups waiting for packets ----

  /** Every outstanding group is listed. */
  ghost predicate Covers(order: seq<GroupId>, groups: set<GroupId>) {
    forall id :: id in groups ==> id in order
  }

  ghost predicate NoRepeatedGroups(order: seq<GroupId>) {
    forall i, j :: 0 <= i < j < |order| ==> order[i] != order[j]
  }

  /** The ids of `order` that are outstanding, each where it first occurs. */
  function FirstSeen(order: seq<GroupId>, groups: set<GroupId>): (r: seq<GroupId>)
    ensures forall id :: id in r <==> id in order && id in groups
    ensures NoRepeatedGroups(r)
  {
    if order == [] then []
    else
      var n := |order| - 1;
      var rest := FirstSeen(order[..n], groups);
      assert forall id :: id in order <==> id in order[..n] || id == order[n];
      if order[n] in groups && order[n] !in rest then rest + [order[n]] else rest
  }

  /** The first listed id that is outstanding. */
  ghost function Oldest(order: seq<GroupId>, groups: set<GroupId>): (id: Option<GroupId>)
    ensures id.None? <==> forall g :: g in order ==> g !in groups
    ensures id.Some? ==> id.value in groups
  {
    if order == [] then None
    else if order[0] in groups then Some(order[0])
    else Oldest(order[1..], groups)
  }

  lemma CoversRest(order: seq<GroupId>, groups: set<GroupId>)
    requires order != [] && Covers(order, groups)
    ensures Covers(order[1..], groups - {order[0]})
  {
    forall id | id in groups - {order[0]} ensures id in order[1..] {
      var i :| 0 <= i < |order| && order[i] == id;
      assert order[1..][i - 1] == id;
    }
  }

  /** The list without repeats is as short as the set it lists. */
  lemma {:induction false} NoRepeatedGroupsSize(order: seq<GroupId>, groups: set<GroupId>)
    requires NoRepeatedGroups(order) && forall id :: id in order ==> id in groups
    ensures |order| <= |groups|
  {
    if order != [] {
      var n := |order| - 1;
      forall id | id in order[..n] ensures id in groups - {order[n]} {
        var i :| 0 <= i < n && order[i] == id;
      }
      NoRepeatedGroupsSize(order[..n], groups - {order[n]});
    }
  }
}
