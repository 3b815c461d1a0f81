/**
 * The hand-written heap that orders a track's queue by playout time and, within one frame,
 * by arrival (internal/relay/delay.go, packetHeap).
 */
module PlayoutHeap {
  import opened Bytes

  /** What the scheduler looks at of an RTP packet; whether it is a keyframe is up to the codec. */
  datatype RtpPacket = RtpPacket(timestamp: uint32, sequence: uint16, keyframe: bool)

  datatype Buffered = Buffered(pkt: RtpPacket, playAt: int, order: nat)

  type Queue = seq<Buffered>

  predicate Before(a: Buffered, b: Buffered) {
    if a.playAt == b.playAt then a.order < b.order else a.playAt < b.playAt
  }

  function Parent(i: nat): nat
    requires i > 0
  {
    (i - 1) / 2
  }

  /** No item is due before its parent. */
  ghost predicate Heap(h: Queue) {
    forall i :: 0 < i < |h| ==> !Before(h[i], h[Parent(i)])
  }

  function Swap(h: Queue, i: nat, j: nat): (r: Queue)
    requires i < |h| && j < |h|
    ensures |r| == |h| && multiset(r) == multiset(h)
  {
    h[i := h[j]][j := h[i]]
  }

  // ----- push

  function SiftUp(h: Queue, child: nat): (r: Queue)
    requires child < |h|
    ensures |r| == |h| && multiset(r) == multiset(h)
    decreases child
  {
    if child == 0 || !Before(h[child], h[Parent(child)]) then h
    else SiftUp(Swap(h, child, Parent(child)), Parent(child))
  }

  /** Where the item starting at `child` comes to rest. */
  function Rest(h: Queue, child: nat): nat
    requires child < |h|
    decreases child
  {
    if child == 0 || !Before(h[child], h[Parent(child)]) then child
    else Rest(Swap(h, child, Parent(child)), Parent(child))
  }

  function Pushed(h: Queue, item: Buffered): Queue {
    SiftUp(h + [item], |h|)
  }

  /** A heap but for the item at `child`, which may belong further up. */
  ghost predicate HeapBut(h: Queue, child: nat) {
    && (forall i :: 0 < i < |h| && i != child ==> !Before(h[i], h[Parent(i)]))
    && (forall i :: 0 < i < |h| && 0 < child && Parent(i) == child ==> !Before(h[i], h[Parent(child)]))
  }

  lemma {:induction false} SiftUpRestores(h: Queue, child: nat)
    requires child < |h| && HeapBut(h, child)
    ensures Heap(SiftUp(h, child))
    decreases child
  {
    if child > 0 && Before(h[child], h[Parent(child)]) {
      var up := Swap(h, child, Parent(child));
      assert HeapBut(up, Parent(child));
      SiftUpRestores(up, Parent(child));
    }
  }

  lemma {:induction false} RootIsLeast(h: Queue, i: nat)
    requires Heap(h) && i < |h|
    ensures !Before(h[i], h[0])
    decreases i
  {
    if i > 0 {
      RootIsLeast(h, Parent(i));
    }
  }

  lemma {:induction false} LeastRisesToRoot(h: Queue, child: nat)
    requires child < |h| && forall i :: 0 <= i < |h| && i != child ==> Before(h[child], h[i])
    ensures Rest(h, child) == 0
    decreases child
  {
    if child > 0 {
      LeastRisesToRoot(Swap(h, child, Parent(child)), Parent(child));
    }
  }

  lemma {:induction false} RestedItem(h: Queue, child: nat)
    requires child < |h|
    ensures Rest(h, child) < |h| && SiftUp(h, child)[Rest(h, child)] == h[child]
    decreases child
  {
    if child > 0 && Before(h[child], h[Parent(child)]) {
      RestedItem(Swap(h, child, Parent(child)), Parent(child));
    }
  }

  /** Pushing keeps the items and the heap. */
  lemma PushedIsHeap(h: Queue, item: Buffered)
    requires Heap(h)
    ensures Heap(Pushed(h, item)) && multiset(Pushed(h, item)) == multiset(h) + multiset{item}
  {
    assert HeapBut(h + [item], |h|);
    SiftUpRestores(h + [item], |h|);
  }

  lemma RestedAtRootIsNext(h: Queue, item: Buffered, i: nat)
    requires Heap(h) && i < |h| && h[i].order < item.order && Rest(h + [item], |h|) == 0
    ensures Before(item, h[i])
  {
    RestedItem(h + [item], |h|);
    PushedIsHeap(h, item);
    var p := Pushed(h, item);
    assert h[i] in multiset(p);
    var j :| 0 <= j < |p| && p[j] == h[i];
    RootIsLeast(p, j);
  }

  /** The newest arrival rests at the root exactly when it is due before everything queued. */
  lemma RestsAtRootIffNext(h: Queue, item: Buffered)
    requires Heap(h) && forall i :: 0 <= i < |h| ==> h[i].order < item.order
    ensures Rest(h + [item], |h|) == 0 <==> forall i :: 0 <= i < |h| ==> Before(item, h[i])
  {
    if forall i :: 0 <= i < |h| ==> Before(item, h[i]) {
      LeastRisesToRoot(h + [item], |h|);
    } else if Rest(h + [item], |h|) == 0 {
      var i :| 0 <= i < |h| && !Before(item, h[i]);
      RestedAtRootIsNext(h, item, i);
    }
  }

  /** packetHeap.push */
  method Push(heap: Queue, item: Buffered) returns (h: Queue, root: bool)
    ensures h == Pushed(heap, item) && root == (Rest(heap + [item], |heap|) == 0)
  {
    h := heap + [item];
    var child := |h| - 1;
    while child > 0
      invariant 0 <= child < |h| == |heap| + 1
      invariant SiftUp(h, child) == Pushed(heap, item)
      invariant Rest(h, child) == Rest(heap + [item], |heap|)
    {
      var parent := (child - 1) / 2;
      if !Before(h[child], h[parent]) {
        break;
      }
      h := h[child := h[parent]][parent := h[child]];
      child := parent;
    }
    root := child == 0;
  }

  /** A push as the reader sees it: nothing is lost, and the flag says that its next deadline moved. */
  method PushNewest(heap: Queue, item: Buffered) returns (h: Queue, root: bool)
    requires Heap(heap) && forall i :: 0 <= i < |heap| ==> heap[i].order < item.order
    ensures Heap(h) && multiset(h) == multiset(heap) + multiset{item}
    ensures root <==> forall i :: 0 <= i < |heap| ==> Before(item, heap[i])
  {
    PushedIsHeap(heap, item);
    RestsAtRootIffNext(heap, item);
    h, root := Push(heap, item);
  }

  // ----- pop

  /** The least of an index and its children. */
  function Smallest(h: Queue, parent: nat): (k: nat)
    requires parent < |h|
    ensures parent <= k < |h| && (k == parent || Parent(k) == parent)
  {
    var left := 2 * parent + 1;
    var s := if left < |h| && Before(h[left], h[parent]) then left else parent;
    if left + 1 < |h| && Before(h[left + 1], h[s]) then left + 1 else s
  }

  function Sunk(h: Queue, parent: nat): (r: Queue)
    requires parent < |h|
    ensures |r| == |h| && multiset(r) == multiset(h)
    decreases |h| - parent
  {
    var k := Smallest(h, parent);
    if k == parent then h else Sunk(Swap(h, parent, k), k)
  }

  function Popped(h: Queue): Queue
    requires h != []
  {
    var last := |h| - 1;
    var shorter := h[0 := h[last]][..last];
    if shorter == [] then [] else Sunk(shorter, 0)
  }

  /** A heap but for the item at `parent`, which may belong further down. */
  ghost predicate HeapAbove(h: Queue, parent: nat) {
    && (forall i :: 0 < i < |h| && Parent(i) != parent ==> !Before(h[i], h[Parent(i)]))
    && (forall i :: 0 < i < |h| && 0 < parent < |h| && Parent(i) == parent ==> !Before(h[i], h[Parent(parent)]))
  }

  lemma SmallestIsLeast(h: Queue, parent: nat, i: nat)
    requires parent < |h| && 0 < i < |h| && Parent(i) == parent
    ensures !Before(h[i], h[Smallest(h, parent)]) && !Before(h[parent], h[Smallest(h, parent)])
  {
    assert i == 2 * parent + 1 || i == 2 * parent + 2;
  }

  lemma SwapDown(h: Queue, parent: nat, k: nat)
    requires parent < |h| && HeapAbove(h, parent) && k == Smallest(h, parent) && k != parent
    ensures HeapAbove(Swap(h, parent, k), k)
  {
    var down := Swap(h, parent, k);
    forall i | 0 < i < |h| && Parent(i) != k
      ensures !Before(down[i], down[Parent(i)])
    {
      if Parent(i) == parent {
        SmallestIsLeast(h, parent, i);
      }
    }
  }

  lemma {:induction false} SunkRestores(h: Queue, parent: nat)
    requires parent < |h| && HeapAbove(h, parent)
    ensures Heap(Sunk(h, parent))
    decreases |h| - parent
  {
    var k := Smallest(h, parent);
    if k == parent {
      forall i | 0 < i < |h| && Parent(i) == parent
        ensures !Before(h[i], h[Parent(i)])
      {
        SmallestIsLeast(h, parent, i);
      }
    } else {
      SwapDown(h, parent, k);
      SunkRestores(Swap(h, parent, k), k);
    }
  }

  lemma MoveLastToFront(h: Queue)
    requires |h| > 1
    ensures var last := |h| - 1;
            multiset(h[0 := h[last]][..last]) + multiset{h[0]} == multiset(h)
  {
    var last := |h| - 1;
    var shorter := h[0 := h[last]][..last];
    assert h == [h[0]] + h[1..last] + [h[last]];
    assert shorter == [h[last]] + h[1..last];
  }

  /** Popping removes the item at the root, which is the least, and leaves a heap of the rest. */
  lemma PoppedIsHeap(h: Queue)
    requires Heap(h) && h != []
    ensures Heap(Popped(h)) && multiset(Popped(h)) + multiset{h[0]} == multiset(h)
    ensures |Popped(h)| == |h| - 1
  {
    if |h| == 1 {
      assert h == [h[0]];
    } else {
      var last := |h| - 1;
      var shorter := h[0 := h[last]][..last];
      assert HeapAbove(shorter, 0);
      SunkRestores(shorter, 0);
      MoveLastToFront(h);
    }
  }

  /** packetHeap.sink */
  method Sink(heap: Queue, start: nat) returns (h: Queue)
    requires start < |heap| || heap == []
    ensures h == if heap == [] then [] else Sunk(heap, start)
  {
    h := heap;
    var parent := start;
    if h == [] {
      return;
    }
    while true
      invariant parent < |h| == |heap|
      invariant Sunk(h, parent) == Sunk(heap, start)
      decreases |h| - parent
    {
      var left, smallest := 2 * parent + 1, parent;
      if left < |h| && Before(h[left], h[smallest]) {
        smallest := left;
      }
      var right := left + 1;
      if right < |h| && Before(h[right], h[smallest]) {
        smallest := right;
      }
      if smallest == parent {
        return;
      }
      h := h[parent := h[smallest]][smallest := h[parent]];
      parent := smallest;
    }
  }

  /** packetHeap.pop */
  method Pop(heap: Queue) returns (top: Buffered, h: Queue)
    requires Heap(heap) && heap != []
    ensures h == Popped(heap) && Heap(h) && multiset(h) + multiset{top} == multiset(heap)
    ensures top == heap[0] && forall i :: 0 <= i < |heap| ==> !Before(heap[i], top)
  {
    top := heap[0];
    var last := |heap| - 1;
    h := heap[0 := heap[last]][..last];
    h := Sink(h, 0);
    PoppedIsHeap(heap);
    forall i | 0 <= i < |heap|
      ensures !Before(heap[i], top)
    {
      RootIsLeast(heap, i);
    }
  }

  // ----- draining is a stable sort

  ghost predicate Sorted(s: Queue) {
    forall i, j :: 0 <= i < j < |s| ==> !Before(s[j], s[i])
  }

  ghost predicate DistinctOrders(s: Queue) {
    forall i, j :: 0 <= i < j < |s| ==> s[i].order != s[j].order
  }

  function Drained(h: Queue): (r: Queue)
    ensures |r| == |h|
    decreases |h|
  {
    if h == [] then [] else
      assert |Popped(h)| == |h| - 1;
      [h[0]] + Drained(Popped(h))
  }

  lemma RootBeforeRest(h: Queue, rest: Queue)
    requires Heap(h) && h != [] && multiset(rest) <= multiset(h) && Sorted(rest)
    ensures Sorted([h[0]] + rest)
  {
    forall j | 0 <= j < |rest|
      ensures !Before(rest[j], h[0])
    {
      assert rest[j] in multiset(rest);
      var i :| 0 <= i < |h| && h[i] == rest[j];
      RootIsLeast(h, i);
    }
  }

  lemma {:induction false} DrainedIsSorted(h: Queue)
    requires Heap(h)
    ensures Sorted(Drained(h)) && multiset(Drained(h)) == multiset(h)
    decreases |h|
  {
    if h != [] {
      PoppedIsHeap(h);
      DrainedIsSorted(Popped(h));
      RootBeforeRest(h, Drained(Popped(h)));
    }
  }

  /** Insertion after everything due no later: the textbook stable sort by playout time alone. */
  function InsertStable(s: Queue, x: Buffered): (r: Queue)
    ensures multiset(r) == multiset(s) + multiset{x}
  {
    if s == [] then [x]
    else if s[|s| - 1].playAt <= x.playAt then s + [x]
    else
      assert s == s[..|s| - 1] + [s[|s| - 1]];
      InsertStable(s[..|s| - 1], x) + [s[|s| - 1]]
  }

  function StableSort(arrivals: Queue): (r: Queue)
    ensures multiset(r) == multiset(arrivals)
  {
    if arrivals == [] then [] else
      var n := |arrivals| - 1;
      assert arrivals == arrivals[..n] + [arrivals[n]];
      InsertStable(StableSort(arrivals[..n]), arrivals[n])
  }

  lemma SortedWithLast(s: Queue, last: Buffered)
    requires Sorted(s) && forall i :: 0 <= i < |s| ==> !Before(last, s[i])
    ensures Sorted(s + [last])
  {
  }

  /** What goes in comes out: every item of the longer list was there, or is the new one. */
  lemma InsertStableItems(s: Queue, x: Buffered, y: Buffered)
    requires y in InsertStable(s, x)
    ensures y in s || y == x
  {
    assert y in multiset(InsertStable(s, x));
  }

  lemma {:induction false} InsertStableSorted(s: Queue, x: Buffered)
    requires Sorted(s) && forall y :: y in s ==> y.order < x.order
    ensures Sorted(InsertStable(s, x))
  {
    if s == [] {
    } else if s[|s| - 1].playAt > x.playAt {
      var n := |s| - 1;
      var front := InsertStable(s[..n], x);
      InsertStableSorted(s[..n], x);
      forall i | 0 <= i < |front| ensures !Before(s[n], front[i]) {
        InsertStableItems(s[..n], x, front[i]);
      }
      SortedWithLast(front, s[n]);
    } else {
      forall i | 0 <= i < |s| ensures !Before(x, s[i]) {
        assert s[i] in s;
        assert !Before(s[|s| - 1], s[i]) || i == |s| - 1;
      }
      SortedWithLast(s, x);
    }
  }

  ghost predicate Arrivals(s: Queue) {
    forall i, j :: 0 <= i < j < |s| ==> s[i].order < s[j].order
  }

  lemma {:induction false} StableSortSorted(arrivals: Queue)
    requires Arrivals(arrivals)
    ensures Sorted(StableSort(arrivals))
  {
    if arrivals != [] {
      var n := |arrivals| - 1;
      var sorted := StableSort(arrivals[..n]);
      StableSortSorted(arrivals[..n]);
      forall y | y in sorted
        ensures y.order < arrivals[n].order
      {
        assert y in multiset(sorted);
        assert y in arrivals[..n];
      }
      InsertStableSorted(sorted, arrivals[n]);
    }
  }

  lemma SamePosition(x: Buffered, y: Buffered, s: Queue)
    requires x in s && y in s && Before(x, y) == Before(y, x) == false && DistinctOrders(s)
    ensures x == y
  {
  }

  lemma SameFirst(a: Queue, b: Queue)
    requires Sorted(a) && Sorted(b) && multiset(a) == multiset(b) && DistinctOrders(a) && a != []
    ensures b != [] && a[0] == b[0]
  {
    assert a[0] in multiset(b);
    var i :| 0 <= i < |b| && b[i] == a[0];
    assert b[0] in multiset(a);
    var j :| 0 <= j < |a| && a[j] == b[0];
    SamePosition(a[0], b[0], a);
  }

  lemma SameRest(a: Queue, b: Queue)
    requires a != [] && b != [] && a[0] == b[0] && multiset(a) == multiset(b)
    ensures multiset(a[1..]) == multiset(b[1..])
  {
    assert a == [a[0]] + a[1..] && b == [b[0]] + b[1..];
    assert multiset(a[1..]) == multiset(a) - multiset{a[0]};
    assert multiset(b[1..]) == multiset(b) - multiset{b[0]};
  }

  /** With distinct arrival numbers there is only one sorted arrangement of a set of items. */
  lemma {:induction false} SortedIsUnique(a: Queue, b: Queue)
    requires Sorted(a) && Sorted(b) && multiset(a) == multiset(b) && DistinctOrders(a)
    ensures a == b
  {
    if a == [] {
      assert |multiset(b)| == 0;
    } else {
      SameFirst(a, b);
      SameRest(a, b);
      SortedIsUnique(a[1..], b[1..]);
      assert a == [a[0]] + a[1..] && b == [b[0]] + b[1..];
    }
  }

  function PushAll(h: Queue, arrivals: Queue): Queue
    decreases |arrivals|
  {
    if arrivals == [] then h else PushAll(Pushed(h, arrivals[0]), arrivals[1..])
  }

  lemma {:induction false} PushAllIsHeap(h: Queue, arrivals: Queue)
    requires Heap(h)
    ensures Heap(PushAll(h, arrivals)) && multiset(PushAll(h, arrivals)) == multiset(h) + multiset(arrivals)
    decreases |arrivals|
  {
    if arrivals != [] {
      PushedIsHeap(h, arrivals[0]);
      PushAllIsHeap(Pushed(h, arrivals[0]), arrivals[1..]);
      assert arrivals == [arrivals[0]] + arrivals[1..];
    }
  }

  /** Packets pushed as they arrive come out stably sorted by playout time. */
  lemma HeapDrainsAsStableSort(arrivals: Queue)
    requires Arrivals(arrivals)
    ensures Drained(PushAll([], arrivals)) == StableSort(arrivals)
  {
    PushAllIsHeap([], arrivals);
    DrainedIsSorted(PushAll([], arrivals));
    StableSortSorted(arrivals);
    var a, b := StableSort(arrivals), Drained(PushAll([], arrivals));
    OrdersStayDistinct(arrivals, a);
    SortedIsUnique(a, b);
  }

  lemma OrdersStayDistinct(s: Queue, t: Queue)
    requires DistinctOrders(s) && multiset(s) == multiset(t)
    ensures DistinctOrders(t)
  {
    forall i, j | 0 <= i < j < |t|
      ensures t[i].order != t[j].order
    {
      if t[i].order == t[j].order {
        assert t[i] in multiset(s) && t[j] in multiset(s);
        assert t[i] == t[j];
        assert multiset(t)[t[i]] >= 2 by {
          assert t == t[..j] + [t[j]] + t[j + 1..];
          assert t[..j][i] in multiset(t[..j]);
        }
        AtMostOnce(s, t[i]);
      }
    }
  }

  lemma {:induction false} AtMostOnce(s: Queue, x: Buffered)
    requires DistinctOrders(s)
    ensures multiset(s)[x] <= 1
  {
    if s != [] {
      var n := |s| - 1;
      AtMostOnce(s[..n], x);
      assert s == s[..n] + [s[n]];
      if x == s[n] {
        assert x !in s[..n];
      }
    }
  }

  // ----- any mix of pushes and pops

  datatype HeapOp = PushOp(item: Buffered) | PopOp

  function HeapAfter(h: Queue, op: HeapOp): Queue {
    match op
    case PushOp(item) => Pushed(h, item)
    case PopOp => if h == [] then h else Popped(h)
  }

  /** The plain sorted list: an arrival goes after everything due no later, a pop takes the first. */
  function ListAfter(l: Queue, op: HeapOp): Queue {
    match op
    case PushOp(item) => InsertStable(l, item)
    case PopOp => if l == [] then l else l[1..]
  }

  /** What an operation gives out: the first item, if it is a pop and there is one. */
  function Given(q: Queue, op: HeapOp): Queue {
    if op.PopOp? && q != [] then [q[0]] else []
  }

  /** All that the pops of a run give out, one after the other. */
  function HeapGives(h: Queue, run: seq<HeapOp>): Queue
    decreases |run|
  {
    if run == [] then [] else Given(h, run[0]) + HeapGives(HeapAfter(h, run[0]), run[1..])
  }

  function ListGives(l: Queue, run: seq<HeapOp>): Queue
    decreases |run|
  {
    if run == [] then [] else Given(l, run[0]) + ListGives(ListAfter(l, run[0]), run[1..])
  }

  /** Items are pushed as they arrive, later than `last`. */
  predicate InOrder(run: seq<HeapOp>, last: nat)
    decreases |run|
  {
    run != [] ==>
      if run[0].PushOp? then run[0].item.order > last && InOrder(run[1..], run[0].item.order)
      else InOrder(run[1..], last)
  }

  /** The heap and the sorted list hold the same items, none later than `last`. */
  ghost predicate SameItems(h: Queue, l: Queue, last: nat) {
    && Heap(h) && Sorted(l) && DistinctOrders(l) && multiset(h) == multiset(l)
    && forall x :: x in l ==> x.order <= last
  }

  lemma PushKeepsSame(h: Queue, l: Queue, last: nat, item: Buffered)
    requires SameItems(h, l, last) && item.order > last
    ensures SameItems(Pushed(h, item), InsertStable(l, item), item.order)
  {
    PushedIsHeap(h, item);
    InsertStableSorted(l, item);
    OrdersStayDistinct(l + [item], InsertStable(l, item));
    forall x | x in InsertStable(l, item) ensures x.order <= item.order {
      assert x in multiset(InsertStable(l, item));
      assert x in l || x == item;
    }
  }

  lemma FirstIsRoot(h: Queue, l: Queue, last: nat)
    requires SameItems(h, l, last) && h != []
    ensures l != [] && h[0] == l[0]
  {
    assert h[0] in multiset(l);
    var i :| 0 <= i < |l| && l[i] == h[0];
    assert l[0] in multiset(h);
    var j :| 0 <= j < |h| && h[j] == l[0];
    RootIsLeast(h, j);
    SamePosition(h[0], l[0], l);
  }

  lemma PopKeepsSame(h: Queue, l: Queue, last: nat)
    requires SameItems(h, l, last) && h != []
    ensures l != [] && SameItems(Popped(h), l[1..], last)
  {
    FirstIsRoot(h, l, last);
    PoppedIsHeap(h);
    TailItems(l);
    assert multiset(Popped(h)) == multiset(h) - multiset{h[0]};
  }

  lemma TailItems(l: Queue)
    requires l != []
    ensures multiset(l[1..]) == multiset(l) - multiset{l[0]}
    ensures Sorted(l) ==> Sorted(l[1..])
    ensures DistinctOrders(l) ==> DistinctOrders(l[1..])
    ensures forall x :: x in l[1..] ==> x in l
  {
    assert l == [l[0]] + l[1..];
  }

  /**
   * However pushes and pops are mixed, the heap gives out what the plain sorted list gives out: every pop the
   * item that is due first, and of those due together the one that arrived first.
   */
  lemma {:induction false} HeapRunsAsSortedList(h: Queue, l: Queue, last: nat, run: seq<HeapOp>)
    requires SameItems(h, l, last) && InOrder(run, last)
    ensures HeapGives(h, run) == ListGives(l, run)
    decreases |run|
  {
    if run != [] {
      if run[0].PushOp? {
        PushKeepsSame(h, l, last, run[0].item);
        HeapRunsAsSortedList(Pushed(h, run[0].item), InsertStable(l, run[0].item), run[0].item.order, run[1..]);
      } else if h == [] {
        assert |multiset(l)| == 0;
        HeapRunsAsSortedList(h, l, last, run[1..]);
      } else {
        FirstIsRoot(h, l, last);
        PopKeepsSame(h, l, last);
        HeapRunsAsSortedList(Popped(h), l[1..], last, run[1..]);
      }
    }
  }

  /** From an empty queue. */
  lemma QueueRunsAsSortedList(run: seq<HeapOp>)
    requires InOrder(run, 0)
    ensures HeapGives([], run) == ListGives([], run)
  {
    HeapRunsAsSortedList([], [], 0, run);
  }

  predicate OnlyPops(run: seq<HeapOp>) {
    forall i :: 0 <= i < |run| ==> run[i].PopOp?
  }

  lemma {:induction false} PopsAreInOrder(run: seq<HeapOp>, last: nat)
    requires OnlyPops(run)
    ensures InOrder(run, last)
    decreases |run|
  {
    if run != [] {
      PopsAreInOrder(run[1..], last);
    }
  }

  lemma {:induction false} ListPops(l: Queue, run: seq<HeapOp>)
    requires OnlyPops(run)
    ensures ListGives(l, run) == l[..if |run| < |l| then |run| else |l|]
    decreases |run|
  {
    if run != [] {
      ListPops(ListAfter(l, run[0]), run[1..]);
      if l != [] {
        assert l == [l[0]] + l[1..];
      }
    }
  }

  /** Pops with no push between them give out the first items of the sorted list, in its order. */
  lemma PopsInARow(h: Queue, l: Queue, last: nat, run: seq<HeapOp>)
    requires SameItems(h, l, last) && OnlyPops(run)
    ensures HeapGives(h, run) == l[..if |run| < |l| then |run| else |l|] && Sorted(HeapGives(h, run))
  {
    PopsAreInOrder(run, last);
    HeapRunsAsSortedList(h, l, last, run);
    ListPops(l, run);
  }

  // ----- shifting every playout time alike

  function Shift(x: Buffered, d: int): Buffered {
    x.(playAt := x.playAt + d)
  }

  function Shifted(h: Queue, d: int): (r: Queue)
    ensures |r| == |h| && forall i :: 0 <= i < |h| ==> r[i] == Shift(h[i], d)
  {
    seq(|h|, i requires 0 <= i < |h| => Shift(h[i], d))
  }

  lemma ShiftedIsHeap(h: Queue, d: int)
    requires Heap(h)
    ensures Heap(Shifted(h, d))
  {
  }

  lemma {:induction false} SunkShifted(h: Queue, parent: nat, d: int)
    requires parent < |h|
    ensures Sunk(Shifted(h, d), parent) == Shifted(Sunk(h, parent), d)
    decreases |h| - parent
  {
    var k := Smallest(h, parent);
    assert Smallest(Shifted(h, d), parent) == k;
    if k != parent {
      assert Swap(Shifted(h, d), parent, k) == Shifted(Swap(h, parent, k), d);
      SunkShifted(Swap(h, parent, k), k, d);
    }
  }

  lemma PoppedShifted(h: Queue, d: int)
    requires h != []
    ensures Popped(Shifted(h, d)) == Shifted(Popped(h), d)
  {
    var last := |h| - 1;
    var shorter := h[0 := h[last]][..last];
    assert Shifted(h, d)[0 := Shifted(h, d)[last]][..last] == Shifted(shorter, d);
    if shorter != [] {
      SunkShifted(shorter, 0, d);
    }
  }

  /** A uniform shift moves the drained schedule and changes nothing else about it. */
  lemma {:induction false} DrainedShifted(h: Queue, d: int)
    ensures Drained(Shifted(h, d)) == Shifted(Drained(h), d)
    decreases |h|
  {
    if h != [] {
      PoppedShifted(h, d);
      DrainedShifted(Popped(h), d);
    }
  }
}
