/**
 * The receive queue of decrypted RTP datagrams (internal/ingest/packet_buffer.go):
 * a byte ring that grows on demand and stores every datagram behind a two-byte
 * length. The queue of datagrams it stands for is `Contents`.
 */
module PacketBuffer {
  import opened Bytes

  /** receiveBufferBytes */
  const CAPACITY := 1_000_000

  type Packet = p: seq<byte> | 0 < |p| <= 65535 witness [0]

  datatype WriteError = ClosedPipe | ShortBuffer | Full

  datatype WriteResult = Written(count: nat) | WriteFailed(error: WriteError)

  datatype ReadResult =
    | Got(count: nat)
    | GotPrefix(count: nat)  // io.ErrShortBuffer: the rest of the datagram is discarded
    | DeadlineExceeded
    | EndOfFile
    | WouldBlock

  // ----- the bytes a queue of datagrams occupies

  function Frame(p: Packet): seq<byte> {
    [High(|p|), Low(|p|)] + p
  }

  function Image(q: seq<Packet>): seq<byte> {
    if q == [] then [] else Frame(q[0]) + Image(q[1..])
  }

  /** Reads the datagrams back out of a byte string, as long as whole ones remain. */
  function Parse(bytes: seq<byte>): seq<Packet>
    decreases |bytes|
  {
    if |bytes| < 2 then [] else
      var size := Word(bytes[0], bytes[1]);
      if size == 0 || |bytes| < 2 + size then [] else
        [bytes[2..2 + size]] + Parse(bytes[2 + size..])
  }

  lemma FrameHead(p: Packet, rest: seq<byte>)
    ensures var b := Frame(p) + rest;
            && |b| >= 2 + |p|
            && Word(b[0], b[1]) == |p|
            && b[2..2 + |p|] == p
            && b[2 + |p|..] == rest
  {
  }

  /** The image determines the queue: nothing about the datagrams is lost in the ring. */
  lemma {:induction false} ImageRoundTrip(q: seq<Packet>)
    ensures Parse(Image(q)) == q
  {
    if q != [] {
      FrameHead(q[0], Image(q[1..]));
      ImageRoundTrip(q[1..]);
    }
  }

  lemma {:induction false} ImageAppend(q: seq<Packet>, p: Packet)
    ensures Image(q + [p]) == Image(q) + Frame(p)
  {
    if q == [] {
      assert q + [p] == [p];
      assert Image([p][1..]) == [];
    } else {
      assert (q + [p])[0] == q[0] && (q + [p])[1..] == q[1..] + [p];
      ImageAppend(q[1..], p);
    }
  }

  /** Storage in use: two bytes of header for each datagram. */
  function Footprint(q: seq<Packet>): nat {
    if q == [] then 0 else |q[0]| + 2 + Footprint(q[1..])
  }

  lemma {:induction false} ImageLength(q: seq<Packet>)
    ensures |Image(q)| == Footprint(q)
  {
    if q != [] {
      ImageLength(q[1..]);
    }
  }

  // ----- the ring

  /** Index `i` bytes past `head` in a ring of `n` bytes. */
  function Slot(head: nat, i: nat, n: nat): (k: nat)
    requires head < n && i <= n
    ensures k < n
  {
    if head + i < n then head + i else head + i - n
  }

  /** How far past `head` the index `k` lies. */
  function Offset(head: nat, k: nat, n: nat): (i: nat)
    requires head < n && k < n
    ensures i < n && Slot(head, i, n) == k
  {
    if k >= head then k - head else k - head + n
  }

  lemma SlotIsModulus(head: nat, i: nat, n: nat)
    requires head < n && i <= n
    ensures (head + i) % n == Slot(head, i, n)
  {
    if head + i >= n {
      assert head + i == n + (head + i - n);
    }
  }

  ghost function Ring(data: seq<byte>, head: nat, used: nat): (r: seq<byte>)
    requires used <= |data| && (head < |data| || used == 0)
    ensures |r| == used
  {
    seq(used, i requires 0 <= i < used => data[Slot(head, i, |data|)])
  }

  /** Dropping `k` bytes from the front moves the head. */
  lemma RingDrop(data: seq<byte>, head: nat, used: nat, k: nat)
    requires head < |data| && k <= used <= |data|
    ensures Ring(data, Slot(head, k, |data|), used - k) == Ring(data, head, used)[k..]
  {
    var n := |data|;
    assert forall i :: 0 <= i < used - k ==> Slot(Slot(head, k, n), i, n) == Slot(head, k + i, n);
  }

  /** Where the oldest datagram and the ones after it lie in a ring that holds a queue. */
  lemma OldestInRing(data: seq<byte>, head: nat, used: nat, q: seq<Packet>)
    requires head < |data| && used <= |data| && q != [] && Ring(data, head, used) == Image(q)
    ensures |q[0]| + 2 <= used && Word(data[head], data[Slot(head, 1, |data|)]) == |q[0]|
    ensures Ring(data, Slot(head, 2, |data|), |q[0]|) == q[0]
    ensures Ring(data, Slot(Slot(head, 2, |data|), |q[0]|, |data|), used - |q[0]| - 2) == Image(q[1..])
  {
    var n, size, ring := |data|, |q[0]|, Ring(data, head, used);
    FrameHead(q[0], Image(q[1..]));
    assert ring[0] == data[Slot(head, 0, n)] && ring[1] == data[Slot(head, 1, n)];
    RingDrop(data, head, used, 2);
    RingDrop(data, Slot(head, 2, n), used - 2, size);
    assert ring[2..][size..] == ring[2 + size..];
    assert Ring(data, Slot(head, 2, n), size) == ring[2..][..size];
  }

  method CopyInto(dst: array<byte>, at: nat, src: seq<byte>)
    requires at + |src| <= dst.Length
    modifies dst
    ensures forall k :: at <= k < at + |src| ==> dst[k] == src[k - at]
    ensures forall k :: 0 <= k < dst.Length && !(at <= k < at + |src|) ==> dst[k] == old(dst[k])
  {
    forall k | at <= k < at + |src| {
      dst[k] := src[k - at];
    }
  }

  /** Every byte of `dst` after `src` was laid down from `at` on, around the end. */
  ghost predicate LaidAround(before: seq<byte>, after: seq<byte>, at: nat, src: seq<byte>)
    requires |before| == |after| && at < |after|
  {
    forall k :: 0 <= k < |after| ==>
      after[k] == if Offset(at, k, |after|) < |src| then src[Offset(at, k, |after|)] else before[k]
  }

  /** Bytes written past the end of the queue extend it and leave the rest alone. */
  lemma RingExtend(before: seq<byte>, after: seq<byte>, head: nat, used: nat, more: seq<byte>)
    requires |before| == |after| && head < |after| && used + |more| <= |after|
    requires LaidAround(before, after, Slot(head, used, |after|), more)
    ensures Ring(after, head, used + |more|) == Ring(before, head, used) + more
  {
    var n, r := |after|, Ring(after, head, used + |more|);
    forall i | 0 <= i < used + |more|
      ensures r[i] == (Ring(before, head, used) + more)[i]
    {
      var o := Offset(Slot(head, used, n), Slot(head, i, n), n);
      assert o == if i < used then n - used + i else i - used;
    }
  }

  /** The two copies that lay a datagram across the end of the ring. */
  method CopyAround(dst: array<byte>, at: nat, src: seq<byte>)
    requires at < dst.Length && |src| <= dst.Length
    modifies dst
    ensures LaidAround(old(dst[..]), dst[..], at, src)
  {
    var count := if |src| < dst.Length - at then |src| else dst.Length - at;
    CopyInto(dst, at, src[..count]);
    CopyInto(dst, 0, src[count..]);
  }

  method StoreFrame(dst: array<byte>, at: nat, packet: Packet)
    requires at < dst.Length && |packet| + 2 <= dst.Length
    modifies dst
    ensures LaidAround(old(dst[..]), dst[..], at, Frame(packet))
  {
    ghost var n, before := dst.Length, dst[..];
    SlotIsModulus(at, 1, n);
    SlotIsModulus(at, 2, n);
    dst[at] := High(|packet|);
    dst[(at + 1) % dst.Length] := Low(|packet|);
    CopyAround(dst, (at + 2) % dst.Length, packet);
    forall k | 0 <= k < n
      ensures dst[k] == if Offset(at, k, n) < |packet| + 2 then Frame(packet)[Offset(at, k, n)] else before[k]
    {
      assert Offset(Slot(at, 2, n), k, n) ==
             if Offset(at, k, n) >= 2 then Offset(at, k, n) - 2 else Offset(at, k, n) + n - 2;
    }
  }

  /** Copies `count` ring bytes from `start` on into the reader's buffer. */
  method CopyOut(dst: array<byte>, src: array<byte>, start: nat, count: nat)
    requires dst != src && start < src.Length && count <= src.Length && count <= dst.Length
    modifies dst
    ensures dst[..count] == Ring(src[..], start, count)
    ensures dst[count..] == old(dst[count..])
  {
    var stop := if start + count < src.Length then start + count else src.Length;
    CopyInto(dst, 0, src[start..stop]);
    CopyInto(dst, stop - start, src[..count - (stop - start)]);
  }

  class PacketBuffer {
    var data: array<byte>
    var head: nat
    var used: nat
    var closed: bool
    ghost var Contents: seq<Packet>

    ghost predicate Valid()
      reads this, data
    {
      && data.Length <= CAPACITY
      && used <= data.Length
      && (head < data.Length || (data.Length == 0 && head == 0))
      && Ring(data[..], head, used) == Image(Contents)
    }

    constructor ()
      ensures Valid() && fresh(data) && Contents == [] && !closed
    {
      data := new byte[0];
      head, used, closed, Contents := 0, 0, false, [];
    }

    /** Moves the queue to the front of larger storage. */
    method Grow(need: nat)
      requires Valid() && data.Length < need <= CAPACITY && used <= need
      modifies this`data, this`head
      ensures Valid() && fresh(data)
      ensures data.Length >= need && head == 0
    {
      var size := if 2 * data.Length > need then 2 * data.Length else need;
      size := if size < 2048 then 2048 else size;
      size := if size > CAPACITY then CAPACITY else size;
      var larger := new byte[size];
      if data.Length > 0 {
        CopyOut(larger, data, head, used);
      }
      assert Ring(larger[..], 0, used) == larger[..used];
      data, head := larger, 0;
    }

    method Write(packet: seq<byte>) returns (r: WriteResult)
      requires Valid()
      modifies this, data
      ensures Valid() && closed == old(closed) && (data == old(data) || fresh(data))
      ensures r == (
          if old(closed) then WriteFailed(ClosedPipe)
          else if |packet| == 0 then Written(0)
          else if |packet| > 65535 then WriteFailed(ShortBuffer)
          else if Footprint(old(Contents)) + |packet| + 2 > CAPACITY then WriteFailed(Full)
          else Written(|packet|))
      ensures Contents == if r.Written? && |packet| > 0 then old(Contents) + [packet] else old(Contents)
    {
      ImageLength(Contents);
      if closed {
        return WriteFailed(ClosedPipe);
      }
      if |packet| == 0 {
        return Written(0);
      }
      if |packet| > 65535 {
        return WriteFailed(ShortBuffer);
      }
      if used + |packet| + 2 > CAPACITY {
        return WriteFailed(Full);
      }
      if used + |packet| + 2 > data.Length {
        Grow(used + |packet| + 2);
      }
      Append(packet);
      return Written(|packet|);
    }

    method Append(packet: Packet)
      requires Valid() && used + |packet| + 2 <= data.Length
      modifies this`used, this`Contents, data
      ensures Valid() && Contents == old(Contents) + [packet]
    {
      ghost var before := data[..];
      SlotIsModulus(head, used, data.Length);
      StoreFrame(data, (head + used) % data.Length, packet);
      RingExtend(before, data[..], head, used, Frame(packet));
      ImageAppend(Contents, packet);
      used := used + |packet| + 2;
      Contents := Contents + [packet];
    }

    /** One pass of the read loop; `expired` is the state of the read deadline. */
    method Read(packet: array<byte>, expired: bool) returns (r: ReadResult)
      requires Valid() && packet != data
      modifies this, packet
      ensures Valid() && closed == old(closed) && data == old(data)
      ensures expired ==> r == DeadlineExceeded
      ensures !expired && old(Contents) == [] ==> r == if closed then EndOfFile else WouldBlock
      ensures r.DeadlineExceeded? || r.EndOfFile? || r.WouldBlock?
              ==> Contents == old(Contents) && packet[..] == old(packet[..])
      ensures !expired && old(Contents) != [] ==>
                var p := old(Contents)[0];
                && Contents == old(Contents)[1..]
                && r == (if |p| <= packet.Length then Got(|p|) else GotPrefix(packet.Length))
                && packet[..r.count] == p[..r.count]
                && packet[r.count..] == old(packet[r.count..])
    {
      ImageLength(Contents);
      if expired {
        return DeadlineExceeded;
      }
      if used > 0 {
        r := ReadPacket(packet);
        return;
      }
      return if closed then EndOfFile else WouldBlock;
    }

    /** Decodes the length in front of the oldest datagram. */
    method OldestSize() returns (size: nat)
      requires Valid() && Contents != []
      ensures size == |Contents[0]| && size + 2 <= used
      ensures Ring(data[..], Slot(head, 2, data.Length), size) == Contents[0]
      ensures Ring(data[..], Slot(Slot(head, 2, data.Length), size, data.Length), used - size - 2)
              == Image(Contents[1..])
    {
      OldestInRing(data[..], head, used, Contents);
      SlotIsModulus(head, 1, data.Length);
      size := Word(data[head], data[(head + 1) % data.Length]);
    }

    method ReadPacket(packet: array<byte>) returns (r: ReadResult)
      requires Valid() && packet != data && Contents != []
      modifies this`head, this`used, this`Contents, packet
      ensures Valid() && Contents == old(Contents)[1..]
      ensures var p := old(Contents)[0];
              && r == (if |p| <= packet.Length then Got(|p|) else GotPrefix(packet.Length))
              && packet[..r.count] == p[..r.count]
              && packet[r.count..] == old(packet[r.count..])
    {
      var size := OldestSize();
      SlotIsModulus(head, 2, data.Length);
      var start := (head + 2) % data.Length;
      var count := if size < packet.Length then size else packet.Length;
      assert Ring(data[..], start, count) == Ring(data[..], start, size)[..count];
      CopyOut(packet, data, start, count);
      SlotIsModulus(start, size, data.Length);
      head := (start + size) % data.Length;
      used := used - (size + 2);
      if used == 0 {
        head := 0;
      }
      Contents := Contents[1..];
      return if count < size then GotPrefix(count) else Got(count);
    }

    method Close()
      requires Valid()
      modifies this`closed
      ensures Valid() && closed && Contents == old(Contents)
    {
      closed := true;
    }
  }

  // ----- whole runs against a plain queue

  datatype Event = Put(packet: seq<byte>) | Take(room: nat, expired: bool) | Shut

  datatype Reply = PutReply(wrote: WriteResult) | TakeReply(read: ReadResult, bytes: seq<byte>) | ShutReply

  /** The specification: an unbounded list of byte strings with a byte budget. */
  datatype Fifo = Fifo(queue: seq<Packet>, closed: bool) {

    predicate Accepts(packet: seq<byte>) {
      !closed && 0 < |packet| <= 65535 && Footprint(queue) + |packet| + 2 <= CAPACITY
    }

    function Answer(e: Event): Reply {
      match e
      case Put(packet) =>
        PutReply(
          if closed then WriteFailed(ClosedPipe)
          else if |packet| == 0 then Written(0)
          else if |packet| > 65535 then WriteFailed(ShortBuffer)
          else if !Accepts(packet) then WriteFailed(Full)
          else Written(|packet|))
      case Take(room, expired) =>
        if expired then TakeReply(DeadlineExceeded, [])
        else if queue == [] then TakeReply(if closed then EndOfFile else WouldBlock, [])
        else if |queue[0]| <= room then TakeReply(Got(|queue[0]|), queue[0])
        else TakeReply(GotPrefix(room), queue[0][..room])
      case Shut => ShutReply
    }

    function After(e: Event): Fifo {
      match e
      case Put(packet) => if Accepts(packet) then Fifo(queue + [packet], closed) else this
      case Take(_, expired) => if expired || queue == [] then this else Fifo(queue[1..], closed)
      case Shut => Fifo(queue, true)
    }
  }

  function Answers(f: Fifo, run: seq<Event>): seq<Reply>
    decreases |run|
  {
    if run == [] then [] else [f.Answer(run[0])] + Answers(f.After(run[0]), run[1..])
  }

  function Final(f: Fifo, run: seq<Event>): Fifo
    decreases |run|
  {
    if run == [] then f else Final(f.After(run[0]), run[1..])
  }

  lemma {:induction false} RunsCompose(f: Fifo, run: seq<Event>, e: Event)
    ensures Answers(f, run + [e]) == Answers(f, run) + [Final(f, run).Answer(e)]
    ensures Final(f, run + [e]) == Final(f, run).After(e)
    decreases |run|
  {
    if run == [] {
      assert run + [e] == [e];
      assert Answers(f.After(e), [e][1..]) == [];
    } else {
      assert (run + [e])[0] == run[0] && (run + [e])[1..] == run[1..] + [e];
      RunsCompose(f.After(run[0]), run[1..], e);
    }
  }

  method Handle(b: PacketBuffer, e: Event) returns (reply: Reply)
    requires b.Valid()
    modifies b, b.data
    ensures b.Valid() && (b.data == old(b.data) || fresh(b.data))
    ensures reply == Fifo(old(b.Contents), old(b.closed)).Answer(e)
    ensures Fifo(b.Contents, b.closed) == Fifo(old(b.Contents), old(b.closed)).After(e)
  {
    match e
    case Put(packet) =>
      var wrote := b.Write(packet);
      reply := PutReply(wrote);
    case Take(room, expired) =>
      var target := new byte[room];
      var read := b.Read(target, expired);
      reply := TakeReply(read, if read.Got? || read.GotPrefix? then target[..read.count] else []);
    case Shut =>
      b.Close();
      reply := ShutReply;
  }

  /** Every run of the ring gives, answer by answer, what the plain queue gives. */
  method Serve(run: seq<Event>) returns (replies: seq<Reply>)
    ensures replies == Answers(Fifo([], false), run)
  {
    var b := new PacketBuffer();
    ghost var start := Fifo([], false);
    replies := [];
    for i := 0 to |run|
      invariant b.Valid() && fresh(b) && fresh(b.data)
      invariant Fifo(b.Contents, b.closed) == Final(start, run[..i])
      invariant replies == Answers(start, run[..i])
    {
      RunsCompose(start, run[..i], run[i]);
      assert run[..i + 1] == run[..i] + [run[i]];
      var reply := Handle(b, run[i]);
      replies := replies + [reply];
    }
    assert run[..|run|] == run;
  }

  function StoredBy(f: Fifo, e: Event): seq<Packet> {
    if e.Put? && f.Accepts(e.packet) then [e.packet] else []
  }

  function DeliveredBy(r: Reply): seq<seq<byte>> {
    if r.TakeReply? && (r.read.Got? || r.read.GotPrefix?) then [r.bytes] else []
  }

  /** The datagrams a run stored. */
  function Stored(f: Fifo, run: seq<Event>): seq<Packet>
    decreases |run|
  {
    if run == [] then [] else StoredBy(f, run[0]) + Stored(f.After(run[0]), run[1..])
  }

  /** The byte strings a run handed to its reader. */
  function Delivered(f: Fifo, run: seq<Event>): seq<seq<byte>>
    decreases |run|
  {
    if run == [] then [] else DeliveredBy(f.Answer(run[0])) + Delivered(f.After(run[0]), run[1..])
  }

  /** `out` pairs off with the front of `stored`, each a prefix of its partner; `left` is the rest. */
  ghost predicate LinesUp(out: seq<seq<byte>>, stored: seq<seq<byte>>, left: seq<seq<byte>>) {
    && |out| + |left| == |stored|
    && left == stored[|out|..]
    && forall i :: 0 <= i < |out| ==> out[i] <= stored[i]
  }

  lemma StepConserves(f: Fifo, e: Event)
    ensures LinesUp(DeliveredBy(f.Answer(e)), f.queue + StoredBy(f, e), f.After(e).queue)
  {
  }

  lemma LinesUpCompose(o1: seq<seq<byte>>, s: seq<seq<byte>>, l1: seq<seq<byte>>,
                       o2: seq<seq<byte>>, s2: seq<seq<byte>>, l2: seq<seq<byte>>)
    requires LinesUp(o1, s, l1) && LinesUp(o2, l1 + s2, l2)
    ensures LinesUp(o1 + o2, s + s2, l2)
  {
    assert (s + s2)[|o1|..] == l1 + s2;
    assert (s + s2)[|o1| + |o2|..] == (l1 + s2)[|o2|..];
    assert forall i :: 0 <= i < |o2| ==> (s + s2)[|o1| + i] == (l1 + s2)[i];
  }

  lemma Regroup(a: seq<Packet>, b: seq<Packet>, c: seq<Packet>)
    ensures a + b + c == a + (b + c)
  {
  }

  /**
   * Nothing is lost, repeated or reordered: what was delivered lines up one to one with the
   * datagrams stored, oldest first, and the rest is still queued.
   */
  lemma {:induction false} RunConserves(f: Fifo, run: seq<Event>)
    ensures LinesUp(Delivered(f, run), f.queue + Stored(f, run), Final(f, run).queue)
    decreases |run|
  {
    if run != [] {
      var e, g := run[0], f.After(run[0]);
      StepConserves(f, e);
      RunConserves(g, run[1..]);
      LinesUpCompose(DeliveredBy(f.Answer(e)), f.queue + StoredBy(f, e), g.queue,
                     Delivered(g, run[1..]), Stored(g, run[1..]), Final(f, run).queue);
      Regroup(f.queue, StoredBy(f, e), Stored(g, run[1..]));
    }
  }

  /** A datagram is taken exactly if the queue is open, it has 1 to 65535 octets, and 1,000,000 octets hold it all. */
  lemma TakenIffItFits(f: Fifo, packet: seq<byte>)
    ensures f.Answer(Put(packet)) == PutReply(Written(|packet|)) && |f.After(Put(packet)).queue| == |f.queue| + 1 <==>
              !f.closed && 1 <= |packet| <= 65535 && |Image(f.queue)| + 2 + |packet| <= 1_000_000
  {
    ImageLength(f.queue);
  }
}
