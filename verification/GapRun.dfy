/**
 * Gap tracking over a whole stream, by the sender's own numbers, of which a packet carries only 16 bits
 * (trackGapLocked in internal/ingest/recovery.go): what is recorded as missing is exactly what has not been received.
 */
module GapRun {
  import opened Bytes
  import opened RecoveryWire
  import opened Parity
  import opened GapTracking
  import opened RecoveryArrivals

  const CYCLE := 0x1_0000

  /** A stream as followed by the sender's numbers: the first, the highest, and all received or rebuilt so far. */
  datatype Ride = Ride(first: int, high: int, received: set<int>)

  /** Of the numbers less than 4096 behind the highest, exactly those not received are recorded as missing. */
  ghost predicate Tells(s: Stream, r: Ride) {
    && s.based && s.highest == r.high % CYCLE && r.high in r.received
    && (forall m :: m in r.received ==> m <= r.high)
    && forall m :: r.first <= m <= r.high && r.high - m < 4096 ==> (m % CYCLE in s.missing <==> m !in r.received)
  }

  /** A number no further from the highest than 16 bits can tell. */
  predicate Near(r: Ride, x: int) {
    -0x8000 <= x - r.high < 0x8000
  }

  lemma Difference(a: int, b: int)
    requires 0 <= a - b < CYCLE
    ensures Minus16(a % CYCLE, b % CYCLE) == a - b
  {
    var k := a / CYCLE - b / CYCLE;
    assert a - b == a % CYCLE - b % CYCLE + k * CYCLE;
    assert Minus16(a % CYCLE, b % CYCLE) == (a % CYCLE - b % CYCLE) % CYCLE;
    assert a % CYCLE - b % CYCLE == (a - b) - k * CYCLE;
    assert k == 0 || k == 1;
  }

  lemma Backward(a: int, b: int)
    requires 0 < b - a <= 0x8000
    ensures Minus16(a % CYCLE, b % CYCLE) >= 0x8000
  {
    Difference(a + CYCLE, b);
    assert (a + CYCLE) % CYCLE == a % CYCLE;
  }

  /** Numbers less than a cycle apart differ in their 16 bits, unless they are the same. */
  lemma Apart(a: int, b: int)
    requires -CYCLE < a - b < CYCLE && a % CYCLE == b % CYCLE
    ensures a == b
  {
    if a > b {
      Difference(a, b);
    } else {
      Difference(b, a);
    }
  }

  /** The numbers skipped on the way to `x` that are held all the same, because they were rebuilt. */
  function HeldBetween(packets: Packets, id: PacketId, high: int, x: int): set<int> {
    set m | high < m < x && id.(sequence := m % CYCLE) in packets
  }

  function Ridden(r: Ride, packets: Packets, id: PacketId, x: int): Ride {
    if x > r.high then Ride(r.first, x, r.received + {x} + HeldBetween(packets, id, r.high, x))
    else r.(received := r.received + {x})
  }

  /** A packet that is not ahead: its number is struck, and nothing else changes. */
  lemma OldNumberIsStruck(packets: Packets, id: PacketId, s: Stream, now: int, next: Stream, r: Ride, x: int)
    requires Tells(s, r) && Near(r, x) && x <= r.high && id.sequence == x % CYCLE
    requires Tracked(packets, id, Touched(s, id.sequence, now), next)
    ensures Tells(next, Ridden(r, packets, id, x))
  {
    if x == r.high {
      Difference(x, r.high);
    } else {
      Backward(x, r.high);
    }
    assert next == Touched(s, id.sequence, now);
    forall m | r.first <= m <= r.high && r.high - m < 4096
      ensures m % CYCLE in next.missing <==> m !in r.received + {x}
    {
      if m % CYCLE == x % CYCLE {
        Apart(m, x);
      }
    }
  }

  /** A number between the old highest and the new one. */
  lemma SkippedNumber(packets: Packets, id: PacketId, s: Stream, next: Stream, r: Ride, x: int, m: int)
    requires s.based && s.highest == r.high % CYCLE && r.high < m < x && x - r.high < 0x8000 && x - m < 4096
    requires id.sequence == x % CYCLE && Tracked(packets, id, s, next)
    requires forall k :: k in s.missing ==> id.(sequence := k) !in packets
    ensures m % CYCLE in next.missing <==> id.(sequence := m % CYCLE) !in packets
  {
    Difference(x, r.high);
    Difference(x, m);
  }

  /** A number up to the old highest stays what it was. */
  lemma EarlierNumber(packets: Packets, id: PacketId, s: Stream, next: Stream, r: Ride, x: int, m: int)
    requires s.based && s.highest == r.high % CYCLE && m <= r.high < x && x - r.high < 0x8000 && x - m < 4096
    requires id.sequence == x % CYCLE && Tracked(packets, id, s, next)
    ensures m % CYCLE in next.missing <==> m % CYCLE in s.missing
  {
    Difference(x, r.high);
    Difference(x, m);
  }

  /** The new highest number is not missing. */
  lemma NewNumber(packets: Packets, id: PacketId, s: Stream, next: Stream, r: Ride, x: int)
    requires s.based && s.highest == r.high % CYCLE && r.high < x && x - r.high < 0x8000
    requires id.sequence == x % CYCLE && Tracked(packets, id, s, next) && x % CYCLE !in s.missing
    ensures x % CYCLE !in next.missing && next.based && next.highest == x % CYCLE
  {
    Difference(x, r.high);
    Difference(x, x);
  }

  lemma NewHighest(packets: Packets, id: PacketId, s: Stream, now: int, next: Stream, r: Ride, x: int)
    requires Tells(s, r) && Near(r, x) && x > r.high && id.sequence == x % CYCLE
    requires Tracked(packets, id, Touched(s, id.sequence, now), next)
    requires forall k :: k in Touched(s, id.sequence, now).missing ==> id.(sequence := k) !in packets
    ensures Tells(next, Ridden(r, packets, id, x))
  {
    var t, after := Touched(s, id.sequence, now), Ridden(r, packets, id, x);
    NewNumber(packets, id, t, next, r, x);
    forall m | r.first <= m <= x && x - m < 4096
      ensures m % CYCLE in next.missing <==> m !in after.received
    {
      if r.high < m < x {
        SkippedNumber(packets, id, t, next, r, x, m);
      } else if m <= r.high {
        EarlierNumber(packets, id, t, next, r, x, m);
        if m % CYCLE == x % CYCLE {
          Apart(m, x);
        }
      }
    }
  }

  /**
   * An arrival, in order or not, keeps the record exact: of the numbers within 4096 of the highest, missing are exactly
   * those that were neither received nor rebuilt.
   */
  lemma ArrivalKeepsRecordExact(packets: Packets, id: PacketId, s: Stream, now: int, next: Stream, r: Ride, x: int)
    requires Tells(s, r) && Near(r, x) && id.sequence == x % CYCLE
    requires Tracked(packets, id, Touched(s, id.sequence, now), next)
    requires forall k :: k in Touched(s, id.sequence, now).missing ==> id.(sequence := k) !in packets
    ensures Tells(next, Ridden(r, packets, id, x))
  {
    if x > r.high {
      NewHighest(packets, id, s, now, next, r, x);
    } else {
      OldNumberIsStruck(packets, id, s, now, next, r, x);
    }
  }

  /** The first packet of a stream starts the record. */
  lemma FirstStartsRecord(packets: Packets, id: PacketId, s: Stream, now: int, next: Stream, x: int)
    requires !s.based && s.missing == map[] && id.sequence == x % CYCLE
    requires Tracked(packets, id, Touched(s, id.sequence, now), next)
    ensures Tells(next, Ride(x, x, {x}))
  {
  }

  /** A packet that is rebuilt is struck from the record. */
  lemma RebuiltIsStruck(s: Stream, r: Ride, x: int)
    requires Tells(s, r) && r.high - 4096 < x <= r.high
    ensures Tells(s.(missing := s.missing - {x % CYCLE}), r.(received := r.received + {x}))
  {
    forall m | r.first <= m <= r.high && r.high - m < 4096
      ensures m % CYCLE in s.missing - {x % CYCLE} <==> m !in r.received + {x}
    {
      if m % CYCLE == x % CYCLE {
        Apart(m, x);
      }
    }
  }

  /** Asking for repairs drops only numbers that are 4096 or more behind, so the record stays exact. */
  lemma RequestsKeepRecordExact(s: Stream, now: int, seen: set<uint16>, missing: map<uint16, int>, due: seq<uint16>,
                                r: Ride)
    requires Tells(s, r) && Scanned(s, now, seen, missing, due)
    ensures Tells(s.(missing := missing), r)
  {
    forall m | r.first <= m <= r.high && r.high - m < 4096
      ensures m % CYCLE in missing <==> m !in r.received
    {
      Difference(r.high, m);
    }
  }

  // ---- Whole streams ----

  /** One arrival: the history at that time, the packet, its number, and the stream after it. */
  datatype Turn = Turn(packets: Packets, id: PacketId, x: int, now: int, next: Stream)

  /** Each turn is a step of remember on the stream of the turn before, and names no held packet as missing. */
  ghost predicate Follows(s: Stream, r: Ride, run: seq<Turn>)
    decreases |run|
  {
    run != [] ==>
      var e := run[0];
      && Near(r, e.x) && e.id.sequence == e.x % CYCLE
      && Tracked(e.packets, e.id, Touched(s, e.id.sequence, e.now), e.next)
      && (forall k :: k in Touched(s, e.id.sequence, e.now).missing ==> e.id.(sequence := k) !in e.packets)
      && Follows(e.next, Ridden(r, e.packets, e.id, e.x), run[1..])
  }

  function RiddenAll(r: Ride, run: seq<Turn>): Ride
    decreases |run|
  {
    if run == [] then r else RiddenAll(Ridden(r, run[0].packets, run[0].id, run[0].x), run[1..])
  }

  /** However packets arrive, reorder and wrap around, the record stays exact. */
  lemma {:induction false} MissingIsNotReceived(s: Stream, r: Ride, run: seq<Turn>)
    requires Tells(s, r) && Follows(s, r, run)
    ensures Tells(if run == [] then s else run[|run| - 1].next, RiddenAll(r, run))
    decreases |run|
  {
    if run != [] {
      var e := run[0];
      ArrivalKeepsRecordExact(e.packets, e.id, s, e.now, e.next, r, e.x);
      MissingIsNotReceived(e.next, Ridden(r, e.packets, e.id, e.x), run[1..]);
      if |run| > 1 {
        assert run[1..][|run| - 2] == run[|run| - 1];
      }
    }
  }
}
