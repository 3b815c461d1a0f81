/**
 * Which packets of a stream are missing (trackGapLocked and dueRepairs in
 * internal/ingest/recovery.go). Sequence numbers are 16 bits wide and wrap around.
 */
module GapTracking {
  import opened Bytes
  import opened Identities
  import opened RecoveryWire
  import opened Parity

  /** How many packets the sender keeps for repair. */
  const HISTORY_SIZE := 4096
  const REQUEST_SIZE := 32

  /** 50 ms in nanoseconds. */
  const RETRY := 50_000_000

  datatype StreamId = StreamId(remote: Identity, ssrc: uint32)

  /** `missing` maps a number to the time it was last requested, 0 for never. */
  datatype Stream = Stream(
    highest: uint16,
    based: bool,
    enabled: bool,
    missing: map<uint16, int>,
    lastTouched: int)

  function PacketOf(id: StreamId, sequence: uint16): PacketId {
    PacketId(id.remote, id.ssrc, sequence)
  }

  function StreamOf(id: PacketId): StreamId {
    StreamId(id.remote, id.ssrc)
  }

  /** Whether `m` lies between `highest` and `sequence`, and less than 4096 behind the latter. */
  predicate Skipped(highest: uint16, sequence: uint16, m: uint16) {
    var behind := Minus16(sequence, m);
    0 < behind < Minus16(sequence, highest) && behind < HISTORY_SIZE
  }

  /** Whether an arrival moves the stream forward. */
  predicate Advances(s: Stream, sequence: uint16) {
    s.based && 0 < Minus16(sequence, s.highest) < 0x8000
  }

  /** Whether a missing number outlives a jump to `sequence`; a step of one forgets nothing. */
  predicate Retained(highest: uint16, sequence: uint16, m: uint16) {
    Minus16(sequence, highest) == 1 || Minus16(sequence, m) < HISTORY_SIZE
  }

  /** What `missing` becomes when the stream advances from `s.highest` to `id.sequence`. */
  ghost predicate GapTracked(packets: Packets, id: PacketId, s: Stream, missing: map<uint16, int>) {
    && (forall m :: m in missing <==>
          || (m in s.missing && Retained(s.highest, id.sequence, m))
          || (Skipped(s.highest, id.sequence, m) && id.(sequence := m) !in packets))
    && (forall m :: m in missing ==> missing[m] == if m in s.missing then s.missing[m] else 0)
  }

  /** The trimming loop: numbers 4096 or more behind are forgotten. */
  method Trim(missing: map<uint16, int>, sequence: uint16) returns (kept: map<uint16, int>)
    ensures forall m :: m in kept <==> m in missing && Minus16(sequence, m) < HISTORY_SIZE
    ensures forall m :: m in kept ==> kept[m] == missing[m]
  {
    kept := missing;
    var todo := missing.Keys;
    while todo != {}
      invariant todo <= missing.Keys
      invariant forall m :: m in kept <==> m in missing && (m in todo || Minus16(sequence, m) < HISTORY_SIZE)
      invariant forall m :: m in kept ==> kept[m] == missing[m]
    {
      var m :| m in todo;
      todo := todo - {m};
      if Minus16(sequence, m) >= HISTORY_SIZE {
        kept := kept - {m};
      }
    }
  }

  /** `offset` numbers after `highest` is `delta - offset` numbers behind `highest + delta`. */
  lemma OffsetIsBehind(highest: uint16, sequence: uint16, offset: uint16)
    requires offset <= Minus16(sequence, highest)
    ensures Minus16(sequence, Plus16(highest, offset)) == Minus16(sequence, highest) - offset
  {
  }

  /** Every number behind `sequence` and after `highest` is reached from `highest` by one offset. */
  lemma BehindIsOffset(highest: uint16, sequence: uint16, m: uint16)
    requires Minus16(sequence, m) <= Minus16(sequence, highest)
    ensures m == Plus16(highest, Minus16(sequence, highest) - Minus16(sequence, m))
  {
  }

  /** The filling loop: skipped numbers that are not held become missing. */
  method Fill(packets: Packets, id: PacketId, highest: uint16, before: map<uint16, int>)
    returns (missing: map<uint16, int>)
    requires 0 < Minus16(id.sequence, highest) < 0x8000
    ensures forall m :: m in missing <==>
              m in before || (Skipped(highest, id.sequence, m) && id.(sequence := m) !in packets)
    ensures forall m :: m in missing ==> missing[m] == if m in before then before[m] else 0
  {
    missing := before;
    var delta := Minus16(id.sequence, highest);
    var start := if delta - HISTORY_SIZE + 1 > 1 then delta - HISTORY_SIZE + 1 else 1;
    for offset := start to delta
      invariant forall m :: m in missing <==>
                  || m in before
                  || (Skipped(highest, id.sequence, m) && delta - Minus16(id.sequence, m) < offset
                      && id.(sequence := m) !in packets)
      invariant forall m :: m in missing ==> missing[m] == if m in before then before[m] else 0
    {
      var m := Plus16(highest, offset);
      OffsetIsBehind(highest, id.sequence, offset);
      forall k | Minus16(id.sequence, k) == delta - offset ensures k == m {
        BehindIsOffset(highest, id.sequence, k);
      }
      if id.(sequence := m) !in packets && m !in missing {
        missing := missing[m := 0];
      }
    }
  }

  /** The first packet sets the base; only one that advances the stream changes it after that. */
  ghost predicate Tracked(packets: Packets, id: PacketId, s: Stream, next: Stream) {
    if !s.based then next == s.(highest := id.sequence, based := true)
    else if !Advances(s, id.sequence) then next == s
    else
      && next == s.(highest := id.sequence, missing := next.missing)
      && GapTracked(packets, id, s, next.missing)
  }

  /** trackGapLocked */
  method TrackGap(packets: Packets, id: PacketId, s: Stream) returns (next: Stream)
    ensures Tracked(packets, id, s, next)
  {
    if !s.based {
      return s.(highest := id.sequence, based := true);
    }
    var delta := Minus16(id.sequence, s.highest);
    if delta == 0 || delta >= 0x8000 {
      return s;
    }
    var kept := s.missing;
    if delta > 1 {
      kept := Trim(s.missing, id.sequence);
    }
    var missing := Fill(packets, id, s.highest, kept);
    next := s.(highest := id.sequence, missing := missing);
    assert GapTracked(packets, id, s, missing);
  }

  // ---- Repair requests ----

  /** The sender no longer has this packet. */
  predicate Stale(s: Stream, m: uint16) {
    s.based && HISTORY_SIZE <= Minus16(s.highest, m) < 0x8000
  }

  predicate Due(s: Stream, m: uint16, now: int)
    requires m in s.missing
  {
    !Stale(s, m) && (s.missing[m] == 0 || now - s.missing[m] >= RETRY)
  }

  ghost predicate Distinct(s: seq<uint16>) {
    forall i, j :: 0 <= i < j < |s| ==> s[i] != s[j]
  }

  /** One pass over part of `missing`: `seen` have been looked at, `due` are requested now. */
  ghost predicate Scanned(s: Stream, now: int, seen: set<uint16>, missing: map<uint16, int>, due: seq<uint16>) {
    && (forall m :: m in missing <==> m in s.missing && (m in seen ==> !Stale(s, m)))
    && (forall m :: m in due <==> m in seen && m in s.missing && Due(s, m, now))
    && (forall m :: m in missing ==> missing[m] == if m in due then now else s.missing[m])
    && Distinct(due)
    && |due| <= REQUEST_SIZE
  }

  lemma ScanDrops(s: Stream, now: int, seen: set<uint16>, missing: map<uint16, int>, due: seq<uint16>, m: uint16)
    requires Scanned(s, now, seen, missing, due) && m in s.missing && m !in seen && Stale(s, m)
    ensures Scanned(s, now, seen + {m}, missing - {m}, due)
  {
  }

  lemma ScanKeeps(s: Stream, now: int, seen: set<uint16>, missing: map<uint16, int>, due: seq<uint16>, m: uint16)
    requires Scanned(s, now, seen, missing, due) && m in s.missing && m !in seen && !Stale(s, m) && !Due(s, m, now)
    ensures Scanned(s, now, seen + {m}, missing, due)
  {
  }

  lemma ScanTakes(s: Stream, now: int, seen: set<uint16>, missing: map<uint16, int>, due: seq<uint16>, m: uint16)
    requires Scanned(s, now, seen, missing, due) && m in s.missing && m !in seen && Due(s, m, now)
    requires |due| < REQUEST_SIZE
    ensures Scanned(s, now, seen + {m}, missing[m := now], due + [m])
  {
    assert m !in due;
  }

  /** dueRepairs; the order of Go's map iteration is arbitrary. */
  method DueRepairs(s: Stream, now: int) returns (next: Stream, due: seq<uint16>, ghost seen: set<uint16>)
    ensures next == s.(missing := next.missing)
    ensures seen <= s.missing.Keys && Scanned(s, now, seen, next.missing, due)
    ensures |due| < REQUEST_SIZE ==> seen == s.missing.Keys
  {
    var missing := s.missing;
    var todo := s.missing.Keys;
    due, seen := [], {};
    while todo != {}
      invariant todo !! seen && todo + seen == s.missing.Keys
      invariant Scanned(s, now, seen, missing, due)
      invariant |due| < REQUEST_SIZE
    {
      var m :| m in todo;
      todo := todo - {m};
      ghost var before := seen;
      seen := seen + {m};
      if Stale(s, m) {
        ScanDrops(s, now, before, missing, due, m);
        missing := missing - {m};
      } else if s.missing[m] != 0 && now - s.missing[m] < RETRY {
        ScanKeeps(s, now, before, missing, due, m);
      } else {
        ScanTakes(s, now, before, missing, due, m);
        missing := missing[m := now];
        due := due + [m];
        if |due| == REQUEST_SIZE {
          break;
        }
      }
    }
    next := s.(missing := missing);
  }

  // ---- Nothing held is missing ----

  /** The receiver holds none of the packets the stream says are missing. */
  ghost predicate Disjoint(packets: Packets, id: StreamId, missing: map<uint16, int>) {
    forall m :: m in missing ==> PacketOf(id, m) !in packets
  }

  ghost predicate AllDisjoint(packets: Packets, streams: map<StreamId, Stream>) {
    forall id :: id in streams ==> Disjoint(packets, id, streams[id].missing)
  }

  lemma TrackedStaysDisjoint(packets: Packets, id: PacketId, s: Stream, next: Stream)
    requires Disjoint(packets, StreamOf(id), s.missing) && Tracked(packets, id, s, next)
    ensures Disjoint(packets, StreamOf(id), next.missing)
  {
    forall m | m in next.missing ensures PacketOf(StreamOf(id), m) !in packets {
      assert PacketOf(StreamOf(id), m) == id.(sequence := m);
    }
  }

  /** A request names only packets that are missing and therefore not held. */
  lemma RequestsNothingHeld(packets: Packets, id: StreamId, s: Stream, now: int, seen: set<uint16>,
                            missing: map<uint16, int>, due: seq<uint16>)
    requires Disjoint(packets, id, s.missing) && Scanned(s, now, seen, missing, due)
    ensures Disjoint(packets, id, missing)
    ensures forall i :: 0 <= i < |due| ==> due[i] in missing && PacketOf(id, due[i]) !in packets
  {
  }
}
