/**
 * Datagrams of the packet recovery protocol (internal/ingest/recovery.go): a parity datagram
 * names the RTP packets of one group and carries their exclusive or, a request datagram names
 * the packets a receiver still wants.
 */
module RecoveryWire {
  import opened Basics
  import opened Bytes
  import opened Identities

  const HEADER_SIZE := 12
  const PARITY_TYPE: byte := 1
  const REQUEST_TYPE: byte := 2

  datatype PacketId = PacketId(remote: Identity, ssrc: uint32, sequence: uint16)

  /** A listed packet; its length travels in 16 bits. */
  datatype Entry = Entry(id: PacketId, length: uint16)

  datatype Group = Group(entries: seq<Entry>, parity: seq<byte>, remote: Address)

  datatype GroupId = GroupId(remote: Identity, ssrc: uint32, last: uint16)

  // ---- The table of a parity datagram ----

  /** What a parity datagram says of one packet. */
  datatype Item = Item(sequence: uint16, length: uint16)

  /** Reads a table, four octets at a time. */
  function Items(table: seq<byte>): (items: seq<Item>)
    ensures |items| == |table| / 4
  {
    if |table| < 4 then []
    else [Item(Word(table[0], table[1]), Word(table[2], table[3]))] + Items(table[4..])
  }

  /** Writes a table. */
  function ItemBytes(items: seq<Item>): (table: seq<byte>)
    ensures |table| == 4 * |items|
  {
    if items == [] then []
    else
      var e := items[0];
      [High(e.sequence), Low(e.sequence), High(e.length), Low(e.length)] + ItemBytes(items[1..])
  }

  lemma WordWritesBack(h: byte, l: byte)
    ensures High(Word(h, l)) == h && Low(Word(h, l)) == l
  {
  }

  lemma {:induction false} ItemsRoundTrip(items: seq<Item>)
    ensures Items(ItemBytes(items)) == items
  {
    if items != [] {
      ItemsRoundTrip(items[1..]);
      assert ItemBytes(items)[4..] == ItemBytes(items[1..]);
    }
  }

  lemma {:induction false} TableRoundTrip(table: seq<byte>)
    requires |table| % 4 == 0
    ensures ItemBytes(Items(table)) == table
  {
    if table != [] {
      TableRoundTrip(table[4..]);
      WordWritesBack(table[0], table[1]);
      WordWritesBack(table[2], table[3]);
      assert Items(table)[1..] == Items(table[4..]);
    }
  }

  /** The item in the `i`th four octets of a table. */
  function ItemIn(table: seq<byte>, i: nat): Item
    requires 4 * i + 4 <= |table|
  {
    Item(Word(table[4 * i], table[4 * i + 1]), Word(table[4 * i + 2], table[4 * i + 3]))
  }

  lemma {:induction false} ItemAt(table: seq<byte>, i: nat)
    requires 4 * i + 4 <= |table|
    ensures i < |Items(table)| && Items(table)[i] == ItemIn(table, i)
  {
    if i > 0 {
      ItemAt(table[4..], i - 1);
    }
  }

  /** Length of the longest listed packet. */
  function Longest(items: seq<Item>): (n: nat)
    ensures forall i :: 0 <= i < |items| ==> items[i].length <= n
  {
    if items == [] then 0
    else
      var last := |items| - 1;
      var n := Longest(items[..last]);
      if items[last].length > n then items[last].length else n
  }

  // ---- Groups ----

  /** The listed packets, filed under an identity and a stream. */
  function Listing(items: seq<Item>, remote: Identity, ssrc: uint32): (es: seq<Entry>)
    ensures |es| == |items|
    ensures forall i :: 0 <= i < |es| ==> es[i] == Entry(PacketId(remote, ssrc, items[i].sequence), items[i].length)
  {
    if items == [] then []
    else
      var last := |items| - 1;
      Listing(items[..last], remote, ssrc) + [Entry(PacketId(remote, ssrc, items[last].sequence), items[last].length)]
  }

  function ItemsOf(entries: seq<Entry>): (items: seq<Item>)
    ensures |items| == |entries|
    ensures forall i :: 0 <= i < |items| ==> items[i] == Item(entries[i].id.sequence, entries[i].length)
  {
    if entries == [] then []
    else
      var last := |entries| - 1;
      ItemsOf(entries[..last]) + [Item(entries[last].id.sequence, entries[last].length)]
  }

  /** A list of packets as a parity datagram can give it: 2 to 32 of one stream, none shorter than an RTP header. */
  predicate Listed(entries: seq<Entry>, remote: Identity, ssrc: uint32) {
    && 2 <= |entries| <= 32
    && (forall i :: 0 <= i < |entries| ==>
          entries[i].id.remote == remote && entries[i].id.ssrc == ssrc && 12 <= entries[i].length)
  }

  lemma ListingOfItems(entries: seq<Entry>, remote: Identity, ssrc: uint32)
    requires Listed(entries, remote, ssrc)
    ensures Listing(ItemsOf(entries), remote, ssrc) == entries
  {
  }

  lemma ItemsOfListing(items: seq<Item>, remote: Identity, ssrc: uint32)
    ensures ItemsOf(Listing(items, remote, ssrc)) == items
  {
  }

  // ---- Reading a parity datagram ----

  function SsrcIn(data: seq<byte>): uint32
    requires |data| >= HEADER_SIZE
  {
    Long(Word(data[8], data[9]), Word(data[10], data[11]))
  }

  /** Where the table ends and the parity begins. */
  function TableEnd(data: seq<byte>): nat
    requires |data| >= HEADER_SIZE
  {
    var count: nat := data[5];
    HEADER_SIZE + 4 * count
  }

  function ItemsIn(data: seq<byte>): (items: seq<Item>)
    requires |data| >= HEADER_SIZE && |data| >= TableEnd(data)
    ensures |items| == data[5]
  {
    Items(data[HEADER_SIZE..TableEnd(data)])
  }

  /** Whether a datagram is a parity datagram the receiver accepts. */
  predicate Accepts(data: seq<byte>) {
    && |data| >= HEADER_SIZE
    && data[4] == PARITY_TYPE
    && 2 <= data[5] <= 32
    && |data| >= TableEnd(data)
    && (forall i :: 0 <= i < |ItemsIn(data)| ==> ItemsIn(data)[i].length >= 12)
    && |data| == TableEnd(data) + Longest(ItemsIn(data))
  }

  /** The group a datagram describes, filed under `remote`. */
  function GroupIn(data: seq<byte>, remote: Identity, address: Address): Group
    requires Accepts(data)
  {
    Group(Listing(ItemsIn(data), remote, SsrcIn(data)), data[TableEnd(data)..], address)
  }

  function GroupIdIn(data: seq<byte>, remote: Identity): GroupId
    requires Accepts(data)
  {
    GroupId(remote, SsrcIn(data), ItemsIn(data)[|ItemsIn(data)| - 1].sequence)
  }

  lemma AcceptedIsListed(data: seq<byte>, remote: Identity, address: Address)
    requires Accepts(data)
    ensures Listed(GroupIn(data, remote, address).entries, remote, SsrcIn(data))
    ensures |GroupIn(data, remote, address).parity| == Longest(ItemsIn(data))
  {
  }

  lemma LongestStep(items: seq<Item>, index: nat)
    requires index < |items|
    ensures Longest(items[..index + 1]) ==
              if items[index].length > Longest(items[..index]) then items[index].length else Longest(items[..index])
  {
    assert items[..index + 1][..index] == items[..index];
  }

  lemma ListingStep(items: seq<Item>, index: nat, remote: Identity, ssrc: uint32)
    requires index < |items|
    ensures Listing(items[..index + 1], remote, ssrc) ==
              Listing(items[..index], remote, ssrc) + [Entry(PacketId(remote, ssrc, items[index].sequence),
                items[index].length)]
  {
    assert items[..index + 1][..index] == items[..index];
  }

  /** The loop of parseRecoveryGroup; it gives up at the first packet shorter than an RTP header. */
  method ParseTable(table: seq<byte>, ghost items: seq<Item>, remote: Identity, ssrc: uint32, count: nat)
    returns (ok: bool, entries: seq<Entry>, maximum: nat)
    requires |items| == count && |table| == 4 * count && forall i :: 0 <= i < count ==> items[i] == ItemIn(table, i)
    ensures ok <==> forall i :: 0 <= i < count ==> items[i].length >= 12
    ensures ok ==> entries == Listing(items, remote, ssrc) && maximum == Longest(items)
  {
    entries, maximum := [], 0;
    for index := 0 to count
      invariant entries == Listing(items[..index], remote, ssrc) && maximum == Longest(items[..index])
      invariant forall i :: 0 <= i < index ==> items[i].length >= 12
    {
      var item := ItemIn(table, index);
      if item.length < 12 {
        assert items[index].length < 12;
        return false, [], 0;
      }
      LongestStep(items, index);
      ListingStep(items, index, remote, ssrc);
      maximum := if item.length > maximum then item.length else maximum;
      entries := entries + [Entry(PacketId(remote, ssrc, item.sequence), item.length)];
    }
    assert items[..count] == items;
    ok := true;
  }

  lemma AllItemsAt(table: seq<byte>, count: nat)
    requires |table| == 4 * count
    ensures |Items(table)| == count && forall i :: 0 <= i < count ==> Items(table)[i] == ItemIn(table, i)
  {
    forall i | 0 <= i < count ensures Items(table)[i] == ItemIn(table, i) {
      ItemAt(table, i);
    }
  }

  /** parseRecoveryGroup */
  method ParseGroup(data: seq<byte>, remote: Address) returns (r: Option<(Group, GroupId)>)
    ensures r.Some? <==> Accepts(data)
    ensures r.Some? ==> r.value == (GroupIn(data, Identity(remote), remote), GroupIdIn(data, Identity(remote)))
  {
    if |data| < HEADER_SIZE || data[4] != PARITY_TYPE {
      return None;
    }
    var count: nat := data[5];
    var entriesEnd := TableEnd(data);
    if count < 2 || count > 32 || |data| < entriesEnd {
      return None;
    }
    var table, name, ssrc := data[HEADER_SIZE..entriesEnd], Identity(remote), SsrcIn(data);
    AllItemsAt(table, count);
    var ok, entries, maximum := ParseTable(table, ItemsIn(data), name, ssrc, count);
    if !ok || maximum == 0 || |data| != entriesEnd + maximum {
      return None;
    }
    return Some((Group(entries, data[entriesEnd..], remote), GroupId(name, ssrc, entries[|entries| - 1].id.sequence)));
  }

  /** The loop of consumeParity that files every entry under the authenticated identity. */
  method Relabel(entries: seq<Entry>, identity: Identity) returns (r: seq<Entry>)
    ensures |r| == |entries|
    ensures forall i :: 0 <= i < |r| ==> r[i] == entries[i].(id := entries[i].id.(remote := identity))
  {
    r := entries;
    for index := 0 to |entries|
      invariant |r| == |entries|
      invariant forall i :: 0 <= i < index ==> r[i] == entries[i].(id := entries[i].id.(remote := identity))
      invariant forall i :: index <= i < |r| ==> r[i] == entries[i]
    {
      r := r[index := r[index].(id := r[index].id.(remote := identity))];
    }
  }

  /** Parsing under one name and filing under another is parsing under the other. */
  lemma RelabelledIsParsed(items: seq<Item>, ssrc: uint32, parsed: Identity, identity: Identity, r: seq<Entry>)
    requires |r| == |items|
    requires forall i :: 0 <= i < |r| ==>
               r[i] == Listing(items, parsed, ssrc)[i].(id := Listing(items, parsed, ssrc)[i].id.(remote := identity))
    ensures r == Listing(items, identity, ssrc)
  {
  }

  // ---- What the sender writes ----

  function LongBytes(n: uint32): seq<byte> {
    [High(n / 0x1_0000), Low(n / 0x1_0000), High(n % 0x1_0000), Low(n % 0x1_0000)]
  }

  /** The parity datagram for a group: magic, type, count, two reserved octets, SSRC, table, parity. */
  function Encoded(g: Group, ssrc: uint32, magic: seq<byte>, reserved: seq<byte>): seq<byte>
    requires |magic| == 4 && |reserved| == 2 && |g.entries| <= 32
  {
    magic + [PARITY_TYPE, |g.entries|] + reserved + LongBytes(ssrc) + ItemBytes(ItemsOf(g.entries)) + g.parity
  }

  lemma EncodedLayout(g: Group, ssrc: uint32, magic: seq<byte>, reserved: seq<byte>)
    requires |magic| == 4 && |reserved| == 2 && |g.entries| <= 32
    ensures var d := Encoded(g, ssrc, magic, reserved); var n := |g.entries|;
            && |d| == HEADER_SIZE + 4 * n + |g.parity|
            && d[..4] == magic && d[4] == PARITY_TYPE && d[5] == n && d[6..8] == reserved
            && SsrcIn(d) == ssrc
            && d[HEADER_SIZE..HEADER_SIZE + 4 * n] == ItemBytes(ItemsOf(g.entries))
            && d[HEADER_SIZE + 4 * n..] == g.parity
  {
    var d, n := Encoded(g, ssrc, magic, reserved), |g.entries|;
    var header := magic + [PARITY_TYPE, n] + reserved + LongBytes(ssrc);
    assert d == header + ItemBytes(ItemsOf(g.entries)) + g.parity;
    assert d[..HEADER_SIZE] == header;
    assert d[8..12] == LongBytes(ssrc);
    assert d[8] == LongBytes(ssrc)[0] && d[9] == LongBytes(ssrc)[1];
    assert d[10] == LongBytes(ssrc)[2] && d[11] == LongBytes(ssrc)[3];
  }

  /** A datagram laid out for a group is read as that group. */
  lemma LaidOutIsRead(d: seq<byte>, g: Group, identity: Identity, items: seq<Item>)
    requires |d| >= HEADER_SIZE && Listed(g.entries, identity, SsrcIn(d))
    requires items == ItemsOf(g.entries) && |g.parity| == Longest(items)
    requires d[4] == PARITY_TYPE && d[5] == |g.entries| && |d| == TableEnd(d) + |g.parity|
    requires ItemsIn(d) == items && d[TableEnd(d)..] == g.parity
    ensures Accepts(d) && GroupIn(d, identity, g.remote) == g
  {
    ListingOfItems(g.entries, identity, SsrcIn(d));
  }

  /** Every well-formed group survives the wire, whatever the magic and the reserved octets. */
  lemma ParityRoundTrip(g: Group, identity: Identity, ssrc: uint32, magic: seq<byte>, reserved: seq<byte>)
    requires |magic| == 4 && |reserved| == 2
    requires Listed(g.entries, identity, ssrc) && |g.parity| == Longest(ItemsOf(g.entries))
    ensures var d := Encoded(g, ssrc, magic, reserved);
            Accepts(d) && SsrcIn(d) == ssrc && GroupIn(d, identity, g.remote) == g
  {
    EncodedLayout(g, ssrc, magic, reserved);
    var d := Encoded(g, ssrc, magic, reserved);
    ItemsRoundTrip(ItemsOf(g.entries));
    assert TableEnd(d) == HEADER_SIZE + 4 * |g.entries|;
    LaidOutIsRead(d, g, identity, ItemsOf(g.entries));
  }

  lemma WordSplits(h: byte, l: byte)
    ensures High(Word(h, l)) == h && Low(Word(h, l)) == l
  {
  }

  lemma LongSplits(h: uint16, l: uint16)
    ensures Long(h, l) / 0x1_0000 == h && Long(h, l) % 0x1_0000 == l
  {
  }

  lemma SsrcWritesBack(data: seq<byte>)
    requires |data| >= HEADER_SIZE
    ensures LongBytes(SsrcIn(data)) == data[8..12]
  {
    LongSplits(Word(data[8], data[9]), Word(data[10], data[11]));
    WordSplits(data[8], data[9]);
    WordSplits(data[10], data[11]);
  }

  lemma Pieces(data: seq<byte>, end: nat)
    requires HEADER_SIZE <= end <= |data|
    ensures data == data[..4] + [data[4], data[5]] + data[6..8] + data[8..12] + data[12..end] + data[end..]
  {
    assert data[..6] == data[..4] + [data[4], data[5]];
    assert data[..8] == data[..6] + data[6..8];
    assert data[..12] == data[..8] + data[8..12];
    assert data[..end] == data[..12] + data[12..end];
  }

  /** Nothing else is accepted: an accepted datagram is the encoding of the group read from it. */
  lemma AcceptedIsEncoded(data: seq<byte>, identity: Identity, address: Address)
    requires Accepts(data)
    ensures Listed(GroupIn(data, identity, address).entries, identity, SsrcIn(data))
    ensures Encoded(GroupIn(data, identity, address), SsrcIn(data), data[..4], data[6..8]) == data
  {
    AcceptedIsListed(data, identity, address);
    ItemsOfListing(ItemsIn(data), identity, SsrcIn(data));
    TableRoundTrip(data[HEADER_SIZE..TableEnd(data)]);
    SsrcWritesBack(data);
    Pieces(data, TableEnd(data));
  }

  // ---- Request datagrams ----

  /** Reads the numbers back out of a request datagram. */
  function NumbersIn(request: seq<byte>, k: nat): (ns: seq<uint16>)
    requires |request| >= HEADER_SIZE + 2 * k
    ensures |ns| == k
    ensures forall i :: 0 <= i < k ==> ns[i] == Word(request[HEADER_SIZE + 2 * i], request[HEADER_SIZE + 2 * i + 1])
  {
    if k == 0 then []
    else NumbersIn(request, k - 1) + [Word(request[HEADER_SIZE + 2 * k - 2], request[HEADER_SIZE + 2 * k - 1])]
  }

  /** The first twelve octets of a request for `n` packets of stream `ssrc`. */
  predicate RequestHeader(header: seq<byte>, ssrc: uint32, n: nat) {
    && |header| >= HEADER_SIZE
    && header[0] == 87 && header[1] == 71 && header[2] == 82 && header[3] == 49
    && header[4] == REQUEST_TYPE && header[5] == n % 256 && header[6] == header[7] == 0
    && SsrcIn(header) == ssrc
  }

  /** Whether `request` asks for exactly `numbers` of stream `ssrc`, in that order. */
  predicate AsksFor(request: seq<byte>, ssrc: uint32, numbers: seq<uint16>) {
    if numbers == [] then request == []
    else
      && |request| == HEADER_SIZE + 2 * |numbers|
      && RequestHeader(request, ssrc, |numbers|)
      && NumbersIn(request, |numbers|) == numbers
  }

  lemma HeaderPrefix(header: seq<byte>, request: seq<byte>, ssrc: uint32, n: nat)
    requires |header| == HEADER_SIZE && header <= request && RequestHeader(header, ssrc, n)
    ensures RequestHeader(request, ssrc, n)
  {
    assert forall i :: 0 <= i < HEADER_SIZE ==> request[i] == header[i];
  }

  lemma NumbersReadBack(header: seq<byte>, body: seq<byte>, numbers: seq<uint16>)
    requires |header| == HEADER_SIZE && |body| == 2 * |numbers|
    requires forall i :: 0 <= i < |numbers| ==> Word(body[2 * i], body[2 * i + 1]) == numbers[i]
    ensures NumbersIn(header + body, |numbers|) == numbers
  {
    var request := header + body;
    forall i | 0 <= i < |numbers| ensures NumbersIn(request, |numbers|)[i] == numbers[i] {
      assert request[HEADER_SIZE + 2 * i] == body[2 * i] && request[HEADER_SIZE + 2 * i + 1] == body[2 * i + 1];
    }
  }

  /** makeRecoveryRequest */
  method MakeRequest(ssrc: uint32, numbers: seq<uint16>) returns (request: seq<byte>)
    ensures AsksFor(request, ssrc, numbers)
  {
    if |numbers| == 0 {
      return [];
    }
    var header := [87, 71, 82, 49, REQUEST_TYPE, |numbers| % 256, 0, 0] + LongBytes(ssrc);
    assert RequestHeader(header, ssrc, |numbers|);
    var body: seq<byte> := [];
    for index := 0 to |numbers|
      invariant |body| == 2 * index
      invariant forall i :: 0 <= i < index ==> Word(body[2 * i], body[2 * i + 1]) == numbers[i]
    {
      body := body + [High(numbers[index]), Low(numbers[index])];
    }
    request := header + body;
    HeaderPrefix(header, request, ssrc, |numbers|);
    NumbersReadBack(header, body, numbers);
  }
}
