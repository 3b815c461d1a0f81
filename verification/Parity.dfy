/**
 * The erasure decoder of packet recovery (recoverGroupLocked in internal/ingest/recovery.go):
 * the parity of a group is the exclusive or of its packets, padded with zeros to the longest,
 * so any one of them can be rebuilt from the others.
 */
module Parity {
  import opened Basics
  import opened Bytes
  import opened Identities
  import opened RecoveryWire

  type Packets = map<PacketId, seq<byte>>

  /** What was sent: one fixed string of octets for every identity, SSRC and sequence number. */
  type Sender = PacketId -> seq<byte>

  /** Octet `i` of a packet padded with zeros. */
  function Padded(packet: seq<byte>, i: nat): byte {
    if i < |packet| then packet[i] else 0
  }

  /** Octet `i` of the exclusive or of the listed packets as the sender has them. */
  ghost function SentOctet(sender: Sender, entries: seq<Entry>, i: nat): byte {
    if entries == [] then 0
    else
      var n := |entries| - 1;
      Xor(SentOctet(sender, entries[..n], i), Padded(sender(entries[n].id), i))
  }

  /** Octet `i` of the exclusive or of those listed packets that are held. */
  ghost function HeldOctet(packets: Packets, entries: seq<Entry>, i: nat): byte {
    if entries == [] then 0
    else
      var n := |entries| - 1;
      var rest := HeldOctet(packets, entries[..n], i);
      if entries[n].id in packets then Xor(rest, Padded(packets[entries[n].id], i)) else rest
  }

  /** Sequence numbers of the listed packets that are not held, in listing order. */
  ghost function MissingNumbers(packets: Packets, entries: seq<Entry>): seq<uint16> {
    if entries == [] then []
    else
      var n := |entries| - 1;
      var rest := MissingNumbers(packets, entries[..n]);
      if entries[n].id in packets then rest else rest + [entries[n].id.sequence]
  }

  /** Whether every held packet has the length its group claims for it. */
  ghost predicate LengthsMatch(packets: Packets, entries: seq<Entry>) {
    forall k :: 0 <= k < |entries| && entries[k].id in packets ==> |packets[entries[k].id]| == entries[k].length
  }

  /** No entry is longer than the parity: what makes every octet of the rebuild an octet of the parity. */
  predicate Covered(group: Group) {
    forall k :: 0 <= k < |group.entries| ==> group.entries[k].length <= |group.parity|
  }

  lemma ListedIsCovered(group: Group)
    requires |group.parity| == Longest(ItemsOf(group.entries))
    ensures Covered(group)
  {
    forall k | 0 <= k < |group.entries| ensures group.entries[k].length <= |group.parity| {
      assert ItemsOf(group.entries)[k].length <= Longest(ItemsOf(group.entries));
    }
  }

  ghost predicate HonestPackets(sender: Sender, packets: Packets) {
    forall id :: id in packets ==> packets[id] == sender(id)
  }

  ghost predicate HonestGroup(sender: Sender, group: Group) {
    && (forall k :: 0 <= k < |group.entries| ==> |sender(group.entries[k].id)| == group.entries[k].length)
    && (forall i :: 0 <= i < |group.parity| ==> group.parity[i] == SentOctet(sender, group.entries, i))
  }

  /** Index of the last listed packet that is not held. */
  ghost function LostIndex(packets: Packets, entries: seq<Entry>): (k: nat)
    requires MissingNumbers(packets, entries) != []
    ensures k < |entries| && entries[k].id !in packets
  {
    var n := |entries| - 1;
    if entries[n].id !in packets then n else LostIndex(packets, entries[..n])
  }

  /** The first `n` octets of the parity, with the held packets taken out of it. */
  ghost function Remainder(packets: Packets, group: Group, n: nat): (data: seq<byte>)
    requires n <= |group.parity|
    ensures |data| == n
    ensures forall i :: 0 <= i < n ==> data[i] == Xor(group.parity[i], HeldOctet(packets, group.entries, i))
  {
    if n == 0 then []
    else Remainder(packets, group, n - 1) + [Xor(group.parity[n - 1], HeldOctet(packets, group.entries, n - 1))]
  }

  /** One packet is missing and every other has its claimed length. */
  ghost predicate Recoverable(packets: Packets, group: Group) {
    |MissingNumbers(packets, group.entries)| == 1 && LengthsMatch(packets, group.entries)
  }

  /** The packet a recoverable group gives back. */
  ghost function Lost(packets: Packets, group: Group): Entry
    requires Recoverable(packets, group)
  {
    group.entries[LostIndex(packets, group.entries)]
  }

  /** Its octets, as the decoder computes them. */
  ghost function Rebuilt(packets: Packets, group: Group): seq<byte>
    requires Covered(group) && Recoverable(packets, group)
  {
    Remainder(packets, group, Lost(packets, group).length)
  }

  // ---- The decoder ----

  /** data[index] ^= packet[index] over a whole packet. */
  method XorInto(data: array<byte>, packet: seq<byte>)
    requires |packet| <= data.Length
    modifies data
    ensures forall i :: 0 <= i < data.Length ==> data[i] == Xor(old(data[i]), Padded(packet, i))
  {
    forall i | |packet| <= i < data.Length ensures Xor(data[i], 0) == data[i] {
      XorLaws(data[i], 0, 0);
    }
    for index := 0 to |packet|
      invariant forall i :: 0 <= i < index ==> data[i] == Xor(old(data[i]), Padded(packet, i))
      invariant forall i :: index <= i < data.Length ==> data[i] == old(data[i])
    {
      data[index] := Xor(data[index], packet[index]);
    }
  }

  method CopyOf(data: seq<byte>) returns (buffer: array<byte>)
    ensures fresh(buffer) && buffer[..] == data
  {
    buffer := new byte[|data|];
    for i := 0 to |data|
      invariant buffer[..i] == data[..i]
    {
      buffer[i] := data[i];
    }
  }

  /** The first loop of recoverGroupLocked. */
  method FindMissing(packets: Packets, entries: seq<Entry>) returns (missing: seq<uint16>)
    ensures missing == MissingNumbers(packets, entries)
  {
    missing := [];
    for k := 0 to |entries|
      invariant missing == MissingNumbers(packets, entries[..k])
    {
      assert entries[..k + 1][..k] == entries[..k];
      if entries[k].id !in packets {
        missing := missing + [entries[k].id.sequence];
      }
    }
    assert entries[..|entries|] == entries;
  }

  /** The parity folded with the held packets of the first `k` entries. */
  ghost predicate Folded(data: seq<byte>, packets: Packets, group: Group, k: nat)
    requires k <= |group.entries|
  {
    && |data| == |group.parity|
    && forall i :: 0 <= i < |data| ==> data[i] == Xor(group.parity[i], HeldOctet(packets, group.entries[..k], i))
  }

  lemma FoldStarts(packets: Packets, group: Group)
    ensures Folded(group.parity, packets, group, 0)
  {
    forall i | 0 <= i < |group.parity| ensures Xor(group.parity[i], 0) == group.parity[i] {
      XorLaws(group.parity[i], 0, 0);
    }
  }

  lemma FoldSkips(data: seq<byte>, packets: Packets, group: Group, k: nat)
    requires k < |group.entries| && Folded(data, packets, group, k) && group.entries[k].id !in packets
    ensures Folded(data, packets, group, k + 1)
  {
    assert group.entries[..k + 1][..k] == group.entries[..k];
  }

  lemma FoldTakes(before: seq<byte>, after: seq<byte>, packets: Packets, group: Group, k: nat)
    requires k < |group.entries| && Folded(before, packets, group, k) && group.entries[k].id in packets
    requires |after| == |before|
    requires forall i :: 0 <= i < |after| ==> after[i] == Xor(before[i], Padded(packets[group.entries[k].id], i))
    ensures Folded(after, packets, group, k + 1)
  {
    assert group.entries[..k + 1][..k] == group.entries[..k];
    forall i | 0 <= i < |after|
      ensures after[i] == Xor(group.parity[i], HeldOctet(packets, group.entries[..k + 1], i))
    {
      XorLaws(group.parity[i], HeldOctet(packets, group.entries[..k], i), Padded(packets[group.entries[k].id], i));
    }
  }

  /** One step of the second loop: a held packet goes into the buffer. */
  method FoldIn(buffer: array<byte>, packets: Packets, group: Group, k: nat)
    requires k < |group.entries| && group.entries[k].id in packets
    requires |packets[group.entries[k].id]| <= buffer.Length && Folded(buffer[..], packets, group, k)
    modifies buffer
    ensures Folded(buffer[..], packets, group, k + 1)
  {
    ghost var before := buffer[..];
    XorInto(buffer, packets[group.entries[k].id]);
    FoldTakes(before, buffer[..], packets, group, k);
  }

  /** Only one packet can be the one that is missing. */
  lemma {:induction false} LostIsUnique(packets: Packets, entries: seq<Entry>, k: nat)
    requires |MissingNumbers(packets, entries)| == 1
    requires k < |entries| && entries[k].id !in packets
    ensures k == LostIndex(packets, entries)
  {
    var n := |entries| - 1;
    SomethingMissing(packets, entries[..n]);
    assert forall j :: 0 <= j < n ==> entries[..n][j] == entries[j];
    if entries[n].id in packets {
      LostIsUnique(packets, entries[..n], k);
    }
  }

  /** What the second loop knows after `k` entries: which one is lost, and that the lengths agree. */
  ghost predicate Examined(packets: Packets, entries: seq<Entry>, k: nat, found: Option<nat>)
    requires k <= |entries|
  {
    && (found.None? ==> forall j :: 0 <= j < k ==> entries[j].id in packets)
    && (found.Some? ==> found.value < k && entries[found.value].id !in packets)
    && (forall j :: 0 <= j < k && entries[j].id in packets ==> |packets[entries[j].id]| == entries[j].length)
  }

  lemma FoldEnds(data: seq<byte>, packets: Packets, group: Group, found: Option<nat>)
    requires Covered(group) && |MissingNumbers(packets, group.entries)| == 1
    requires Folded(data, packets, group, |group.entries|)
    requires Examined(packets, group.entries, |group.entries|, found)
    ensures Recoverable(packets, group)
    ensures found.Some? && group.entries[found.value] == Lost(packets, group)
    ensures group.entries[found.value].length <= |data|
    ensures data[..group.entries[found.value].length] == Rebuilt(packets, group)
  {
    assert group.entries[..|group.entries|] == group.entries;
    SomethingMissing(packets, group.entries);
    LostIsUnique(packets, group.entries, found.value);
  }

  /** The second loop of recoverGroupLocked: the wanted entry and its octets, or nothing on a length mismatch. */
  method Decode(packets: Packets, group: Group) returns (r: Option<(Entry, seq<byte>)>)
    requires Covered(group) && |MissingNumbers(packets, group.entries)| == 1
    ensures r.Some? <==> Recoverable(packets, group)
    ensures r.Some? ==> r.value == (Lost(packets, group), Rebuilt(packets, group))
  {
    var buffer := CopyOf(group.parity);
    FoldStarts(packets, group);
    var found: Option<nat> := None;
    for k := 0 to |group.entries|
      invariant fresh(buffer)
      invariant Folded(buffer[..], packets, group, k)
      invariant Examined(packets, group.entries, k, found)
    {
      var entry := group.entries[k];
      if entry.id !in packets {
        FoldSkips(buffer[..], packets, group, k);
        found := Some(k);
      } else {
        if |packets[entry.id]| != entry.length {
          assert !LengthsMatch(packets, group.entries);
          return None;
        }
        FoldIn(buffer, packets, group, k);
      }
    }
    FoldEnds(buffer[..], packets, group, found);
    var lost := group.entries[found.value];
    r := Some((lost, buffer[..lost.length]));
    assert buffer[..lost.length] == buffer[..][..lost.length];
  }

  lemma {:induction false} SomethingMissing(packets: Packets, entries: seq<Entry>)
    ensures MissingNumbers(packets, entries) == [] <==> forall j :: 0 <= j < |entries| ==> entries[j].id in packets
  {
    if entries != [] {
      var n := |entries| - 1;
      SomethingMissing(packets, entries[..n]);
      assert forall j :: 0 <= j < n ==> entries[..n][j] == entries[j];
    }
  }

  // ---- Why it is right ----

  lemma {:induction false} NothingMissing(sender: Sender, packets: Packets, entries: seq<Entry>, i: nat)
    requires HonestPackets(sender, packets)
    requires forall j :: 0 <= j < |entries| ==> entries[j].id in packets
    ensures HeldOctet(packets, entries, i) == SentOctet(sender, entries, i)
  {
    if entries != [] {
      NothingMissing(sender, packets, entries[..|entries| - 1], i);
    }
  }

  /** With one packet missing, its octet is what separates the full parity from the held one. */
  lemma {:induction false} OneMissing(sender: Sender, packets: Packets, entries: seq<Entry>, k: nat, i: nat)
    requires HonestPackets(sender, packets) && |MissingNumbers(packets, entries)| == 1
    requires k < |entries| && entries[k].id !in packets
    ensures SentOctet(sender, entries, i) == Xor(HeldOctet(packets, entries, i), Padded(sender(entries[k].id), i))
  {
    var n := |entries| - 1;
    var front := entries[..n];
    var held := HeldOctet(packets, front, i);
    SomethingMissing(packets, front);
    assert forall j :: 0 <= j < n ==> front[j] == entries[j];
    if entries[n].id in packets {
      OneMissing(sender, packets, front, k, i);
      var last, lost := Padded(sender(entries[n].id), i), Padded(sender(entries[k].id), i);
      XorLaws(held, lost, last);
      XorLaws(held, last, lost);
      XorLaws(lost, last, 0);
    } else {
      NothingMissing(sender, packets, front, i);
    }
  }

  /** From honest parity and an honest history, the decoder rebuilds the very octets that were sent. */
  lemma RebuiltIsSent(sender: Sender, packets: Packets, group: Group)
    requires HonestPackets(sender, packets) && HonestGroup(sender, group)
    requires Covered(group) && Recoverable(packets, group)
    ensures Rebuilt(packets, group) == sender(Lost(packets, group).id)
  {
    var k, data := LostIndex(packets, group.entries), Rebuilt(packets, group);
    forall i | 0 <= i < |data| ensures data[i] == sender(group.entries[k].id)[i] {
      OneMissing(sender, packets, group.entries, k, i);
      var held, lost := HeldOctet(packets, group.entries, i), Padded(sender(group.entries[k].id), i);
      XorLaws(lost, held, held);
      XorLaws(held, lost, 0);
      XorLaws(lost, 0, 0);
      XorLaws(held, held, 0);
    }
  }

  /** Honest groups never fail the length test: one missing packet can always be rebuilt. */
  lemma HonestIsRecoverable(sender: Sender, packets: Packets, group: Group)
    requires HonestPackets(sender, packets) && HonestGroup(sender, group)
    ensures Recoverable(packets, group) <==> |MissingNumbers(packets, group.entries)| == 1
  {
  }

  /** The parity a sender computes for a list of its packets. */
  ghost function ParityOf(sender: Sender, entries: seq<Entry>, n: nat): (p: seq<byte>)
    ensures |p| == n
    ensures forall i :: 0 <= i < n ==> p[i] == SentOctet(sender, entries, i)
  {
    if n == 0 then [] else ParityOf(sender, entries, n - 1) + [SentOctet(sender, entries, n - 1)]
  }

  /**
   * From one end to the other: whatever 2 to 32 packets of a stream a sender puts into a parity
   * datagram, the receiver accepts it and reads an honest group from it.
   */
  lemma SentParityIsHonest(sender: Sender, entries: seq<Entry>, identity: Identity, ssrc: uint32, address: Address)
    requires Listed(entries, identity, ssrc)
    requires forall k :: 0 <= k < |entries| ==> entries[k].length == |sender(entries[k].id)|
    ensures var group := Group(entries, ParityOf(sender, entries, Longest(ItemsOf(entries))), address);
            var data := Encoded(group, ssrc, [87, 71, 82, 49], [0, 0]);
            Accepts(data) && GroupIn(data, identity, address) == group && Covered(group) && HonestGroup(sender, group)
  {
    var group := Group(entries, ParityOf(sender, entries, Longest(ItemsOf(entries))), address);
    ListedIsCovered(group);
    ParityRoundTrip(group, identity, ssrc, [87, 71, 82, 49], [0, 0]);
  }
}
