/**
 * The tables of the recovery layer as values: the sockets, the streams with their limit of 256
 * and the waiting groups with theirs, and what holds of them between operations.
 */
module RecoveryTables {
  import opened Basics
  import opened Identities
  import opened RecoveryWire
  import opened Parity
  import opened GapTracking
  import opened RecoveryHistory
  import opened RecoverySteps

  const STREAM_LIMIT := 256

  /** 30 s in nanoseconds. */
  const IDLE := 30_000_000_000

  const MAX_DATAGRAM := 8192

  datatype BindingId = BindingId(remote: Address, transaction: nat)

  /** One socket: rebuilt datagrams, unconfirmed and confirmed usernames, receipt batches by address. */
  datatype Conn = Conn(
    ready: seq<Datagram>,
    pendingBindings: map<BindingId, string>,
    identities: map<Address, string>,
    deliveries: map<Address, Identity>)

  // ---- What holds between operations ----

  ghost predicate HistoryOk(packets: Packets, order: seq<PacketId>, head: nat) {
    head <= |order| && head < HISTORY_SIZE && Exact(History(packets, order[head..]))
  }

  ghost predicate StreamsOk(streams: Streams) {
    |streams| <= STREAM_LIMIT && forall id :: id in streams ==> streams[id].lastTouched > 0
  }

  ghost predicate ConnOk(active: Option<set<string>>, conn: Conn) {
    && ReadyActive(active, conn.ready)
    && (forall a :: a in conn.identities ==> Active(active, Ice(conn.identities[a])))
    && (forall a :: a in conn.deliveries ==> Active(active, conn.deliveries[a]))
  }

  ghost predicate ConnsOk(active: Option<set<string>>, conns: seq<Conn>) {
    forall i :: 0 <= i < |conns| ==> ConnOk(active, conns[i])
  }

  ghost predicate HonestConns(sender: Sender, conns: seq<Conn>) {
    forall i :: 0 <= i < |conns| ==> HonestReady(sender, conns[i].ready)
  }

  // ---- Streams ----

  function NewStream(now: int): Stream {
    Stream(0, false, false, map[], now)
  }

  ghost predicate LeastRecent(streams: Streams, victim: StreamId) {
    victim in streams && forall id :: id in streams ==> streams[victim].lastTouched <= streams[id].lastTouched
  }

  /** streamLocked: a new stream may cost the least recently touched one its place. */
  ghost predicate Opened(before: Streams, after: Streams, id: StreamId, now: int) {
    if id in before then after == before
    else if |before| < STREAM_LIMIT then after == before[id := NewStream(now)]
    else exists victim :: LeastRecent(before, victim) && after == (before - {victim})[id := NewStream(now)]
  }

  /** Opening a stream adds at most that stream, changes no other, and keeps to the limit. */
  lemma OpenedShape(before: Streams, after: Streams, id: StreamId, now: int)
    requires Opened(before, after, id, now) && |before| <= STREAM_LIMIT
    ensures id in after && |after| <= STREAM_LIMIT
    ensures forall k :: k in after ==>
              if k in before then after[k] == before[k] else k == id && after[k] == NewStream(now)
  {
    if id !in before {
      if |before| < STREAM_LIMIT {
        SizeWith(before, id, NewStream(now));
      } else {
        var victim :| LeastRecent(before, victim) && after == (before - {victim})[id := NewStream(now)];
        SizeWithout(before, victim);
        SizeWith(before - {victim}, id, NewStream(now));
      }
    }
  }

  lemma OpenedKeepsStreams(active: Option<set<string>>, before: Streams, after: Streams, id: StreamId, now: int)
    requires Opened(before, after, id, now) && now > 0 && Active(active, id.remote)
    requires StreamsOk(before) && StreamsActive(active, before)
    ensures id in after && StreamsOk(after) && StreamsActive(active, after)
  {
    OpenedShape(before, after, id, now);
  }

  lemma OpenedKeepsDisjoint(packets: Packets, before: Streams, after: Streams, id: StreamId, now: int)
    requires Opened(before, after, id, now) && |before| <= STREAM_LIMIT && AllDisjoint(packets, before)
    ensures id in after && AllDisjoint(packets, after)
  {
    OpenedShape(before, after, id, now);
    forall k | k in after ensures Disjoint(packets, k, after[k].missing) {
      if k in before {
        assert Disjoint(packets, k, before[k].missing);
      }
    }
  }

  lemma ReplacedKeepsStreams(active: Option<set<string>>, streams: Streams, id: StreamId, s: Stream)
    requires StreamsOk(streams) && StreamsActive(active, streams) && id in streams && s.lastTouched > 0
    ensures StreamsOk(streams[id := s]) && StreamsActive(active, streams[id := s])
  {
    SizeWith(streams, id, s);
  }

  lemma ReplacedKeepsDisjoint(packets: Packets, streams: Streams, id: StreamId, s: Stream)
    requires AllDisjoint(packets, streams) && Disjoint(packets, id, s.missing)
    ensures AllDisjoint(packets, streams[id := s])
  {
  }

  /** trimOldestStreamLocked: the stream it deletes. */
  method OldestStream(streams: Streams) returns (victim: StreamId)
    requires streams != map[] && forall id :: id in streams ==> streams[id].lastTouched > 0
    ensures LeastRecent(streams, victim)
  {
    var todo := streams.Keys;
    var oldest := 0;
    victim :| victim in streams;
    while todo != {}
      invariant todo <= streams.Keys
      invariant oldest == 0 ==> todo == streams.Keys
      invariant oldest != 0 ==> victim in streams && streams[victim].lastTouched == oldest
      invariant oldest != 0 ==> forall id :: id in streams && id !in todo ==> oldest <= streams[id].lastTouched
    {
      var id :| id in todo;
      todo := todo - {id};
      if oldest == 0 || streams[id].lastTouched < oldest {
        victim, oldest := id, streams[id].lastTouched;
      }
    }
  }

  /** trimStreamsLocked: streams untouched for more than 30 s go. */
  ghost predicate Trimmed(before: Streams, after: Streams, now: int) {
    && (forall id :: id in after <==> id in before && now - before[id].lastTouched <= IDLE)
    && (forall id :: id in after ==> after[id] == before[id])
  }

  method TrimIdle(streams: Streams, now: int) returns (kept: Streams)
    ensures Trimmed(streams, kept, now)
  {
    kept := streams;
    var todo := streams.Keys;
    while todo != {}
      invariant todo <= streams.Keys
      invariant forall id :: id in kept <==> id in streams && (id in todo || now - streams[id].lastTouched <= IDLE)
      invariant forall id :: id in kept ==> kept[id] == streams[id]
    {
      var id :| id in todo;
      todo := todo - {id};
      if now - streams[id].lastTouched > IDLE {
        kept := kept - {id};
      }
    }
  }

  lemma SmallerStreams(a: Streams, b: Streams)
    requires forall id :: id in a ==> id in b
    ensures |a| <= |b|
  {
    SubsetSize(a.Keys, b.Keys);
    assert |a| == |a.Keys| && |b| == |b.Keys|;
  }

  // ---- Sockets ----

  lemma ConnReplaced(active: Option<set<string>>, conns: seq<Conn>, c: nat, conn: Conn)
    requires c < |conns| && ConnsOk(active, conns) && ConnOk(active, conn)
    ensures ConnsOk(active, conns[c := conn])
  {
  }

  lemma ConnReplacedHonest(sender: Sender, conns: seq<Conn>, c: nat, conn: Conn)
    requires c < |conns| && HonestConns(sender, conns) && HonestReady(sender, conn.ready)
    ensures HonestConns(sender, conns[c := conn])
  {
  }

  /** rememberBindingLocked: the first username seen for a transaction waits for Pion's answer. */
  function Waiting(conn: Conn, key: BindingId, username: Option<string>): Conn {
    if username.None? || |username.value| > 513 then conn
    else
      var room := if |conn.pendingBindings| >= HISTORY_SIZE then map[] else conn.pendingBindings;
      conn.(pendingBindings := if key in room then room else room[key := username.value])
  }

  /** The username that waits under `key`, empty if none does. */
  function WaitingName(conn: Conn, key: BindingId): string {
    if key in conn.pendingBindings then conn.pendingBindings[key] else ""
  }

  /** confirmBindingLocked: the address is the waiting user's, if that user is still active. */
  function Confirmed(active: Option<set<string>>, conn: Conn, key: BindingId): Conn {
    var username := WaitingName(conn, key);
    var answered := conn.(pendingBindings := conn.pendingBindings - {key});
    if username == "" || !Active(active, Ice(username)) then answered
    else
      var room := if |conn.identities| >= HISTORY_SIZE then map[] else conn.identities;
      answered.(identities := room[key.remote := username])
  }

  /** deliveryReceipt: the batch of an address belongs to one identity at a time. */
  function Receipted(conn: Conn, identity: Identity, remote: Address): Conn {
    if remote in conn.deliveries && conn.deliveries[remote] == identity then conn
    else
      var room := if |conn.deliveries| >= STREAM_LIMIT then map[] else conn.deliveries;
      conn.(deliveries := room[remote := identity])
  }

  lemma ConfirmedOk(active: Option<set<string>>, conn: Conn, key: BindingId)
    requires ConnOk(active, conn)
    ensures ConnOk(active, Confirmed(active, conn, key))
  {
  }

  lemma ReceiptedOk(active: Option<set<string>>, conn: Conn, identity: Identity, remote: Address)
    requires ConnOk(active, conn) && Active(active, identity)
    ensures ConnOk(active, Receipted(conn, identity, remote))
  {
  }

  /**
   * An address gains or changes its identity only by an answer to a request that named it: the
   * new identity is the username waiting for that answer, and it is active.
   */
  lemma OnlyConfirmationIdentifies(active: Option<set<string>>, conn: Conn, key: BindingId, a: Address)
    requires a in Confirmed(active, conn, key).identities
    requires a in conn.identities ==> conn.identities[a] != Confirmed(active, conn, key).identities[a]
    ensures a == key.remote && key in conn.pendingBindings
    ensures Confirmed(active, conn, key).identities[a] == conn.pendingBindings[key]
    ensures Active(active, Ice(conn.pendingBindings[key]))
  {
  }

  /**
   * A request that names a user, and Pion's answer to it: the address is that user's from then on exactly if the
   * name is neither empty nor overlong and the user is active. Nobody else's answer does, and other addresses
   * keep theirs while there is room.
   */
  lemma HandshakeIdentifies(active: Option<set<string>>, conn: Conn, key: BindingId, username: string)
    requires key !in conn.pendingBindings && |conn.identities| < HISTORY_SIZE
    requires key.remote in conn.identities ==> conn.identities[key.remote] != username
    ensures var after := Confirmed(active, Waiting(conn, key, Some(username)), key);
            && (key.remote in after.identities && after.identities[key.remote] == username <==>
                  username != "" && |username| <= 513 && Active(active, Ice(username)))
            && forall a :: a in conn.identities && a != key.remote ==>
                 a in after.identities && after.identities[a] == conn.identities[a]
  {
  }

  /** A second request under the same transaction does not change the name that waits. */
  lemma FirstNameStands(conn: Conn, key: BindingId, username: Option<string>)
    requires key in conn.pendingBindings && |conn.pendingBindings| < HISTORY_SIZE
    ensures Waiting(conn, key, username) == conn
  {
  }

  /** A receipt goes to the batch of the identity it is for; other addresses keep theirs while there is room. */
  lemma ReceiptOpensBatch(conn: Conn, identity: Identity, remote: Address)
    requires |conn.deliveries| < STREAM_LIMIT
    ensures Receipted(conn, identity, remote) == conn.(deliveries := conn.deliveries[remote := identity])
  {
  }
}
