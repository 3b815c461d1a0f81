/**
 * Whole runs of the recovery layer: any interleaving of packets, parity datagrams, reads, STUN
 * bindings and mux calls, each already past whatever it did outside the lock. A packet names
 * the identity it was given before, which may have been revoked since.
 */
module RecoveryRun {
  import opened Basics
  import opened Bytes
  import opened Identities
  import opened RecoveryWire
  import opened Parity
  import opened GapTracking
  import opened RecoverySteps
  import opened RecoveryShelf
  import opened RecoveryTables
  import opened Revocation
  import opened Recovery
  import opened RecoveryDelivery

  /** A reading of the clock, in nanoseconds; 0 is Go's zero time, which no clock shows. */
  type Instant = t: int | t > 0 witness 1

  datatype Event =
    | Listen
    | Packet(c: nat, id: PacketId, data: seq<byte>, remote: Address, allowed: bool, now: Instant)
    | ParityDatagram(c: nat, data: seq<byte>, local: Address, remote: Address, allowed: bool, now: Instant)
    | Read(c: nat)
    | BindingRequest(c: nat, key: BindingId, username: Option<string>)
    | BindingSuccess(c: nat, key: BindingId)
    | Receipt(c: nat, id: PacketId, size: nat, remote: Address)
    | Admit(ufrag: string)
    | Remove(ufrag: string)

  // ---- Who is who ----

  /** The active ufrags and the usernames of every socket: all that decides whose a datagram is. */
  datatype Registry = Registry(active: Option<set<string>>, conns: seq<Conn>)

  function Stripped(conn: Conn): Conn {
    conn.(ready := [], deliveries := map[])
  }

  ghost function AllStripped(conns: seq<Conn>): (r: seq<Conn>)
    ensures |r| == |conns| && forall i :: 0 <= i < |r| ==> r[i] == Stripped(conns[i])
  {
    if conns == [] then [] else AllStripped(conns[..|conns| - 1]) + [Stripped(conns[|conns| - 1])]
  }

  ghost function AllKept(conns: seq<Conn>, ufrag: string): (r: seq<Conn>)
    ensures |r| == |conns| && forall i :: 0 <= i < |r| ==> r[i] == KeptConn(conns[i], ufrag)
  {
    if conns == [] then [] else AllKept(conns[..|conns| - 1], ufrag) + [KeptConn(conns[|conns| - 1], ufrag)]
  }

  ghost function RegistryOf(active: Option<set<string>>, conns: seq<Conn>): Registry {
    Registry(active, AllStripped(conns))
  }

  /** What an event does to the registry; media does nothing to it. */
  ghost function Registered(r: Registry, e: Event): Registry {
    match e
    case Listen => r.(conns := r.conns + [Conn([], map[], map[], map[])])
    case BindingRequest(c, key, username) =>
      if c < |r.conns| then r.(conns := r.conns[c := Waiting(r.conns[c], key, username)]) else r
    case BindingSuccess(c, key) =>
      if c < |r.conns| then r.(conns := r.conns[c := Confirmed(r.active, r.conns[c], key)]) else r
    case Admit(ufrag) =>
      if r.active.Some? then r.(active := Some(r.active.value + {ufrag})) else r
    case Remove(ufrag) =>
      if r.active.Some? then Registry(Some(r.active.value - {ufrag}), AllKept(r.conns, ufrag)) else r
    case _ => r
  }

  ghost function RegisteredAll(r: Registry, run: seq<Event>): Registry {
    if run == [] then r else Registered(RegisteredAll(r, run[..|run| - 1]), run[|run| - 1])
  }

  /** Packets and parities are the sender's own, filed under the identity the registry gives them. */
  ghost predicate HonestEvent(r: Registry, e: Event, sender: Sender) {
    match e
    case Packet(c, id, data, _, _, _) => data == sender(id)
    case ParityDatagram(c, data, local, remote, _, _) =>
      c < |r.conns| ==> HonestParity(sender, r.conns[c], data, local, remote)
    case _ => true
  }

  ghost predicate HonestRun(r: Registry, run: seq<Event>, sender: Sender) {
    run == [] ||
    (var n := |run| - 1;
     HonestRun(r, run[..n], sender) && HonestEvent(RegisteredAll(r, run[..n]), run[n], sender))
  }

  // ---- The registry follows the sockets ----

  lemma SetRegisters(active: Option<set<string>>, conns: seq<Conn>, c: nat, conn: Conn)
    requires c < |conns|
    ensures RegistryOf(active, conns[c := conn]) == Registry(active, AllStripped(conns)[c := Stripped(conn)])
    ensures Stripped(conn) == Stripped(conns[c]) ==> RegistryOf(active, conns[c := conn]) == RegistryOf(active, conns)
  {
    assert AllStripped(conns[c := conn]) == AllStripped(conns)[c := Stripped(conn)];
    if Stripped(conn) == Stripped(conns[c]) {
      assert AllStripped(conns[c := conn]) == AllStripped(conns);
    }
  }

  lemma RequestRegisters(active: Option<set<string>>, conns: seq<Conn>, e: Event)
    requires e.BindingRequest? && e.c < |conns|
    ensures RegistryOf(active, conns[e.c := Waiting(conns[e.c], e.key, e.username)]) ==
            Registered(RegistryOf(active, conns), e)
  {
    SetRegisters(active, conns, e.c, Waiting(conns[e.c], e.key, e.username));
    assert Stripped(Waiting(conns[e.c], e.key, e.username)) == Waiting(Stripped(conns[e.c]), e.key, e.username);
  }

  lemma SuccessRegisters(active: Option<set<string>>, conns: seq<Conn>, e: Event)
    requires e.BindingSuccess? && e.c < |conns|
    ensures RegistryOf(active, conns[e.c := Confirmed(active, conns[e.c], e.key)]) ==
            Registered(RegistryOf(active, conns), e)
  {
    SetRegisters(active, conns, e.c, Confirmed(active, conns[e.c], e.key));
    assert Stripped(Confirmed(active, conns[e.c], e.key)) == Confirmed(active, Stripped(conns[e.c]), e.key);
  }

  lemma ListenRegisters(active: Option<set<string>>, conns: seq<Conn>)
    ensures RegistryOf(active, conns + [Conn([], map[], map[], map[])]) == Registered(RegistryOf(active, conns), Listen)
  {
    var conn := Conn([], map[], map[], map[]);
    assert AllStripped(conns + [conn]) == AllStripped(conns) + [Stripped(conn)];
  }

  lemma KeptStripped(conn: Conn, ufrag: string)
    ensures Stripped(KeptConn(conn, ufrag)) == KeptConn(Stripped(conn), ufrag)
  {
    var a, b := Stripped(KeptConn(conn, ufrag)), KeptConn(Stripped(conn), ufrag);
    assert a.pendingBindings == b.pendingBindings && a.identities == b.identities && a.deliveries == b.deliveries;
  }

  lemma AdmitRegisters(active: set<string>, conns: seq<Conn>, ufrag: string)
    ensures RegistryOf(Some(active + {ufrag}), conns) == Registered(RegistryOf(Some(active), conns), Admit(ufrag))
  {
  }

  lemma RemoveRegisters(active: set<string>, before: seq<Conn>, after: seq<Conn>, ufrag: string)
    requires KeptConns(before, after, ufrag)
    ensures RegistryOf(Some(active - {ufrag}), after) == Registered(RegistryOf(Some(active), before), Remove(ufrag))
  {
    forall i | 0 <= i < |after| ensures Stripped(after[i]) == AllKept(AllStripped(before), ufrag)[i] {
      KeptStripped(before[i], ufrag);
    }
    assert AllStripped(after) == AllKept(AllStripped(before), ufrag);
  }

  lemma ParityIsHonest(active: Option<set<string>>, conns: seq<Conn>, e: Event, sender: Sender)
    requires e.ParityDatagram? && e.c < |conns|
    ensures HonestEvent(RegistryOf(active, conns), e, sender) <==>
              HonestParity(sender, conns[e.c], e.data, e.local, e.remote)
  {
  }

  // ---- What has been handed over ----

  /** The packets that were there or arrived, and what the reader was given. */
  datatype Account = Account(known: set<PacketId>, given: seq<Datagram>)

  function Later(account: Account, e: Event, out: Option<Datagram>): Account {
    Account(if e.Packet? then account.known + {e.id} else account.known, Given(account.given, out))
  }

  /** Every packet held was known or handed over. */
  ghost predicate Square(s: State, account: Account)
    reads s`packets, s`conns
  {
    AllHanded(s.packets, s.conns, account.known, account.given)
  }

  // ---- One event ----

  method OnPacket(s: State, e: Event, ghost sender: Sender, ghost account: Account)
    requires s.Valid() && e.Packet? && e.c < |s.conns|
    modifies s
    ensures s.Valid() && RegistryOf(s.active, s.conns) == old(RegistryOf(s.active, s.conns))
    ensures old(s.Faithful(sender)) && e.data == sender(e.id) ==> s.Faithful(sender)
    ensures old(Square(s, account)) ==> Square(s, Later(account, e, None))
    ensures KeepsHanded(old(s.conns), account.given, s.conns, account.given)
  {
    var request;
    ghost var a;
    ghost var before := s.At(e.c);
    request, a := s.Remember(e.c, e.id, e.data, e.remote, e.allowed, e.now, sender);
    SetRegisters(s.active, old(s.conns), e.c, s.conns[e.c]);
    if a.Some? {
      ArrivalHandsOver(before, s.At(e.c), old(s.conns), e.c, e.id, e.data, e.remote, e.now,
                       s.packetsSince % HISTORY_SIZE == 0, a.value, account.known, account.given);
    } else if old(Square(s, account)) {
      KnownMore(s.packets, s.conns, account.known, {e.id}, account.given);
    }
  }

  method OnParity(s: State, e: Event, ghost sender: Sender, ghost account: Account) returns (out: Option<Datagram>)
    requires s.Valid() && e.ParityDatagram? && e.c < |s.conns|
    modifies s
    ensures s.Valid() && RegistryOf(s.active, s.conns) == old(RegistryOf(s.active, s.conns))
    ensures out.Some? ==> Active(s.active, out.value.id.remote)
    ensures old(s.Faithful(sender)) && HonestEvent(old(RegistryOf(s.active, s.conns)), e, sender) ==>
              s.Faithful(sender) && (out.Some? ==> FromSender(sender, out.value))
    ensures old(Square(s, account)) ==> Square(s, Later(account, e, out))
    ensures KeepsHanded(old(s.conns), account.given, s.conns, Given(account.given, out))
  {
    ghost var before, conns := s.packets, s.conns;
    out := TakeParity(s, e, sender);
    GivenKeepsHanded(conns, account.given, out);
    if AllHanded(before, conns, account.known, account.given) {
      ReturnedIsHanded(before, s.packets, out, conns, account.known, account.given);
    }
  }

  method TakeParity(s: State, e: Event, ghost sender: Sender) returns (out: Option<Datagram>)
    requires s.Valid() && e.ParityDatagram? && e.c < |s.conns|
    modifies s
    ensures s.Valid() && s.conns == old(s.conns) && s.active == old(s.active)
    ensures out.Some? ==> Active(s.active, out.value.id.remote)
    ensures old(s.Faithful(sender)) && HonestEvent(old(RegistryOf(s.active, s.conns)), e, sender) ==>
              s.Faithful(sender) && (out.Some? ==> FromSender(sender, out.value))
    ensures AddsOnly(old(s.packets), s.packets, out)
  {
    var request;
    ghost var a;
    ghost var before, queue := s.Tables(), Tidied(s.groupOrder, s.groupHead, s.groups.Keys);
    ghost var identity := IdentityOf(s.conns[e.c], e.local, e.remote);
    ParityIsHonest(s.active, s.conns, e, sender);
    out, request, a := s.ConsumeParity(e.c, e.data, e.local, e.remote, e.allowed, e.now, sender);
    if a.Some? {
      ParityAddsOnly(before, s.Tables(), queue, GroupIdIn(e.data, identity), GroupIn(e.data, identity, e.remote), e.now,
                     a.value);
    }
  }

  method OnRead(s: State, e: Event, ghost sender: Sender, ghost account: Account) returns (out: Option<Datagram>)
    requires s.Valid() && e.Read? && e.c < |s.conns|
    modifies s
    ensures s.Valid() && RegistryOf(s.active, s.conns) == old(RegistryOf(s.active, s.conns))
    ensures out.Some? ==> Active(s.active, out.value.id.remote)
    ensures old(s.Faithful(sender)) ==> s.Faithful(sender) && (out.Some? ==> FromSender(sender, out.value))
    ensures old(Square(s, account)) ==> Square(s, Later(account, e, out))
    ensures KeepsHanded(old(s.conns), account.given, s.conns, Given(account.given, out))
  {
    out := s.PopReady(e.c, sender);
    SetRegisters(s.active, old(s.conns), e.c, s.conns[e.c]);
    if out.Some? {
      ReadKeepsHanded(old(s.conns), e.c, account.given);
    }
  }

  method OnBinding(s: State, e: Event, ghost sender: Sender, ghost account: Account)
    requires s.Valid() && (e.BindingRequest? || e.BindingSuccess?) && e.c < |s.conns|
    modifies s
    ensures s.Valid() && RegistryOf(s.active, s.conns) == Registered(old(RegistryOf(s.active, s.conns)), e)
    ensures old(s.Faithful(sender)) ==> s.Faithful(sender)
    ensures old(Square(s, account)) ==> Square(s, account)
    ensures KeepsHanded(old(s.conns), account.given, s.conns, account.given)
  {
    if e.BindingRequest? {
      RequestRegisters(s.active, s.conns, e);
      s.RememberBinding(e.c, e.key, e.username, sender);
    } else {
      SuccessRegisters(s.active, s.conns, e);
      s.ConfirmBinding(e.c, e.key, sender);
    }
    SameReady(old(s.conns), s.conns, account.given);
  }

  method OnReceipt(s: State, e: Event, ghost sender: Sender, ghost account: Account)
    requires s.Valid() && e.Receipt? && e.c < |s.conns|
    modifies s
    ensures s.Valid() && RegistryOf(s.active, s.conns) == old(RegistryOf(s.active, s.conns))
    ensures old(s.Faithful(sender)) ==> s.Faithful(sender)
    ensures old(Square(s, account)) ==> Square(s, account)
    ensures KeepsHanded(old(s.conns), account.given, s.conns, account.given)
  {
    SetRegisters(s.active, s.conns, e.c, Receipted(s.conns[e.c], e.id.remote, e.remote));
    var filed := s.FileReceipt(e.c, e.id, e.size, e.remote, sender);
    SameReady(old(s.conns), s.conns, account.given);
  }

  method OnMux(s: State, e: Event, ghost sender: Sender, ghost account: Account)
    requires s.Valid() && (e.Admit? || e.Remove?) && s.active.Some?
    modifies s
    ensures s.Valid() && RegistryOf(s.active, s.conns) == Registered(old(RegistryOf(s.active, s.conns)), e)
    ensures old(s.Faithful(sender)) ==> s.Faithful(sender)
    ensures old(Square(s, account)) ==> Square(s, account)
    ensures e.Admit? ==> s.conns == old(s.conns)
  {
    if e.Admit? {
      OnAdmit(s, e.ufrag, sender, account);
    } else {
      OnRemove(s, e.ufrag, sender, account);
    }
  }

  method OnAdmit(s: State, ufrag: string, ghost sender: Sender, ghost account: Account)
    requires s.Valid() && s.active.Some?
    modifies s
    ensures s.Valid() && RegistryOf(s.active, s.conns) == Registered(old(RegistryOf(s.active, s.conns)), Admit(ufrag))
    ensures old(s.Faithful(sender)) ==> s.Faithful(sender)
    ensures old(Square(s, account)) ==> Square(s, account)
    ensures s.conns == old(s.conns)
  {
    ghost var was := s.active.value;
    s.GetConn(ufrag, sender);
    AdmitRegisters(was, s.conns, ufrag);
  }

  method OnRemove(s: State, ufrag: string, ghost sender: Sender, ghost account: Account)
    requires s.Valid() && s.active.Some?
    modifies s
    ensures s.Valid() && RegistryOf(s.active, s.conns) == Registered(old(RegistryOf(s.active, s.conns)), Remove(ufrag))
    ensures old(s.Faithful(sender)) ==> s.Faithful(sender)
    ensures old(Square(s, account)) ==> Square(s, account)
  {
    ghost var was, packets := s.active.value, s.packets;
    s.RemoveConnByUfrag(ufrag, sender);
    RemoveRegisters(was, old(s.conns), s.conns, ufrag);
    if old(Square(s, account)) {
      assert s.packets == KeptPackets(packets, ufrag);
      RemovalKeepsHanded(packets, old(s.conns), s.conns, ufrag, account.known, account.given);
    }
  }

  method OnListen(s: State, ghost sender: Sender, ghost account: Account)
    requires s.Valid()
    modifies s
    ensures s.Valid() && RegistryOf(s.active, s.conns) == Registered(old(RegistryOf(s.active, s.conns)), Listen)
    ensures old(s.Faithful(sender)) ==> s.Faithful(sender)
    ensures old(Square(s, account)) ==> Square(s, account)
    ensures KeepsHanded(old(s.conns), account.given, s.conns, account.given)
  {
    ListenRegisters(s.active, s.conns);
    s.Listen(sender);
    SameReady(old(s.conns), s.conns, account.given);
  }

  /** An event that names an existing socket. */
  method OnSocket(s: State, e: Event, ghost sender: Sender, ghost account: Account) returns (out: Option<Datagram>)
    requires s.Valid() && !e.Listen? && !e.Admit? && !e.Remove? && e.c < |s.conns|
    modifies s
    ensures s.Valid()
    ensures RegistryOf(s.active, s.conns) == Registered(old(RegistryOf(s.active, s.conns)), e)
    ensures out.Some? ==> Active(s.active, out.value.id.remote)
    ensures old(s.Faithful(sender)) && HonestEvent(old(RegistryOf(s.active, s.conns)), e, sender) ==>
              s.Faithful(sender) && (out.Some? ==> FromSender(sender, out.value))
    ensures old(Square(s, account)) ==> Square(s, Later(account, e, out))
    ensures KeepsHanded(old(s.conns), account.given, s.conns, Given(account.given, out))
  {
    out := None;
    if e.Packet? {
      OnPacket(s, e, sender, account);
    } else if e.ParityDatagram? {
      out := OnParity(s, e, sender, account);
    } else if e.Read? {
      out := OnRead(s, e, sender, account);
    } else if e.Receipt? {
      OnReceipt(s, e, sender, account);
    } else {
      OnBinding(s, e, sender, account);
    }
  }

  /** One event; those that name a socket or a mux that does not exist do nothing. */
  method Step(s: State, e: Event, ghost sender: Sender, ghost account: Account) returns (out: Option<Datagram>)
    requires s.Valid()
    modifies s
    ensures s.Valid()
    ensures RegistryOf(s.active, s.conns) == Registered(old(RegistryOf(s.active, s.conns)), e)
    ensures out.Some? ==> Active(s.active, out.value.id.remote)
    ensures old(s.Faithful(sender)) && HonestEvent(old(RegistryOf(s.active, s.conns)), e, sender) ==>
              s.Faithful(sender) && (out.Some? ==> FromSender(sender, out.value))
    ensures old(Square(s, account)) ==> Square(s, Later(account, e, out))
    ensures !e.Remove? ==> KeepsHanded(old(s.conns), account.given, s.conns, Given(account.given, out))
  {
    out := None;
    if e.Listen? {
      OnListen(s, sender, account);
    } else if e.Admit? || e.Remove? {
      if s.active.Some? {
        OnMux(s, e, sender, account);
      }
    } else if e.c < |s.conns| {
      out := OnSocket(s, e, sender, account);
    } else if e.Packet? && Square(s, account) {
      KnownMore(s.packets, s.conns, account.known, {e.id}, account.given);
    }
  }

  // ---- Whole runs ----

  ghost predicate AllFromSender(sender: Sender, out: seq<Datagram>) {
    forall i :: 0 <= i < |out| ==> FromSender(sender, out[i])
  }

  /** Nothing read belongs to `ufrag`. */
  ghost predicate NoneBelongs(out: seq<Datagram>, ufrag: string) {
    forall i :: 0 <= i < |out| ==> !BelongsTo(out[i].id.remote, ufrag)
  }

  /** `ufrag` is not active at the start, and no event of the run admits it. */
  ghost predicate Gone(r: Registry, run: seq<Event>, ufrag: string) {
    r.active.Some? && ufrag !in r.active.value && Admit(ufrag) !in run
  }

  /** A ufrag that is inactive and not admitted again stays inactive. */
  lemma {:induction false} StaysInactive(r: Registry, run: seq<Event>, ufrag: string)
    requires Gone(r, run, ufrag)
    ensures RegisteredAll(r, run).active.Some? && ufrag !in RegisteredAll(r, run).active.value
  {
    if run != [] {
      var n := |run| - 1;
      assert run[n] in run;
      StaysInactive(r, run[..n], ufrag);
    }
  }

  /** Whoever is not active has nothing here. */
  lemma AbsentNow(s: State, ufrag: string)
    requires s.Valid() && s.active.Some? && ufrag !in s.active.value
    ensures Absent(ufrag, s.Tables(), s.conns)
  {
    InactiveIsAbsent(s.active.value, s.Tables(), s.conns, ufrag);
  }

  lemma ActiveIsNotGone(active: Option<set<string>>, ufrag: string, identity: Identity)
    requires active.Some? && ufrag !in active.value && Active(active, identity)
    ensures !BelongsTo(identity, ufrag)
  {
  }

  /** The packets that arrive in a run. */
  function Arriving(run: seq<Event>): set<PacketId> {
    set i | 0 <= i < |run| && run[i].Packet? :: run[i].id
  }

  predicate NoRemoval(run: seq<Event>) {
    forall i :: 0 <= i < |run| ==> !run[i].Remove?
  }

  /** The account after a run that gave out `out`. */
  function Ended(account: Account, run: seq<Event>, out: seq<Datagram>): Account {
    Account(account.known + Arriving(run), account.given + out)
  }

  lemma EndedOneMore(account: Account, run: seq<Event>, out: seq<Datagram>, got: Option<Datagram>)
    requires run != []
    ensures var n := |run| - 1;
            Later(Ended(account, run[..n], out), run[n], got) == Ended(account, run, Given(out, got))
  {
    var n := |run| - 1;
    assert Arriving(run) == Arriving(run[..n]) + (if run[n].Packet? then {run[n].id} else {});
    if got.Some? {
      assert account.given + out + [got.value] == account.given + (out + [got.value]);
    }
  }

  /** Handing over goes on from one state to the next. */
  lemma HandingGoesOn(first: seq<Conn>, given: seq<Datagram>, second: seq<Conn>, out: seq<Datagram>, third: seq<Conn>,
                      got: Option<Datagram>)
    requires KeepsHanded(first, given, second, given + out)
    requires KeepsHanded(second, given + out, third, Given(given + out, got))
    ensures KeepsHanded(first, given, third, given + Given(out, got))
  {
    assert Given(given + out, got) == given + Given(out, got);
  }

  lemma OneMoreFromSender(sender: Sender, out: seq<Datagram>, got: Option<Datagram>)
    requires AllFromSender(sender, out) && (got.Some? ==> FromSender(sender, got.value))
    ensures AllFromSender(sender, Given(out, got))
  {
  }

  lemma OneMoreNotOf(out: seq<Datagram>, got: Option<Datagram>, r: Registry, run: seq<Event>, ufrag: string,
                     active: Option<set<string>>)
    requires Gone(r, run, ufrag) && NoneBelongs(out, ufrag) && active == RegisteredAll(r, run).active
    requires got.Some? ==> Active(active, got.value.id.remote)
    ensures NoneBelongs(Given(out, got), ufrag)
  {
    StaysInactive(r, run, ufrag);
    if got.Some? {
      ActiveIsNotGone(active, ufrag, got.value.id.remote);
    }
  }

  /** Any run: the registry is where its events take it, and what is read is honest and active. */
  method Follow(s: State, run: seq<Event>, ghost sender: Sender, ghost ufrag: string, ghost account: Account)
    returns (out: seq<Datagram>)
    requires s.Valid()
    modifies s
    ensures s.Valid()
    ensures RegistryOf(s.active, s.conns) == RegisteredAll(old(RegistryOf(s.active, s.conns)), run)
    ensures old(s.Faithful(sender)) && HonestRun(old(RegistryOf(s.active, s.conns)), run, sender) ==>
              s.Faithful(sender) && AllFromSender(sender, out)
    ensures Gone(old(RegistryOf(s.active, s.conns)), run, ufrag) ==> NoneBelongs(out, ufrag)
    ensures old(Square(s, account)) ==> Square(s, Ended(account, run, out))
    ensures NoRemoval(run) ==> KeepsHanded(old(s.conns), account.given, s.conns, account.given + out)
  {
    if run == [] {
      assert account.given + [] == account.given && account.known + Arriving([]) == account.known;
      return [];
    }
    var n := |run| - 1;
    ghost var start := RegistryOf(s.active, s.conns);
    var earlier := Follow(s, run[..n], sender, ufrag, account);
    ghost var middle := s.conns;
    var got := Step(s, run[n], sender, Ended(account, run[..n], earlier));
    out := Given(earlier, got);
    EndedOneMore(account, run, earlier, got);
    if NoRemoval(run) {
      HandingGoesOn(old(s.conns), account.given, middle, earlier, s.conns, got);
    }
    if old(s.Faithful(sender)) && HonestRun(start, run, sender) {
      OneMoreFromSender(sender, earlier, got);
    }
    if Gone(start, run, ufrag) {
      OneMoreNotOf(earlier, got, start, run, ufrag, s.active);
    }
  }

  /**
   * Any run, from any reachable state. If what arrives is the sender's own, everything read is;
   * and after a ufrag is removed nothing of it is held or read, until it is admitted again. A packet
   * that is held without having arrived was given to the reader or waits for it; and whatever was given
   * or waited still is or does, unless a ufrag was removed.
   */
  method Serve(s: State, run: seq<Event>, ghost sender: Sender, ghost ufrag: string, ghost account: Account)
    returns (out: seq<Datagram>)
    requires s.Valid()
    modifies s
    ensures s.Valid()
    ensures old(s.Faithful(sender)) && HonestRun(old(RegistryOf(s.active, s.conns)), run, sender) ==>
              s.Faithful(sender) && AllFromSender(sender, out)
    ensures Gone(old(RegistryOf(s.active, s.conns)), run, ufrag) ==>
              Absent(ufrag, s.Tables(), s.conns) && NoneBelongs(out, ufrag)
    ensures old(Square(s, account)) ==> Square(s, Ended(account, run, out))
    ensures NoRemoval(run) ==> KeepsHanded(old(s.conns), account.given, s.conns, account.given + out)
  {
    ghost var start := RegistryOf(s.active, s.conns);
    out := Follow(s, run, sender, ufrag, account);
    if Gone(start, run, ufrag) {
      StaysInactive(start, run, ufrag);
      AbsentNow(s, ufrag);
    }
  }
}
