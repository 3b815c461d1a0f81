/**
 * What the relay holds and subscribers get, over every interleaving of `Ownership`: not only whose tracks they are,
 * but that they are there. And that negotiations and subscriptions come to their ends.
 */
module Publishing {
  import opened Servers
  import opened Ownership

  /** The kinds of track each publisher has published so far. */
  type Ledger = map<Publisher, set<Kind>>

  /** The publish takes effect: the session is current. */
  predicate Publishes(s: State, e: Event) {
    e.PublishTrack? && e.publisher in s.stops && s.whip.Current(e.publisher)
  }

  function Noted(s: State, k: Ledger, e: Event): Ledger {
    if Publishes(s, e) then k[e.publisher := (if e.publisher in k then k[e.publisher] else {}) + {e.kind}] else k
  }

  function Recorded(s: State, k: Ledger, run: seq<Event>): Ledger
    requires Inv(s)
    decreases |run|
  {
    if run == [] then k else
      StepKeepsInv(s, run[0]);
      Recorded(Apply(s, run[0]), Noted(s, k, run[0]), run[1..])
  }

  function TracksOf(p: Publisher, kinds: set<Kind>): map<Kind, Track> {
    map k | k in kinds :: Track(k, p)
  }

  ghost predicate Distinct(owners: seq<Publisher>) {
    forall i, j :: 0 <= i < j < |owners| ==> owners[i] != owners[j]
  }

  /** Every stream object holds exactly what its publisher published, one object each. */
  ghost predicate Complete(relay: Relay, owners: seq<Publisher>, k: Ledger) {
    && |owners| == |relay.objects| && Distinct(owners)
    && forall i :: 0 <= i < |owners| ==>
         owners[i] in k && k[owners[i]] != {} && relay.objects[i].tracks == TracksOf(owners[i], k[owners[i]])
  }

  /** A publisher that has published and not dropped its stream yet has it in the table. */
  ghost predicate Listed(relay: Relay, owners: seq<Publisher>, stops: Stops, k: Ledger) {
    forall p :: p in k ==>
      && p in stops
      && (Streaming(stops, p) ==>
            p.camera in relay.streams && relay.streams[p.camera] < |owners| && owners[relay.streams[p.camera]] == p)
  }

  ghost predicate Shelved(s: State, k: Ledger) {
    Complete(s.relay, s.owners, k) && Listed(s.relay, s.owners, s.stops, k)
  }

  // ----- every step keeps it

  lemma CurrentStreams(s: State, p: Publisher)
    requires Inv(s) && p in s.stops && s.whip.Current(p)
    ensures Streaming(s.stops, p)
    ensures p.camera in s.relay.streams ==> s.owners[s.relay.streams[p.camera]] == p
  {
    if p.camera in s.relay.streams {
      var owner := s.owners[s.relay.streams[p.camera]];
      assert Streaming(s.stops, owner);
      assert Owns(s.whip, owner);
    }
  }

  /** One more track in the publisher's own stream. */
  lemma AddingToOwn(relay: Relay, owners: seq<Publisher>, k: Ledger, p: Publisher, kind: Kind)
    requires relay.Valid() && Complete(relay, owners, k)
    requires p.camera in relay.streams && owners[relay.streams[p.camera]] == p
    ensures p in k && Complete(relay.Publish(p.camera, Track(kind, p)), owners, k[p := k[p] + {kind}])
  {
    assert TracksOf(p, k[p])[kind := Track(kind, p)] == TracksOf(p, k[p] + {kind});
  }

  /** The first track of a publisher opens its stream. */
  lemma OpeningStream(relay: Relay, owners: seq<Publisher>, k: Ledger, p: Publisher, kind: Kind)
    requires relay.Valid() && Complete(relay, owners, k) && p.camera !in relay.streams && p !in k
    ensures Complete(relay.Publish(p.camera, Track(kind, p)), owners + [p], k[p := {kind}])
  {
    assert map[kind := Track(kind, p)] == TracksOf(p, {kind});
    assert forall i :: 0 <= i < |owners| ==> owners[i] != p;
  }

  lemma ListedAfterOpening(relay: Relay, owners: seq<Publisher>, stops: Stops, k: Ledger, p: Publisher, kind: Kind)
    requires relay.Valid() && |owners| == |relay.objects| && Listed(relay, owners, stops, k)
    requires p in stops && p.camera !in relay.streams
    ensures Listed(relay.Publish(p.camera, Track(kind, p)), owners + [p], stops, k[p := {kind}])
  {
  }

  lemma PublishKeepsShelved(s: State, k: Ledger, e: Event)
    requires Inv(s) && Shelved(s, k) && Publishes(s, e)
    ensures Shelved(ApplyPublisher(s, e), Noted(s, k, e))
  {
    var p := e.publisher;
    CurrentStreams(s, p);
    if p.camera in s.relay.streams {
      AddingToOwn(s.relay, s.owners, k, p, e.kind);
    } else {
      assert p !in k && {} + {e.kind} == {e.kind};
      OpeningStream(s.relay, s.owners, k, p, e.kind);
      ListedAfterOpening(s.relay, s.owners, s.stops, k, p, e.kind);
    }
  }

  /** Of two publishers that have not been forgotten, each has its own camera. */
  lemma CamerasAreApart(whip: Whip, stops: Stops, p: Publisher, q: Publisher)
    requires Mirrored(whip) && Lifecycles(whip, stops)
    requires p in stops && q in stops && stops[p] != Forgotten && stops[q] != Forgotten && p != q
    ensures p.camera != q.camera
  {
    assert Registered(whip, p) && Registered(whip, q);
    assert Owns(whip, p) && Owns(whip, q);
  }

  lemma ListedAfterDrop(relay: Relay, owners: seq<Publisher>, stops: Stops, k: Ledger, p: Publisher)
    requires Listed(relay, owners, stops, k) && p in stops
    requires forall q :: q in stops && Streaming(stops, q) && q != p ==> q.camera != p.camera
    ensures Listed(relay.Drop(p.camera), owners, stops[p := Dropped], k)
  {
  }

  lemma DropKeepsShelved(s: State, k: Ledger, p: Publisher)
    requires Inv(s) && Shelved(s, k)
    ensures Shelved(ApplyPublisher(s, StopDrop(p)), k)
  {
    if Stopping(s, p, Marked) {
      forall q | q in s.stops && Streaming(s.stops, q) && q != p ensures q.camera != p.camera {
        CamerasAreApart(s.whip, s.stops, p, q);
      }
      ListedAfterDrop(s.relay, s.owners, s.stops, k, p);
    }
  }

  /** No publisher known before streams again. */
  ghost predicate NoneResumes(stops: Stops, next: Stops) {
    forall p :: p in stops ==> p in next && (Streaming(next, p) ==> Streaming(stops, p))
  }

  lemma NegotiationLeavesRelay(s: State, e: Event)
    requires OfNegotiation(e)
    ensures var t := ApplyNegotiation(s, e); t.relay == s.relay && t.owners == s.owners && NoneResumes(s.stops, t.stops)
  {
    if e.Register? {
      assert FreshResource(s, e.publisher.resource) ==> e.publisher !in s.stops;
    }
  }

  lemma StopLeavesRelay(s: State, e: Event)
    requires s.relay.Valid() && |s.owners| == |s.relay.objects| && OfPublisher(e) && !Publishes(s, e) && !e.StopDrop?
    ensures var t := ApplyPublisher(s, e); t.relay == s.relay && t.owners == s.owners && NoneResumes(s.stops, t.stops)
  {
  }

  lemma SubscriberLeavesRelay(s: State, e: Event)
    requires s.relay.Valid()
    ensures var t := ApplySubscriber(s, e); t.relay == s.relay && t.owners == s.owners && t.stops == s.stops
  {
  }

  /** Every other event leaves the relay alone. */
  lemma OthersLeaveRelay(s: State, e: Event)
    requires s.relay.Valid() && |s.owners| == |s.relay.objects| && !Publishes(s, e) && !e.StopDrop?
    ensures var t := Apply(s, e); t.relay == s.relay && t.owners == s.owners && NoneResumes(s.stops, t.stops)
  {
    if OfNegotiation(e) {
      NegotiationLeavesRelay(s, e);
    } else if OfPublisher(e) {
      StopLeavesRelay(s, e);
    } else {
      SubscriberLeavesRelay(s, e);
    }
  }

  lemma StepKeepsShelved(s: State, k: Ledger, e: Event)
    requires Inv(s) && Shelved(s, k)
    ensures Shelved(Apply(s, e), Noted(s, k, e))
  {
    if Publishes(s, e) {
      PublishKeepsShelved(s, k, e);
    } else if e.StopDrop? {
      DropKeepsShelved(s, k, e.publisher);
    } else {
      OthersLeaveRelay(s, e);
    }
  }

  lemma {:induction false} RunKeepsShelved(s: State, k: Ledger, run: seq<Event>)
    requires Inv(s) && Shelved(s, k)
    ensures Shelved(Run(s, run), Recorded(s, k, run))
    decreases |run|
  {
    if run != [] {
      StepKeepsInv(s, run[0]);
      StepKeepsShelved(s, k, run[0]);
      RunKeepsShelved(Apply(s, run[0]), Noted(s, k, run[0]), run[1..]);
    }
  }

  /** The stream of every publisher that has not dropped it holds exactly one track of each kind it published. */
  ghost predicate HoldsPublished(relay: Relay, stops: Stops, k: Ledger) {
    forall p :: p in k && Streaming(stops, p) ==>
      && p.camera in relay.streams && relay.streams[p.camera] < |relay.objects|
      && relay.objects[relay.streams[p.camera]].tracks == TracksOf(p, k[p])
  }

  /**
   * After any interleaving a camera's stream holds, for the publisher that has not dropped it yet, exactly one track of
   * every kind it has published; and a stream object that was dropped still holds what it held.
   */
  lemma PublishedTracksAreThere(run: seq<Event>)
    ensures Inv(INIT)
    ensures var s, k := Run(INIT, run), Recorded(INIT, map[], run);
            && HoldsPublished(s.relay, s.stops, k)
            && forall i :: 0 <= i < |s.owners| ==>
                 s.owners[i] in k && s.relay.objects[i].tracks == TracksOf(s.owners[i], k[s.owners[i]])
  {
    InitInv();
    RunKeepsShelved(INIT, map[], run);
  }

  lemma ValuesOf(p: Publisher, kinds: set<Kind>)
    ensures TracksOf(p, kinds).Values == set kind | kind in kinds :: Track(kind, p)
  {
    forall kind | kind in kinds ensures Track(kind, p) in TracksOf(p, kinds).Values {
      assert TracksOf(p, kinds)[kind] == Track(kind, p);
    }
  }

  /** Reading a stream object that holds tracks. */
  lemma ReadIs(s: State, u: Subscriber)
    requires s.relay.Valid() && u in s.subscriptions && s.subscriptions[u].Found?
    requires var i := s.subscriptions[u].stream; i < |s.relay.objects| && s.relay.objects[i].tracks.Values != {}
    ensures Held(ApplySubscriber(s, ReadTracks(u)), u) == s.relay.objects[s.subscriptions[u].stream].tracks.Values
  {
  }

  /** Whoever reads a stream it has found gets every track published to it so far, and no other. */
  lemma ReaderGetsAllTracks(s: State, k: Ledger, u: Subscriber)
    requires Inv(s) && Shelved(s, k) && u in s.subscriptions && s.subscriptions[u].Found?
    requires s.subscriptions[u].stream < |s.owners|
    ensures var p := s.owners[s.subscriptions[u].stream];
            p in k && Held(Apply(s, ReadTracks(u)), u) == set kind | kind in k[p] :: Track(kind, p)
  {
    var p := s.owners[s.subscriptions[u].stream];
    ValuesOf(p, k[p]);
    var kind :| kind in k[p];
    assert Track(kind, p) in TracksOf(p, k[p]).Values;
    ReadIs(s, u);
  }

  // ----- who is replaced

  /** Whenever a negotiation of the camera looks at its publisher, that one is connected. */
  predicate AlwaysConnected(run: seq<Event>, c: Camera) {
    forall i :: 0 <= i < |run| && run[i].ClearPrevious? && run[i].camera == c ==> run[i].connected
  }

  /** A negotiation that is about to tear a publisher down, or waits for its end, has found it stopping already. */
  predicate OnlyStopping(s: State, c: Camera) {
    c in s.negotiations ==>
      match s.negotiations[c]
      case Replacing(p) => p in s.whip.ended
      case Awaiting(p) => p in s.whip.ended
      case _ => true
  }

  lemma StepReplacesOnlyStopping(s: State, e: Event, c: Camera)
    requires s.relay.Valid() && |s.owners| == |s.relay.objects| && OnlyStopping(s, c)
    requires e.ClearPrevious? && e.camera == c ==> e.connected
    ensures OnlyStopping(Apply(s, e), c)
  {
    if !OfNegotiation(e) {
      OthersLeaveNegotiations(s, e);
    }
  }

  lemma OthersLeaveNegotiations(s: State, e: Event)
    requires s.relay.Valid() && |s.owners| == |s.relay.objects| && !OfNegotiation(e)
    ensures Apply(s, e).negotiations == s.negotiations && s.whip.ended <= Apply(s, e).whip.ended
  {
  }

  /** A connected publisher is never torn down to make room: over any run, only those already stopping are. */
  lemma {:induction false} ConnectedPublisherStays(s: State, run: seq<Event>, c: Camera)
    requires Inv(s) && OnlyStopping(s, c) && AlwaysConnected(run, c)
    ensures OnlyStopping(Run(s, run), c)
    decreases |run|
  {
    if run != [] {
      StepKeepsInv(s, run[0]);
      StepReplacesOnlyStopping(s, run[0], c);
      ConnectedPublisherStays(Apply(s, run[0]), run[1..], c);
    }
  }

  // ----- things come to their ends

  lemma RunFirst(s: State, e: Event, rest: seq<Event>)
    requires Inv(s)
    ensures Inv(Apply(s, e)) && Run(s, [e] + rest) == Run(Apply(s, e), rest)
  {
    StepKeepsInv(s, e);
    assert ([e] + rest)[0] == e && ([e] + rest)[1..] == rest;
  }

  lemma RunOne(s: State, e: Event)
    requires Inv(s)
    ensures Inv(Apply(s, e)) && Run(s, [e]) == Apply(s, e)
  {
    RunFirst(s, e, []);
    assert [e] + [] == [e];
  }

  /** A publisher's stop has come so far; negotiations and the shutdown flag are as they were. */
  ghost predicate StopAt(s: State, t: State, p: Publisher, stop: Stop) {
    t.stops == s.stops[p := stop] && t.negotiations == s.negotiations && t.whip.closed == s.whip.closed
  }

  lemma MarkGoesOn(s: State, p: Publisher)
    requires Inv(s) && Stopping(s, p, Running)
    ensures StopAt(s, Apply(s, StopMark(p)), p, Marked)
  {
    MarkTables(s.whip, s.stops, p);
  }

  lemma DropGoesOn(s: State, t: State, p: Publisher)
    requires t.relay.Valid() && |t.owners| == |t.relay.objects| && StopAt(s, t, p, Marked)
    ensures var u := Apply(t, StopDrop(p)); StopAt(s, u, p, Dropped) && p.camera !in u.relay.streams
  {
    assert s.stops[p := Marked][p := Dropped] == s.stops[p := Dropped];
  }

  lemma NotifyGoesOn(s: State, t: State, p: Publisher)
    requires t.relay.Valid() && |t.owners| == |t.relay.objects| && StopAt(s, t, p, Dropped)
    ensures var u := Apply(t, StopNotify(p)); StopAt(s, u, p, Notified) && u.relay == t.relay
  {
    assert s.stops[p := Dropped][p := Notified] == s.stops[p := Notified];
  }

  lemma ForgetGoesOn(s: State, t: State, p: Publisher)
    requires Inv(t) && StopAt(s, t, p, Notified)
    ensures var u := Apply(t, StopForget(p));
            StopAt(s, u, p, Forgotten) && u.relay == t.relay && p.camera !in u.whip.byIngest
  {
    assert s.stops[p := Notified][p := Forgotten] == s.stops[p := Forgotten];
    assert Registered(t.whip, p);
    assert Owns(t.whip, p);
  }

  function WholeStop(p: Publisher): seq<Event> {
    [StopMark(p)] + ([StopDrop(p)] + ([StopNotify(p)] + [StopForget(p)]))
  }

  /** A whole stop takes the publisher's stream and its camera's entry away, and negotiations go on. */
  lemma StopCompletes(s: State, p: Publisher)
    requires Inv(s) && Stopping(s, p, Running)
    ensures var t := Run(s, WholeStop(p));
            StopAt(s, t, p, Forgotten) && p.camera !in t.whip.byIngest && p.camera !in t.relay.streams
  {
    RunFirst(s, StopMark(p), [StopDrop(p)] + ([StopNotify(p)] + [StopForget(p)]));
    MarkGoesOn(s, p);
    var a := Apply(s, StopMark(p));
    RunFirst(a, StopDrop(p), [StopNotify(p)] + [StopForget(p)]);
    DropGoesOn(s, a, p);
    var b := Apply(a, StopDrop(p));
    RunFirst(b, StopNotify(p), [StopForget(p)]);
    NotifyGoesOn(s, b, p);
    var c := Apply(b, StopNotify(p));
    RunOne(c, StopForget(p));
    ForgetGoesOn(s, c, p);
  }

  /** The newcomer looks at a publisher that is not connected, decides to replace it, and is about to wait. */
  lemma ReplacementStarts(s: State, c: Camera)
    requires Inv(s) && At(s, c, Entered) && s.whip.HasPrevious(c)
    ensures var p, t := s.whip.Previous(c), Apply(Apply(s, ClearPrevious(c, false)), TeardownPrevious(c));
            t == s.(negotiations := s.negotiations[c := Awaiting(p)])
  {
    var p := s.whip.Previous(c);
    assert s.whip.sessions[s.whip.byIngest[c]].resource == s.whip.byIngest[c];
    var a := Apply(s, ClearPrevious(c, false));
    assert a == s.(negotiations := s.negotiations[c := Replacing(p)]);
    assert a.negotiations[c := Awaiting(p)] == s.negotiations[c := Awaiting(p)];
  }

  lemma NewcomerRegisters(s: State, q: Publisher, p: Publisher)
    requires Inv(s) && At(s, q.camera, Awaiting(p)) && Stopping(s, p, Forgotten) && !s.whip.closed
    requires FreshResource(s, q.resource)
    ensures Owns(Apply(Apply(s, PreviousStopped(q.camera)), Register(q)).whip, q)
  {
    var a := Apply(s, PreviousStopped(q.camera));
    assert a == s.(negotiations := s.negotiations[q.camera := Clear]);
  }

  function Replacement(c: Camera, p: Publisher, q: Publisher): seq<Event> {
    [ClearPrevious(c, false)] + ([TeardownPrevious(c)] + (WholeStop(p) + ([PreviousStopped(c)] + [Register(q)])))
  }

  /** A publisher that has lost its connection can be replaced: the newcomer ends up owning the camera. */
  lemma LostPublisherIsReplaced(s: State, q: Publisher)
    requires Inv(s) && At(s, q.camera, Entered) && s.whip.HasPrevious(q.camera) && !s.whip.closed
    requires Stopping(s, s.whip.Previous(q.camera), Running) && FreshResource(s, q.resource)
    ensures Owns(Run(s, Replacement(q.camera, s.whip.Previous(q.camera), q)).whip, q)
  {
    var c, p, last := q.camera, s.whip.Previous(q.camera), [PreviousStopped(q.camera)] + [Register(q)];
    ReplacementStarts(s, c);
    RunFirst(s, ClearPrevious(c, false), [TeardownPrevious(c)] + (WholeStop(p) + last));
    RunFirst(Apply(s, ClearPrevious(c, false)), TeardownPrevious(c), WholeStop(p) + last);
    var a := Apply(Apply(s, ClearPrevious(c, false)), TeardownPrevious(c));
    RunsCompose(a, WholeStop(p), last);
    StopCompletes(a, p);
    var b := Run(a, WholeStop(p));
    RunFirst(b, PreviousStopped(c), [Register(q)]);
    RunOne(Apply(b, PreviousStopped(c)), Register(q));
    NewcomerRegisters(b, q, p);
  }

  // ----- a subscriber gets through

  function Subscription(u: Subscriber, r: Resource): seq<Event> {
    [Reserve(u)] + ([FindStream(u)] + ([ReadTracks(u)] + [Commit(u, r)]))
  }

  lemma SlotAndStream(s: State, u: Subscriber)
    requires s.relay.Valid() && |s.owners| == |s.relay.objects| && u !in s.subscriptions && s.whep.HasRoom(u.camera)
    requires u.camera in s.relay.streams
    ensures var t := Apply(Apply(s, Reserve(u)), FindStream(u));
            && t.whep == s.whep.(pending := s.whep.pending[u := true]) && t.relay == s.relay && t.owners == s.owners
            && t.stops == s.stops && t.subscriptions == s.subscriptions[u := Found(s.relay.streams[u.camera])]
  {
    assert s.subscriptions[u := Reserved][u := Found(s.relay.streams[u.camera])]
        == s.subscriptions[u := Found(s.relay.streams[u.camera])];
  }

  lemma CommitAdmits(s: State, u: Subscriber, r: Resource)
    requires s.relay.Valid() && |s.owners| == |s.relay.objects|
    requires u in s.subscriptions && s.subscriptions[u].Attached? && r !in s.whep.sessions && s.whep.Stands(u)
    ensures var t := Apply(s, Commit(u, r));
            r in t.whep.sessions && t.whep.sessions[r] == u && Held(t, u) == Held(s, u)
  {
  }

  lemma ReadAttaches(s: State, u: Subscriber)
    requires s.relay.Valid() && |s.owners| == |s.relay.objects| && u in s.subscriptions
    requires Held(Apply(s, ReadTracks(u)), u) != {} && s.subscriptions[u].Found?
    ensures var t := Apply(s, ReadTracks(u));
            u in t.subscriptions && t.subscriptions[u].Attached? && t.whep == s.whep
  {
  }

  /** With room for it and a stream to read, a subscriber ends up committed, with every track published so far. */
  lemma SubscriberIsServed(s: State, k: Ledger, u: Subscriber, r: Resource)
    requires Inv(s) && Shelved(s, k) && u !in s.subscriptions && s.whep.HasRoom(u.camera)
    requires u.camera in s.relay.streams && r !in s.whep.sessions
    ensures var t, p := Run(s, Subscription(u, r)), s.owners[s.relay.streams[u.camera]];
            && r in t.whep.sessions && t.whep.sessions[r] == u && p in k
            && Held(t, u) == set kind | kind in k[p] :: Track(kind, p)
  {
    RunFirst(s, Reserve(u), [FindStream(u)] + ([ReadTracks(u)] + [Commit(u, r)]));
    RunFirst(Apply(s, Reserve(u)), FindStream(u), [ReadTracks(u)] + [Commit(u, r)]);
    SlotAndStream(s, u);
    var b := Apply(Apply(s, Reserve(u)), FindStream(u));
    var p := s.owners[s.relay.streams[u.camera]];
    ReaderGetsAllTracks(b, k, u);
    var kind :| kind in k[p];
    assert Track(kind, p) in Held(Apply(b, ReadTracks(u)), u);
    ReadAttaches(b, u);
    RunFirst(b, ReadTracks(u), [Commit(u, r)]);
    RunOne(Apply(b, ReadTracks(u)), Commit(u, r));
    CommitAdmits(Apply(b, ReadTracks(u)), u, r);
  }

  // ----- room

  /** No session is listed twice, and nobody is committed and reserved at once. */
  ghost predicate CountedOnce(whep: Whep) {
    && (forall r, q :: r in whep.sessions && q in whep.sessions && r != q ==> whep.sessions[r] != whep.sessions[q])
    && (forall r :: r in whep.sessions ==> whep.sessions[r] !in whep.pending)
  }

  lemma {:induction false} ImageSize(m: map<Resource, Subscriber>, keys: set<Resource>)
    requires keys <= m.Keys && forall r, q :: r in keys && q in keys && r != q ==> m[r] != m[q]
    ensures |set r | r in keys :: m[r]| == |keys|
    decreases |keys|
  {
    if keys != {} {
      var r :| r in keys;
      ImageSize(m, keys - {r});
      var rest := set q | q in keys - {r} :: m[q];
      assert (set q | q in keys :: m[q]) == rest + {m[r]};
      assert m[r] !in rest;
    }
  }

  lemma UnionSize<T>(a: set<T>, b: set<T>)
    requires a !! b
    ensures |a + b| == |a| + |b|
  {
  }

  /** Counting both maps counts every subscriber. */
  lemma CountIsExact(whep: Whep)
    requires CountedOnce(whep)
    ensures |Everyone(whep)| == |whep.sessions| + |whep.pending|
  {
    var m := whep.sessions;
    ImageSize(m, m.Keys);
    assert m.Values == set r | r in m.Keys :: m[r];
    UnionSize(m.Values, whep.pending.Keys);
  }

  lemma CommittedOn(whep: Whep, c: Camera) returns (image: set<Subscriber>)
    requires CountedOnce(whep)
    ensures |image| == |whep.SessionsOf(c)| && forall u :: u in image <==> u in whep.sessions.Values && u.camera == c
  {
    var here := whep.SessionsOf(c);
    ImageSize(whep.sessions, here);
    image := set r | r in here :: whep.sessions[r];
  }

  lemma CountIsExactOn(whep: Whep, c: Camera)
    requires CountedOnce(whep)
    ensures |EveryoneOn(whep, c)| == |whep.PendingOf(c)| + |whep.SessionsOf(c)|
  {
    var image := CommittedOn(whep, c);
    UnionSize(image, whep.PendingOf(c));
    assert EveryoneOn(whep, c) == image + whep.PendingOf(c);
  }

  /** A slot is refused only to a closed server, to the 65th subscriber, or to the ninth of a camera. */
  lemma RoomUnlessFull(whep: Whep, c: Camera)
    requires CountedOnce(whep)
    ensures whep.HasRoom(c) <==> !whep.closed && |Everyone(whep)| < 64 && |EveryoneOn(whep, c)| < 8
  {
    CountIsExact(whep);
    CountIsExactOn(whep, c);
  }

  // ----- leaving

  /** Closing a camera's subscribers ends exactly its sessions and reservations. */
  lemma ClosingCameraIsExact(whep: Whep, c: Camera, r: Resource, u: Subscriber)
    ensures var after := whep.CloseIngest(c);
            && (r in after.sessions <==> r in whep.sessions && whep.sessions[r].camera != c)
            && (r in after.sessions ==> after.sessions[r] == whep.sessions[r])
            && (after.Stands(u) <==> whep.Stands(u) && u.camera != c)
            && after.closed == whep.closed
  {
  }

  /** A subscriber that leaves frees its place, and nobody else's. */
  lemma LeavingFreesThePlace(whep: Whep, u: Subscriber, r: Resource)
    ensures forall v :: v in Everyone(whep.Release(u)) <==>
              v in Everyone(whep) && (v == u ==> v in whep.sessions.Values)
    ensures forall q :: q in whep.Remove(r).sessions <==> q in whep.sessions && q != r
    ensures forall q :: q in whep.Remove(r).sessions ==> whep.Remove(r).sessions[q] == whep.sessions[q]
  {
  }

  /** A server that is closed has no subscribers, lets no reservation commit, and takes no more. */
  lemma ClosedServerIsEmpty(whep: Whep, u: Subscriber, r: Resource, c: Camera)
    ensures var after := whep.Close();
            after.sessions == map[] && !after.Stands(u) && !after.HasRoom(c) && after.Commit(u, r) == after
  {
  }
}
