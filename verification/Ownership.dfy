/**
 * Who owns a camera, across the WHIP server, the relay and the WHEP server: every goroutine is
 * a program counter over the locked regions of `Servers`, and a run is any interleaving of
 * their steps. Callbacks, retries, revocations and shutdown may fire at any time.
 */
module Ownership {
  import opened Basics
  import opened Servers

  /** How far a publisher's stopSession has come; its body runs once (stopOnce). */
  datatype Stop = Running | Marked | Dropped | Notified | Forgotten

  /** Where the one negotiation of a camera stands. */
  datatype Negotiation =
    | Entered                        // the camera is reserved
    | Replacing(previous: Publisher) // clearPrevious is about to tear `previous` down
    | Awaiting(previous: Publisher)  // inside or behind stopSession of `previous`
    | Clear                          // clearPrevious returned: the camera has no owner
    | Leaving                        // registered or failed; only the deferred cleanup is left

  /** Where a subscriber's request stands. */
  datatype Subscription =
    | Reserved
    | Found(stream: nat)             // holds a Stream object, has not read its tracks yet
    | Attached(tracks: set<Track>)   // holds tracks, not committed
    | Finished(tracks: set<Track>)   // past the commit region

  datatype State = State(
    whip: Whip,
    relay: Relay,
    whep: Whep,
    stops: map<Publisher, Stop>,
    negotiations: map<Camera, Negotiation>,
    subscriptions: map<Subscriber, Subscription>,
    owners: seq<Publisher>)          // the publisher that created each relay stream object

  datatype Event =
    // WHIP negotiation
    | Negotiate(camera: Camera)
    | ClearPrevious(camera: Camera, connected: bool)
    | TeardownPrevious(camera: Camera)
    | PreviousStopped(camera: Camera)
    | Register(publisher: Publisher)
    | LeaveNegotiation(camera: Camera)
    // a publisher's track callback, and the four regions of stopSession
    | PublishTrack(publisher: Publisher, kind: Kind)
    | StopMark(publisher: Publisher)
    | StopDrop(publisher: Publisher)
    | StopNotify(publisher: Publisher)
    | StopForget(publisher: Publisher)
    | WhipClose
    // WHEP
    | Reserve(subscriber: Subscriber)
    | FindStream(subscriber: Subscriber)
    | ReadTracks(subscriber: Subscriber)
    | Commit(subscriber: Subscriber, resource: Resource)
    | Release(subscriber: Subscriber)
    | CloseIngest(camera: Camera)
    | Remove(resource: Resource)
    | WhepClose

  const INIT := State(Whip(map[], map[], {}, false, {}), Relay(map[], []), Whep(map[], map[], false),
                      map[], map[], map[], [])

  predicate At(s: State, camera: Camera, n: Negotiation) {
    camera in s.negotiations && s.negotiations[camera] == n
  }

  predicate Stopping(s: State, p: Publisher, stop: Stop) {
    p in s.stops && s.stops[p] == stop
  }

  /** No Session object has carried this resource id: ids are random and never repeat. */
  predicate FreshResource(s: State, resource: Resource) {
    forall p :: p in s.stops ==> p.resource != resource
  }

  /** An event that is not enabled leaves the state alone, so every event sequence is a run. */
  function Apply(s: State, e: Event): State
    requires s.relay.Valid() && |s.owners| == |s.relay.objects|
  {
    match e
    case Negotiate(_) | ClearPrevious(_, _) | TeardownPrevious(_) | PreviousStopped(_)
      | Register(_) | LeaveNegotiation(_) => ApplyNegotiation(s, e)
    case PublishTrack(_, _) | StopMark(_) | StopDrop(_) | StopNotify(_) | StopForget(_) | WhipClose =>
      ApplyPublisher(s, e)
    case Reserve(_) | FindStream(_) | ReadTracks(_) | Commit(_, _) | Release(_)
      | CloseIngest(_) | Remove(_) | WhepClose => ApplySubscriber(s, e)
  }

  function ApplyNegotiation(s: State, e: Event): State {
    match e
    case Negotiate(c) =>
      if s.whip.MayNegotiate(c)
      then s.(whip := s.whip.Begin(c), negotiations := s.negotiations[c := Entered]) else s
    case ClearPrevious(c, connected) =>
      if !At(s, c, Entered) then s
      else if !s.whip.HasPrevious(c) then s.(negotiations := s.negotiations[c := Clear])
      else
        var previous := s.whip.Previous(c);
        // a connected publisher that is not stopping keeps the camera
        if previous !in s.whip.ended && connected then s.(negotiations := s.negotiations[c := Leaving])
        else s.(negotiations := s.negotiations[c := Replacing(previous)])
    case TeardownPrevious(c) =>
      if c in s.negotiations && s.negotiations[c].Replacing? then
        var previous := s.negotiations[c].previous;
        s.(negotiations := s.negotiations[c := if previous.resource in s.whip.sessions then Awaiting(previous)
                                               else Clear])
      else s
    case PreviousStopped(c) =>
      if c in s.negotiations && s.negotiations[c].Awaiting?
         && Stopping(s, s.negotiations[c].previous, Forgotten)
      then s.(negotiations := s.negotiations[c := Clear]) else s
    case Register(p) =>
      if !At(s, p.camera, Clear) || !FreshResource(s, p.resource) then s
      else if s.whip.closed then s.(negotiations := s.negotiations[p.camera := Leaving])
      else s.(whip := s.whip.Register(p), stops := s.stops[p := Running],
              negotiations := s.negotiations[p.camera := Leaving])
    case LeaveNegotiation(c) =>
      if c in s.negotiations
      then s.(whip := s.whip.Leave(c), negotiations := s.negotiations - {c}) else s
    case _ => s
  }

  function ApplyPublisher(s: State, e: Event): State
    requires s.relay.Valid() && |s.owners| == |s.relay.objects|
  {
    match e
    case PublishTrack(p, kind) =>
      if p in s.stops && s.whip.Current(p) then
        s.(relay := s.relay.Publish(p.camera, Track(kind, p)),
           owners := if p.camera in s.relay.streams then s.owners else s.owners + [p])
      else s
    case StopMark(p) =>
      if Stopping(s, p, Running) then
        s.(whip := s.whip.MarkEnded(p),
           stops := s.stops[p := if s.whip.Current(p) then Marked else Notified])
      else s
    case StopDrop(p) =>
      if Stopping(s, p, Marked)
      then s.(relay := s.relay.Drop(p.camera), stops := s.stops[p := Dropped]) else s
    case StopNotify(p) =>
      if Stopping(s, p, Dropped)
      then s.(whep := s.whep.CloseIngest(p.camera), stops := s.stops[p := Notified]) else s
    case StopForget(p) =>
      if Stopping(s, p, Notified)
      then s.(whip := s.whip.Forget(p.resource), stops := s.stops[p := Forgotten]) else s
    case WhipClose => s.(whip := s.whip.Close())
    case _ => s
  }

  function ApplySubscriber(s: State, e: Event): State
    requires s.relay.Valid()
  {
    match e
    case Reserve(u) =>
      if u !in s.subscriptions && s.whep.HasRoom(u.camera)
      then s.(whep := s.whep.Reserve(u), subscriptions := s.subscriptions[u := Reserved]) else s
    case FindStream(u) =>
      if u in s.subscriptions && s.subscriptions[u] == Reserved && u.camera in s.relay.streams
      then s.(subscriptions := s.subscriptions[u := Found(s.relay.streams[u.camera])]) else s
    case ReadTracks(u) =>
      if u in s.subscriptions && s.subscriptions[u].Found? && s.subscriptions[u].stream < |s.relay.objects|
         && s.relay.objects[s.subscriptions[u].stream].tracks.Values != {}
      then s.(subscriptions := s.subscriptions[u := Attached(s.relay.objects[s.subscriptions[u].stream].tracks.Values)])
      else s
    case Commit(u, resource) =>
      if u in s.subscriptions && s.subscriptions[u].Attached? && resource !in s.whep.sessions
      then s.(whep := s.whep.Commit(u, resource),
              subscriptions := s.subscriptions[u := Finished(s.subscriptions[u].tracks)])
      else s
    case Release(u) => s.(whep := s.whep.Release(u))
    case CloseIngest(c) => s.(whep := s.whep.CloseIngest(c))
    case Remove(resource) => s.(whep := s.whep.Remove(resource))
    case WhepClose => s.(whep := s.whep.Close())
    case _ => s
  }

  // ----- the invariant

  type Stops = map<Publisher, Stop>

  predicate Registered(whip: Whip, p: Publisher) {
    p.resource in whip.sessions && whip.sessions[p.resource] == p
  }

  /** `p` is the registered publisher of its camera. */
  predicate Owns(whip: Whip, p: Publisher) {
    Registered(whip, p) && p.camera in whip.byIngest && whip.byIngest[p.camera] == p.resource
  }

  /** The two publisher tables mirror each other, one session per camera. */
  ghost predicate Mirrored(whip: Whip) {
    && (forall r :: r in whip.sessions ==> whip.sessions[r].resource == r && Owns(whip, whip.sessions[r]))
    && (forall c :: c in whip.byIngest ==>
          whip.byIngest[c] in whip.sessions && whip.sessions[whip.byIngest[c]].camera == c)
  }

  /** A Session object is registered exactly until forget, and ended from the first region of stop on. */
  ghost predicate Lifecycles(whip: Whip, stops: Stops) {
    && (forall r :: r in whip.sessions ==> whip.sessions[r] in stops)
    && (forall p :: p in stops ==> (stops[p] != Forgotten <==> Registered(whip, p)))
    && (forall p :: p in stops ==> (p in whip.ended <==> stops[p] != Running))
    && (forall p :: p in whip.ended ==> p in stops)
  }

  ghost predicate SamePublisherPerResource(stops: Stops) {
    forall p, q :: p in stops && q in stops && p.resource == q.resource ==> p == q
  }

  ghost predicate NegotiationOk(whip: Whip, stops: Stops, c: Camera, n: Negotiation) {
    match n
    case Clear => c !in whip.byIngest
    case Replacing(p) => p in stops && p.camera == c && (c in whip.byIngest ==> whip.byIngest[c] == p.resource)
    case Awaiting(p) => p in stops && p.camera == c && (c in whip.byIngest ==> whip.byIngest[c] == p.resource)
    case _ => true
  }

  ghost predicate Negotiating(whip: Whip, stops: Stops, negotiations: map<Camera, Negotiation>) {
    && whip.pending == negotiations.Keys
    && forall c :: c in negotiations ==> NegotiationOk(whip, stops, c, negotiations[c])
  }

  /** `p` has not come to the region that drops its stream. */
  predicate Streaming(stops: Stops, p: Publisher) {
    p in stops && (stops[p] == Running || stops[p] == Marked)
  }

  /** `p` has not come to the region that closes its subscribers. */
  predicate Serving(stops: Stops, p: Publisher) {
    p in stops && stops[p] != Notified && stops[p] != Forgotten
  }

  ghost predicate Authored(stream: Stream, owner: Publisher) {
    forall t :: t in stream.tracks.Values ==> t.publisher == owner
  }

  /** A camera's stream, and every track in it, was published by the camera's owner, not yet dropped. */
  ghost predicate Streams(relay: Relay, owners: seq<Publisher>, stops: Stops) {
    && relay.Valid() && |owners| == |relay.objects|
    && (forall i :: 0 <= i < |owners| ==> Authored(relay.objects[i], owners[i]))
    && (forall c :: c in relay.streams ==>
          owners[relay.streams[c]].camera == c && Streaming(stops, owners[relay.streams[c]]))
  }

  /** All tracks come from publishers of this camera that are still serving it. */
  ghost predicate LiveTracks(stops: Stops, camera: Camera, tracks: set<Track>) {
    forall t :: t in tracks ==> t.publisher.camera == camera && Serving(stops, t.publisher)
  }

  ghost predicate SubscriptionOk(owners: seq<Publisher>, stops: Stops, u: Subscriber, n: Subscription) {
    match n
    case Reserved => true
    case Found(i) => i < |owners| && owners[i].camera == u.camera && Serving(stops, owners[i])
    case Attached(tracks) => LiveTracks(stops, u.camera, tracks)
    case Finished(tracks) => LiveTracks(stops, u.camera, tracks)
  }

  ghost predicate Subscribed(whep: Whep, subscriptions: map<Subscriber, Subscription>,
                             owners: seq<Publisher>, stops: Stops)
  {
    && (forall u :: u in whep.pending ==> u in subscriptions)
    && (forall u :: whep.Stands(u) ==> SubscriptionOk(owners, stops, u, subscriptions[u]))
    && (forall r :: r in whep.sessions ==>
          && whep.sessions[r] in subscriptions
          && subscriptions[whep.sessions[r]].Finished?
          && SubscriptionOk(owners, stops, whep.sessions[r], subscriptions[whep.sessions[r]]))
  }

  ghost predicate Inv(s: State) {
    && Mirrored(s.whip)
    && Lifecycles(s.whip, s.stops)
    && SamePublisherPerResource(s.stops)
    && Negotiating(s.whip, s.stops, s.negotiations)
    && Streams(s.relay, s.owners, s.stops)
    && Subscribed(s.whep, s.subscriptions, s.owners, s.stops)
  }

  // ----- every step keeps it

  /** Growing or advancing `stops` keeps a subscription fine while its publishers keep serving. */
  lemma SubscribedFrame(whep: Whep, subs: map<Subscriber, Subscription>, owners: seq<Publisher>, stops: Stops,
                        owners': seq<Publisher>, stops': Stops)
    requires Subscribed(whep, subs, owners, stops) && owners <= owners'
    requires forall p :: Serving(stops, p) ==> Serving(stops', p)
    ensures Subscribed(whep, subs, owners', stops')
  {
    forall u, n | SubscriptionOk(owners, stops, u, n)
      ensures SubscriptionOk(owners', stops', u, n)
    {
    }
  }

  lemma NegotiatingFrame(whip: Whip, stops: Stops, negotiations: map<Camera, Negotiation>, whip': Whip, stops': Stops)
    requires Negotiating(whip, stops, negotiations) && whip'.pending == whip.pending
    requires forall p :: p in stops ==> p in stops'
    requires forall c :: c in whip'.byIngest ==> c in whip.byIngest && whip'.byIngest[c] == whip.byIngest[c]
    ensures Negotiating(whip', stops', negotiations)
  {
    forall c | c in negotiations
      ensures NegotiationOk(whip', stops', c, negotiations[c])
    {
      assert NegotiationOk(whip, stops, c, negotiations[c]);
    }
  }

  lemma StreamsFrame(relay: Relay, owners: seq<Publisher>, stops: Stops, stops': Stops)
    requires Streams(relay, owners, stops)
    requires forall p :: Streaming(stops, p) ==> Streaming(stops', p)
    ensures Streams(relay, owners, stops')
  {
  }

  lemma RegisterTables(whip: Whip, stops: Stops, p: Publisher)
    requires Mirrored(whip) && Lifecycles(whip, stops)
    requires p.camera !in whip.byIngest && !whip.closed
    requires forall q :: q in stops ==> q.resource != p.resource
    ensures Mirrored(whip.Register(p)) && Lifecycles(whip.Register(p), stops[p := Running])
  {
    assert p.resource !in whip.sessions;
  }

  lemma RegisterNegotiations(s: State, p: Publisher)
    requires Negotiating(s.whip, s.stops, s.negotiations) && At(s, p.camera, Clear)
    ensures Negotiating(s.whip.Register(p), s.stops[p := Running], s.negotiations[p.camera := Leaving])
  {
    forall c | c in s.negotiations && c != p.camera
      ensures NegotiationOk(s.whip.Register(p), s.stops[p := Running], c, s.negotiations[c])
    {
      assert NegotiationOk(s.whip, s.stops, c, s.negotiations[c]);
    }
  }

  /** A new publisher neither ends a stream nor stops serving a subscriber. */
  lemma RegisterFrame(relay: Relay, owners: seq<Publisher>, whep: Whep, subs: map<Subscriber, Subscription>,
                      stops: Stops, p: Publisher)
    requires Streams(relay, owners, stops) && Subscribed(whep, subs, owners, stops)
    requires SamePublisherPerResource(stops) && forall q :: q in stops ==> q.resource != p.resource
    ensures Streams(relay, owners, stops[p := Running]) && Subscribed(whep, subs, owners, stops[p := Running])
    ensures SamePublisherPerResource(stops[p := Running])
  {
    StreamsFrame(relay, owners, stops, stops[p := Running]);
    SubscribedFrame(whep, subs, owners, stops, owners, stops[p := Running]);
  }

  lemma RegisterOpen(s: State, p: Publisher)
    requires Inv(s) && !s.whip.closed && At(s, p.camera, Clear) && FreshResource(s, p.resource)
    ensures Inv(s.(whip := s.whip.Register(p), stops := s.stops[p := Running],
                   negotiations := s.negotiations[p.camera := Leaving]))
  {
    assert NegotiationOk(s.whip, s.stops, p.camera, Clear);
    RegisterTables(s.whip, s.stops, p);
    RegisterNegotiations(s, p);
    RegisterFrame(s.relay, s.owners, s.whep, s.subscriptions, s.stops, p);
  }

  lemma MoveNegotiation(s: State, c: Camera, n: Negotiation)
    requires Inv(s) && c in s.negotiations && NegotiationOk(s.whip, s.stops, c, n)
    ensures Inv(s.(negotiations := s.negotiations[c := n]))
  {
  }

  lemma RegisterStep(s: State, p: Publisher)
    requires Inv(s)
    ensures Inv(ApplyNegotiation(s, Register(p)))
  {
    if At(s, p.camera, Clear) && FreshResource(s, p.resource) {
      if s.whip.closed {
        MoveNegotiation(s, p.camera, Leaving);
      } else {
        RegisterOpen(s, p);
      }
    }
  }

  lemma ReplaceStep(s: State, e: Event)
    requires Inv(s) && (e.ClearPrevious? || e.TeardownPrevious? || e.PreviousStopped?)
    ensures Inv(ApplyNegotiation(s, e))
  {
    var t, c := ApplyNegotiation(s, e), e.camera;
    if t != s {
      assert NegotiationOk(s.whip, s.stops, c, s.negotiations[c]);
      MoveNegotiation(s, c, t.negotiations[c]);
    }
  }

  lemma ReserveCameraStep(s: State, e: Event)
    requires Inv(s) && (e.Negotiate? || e.LeaveNegotiation?)
    ensures Inv(ApplyNegotiation(s, e))
  {
    var t := ApplyNegotiation(s, e);
    forall c | c in t.negotiations
      ensures NegotiationOk(t.whip, t.stops, c, t.negotiations[c])
    {
      assert c in s.negotiations ==> NegotiationOk(s.whip, s.stops, c, s.negotiations[c]);
    }
  }

  lemma PublishStreams(relay: Relay, owners: seq<Publisher>, stops: Stops, t: Track)
    requires Streams(relay, owners, stops) && Streaming(stops, t.publisher)
    requires t.publisher.camera in relay.streams ==> owners[relay.streams[t.publisher.camera]] == t.publisher
    ensures var c := t.publisher.camera;
            Streams(relay.Publish(c, t), if c in relay.streams then owners else owners + [t.publisher], stops)
  {
    var c := t.publisher.camera;
    if c in relay.streams {
      var id := relay.streams[c];
      assert Authored(relay.objects[id], t.publisher);
      assert Authored(relay.Publish(c, t).objects[id], t.publisher);
    }
  }

  lemma PublishTrackStep(s: State, p: Publisher, kind: Kind)
    requires Inv(s)
    ensures Inv(ApplyPublisher(s, PublishTrack(p, kind)))
  {
    if p in s.stops && s.whip.Current(p) {
      if p.camera in s.relay.streams {
        var owner := s.owners[s.relay.streams[p.camera]];
        assert Streaming(s.stops, owner);
        assert Owns(s.whip, owner);
      }
      var t := ApplyPublisher(s, PublishTrack(p, kind));
      PublishStreams(s.relay, s.owners, s.stops, Track(kind, p));
      SubscribedFrame(s.whep, s.subscriptions, s.owners, s.stops, t.owners, t.stops);
    }
  }

  lemma MarkTables(whip: Whip, stops: Stops, p: Publisher)
    requires Mirrored(whip) && Lifecycles(whip, stops) && p in stops && stops[p] == Running
    ensures whip.Current(p)
    ensures Mirrored(whip.MarkEnded(p)) && Lifecycles(whip.MarkEnded(p), stops[p := Marked])
  {
    assert Owns(whip, p);
  }

  lemma StopMarkStep(s: State, p: Publisher)
    requires Inv(s)
    ensures Inv(ApplyPublisher(s, StopMark(p)))
  {
    if Stopping(s, p, Running) {
      var stops' := s.stops[p := Marked];
      MarkTables(s.whip, s.stops, p);
      NegotiatingFrame(s.whip, s.stops, s.negotiations, s.whip.MarkEnded(p), stops');
      StreamsFrame(s.relay, s.owners, s.stops, stops');
      SubscribedFrame(s.whep, s.subscriptions, s.owners, s.stops, s.owners, stops');
    }
  }

  /** Moving on inside stopSession, after the mark and before forget, leaves the tables as they are. */
  lemma AdvanceTables(whip: Whip, stops: Stops, p: Publisher, stop: Stop)
    requires Lifecycles(whip, stops) && p in stops && stops[p] != Running && stops[p] != Forgotten
    requires stop != Running && stop != Forgotten
    ensures Lifecycles(whip, stops[p := stop])
  {
  }

  lemma DropStreams(relay: Relay, owners: seq<Publisher>, stops: Stops, p: Publisher)
    requires Streams(relay, owners, stops)
    ensures Streams(relay.Drop(p.camera), owners, stops[p := Dropped])
  {
  }

  lemma StopDropStep(s: State, p: Publisher)
    requires Inv(s)
    ensures Inv(ApplyPublisher(s, StopDrop(p)))
  {
    if Stopping(s, p, Marked) {
      var stops' := s.stops[p := Dropped];
      AdvanceTables(s.whip, s.stops, p, Dropped);
      NegotiatingFrame(s.whip, s.stops, s.negotiations, s.whip, stops');
      DropStreams(s.relay, s.owners, s.stops, p);
      SubscribedFrame(s.whep, s.subscriptions, s.owners, s.stops, s.owners, stops');
    }
  }

  lemma NotifySubscribers(whep: Whep, subs: map<Subscriber, Subscription>, owners: seq<Publisher>,
                          stops: Stops, p: Publisher)
    requires Subscribed(whep, subs, owners, stops)
    ensures Subscribed(whep.CloseIngest(p.camera), subs, owners, stops[p := Notified])
  {
    forall u: Subscriber, n | u.camera != p.camera && SubscriptionOk(owners, stops, u, n)
      ensures SubscriptionOk(owners, stops[p := Notified], u, n)
    {
    }
    assert forall u :: whep.CloseIngest(p.camera).Stands(u) ==> whep.Stands(u) && u.camera != p.camera;
  }

  lemma StopNotifyStep(s: State, p: Publisher)
    requires Inv(s)
    ensures Inv(ApplyPublisher(s, StopNotify(p)))
  {
    if Stopping(s, p, Dropped) {
      var stops' := s.stops[p := Notified];
      AdvanceTables(s.whip, s.stops, p, Notified);
      NegotiatingFrame(s.whip, s.stops, s.negotiations, s.whip, stops');
      StreamsFrame(s.relay, s.owners, s.stops, stops');
      NotifySubscribers(s.whep, s.subscriptions, s.owners, s.stops, p);
    }
  }

  lemma ForgetTables(whip: Whip, stops: Stops, p: Publisher)
    requires Mirrored(whip) && Lifecycles(whip, stops) && SamePublisherPerResource(stops)
    requires p in stops && stops[p] == Notified
    ensures Mirrored(whip.Forget(p.resource)) && Lifecycles(whip.Forget(p.resource), stops[p := Forgotten])
  {
    assert Owns(whip, p);
    assert forall c :: c in whip.byIngest && whip.byIngest[c] == p.resource ==> c == p.camera;
  }

  lemma StopForgetStep(s: State, p: Publisher)
    requires Inv(s)
    ensures Inv(ApplyPublisher(s, StopForget(p)))
  {
    if Stopping(s, p, Notified) {
      var stops' := s.stops[p := Forgotten];
      ForgetTables(s.whip, s.stops, p);
      NegotiatingFrame(s.whip, s.stops, s.negotiations, s.whip.Forget(p.resource), stops');
      StreamsFrame(s.relay, s.owners, s.stops, stops');
      SubscribedFrame(s.whep, s.subscriptions, s.owners, s.stops, s.owners, stops');
    }
  }

  /** A subscription that moves on keeps the invariant as long as its own new place does. */
  lemma MoveSubscription(s: State, u: Subscriber, n: Subscription)
    requires Inv(s) && u in s.subscriptions && !s.subscriptions[u].Finished?
    requires s.whep.Stands(u) ==> SubscriptionOk(s.owners, s.stops, u, n)
    ensures Inv(s.(subscriptions := s.subscriptions[u := n]))
  {
  }

  lemma ReserveStep(s: State, u: Subscriber)
    requires Inv(s)
    ensures Inv(ApplySubscriber(s, Reserve(u)))
  {
  }

  lemma FindStreamStep(s: State, u: Subscriber)
    requires Inv(s)
    ensures Inv(ApplySubscriber(s, FindStream(u)))
  {
    if u in s.subscriptions && s.subscriptions[u] == Reserved && u.camera in s.relay.streams {
      assert Streaming(s.stops, s.owners[s.relay.streams[u.camera]]);
      MoveSubscription(s, u, Found(s.relay.streams[u.camera]));
    }
  }

  lemma ReadTracksStep(s: State, u: Subscriber)
    requires Inv(s)
    ensures Inv(ApplySubscriber(s, ReadTracks(u)))
  {
    if u in s.subscriptions && s.subscriptions[u].Found? && s.subscriptions[u].stream < |s.relay.objects| {
      var i := s.subscriptions[u].stream;
      var tracks := s.relay.objects[i].tracks.Values;
      assert Authored(s.relay.objects[i], s.owners[i]);
      assert s.whep.Stands(u) ==> LiveTracks(s.stops, u.camera, tracks);
      MoveSubscription(s, u, Attached(tracks));
    }
  }

  lemma DetachStep(s: State, e: Event)
    requires Inv(s) && (e.Release? || e.CloseIngest? || e.Remove? || e.WhepClose?)
    ensures Inv(ApplySubscriber(s, e))
  {
    var t := ApplySubscriber(s, e);
    assert forall u :: t.whep.Stands(u) ==> s.whep.Stands(u);
  }

  lemma CommitStep(s: State, u: Subscriber, r: Resource)
    requires Inv(s)
    ensures Inv(ApplySubscriber(s, Commit(u, r)))
  {
    var t := ApplySubscriber(s, Commit(u, r));
    if t != s {
      assert forall v :: t.whep.Stands(v) <==> s.whep.Stands(v);
      assert s.whep.Stands(u) ==> SubscriptionOk(s.owners, s.stops, u, s.subscriptions[u]);
      assert s.whep.Stands(u) ==> SubscriptionOk(t.owners, t.stops, u, t.subscriptions[u]);
    }
  }

  predicate OfNegotiation(e: Event) {
    e.Negotiate? || e.ClearPrevious? || e.TeardownPrevious? || e.PreviousStopped? || e.Register? || e.LeaveNegotiation?
  }

  predicate OfPublisher(e: Event) {
    e.PublishTrack? || e.StopMark? || e.StopDrop? || e.StopNotify? || e.StopForget? || e.WhipClose?
  }

  lemma NegotiationKeepsInv(s: State, e: Event)
    requires Inv(s) && OfNegotiation(e)
    ensures Inv(ApplyNegotiation(s, e))
  {
    if e.Negotiate? || e.LeaveNegotiation? {
      ReserveCameraStep(s, e);
    } else if e.Register? {
      RegisterStep(s, e.publisher);
    } else {
      ReplaceStep(s, e);
    }
  }

  lemma PublisherKeepsInv(s: State, e: Event)
    requires Inv(s) && OfPublisher(e)
    ensures Inv(ApplyPublisher(s, e))
  {
    match e
    case PublishTrack(p, kind) => PublishTrackStep(s, p, kind);
    case StopMark(p) => StopMarkStep(s, p);
    case StopDrop(p) => StopDropStep(s, p);
    case StopNotify(p) => StopNotifyStep(s, p);
    case StopForget(p) => StopForgetStep(s, p);
    case WhipClose => WhipCloseStep(s);
  }

  lemma SubscriberKeepsInv(s: State, e: Event)
    requires Inv(s) && !OfNegotiation(e) && !OfPublisher(e)
    ensures Inv(ApplySubscriber(s, e))
  {
    match e
    case Reserve(u) => ReserveStep(s, u);
    case FindStream(u) => FindStreamStep(s, u);
    case ReadTracks(u) => ReadTracksStep(s, u);
    case Commit(u, r) => CommitStep(s, u, r);
    case _ => DetachStep(s, e);
  }

  /** Every step of every goroutine keeps the invariant. */
  lemma StepKeepsInv(s: State, e: Event)
    requires Inv(s)
    ensures Inv(Apply(s, e))
  {
    if OfNegotiation(e) {
      NegotiationKeepsInv(s, e);
    } else if OfPublisher(e) {
      PublisherKeepsInv(s, e);
    } else {
      SubscriberKeepsInv(s, e);
    }
  }

  lemma WhipCloseStep(s: State)
    requires Inv(s)
    ensures Inv(ApplyPublisher(s, WhipClose))
  {
    NegotiatingFrame(s.whip, s.stops, s.negotiations, s.whip.Close(), s.stops);
  }

  // ----- whole runs

  /** The state after a run; the invariant holds all along it. */
  function Run(s: State, run: seq<Event>): (t: State)
    requires Inv(s)
    ensures Inv(t)
    decreases |run|
  {
    if run == [] then s else
      StepKeepsInv(s, run[0]);
      Run(Apply(s, run[0]), run[1..])
  }

  lemma InitInv()
    ensures Inv(INIT)
  {
  }

  /**
   * After any interleaving: one registered session per camera, the two tables name the same
   * ones, and whatever a camera streams was published by the session that owns it.
   */
  lemma CameraHasOneOwner(run: seq<Event>)
    ensures Inv(INIT)
    ensures var s := Run(INIT, run);
            && (forall r :: r in s.whip.sessions ==>
                  s.whip.sessions[r].camera in s.whip.byIngest
                  && s.whip.byIngest[s.whip.sessions[r].camera] == r)
            && (forall c :: c in s.whip.byIngest ==>
                  s.whip.byIngest[c] in s.whip.sessions && s.whip.sessions[s.whip.byIngest[c]].camera == c)
            && (forall p, q :: Registered(s.whip, p) && Registered(s.whip, q) && p.camera == q.camera ==> p == q)
            && (forall c, t :: c in s.relay.streams && t in s.relay.objects[s.relay.streams[c]].tracks.Values ==>
                  t.publisher.camera == c && Owns(s.whip, t.publisher))
  {
    InitInv();
    var s := Run(INIT, run);
    forall c, t | c in s.relay.streams && t in s.relay.objects[s.relay.streams[c]].tracks.Values
      ensures t.publisher.camera == c && Owns(s.whip, t.publisher)
    {
      var i := s.relay.streams[c];
      assert Authored(s.relay.objects[i], s.owners[i]);
      assert Streaming(s.stops, s.owners[i]);
    }
  }

  lemma ServingOwns(s: State, p: Publisher)
    requires Inv(s) && Serving(s.stops, p)
    ensures Owns(s.whip, p)
  {
    assert Registered(s.whip, p);
  }

  /** The tracks a subscriber has read so far. */
  function Held(s: State, u: Subscriber): set<Track> {
    if u in s.subscriptions && (s.subscriptions[u].Attached? || s.subscriptions[u].Finished?)
    then s.subscriptions[u].tracks else {}
  }

  /** The subscriber is committed, or could still commit. */
  predicate Attending(whep: Whep, u: Subscriber) {
    u in whep.sessions.Values || whep.Stands(u)
  }

  /**
   * After any interleaving every committed subscriber, and every reservation that still
   * stands, holds tracks only of the publisher that owns its camera at that moment; and one
   * that has found its stream but not read it has found the owner's.
   */
  lemma SubscribersFollowTheOwner(run: seq<Event>)
    ensures Inv(INIT)
    ensures var s := Run(INIT, run);
            && (forall u, t :: Attending(s.whep, u) && t in Held(s, u) ==>
                  t.publisher.camera == u.camera && Owns(s.whip, t.publisher))
            && (forall u :: s.whep.Stands(u) && u in s.subscriptions && s.subscriptions[u].Found? ==>
                  var i := s.subscriptions[u].stream;
                  i < |s.owners| && s.owners[i].camera == u.camera && Owns(s.whip, s.owners[i]))
  {
    InitInv();
    var s := Run(INIT, run);
    forall u, t | Attending(s.whep, u) && t in Held(s, u)
      ensures t.publisher.camera == u.camera && Owns(s.whip, t.publisher)
    {
      assert SubscriptionOk(s.owners, s.stops, u, s.subscriptions[u]);
      ServingOwns(s, t.publisher);
    }
    forall u | s.whep.Stands(u) && u in s.subscriptions && s.subscriptions[u].Found?
      ensures var i := s.subscriptions[u].stream;
              i < |s.owners| && s.owners[i].camera == u.camera && Owns(s.whip, s.owners[i])
    {
      assert SubscriptionOk(s.owners, s.stops, u, s.subscriptions[u]);
      ServingOwns(s, s.owners[s.subscriptions[u].stream]);
    }
  }

  lemma {:induction false} RunsCompose(s: State, run: seq<Event>, more: seq<Event>)
    requires Inv(s)
    ensures Run(s, run + more) == Run(Run(s, run), more)
    decreases |run|
  {
    if run == [] {
      assert run + more == more;
    } else {
      StepKeepsInv(s, run[0]);
      assert (run + more)[0] == run[0] && (run + more)[1..] == run[1..] + more;
      RunsCompose(Apply(s, run[0]), run[1..], more);
    }
  }

  lemma ForgottenStays(s: State, e: Event, p: Publisher)
    requires s.relay.Valid() && |s.owners| == |s.relay.objects| && Stopping(s, p, Forgotten)
    ensures Stopping(Apply(s, e), p, Forgotten)
  {
  }

  lemma {:induction false} ForgottenForGood(s: State, more: seq<Event>, p: Publisher)
    requires Inv(s) && Stopping(s, p, Forgotten)
    ensures Stopping(Run(s, more), p, Forgotten)
    decreases |more|
  {
    if more != [] {
      StepKeepsInv(s, more[0]);
      ForgottenStays(s, more[0], p);
      ForgottenForGood(Apply(s, more[0]), more[1..], p);
    }
  }

  /**
   * Once a publisher's forget has run, then or after any further steps no committed
   * subscriber and no reservation that could still commit holds one of its tracks.
   */
  lemma ForgetEndsItsSubscribers(run: seq<Event>, more: seq<Event>, p: Publisher)
    requires Inv(INIT) && Stopping(Run(INIT, run), p, Forgotten)
    ensures var s := Run(INIT, run + more);
            forall u, t :: Attending(s.whep, u) && t in Held(s, u) ==> t.publisher != p
  {
    RunsCompose(INIT, run, more);
    ForgottenForGood(Run(INIT, run), more, p);
    var s := Run(INIT, run + more);
    forall u, t | Attending(s.whep, u) && t in Held(s, u)
      ensures t.publisher != p
    {
      assert SubscriptionOk(s.owners, s.stops, u, s.subscriptions[u]);
    }
  }

  /** The drop inside a publisher's stop takes no other publisher's stream away. */
  lemma StopDropsOnlyItsOwn(s: State, p: Publisher)
    requires Inv(s)
    ensures var t := Apply(s, StopDrop(p));
            forall c :: c in s.relay.streams && s.owners[s.relay.streams[c]] != p ==>
              c in t.relay.streams && t.relay.streams[c] == s.relay.streams[c]
  {
    if Stopping(s, p, Marked) && p.camera in s.relay.streams {
      var owner := s.owners[s.relay.streams[p.camera]];
      assert Streaming(s.stops, owner);
      assert Owns(s.whip, owner) && Owns(s.whip, p);
    }
  }

  lemma RegisterKeepsOwners(whip: Whip, q: Publisher, p: Publisher)
    requires Owns(whip, p) && q.camera !in whip.byIngest && q.resource !in whip.sessions
    ensures Owns(whip.Register(q), p)
  {
  }

  lemma ForgetKeepsOwners(whip: Whip, q: Publisher, p: Publisher)
    requires Owns(whip, p) && Owns(whip, q) && p != q
    ensures Owns(whip.Forget(q.resource), p)
  {
  }

  /** Only the two table updates change who owns what. */
  lemma TablesChangeOnlyThere(s: State, e: Event)
    requires s.relay.Valid() && |s.owners| == |s.relay.objects|
    requires !e.Register? && !e.StopForget?
    ensures var w := Apply(s, e).whip; w.sessions == s.whip.sessions && w.byIngest == s.whip.byIngest
  {
  }

  /** Only the last region of its own stop takes a camera away from its owner. */
  lemma OwnerKeepsCamera(s: State, e: Event, p: Publisher)
    requires Inv(s) && Owns(s.whip, p) && e != StopForget(p)
    ensures Owns(Apply(s, e).whip, p)
  {
    if e.Register? {
      if At(s, e.publisher.camera, Clear) && FreshResource(s, e.publisher.resource) {
        assert NegotiationOk(s.whip, s.stops, e.publisher.camera, Clear);
        RegisterKeepsOwners(s.whip, e.publisher, p);
      }
    } else if e.StopForget? {
      if Stopping(s, e.publisher, Notified) {
        assert Registered(s.whip, e.publisher);
        ForgetKeepsOwners(s.whip, e.publisher, p);
      }
    } else {
      TablesChangeOnlyThere(s, e);
    }
  }

  // ----- capacity and cancellation

  /** Everyone that is committed or holds a reservation; a subscriber may briefly be both. */
  function Everyone(whep: Whep): set<Subscriber> {
    whep.sessions.Values + whep.pending.Keys
  }

  function EveryoneOn(whep: Whep, camera: Camera): set<Subscriber> {
    set u | u in Everyone(whep) && u.camera == camera
  }

  ghost predicate WithinCapacity(whep: Whep) {
    && |Everyone(whep)| <= MAX_SUBSCRIBERS
    && forall c :: |EveryoneOn(whep, c)| <= MAX_SUBSCRIBERS_PER_CAMERA
  }

  lemma {:induction false} ImageIsNoLarger(m: map<Resource, Subscriber>, keys: set<Resource>)
    requires keys <= m.Keys
    ensures |set r | r in keys :: m[r]| <= |keys|
    decreases |keys|
  {
    if keys != {} {
      var r :| r in keys;
      ImageIsNoLarger(m, keys - {r});
      assert (set q | q in keys :: m[q]) == (set q | q in keys - {r} :: m[q]) + {m[r]};
    }
  }

  lemma RoomLeft(whep: Whep)
    ensures |Everyone(whep)| <= |whep.sessions| + |whep.pending|
  {
    ImageIsNoLarger(whep.sessions, whep.sessions.Keys);
    assert whep.sessions.Values == set r | r in whep.sessions.Keys :: whep.sessions[r];
  }

  lemma RoomLeftOn(whep: Whep, c: Camera)
    ensures |EveryoneOn(whep, c)| <= |whep.PendingOf(c)| + |whep.SessionsOf(c)|
  {
    var here := whep.SessionsOf(c);
    var image := set r | r in here :: whep.sessions[r];
    ImageIsNoLarger(whep.sessions, here);
    forall u | u in EveryoneOn(whep, c)
      ensures u in image + whep.PendingOf(c)
    {
      if u !in whep.pending {
        var r :| r in whep.sessions && whep.sessions[r] == u;
        assert r in here;
      }
    }
    SubsetSize(EveryoneOn(whep, c), image + whep.PendingOf(c));
  }

  lemma ReserveFitsOn(whep: Whep, u: Subscriber, c: Camera)
    requires WithinCapacity(whep) && whep.HasRoom(u.camera)
    ensures |EveryoneOn(whep.Reserve(u), c)| <= MAX_SUBSCRIBERS_PER_CAMERA
  {
    var before, after := EveryoneOn(whep, c), EveryoneOn(whep.Reserve(u), c);
    assert Everyone(whep.Reserve(u)) == Everyone(whep) + {u};
    if c == u.camera {
      RoomLeftOn(whep, c);
      SubsetSize(after, before + {u});
    } else {
      SubsetSize(after, before);
    }
  }

  lemma ReserveFits(whep: Whep, u: Subscriber)
    requires WithinCapacity(whep)
    ensures WithinCapacity(whep.Reserve(u))
  {
    if whep.HasRoom(u.camera) {
      RoomLeft(whep);
      SubsetSize(Everyone(whep.Reserve(u)), Everyone(whep) + {u});
      forall c
        ensures |EveryoneOn(whep.Reserve(u), c)| <= MAX_SUBSCRIBERS_PER_CAMERA
      {
        ReserveFitsOn(whep, u, c);
      }
    }
  }

  lemma NoNewcomerFits(before: Whep, after: Whep)
    requires WithinCapacity(before) && Everyone(after) <= Everyone(before)
    ensures WithinCapacity(after)
  {
    SubsetSize(Everyone(after), Everyone(before));
    forall c
      ensures |EveryoneOn(after, c)| <= MAX_SUBSCRIBERS_PER_CAMERA
    {
      SubsetSize(EveryoneOn(after, c), EveryoneOn(before, c));
    }
  }

  lemma CommitAddsNobody(whep: Whep, u: Subscriber, r: Resource)
    ensures Everyone(whep.Commit(u, r)) <= Everyone(whep)
  {
  }

  lemma ClosingAddsNobody(whep: Whep, c: Camera, r: Resource, u: Subscriber)
    ensures Everyone(whep.CloseIngest(c)) <= Everyone(whep) && Everyone(whep.Close()) <= Everyone(whep)
    ensures Everyone(whep.Remove(r)) <= Everyone(whep) && Everyone(whep.Release(u)) <= Everyone(whep)
  {
  }

  lemma SubscriberFits(s: State, e: Event)
    requires s.relay.Valid() && WithinCapacity(s.whep)
    ensures WithinCapacity(ApplySubscriber(s, e).whep)
  {
    var after := ApplySubscriber(s, e).whep;
    if e.Reserve? {
      ReserveFits(s.whep, e.subscriber);
    } else if e.Commit? {
      CommitAddsNobody(s.whep, e.subscriber, e.resource);
      NoNewcomerFits(s.whep, after);
    } else if after != s.whep {
      var c := if e.CloseIngest? then e.camera else 0;
      var r := if e.Remove? then e.resource else 0;
      var u := if e.Release? then e.subscriber else Subscriber(0, 0);
      ClosingAddsNobody(s.whep, c, r, u);
      NoNewcomerFits(s.whep, after);
    }
  }

  lemma OthersLeaveWhep(s: State, e: Event)
    requires s.relay.Valid() && |s.owners| == |s.relay.objects| && (OfNegotiation(e) || OfPublisher(e))
    ensures Apply(s, e).whep == s.whep || (e.StopNotify? && Apply(s, e).whep == s.whep.CloseIngest(e.publisher.camera))
    ensures Apply(s, e).subscriptions == s.subscriptions
  {
  }

  lemma StepFits(s: State, e: Event)
    requires s.relay.Valid() && |s.owners| == |s.relay.objects| && WithinCapacity(s.whep)
    ensures WithinCapacity(Apply(s, e).whep)
  {
    if OfNegotiation(e) || OfPublisher(e) {
      OthersLeaveWhep(s, e);
      if e.StopNotify? {
        ClosingAddsNobody(s.whep, e.publisher.camera, 0, Subscriber(0, 0));
      }
      NoNewcomerFits(s.whep, Apply(s, e).whep);
    } else {
      SubscriberFits(s, e);
    }
  }

  /** In every reachable state at most 64 subscribers exist, and at most 8 of any camera. */
  lemma {:induction false} CapacityHolds(s: State, run: seq<Event>)
    requires Inv(s) && WithinCapacity(s.whep)
    ensures WithinCapacity(Run(s, run).whep)
    decreases |run|
  {
    if run != [] {
      StepKeepsInv(s, run[0]);
      StepFits(s, run[0]);
      CapacityHolds(Apply(s, run[0]), run[1..]);
    }
  }

  lemma CapacityFromTheStart(run: seq<Event>)
    ensures Inv(INIT) && WithinCapacity(Run(INIT, run).whep)
  {
    InitInv();
    assert Everyone(INIT.whep) == {};
    forall c
      ensures EveryoneOn(INIT.whep, c) == {}
    {
    }
    CapacityHolds(INIT, run);
  }

  /** A reservation that was cancelled or released stays so, and never becomes a committed session. */
  lemma {:induction false} CancelledNeverCommits(s: State, more: seq<Event>, u: Subscriber)
    requires Inv(s) && u in s.subscriptions && !s.whep.Stands(u)
    ensures var t := Run(s, more);
            && u in t.subscriptions && !t.whep.Stands(u)
            && (u in t.whep.sessions.Values ==> u in s.whep.sessions.Values)
    decreases |more|
  {
    if more != [] {
      StepKeepsInv(s, more[0]);
      CancelledStays(s, more[0], u);
      CancelledNeverCommits(Apply(s, more[0]), more[1..], u);
    }
  }

  lemma CancelledStays(s: State, e: Event, u: Subscriber)
    requires s.relay.Valid() && |s.owners| == |s.relay.objects|
    requires u in s.subscriptions && !s.whep.Stands(u)
    ensures var t := Apply(s, e);
            && u in t.subscriptions && !t.whep.Stands(u)
            && (u in t.whep.sessions.Values ==> u in s.whep.sessions.Values)
  {
    if OfNegotiation(e) || OfPublisher(e) {
      OthersLeaveWhep(s, e);
    }
  }
}
