/**
 * Ownership on the server objects: every event of `Ownership` is the call its goroutine makes on the
 * WHIP server, the relay or the WHEP server, proved to take the objects where `Ownership.Apply` takes
 * their values. So what holds after every interleaving holds of the objects' own tables.
 */
module OwnershipRun {
  import opened Servers
  import opened Ownership
  import opened Publishing

  class Service {
    const whip: WhipServer
    const relay: RelayTable
    const whep: WhepServer
    // where the goroutines stand
    var stops: map<Publisher, Stop>
    var negotiations: map<Camera, Negotiation>
    var subscriptions: map<Subscriber, Subscription>
    var owners: seq<Publisher>

    function View(): State
      reads this, whip, relay, whep
    {
      State(whip.View(), relay.View(), whep.View(), stops, negotiations, subscriptions, owners)
    }

    constructor ()
      ensures View() == INIT && fresh(whip) && fresh(relay) && fresh(whep)
    {
      whip := new WhipServer();
      relay := new RelayTable();
      whep := new WhepServer();
      stops, negotiations, subscriptions, owners := map[], map[], map[], [];
    }

    /** clearPrevious, up to the teardown it may decide on. */
    method LookForPrevious(c: Camera, connected: bool)
      modifies this`negotiations
      ensures View() == ApplyNegotiation(old(View()), ClearPrevious(c, connected))
    {
      if !(c in negotiations && negotiations[c] == Entered) {
        return;
      }
      var found, previous, stopping := whip.FindPrevious(c);
      if !found {
        negotiations := negotiations[c := Clear];
      } else if !stopping && connected {
        negotiations := negotiations[c := Leaving];
      } else {
        negotiations := negotiations[c := Replacing(previous)];
      }
    }

    method Publish(p: Publisher)
      modifies this`negotiations, this`stops, whip
      ensures View() == ApplyNegotiation(old(View()), Register(p))
    {
      if !At(View(), p.camera, Clear) || !FreshResource(View(), p.resource) {
        return;
      }
      var ok := whip.Register(p);
      if ok {
        stops := stops[p := Running];
      }
      negotiations := negotiations[p.camera := Leaving];
    }

    method StepNegotiation(e: Event)
      requires OfNegotiation(e)
      modifies this`negotiations, this`stops, whip
      ensures View() == ApplyNegotiation(old(View()), e)
    {
      match e
      case Negotiate(c) =>
        var ok := whip.BeginNegotiation(c);
        if ok {
          negotiations := negotiations[c := Entered];
        }
      case ClearPrevious(c, connected) => LookForPrevious(c, connected);
      case TeardownPrevious(c) =>
        if c in negotiations && negotiations[c].Replacing? {
          var previous := negotiations[c].previous;
          negotiations := negotiations[c := if previous.resource in whip.sessions then Awaiting(previous) else Clear];
        }
      case PreviousStopped(c) =>
        if c in negotiations && negotiations[c].Awaiting? && Stopping(View(), negotiations[c].previous, Forgotten) {
          negotiations := negotiations[c := Clear];
        }
      case Register(p) => Publish(p);
      case LeaveNegotiation(c) =>
        if c in negotiations {
          whip.LeaveNegotiation(c);
          negotiations := negotiations - {c};
        }
    }

    /** The locked part of drain: a current session publishes its track. */
    method PublishTrack(p: Publisher, kind: Kind)
      requires relay.View().Valid() && |owners| == |relay.objects|
      modifies this`owners, relay
      ensures View() == ApplyPublisher(old(View()), Event.PublishTrack(p, kind))
    {
      if p in stops && whip.View().Current(p) {
        if p.camera !in relay.streams {
          owners := owners + [p];
        }
        relay.Publish(p.camera, Track(kind, p));
      }
    }

    /** The regions of stopSession, one at a time, and Close. */
    method StepPublisher(e: Event)
      requires OfPublisher(e) && relay.View().Valid() && |owners| == |relay.objects|
      modifies this`stops, this`owners, whip, relay, whep
      ensures View() == ApplyPublisher(old(View()), e)
    {
      match e
      case PublishTrack(p, kind) => PublishTrack(p, kind);
      case StopMark(p) =>
        if Stopping(View(), p, Running) {
          var owned := whip.MarkEnded(p);
          stops := stops[p := if owned then Marked else Notified];
        }
      case StopDrop(p) =>
        if Stopping(View(), p, Marked) {
          relay.Drop(p.camera);
          stops := stops[p := Dropped];
        }
      case StopNotify(p) =>
        if Stopping(View(), p, Dropped) {
          var _ := whep.CloseIngest(p.camera);
          stops := stops[p := Notified];
        }
      case StopForget(p) =>
        if Stopping(View(), p, Notified) {
          whip.Forget(p.resource);
          stops := stops[p := Forgotten];
        }
      case WhipClose => var _ := whip.Close();
    }

    /** The two regions of Relay.Subscribe. */
    method ReadRelay(e: Event)
      requires (e.FindStream? || e.ReadTracks?) && relay.View().Valid()
      modifies this`subscriptions
      ensures View() == ApplySubscriber(old(View()), e)
    {
      var u := e.subscriber;
      if u !in subscriptions {
        return;
      }
      if e.FindStream? {
        if subscriptions[u] == Reserved {
          var found, id := relay.Find(u.camera);
          if found {
            subscriptions := subscriptions[u := Found(id)];
          }
        }
      } else if subscriptions[u].Found? && subscriptions[u].stream < |relay.objects| {
        var tracks := relay.Tracks(subscriptions[u].stream);
        if tracks != {} {
          subscriptions := subscriptions[u := Attached(tracks)];
        }
      }
    }

    method StepSubscriber(e: Event)
      requires !OfNegotiation(e) && !OfPublisher(e) && relay.View().Valid()
      requires e.Reserve? && e.subscriber !in subscriptions ==> e.subscriber !in whep.pending
      modifies this`subscriptions, whep
      ensures View() == ApplySubscriber(old(View()), e)
    {
      match e
      case Reserve(u) =>
        if u !in subscriptions {
          var ok := whep.Reserve(u);
          if ok {
            subscriptions := subscriptions[u := Reserved];
          }
        }
      case FindStream(_) => ReadRelay(e);
      case ReadTracks(_) => ReadRelay(e);
      case Commit(u, resource) =>
        if u in subscriptions && subscriptions[u].Attached? && resource !in whep.sessions {
          var _ := whep.Commit(u, resource);
          subscriptions := subscriptions[u := Finished(subscriptions[u].tracks)];
        }
      case Release(u) => whep.ReleaseReservation(u);
      case CloseIngest(c) => var _ := whep.CloseIngest(c);
      case Remove(resource) => var _ := whep.Teardown(resource);
      case WhepClose => var _ := whep.Close();
    }

    /** One event, on the objects. */
    method Execute(e: Event)
      requires Inv(View())
      modifies this, whip, relay, whep
      ensures View() == Apply(old(View()), e) && Inv(View())
    {
      StepKeepsInv(View(), e);
      if OfNegotiation(e) {
        StepNegotiation(e);
      } else if OfPublisher(e) {
        StepPublisher(e);
      } else {
        StepSubscriber(e);
      }
    }
  }

  /** The run so far, one event longer. */
  lemma RunSteps(run: seq<Event>, n: nat)
    requires n < |run| && Inv(INIT)
    ensures Run(INIT, run[..n + 1]) == Apply(Run(INIT, run[..n]), run[n])
  {
    assert run[..n + 1] == run[..n] + [run[n]];
    RunsCompose(INIT, run[..n], [run[n]]);
    assert [run[n]][1..] == [];
    StepKeepsInv(Run(INIT, run[..n]), run[n]);
  }

  /** Any interleaving, executed on new servers, ends where the run on values ends. */
  method Serve(run: seq<Event>) returns (s: Service)
    ensures Inv(INIT) && s.View() == Run(INIT, run)
  {
    InitInv();
    s := new Service();
    for i := 0 to |run|
      invariant fresh(s) && fresh(s.whip) && fresh(s.relay) && fresh(s.whep)
      invariant s.View() == Run(INIT, run[..i])
    {
      RunSteps(run, i);
      s.Execute(run[i]);
    }
    assert run[..|run|] == run;
  }

  /** The session that publishes a track owns the camera. */
  ghost predicate OwnersTracks(whip: Whip, camera: Camera, tracks: set<Track>) {
    forall t :: t in tracks ==> t.publisher.camera == camera && Owns(whip, t.publisher)
  }

  /** byIngest and sessions name each other. */
  ghost predicate SessionsAgree(sessions: map<Resource, Publisher>, byIngest: map<Camera, Resource>) {
    && (forall r :: r in sessions ==> sessions[r].camera in byIngest && byIngest[sessions[r].camera] == r)
    && (forall c :: c in byIngest ==> byIngest[c] in sessions && sessions[byIngest[c]].camera == c)
  }

  ghost predicate RelayAgrees(whip: Whip, relay: Relay) {
    forall c :: c in relay.streams ==>
      relay.streams[c] < |relay.objects| && OwnersTracks(whip, c, relay.objects[relay.streams[c]].tracks.Values)
  }

  ghost predicate SubscribersAgree(s: State) {
    forall u :: Attending(s.whep, u) ==> OwnersTracks(s.whip, u.camera, Held(s, u))
  }

  lemma RunsAgree(run: seq<Event>)
    ensures Inv(INIT)
    ensures var s := Run(INIT, run);
            && SessionsAgree(s.whip.sessions, s.whip.byIngest) && RelayAgrees(s.whip, s.relay)
            && SubscribersAgree(s) && WithinCapacity(s.whep)
  {
    CameraHasOneOwner(run);
    SubscribersFollowTheOwner(run);
    CapacityFromTheStart(run);
  }

  /**
   * After any interleaving the servers' own tables agree: byIngest and sessions of the WHIP server name
   * each other, every track in the relay is of the session that owns its camera, and so is every track
   * that a committed or still standing subscriber of the WHEP server has read; every track a session has
   * published is in the relay until that session drops it; and the WHEP server keeps to its limits.
   */
  method ServedTablesAgree(run: seq<Event>) returns (s: Service)
    ensures SessionsAgree(s.whip.sessions, s.whip.byIngest)
    ensures RelayAgrees(s.whip.View(), s.relay.View())
    ensures SubscribersAgree(s.View())
    ensures WithinCapacity(s.whep.View())
    ensures Inv(INIT) && HoldsPublished(s.relay.View(), s.stops, Recorded(INIT, map[], run))
  {
    s := Serve(run);
    RunsAgree(run);
    PublishedTracksAreThere(run);
  }
}
