/**
 * The locked regions of the WHIP server (internal/ingest/whip.go), the WHEP server
 * (internal/egress/whep.go) and the relay (internal/relay/relay.go). A region is what runs
 * between one Lock and its Unlock: each is a function on the state its mutex protects, and a
 * method that changes that state in place.
 */
module Servers {

  /** Camera and resource ids are only ever compared. */
  type Camera = nat
  type Resource = nat

  // ----- WHIP: publishers

  /** One publisher's Session object; the `ended` flag is kept by the server. */
  datatype Publisher = Publisher(resource: Resource, camera: Camera)

  datatype Whip = Whip(
    sessions: map<Resource, Publisher>,
    byIngest: map<Camera, Resource>,
    pending: set<Camera>,
    closed: bool,
    ended: set<Publisher>)
  {
    /** currentLocked */
    predicate Current(p: Publisher) {
      && p !in ended
      && p.camera in byIngest && byIngest[p.camera] == p.resource
      && p.resource in sessions && sessions[p.resource] == p
    }

    /** The first region of negotiate: one negotiation per camera. */
    predicate MayNegotiate(camera: Camera) {
      !closed && camera !in pending
    }

    function Begin(camera: Camera): Whip {
      if MayNegotiate(camera) then this.(pending := pending + {camera}) else this
    }

    function Leave(camera: Camera): Whip {
      this.(pending := pending - {camera})
    }

    /** What clearPrevious finds: the publisher to replace, if the camera has a known one. */
    predicate HasPrevious(camera: Camera) {
      camera in byIngest && byIngest[camera] in sessions
    }

    function Previous(camera: Camera): Publisher
      requires HasPrevious(camera)
    {
      sessions[byIngest[camera]]
    }

    function Register(p: Publisher): Whip {
      if closed then this
      else this.(sessions := sessions[p.resource := p], byIngest := byIngest[p.camera := p.resource])
    }

    function MarkEnded(p: Publisher): Whip {
      this.(ended := ended + {p})
    }

    function Forget(resource: Resource): Whip {
      if resource !in sessions then this else
        var camera := sessions[resource].camera;
        this.(byIngest := if camera in byIngest && byIngest[camera] == resource
                          then byIngest - {camera} else byIngest,
              sessions := sessions - {resource})
    }

    function Close(): Whip {
      this.(closed := true)
    }
  }

  class WhipServer {
    var sessions: map<Resource, Publisher>
    var byIngest: map<Camera, Resource>
    var pending: set<Camera>
    var closed: bool
    var ended: set<Publisher>

    function View(): Whip
      reads this
    {
      Whip(sessions, byIngest, pending, closed, ended)
    }

    constructor ()
      ensures View() == Whip(map[], map[], {}, false, {})
    {
      sessions, byIngest, pending, closed, ended := map[], map[], {}, false, {};
    }

    method BeginNegotiation(camera: Camera) returns (ok: bool)
      modifies this
      ensures ok == old(View()).MayNegotiate(camera)
      ensures View() == old(View()).Begin(camera)
    {
      if closed || camera in pending {
        return false;
      }
      pending := pending + {camera};
      return true;
    }

    method LeaveNegotiation(camera: Camera)
      modifies this
      ensures View() == old(View()).Leave(camera)
    {
      pending := pending - {camera};
    }

    /** The region of clearPrevious; `stopping` is read under the lock, the peer's state after it. */
    method FindPrevious(camera: Camera) returns (found: bool, previous: Publisher, stopping: bool)
      ensures found == View().HasPrevious(camera)
      ensures found ==> previous == View().Previous(camera) && stopping == (previous in View().ended)
    {
      found := camera in byIngest && byIngest[camera] in sessions;
      if found {
        previous := sessions[byIngest[camera]];
        stopping := previous in ended;
      } else {
        previous, stopping := Publisher(0, camera), false;
      }
    }

    method Register(p: Publisher) returns (ok: bool)
      modifies this
      ensures ok == !old(closed)
      ensures View() == old(View()).Register(p)
    {
      if closed {
        return false;
      }
      sessions := sessions[p.resource := p];
      byIngest := byIngest[p.camera := p.resource];
      return true;
    }

    /** The region that opens stopSession. */
    method MarkEnded(p: Publisher) returns (owned: bool)
      modifies this
      ensures owned == old(View()).Current(p)
      ensures View() == old(View()).MarkEnded(p)
    {
      owned := p !in ended
               && p.camera in byIngest && byIngest[p.camera] == p.resource
               && p.resource in sessions && sessions[p.resource] == p;
      ended := ended + {p};
    }

    method Forget(resource: Resource)
      modifies this
      ensures View() == old(View()).Forget(resource)
    {
      if resource in sessions {
        var camera := sessions[resource].camera;
        if camera in byIngest && byIngest[camera] == resource {
          byIngest := byIngest - {camera};
        }
        sessions := sessions - {resource};
      }
    }

    /** Returns the sessions that were live, which Close then stops one by one. */
    method Close() returns (live: set<Publisher>)
      modifies this
      ensures View() == old(View()).Close()
      ensures live == set r | r in old(sessions) :: old(sessions)[r]
    {
      closed := true;
      live := set r | r in sessions :: sessions[r];
    }
  }

  // ----- the relay

  datatype Kind = Video | Audio

  /** An outbound track and the publisher whose media it carries. */
  datatype Track = Track(kind: Kind, publisher: Publisher)

  /** A Stream object; the relay's table points at it and a subscriber may still hold it after a drop. */
  datatype Stream = Stream(tracks: map<Kind, Track>)

  datatype Relay = Relay(streams: map<Camera, nat>, objects: seq<Stream>) {

    predicate Valid() {
      forall c :: c in streams ==> streams[c] < |objects|
    }

    function Publish(camera: Camera, track: Track): Relay
      requires Valid()
    {
      if camera in streams then
        var id := streams[camera];
        this.(objects := objects[id := Stream(objects[id].tracks[track.kind := track])])
      else
        Relay(streams[camera := |objects|], objects + [Stream(map[track.kind := track])])
    }

    function Drop(camera: Camera): Relay {
      this.(streams := streams - {camera})
    }
  }

  class RelayTable {
    var streams: map<Camera, nat>
    var objects: seq<Stream>

    function View(): Relay
      reads this
    {
      Relay(streams, objects)
    }

    constructor ()
      ensures View() == Relay(map[], [])
    {
      streams, objects := map[], [];
    }

    method Publish(camera: Camera, track: Track)
      requires View().Valid()
      modifies this
      ensures View() == old(View()).Publish(camera, track) && View().Valid()
    {
      if camera !in streams {
        streams := streams[camera := |objects|];
        objects := objects + [Stream(map[])];
      }
      var id := streams[camera];
      objects := objects[id := Stream(objects[id].tracks[track.kind := track])];
      assert old(camera !in streams) ==> objects == old(objects) + [Stream(map[track.kind := track])];
    }

    /** The first of the two regions of Subscribe; the stream is read after the table is unlocked. */
    method Find(camera: Camera) returns (found: bool, id: nat)
      ensures found == (camera in View().streams)
      ensures found ==> id == View().streams[camera]
    {
      found := camera in streams;
      id := if found then streams[camera] else 0;
    }

    method Tracks(id: nat) returns (tracks: set<Track>)
      requires id < |View().objects|
      ensures tracks == View().objects[id].tracks.Values
    {
      tracks := objects[id].tracks.Values;
    }

    method Drop(camera: Camera)
      requires View().Valid()
      modifies this
      ensures View() == old(View()).Drop(camera) && View().Valid()
    {
      streams := streams - {camera};
    }
  }

  // ----- WHEP: subscribers

  const MAX_SUBSCRIBERS := 64
  const MAX_SUBSCRIBERS_PER_CAMERA := 8

  /** One subscriber's Session object: the camera it reads and the object's identity. */
  datatype Subscriber = Subscriber(camera: Camera, id: nat)

  datatype Whep = Whep(sessions: map<Resource, Subscriber>, pending: map<Subscriber, bool>, closed: bool) {

    function SessionsOf(camera: Camera): set<Resource> {
      set r | r in sessions && sessions[r].camera == camera
    }

    function PendingOf(camera: Camera): set<Subscriber> {
      set u | u in pending && u.camera == camera
    }

    predicate HasRoom(camera: Camera) {
      && !closed
      && |sessions| + |pending| < MAX_SUBSCRIBERS
      && |PendingOf(camera)| + |SessionsOf(camera)| < MAX_SUBSCRIBERS_PER_CAMERA
    }

    function Reserve(u: Subscriber): Whep {
      if HasRoom(u.camera) then this.(pending := pending[u := true]) else this
    }

    /** The pending entry still says the reservation stands. */
    predicate Stands(u: Subscriber) {
      u in pending && pending[u]
    }

    function Commit(u: Subscriber, resource: Resource): Whep {
      if Stands(u) then this.(sessions := sessions[resource := u]) else this
    }

    function Release(u: Subscriber): Whep {
      this.(pending := pending - {u})
    }

    function CloseIngest(camera: Camera): Whep {
      this.(sessions := map r | r in sessions && sessions[r].camera != camera :: sessions[r],
            pending := map u | u in pending :: pending[u] && u.camera != camera)
    }

    function Remove(resource: Resource): Whep {
      this.(sessions := sessions - {resource})
    }

    function Close(): Whep {
      Whep(map[], map u | u in pending :: false, true)
    }
  }

  class WhepServer {
    var sessions: map<Resource, Subscriber>
    var pending: map<Subscriber, bool>
    var closed: bool

    function View(): Whep
      reads this
    {
      Whep(sessions, pending, closed)
    }

    constructor ()
      ensures View() == Whep(map[], map[], false)
    {
      sessions, pending, closed := map[], map[], false;
    }

    /** `session` is the Session object the region allocates. */
    method Reserve(session: Subscriber) returns (ok: bool)
      requires session !in pending
      modifies this
      ensures ok == old(View()).HasRoom(session.camera)
      ensures View() == old(View()).Reserve(session)
    {
      var total, camera := |sessions| + |pending|, 0;
      var todo := pending.Keys;
      ghost var matching: set<Subscriber> := {};
      while todo != {}
        invariant todo <= pending.Keys && camera == |matching|
        invariant forall u :: u in matching <==> u in pending && u !in todo && u.camera == session.camera
      {
        var u :| u in todo;
        todo := todo - {u};
        if u.camera == session.camera {
          camera, matching := camera + 1, matching + {u};
        }
      }
      assert matching == View().PendingOf(session.camera);
      var more := CountSessions(session.camera);
      if closed || total >= MAX_SUBSCRIBERS || camera + more >= MAX_SUBSCRIBERS_PER_CAMERA {
        return false;
      }
      pending := pending[session := true];
      return true;
    }

    /** The second counting loop of reserve. */
    method CountSessions(camera: Camera) returns (count: nat)
      ensures count == |View().SessionsOf(camera)|
    {
      count := 0;
      var todo := sessions.Keys;
      ghost var matching: set<Resource> := {};
      while todo != {}
        invariant todo <= sessions.Keys && count == |matching|
        invariant forall r :: r in matching <==> r in sessions && r !in todo && sessions[r].camera == camera
      {
        var r :| r in todo;
        todo := todo - {r};
        if sessions[r].camera == camera {
          count, matching := count + 1, matching + {r};
        }
      }
      assert matching == View().SessionsOf(camera);
    }

    /** The region that ends negotiate. */
    method Commit(u: Subscriber, resource: Resource) returns (ok: bool)
      modifies this
      ensures ok == old(View()).Stands(u)
      ensures View() == old(View()).Commit(u, resource)
    {
      if !(u in pending && pending[u]) {
        return false;
      }
      sessions := sessions[resource := u];
      return true;
    }

    method ReleaseReservation(u: Subscriber)
      modifies this
      ensures View() == old(View()).Release(u)
    {
      pending := pending - {u};
    }

    method CloseIngest(camera: Camera) returns (doomed: set<Subscriber>)
      modifies this
      ensures View() == old(View()).CloseIngest(camera)
      ensures doomed == set r | r in old(View()).SessionsOf(camera) :: old(sessions)[r]
    {
      CancelPending(camera);
      doomed := {};
      var todo := sessions.Keys;
      while todo != {}
        invariant todo <= sessions.Keys <= old(sessions).Keys && closed == old(closed)
        invariant pending == old(View()).CloseIngest(camera).pending
        invariant forall r :: r in old(sessions) ==>
                    (r in sessions <==> r in todo || old(sessions)[r].camera != camera)
        invariant forall r :: r in sessions ==> sessions[r] == old(sessions)[r]
        invariant doomed == set r | r in old(sessions) && r !in sessions :: old(sessions)[r]
      {
        var r :| r in todo;
        todo := todo - {r};
        if sessions[r].camera == camera {
          doomed := doomed + {sessions[r]};
          sessions := sessions - {r};
        }
      }
      assert sessions == old(View()).CloseIngest(camera).sessions;
    }

    /** The loop of CloseIngest over the reservations. */
    method CancelPending(camera: Camera)
      modifies this`pending
      ensures pending == old(View()).CloseIngest(camera).pending
    {
      var waiting := pending.Keys;
      while waiting != {}
        invariant waiting <= pending.Keys == old(pending).Keys
        invariant forall u :: u in pending ==>
                    pending[u] == (old(pending)[u] && (u in waiting || u.camera != camera))
      {
        var u :| u in waiting;
        waiting := waiting - {u};
        if u.camera == camera {
          pending := pending[u := false];
        }
      }
      assert pending == old(View()).CloseIngest(camera).pending;
    }

    method Teardown(resource: Resource) returns (ok: bool)
      modifies this
      ensures ok == (resource in old(sessions))
      ensures View() == old(View()).Remove(resource)
    {
      ok := resource in sessions;
      sessions := sessions - {resource};
    }

    method Forget(resource: Resource)
      modifies this
      ensures View() == old(View()).Remove(resource)
    {
      sessions := sessions - {resource};
    }

    method Close() returns (live: set<Subscriber>)
      modifies this
      ensures View() == old(View()).Close()
      ensures live == old(sessions).Values
    {
      closed := true;
      var waiting := pending.Keys;
      while waiting != {}
        invariant waiting <= pending.Keys == old(pending).Keys && sessions == old(sessions) && closed
        invariant forall u :: u in pending && u !in waiting ==> !pending[u]
      {
        var u :| u in waiting;
        waiting := waiting - {u};
        pending := pending[u := false];
      }
      live := sessions.Values;
      sessions := map[];
      assert pending == old(View()).Close().pending;
    }
  }
}
