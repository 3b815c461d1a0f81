/**
 * Everything a camera does to a track is made of the touches of `PlayoutLine`: so what holds of every trail holds of
 * every track of every camera, registered or not, after any run of `CameraPlayout`.
 */
module PlayoutTrails {
  import opened Basics
  import opened RtpClock
  import opened PlayoutHeap
  import opened DelayController
  import opened PlayoutTrack
  import opened PlayoutLine
  import opened StreamClocks
  import opened CameraPlayout

  function TouchedAll(t: Track, run: seq<Touch>): Track
    decreases |run|
  {
    if run == [] then t else TouchedAll(Touched(t, run[0]), run[1..])
  }

  /** Some touches take `t` to `u`. */
  ghost predicate Reaches(t: Track, u: Track) {
    exists run :: TouchedAll(t, run) == u
  }

  lemma {:induction false} TouchesCompose(t: Track, run: seq<Touch>, more: seq<Touch>)
    ensures TouchedAll(t, run + more) == TouchedAll(TouchedAll(t, run), more)
    decreases |run|
  {
    if run == [] {
      assert run + more == more;
    } else {
      assert (run + more)[0] == run[0] && (run + more)[1..] == run[1..] + more;
      TouchesCompose(Touched(t, run[0]), run[1..], more);
    }
  }

  lemma ReachesItself(t: Track)
    ensures Reaches(t, t)
  {
    assert TouchedAll(t, []) == t;
  }

  lemma ReachesByOne(t: Track, e: Touch)
    ensures Reaches(t, Touched(t, e))
  {
    assert [e][1..] == [];
    assert TouchedAll(t, [e]) == Touched(t, e);
  }

  lemma ReachesFurther(t: Track, u: Track, v: Track)
    requires Reaches(t, u) && Reaches(u, v)
    ensures Reaches(t, v)
  {
    var run :| TouchedAll(t, run) == u;
    var more :| TouchedAll(u, more) == v;
    TouchesCompose(t, run, more);
  }

  /** What no touch of the clock, the queue or the jump changes. */
  predicate OnlyNoted(t: Track, u: Track) {
    u == t.(report := u.report, reset := u.reset, correction := u.correction, catchUp := u.catchUp,
            lateness := u.lateness, recoveryAt := u.recoveryAt)
  }

  lemma ReachesNoted(t: Track, u: Track)
    requires OnlyNoted(t, u)
    ensures Reaches(t, u)
  {
    ReachesByOne(t, Note(u.report, u.reset, u.correction, u.catchUp, u.lateness, u.recoveryAt));
  }

  // ----- the parts of correctClocks

  lemma AlignedReaches(t: Track, base: int, established: bool)
    ensures Reaches(t, Aligned(t, base, established))
  {
    var step, u := base - t.anchor.wall, Aligned(t, base, established);
    if Abs(step) <= TOLERANCE && !t.reset.noticed {
      ReachesItself(t);
    } else {
      var discard := t.reset.noticed || (established && Abs(step) > CorrectionMargin(t.target));
      ReachesByOne(t, Move(step, discard));
      ReachesNoted(t.MoveClock(step, discard), u);
      ReachesFurther(t, t.MoveClock(step, discard), u);
    }
  }

  lemma RecoveredReaches(t: Track, recoveryAt: int, now: int, shift: int, senderClocks: bool)
    ensures Reaches(t, Recovered(t, recoveryAt, now, shift, senderClocks))
  {
    var u := Recovered(t, recoveryAt, now, shift, senderClocks);
    ReachesItself(t);
    if u != t {
      ReachesByOne(t, Move(-shift, true));
      ReachesNoted(t.MoveClock(-shift, true), u);
      ReachesFurther(t, t.MoveClock(-shift, true), u);
    }
  }

  lemma MaybeAlignedReaches(a: Clocks, i: nat)
    requires i < |a.tracks|
    ensures |MaybeAligned(a).tracks| == |a.tracks| && Reaches(a.tracks[i], MaybeAligned(a).tracks[i])
  {
    if a.Reported() {
      var u := Timelined(a);
      assert u.tracks == SettledTracks(a.tracks);
      ReachesNoted(a.tracks[i], u.tracks[i]);
      AlignedReaches(u.tracks[i], u.Timeline(u.tracks[i]) + u.tracks[i].jump.shift, RolledBack(a) != 0);
      ReachesFurther(a.tracks[i], u.tracks[i], AlignTo(u, RolledBack(a) != 0).tracks[i]);
    } else {
      ReachesItself(a.tracks[i]);
    }
  }

  lemma RecoverReaches(b: Clocks, now: int, senderClocks: bool, i: nat)
    requires i < |b.tracks|
    ensures |Recover(b, now, senderClocks).tracks| == |b.tracks|
    ensures Reaches(b.tracks[i], Recover(b, now, senderClocks).tracks[i])
  {
    var c := Corrected(b, now, senderClocks);
    assert |c.tracks| == |b.tracks| && OnlyNoted(b.tracks[i], c.tracks[i]);
    ReachesNoted(b.tracks[i], c.tracks[i]);
    RecoveredReaches(c.tracks[i], c.recoveryAt, now, CorrectionShift(b, now, senderClocks), senderClocks);
    ReachesFurther(b.tracks[i], c.tracks[i], Recover(b, now, senderClocks).tracks[i]);
  }

  lemma RealignedReaches(a: Clocks, now: int, i: nat)
    requires i < |a.tracks|
    ensures |Realigned(a, now).tracks| == |a.tracks| && Reaches(a.tracks[i], Realigned(a, now).tracks[i])
  {
    MaybeAlignedReaches(a, i);
    RecoverReaches(MaybeAligned(a), now, a.Reported(), i);
    ReachesFurther(a.tracks[i], MaybeAligned(a).tracks[i], Realigned(a, now).tracks[i]);
  }

  lemma CorrectedReaches(s: Clocks, state: Option<Curve>, now: int, i: nat)
    requires i < |s.tracks|
    ensures |CorrectClocks(s, state, now).tracks| == |s.tracks|
    ensures Reaches(s.tracks[i], CorrectClocks(s, state, now).tracks[i])
  {
    ReachesByOne(s.tracks[i], Look(state));
    RealignedReaches(Observed(s, state), now, i);
    ReachesFurther(s.tracks[i], Observed(s, state).tracks[i], CorrectClocks(s, state, now).tracks[i]);
  }

  // ----- the other parts

  lemma SampledReaches(t: Track, state: Option<Curve>)
    ensures Reaches(t, Sampled(t, state))
  {
    ReachesByOne(t, Look(state));
    ReachesNoted(t.Observe(state), Sampled(t, state));
    ReachesFurther(t, t.Observe(state), Sampled(t, state));
  }

  lemma AdoptedReaches(t: Track, u: Track)
    requires OnlyNoted(t.(jump := u.jump), u)
    ensures Reaches(t, u)
  {
    ReachesByOne(t, Adopt(u.jump));
    ReachesNoted(t.(jump := u.jump), u);
    ReachesFurther(t, t.(jump := u.jump), u);
  }

  lemma ReconfiguredReaches(t: Track, target: int, changed: bool, state: Option<Curve>)
    ensures Reaches(t, Reconfigured(t, target, changed, state))
  {
    ReachesByOne(t, Retarget(target));
    AdoptedReaches(t.Retargeted(target), Reconfigured(t, target, changed, state));
    ReachesFurther(t, t.Retargeted(target), Reconfigured(t, target, changed, state));
  }

  lemma TurnedReaches(t: Track, op: Op, state: Option<Curve>)
    requires OfTurn(op)
    ensures Reaches(t, Turned(t, op, state))
  {
    match op
    case Sample(_, _) => SampledReaches(t, state);
    case RetargetOne(_, target) => ReachesByOne(t, Retarget(target));
    case AttachOne(_, changed) => AdoptedReaches(t, Attached(t, changed, state));
    case CatchUp(_, _) => ReachesByOne(t, Look(state));
  }

  // ----- a camera

  /** A track some touches make out of a new one. */
  ghost predicate HasTrail(t: Track) {
    exists target, rate, keyframes :: Reaches(NewTrack(target, rate, keyframes), t)
  }

  ghost predicate AllHaveTrails(tracks: seq<Track>) {
    forall i :: 0 <= i < |tracks| ==> HasTrail(tracks[i])
  }

  ghost predicate Trailed(c: Camera) {
    AllHaveTrails(c.clocks.tracks) && AllHaveTrails(c.loose)
  }

  lemma TrailGoesOn(t: Track, u: Track)
    requires HasTrail(t) && Reaches(t, u)
    ensures HasTrail(u)
  {
    var target, rate, keyframes :| Reaches(NewTrack(target, rate, keyframes), t);
    ReachesFurther(NewTrack(target, rate, keyframes), t, u);
  }

  lemma NewHasTrail(target: int, rate: Rate, keyframes: bool)
    ensures HasTrail(NewTrack(target, rate, keyframes))
  {
    ReachesItself(NewTrack(target, rate, keyframes));
  }

  lemma AllGoOn(tracks: seq<Track>, after: seq<Track>)
    requires AllHaveTrails(tracks) && |after| == |tracks|
    requires forall i :: 0 <= i < |tracks| ==> Reaches(tracks[i], after[i])
    ensures AllHaveTrails(after)
  {
    forall i | 0 <= i < |after| ensures HasTrail(after[i]) {
      TrailGoesOn(tracks[i], after[i]);
    }
  }

  lemma PutHasTrail(c: Camera, p: Place, t: Track, b: Book)
    requires Trailed(c) && Matched(c) && Has(c, p) && Reaches(TrackAt(c, p), t)
    ensures Trailed(Put(c, p, t, b))
  {
    assert HasTrail(TrackAt(c, p));
    TrailGoesOn(TrackAt(c, p), t);
  }

  lemma ArrivalHasTrail(c: Camera, p: Place, pkt: RtpPacket, now: int)
    requires Trailed(c) && Matched(c) && Has(c, p)
    ensures Trailed(Arrives(c, p, pkt, now))
  {
    var t, b := TrackAt(c, p), BookAt(c, p);
    ReachesByOne(t, Come(0, pkt, now, c.control));
    PutHasTrail(c, p, t.Arrived(pkt, now, c.control), if t.closed then b else b.(accepted := b.accepted + 1));
  }

  lemma TakingHasTrail(c: Camera, p: Place, now: int, held: bool)
    requires Trailed(c) && Matched(c) && Has(c, p)
    ensures Trailed(Takes(c, p, now, held))
  {
    var t, b := TrackAt(c, p), BookAt(c, p);
    ReachesByOne(t, Leave(now, c.control.state, held));
    var book := if t.TakenFrom(now, c.control.state, held).Packet? then b.(taken := b.taken + 1) else b;
    PutHasTrail(c, p, t.Taken(now, c.control.state, held), book);
  }

  lemma TrackKeepsTrails(c: Camera, op: Op)
    requires Trailed(c) && Matched(c) && OfTrack(op)
    ensures Trailed(NextTrack(c, op))
  {
    if Has(c, op.place) {
      var t, b := TrackAt(c, op.place), BookAt(c, op.place);
      match op
      case Arrive(p, pkt, now) => ArrivalHasTrail(c, p, pkt, now);
      case Take(p, now, held) => TakingHasTrail(c, p, now, held);
      case Sender(p, timestamp, ntp) =>
        ReachesNoted(t, t.Reported(timestamp, ntp));
        PutHasTrail(c, p, t.Reported(timestamp, ntp), b);
      case Shut(p, now) =>
        ReachesByOne(t, Touch.Shut(now));
        PutHasTrail(c, p, t.Closed(now), b);
    }
  }

  lemma MemberKeepsTrails(c: Camera, op: Op)
    requires Trailed(c) && Matched(c) && OfMember(op)
    ensures Trailed(NextMember(c, op))
  {
    if op.Create? {
      NewHasTrail(op.target, op.rate, op.keyframes);
    } else if op.Register? && op.index < |c.loose| {
      var t := Joined(c.loose[op.index], c.clocks.recoveryAt, c.control.state);
      AdoptedReaches(c.loose[op.index], t);
      TrailGoesOn(c.loose[op.index], t);
    }
  }

  lemma StreamKeepsTrails(c: Camera, op: Op)
    requires Trailed(c) && Matched(c) && OfStream(op)
    ensures Trailed(NextStream(c, op))
  {
    var tracks, after := c.clocks.tracks, NextStream(c, op).clocks.tracks;
    if op.Correct? {
      CorrectionKeepsCount(c.clocks, c.control.state, op.now);
    }
    forall i | 0 <= i < |tracks| ensures |after| == |tracks| && Reaches(tracks[i], after[i]) {
      match op
      case Adjust(now) =>
        ReachesItself(tracks[i]);
        SampledReaches(tracks[i], c.control.state);
      case Configure(now, target, options) =>
        ReconfiguredReaches(tracks[i], target, c.control.Relays(target, options),
                            c.control.Configured(target, options, now).state);
      case Correct(now) => CorrectedReaches(c.clocks, c.control.state, now, i);
    }
    AllGoOn(tracks, after);
  }

  lemma TurnKeepsTrails(c: Camera, op: Op)
    requires Trailed(c) && Matched(c) && OfTurn(op)
    ensures Trailed(NextTurn(c, op))
  {
    var p := Registered(op.index);
    if Has(c, p) {
      TurnedReaches(TrackAt(c, p), op, c.control.state);
      PutHasTrail(c, p, Turned(TrackAt(c, p), op, c.control.state), BookAt(c, p));
    }
  }

  lemma RealignKeepsTrails(c: Camera, now: int)
    requires AllHaveTrails(c.clocks.tracks)
    ensures AllHaveTrails(Realigned(c.clocks, now).tracks)
  {
    var tracks, after := c.clocks.tracks, Realigned(c.clocks, now).tracks;
    assert |MaybeAligned(c.clocks).tracks| == |tracks|;
    forall i | 0 <= i < |tracks| ensures Reaches(tracks[i], after[i]) {
      RealignedReaches(c.clocks, now, i);
    }
    AllGoOn(tracks, after);
  }

  lemma PartKeepsTrails(c: Camera, op: Op)
    requires Trailed(c) && OfPart(op)
    ensures Trailed(NextPart(c, op))
  {
    if op.Realign? {
      RealignKeepsTrails(c, op.now);
    }
  }

  lemma NextKeepsTrails(c: Camera, op: Op)
    requires Trailed(c) && Matched(c)
    ensures Trailed(Next(c, op))
  {
    if OfMember(op) {
      MemberKeepsTrails(c, op);
    } else if OfTrack(op) {
      TrackKeepsTrails(c, op);
    } else if OfStream(op) {
      StreamKeepsTrails(c, op);
    } else if OfPart(op) {
      PartKeepsTrails(c, op);
    } else {
      TurnKeepsTrails(c, op);
    }
  }

  /** After any run of a camera, every track it has or had is a new track after some touches. */
  lemma {:induction false} EveryTrackHasATrail(run: seq<Op>)
    ensures Trailed(Played(EMPTY, run))
  {
    if run != [] {
      EveryTrackHasATrail(run[..|run| - 1]);
      NextKeepsTrails(Played(EMPTY, run[..|run| - 1]), run[|run| - 1]);
    }
  }

  /** A trail's track is where its touches take it; the ticks are only watched. */
  lemma {:induction false} TraceIsTouches(tr: Trail, run: seq<Touch>)
    ensures Trace(tr, run).track == TouchedAll(tr.track, run)
    decreases |run|
  {
    if run != [] {
      StepTouches(tr, run[0]);
      TraceIsTouches(Step(tr, run[0]), run[1..]);
    }
  }

  lemma StepTouches(tr: Trail, e: Touch)
    ensures Step(tr, e).track == Touched(tr.track, e)
  {
  }
}
