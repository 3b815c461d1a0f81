/**
 * Where packets stand in time. The first packet of a track puts its tick at its arrival; the exact line
 * through that point, at the track's clock rate, is when media is captured by our clock. Jumps and clock
 * corrections move the line and nothing else does. Here a track is followed along the true ticks of its
 * packets, which the 32-bit timestamps only give modulo 2^32 (internal/relay/delay.go).
 */
module PlayoutLine {
  import opened Basics
  import opened RtpClock
  import opened PlayoutHeap
  import opened DelayController
  import opened PlayoutTrack

  /** A track, its anchor followed along the true ticks, the exact line, and the tick of every packet queued. */
  datatype Trail = Trail(track: Track, seen: Followed, origin: int, wall: int, ticks: map<nat, int>)

  /** Everything that happens to a track; what the controller is meanwhile is arbitrary. */
  datatype Touch =
    | Come(tick: int, pkt: RtpPacket, now: int, control: Control)  // Push
    | Leave(now: int, state: Option<Curve>, held: bool)            // a pass of Pop
    | Look(state: Option<Curve>)                                   // dynamicOffsetLocked
    | Retarget(target: int)                                        // SetTarget
    | Move(step: int, discard: bool)                               // moveClockLocked
    | Adopt(jump: Jump)                                            // joining a curve where it stands
    | Shut(now: int)                                               // Close
    | Note(report: Report, reset: Reset, correction: Correction, catchUp: bool, lateness: Lateness, recoveryAt: int)

  function Touched(t: Track, e: Touch): Track {
    match e
    case Come(_, pkt, now, c) => t.Arrived(pkt, now, c)
    case Leave(now, state, held) => t.Taken(now, state, held)
    case Look(state) => t.Observe(state)
    case Retarget(target) => t.Retargeted(target)
    case Move(step, discard) => t.MoveClock(step, discard)
    case Adopt(jump) => t.(jump := jump)
    case Shut(now) => t.Closed(now)
    case Note(report, reset, correction, catchUp, lateness, recoveryAt) =>
      t.(report := report, reset := reset, correction := correction, catchUp := catchUp, lateness := lateness,
         recoveryAt := recoveryAt)
  }

  /** How far the line moves as `t` becomes `u`: with the shift of a jump that is applied, with a clock correction. */
  function LineStep(t: Track, u: Track, e: Touch): int {
    match e
    case Come(_, _, _, _) => u.jump.shift - t.jump.shift
    case Leave(_, _, _) => u.jump.shift - t.jump.shift
    case Look(_) => u.jump.shift - t.jump.shift
    case Move(step, _) => step
    case _ => 0
  }

  function Moved(f: Followed, step: int): Followed {
    f.(anchor := f.anchor.(wall := f.anchor.wall + step))
  }

  /** The first packet of an open track anchors it, and the line goes through that point. */
  function Start(tr: Trail, e: Touch): Trail {
    if e.Come? && !tr.track.based && !tr.track.closed
    then Trail(tr.track.Anchored(e.pkt.timestamp, e.now, e.control.state), FirstPacket(e.tick, e.now), e.tick, e.now,
               map[])
    else tr
  }

  /** The trail once its track has become `u`, the line has moved, and a packet of that tick was perhaps queued. */
  function Carried(s: Trail, u: Track, step: int, tick: int): Trail {
    var seen, enters := Moved(s.seen, step), u.line.arrived > s.track.line.arrived;
    Trail(u,
          if enters then Follow(seen, tick, u.rate) else seen,
          s.origin,
          s.wall + step,
          if enters then s.ticks[u.line.arrived := tick] else s.ticks)
  }

  function Step(tr: Trail, e: Touch): Trail {
    var s := Start(tr, e);
    var u := Touched(s.track, e);
    Carried(s, u, LineStep(s.track, u, e), if e.Come? then e.tick else 0)
  }

  function Trace(tr: Trail, run: seq<Touch>): Trail
    decreases |run|
  {
    if run == [] then tr else Trace(Step(tr, run[0]), run[1..])
  }

  /** A packet carries its tick modulo 2^32, and the tick is not half a wrap from the newest one queued. */
  predicate Regular(tr: Trail, e: Touch) {
    e.Come? && !tr.track.closed ==>
      e.pkt.timestamp == e.tick % WRAP && Near(Start(tr, e).seen.newest, e.tick, tr.track.rate)
  }

  ghost predicate AllRegular(tr: Trail, run: seq<Touch>)
    decreases |run|
  {
    run != [] ==> Regular(tr, run[0]) && AllRegular(Step(tr, run[0]), run[1..])
  }

  /** The playout time less the target is on the line, to within a nanosecond more than the rolls so far. */
  predicate OnLine(tr: Trail, x: Buffered) {
    && x.order in tr.ticks
    && x.pkt.timestamp == tr.ticks[x.order] % WRAP
    && 0 - tr.track.rate < Shortfall(tr.wall, tr.origin, x.playAt - tr.track.target, tr.ticks[x.order], tr.track.rate)
    && Shortfall(tr.wall, tr.origin, x.playAt - tr.track.target, tr.ticks[x.order], tr.track.rate)
       < tr.seen.rolls * tr.track.rate + tr.track.rate
  }

  ghost predicate AllOnLine(tr: Trail) {
    forall x :: x in tr.track.line.queue ==> OnLine(tr, x)
  }

  ghost predicate Sound(tr: Trail) {
    && tr.track.line.Ok()
    && (if tr.track.based then tr.seen.anchor == tr.track.anchor && Faithful(tr.seen, tr.wall, tr.origin, tr.track.rate)
        else tr.track.line.queue == [])
    && AllOnLine(tr)
  }

  // ----- one step

  lemma MovedFaithful(f: Followed, wall: int, origin: int, step: int, rate: Rate)
    requires Faithful(f, wall, origin, rate)
    ensures Faithful(Moved(f, step), wall + step, origin, rate)
  {
    assert f.anchor.wall + step - (wall + step) == f.anchor.wall - wall;
  }

  /** Applying a jump moves anchor and line alike, and discards the queue. */
  lemma LookSound(tr: Trail, state: Option<Curve>)
    requires Sound(tr)
    ensures Sound(Step(tr, Look(state)))
  {
    ObserveMoves(tr.track, state);
    MovedIf(tr, tr.track.Observe(state).jump.shift - tr.track.jump.shift);
  }

  lemma MovedIf(tr: Trail, step: int)
    requires tr.track.based ==> Faithful(tr.seen, tr.wall, tr.origin, tr.track.rate)
    ensures tr.track.based ==> Faithful(Moved(tr.seen, step), tr.wall + step, tr.origin, tr.track.rate)
  {
    if tr.track.based {
      MovedFaithful(tr.seen, tr.wall, tr.origin, step, tr.track.rate);
    }
  }

  /** A trail once a packet has been put into its queue. */
  function Queued(tr: Trail, tick: int, pkt: RtpPacket): Trail {
    var u := tr.track.Enqueue(pkt, tr.track.PlayAt(pkt.timestamp));
    if tr.track.catchUp && !pkt.keyframe then tr.(track := u)
    else tr.(track := u, seen := Follow(tr.seen, tick, u.rate), ticks := tr.ticks[u.line.arrived := tick])
  }

  lemma RollsKeepOnLine(tr: Trail, next: Trail, x: Buffered)
    requires OnLine(tr, x) && x.order in next.ticks && next.ticks[x.order] == tr.ticks[x.order]
    requires next.wall == tr.wall && next.origin == tr.origin && next.track.rate == tr.track.rate
    requires next.track.target == tr.track.target && tr.seen.rolls <= next.seen.rolls
    ensures OnLine(next, x)
  {
    Products(tr.track.rate, tr.seen.rolls, next.seen.rolls);
  }

  /** A near tick is played on the line by a sound trail. */
  lemma NewItemOnLine(tr: Trail, tick: int, pkt: RtpPacket, order: nat)
    requires tr.seen.anchor == tr.track.anchor && Faithful(tr.seen, tr.wall, tr.origin, tr.track.rate)
    requires pkt.timestamp == tick % WRAP && Near(tr.seen.newest, tick, tr.track.rate)
    ensures OnLine(tr.(ticks := tr.ticks[order := tick]), Buffered(pkt, tr.track.PlayAt(pkt.timestamp), order))
  {
    FaithfulMapping(tr.seen, tick, tr.wall, tr.origin, tr.track.rate);
  }

  /** What is queued after a push: the packet, and what was queued before. */
  lemma QueuedItems(t: Track, pkt: RtpPacket, x: Buffered)
    requires t.line.Ok() && !(t.catchUp && !pkt.keyframe)
    requires x in t.Enqueue(pkt, t.PlayAt(pkt.timestamp)).line.queue
    ensures x == Buffered(pkt, t.PlayAt(pkt.timestamp), t.line.arrived + 1)
         || (x in t.line.queue && x.order <= t.line.arrived)
  {
    PushedMembers(if t.catchUp then [] else t.line.queue, Buffered(pkt, t.PlayAt(pkt.timestamp), t.line.arrived + 1));
  }

  lemma QueuedOnLine(tr: Trail, tick: int, pkt: RtpPacket)
    requires tr.track.line.Ok() && AllOnLine(tr) && !(tr.track.catchUp && !pkt.keyframe)
    requires tr.seen.anchor == tr.track.anchor && Faithful(tr.seen, tr.wall, tr.origin, tr.track.rate)
    requires pkt.timestamp == tick % WRAP && Near(tr.seen.newest, tick, tr.track.rate)
    ensures AllOnLine(Queued(tr, tick, pkt))
  {
    var t, order, next := tr.track, tr.track.line.arrived + 1, Queued(tr, tick, pkt);
    assert next.ticks == tr.ticks[order := tick];
    NewItemOnLine(tr, tick, pkt, order);
    forall x | x in next.track.line.queue ensures OnLine(next, x) {
      QueuedItems(t, pkt, x);
      if x.order == order {
        RollsKeepOnLine(tr.(ticks := next.ticks), next, x);
      } else {
        RollsKeepOnLine(tr, next, x);
      }
    }
  }

  lemma QueuedSound(tr: Trail, tick: int, pkt: RtpPacket)
    requires Sound(tr) && tr.track.based && pkt.timestamp == tick % WRAP && Near(tr.seen.newest, tick, tr.track.rate)
    ensures Sound(Queued(tr, tick, pkt))
  {
    EnqueueMoves(tr.track, pkt, tr.track.PlayAt(pkt.timestamp));
    if !(tr.track.catchUp && !pkt.keyframe) {
      FollowFaithful(tr.seen, tick, tr.wall, tr.origin, tr.track.rate);
      QueuedOnLine(tr, tick, pkt);
    }
  }

  /** The fields that say where packets stand, and nothing else, decide whether a trail is sound. */
  predicate SamePlay(t: Track, u: Track) {
    && t.target == u.target && t.rate == u.rate && t.based == u.based && t.anchor == u.anchor
    && t.line.queue == u.line.queue && t.line.arrived == u.line.arrived
  }

  lemma SamePlaySound(tr: Trail, u: Track)
    requires Sound(tr) && SamePlay(tr.track, u)
    ensures Sound(tr.(track := u))
  {
    forall x | x in u.line.queue ensures OnLine(tr.(track := u), x) {
      assert OnLine(tr, x);
    }
  }

  /** The track as a packet that is not stale is about to be queued: the jump it brings is applied. */
  function Seated(t: Track, pkt: RtpPacket, now: int, c: Control): Track {
    var n, state := t.NoteSequence(pkt.sequence), t.JumpedBy(pkt, now, c).state;
    var u := if t.Jumps(pkt, c.state) then n.Observe(state) else n;
    u.CountLate(u.PlayAt(pkt.timestamp), u.Offset(state, now), now)
  }

  lemma ScheduleIs(t: Track, pkt: RtpPacket, now: int, c: Control)
    ensures var u := Seated(t, pkt, now, c); t.Schedule(pkt, now, c) == u.Enqueue(pkt, u.PlayAt(pkt.timestamp))
  {
  }

  /** Seating leaves the track where it was, or has discarded the queue and moved the clock by a jump. */
  lemma SeatedMoves(t: Track, pkt: RtpPacket, now: int, c: Control)
    ensures var u := Seated(t, pkt, now, c);
            && u.target == t.target && u.rate == t.rate && u.based == t.based && u.line.arrived == t.line.arrived
            && u.anchor == t.anchor.(wall := t.anchor.wall + (u.jump.shift - t.jump.shift))
            && (u.line.queue == [] || (u.line.queue == t.line.queue && u.jump.shift == t.jump.shift))
  {
    var n, state := t.NoteSequence(pkt.sequence), t.JumpedBy(pkt, now, c).state;
    var u := if t.Jumps(pkt, c.state) then n.Observe(state) else n;
    assert SamePlay(t, n) && n.jump == t.jump;
    ObserveShape(n, state);
    var v := u.CountLate(u.PlayAt(pkt.timestamp), u.Offset(state, now), now);
    assert SamePlay(u, v) && v.jump == u.jump;
  }

  lemma ObserveShape(t: Track, state: Option<Curve>)
    ensures var u := t.Observe(state);
            && u.target == t.target && u.rate == t.rate && u.based == t.based && u.line.arrived == t.line.arrived
            && u.anchor == t.anchor.(wall := t.anchor.wall + (u.jump.shift - t.jump.shift))
            && (u.line.queue == [] || (u.line.queue == t.line.queue && u.jump == t.jump))
  {
  }

  /** A trail whose track is seated, and one whose packet is queued then. */
  function Reseated(tr: Trail, pkt: RtpPacket, now: int, c: Control): Trail {
    var u := Seated(tr.track, pkt, now, c);
    Carried(tr, u, u.jump.shift - tr.track.jump.shift, 0)
  }

  function Scheduled(tr: Trail, tick: int, pkt: RtpPacket, now: int, c: Control): Trail {
    Queued(Reseated(tr, pkt, now, c), tick, pkt)
  }

  lemma CarriedSound(tr: Trail, u: Track)
    requires Sound(tr) && tr.track.based
    requires u.target == tr.track.target && u.rate == tr.track.rate && u.based
    requires u.line.arrived == tr.track.line.arrived
    requires u.anchor == tr.track.anchor.(wall := tr.track.anchor.wall + (u.jump.shift - tr.track.jump.shift))
    requires u.line.queue == [] || (u.line.queue == tr.track.line.queue && u.jump.shift == tr.track.jump.shift)
    ensures Sound(Carried(tr, u, u.jump.shift - tr.track.jump.shift, 0))
  {
    MovedIf(tr, u.jump.shift - tr.track.jump.shift);
    if u.line.queue != [] {
      assert Carried(tr, u, u.jump.shift - tr.track.jump.shift, 0) == tr.(track := u);
      SamePlaySound(tr, u);
    }
  }

  lemma ScheduledSound(tr: Trail, tick: int, pkt: RtpPacket, now: int, c: Control)
    requires Sound(tr) && tr.track.based && pkt.timestamp == tick % WRAP && Near(tr.seen.newest, tick, tr.track.rate)
    ensures Sound(Scheduled(tr, tick, pkt, now, c))
  {
    SeatedMoves(tr.track, pkt, now, c);
    CarriedSound(tr, Seated(tr.track, pkt, now, c));
    QueuedSound(Reseated(tr, pkt, now, c), tick, pkt);
  }

  /** `r` is `tr` after its track became `u`, moved along with the jump, and `tick` perhaps queued. */
  predicate Advanced(tr: Trail, r: Trail, tick: int, u: Track) {
    r == Carried(tr, u, u.jump.shift - tr.track.jump.shift, tick)
  }

  lemma QueuedAdvances(tr: Trail, tick: int, pkt: RtpPacket)
    ensures Advanced(tr, Queued(tr, tick, pkt), tick, tr.track.Enqueue(pkt, tr.track.PlayAt(pkt.timestamp)))
  {
    var u := tr.track.Enqueue(pkt, tr.track.PlayAt(pkt.timestamp));
    assert u.jump == tr.track.jump && Moved(tr.seen, 0) == tr.seen;
    assert u.line.arrived == tr.track.line.arrived + (if tr.track.catchUp && !pkt.keyframe then 0 else 1);
  }

  lemma LookAdvances(tr: Trail, state: Option<Curve>, tick: int)
    ensures Advanced(tr, Step(tr, Look(state)), tick, tr.track.Observe(state))
  {
  }

  lemma AdvancesCompose(tr: Trail, middle: Trail, r: Trail, tick: int, t: Track, u: Track)
    requires Advanced(tr, middle, tick, t) && t.line.arrived == tr.track.line.arrived
    requires Advanced(middle, r, tick, u)
    ensures Advanced(tr, r, tick, u)
  {
  }

  lemma ScheduledAdvances(tr: Trail, tick: int, pkt: RtpPacket, now: int, c: Control)
    ensures Advanced(tr, Scheduled(tr, tick, pkt, now, c), tick, tr.track.Schedule(pkt, now, c))
  {
    var u, r := Seated(tr.track, pkt, now, c), Reseated(tr, pkt, now, c);
    SeatedMoves(tr.track, pkt, now, c);
    ScheduleIs(tr.track, pkt, now, c);
    QueuedAdvances(r, tick, pkt);
    AdvancesCompose(tr, r, Queued(r, tick, pkt), tick, u, u.Enqueue(pkt, u.PlayAt(pkt.timestamp)));
  }

  /** A push at a track that is open and anchored. */
  lemma PushSound(tr: Trail, e: Touch)
    requires Sound(tr) && e.Come? && tr.track.based && !tr.track.closed && Regular(tr, e)
    ensures Sound(Step(tr, e))
  {
    var ready := Step(tr, Look(e.control.state));
    LookSound(tr, e.control.state);
    LookAdvances(tr, e.control.state, e.tick);
    assert ready.track == tr.track.Ready(e.pkt.timestamp, e.now, e.control.state);
    var r := if ready.track.Stale(e.pkt, e.now, e.control.state)
             then ready.(track := ready.track.(line := ready.track.line.Lose()))
             else Scheduled(ready, e.tick, e.pkt, e.now, e.control);
    if ready.track.Stale(e.pkt, e.now, e.control.state) {
      SamePlaySound(ready, r.track);
      assert Advanced(ready, r, e.tick, r.track);
    } else {
      ScheduledSound(ready, e.tick, e.pkt, e.now, e.control);
      ScheduledAdvances(ready, e.tick, e.pkt, e.now, e.control);
    }
    AdvancesCompose(tr, ready, r, e.tick, ready.track, r.track);
    assert r.track == Touched(tr.track, e);
    AdvancedIsStep(tr, r, e);
  }

  lemma AdvancedIsStep(tr: Trail, r: Trail, e: Touch)
    requires e.Come? && tr.track.based && Advanced(tr, r, e.tick, Touched(tr.track, e))
    ensures r == Step(tr, e)
  {
  }

  /** The first packet. */
  lemma StartSound(tr: Trail, e: Touch)
    requires Sound(tr) && Regular(tr, e)
    ensures var s := Start(tr, e);
            && Sound(s) && Regular(s, e) && Step(s, e) == Step(tr, e)
            && (e.Come? && !tr.track.closed ==> s.track.based && !s.track.closed)
  {
  }

  lemma ShiftedOnLine(tr: Trail, next: Trail, step: int, move: int)
    requires AllOnLine(tr) && next.track.line.queue == Shifted(tr.track.line.queue, step)
    requires next.track.rate == tr.track.rate && next.track.target == tr.track.target + (step - move)
    requires next.origin == tr.origin && next.wall == tr.wall + move && next.ticks == tr.ticks
    requires next.seen.rolls == tr.seen.rolls
    ensures AllOnLine(next)
  {
    forall x | x in next.track.line.queue ensures OnLine(next, x) {
      var i :| 0 <= i < |next.track.line.queue| && next.track.line.queue[i] == x;
      var y := tr.track.line.queue[i];
      assert OnLine(tr, y) && x == Shift(y, step);
      assert x.playAt - next.track.target - next.wall == y.playAt - tr.track.target - tr.wall;
    }
  }

  lemma ClockSound(tr: Trail, e: Touch)
    requires Sound(tr) && (e.Move? || e.Retarget?)
    ensures Sound(Step(tr, e))
  {
    var next := Step(tr, e);
    MovedIf(tr, if e.Move? then e.step else 0);
    if e.Move? {
      ClockMoves(tr.track, e.step, e.discard, 0, 0);
      if !e.discard {
        ShiftedOnLine(tr, next, e.step, e.step);
      }
    } else {
      ClockMoves(tr.track, 0, false, e.target, 0);
      ShiftedOnLine(tr, next, e.target - tr.track.target, 0);
    }
  }

  lemma PopSound(tr: Trail, e: Touch)
    requires Sound(tr) && e.Leave?
    ensures Sound(Step(tr, e))
  {
    var looked, next := Step(tr, Look(e.state)), Step(tr, e);
    LookSound(tr, e.state);
    TakenMoves(tr.track, e.now, e.state, e.held);
    if tr.track.line.queue != [] {
      assert next == looked.(track := next.track);
      if looked.track.line.queue != [] {
        PoppedMembers(looked.track.line.queue);
      }
      forall x | x in next.track.line.queue ensures OnLine(next, x) {
        assert x in looked.track.line.queue && OnLine(looked, x);
      }
    }
  }

  lemma RestSound(tr: Trail, e: Touch)
    requires Sound(tr) && (e.Adopt? || e.Note? || e.Shut?)
    ensures Sound(Step(tr, e))
  {
    var u := Touched(tr.track, e);
    assert Step(tr, e) == tr.(track := u);
    if SamePlay(tr.track, u) {
      SamePlaySound(tr, u);
    }
  }

  lemma StepSound(tr: Trail, e: Touch)
    requires Sound(tr) && Regular(tr, e)
    ensures Sound(Step(tr, e))
  {
    match e
    case Come(_, _, _, _) =>
      if tr.track.closed {
        assert Step(tr, e) == tr;
      } else {
        StartSound(tr, e);
        PushSound(Start(tr, e), e);
      }
    case Leave(_, _, _) => PopSound(tr, e);
    case Look(state) => LookSound(tr, state);
    case Retarget(_) => ClockSound(tr, e);
    case Move(_, _) => ClockSound(tr, e);
    case Adopt(_) => RestSound(tr, e);
    case Shut(_) => RestSound(tr, e);
    case Note(_, _, _, _, _, _) => RestSound(tr, e);
  }

  lemma {:induction false} TraceSound(tr: Trail, run: seq<Touch>)
    requires Sound(tr) && AllRegular(tr, run)
    ensures Sound(Trace(tr, run))
    decreases |run|
  {
    if run != [] {
      StepSound(tr, run[0]);
      TraceSound(Step(tr, run[0]), run[1..]);
    }
  }

  /** A track before its first packet; there is no line yet. */
  function Fresh(target: int, rate: Rate, keyframes: bool): Trail {
    Trail(NewTrack(target, rate, keyframes), FirstPacket(0, 0), 0, 0, map[])
  }

  /**
   * Whatever is pushed, popped, retargeted, jumped and corrected, every packet that waits in the queue is due, less
   * the target, on the exact line through the first packet, to within k + 1 ns after k anchor rolls.
   */
  lemma EveryItemIsOnTheLine(target: int, rate: Rate, keyframes: bool, run: seq<Touch>)
    requires AllRegular(Fresh(target, rate, keyframes), run)
    ensures AllOnLine(Trace(Fresh(target, rate, keyframes), run))
  {
    TraceSound(Fresh(target, rate, keyframes), run);
  }

  /** The anchor after a push at an anchored track: moved by a jump, if there is one, and then perhaps rolled. */
  lemma AnchorAfterPush(t: Track, pkt: RtpPacket, now: int, c: Control)
    requires t.based && !t.closed
    ensures var u := t.Arrived(pkt, now, c);
            var a := t.anchor.(wall := t.anchor.wall + (u.jump.shift - t.jump.shift));
            u.anchor == a || u.anchor == Anchor(pkt.timestamp, a.MediaTime(pkt.timestamp, t.rate))
  {
    var ready := t.Observe(c.state);
    assert ready == t.Ready(pkt.timestamp, now, c.state) && Home(ready) == Home(t);
    if !ready.Stale(pkt, now, c.state) {
      AnchorAfterSchedule(ready, pkt, now, c);
    }
  }

  lemma AnchorAfterEnqueue(t: Track, pkt: RtpPacket, playAt: int)
    ensures var u := t.Enqueue(pkt, playAt);
            u.jump == t.jump && (u.anchor == t.anchor || u.anchor == Anchor(pkt.timestamp, playAt - t.target))
  {
  }

  lemma AnchorAfterSchedule(t: Track, pkt: RtpPacket, now: int, c: Control)
    ensures var u := t.Schedule(pkt, now, c);
            var a := t.anchor.(wall := t.anchor.wall + (u.jump.shift - t.jump.shift));
            u.anchor == a || u.anchor == Anchor(pkt.timestamp, a.MediaTime(pkt.timestamp, t.rate))
  {
    var u := Seated(t, pkt, now, c);
    SeatedMoves(t, pkt, now, c);
    ScheduleIs(t, pkt, now, c);
    AnchorAfterEnqueue(u, pkt, u.PlayAt(pkt.timestamp));
  }

  /** A push moves the clock by the jump it applies, if any, and not by more than a nanosecond besides. */
  lemma PushKeepsClock(t: Track, base: int, tick: int, pkt: RtpPacket, now: int, c: Control, near: int)
    requires t.based && !t.closed && t.anchor.rtp == base % WRAP && pkt.timestamp == tick % WRAP
    requires -HALF <= tick - base < HALF && -HALF <= near - base < HALF && -HALF <= near - tick < HALF
    ensures var u := t.Arrived(pkt, now, c);
            var moved := u.anchor.MediaTime(near % WRAP, t.rate) - t.anchor.MediaTime(near % WRAP, t.rate);
            -1 <= moved - (u.jump.shift - t.jump.shift) <= 1
  {
    AnchorAfterPush(t, pkt, now, c);
    var step := t.Arrived(pkt, now, c).jump.shift - t.jump.shift;
    var a := t.anchor.(wall := t.anchor.wall + step);
    RolledClock(a, base, tick, near, t.rate);
    assert a.MediaTime(near % WRAP, t.rate) == t.anchor.MediaTime(near % WRAP, t.rate) + step;
  }

  /** Rolling an anchor up to a packet moves its clock by a nanosecond at most. */
  lemma RolledClock(a: Anchor, base: int, tick: int, near: int, rate: Rate)
    requires a.rtp == base % WRAP
    requires -HALF <= tick - base < HALF && -HALF <= near - base < HALF && -HALF <= near - tick < HALF
    ensures var b := Anchor(tick % WRAP, a.MediaTime(tick % WRAP, rate));
            -1 <= b.MediaTime(near % WRAP, rate) - a.MediaTime(near % WRAP, rate) <= 1
  {
    RtpDeltaOfTicks(tick, base);
    RtpDeltaOfTicks(near, base);
    RtpDeltaOfTicks(near, tick);
    NanosecondsAdd(tick - base, near - tick, rate);
  }

  /** Truncation errors of two durations and of their sum, each below one unit and with the sign of its duration. */
  lemma ErrorsAdd(a: int, b: int, p: int, q: int, r: int, unit: int)
    requires unit > 0 && -unit < a - p < unit && -unit < b - q < unit && -unit < a + b - r < unit
    requires (a >= 0 ==> a - p >= 0) && (a <= 0 ==> a - p <= 0)
    requires (b >= 0 ==> b - q >= 0) && (b <= 0 ==> b - q <= 0)
    requires (a + b >= 0 ==> a + b - r >= 0) && (a + b <= 0 ==> a + b - r <= 0)
    ensures -2 * unit < p + q - r < 2 * unit
  {
  }

  lemma NanosecondsAdd(a: int, b: int, rate: Rate)
    ensures -1 <= Nanoseconds(a, rate) + Nanoseconds(b, rate) - Nanoseconds(a + b, rate) <= 1
  {
    var p, q, r := Nanoseconds(a, rate), Nanoseconds(b, rate), Nanoseconds(a + b, rate);
    TruncDivBounds(a * SECOND, rate);
    TruncDivBounds(b * SECOND, rate);
    TruncDivBounds((a + b) * SECOND, rate);
    ErrorsAdd(a * SECOND, b * SECOND, p * rate, q * rate, r * rate, rate);
    SmallMultiple(p, q, r, rate);
  }

  lemma SmallMultiple(p: int, q: int, r: int, rate: Rate)
    requires -2 * rate < p * rate + q * rate - r * rate < 2 * rate
    ensures -1 <= p + q - r <= 1
  {
    var d := p + q - r;
    assert d * rate == p * rate + q * rate - r * rate;
    if d >= 2 {
      Multiples(d, 1, rate);
    } else if d <= -2 {
      Multiples(-1, d, rate);
    }
  }

  // ----- when a packet leaves

  /** The delay between media and playout: the curve's for a track that follows it, else the configured target. */
  function DelayInForce(t: Track, state: Option<Curve>, now: int): int {
    if t.jump.dynamic && state.Some? then state.value.Delay(now) else t.target
  }

  /** The media time of a queued packet plus the delay in force has come. */
  predicate IsDue(t: Track, x: Buffered, state: Option<Curve>, now: int) {
    x.playAt - t.target + DelayInForce(t, state, now) <= now
  }

  lemma RootIsFirst(q: Queue, x: Buffered)
    requires Heap(q) && x in q
    ensures !Before(x, q[0])
  {
    var i :| 0 <= i < |q| && q[i] == x;
    RootIsLeast(q, i);
  }

  /**
   * A packet leaves exactly if the track has no jump to apply first, pacing does not hold it back, and one is due;
   * it is then the one due first, of those due together the first to arrive, and only it leaves.
   */
  lemma LeavesIffDue(t: Track, now: int, state: Option<Curve>, held: bool)
    requires t.line.Ok()
    ensures t.TakenFrom(now, state, held).Packet? <==>
              !held && !t.Behind(state) && exists x :: x in t.line.queue && IsDue(t, x, state, now)
    ensures t.TakenFrom(now, state, held).Ended? <==> t.closed && t.line.queue == []
    ensures t.TakenFrom(now, state, held).Packet? ==>
              exists x :: x in t.line.queue && IsDue(t, x, state, now) && First(t.line.queue, x)
                     && t.TakenFrom(now, state, held).pkt == x.pkt
                     && multiset(t.line.queue) == multiset(t.Taken(now, state, held).line.queue) + multiset{x}
  {
    if t.line.queue != [] {
      var head := t.line.queue[0];
      forall x | x in t.line.queue ensures !Before(x, head) {
        RootIsFirst(t.line.queue, x);
      }
      if t.TakenFrom(now, state, held).Packet? {
        assert t.Observe(state) == t;
        PoppedIsHeap(t.line.queue);
        assert First(t.line.queue, head) && IsDue(t, head, state, now);
      }
    }
  }

  /** Nothing in the queue is due before it. */
  ghost predicate First(q: Queue, x: Buffered) {
    forall y :: y in q ==> !Before(y, x)
  }

  lemma LaterIsNoShorter(wall: int, origin: int, early: int, late: int, tick: int, rate: Rate)
    requires early <= late
    ensures Shortfall(wall, origin, late, tick, rate) <= Shortfall(wall, origin, early, tick, rate)
  {
    Products(rate, early - wall, late - wall);
  }

  /** The tick's place on the line plus the delay has come, but for the nanoseconds that the rolls have cost. */
  predicate Timely(tr: Trail, tick: int, now: int, delay: int) {
    Shortfall(tr.wall, tr.origin, now - delay, tick, tr.track.rate) < tr.seen.rolls * tr.track.rate + tr.track.rate
  }

  lemma DueIsTimely(tr: Trail, x: Buffered, state: Option<Curve>, now: int)
    requires OnLine(tr, x) && IsDue(tr.track, x, state, now)
    ensures Timely(tr, tr.ticks[x.order], now, DelayInForce(tr.track, state, now))
  {
    var t, tick := tr.track, tr.ticks[x.order];
    LaterIsNoShorter(tr.wall, tr.origin, x.playAt - t.target, now - DelayInForce(t, state, now), tick, t.rate);
  }

  /** The first packet in the queue, which is this one, carries a tick whose time has come. */
  ghost predicate LeavesTimely(tr: Trail, pkt: RtpPacket, now: int, delay: int) {
    exists x :: x in tr.track.line.queue && First(tr.track.line.queue, x) && x.pkt == pkt && x.order in tr.ticks
           && pkt.timestamp == tr.ticks[x.order] % WRAP && Timely(tr, tr.ticks[x.order], now, delay)
  }

  /**
   * After any run a packet that leaves has a tick whose place on the exact line, plus the delay in force, has
   * come: no packet leaves early by more than the nanoseconds that the rolls have cost.
   */
  lemma NothingLeavesEarly(target: int, rate: Rate, keyframes: bool, run: seq<Touch>, now: int, state: Option<Curve>,
                           held: bool)
    requires AllRegular(Fresh(target, rate, keyframes), run)
    ensures var tr := Trace(Fresh(target, rate, keyframes), run);
            var out := tr.track.TakenFrom(now, state, held);
            out.Packet? ==> LeavesTimely(tr, out.pkt, now, DelayInForce(tr.track, state, now))
  {
    var tr := Trace(Fresh(target, rate, keyframes), run);
    TraceSound(Fresh(target, rate, keyframes), run);
    LeavesIffDue(tr.track, now, state, held);
    if tr.track.TakenFrom(now, state, held).Packet? {
      var x :| x in tr.track.line.queue && IsDue(tr.track, x, state, now) && First(tr.track.line.queue, x)
               && tr.track.TakenFrom(now, state, held).pkt == x.pkt;
      assert OnLine(tr, x);
      DueIsTimely(tr, x, state, now);
    }
  }
}
