/**
 * Which packets a track takes (internal/relay/delay.go, Push and dynamicArrivalLocked, and clock.go), in terms of the
 * media time of a packet: when our clock says it was captured.
 */
module Admission {
  import opened Basics
  import opened Bytes
  import opened RtpClock
  import opened PlayoutHeap
  import opened DelayController
  import opened PlayoutTrack
  import opened PlayoutLine

  function MediaTime(t: Track, pkt: RtpPacket): int {
    t.anchor.MediaTime(pkt.timestamp, t.rate)
  }

  /** From before the clock reset, or not known to be from after it. */
  predicate MaybeBeforeReset(t: Track, sequence: uint16) {
    t.reset.epoch > 0 && (t.reset.pending || (sequence - t.reset.sequence) % 0x1_0000 >= 0x8000)
  }

  /** Captured since the last jump; and if it may be from before a clock reset, not far from where it should be. */
  predicate Timely(t: Track, pkt: RtpPacket, now: int, delay: int) {
    var media, margin := MediaTime(t, pkt), CorrectionMargin(t.target);
    && media >= t.jump.cutoff
    && (MaybeBeforeReset(t, pkt.sequence) ==>
          media - now <= margin && (t.reset.pending || now - (media + delay) <= margin))
  }

  /** The packet completes a jump that is asked for: a keyframe of a track that follows the curve. */
  predicate CompletesJump(t: Track, pkt: RtpPacket, state: Option<Curve>) {
    t.jump.dynamic && t.keyframes && pkt.keyframe && state.Some? && state.value.pending
  }

  lemma StaleIffNotTimely(t: Track, pkt: RtpPacket, now: int, state: Option<Curve>)
    ensures t.Stale(pkt, now, state) <==> !Timely(t, pkt, now, DelayInForce(t, state, now))
  {
    assert t.PlayAt(pkt.timestamp) == MediaTime(t, pkt) + t.target;
    assert Minus16(pkt.sequence, t.reset.sequence) == (pkt.sequence - t.reset.sequence) % 0x1_0000;
  }

  /** What waits after the packet was taken: it, and what waited before unless that was discarded. */
  ghost predicate JoinsQueue(before: Track, after: Track, pkt: RtpPacket, discards: bool) {
    && after.line.arrived == before.line.arrived + 1
    && after.line.dropped == before.line.dropped + (if discards then |before.line.queue| else 0)
    && var item := Buffered(pkt, MediaTime(before, pkt) + before.target, after.line.arrived);
       multiset(after.line.queue) == (if discards then multiset{} else multiset(before.line.queue)) + multiset{item}
  }

  ghost predicate IsDropped(before: Track, after: Track) {
    after.line == before.line.(dropped := before.line.dropped + 1)
  }

  lemma EnqueueTakes(u: Track, pkt: RtpPacket)
    requires u.line.Ok()
    ensures var v := u.Enqueue(pkt, u.PlayAt(pkt.timestamp));
            if u.catchUp && !pkt.keyframe then IsDropped(u, v) && v.catchUp
            else JoinsQueue(u, v, pkt, u.catchUp) && !v.catchUp
  {
    if !(u.catchUp && !pkt.keyframe) {
      var queue := if u.catchUp then [] else u.line.queue;
      var item := Buffered(pkt, u.PlayAt(pkt.timestamp), u.line.arrived + 1);
      PushedIsHeap(queue, item);
      assert multiset(u.Enqueue(pkt, u.PlayAt(pkt.timestamp)).line.queue) == multiset(queue) + multiset{item};
    }
  }

  /**
   * A push at an open track that completes no jump, once the track is anchored and has caught up with the curve (`r`):
   * the packet joins the queue exactly if it is timely and the track does not wait for a keyframe or this is one, which
   * clears what was queued; any other is counted as dropped and leaves the queue alone.
   */
  lemma PushTakesIffTimely(t: Track, pkt: RtpPacket, now: int, c: Control)
    requires t.line.Ok() && !t.closed
    requires !CompletesJump(t.Ready(pkt.timestamp, now, c.state), pkt, c.state)
    ensures var r, u := t.Ready(pkt.timestamp, now, c.state), t.Arrived(pkt, now, c);
            if Timely(r, pkt, now, DelayInForce(r, c.state, now)) && (r.catchUp ==> pkt.keyframe)
            then JoinsQueue(r, u, pkt, r.catchUp) && !u.catchUp
            else IsDropped(r, u) && u.catchUp == r.catchUp
  {
    var r := t.Ready(pkt.timestamp, now, c.state);
    ReadyMoves(t, pkt.timestamp, now, c.state);
    StaleIffNotTimely(r, pkt, now, c.state);
    if !r.Stale(pkt, now, c.state) {
      ScheduleTakes(r, pkt, now, c);
    }
  }

  lemma ScheduleTakes(r: Track, pkt: RtpPacket, now: int, c: Control)
    requires r.line.Ok() && !CompletesJump(r, pkt, c.state)
    ensures var u := r.Schedule(pkt, now, c);
            if r.catchUp && !pkt.keyframe then IsDropped(r, u) && u.catchUp
            else JoinsQueue(r, u, pkt, r.catchUp) && !u.catchUp
  {
    var u := Seated(r, pkt, now, c);
    ScheduleIs(r, pkt, now, c);
    SeatedWithoutJump(r, pkt, now, c);
    EnqueueTakes(u, pkt);
    JoinsAlike(r, u, u.Enqueue(pkt, u.PlayAt(pkt.timestamp)), pkt);
  }

  /** Two tracks with the same line and clock are joined alike. */
  lemma JoinsAlike(r: Track, u: Track, v: Track, pkt: RtpPacket)
    requires u.line == r.line && u.catchUp == r.catchUp && u.PlayAt(pkt.timestamp) == r.PlayAt(pkt.timestamp)
    ensures IsDropped(u, v) <==> IsDropped(r, v)
    ensures JoinsQueue(u, v, pkt, u.catchUp) <==> JoinsQueue(r, v, pkt, r.catchUp)
  {
    assert MediaTime(u, pkt) + u.target == u.PlayAt(pkt.timestamp);
    assert MediaTime(r, pkt) + r.target == r.PlayAt(pkt.timestamp);
  }

  lemma SeatedWithoutJump(r: Track, pkt: RtpPacket, now: int, c: Control)
    requires !CompletesJump(r, pkt, c.state)
    ensures var u := Seated(r, pkt, now, c);
            && u.line == r.line && u.catchUp == r.catchUp && u.PlayAt(pkt.timestamp) == r.PlayAt(pkt.timestamp)
            && u.lateness == CountedLate(r, pkt, now, DelayInForce(r, c.state, now))
  {
  }

  /** A packet is late by what the time for it to leave has passed; the count and the worst so far take it in. */
  function CountedLate(r: Track, pkt: RtpPacket, now: int, delay: int): Lateness {
    var late := now - (MediaTime(r, pkt) + delay);
    if late > 0 then Lateness(r.lateness.count + 1, Max(r.lateness.peak, late)) else r.lateness
  }

  /** A timely packet counts as late exactly if, on arrival, its time to leave has passed, and by that much. */
  lemma LateIffOverdue(t: Track, pkt: RtpPacket, now: int, c: Control)
    requires !t.closed && !CompletesJump(t.Ready(pkt.timestamp, now, c.state), pkt, c.state)
    ensures var r, u := t.Ready(pkt.timestamp, now, c.state), t.Arrived(pkt, now, c);
            var delay := DelayInForce(r, c.state, now);
            u.lateness == if Timely(r, pkt, now, delay) then CountedLate(r, pkt, now, delay) else r.lateness
  {
    var r := t.Ready(pkt.timestamp, now, c.state);
    StaleIffNotTimely(r, pkt, now, c.state);
    if !r.Stale(pkt, now, c.state) {
      ScheduleIs(r, pkt, now, c);
      SeatedWithoutJump(r, pkt, now, c);
    }
  }

  /** A track that has applied the curve's own last jump. */
  predicate CaughtUp(t: Track, state: Option<Curve>) {
    t.jump.dynamic && state.Some? && t.jump.shift == state.value.shift && t.jump.cutoff == state.value.cutoff
  }

  /**
   * The keyframe that completes a jump counts as captured now, whatever its age was: everything queued is discarded,
   * the keyframe alone waits, and it is due exactly the base delay from now, which is where the curve stands.
   */
  lemma JumpPlaysKeyframeNow(t: Track, pkt: RtpPacket, now: int, c: Control)
    requires t.based && !t.closed && t.line.Ok() && CaughtUp(t, c.state) && CompletesJump(t, pkt, c.state)
    requires Timely(t, pkt, now, DelayInForce(t, c.state, now)) && now != t.jump.cutoff
    ensures var u, d := t.Arrived(pkt, now, c), t.ControlAfter(pkt, now, c);
            && |u.line.queue| == 1 && u.line.queue[0].pkt == pkt && u.line.queue[0].playAt - u.target == now
            && CaughtUp(u, d.state) && d.state.value.Delay(now) == c.base && !d.state.value.pending
            && u.line.dropped == t.line.dropped + |t.line.queue|
  {
    assert t.Ready(pkt.timestamp, now, c.state) == t;
    StaleIffNotTimely(t, pkt, now, c.state);
    var u := Seated(t, pkt, now, c);
    SeatedByJump(t, pkt, now, c);
    ScheduleIs(t, pkt, now, c);
    EnqueueTakes(u, pkt);
    var v := t.Arrived(pkt, now, c);
    assert |multiset(v.line.queue)| == 1;
    assert v.line.queue[0] in multiset(v.line.queue);
    DelayAtEnds(t.ControlAfter(pkt, now, c).state.value, now);
  }

  lemma SeatedByJump(t: Track, pkt: RtpPacket, now: int, c: Control)
    requires CaughtUp(t, c.state) && CompletesJump(t, pkt, c.state) && now != t.jump.cutoff
    ensures var u, d := Seated(t, pkt, now, c), t.JumpedBy(pkt, now, c);
            && u.line == t.line.DropAll() && !u.catchUp && u.target == t.target
            && u.PlayAt(pkt.timestamp) == now + t.target
            && d.state == Some(Curve(now, c.base, c.base, u.jump.shift, now, false))
            && u.jump == Jump(true, c.state.value.shift + (now - MediaTime(t, pkt)), now)
  {
  }

  /** The first packet of a track counts as captured on arrival, whatever jumps there were before. */
  lemma FirstPacketCountsAsNow(t: Track, pkt: RtpPacket, now: int, state: Option<Curve>)
    requires !t.based
    ensures var r := t.Ready(pkt.timestamp, now, state);
            r.based && MediaTime(r, pkt) == now && !r.Behind(state) && r.anchor == Anchor(pkt.timestamp, now)
  {
    var r := t.Ready(pkt.timestamp, now, state);
    assert r.anchor == Anchor(pkt.timestamp, now);
    AnchoredAt(pkt.timestamp, now, r.rate);
  }

  lemma AnchoredAt(timestamp: uint32, now: int, rate: Rate)
    ensures Anchor(timestamp, now).MediaTime(timestamp, rate) == now
  {
    assert RtpDelta(timestamp, timestamp) == 0;
  }

  /**
   * After a clock reset the first packet that joins the queue ends the wait for it, and from then on the number of the
   * furthest packet that is taken to be new is remembered.
   */
  lemma ResetFollowsPackets(t: Track, pkt: RtpPacket, now: int, c: Control)
    requires !t.closed && !CompletesJump(t.Ready(pkt.timestamp, now, c.state), pkt, c.state)
    ensures var r, u := t.Ready(pkt.timestamp, now, c.state), t.Arrived(pkt, now, c);
            var joins := Timely(r, pkt, now, DelayInForce(r, c.state, now)) && (r.catchUp ==> pkt.keyframe);
            && u.reset.epoch == r.reset.epoch && u.reset.noticed == r.reset.noticed
            && u.reset.pending == (r.reset.pending && !joins)
            && (joins && r.reset.epoch > 0 && (r.reset.pending || !MaybeBeforeReset(r, pkt.sequence)) ==>
                  u.reset.sequence == pkt.sequence)
            && (joins && !r.reset.pending && MaybeBeforeReset(r, pkt.sequence) ==>
                  u.reset.sequence == r.reset.sequence)
  {
    var r := t.Ready(pkt.timestamp, now, c.state);
    StaleIffNotTimely(r, pkt, now, c.state);
    if !r.Stale(pkt, now, c.state) {
      ScheduleIs(r, pkt, now, c);
      SeatedResets(r, pkt, now, c);
    }
  }

  lemma SeatedResets(r: Track, pkt: RtpPacket, now: int, c: Control)
    requires !CompletesJump(r, pkt, c.state)
    ensures var u := Seated(r, pkt, now, c);
            && u.catchUp == r.catchUp
            && u.reset == if r.reset.epoch == 0 || MaybeBeforeReset(r, pkt.sequence) then r.reset
                          else r.reset.(sequence := pkt.sequence)
  {
    assert Minus16(pkt.sequence, r.reset.sequence) == (pkt.sequence - r.reset.sequence) % 0x1_0000;
  }

  /** Lateness by the old clock does not count against the new one: a jump and a correction start the sample afresh. */
  lemma MovedClockForgetsLateness(t: Track, state: Option<Curve>, step: int, discard: bool)
    ensures t.Behind(state) ==> t.Observe(state).lateness == Lateness(t.lateness.count, 0)
    ensures t.MoveClock(step, discard).lateness == Lateness(t.lateness.count, 0)
  {
  }
}
