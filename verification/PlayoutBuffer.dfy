/**
 * The mutable scheduler: Buffer (internal/relay/delay.go, clock.go, playback.go) and the part
 * of Stream that moves its buffers' clocks (internal/relay/clock.go). Each method is the
 * in-place form of a function of `PlayoutTrack` or `StreamClocks`.
 */
module PlayoutBuffer {
  import opened Basics
  import opened Bytes
  import opened RtpClock
  import opened PlayoutHeap
  import opened DelayController
  import opened PlayoutTrack
  import opened StreamClocks
  import opened CameraPlayout

  class Buffer {
    const rate: Rate
    const keyframes: bool
    var target: int
    var closed: bool
    var based: bool
    var anchor: Anchor
    var report: Report
    var reset: Reset
    var correction: Correction
    var catchUp: bool
    var lateness: Lateness
    var jump: Jump
    var recoveryAt: int
    var line: Line

    function View(): Track
      reads this
    {
      Track(target, rate, keyframes, closed, based, anchor, report, reset, correction, catchUp, lateness, jump,
            recoveryAt, line)
    }

    ghost predicate Valid()
      reads this
    {
      line.Ok()
    }

    constructor (target: int, rate: Rate, keyframes: bool)
      ensures View() == NewTrack(target, rate, keyframes) && Valid()
    {
      this.target, this.rate, this.keyframes := target, rate, keyframes;
      closed, based, catchUp, recoveryAt := false, false, false, 0;
      anchor, report, reset := Anchor(0, 0), Report(0, 0), Reset(false, 0, false, 0);
      correction, lateness, jump := Correction(0, 0, 0.0), Lateness(0, 0), Jump(false, 0, 0);
      line := Line([], 0, 0);
    }

    method DropAll()
      modifies this`line
      ensures line == old(line).DropAll()
    {
      line := Line([], line.arrived, line.dropped + |line.queue|);
    }

    method DropOne()
      modifies this`line
      ensures line == old(line).Lose()
    {
      line := line.(dropped := line.dropped + 1);
    }

    /** dynamicOffsetLocked */
    method DynamicOffset(state: Option<Curve>, now: int) returns (offset: int)
      modifies this
      ensures View() == old(View()).Observe(state) && offset == View().Offset(state, now)
    {
      if !jump.dynamic || state.None? {
        return 0;
      }
      if state.value.cutoff != jump.cutoff {
        anchor := anchor.(wall := anchor.wall + (state.value.shift - jump.shift));
        jump := jump.(shift := state.value.shift, cutoff := state.value.cutoff);
        DropAll();
        catchUp := false;
        lateness := lateness.(peak := 0);
      }
      return state.value.Delay(now) - target;
    }

    method PlayoutOf(timestamp: uint32) returns (at: int)
      ensures at == View().PlayAt(timestamp)
    {
      var elapsed := RtpDelta(timestamp, anchor.rtp);
      at := anchor.wall + TruncDiv(elapsed * SECOND, rate) + target;
    }

    method StaleResetPacket(sequence: uint16, playAt: int, now: int, offset: int) returns (stale: bool)
      modifies this`reset
      ensures stale == old(View()).StaleReset(sequence, playAt, now, offset)
      ensures View() == if stale then old(View()) else old(View()).NoteSequence(sequence)
    {
      if reset.epoch == 0 {
        return false;
      }
      if reset.pending || Minus16(sequence, reset.sequence) >= 0x8000 {
        var margin := CorrectionMargin(target);
        return playAt - now > target + margin || (!reset.pending && now - (playAt + offset) > margin);
      }
      reset := reset.(sequence := sequence);
      return false;
    }

    method Enqueue(pkt: RtpPacket, playAt: int)
      modifies this
      ensures View() == old(View()).Enqueue(pkt, playAt)
    {
      if catchUp && !pkt.keyframe {
        DropOne();
        return;
      }
      if catchUp {
        catchUp := false;
        DropAll();
      }
      PushLine(pkt, playAt);
      FollowPacket(pkt, playAt);
    }

    /** Ends a clock reset, and keeps the anchor within a minute of the newest packet. */
    method FollowPacket(pkt: RtpPacket, playAt: int)
      modifies this`reset, this`anchor
      ensures reset == if old(reset).pending then old(reset).(pending := false, sequence := pkt.sequence)
              else old(reset)
      ensures anchor == if RtpDelta(pkt.timestamp, old(anchor).rtp) > rate * 60
                        then Anchor(pkt.timestamp, playAt - target) else old(anchor)
    {
      if reset.pending {
        reset := reset.(pending := false, sequence := pkt.sequence);
      }
      if RtpDelta(pkt.timestamp, anchor.rtp) > rate * 60 {
        anchor := Anchor(pkt.timestamp, playAt - target);
      }
    }

    method PushLine(pkt: RtpPacket, playAt: int)
      modifies this`line
      ensures line == old(line).Push(pkt, playAt)
    {
      var arrived := line.arrived + 1;
      var queue, root := PlayoutHeap.Push(line.queue, Buffered(pkt, playAt, arrived));
      line := Line(queue, arrived, line.dropped);
    }

    /** Push, past the point where the packet turned out not to be stale. */
    method Schedule(pkt: RtpPacket, now: int, playAt: int, offset: int)
      modifies this
      ensures View() == old(View()).CountLate(playAt, offset, now).Enqueue(pkt, playAt)
    {
      var behind := now - (playAt + offset);
      if behind > 0 {
        lateness := Lateness(lateness.count + 1, Max(lateness.peak, behind));
      }
      Enqueue(pkt, playAt);
    }

    method Push(pkt: RtpPacket, now: int, delay: Controller)
      requires Valid()
      modifies this, delay
      ensures Valid() && View() == old(View()).Arrived(pkt, now, old(delay.View()))
      ensures delay.View() == old(View()).ControlAfter(pkt, now, old(delay.View()))
    {
      if closed {
        return;
      }
      ArrivedMoves(View(), pkt, now, delay.View());
      var offset := GetReady(pkt.timestamp, now, delay.state);
      Accept(pkt, now, offset, delay);
    }

    /** The rest of Push, for a track that is anchored and has caught up. */
    method Accept(pkt: RtpPacket, now: int, offset: int, delay: Controller)
      requires offset == View().Offset(delay.state, now)
      modifies this, delay
      ensures View() == if old(View()).Stale(pkt, now, old(delay.state)) then old(View()).(line := old(line).Lose())
                        else old(View()).Schedule(pkt, now, old(delay.View()))
      ensures delay.View() == if old(View()).Stale(pkt, now, old(delay.state)) then old(delay.View())
                              else old(View()).JumpedBy(pkt, now, old(delay.View()))
    {
      var playAt, stale := Judge(pkt, now, offset, delay.state);
      if stale {
        DropOne();
        return;
      }
      NoteKeepsSchedule(old(View()), pkt, now, delay.View());
      var at, off := CompleteJump(pkt, now, playAt, offset, delay);
      Schedule(pkt, now, at, off);
    }

    lemma NoteKeepsSchedule(t: Track, pkt: RtpPacket, now: int, c: Control)
      ensures var n := t.NoteSequence(pkt.sequence);
              && n.Jumps(pkt, c.state) == t.Jumps(pkt, c.state) && n.JumpedBy(pkt, now, c) == t.JumpedBy(pkt, now, c)
              && n.PlayAt(pkt.timestamp) == t.PlayAt(pkt.timestamp) && n.Offset(c.state, now) == t.Offset(c.state, now)
              && n.line == t.line
    {
    }

    /** The staleness test of dynamicArrivalLocked. */
    method Judge(pkt: RtpPacket, now: int, offset: int, state: Option<Curve>) returns (playAt: int, stale: bool)
      requires offset == View().Offset(state, now)
      modifies this`reset
      ensures playAt == old(View()).PlayAt(pkt.timestamp) && stale == old(View()).Stale(pkt, now, state)
      ensures View() == if stale then old(View()) else old(View()).NoteSequence(pkt.sequence)
    {
      playAt := PlayoutOf(pkt.timestamp);
      if playAt - target < jump.cutoff {
        return playAt, true;
      }
      stale := StaleResetPacket(pkt.sequence, playAt, now, offset);
    }

    /** Anchors a new track, and applies whatever jump the curve has made. */
    method GetReady(timestamp: uint32, now: int, state: Option<Curve>) returns (offset: int)
      modifies this
      ensures View() == old(View()).Ready(timestamp, now, state) && offset == View().Offset(state, now)
    {
      if !based {
        var _ := DynamicOffset(state, now);
        anchor, based := Anchor(timestamp, now), true;
      }
      offset := DynamicOffset(state, now);
    }

    /** A keyframe completes a pending jump, and is rescheduled by it. */
    method CompleteJump(pkt: RtpPacket, now: int, at: int, before: int, delay: Controller)
      returns (playAt: int, offset: int)
      requires at == View().PlayAt(pkt.timestamp) && before == View().Offset(delay.state, now)
      modifies this, delay
      ensures delay.View() == old(View()).JumpedBy(pkt, now, old(delay.View()))
      ensures View() == if old(View()).Jumps(pkt, old(delay.state)) then old(View()).Observe(delay.state)
              else old(View())
      ensures playAt == View().PlayAt(pkt.timestamp) && offset == View().Offset(delay.state, now)
    {
      playAt, offset := at, before;
      if jump.dynamic && keyframes && delay.state.Some? && delay.state.value.pending && pkt.keyframe {
        delay.Jump(now, playAt - target);
        offset := DynamicOffset(delay.state, now);
        playAt := PlayoutOf(pkt.timestamp);
      }
    }

    /** One pass of the Pop loop; `held` is the pacing decision. */
    method Pop(now: int, state: Option<Curve>, held: bool) returns (r: PopResult)
      requires Valid()
      modifies this
      ensures Valid() && View() == old(View()).Taken(now, state, held)
      ensures r == old(View()).TakenFrom(now, state, held)
    {
      TakenMoves(View(), now, state, held);
      if line.queue == [] {
        return if closed then Ended else Wait;
      }
      ObserveMoves(View(), state);
      var offset := DynamicOffset(state, now);
      if line.queue == [] || line.queue[0].playAt + offset - now > 0 || held {
        return Wait;
      }
      var top, queue := PlayoutHeap.Pop(line.queue);
      line := line.(queue := queue);
      return Packet(top.pkt);
    }

    /** The in-place loop over the queue that SetTarget and moveClockLocked share. */
    method ShiftQueue(d: int)
      modifies this`line
      ensures line == old(line).Shift(d)
    {
      var queue := line.queue;
      for i := 0 to |queue|
        invariant |queue| == |line.queue|
        invariant forall k :: 0 <= k < i ==> queue[k] == Shift(line.queue[k], d)
        invariant forall k :: i <= k < |queue| ==> queue[k] == line.queue[k]
      {
        queue := queue[i := queue[i].(playAt := queue[i].playAt + d)];
      }
      line := line.(queue := queue);
    }

    method SetTarget(newTarget: int)
      modifies this
      ensures View() == old(View()).Retargeted(newTarget)
    {
      var d := newTarget - target;
      target := newTarget;
      ShiftQueue(d);
    }

    method MoveClock(step: int, discard: bool)
      modifies this
      ensures View() == old(View()).MoveClock(step, discard)
    {
      anchor := anchor.(wall := anchor.wall + step);
      if discard {
        DropAll();
        catchUp := true;
      } else {
        ShiftQueue(step);
      }
      lateness := lateness.(peak := 0);
    }

    /** newestLocked: the last playout time, and the stamp of the first item that has it. */
    method Newest() returns (at: int, stamp: uint32)
      ensures at == line.NewestAt() && stamp == NewestStamp(line.queue, |line.queue|)
    {
      at, stamp := 0, 0;
      for i := 0 to |line.queue|
        invariant at == Latest(line.queue, i) && stamp == NewestStamp(line.queue, i)
      {
        if line.queue[i].playAt > at {
          at, stamp := line.queue[i].playAt, line.queue[i].pkt.timestamp;
        }
      }
    }

    method Depth(now: int) returns (depth: int)
      ensures depth == View().Depth(now)
    {
      var at, _ := Newest();
      return Max(0, at - now);
    }

    method Close(now: int)
      modifies this
      ensures View() == old(View()).Closed(now)
    {
      var depth := Depth(now);
      closed := true;
      if depth - target > CorrectionMargin(target) {
        DropAll();
      }
    }

    method SenderReport(timestamp: uint32, ntp: uint64)
      modifies this
      ensures View() == old(View()).Reported(timestamp, ntp)
    {
      var delta := (ntp - report.ntp) % (WRAP * WRAP);
      if ntp == 0 || (report.ntp != 0 && (delta == 0 || delta >= HALF * WRAP)) {
        return;
      }
      var ticks := RtpDelta(timestamp, report.rtp);
      var elapsed := delta / WRAP * SECOND + delta % WRAP * SECOND / WRAP;
      var drift := elapsed - TruncDiv(ticks * SECOND, rate);
      if report.ntp != 0 && (ticks < 0 || Abs(drift) > CorrectionMargin(target)) {
        reset := reset.(noticed := true);
      }
      report := Report(timestamp, ntp);
    }

    /** Track, as far as it concerns the buffer. */
    method Join(at: int, state: Option<Curve>)
      modifies this
      ensures View() == Joined(old(View()), at, state)
    {
      recoveryAt := at;
      if state.Some? {
        jump := Jump(true, state.value.shift, state.value.cutoff);
      }
    }

    /** The body of ConfigureDelay's loop. */
    method Reconfigure(newTarget: int, changed: bool, state: Option<Curve>)
      modifies this
      ensures View() == Reconfigured(old(View()), newTarget, changed, state)
    {
      SetTarget(newTarget);
      Attach(changed, state);
    }

    /** The second region of that body. */
    method Attach(changed: bool, state: Option<Curve>)
      modifies this
      ensures View() == Attached(old(View()), changed, state)
    {
      if changed {
        lateness := lateness.(peak := 0);
      }
      if state.Some? && !jump.dynamic {
        jump := Jump(true, state.value.shift, state.value.cutoff);
      }
    }

    /** The body of adjustDelay's loop. */
    method Sample(state: Option<Curve>, now: int) returns (peak: int)
      modifies this
      ensures View() == Sampled(old(View()), state) && peak == old(View()).Observe(state).lateness.peak
    {
      var _ := DynamicOffset(state, now);
      peak := lateness.peak;
      lateness := lateness.(peak := 0);
    }

    /** senderCorrectionLocked */
    method SenderCorrection() returns (rollback: int)
      modifies this
      ensures View() == Settled(old(View())) && rollback == Rollback(old(View()))
    {
      if correction.shift == 0 {
        return 0;
      }
      rollback := Duration(correction.ms - SenderTimeMS(View(), correction.rtp));
      if rollback > CorrectionMargin(target) {
        rollback := Min(rollback, correction.shift);
        correction := correction.(shift := 0);
        return;
      }
      if reset.noticed || RtpDelta(report.rtp, correction.rtp) >= 0 {
        correction := correction.(shift := 0);
      }
      return 0;
    }

    /** alignSenderClockLocked */
    method AlignSenderClock(base: int, established: bool)
      modifies this
      ensures View() == Aligned(old(View()), base, established)
    {
      var step := base - anchor.wall;
      if Abs(step) <= TOLERANCE && !reset.noticed {
        return;
      }
      MoveClock(step, reset.noticed || (established && Abs(step) > CorrectionMargin(target)));
      if reset.noticed {
        reset := reset.(noticed := false, epoch := reset.epoch + 1, pending := true);
      }
    }

    /** The step of alignSenderClocksLocked for one track. */
    method MoveOntoTimeline(ghost u: Clocks, baseMS: real, baseWall: int, established: bool)
      requires u.senderBaseMS == baseMS && u.senderBaseWall == baseWall
      modifies this
      ensures View() == OntoTimeline(u, old(View()), established)
    {
      var delta := Duration(SenderTimeMS(View(), anchor.rtp) - baseMS);
      AlignSenderClock(baseWall + delta + jump.shift, established);
    }

    /** The step of correctClocks' last loop. */
    method Recover(at: int, now: int, shift: int, senderClocks: bool)
      modifies this
      ensures View() == Recovered(old(View()), at, now, shift, senderClocks)
    {
      var depth := Depth(now);
      if shift > 0 && (senderClocks || (recoveryAt != at && depth - target > MIN_MARGIN)) {
        MoveClock(-shift, true);
        recoveryAt := at;
      }
    }

    /** Records the correction on the track that caused it. */
    method TakeBlame(amount: int)
      modifies this`correction
      ensures View() == Blame(old(View()), amount)
    {
      var _, stamp := Newest();
      correction := Correction(correction.shift + amount, stamp, SenderTimeMS(View(), stamp));
    }
  }

  ghost predicate Distinct(buffers: seq<Buffer>) {
    forall i, j :: 0 <= i < j < |buffers| ==> buffers[i] != buffers[j]
  }

  /** The tracks of a stream's buffers, in order. */
  ghost function Views(buffers: seq<Buffer>): (tracks: seq<Track>)
    reads buffers
    ensures |tracks| == |buffers| && forall i :: 0 <= i < |buffers| ==> tracks[i] == buffers[i].View()
  {
    seq(|buffers|, i requires 0 <= i < |buffers| reads buffers => buffers[i].View())
  }

  /** A loop over the tracks has changed the first i of them, and no other. */
  ghost predicate Midway(tracks: seq<Track>, before: seq<Track>, after: seq<Track>, i: nat) {
    && |tracks| == |before| == |after|
    && (forall k :: 0 <= k < i && k < |tracks| ==> tracks[k] == after[k])
    && (forall k :: i <= k < |tracks| ==> tracks[k] == before[k])
  }

  lemma MidwayEnds(tracks: seq<Track>, before: seq<Track>, after: seq<Track>)
    requires |before| == |after|
    ensures Midway(before, before, after, 0)
    ensures Midway(tracks, before, after, |before|) ==> tracks == after
  {
  }

  /** The clocks of one camera; the stream lock and every buffer lock are held throughout. */
  class Stream {
    var buffers: seq<Buffer>
    var recoveryAt: int
    var recoveryShift: int
    var senderBaseMS: real
    var senderBaseWall: int

    /** No buffer is registered twice. */
    ghost predicate Valid()
      reads this`buffers
    {
      Distinct(buffers)
    }

    ghost function View(): Clocks
      reads this, buffers
    {
      Clocks(Views(buffers), recoveryAt, recoveryShift, senderBaseMS, senderBaseWall)
    }

    constructor (buffers: seq<Buffer>)
      requires Distinct(buffers)
      ensures Valid() && this.buffers == buffers && View() == Clocks(Views(buffers), 0, 0, 0.0, 0)
    {
      this.buffers := buffers;
      recoveryAt, recoveryShift, senderBaseMS, senderBaseWall := 0, 0, 0.0, 0;
    }

    /** The first loop of correctClocks. */
    method CatchUp(state: Option<Curve>, now: int)
      requires Valid()
      modifies buffers
      ensures Valid() && View() == Observed(old(View()), state)
    {
      ghost var before := Views(buffers);
      for i := 0 to |buffers|
        invariant forall k :: 0 <= k < i ==> buffers[k].View() == before[k].Observe(state)
        invariant forall k :: i <= k < |buffers| ==> buffers[k].View() == before[k]
      {
        var _ := buffers[i].DynamicOffset(state, now);
      }
      assert Views(buffers) == Observed(old(View()), state).tracks;
    }

    /** The first loop of adjustDelay. */
    method SampleAll(state: Option<Curve>, now: int) returns (late: int)
      requires Valid()
      modifies buffers
      ensures Valid() && View() == old(View()).(tracks := SampledTracks(old(View()).tracks, state))
      ensures late == PeakLate(ObservedTracks(old(View()).tracks, state), |buffers|)
    {
      ghost var before := Views(buffers);
      late := SampleEach(state, now, before, SampledTracks(before, state), ObservedTracks(before, state));
    }

    /** That loop, with the tracks it starts from, ends with, and sees on the way. */
    method SampleEach(state: Option<Curve>, now: int, ghost before: seq<Track>, ghost after: seq<Track>,
                      ghost seen: seq<Track>) returns (late: int)
      requires Valid() && before == Views(buffers)
      requires after == SampledTracks(before, state) && seen == ObservedTracks(before, state)
      modifies buffers
      ensures Views(buffers) == after && late == PeakLate(seen, |seen|)
    {
      late := 0;
      MidwayEnds(before, before, after);
      for i := 0 to |buffers|
        invariant late == PeakLate(seen, i)
        invariant Midway(Views(buffers), before, after, i)
      {
        var peak := SampleAt(i, state, now, before, after, seen);
        late := Max(late, peak);
      }
      MidwayEnds(Views(buffers), before, after);
    }

    /** One turn of that loop. */
    method SampleAt(i: nat, state: Option<Curve>, now: int, ghost before: seq<Track>, ghost after: seq<Track>,
                    ghost seen: seq<Track>) returns (peak: int)
      requires Valid() && i < |buffers| && Midway(Views(buffers), before, after, i)
      requires after == SampledTracks(before, state) && seen == ObservedTracks(before, state)
      modifies buffers[i]
      ensures Midway(Views(buffers), before, after, i + 1) && peak == seen[i].lateness.peak
    {
      peak := buffers[i].Sample(state, now);
    }

    /** The loop of ConfigureDelay. */
    method ReconfigureAll(target: int, changed: bool, state: Option<Curve>)
      requires Valid()
      modifies buffers
      ensures Valid() && View() == old(View()).(tracks := ReconfiguredTracks(old(View()).tracks, target, changed,
              state))
    {
      ghost var before := Views(buffers);
      for i := 0 to |buffers|
        invariant forall k :: 0 <= k < i ==> buffers[k].View() == Reconfigured(before[k], target, changed, state)
        invariant forall k :: i <= k < |buffers| ==> buffers[k].View() == before[k]
      {
        buffers[i].Reconfigure(target, changed, state);
      }
      assert Views(buffers) == ReconfiguredTracks(before, target, changed, state);
    }

    method EveryTrackReported() returns (all: bool)
      ensures all == View().Reported()
    {
      if |buffers| < 2 {
        return false;
      }
      for i := 0 to |buffers|
        invariant forall k :: 0 <= k < i ==> buffers[k].based && buffers[k].report.ntp != 0
      {
        if !buffers[i].based || buffers[i].report.ntp == 0 {
          return false;
        }
      }
      return true;
    }

    /** The loop that collects what reports take back. */
    method CollectRollbacks()
      requires Valid()
      modifies this`senderBaseWall, buffers
      ensures Valid() && senderBaseWall == RolledBack(old(View()))
      ensures Views(buffers) == SettledTracks(old(View()).tracks)
    {
      ghost var before := Views(buffers);
      var taken := SettleEach(before, SettledTracks(before));
      senderBaseWall := senderBaseWall + taken;
    }

    /** That loop, as far as the buffers go, with the tracks it starts from and ends with. */
    method SettleEach(ghost before: seq<Track>, ghost after: seq<Track>) returns (taken: int)
      requires Valid() && before == Views(buffers) && after == SettledTracks(before)
      modifies buffers
      ensures Views(buffers) == after && taken == Rollbacks(before, |before|)
    {
      taken := 0;
      MidwayEnds(before, before, after);
      for i := 0 to |buffers|
        invariant taken == Rollbacks(before, i)
        invariant Midway(Views(buffers), before, after, i)
      {
        var rollback := SettleAt(i, before, after);
        taken := taken + rollback;
        assert taken == Rollbacks(before, i + 1);
      }
      MidwayEnds(Views(buffers), before, after);
    }

    /** One turn of that loop. */
    method SettleAt(i: nat, ghost before: seq<Track>, ghost after: seq<Track>) returns (rollback: int)
      requires Valid() && i < |buffers| && Midway(Views(buffers), before, after, i) && after == SettledTracks(before)
      modifies buffers[i]
      ensures Midway(Views(buffers), before, after, i + 1) && rollback == Rollback(before[i])
    {
      rollback := buffers[i].SenderCorrection();
    }

    /** The loop that moves every track onto the timeline. */
    method AlignAll(established: bool)
      requires Valid()
      modifies buffers
      ensures Valid() && View() == AlignTo(old(View()), established)
    {
      ghost var u := View();
      for i := 0 to |buffers|
        invariant forall k :: 0 <= k < i ==> buffers[k].View() == OntoTimeline(u, u.tracks[k], established)
        invariant forall k :: i <= k < |buffers| ==> buffers[k].View() == u.tracks[k]
      {
        buffers[i].MoveOntoTimeline(u, senderBaseMS, senderBaseWall, established);
      }
      assert Views(buffers) == AlignedTracks(u, established);
    }

    /** alignSenderClocksLocked */
    method AlignSenderClocks() returns (aligned: bool)
      requires Valid()
      modifies this`senderBaseWall, this`senderBaseMS, buffers
      ensures Valid() && aligned == old(View()).Reported() && View() == MaybeAligned(old(View()))
    {
      aligned := EveryTrackReported();
      if !aligned {
        return;
      }
      var established := EstablishTimeline();
      AlignAll(established);
    }

    method EstablishTimeline() returns (established: bool)
      requires Valid() && |buffers| > 0
      modifies this`senderBaseWall, this`senderBaseMS, buffers
      ensures Valid() && View() == Timelined(old(View())) && established == (RolledBack(old(View())) != 0)
    {
      CollectRollbacks();
      established := senderBaseWall != 0;
      if !established {
        StartTimeline();
      }
    }

    /** The timeline starts at the first track's anchor. */
    method StartTimeline()
      requires |buffers| > 0
      modifies this`senderBaseWall, this`senderBaseMS
      ensures var first := Views(buffers)[0];
              senderBaseMS == SenderTimeMS(first, first.anchor.rtp)
              && senderBaseWall == first.anchor.wall - first.jump.shift
    {
      var b := buffers[0];
      senderBaseMS := SenderTimeMS(b.View(), b.anchor.rtp);
      senderBaseWall := b.anchor.wall - b.jump.shift;
    }

    /** The loop of clockCorrectionLocked. */
    method FindWorst(now: int, senderClocks: bool) returns (worst: int, source: nat, renewed: bool, waiting: bool)
      requires Valid()
      ensures worst == WorstExcess(View().tracks, now, |buffers|) && source == Source(View().tracks, now, |buffers|)
      ensures renewed == Fresh(View(), now, senderClocks) && waiting == Waiting(View().tracks, |buffers|)
    {
      worst, source, waiting := 0, 0, false;
      renewed := senderClocks || now - recoveryAt >= RECOVERY_WINDOW;
      ghost var tracks := View().tracks;
      for i := 0 to |buffers|
        invariant worst == WorstExcess(tracks, now, i) && source == Source(tracks, now, i)
        invariant renewed == (senderClocks || now - recoveryAt >= RECOVERY_WINDOW
                              || AgainTooDeep(tracks, now, recoveryAt, i))
        invariant waiting == Waiting(tracks, i)
      {
        var b := buffers[i];
        var depth := b.Depth(now);
        var excess := depth - b.target;
        assert excess == StreamClocks.Excess(tracks[i], now);
        if excess > CorrectionMargin(b.target) {
          if excess > worst {
            worst, source := excess, i;
          }
          renewed := renewed || b.recoveryAt == recoveryAt;
        }
        waiting := waiting || b.catchUp;
      }
    }

    method BlameSource(source: nat, amount: int)
      requires Valid() && source < |buffers|
      modifies buffers
      ensures Valid()
      ensures View() == old(View()).(tracks := old(View()).tracks[source := Blame(old(View()).tracks[source], amount)])
    {
      ghost var before := Views(buffers);
      buffers[source].TakeBlame(amount);
      assert Views(buffers) == before[source := Blame(before[source], amount)];
    }

    /** clockCorrectionLocked; `waiting` says that some track waits for a keyframe. */
    method ClockCorrection(now: int, senderClocks: bool) returns (shift: int, waiting: bool)
      requires Valid()
      modifies this`recoveryAt, this`recoveryShift, buffers
      ensures Valid() && View() == Corrected(old(View()), now, senderClocks)
      ensures shift == CorrectionShift(old(View()), now, senderClocks)
      ensures waiting == Waiting(old(View()).tracks, |buffers|)
    {
      var worst, source, renewed;
      worst, source, renewed, waiting := FindWorst(now, senderClocks);
      if worst == 0 {
        return 0, waiting;
      }
      Charge(now, senderClocks, worst, source, renewed);
      shift := recoveryShift;
    }

    method Charge(now: int, senderClocks: bool, worst: int, source: nat, renewed: bool)
      requires Valid() && source < |buffers| && renewed == Fresh(View(), now, senderClocks)
      modifies this`recoveryAt, this`recoveryShift, buffers
      ensures Valid() && View() == Charged(old(View()), now, senderClocks, worst, source)
    {
      if senderClocks {
        BlameSource(source, worst);
      }
      if renewed {
        recoveryAt, recoveryShift := now, worst;
      }
    }

    /** The last loop of correctClocks. */
    method RecoverAll(now: int, shift: int, senderClocks: bool)
      requires Valid()
      modifies buffers
      ensures Valid()
      ensures View() == old(View()).(tracks := RecoveredTracks(old(View()).tracks, recoveryAt, now, shift,
              senderClocks))
    {
      ghost var c := View();
      for i := 0 to |buffers|
        invariant forall k :: 0 <= k < i ==>
                    buffers[k].View() == Recovered(c.tracks[k], recoveryAt, now, shift, senderClocks)
        invariant forall k :: i <= k < |buffers| ==> buffers[k].View() == c.tracks[k]
      {
        buffers[i].Recover(recoveryAt, now, shift, senderClocks);
      }
      assert Views(buffers) == RecoveredTracks(c.tracks, recoveryAt, now, shift, senderClocks);
    }

    /** The second half of correctClocks. */
    method RecoverDepth(now: int, senderClocks: bool) returns (corrected: bool, asks: bool)
      requires Valid()
      modifies this, buffers
      ensures Valid() && View() == StreamClocks.Recover(old(View()), now, senderClocks) && buffers == old(buffers)
      ensures corrected == (CorrectionShift(old(View()), now, senderClocks) > 0)
      ensures asks == (corrected || Waiting(old(View()).tracks, |buffers|))
    {
      var shift, waiting := ClockCorrection(now, senderClocks);
      ShiftBack(now, shift, senderClocks);
      return shift > 0, shift > 0 || waiting;
    }

    method ShiftBack(now: int, shift: int, senderClocks: bool)
      requires Valid()
      modifies this`senderBaseWall, buffers
      ensures Valid() && View() == ShiftedBack(old(View()), now, shift, senderClocks)
    {
      if senderClocks {
        senderBaseWall := senderBaseWall - shift;
      }
      RecoverAll(now, shift, senderClocks);
    }

    /** correctClocks: whether the clocks were corrected, and whether a keyframe is asked for. */
    method CorrectClocks(state: Option<Curve>, now: int) returns (corrected: bool, asks: bool)
      requires Valid()
      modifies this, buffers
      ensures Valid() && View() == StreamClocks.CorrectClocks(old(View()), state, now) && buffers == old(buffers)
      ensures corrected == Corrects(Observed(old(View()), state), now)
      ensures asks == AsksKeyframe(Observed(old(View()), state), now)
    {
      CatchUp(state, now);
      corrected, asks := Realign(now);
    }

    /** correctClocks from where every buffer is locked. */
    method Realign(now: int) returns (corrected: bool, asks: bool)
      requires Valid()
      modifies this, buffers
      ensures Valid() && View() == Realigned(old(View()), now) && buffers == old(buffers)
      ensures corrected == Corrects(old(View()), now) && asks == AsksKeyframe(old(View()), now)
    {
      var senderClocks := AlignSenderClocks();
      corrected, asks := RecoverDepth(now, senderClocks);
    }
  }

  /** After correctClocks, if every track has a sender report, all are on the sender's timeline. */
  method CorrectOntoTimeline(s: Stream, state: Option<Curve>, now: int) returns (corrected: bool)
    requires s.Valid() && s.View().Reported()
    modifies s, s.buffers
    ensures s.Valid() && OnTimeline(s.View())
  {
    ClocksEndOnTimeline(s.View(), state, now);
    var asks;
    corrected, asks := s.CorrectClocks(state, now);
  }
}
