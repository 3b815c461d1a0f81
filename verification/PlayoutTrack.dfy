/**
 * The playout schedule of one track as a value (internal/relay/delay.go, clock.go and
 * playback.go): a function for every operation of Buffer, and what holds of all of them.
 */
module PlayoutTrack {
  import opened Basics
  import opened Bytes
  import opened RtpClock
  import opened PlayoutHeap
  import opened DelayController

  const HYSTERESIS := 2 * SECOND
  const MIN_MARGIN := 250 * MILLISECOND

  function CorrectionMargin(target: int): int {
    Min(HYSTERESIS, Max(target, MIN_MARGIN))
  }

  function Abs(x: int): int { if x < 0 then -x else x }

  /** The queue and its two counters: packets ever queued, packets discarded. */
  datatype Line = Line(queue: Queue, arrived: nat, dropped: nat) {

    function DropAll(): Line {
      Line([], arrived, dropped + |queue|)
    }

    function Lose(): Line {
      this.(dropped := dropped + 1)
    }

    function Push(pkt: RtpPacket, playAt: int): Line {
      Line(Pushed(queue, Buffered(pkt, playAt, arrived + 1)), arrived + 1, dropped)
    }

    function Shift(d: int): Line {
      this.(queue := Shifted(queue, d))
    }

    function Pop(): Line
      requires queue != []
    {
      this.(queue := Popped(queue))
    }

    /** The last playout time in the queue, or the zero time. */
    function NewestAt(): int {
      Latest(queue, |queue|)
    }

    /** A heap whose items all arrived no later than the last arrival. */
    ghost predicate Ok() {
      Heap(queue) && forall x :: x in queue ==> x.order <= arrived
    }
  }

  function Latest(q: Queue, n: nat): int
    requires n <= |q|
  {
    if n == 0 then 0 else Max(Latest(q, n - 1), q[n - 1].playAt)
  }

  /** The publisher's last sender report. */
  datatype Report = Report(rtp: uint32, ntp: nat)

  /** A timestamp reset: noticed, counted, waiting for its first packet, and that packet's number. */
  datatype Reset = Reset(noticed: bool, epoch: nat, pending: bool, sequence: uint16)

  /** A depth correction that a later report may undo. */
  datatype Correction = Correction(shift: int, rtp: uint32, ms: real)

  /** The last jump of the shared curve this track has applied. */
  datatype Jump = Jump(dynamic: bool, shift: int, cutoff: int)

  datatype Lateness = Lateness(count: nat, peak: int)

  datatype PopResult = Packet(pkt: RtpPacket) | Wait | Ended

  type uint64 = x: int | 0 <= x < WRAP * WRAP

  datatype Track = Track(
    target: int,
    rate: Rate,
    keyframes: bool,        // a keyframe callback exists: the video track
    closed: bool,
    based: bool,
    anchor: Anchor,         // baseRTP, baseWall
    report: Report,
    reset: Reset,
    correction: Correction,
    catchUp: bool,
    lateness: Lateness,
    jump: Jump,
    recoveryAt: int,
    line: Line)
  {
    /** dynamicOffsetLocked has a jump of the shared curve to apply. */
    predicate Behind(state: Option<Curve>) {
      jump.dynamic && state.Some? && state.value.cutoff != jump.cutoff
    }

    /** The half of dynamicOffsetLocked that applies it, once. */
    function Observe(state: Option<Curve>): Track {
      if !Behind(state) then this
      else this.(anchor := anchor.(wall := anchor.wall + (state.value.shift - jump.shift)),
                 jump := Jump(true, state.value.shift, state.value.cutoff),
                 line := line.DropAll(), catchUp := false, lateness := lateness.(peak := 0))
    }

    /** The other half: how far the curve lies from the configured target. */
    function Offset(state: Option<Curve>, now: int): int {
      if !jump.dynamic || state.None? then 0 else state.value.Delay(now) - target
    }

    function PlayAt(timestamp: uint32): int {
      anchor.MediaTime(timestamp, rate) + target
    }

    // ----- Push

    function Anchored(timestamp: uint32, now: int, state: Option<Curve>): Track {
      if based then this else Observe(state).(anchor := Anchor(timestamp, now), based := true)
    }

    /** The packet number is not ahead of the first one after the reset. */
    predicate MaybeOld(sequence: uint16) {
      reset.epoch > 0 && (reset.pending || Minus16(sequence, reset.sequence) >= 0x8000)
    }

    /** staleResetPacketLocked */
    predicate StaleReset(sequence: uint16, playAt: int, now: int, offset: int) {
      && MaybeOld(sequence)
      && (|| playAt - now > target + CorrectionMargin(target)
          || (!reset.pending && now - (playAt + offset) > CorrectionMargin(target)))
    }

    function NoteSequence(sequence: uint16): Track {
      if reset.epoch == 0 || MaybeOld(sequence) then this else this.(reset := reset.(sequence := sequence))
    }

    /** Media from before the jump, or from before a clock reset. */
    predicate Stale(pkt: RtpPacket, now: int, state: Option<Curve>) {
      || PlayAt(pkt.timestamp) - target < jump.cutoff
      || StaleReset(pkt.sequence, PlayAt(pkt.timestamp), now, Offset(state, now))
    }

    predicate Jumps(pkt: RtpPacket, state: Option<Curve>) {
      jump.dynamic && keyframes && state.Some? && state.value.pending && pkt.keyframe
    }

    /** The controller after the packet: a keyframe completes a pending jump. */
    function JumpedBy(pkt: RtpPacket, now: int, c: Control): Control {
      if Jumps(pkt, c.state) then c.Jumped(now, PlayAt(pkt.timestamp) - target) else c
    }

    function CountLate(playAt: int, offset: int, now: int): Track {
      var behind := now - (playAt + offset);
      if behind > 0 then this.(lateness := Lateness(lateness.count + 1, Max(lateness.peak, behind))) else this
    }

    /** After a correction only a keyframe is let through, and it clears what was queued. */
    function Enqueue(pkt: RtpPacket, playAt: int): Track {
      if catchUp && !pkt.keyframe then this.(line := line.Lose())
      else this.(catchUp := false,
                 line := (if catchUp then line.DropAll() else line).Push(pkt, playAt),
                 reset := if reset.pending then reset.(pending := false, sequence := pkt.sequence) else reset,
                 anchor := if RtpDelta(pkt.timestamp, anchor.rtp) > rate * 60
                           then Anchor(pkt.timestamp, playAt - target) else anchor)
    }

    /** A packet that is not stale, under the curve the controller has after it. */
    function Schedule(pkt: RtpPacket, now: int, c: Control): Track {
      var state := JumpedBy(pkt, now, c).state;
      var t := if Jumps(pkt, c.state) then NoteSequence(pkt.sequence).Observe(state) else NoteSequence(pkt.sequence);
      t.CountLate(t.PlayAt(pkt.timestamp), t.Offset(state, now), now).Enqueue(pkt, t.PlayAt(pkt.timestamp))
    }

    /** The track once it is anchored and has caught up with the curve. */
    function Ready(timestamp: uint32, now: int, state: Option<Curve>): Track {
      Anchored(timestamp, now, state).Observe(state)
    }

    function Arrived(pkt: RtpPacket, now: int, c: Control): Track {
      if closed then this else
        var t := Ready(pkt.timestamp, now, c.state);
        if t.Stale(pkt, now, c.state) then t.(line := t.line.Lose()) else t.Schedule(pkt, now, c)
    }

    function ControlAfter(pkt: RtpPacket, now: int, c: Control): Control {
      if closed then c else
        var t := Ready(pkt.timestamp, now, c.state);
        if t.Stale(pkt, now, c.state) then c else t.JumpedBy(pkt, now, c)
    }

    // ----- the other operations

    /** One pass of the Pop loop; `held` says that pacing holds the head back. */
    function TakenFrom(now: int, state: Option<Curve>, held: bool): PopResult {
      if line.queue == [] then (if closed then Ended else Wait) else
        var t := Observe(state);
        if t.line.queue == [] || t.line.queue[0].playAt + t.Offset(state, now) > now || held then Wait
        else Packet(t.line.queue[0].pkt)
    }

    function Taken(now: int, state: Option<Curve>, held: bool): Track {
      if line.queue == [] then this else
        var t := Observe(state);
        if TakenFrom(now, state, held).Packet? then t.(line := t.line.Pop()) else t
    }

    function Retargeted(newTarget: int): Track {
      this.(target := newTarget, line := line.Shift(newTarget - target))
    }

    /** Moves the clock; a reset also discards the queue and waits for a keyframe. */
    function MoveClock(step: int, discard: bool): Track {
      this.(anchor := anchor.(wall := anchor.wall + step),
            line := if discard then line.DropAll() else line.Shift(step),
            catchUp := catchUp || discard,
            lateness := lateness.(peak := 0))
    }

    function Depth(now: int): int {
      Max(0, line.NewestAt() - now)
    }

    function Closed(now: int): Track {
      this.(closed := true,
            line := if Depth(now) - target > CorrectionMargin(target) then line.DropAll() else line)
    }

    /** SenderReport; `ntp` and the difference are 64-bit. */
    function Reported(timestamp: uint32, ntp: nat): Track
      requires ntp < WRAP * WRAP
    {
      var delta := (ntp - report.ntp) % (WRAP * WRAP);
      if ntp == 0 || (report.ntp != 0 && (delta == 0 || delta >= HALF * WRAP)) then this else
        var ticks := RtpDelta(timestamp, report.rtp);
        var drift := NtpNanoseconds(delta) - Nanoseconds(ticks, rate);
        var broken := report.ntp != 0 && (ticks < 0 || Abs(drift) > CorrectionMargin(target));
        this.(report := Report(timestamp, ntp), reset := reset.(noticed := reset.noticed || broken))
    }

    /** The arrival-based playback reference of playbackClockLocked, for a given stamp. */
    function Reference(stamp: uint32): int {
      PlayAt(stamp) - target - jump.shift
    }
  }

  function NewTrack(target: int, rate: Rate, keyframes: bool): Track {
    Track(target, rate, keyframes, false, false, Anchor(0, 0), Report(0, 0), Reset(false, 0, false, 0),
          Correction(0, 0, 0.0), false, Lateness(0, 0), Jump(false, 0, 0), 0, Line([], 0, 0))
  }

  // ----- the operations on the line

  lemma PushedMembers(q: Queue, item: Buffered)
    requires Heap(q)
    ensures forall x :: x in Pushed(q, item) ==> x in q || x == item
  {
    PushedIsHeap(q, item);
    forall x | x in Pushed(q, item)
      ensures x in q || x == item
    {
      assert x in multiset(Pushed(q, item));
    }
  }

  lemma PoppedMembers(q: Queue)
    requires Heap(q) && q != []
    ensures forall x :: x in Popped(q) ==> x in q
  {
    PoppedIsHeap(q);
    forall x | x in Popped(q)
      ensures x in q
    {
      assert x in multiset(Popped(q));
    }
  }

  /** Packets in the queue plus packets discarded. */
  function Tally(l: Line): nat {
    |l.queue| + l.dropped
  }

  /** The queue stays ordered and the tally changes by `count`. */
  ghost predicate Moves(l: Line, m: Line, count: int) {
    (l.Ok() ==> m.Ok()) && Tally(m) == Tally(l) + count
  }

  lemma DropAndLose(l: Line)
    ensures Moves(l, l.DropAll(), 0) && Moves(l, l.Lose(), 1)
  {
  }

  lemma PushMoves(l: Line, pkt: RtpPacket, playAt: int)
    ensures Moves(l, l.Push(pkt, playAt), 1)
  {
    if l.Ok() {
      PushedIsHeap(l.queue, Buffered(pkt, playAt, l.arrived + 1));
      PushedMembers(l.queue, Buffered(pkt, playAt, l.arrived + 1));
    }
  }

  lemma ShiftMoves(l: Line, d: int)
    ensures Moves(l, l.Shift(d), 0)
  {
    if l.Ok() {
      ShiftedIsHeap(l.queue, d);
    }
  }

  lemma PopMoves(l: Line)
    requires l.queue != []
    ensures Moves(l, l.Pop(), -1)
  {
    if l.Ok() {
      PoppedIsHeap(l.queue);
      PoppedMembers(l.queue);
    }
  }

  lemma ObserveMoves(t: Track, state: Option<Curve>)
    ensures Moves(t.line, t.Observe(state).line, 0)
  {
    DropAndLose(t.line);
  }

  lemma EnqueueMoves(t: Track, pkt: RtpPacket, playAt: int)
    ensures Moves(t.line, t.Enqueue(pkt, playAt).line, 1)
  {
    DropAndLose(t.line);
    PushMoves(if t.catchUp then t.line.DropAll() else t.line, pkt, playAt);
  }

  lemma ScheduleMoves(t: Track, pkt: RtpPacket, now: int, c: Control)
    ensures Moves(t.line, t.Schedule(pkt, now, c).line, 1)
  {
    var state := t.JumpedBy(pkt, now, c).state;
    var n := t.NoteSequence(pkt.sequence);
    ObserveMoves(n, state);
    var u := if t.Jumps(pkt, c.state) then n.Observe(state) else n;
    EnqueueMoves(u.CountLate(u.PlayAt(pkt.timestamp), u.Offset(state, now), now), pkt, u.PlayAt(pkt.timestamp));
  }

  lemma ReadyMoves(t: Track, timestamp: uint32, now: int, state: Option<Curve>)
    ensures Moves(t.line, t.Ready(timestamp, now, state).line, 0)
  {
    ObserveMoves(t, state);
    ObserveMoves(t.Anchored(timestamp, now, state), state);
  }

  /** An open track accounts for every packet pushed at it, whichever way the push goes. */
  lemma ArrivedMoves(t: Track, pkt: RtpPacket, now: int, c: Control)
    ensures Moves(t.line, t.Arrived(pkt, now, c).line, if t.closed then 0 else 1)
  {
    if !t.closed {
      var u := t.Ready(pkt.timestamp, now, c.state);
      ReadyMoves(t, pkt.timestamp, now, c.state);
      DropAndLose(u.line);
      ScheduleMoves(u, pkt, now, c);
    }
  }

  lemma TakenMoves(t: Track, now: int, state: Option<Curve>, held: bool)
    ensures Moves(t.line, t.Taken(now, state, held).line, if t.TakenFrom(now, state, held).Packet? then -1 else 0)
  {
    ObserveMoves(t, state);
    var u := t.Observe(state);
    if u.line.queue != [] {
      PopMoves(u.line);
    }
  }

  lemma ClockMoves(t: Track, step: int, discard: bool, newTarget: int, now: int)
    ensures Moves(t.line, t.MoveClock(step, discard).line, 0)
    ensures Moves(t.line, t.Retargeted(newTarget).line, 0)
    ensures Moves(t.line, t.Closed(now).line, 0)
  {
    DropAndLose(t.line);
    ShiftMoves(t.line, step);
    ShiftMoves(t.line, newTarget - t.target);
  }

  // ----- jumps

  /** The part of a track's clock that a jump leaves alone. */
  function Home(t: Track): int {
    t.anchor.wall - t.jump.shift
  }

  /** Applying a jump, whichever ones were skipped, moves the clock by the change of shift alone. */
  lemma JumpKeepsHome(t: Track, state: Option<Curve>, stamp: uint32)
    ensures Home(t.Observe(state)) == Home(t)
    ensures t.Observe(state).Reference(stamp) == t.Reference(stamp)
  {
  }

  /** What a jump at each instant shifted the clocks to; the zero instant is before any jump. */
  type History = map<int, int>

  ghost predicate Recorded(h: History, c: Control, tracks: seq<Track>) {
    && SameJump(c)
    && c.cutoff in h && h[c.cutoff] == c.shift
    && forall i :: 0 <= i < |tracks| ==>
         tracks[i].jump.dynamic && tracks[i].jump.cutoff in h && h[tracks[i].jump.cutoff] == tracks[i].jump.shift
  }

  datatype JumpEvent = Controlled(event: Event) | Seen(track: nat)

  function JumpStep(c: Control, e: JumpEvent): Control {
    if e.Controlled? then Apply(c, e.event) else c
  }

  function SeenStep(c: Control, tracks: seq<Track>, e: JumpEvent): seq<Track> {
    if e.Seen? && e.track < |tracks| then tracks[e.track := tracks[e.track].Observe(c.state)] else tracks
  }

  function Jumped(c: Control, run: seq<JumpEvent>): Control
    decreases |run|
  {
    if run == [] then c else Jumped(JumpStep(c, run[0]), run[1..])
  }

  function Watched(c: Control, tracks: seq<Track>, run: seq<JumpEvent>): seq<Track>
    decreases |run|
  {
    if run == [] then tracks else Watched(JumpStep(c, run[0]), SeenStep(c, tracks, run[0]), run[1..])
  }

  /** No jump takes effect at an instant an earlier jump already used. */
  ghost predicate DistinctInstants(h: History, c: Control, run: seq<JumpEvent>)
    decreases |run|
  {
    run != [] ==>
      var d := JumpStep(c, run[0]);
      if d.cutoff == c.cutoff && d.shift == c.shift then DistinctInstants(h, d, run[1..])
      else d.cutoff !in h && DistinctInstants(h[d.cutoff := d.shift], d, run[1..])
  }

  lemma {:induction false} JumpsKeepHomes(h: History, c: Control, tracks: seq<Track>, run: seq<JumpEvent>)
    requires Recorded(h, c, tracks) && DistinctInstants(h, c, run)
    ensures var d, after := Jumped(c, run), Watched(c, tracks, run);
            && |after| == |tracks|
            && (forall i :: 0 <= i < |tracks| ==> Home(after[i]) == Home(tracks[i]))
            && (forall i :: 0 <= i < |tracks| && after[i].jump.cutoff == d.cutoff ==> after[i].jump.shift == d.shift)
    decreases |run|
  {
    if run != [] {
      var d, seen := JumpStep(c, run[0]), SeenStep(c, tracks, run[0]);
      var h' := if d.cutoff == c.cutoff && d.shift == c.shift then h else h[d.cutoff := d.shift];
      assert SameJump(d);
      assert Recorded(h', d, seen);
      JumpsKeepHomes(h', d, seen, run[1..]);
    }
  }

  /**
   * Whatever jumps happened, at distinct instants, and whenever each track looked: two tracks
   * that have caught up with the curve stand exactly as far apart as they did at the start.
   */
  lemma CaughtUpTracksKeepTheirOffset(h: History, c: Control, tracks: seq<Track>, run: seq<JumpEvent>, i: nat, j: nat)
    requires Recorded(h, c, tracks) && DistinctInstants(h, c, run) && i < |tracks| && j < |tracks|
    requires tracks[i].jump.shift == tracks[j].jump.shift
    requires var after, d := Watched(c, tracks, run), Jumped(c, run);
             && |after| == |tracks|
             && after[i].jump.cutoff == d.cutoff && after[j].jump.cutoff == d.cutoff
    ensures var after := Watched(c, tracks, run);
            after[i].anchor.wall - after[j].anchor.wall == tracks[i].anchor.wall - tracks[j].anchor.wall
  {
    JumpsKeepHomes(h, c, tracks, run);
  }

  /**
   * Two tracks that have applied the same jump; then one sees both of two more, the other only the
   * second. They stand as far apart as before exactly if no instant the controller jumped at is used
   * again for another shift.
   */
  lemma SkippedJumpKeepsOffsetIff(t: Track, u: Track, first: Curve, second: Curve)
    requires t.jump == u.jump && t.jump.dynamic
    ensures var both, one := t.Observe(Some(first)).Observe(Some(second)), u.Observe(Some(second));
            && (both.anchor.wall - one.anchor.wall == t.anchor.wall - u.anchor.wall <==>
                  || first.cutoff == t.jump.cutoff
                  || (&& (second.cutoff == first.cutoff ==> second.shift == first.shift)
                      && (second.cutoff == t.jump.cutoff ==> second.shift == t.jump.shift)))
            && (first.cutoff != t.jump.cutoff && second.cutoff != t.jump.cutoff ==>
                  (both.anchor.wall - one.anchor.wall == t.anchor.wall - u.anchor.wall <==>
                     second.cutoff != first.cutoff || second.shift == first.shift))
  {
  }

  /** A run of the controller from the start that jumps twice at one instant. */
  const TWO_JUMPS := [
    ConfigureAt(SECOND, 0, Options(true, 1, true, 10, On)),
    StepAt(2 * SECOND, MILLISECOND),
    JumpAt(3 * SECOND, 3 * SECOND - 5),
    StepAt(3 * SECOND, MILLISECOND),
    JumpAt(3 * SECOND, 3 * SECOND - 7)]

  lemma TwoJumpsRun()
    ensures var first, second := Run(FRESH, TWO_JUMPS[..3]), Run(FRESH, TWO_JUMPS);
            && first.state == Some(Curve(3 * SECOND, 0, 0, 5, 3 * SECOND, false))
            && second.state == Some(Curve(3 * SECOND, 0, 0, 12, 3 * SECOND, false))
  {
    var a := Apply(FRESH, TWO_JUMPS[0]);
    var b := Apply(a, TWO_JUMPS[1]);
    var c := Apply(b, TWO_JUMPS[2]);
    var d := Apply(c, TWO_JUMPS[3]);
    var e := Apply(d, TWO_JUMPS[4]);
    assert a.state == Some(Curve(SECOND, 0, 0, 0, 0, false));
    assert b.state.Some? && b.state.value.pending && b.lastStep == 2 * SECOND;
    assert c.state == Some(Curve(3 * SECOND, 0, 0, 5, 3 * SECOND, false));
    assert d.state.Some? && d.state.value.pending && d.state.value.shift == 5;
    RunSteps(FRESH, TWO_JUMPS, 0);
    RunSteps(FRESH, TWO_JUMPS, 1);
    RunSteps(FRESH, TWO_JUMPS, 2);
    RunSteps(FRESH, TWO_JUMPS, 3);
    RunSteps(FRESH, TWO_JUMPS, 4);
    assert TWO_JUMPS[..5] == TWO_JUMPS;
  }

  /**
   * After that run, of two tracks that started level the one that saw the first jump and the one that
   * had not looked are 7 ns apart, and both count as caught up.
   */
  lemma JumpsAtOneInstantPartTracks(t: Track, u: Track)
    requires t.jump == u.jump == Jump(true, 0, 0)
    ensures var first, second := Run(FRESH, TWO_JUMPS[..3]).state, Run(FRESH, TWO_JUMPS).state;
            var both, one := t.Observe(first).Observe(second), u.Observe(second);
            && second.Some? && both.jump.cutoff == one.jump.cutoff == second.value.cutoff
            && both.anchor.wall - one.anchor.wall == t.anchor.wall - u.anchor.wall - 7
  {
    TwoJumpsRun();
  }
}
