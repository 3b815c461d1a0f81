/**
 * What correctClocks does about excess depth, said in terms of what is queued and of the clock
 * (internal/relay/clock.go): when it acts, on which tracks, and where it leaves them.
 */
module DepthRecovery {
  import opened RtpClock
  import opened PlayoutHeap
  import opened PlayoutTrack
  import opened StreamClocks
  import opened CameraPlayout

  // ----- the newest queued packet

  /** The latest playout time is no earlier than any queued one, and is one of them unless it is the zero time. */
  lemma {:induction false} LatestIsLast(q: Queue, n: nat)
    requires n <= |q|
    ensures Latest(q, n) >= 0 && forall i :: 0 <= i < n ==> q[i].playAt <= Latest(q, n)
    ensures Latest(q, n) == 0 || exists i :: 0 <= i < n && q[i].playAt == Latest(q, n)
  {
    if n > 0 {
      LatestIsLast(q, n - 1);
    }
  }

  /** Some queued packet is due more than `margin` after the target from now. */
  ghost predicate Ahead(t: Track, now: int, margin: int) {
    exists x :: x in t.line.queue && x.playAt - now > t.target + margin
  }

  /** Excess depth is a queued packet too far ahead; an empty queue has none. */
  lemma ExcessIsAhead(t: Track, now: int, margin: int)
    requires now >= 0 && t.target >= 0 && margin >= 0
    ensures StreamClocks.Excess(t, now) > margin <==> Ahead(t, now, margin)
  {
    var q := t.line.queue;
    LatestIsLast(q, |q|);
    if Ahead(t, now, margin) {
      var x :| x in q && x.playAt - now > t.target + margin;
      var i :| 0 <= i < |q| && q[i] == x;
    }
    if StreamClocks.Excess(t, now) > margin {
      var i :| 0 <= i < |q| && q[i].playAt == Latest(q, |q|);
      assert q[i] in q;
    }
  }

  /** The margin follows the target between a quarter of a second and two seconds. */
  lemma MarginFollowsTarget(target: int)
    ensures target <= 250 * MILLISECOND ==> CorrectionMargin(target) == 250 * MILLISECOND
    ensures 250 * MILLISECOND <= target <= 2 * SECOND ==> CorrectionMargin(target) == target
    ensures target >= 2 * SECOND ==> CorrectionMargin(target) == 2 * SECOND
  {
  }

  ghost predicate Deep(t: Track, now: int) {
    Ahead(t, now, CorrectionMargin(t.target))
  }

  /** Targets are clamped by the callers, and no instant is before the zero time. */
  ghost predicate Sensible(tracks: seq<Track>, now: int) {
    now >= RECOVERY_WINDOW && forall i :: 0 <= i < |tracks| ==> tracks[i].target >= 0
  }

  lemma TooDeepIsDeep(tracks: seq<Track>, now: int, i: nat)
    requires Sensible(tracks, now) && i < |tracks|
    ensures TooDeep(tracks[i], now) <==> Deep(tracks[i], now)
  {
    ExcessIsAhead(tracks[i], now, CorrectionMargin(tracks[i].target));
  }

  // ----- when it acts

  /** The worst excess is that of a deep track, and no deep track has more. */
  lemma {:induction false} WorstIsWorst(tracks: seq<Track>, now: int, n: nat)
    requires n <= |tracks|
    ensures forall i :: 0 <= i < n && TooDeep(tracks[i], now) ==>
              0 < StreamClocks.Excess(tracks[i], now) <= WorstExcess(tracks, now, n)
    ensures WorstExcess(tracks, now, n) > 0 ==>
              Source(tracks, now, n) < n && TooDeep(tracks[Source(tracks, now, n)], now)
  {
    if n > 0 {
      WorstIsWorst(tracks, now, n - 1);
    }
  }

  lemma WorstIsPositiveIff(tracks: seq<Track>, now: int)
    requires Sensible(tracks, now)
    ensures WorstExcess(tracks, now, |tracks|) > 0 <==> exists i :: 0 <= i < |tracks| && Deep(tracks[i], now)
  {
    WorstIsWorst(tracks, now, |tracks|);
    forall i | 0 <= i < |tracks| ensures TooDeep(tracks[i], now) <==> Deep(tracks[i], now) {
      TooDeepIsDeep(tracks, now, i);
    }
  }

  /** A stream that has recovered before remembers by how much. */
  predicate Remembers(s: Clocks) {
    s.recoveryAt == 0 || s.recoveryShift > 0
  }

  /** The depth is corrected exactly if some track has a packet queued further ahead than its target and margin. */
  lemma CorrectsIffDeep(s: Clocks, now: int, senderClocks: bool)
    requires Sensible(s.tracks, now) && Remembers(s)
    ensures CorrectionShift(s, now, senderClocks) > 0 <==> exists i :: 0 <= i < |s.tracks| && Deep(s.tracks[i], now)
    ensures CorrectionShift(s, now, senderClocks) >= 0
  {
    WorstIsPositiveIff(s.tracks, now);
  }

  /** A correction starts anew, unless a track that took no part in the last one brings the same excess soon after. */
  lemma FreshIff(s: Clocks, now: int, senderClocks: bool)
    requires Sensible(s.tracks, now)
    ensures StreamClocks.Fresh(s, now, senderClocks) <==>
              || senderClocks
              || now - s.recoveryAt >= RECOVERY_WINDOW
              || exists i :: 0 <= i < |s.tracks| && Deep(s.tracks[i], now) && s.tracks[i].recoveryAt == s.recoveryAt
  {
    AgainIff(s.tracks, now, s.recoveryAt, |s.tracks|);
  }

  lemma {:induction false} AgainIff(tracks: seq<Track>, now: int, recoveryAt: int, n: nat)
    requires Sensible(tracks, now) && n <= |tracks|
    ensures AgainTooDeep(tracks, now, recoveryAt, n) <==>
              exists i :: 0 <= i < n && Deep(tracks[i], now) && tracks[i].recoveryAt == recoveryAt
  {
    if n > 0 {
      AgainIff(tracks, now, recoveryAt, n - 1);
      TooDeepIsDeep(tracks, now, n - 1);
    }
  }

  // ----- how far it goes

  /** Moved back by `shift`, the packet is due when the target demands, or earlier. */
  predicate WithinTarget(t: Track, x: Buffered, now: int, shift: int) {
    x.playAt - shift <= now + t.target
  }

  /**
   * A new correction is exactly as large as needed: it takes the newest packet of one deep track to precisely the
   * target from now, and every packet of every deep track at least that far. One that is not new repeats the last.
   */
  lemma ShiftReachesTarget(s: Clocks, now: int, senderClocks: bool)
    requires Sensible(s.tracks, now) && Remembers(s) && CorrectionShift(s, now, senderClocks) > 0
    ensures var shift, k := CorrectionShift(s, now, senderClocks), Source(s.tracks, now, |s.tracks|);
            if StreamClocks.Fresh(s, now, senderClocks) then
              && k < |s.tracks| && Deep(s.tracks[k], now) && NewestReaches(s.tracks[k], now, shift)
              && forall i, x :: 0 <= i < |s.tracks| && Deep(s.tracks[i], now) && x in s.tracks[i].line.queue ==>
                   WithinTarget(s.tracks[i], x, now, shift)
            else shift == s.recoveryShift
  {
    var shift, k := CorrectionShift(s, now, senderClocks), Source(s.tracks, now, |s.tracks|);
    if StreamClocks.Fresh(s, now, senderClocks) {
      WorstIsWorst(s.tracks, now, |s.tracks|);
      TooDeepIsDeep(s.tracks, now, k);
      LatestIsLast(s.tracks[k].line.queue, |s.tracks[k].line.queue|);
      forall i, x | 0 <= i < |s.tracks| && Deep(s.tracks[i], now) && x in s.tracks[i].line.queue
        ensures WithinTarget(s.tracks[i], x, now, shift)
      {
        TooDeepIsDeep(s.tracks, now, i);
        LatestIsLast(s.tracks[i].line.queue, |s.tracks[i].line.queue|);
      }
    }
  }

  ghost predicate NewestReaches(t: Track, now: int, shift: int) {
    exists i :: 0 <= i < |t.line.queue| && t.line.queue[i].playAt - shift == now + t.target
  }

  // ----- what becomes of the tracks

  /** With one sender timeline every track takes part; without, those that have not yet and run ahead themselves. */
  ghost predicate TakesPart(t: Track, now: int, recoveryAt: int, senderClocks: bool) {
    senderClocks || (t.recoveryAt != recoveryAt && Ahead(t, now, MIN_MARGIN))
  }

  /** The track's clock has gone back by `shift`, its queue is discarded and it waits for a keyframe. */
  predicate SetBack(t: Track, u: Track, shift: int, recoveryAt: int) {
    && u.line == Line([], t.line.arrived, t.line.dropped + |t.line.queue|)
    && u.anchor == t.anchor.(wall := t.anchor.wall - shift)
    && u.catchUp && u.recoveryAt == recoveryAt && u.target == t.target && u.jump == t.jump && u.report == t.report
  }

  predicate LeftAlone(t: Track, u: Track) {
    u == t.(correction := u.correction)
  }

  lemma RecoveredIff(t: Track, recoveryAt: int, now: int, shift: int, senderClocks: bool)
    requires now >= 0 && t.target >= 0
    ensures var u := Recovered(t, recoveryAt, now, shift, senderClocks);
            if shift > 0 && TakesPart(t, now, recoveryAt, senderClocks)
            then SetBack(t, u, shift, recoveryAt) else u == t
  {
    ExcessIsAhead(t, now, MIN_MARGIN);
  }

  /** Exactly the tracks that take part are set back; the others are left alone. */
  lemma RecoverySetsBack(s: Clocks, now: int, senderClocks: bool, i: nat)
    requires Sensible(s.tracks, now) && Remembers(s) && i < |s.tracks|
    ensures var d, shift := Recover(s, now, senderClocks), CorrectionShift(s, now, senderClocks);
            && |d.tracks| == |s.tracks| && Remembers(d)
            && d.recoveryAt == (if shift > 0 && StreamClocks.Fresh(s, now, senderClocks) then now else s.recoveryAt)
            && if shift > 0 && TakesPart(s.tracks[i], now, d.recoveryAt, senderClocks)
               then SetBack(s.tracks[i], d.tracks[i], shift, d.recoveryAt)
               else LeftAlone(s.tracks[i], d.tracks[i])
  {
    var c, shift := Corrected(s, now, senderClocks), CorrectionShift(s, now, senderClocks);
    CorrectsIffDeep(s, now, senderClocks);
    WorstIsPositiveIff(s.tracks, now);
    assert |c.tracks| == |s.tracks| && LeftAlone(s.tracks[i], c.tracks[i]);
    assert c.tracks[i].line == s.tracks[i].line;
    RecoveredIff(c.tracks[i], c.recoveryAt, now, shift, senderClocks);
  }

  /** Without sender reports, a stream in which nothing runs ahead is not touched at all. */
  lemma HealthyStreamIsLeftAlone(s: Clocks, now: int)
    requires Sensible(s.tracks, now) && !s.Reported()
    requires forall i :: 0 <= i < |s.tracks| ==> !Deep(s.tracks[i], now)
    ensures Realigned(s, now) == s && !Corrects(s, now)
  {
    WorstIsPositiveIff(s.tracks, now);
    assert Realigned(s, now).tracks == s.tracks;
  }

  /** The track charged with a correction under sender reports is the one whose newest packet it takes to its target. */
  lemma ChargedTrackReachesTarget(s: Clocks, now: int, i: nat)
    requires Sensible(s.tracks, now) && Remembers(s) && i < |s.tracks| && CorrectionShift(s, now, true) > 0
    ensures var d, shift := Recover(s, now, true), CorrectionShift(s, now, true);
            && |d.tracks| == |s.tracks|
            && if i == Source(s.tracks, now, |s.tracks|)
               then NewestReaches(s.tracks[i], now, shift)
                    && d.tracks[i].correction.shift == s.tracks[i].correction.shift + shift
               else d.tracks[i].correction == s.tracks[i].correction
  {
    ShiftReachesTarget(s, now, true);
  }

  // ----- over every run

  lemma RealignedRemembers(a: Clocks, now: int)
    requires Remembers(a)
    ensures Remembers(Realigned(a, now))
  {
    var b := MaybeAligned(a);
    assert b.recoveryAt == a.recoveryAt && b.recoveryShift == a.recoveryShift;
  }

  lemma NextRemembers(c: Camera, op: Op)
    requires Matched(c) && Remembers(c.clocks)
    ensures Remembers(Next(c, op).clocks)
  {
    if op.Correct? {
      RealignedRemembers(Observed(c.clocks, c.control.state), op.now);
    } else if op.Realign? {
      RealignedRemembers(c.clocks, op.now);
    }
  }

  lemma {:induction false} RunsRemember(run: seq<Op>)
    ensures Remembers(Played(EMPTY, run).clocks)
  {
    if run != [] {
      RunsRemember(run[..|run| - 1]);
      NextRemembers(Played(EMPTY, run[..|run| - 1]), run[|run| - 1]);
    }
  }

  /** In every state a camera can reach: correctClocks reports a correction exactly if some track is deep by then. */
  lemma CameraCorrectsIffDeep(run: seq<Op>, now: int)
    requires var b := MaybeAligned(Observed(Played(EMPTY, run).clocks, Played(EMPTY, run).control.state));
             Sensible(b.tracks, now)
    ensures var a := Observed(Played(EMPTY, run).clocks, Played(EMPTY, run).control.state);
            var b := MaybeAligned(a);
            Corrects(a, now) <==> exists i :: 0 <= i < |b.tracks| && Deep(b.tracks[i], now)
  {
    RunsRemember(run);
    var a := Observed(Played(EMPTY, run).clocks, Played(EMPTY, run).control.state);
    CorrectsIffDeep(MaybeAligned(a), now, a.Reported());
  }

  // ----- closing and sampling

  /** A closed track keeps its queue for the reader, unless it is deep: nobody corrects it any more. */
  lemma ClosingDiscardsIffDeep(t: Track, now: int)
    requires now >= 0 && t.target >= 0
    ensures t.Closed(now) == t.(closed := true, line := if Deep(t, now) then t.line.DropAll() else t.line)
  {
    ExcessIsAhead(t, now, CorrectionMargin(t.target));
  }

  /** The sample is the worst lateness of any track, or zero. */
  lemma {:induction false} SampleIsWorst(tracks: seq<Track>, n: nat)
    requires n <= |tracks|
    ensures PeakLate(tracks, n) >= 0 && forall i :: 0 <= i < n ==> tracks[i].lateness.peak <= PeakLate(tracks, n)
    ensures PeakLate(tracks, n) == 0 || exists i :: 0 <= i < n && tracks[i].lateness.peak == PeakLate(tracks, n)
  {
    if n > 0 {
      SampleIsWorst(tracks, n - 1);
    }
  }

  /** A correction is measured on the packet due last, of those due together the first in the queue. */
  lemma {:induction false} NewestIsDueLast(q: Queue, n: nat)
    requires n <= |q| && exists i :: 0 <= i < n && q[i].playAt > 0
    ensures exists i :: 0 <= i < n && q[i].playAt == Latest(q, n) && q[i].pkt.timestamp == NewestStamp(q, n)
                   && forall k :: 0 <= k < i ==> q[k].playAt < q[i].playAt
  {
    LatestIsLast(q, n - 1);
    if q[n - 1].playAt > Latest(q, n - 1) {
      assert forall k :: 0 <= k < n - 1 ==> q[k].playAt < q[n - 1].playAt;
    } else {
      assert exists i :: 0 <= i < n - 1 && q[i].playAt > 0;
      NewestIsDueLast(q, n - 1);
    }
  }

  lemma {:induction false} WaitingIff(tracks: seq<Track>, n: nat)
    requires n <= |tracks|
    ensures Waiting(tracks, n) <==> exists i :: 0 <= i < n && tracks[i].catchUp
  {
    if n > 0 {
      WaitingIff(tracks, n - 1);
    }
  }

  /** A keyframe is asked for exactly if some track is deep, or waits for one already. */
  lemma AsksForKeyframeIff(a: Clocks, now: int)
    requires Sensible(MaybeAligned(a).tracks, now) && Remembers(a)
    ensures var b := MaybeAligned(a).tracks;
            AsksKeyframe(a, now) <==> exists i :: 0 <= i < |b| && (Deep(b[i], now) || b[i].catchUp)
  {
    var b := MaybeAligned(a);
    CorrectsIffDeep(b, now, a.Reported());
    WaitingIff(b.tracks, |b.tracks|);
  }
}
