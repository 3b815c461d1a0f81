/**
 * The clocks of one camera's tracks (internal/relay/clock.go, internal/relay/playback.go):
 * alignment to the publisher's sender reports and recovery from excess depth. Sender times
 * are exact reals; Go keeps them in float64.
 */
module StreamClocks {
  import opened Basics
  import opened Bytes
  import opened RtpClock
  import opened PlayoutHeap
  import opened DelayController
  import opened PlayoutTrack

  const RECOVERY_WINDOW := 30 * SECOND
  const TOLERANCE := 50 * MILLISECOND

  /** Go's conversion of a float to an integer, which truncates toward zero. */
  function Trunc(x: real): int {
    if x >= 0.0 then x.Floor else -((-x).Floor)
  }

  lemma TruncIsClose(x: real)
    ensures -1.0 < x - Trunc(x) as real < 1.0
  {
  }

  /** senderTimeMS: the NTP instant of a timestamp by the last report (section 6.4.1 of RFC 3550). */
  function SenderTimeMS(t: Track, timestamp: uint32): real {
    (t.report.ntp / WRAP) as real * 1000.0
    + (t.report.ntp % WRAP) as real * 1000.0 / WRAP as real
    + RtpDelta(timestamp, t.report.rtp) as real * 1000.0 / t.rate as real
  }

  /** A duration of so many milliseconds. */
  function Duration(ms: real): int {
    Trunc(ms * 1_000_000.0)
  }

  // ----- one track

  /** senderCorrectionLocked: what a report takes back of an earlier depth correction. */
  function Claim(t: Track): int {
    Duration(t.correction.ms - SenderTimeMS(t, t.correction.rtp))
  }

  predicate Undone(t: Track) {
    t.correction.shift != 0 && Claim(t) > CorrectionMargin(t.target)
  }

  function Rollback(t: Track): int {
    if Undone(t) then Min(Claim(t), t.correction.shift) else 0
  }

  function Settled(t: Track): Track {
    if Undone(t) || (t.correction.shift != 0
                     && (t.reset.noticed || RtpDelta(t.report.rtp, t.correction.rtp) >= 0))
    then t.(correction := t.correction.(shift := 0)) else t
  }

  /** alignSenderClockLocked */
  function Aligned(t: Track, base: int, established: bool): Track {
    var step := base - t.anchor.wall;
    if Abs(step) <= TOLERANCE && !t.reset.noticed then t else
      var u := t.MoveClock(step, t.reset.noticed || (established && Abs(step) > CorrectionMargin(t.target)));
      if t.reset.noticed
      then u.(reset := u.reset.(noticed := false, epoch := u.reset.epoch + 1, pending := true)) else u
  }

  // ----- the stream

  datatype Clocks = Clocks(
    tracks: seq<Track>,
    recoveryAt: int,
    recoveryShift: int,
    senderBaseMS: real,
    senderBaseWall: int)      // the zero time until the timeline is established
  {
    predicate Reported() {
      |tracks| >= 2 && forall i :: 0 <= i < |tracks| ==> tracks[i].based && tracks[i].report.ntp != 0
    }

    /** Where the sender's timeline puts a track's anchor. */
    function Timeline(t: Track): int {
      senderBaseWall + Duration(SenderTimeMS(t, t.anchor.rtp) - senderBaseMS)
    }
  }

  /** What the reports of the first n tracks take back together. */
  function Rollbacks(tracks: seq<Track>, n: nat): int
    requires n <= |tracks|
  {
    if n == 0 then 0 else Rollbacks(tracks, n - 1) + Rollback(tracks[n - 1])
  }

  /** The timeline's start once the rollbacks are in. */
  function RolledBack(s: Clocks): int {
    s.senderBaseWall + Rollbacks(s.tracks, |s.tracks|)
  }

  function SettledTracks(tracks: seq<Track>): (r: seq<Track>)
    ensures |r| == |tracks| && forall i :: 0 <= i < |tracks| ==> r[i] == Settled(tracks[i])
  {
    seq(|tracks|, i requires 0 <= i < |tracks| => Settled(tracks[i]))
  }

  /** The timeline once the rollbacks are in, taken from the first track if there was none. */
  function Timelined(s: Clocks): Clocks
    requires s.tracks != []
  {
    var wall := RolledBack(s);
    var settled := SettledTracks(s.tracks);
    if wall != 0 then s.(tracks := settled, senderBaseWall := wall)
    else s.(tracks := settled,
            senderBaseMS := SenderTimeMS(settled[0], settled[0].anchor.rtp),
            senderBaseWall := settled[0].anchor.wall - settled[0].jump.shift)
  }

  /** alignSenderClocksLocked, when every track has a report. */
  function AlignedClocks(s: Clocks): Clocks
    requires s.Reported()
  {
    AlignTo(Timelined(s), RolledBack(s) != 0)
  }

  function AlignTo(u: Clocks, established: bool): Clocks {
    u.(tracks := AlignedTracks(u, established))
  }

  function AlignedTracks(u: Clocks, established: bool): (r: seq<Track>)
    ensures |r| == |u.tracks|
    ensures forall i :: 0 <= i < |r| ==> r[i] == OntoTimeline(u, u.tracks[i], established)
  {
    seq(|u.tracks|, i requires 0 <= i < |u.tracks| => OntoTimeline(u, u.tracks[i], established))
  }

  function OntoTimeline(u: Clocks, t: Track, established: bool): Track {
    Aligned(t, u.Timeline(t) + t.jump.shift, established)
  }

  // ----- depth

  function Excess(t: Track, now: int): int {
    t.Depth(now) - t.target
  }

  predicate TooDeep(t: Track, now: int) {
    Excess(t, now) > CorrectionMargin(t.target)
  }

  /** The largest excess among the first n tracks that are too deep, or zero. */
  function WorstExcess(tracks: seq<Track>, now: int, n: nat): (worst: int)
    requires n <= |tracks|
    ensures worst >= 0
  {
    if n == 0 then 0 else
      var w := WorstExcess(tracks, now, n - 1);
      if TooDeep(tracks[n - 1], now) && Excess(tracks[n - 1], now) > w then Excess(tracks[n - 1], now) else w
  }

  /** The first track that has it. */
  function Source(tracks: seq<Track>, now: int, n: nat): (k: nat)
    requires n <= |tracks|
    ensures WorstExcess(tracks, now, n) > 0 ==>
              k < n && TooDeep(tracks[k], now) && Excess(tracks[k], now) == WorstExcess(tracks, now, n)
  {
    if n == 0 then 0
    else if TooDeep(tracks[n - 1], now) && Excess(tracks[n - 1], now) > WorstExcess(tracks, now, n - 1) then n - 1
    else Source(tracks, now, n - 1)
  }

  predicate Fresh(s: Clocks, now: int, senderClocks: bool) {
    || senderClocks
    || now - s.recoveryAt >= RECOVERY_WINDOW
    || AgainTooDeep(s.tracks, now, s.recoveryAt, |s.tracks|)
  }

  /** One of the first n tracks is too deep although it took part in the last correction. */
  predicate AgainTooDeep(tracks: seq<Track>, now: int, recoveryAt: int, n: nat)
    requires n <= |tracks|
  {
    n > 0 && (AgainTooDeep(tracks, now, recoveryAt, n - 1)
              || (TooDeep(tracks[n - 1], now) && tracks[n - 1].recoveryAt == recoveryAt))
  }

  /** One of the first n tracks lets only a keyframe through. */
  predicate Waiting(tracks: seq<Track>, n: nat)
    requires n <= |tracks|
  {
    n > 0 && (Waiting(tracks, n - 1) || tracks[n - 1].catchUp)
  }

  /** The timestamp of the newest queued item: the first among those due last. */
  function NewestStamp(q: Queue, n: nat): uint32
    requires n <= |q|
  {
    if n == 0 then 0
    else if q[n - 1].playAt > Latest(q, n - 1) then q[n - 1].pkt.timestamp
    else NewestStamp(q, n - 1)
  }

  /** Notes on the track behind a correction what a later report needs to judge it. */
  function Blame(t: Track, amount: int): Track {
    var stamp := NewestStamp(t.line.queue, |t.line.queue|);
    t.(correction := Correction(t.correction.shift + amount, stamp, SenderTimeMS(t, stamp)))
  }

  function Worst(s: Clocks, now: int): int {
    WorstExcess(s.tracks, now, |s.tracks|)
  }

  /** The stream after a correction of `worst` that track k caused. */
  function Charged(s: Clocks, now: int, senderClocks: bool, worst: int, k: nat): Clocks
    requires k < |s.tracks|
  {
    s.(tracks := if senderClocks then s.tracks[k := Blame(s.tracks[k], worst)] else s.tracks,
       recoveryAt := if Fresh(s, now, senderClocks) then now else s.recoveryAt,
       recoveryShift := if Fresh(s, now, senderClocks) then worst else s.recoveryShift)
  }

  /** clockCorrectionLocked: the stream after it, and the shift it asks for. */
  function Corrected(s: Clocks, now: int, senderClocks: bool): Clocks {
    if Worst(s, now) == 0 then s
    else Charged(s, now, senderClocks, Worst(s, now), Source(s.tracks, now, |s.tracks|))
  }

  function CorrectionShift(s: Clocks, now: int, senderClocks: bool): int {
    if Worst(s, now) == 0 then 0 else Corrected(s, now, senderClocks).recoveryShift
  }

  /** With one sender timeline every track moves; without, only those that jumped themselves. */
  function Recovered(t: Track, recoveryAt: int, now: int, shift: int, senderClocks: bool): Track {
    if shift > 0 && (senderClocks || (t.recoveryAt != recoveryAt && Excess(t, now) > MIN_MARGIN))
    then t.MoveClock(-shift, true).(recoveryAt := recoveryAt) else t
  }

  function RecoveredTracks(tracks: seq<Track>, recoveryAt: int, now: int, shift: int, senderClocks: bool)
    : (r: seq<Track>)
    ensures |r| == |tracks|
    ensures forall i :: 0 <= i < |r| ==> r[i] == Recovered(tracks[i], recoveryAt, now, shift, senderClocks)
  {
    seq(|tracks|, i requires 0 <= i < |tracks| => Recovered(tracks[i], recoveryAt, now, shift, senderClocks))
  }

  function ObservedTracks(tracks: seq<Track>, state: Option<Curve>): (r: seq<Track>)
    ensures |r| == |tracks| && forall i :: 0 <= i < |tracks| ==> r[i] == tracks[i].Observe(state)
  {
    seq(|tracks|, i requires 0 <= i < |tracks| => tracks[i].Observe(state))
  }

  function Observed(s: Clocks, state: Option<Curve>): Clocks {
    s.(tracks := ObservedTracks(s.tracks, state))
  }

  function MaybeAligned(s: Clocks): Clocks {
    if s.Reported() then AlignedClocks(s) else s
  }

  /** The timeline and the tracks after a shift. */
  function ShiftedBack(c: Clocks, now: int, shift: int, senderClocks: bool): Clocks {
    c.(senderBaseWall := if senderClocks then c.senderBaseWall - shift else c.senderBaseWall,
       tracks := RecoveredTracks(c.tracks, c.recoveryAt, now, shift, senderClocks))
  }

  /** What correctClocks does once the tracks have caught up with the curve and are aligned. */
  function Recover(s: Clocks, now: int, senderClocks: bool): Clocks {
    ShiftedBack(Corrected(s, now, senderClocks), now, CorrectionShift(s, now, senderClocks), senderClocks)
  }

  /** The part of correctClocks in which every buffer is locked. */
  function Realigned(a: Clocks, now: int): Clocks {
    Recover(MaybeAligned(a), now, a.Reported())
  }

  function CorrectClocks(s: Clocks, state: Option<Curve>, now: int): Clocks {
    Realigned(Observed(s, state), now)
  }

  /** What correctClocks reports, for tracks that have caught up: that the depth was corrected. */
  predicate Corrects(a: Clocks, now: int) {
    CorrectionShift(MaybeAligned(a), now, a.Reported()) > 0
  }

  /** It also asks for a keyframe, then and while a track is waiting for one. */
  predicate AsksKeyframe(a: Clocks, now: int) {
    var b := MaybeAligned(a);
    Corrects(a, now) || Waiting(b.tracks, |b.tracks|)
  }

  /** A clock reset that a report has revealed is counted, and waits for its first packet. */
  lemma NoticedResetIsCounted(s: Clocks, state: Option<Curve>, now: int, i: nat)
    requires s.Reported() && i < |s.tracks| && s.tracks[i].reset.noticed
    ensures var d := CorrectClocks(s, state, now);
            && |d.tracks| == |s.tracks|
            && d.tracks[i].reset == Reset(false, s.tracks[i].reset.epoch + 1, true, s.tracks[i].reset.sequence)
  {
    var a := Observed(s, state);
    assert a.Reported() && a.tracks[i].reset == s.tracks[i].reset;
    TimelinedKeepsResets(a, i);
    AlignedCounts(Timelined(a), RolledBack(a) != 0, i);
    RecoverKeepsResets(AlignedClocks(a), now, true, i);
  }

  predicate Backward(t: Track, timestamp: uint32, ntp: uint64) {
    && ntp != 0 && t.report.ntp != 0 && 0 < (ntp - t.report.ntp) % (WRAP * WRAP) < HALF * WRAP
    && RtpDelta(timestamp, t.report.rtp) < 0
  }

  lemma BackwardReportIsNoticed(t: Track, timestamp: uint32, ntp: uint64)
    requires Backward(t, timestamp, ntp)
    ensures var u := t.Reported(timestamp, ntp);
            u.reset == t.reset.(noticed := true) && u.report.ntp != 0 && u.based == t.based
  {
  }

  lemma StillReported(s: Clocks, i: nat, t: Track)
    requires s.Reported() && i < |s.tracks| && t.based && t.report.ntp != 0
    ensures s.(tracks := s.tracks[i := t]).Reported()
  {
  }

  /** A sender report whose timestamp runs backward resets its track's clock at the next correction. */
  lemma BackwardReportResetsClock(
    s: Clocks, i: nat, timestamp: uint32, ntp: uint64, u: Clocks, state: Option<Curve>, now: int)
    requires s.Reported() && i < |s.tracks| && Backward(s.tracks[i], timestamp, ntp)
    requires u == s.(tracks := s.tracks[i := s.tracks[i].Reported(timestamp, ntp)])
    ensures var d := CorrectClocks(u, state, now).tracks;
            |d| == |s.tracks| && d[i].reset.epoch == s.tracks[i].reset.epoch + 1 && d[i].reset.pending
  {
    BackwardReportIsNoticed(s.tracks[i], timestamp, ntp);
    StillReported(s, i, s.tracks[i].Reported(timestamp, ntp));
    NoticedResetIsCounted(u, state, now, i);
  }

  lemma TimelinedKeepsResets(a: Clocks, i: nat)
    requires i < |a.tracks|
    ensures |Timelined(a).tracks| == |a.tracks| && Timelined(a).tracks[i].reset == a.tracks[i].reset
  {
    assert Timelined(a).tracks == SettledTracks(a.tracks);
  }

  lemma RecoverKeepsResets(b: Clocks, now: int, senderClocks: bool, i: nat)
    requires i < |b.tracks|
    ensures |Recover(b, now, senderClocks).tracks| == |b.tracks|
    ensures Recover(b, now, senderClocks).tracks[i].reset == b.tracks[i].reset
  {
    var c := Corrected(b, now, senderClocks);
    assert |c.tracks| == |b.tracks| && c.tracks[i].reset == b.tracks[i].reset;
  }

  lemma AlignedCounts(u: Clocks, established: bool, i: nat)
    requires i < |u.tracks| && u.tracks[i].reset.noticed
    ensures |AlignTo(u, established).tracks| == |u.tracks|
    ensures AlignTo(u, established).tracks[i].reset ==
              Reset(false, u.tracks[i].reset.epoch + 1, true, u.tracks[i].reset.sequence)
  {
  }

  // ----- one timeline

  /** A track's distance from the timeline. */
  function Drift(s: Clocks, t: Track): int {
    t.anchor.wall - t.jump.shift - s.Timeline(t)
  }

  /** The anchor, less the shared jump, is where the sender's timeline puts it, to within 50 ms. */
  ghost predicate OnTimeline(s: Clocks) {
    forall i :: 0 <= i < |s.tracks| ==> Abs(Drift(s, s.tracks[i])) <= TOLERANCE
  }

  /** What Timeline reads of a track. */
  predicate SameClock(t: Track, u: Track) {
    t.anchor.rtp == u.anchor.rtp && t.report == u.report && t.rate == u.rate && t.jump == u.jump
  }

  lemma AlignedIsClose(t: Track, base: int, established: bool)
    ensures SameClock(Aligned(t, base, established), t)
    ensures Abs(Aligned(t, base, established).anchor.wall - base) <= TOLERANCE
  {
  }

  lemma AlignmentReachesTimeline(u: Clocks, established: bool)
    ensures OnTimeline(AlignTo(u, established)) && |AlignTo(u, established).tracks| == |u.tracks|
  {
    var a := AlignTo(u, established);
    forall i | 0 <= i < |a.tracks|
      ensures Abs(Drift(a, a.tracks[i])) <= TOLERANCE
    {
      AlignedIsClose(u.tracks[i], u.Timeline(u.tracks[i]) + u.tracks[i].jump.shift, established);
      assert a.Timeline(a.tracks[i]) == u.Timeline(u.tracks[i]);
    }
  }

  lemma BlameKeepsClock(s: Clocks, now: int, i: nat)
    requires i < |s.tracks|
    ensures var c := Corrected(s, now, true);
            && |c.tracks| == |s.tracks| && SameClock(c.tracks[i], s.tracks[i])
              && c.tracks[i].anchor == s.tracks[i].anchor
            && c.senderBaseMS == s.senderBaseMS && c.senderBaseWall == s.senderBaseWall
  {
  }

  lemma RecoveredMoves(t: Track, recoveryAt: int, now: int, shift: int)
    requires shift >= 0
    ensures var u := Recovered(t, recoveryAt, now, shift, true);
            SameClock(u, t) && u.anchor.wall == t.anchor.wall - shift
  {
  }

  /** A depth correction moves the timeline and every track by the same amount. */
  lemma RecoveryMovesAllAlike(s: Clocks, now: int, i: nat)
    requires i < |s.tracks|
    ensures var d, shift := Recover(s, now, true), CorrectionShift(s, now, true);
            && |d.tracks| == |s.tracks|
            && d.senderBaseMS == s.senderBaseMS && d.senderBaseWall == s.senderBaseWall - shift
            && SameClock(d.tracks[i], s.tracks[i]) && d.tracks[i].anchor.wall == s.tracks[i].anchor.wall - shift
  {
    var shift, c := CorrectionShift(s, now, true), Corrected(s, now, true);
    BlameKeepsClock(s, now, i);
    RecoveredMoves(c.tracks[i], c.recoveryAt, now, shift);
  }

  lemma DriftIsKept(s: Clocks, now: int, i: nat)
    requires i < |s.tracks|
    ensures var d := Recover(s, now, true);
            |d.tracks| == |s.tracks| && Drift(d, d.tracks[i]) == Drift(s, s.tracks[i])
  {
    RecoveryMovesAllAlike(s, now, i);
  }

  lemma RecoveryKeepsTimeline(s: Clocks, now: int)
    requires OnTimeline(s) && s.tracks != []
    ensures OnTimeline(Recover(s, now, true)) && |Recover(s, now, true).tracks| == |s.tracks|
  {
    var d := Recover(s, now, true);
    forall i | 0 <= i < |s.tracks|
      ensures |d.tracks| == |s.tracks| && Abs(Drift(d, d.tracks[i])) <= TOLERANCE
    {
      DriftIsKept(s, now, i);
      assert Abs(Drift(s, s.tracks[i])) <= TOLERANCE;
    }
    assert |d.tracks| == |s.tracks| by { DriftIsKept(s, now, 0); }
  }

  /** After correctClocks, when every track has a sender report, all of them are on the timeline. */
  lemma ClocksEndOnTimeline(s: Clocks, state: Option<Curve>, now: int)
    requires s.Reported()
    ensures OnTimeline(CorrectClocks(s, state, now)) && |CorrectClocks(s, state, now).tracks| == |s.tracks|
  {
    var a := Observed(s, state);
    assert a.Reported();
    AlignmentReachesTimeline(Timelined(a), RolledBack(a) != 0);
    RecoveryKeepsTimeline(AlignedClocks(a), now);
  }

  // ----- no packet is lost track of

  lemma AlignedMoves(t: Track, base: int, established: bool)
    ensures Moves(t.line, Aligned(t, base, established).line, 0)
  {
    ClockMoves(t, base - t.anchor.wall, true, 0, 0);
    ClockMoves(t, base - t.anchor.wall, false, 0, 0);
  }

  lemma RecoveredKeepsTally(t: Track, recoveryAt: int, now: int, shift: int, senderClocks: bool)
    ensures Moves(t.line, Recovered(t, recoveryAt, now, shift, senderClocks).line, 0)
  {
    ClockMoves(t, -shift, true, 0, 0);
  }

  lemma TimelinedKeepsLines(a: Clocks, i: nat)
    requires i < |a.tracks|
    ensures |Timelined(a).tracks| == |a.tracks| && Timelined(a).tracks[i].line == a.tracks[i].line
  {
    assert Timelined(a).tracks == SettledTracks(a.tracks);
  }

  lemma AlignToMoves(u: Clocks, established: bool, i: nat)
    requires i < |u.tracks|
    ensures |AlignTo(u, established).tracks| == |u.tracks|
    ensures Moves(u.tracks[i].line, AlignTo(u, established).tracks[i].line, 0)
  {
    AlignedMoves(u.tracks[i], u.Timeline(u.tracks[i]) + u.tracks[i].jump.shift, established);
  }

  lemma MaybeAlignedMoves(a: Clocks, i: nat)
    requires i < |a.tracks|
    ensures |MaybeAligned(a).tracks| == |a.tracks| && Moves(a.tracks[i].line, MaybeAligned(a).tracks[i].line, 0)
  {
    if a.Reported() {
      TimelinedKeepsLines(a, i);
      AlignToMoves(Timelined(a), RolledBack(a) != 0, i);
    }
  }

  /** A correction of the clocks discards queued packets only into the count of discarded ones. */
  lemma CorrectClocksConserves(s: Clocks, state: Option<Curve>, now: int, i: nat)
    requires i < |s.tracks|
    ensures var d := CorrectClocks(s, state, now);
            |d.tracks| == |s.tracks| && Moves(s.tracks[i].line, d.tracks[i].line, 0)
  {
    ObserveMoves(s.tracks[i], state);
    RealignedConserves(Observed(s, state), now, i);
  }

  lemma RealignedConserves(a: Clocks, now: int, i: nat)
    requires i < |a.tracks|
    ensures |Realigned(a, now).tracks| == |a.tracks| && Moves(a.tracks[i].line, Realigned(a, now).tracks[i].line, 0)
  {
    MaybeAlignedMoves(a, i);
    RecoverMoves(MaybeAligned(a), now, a.Reported(), i);
  }

  lemma RecoverMoves(b: Clocks, now: int, senderClocks: bool, i: nat)
    requires i < |b.tracks|
    ensures |Recover(b, now, senderClocks).tracks| == |b.tracks|
    ensures Moves(b.tracks[i].line, Recover(b, now, senderClocks).tracks[i].line, 0)
  {
    var c := Corrected(b, now, senderClocks);
    assert |c.tracks| == |b.tracks| && c.tracks[i].line == b.tracks[i].line;
    RecoveredKeepsTally(c.tracks[i], c.recoveryAt, now, CorrectionShift(b, now, senderClocks), senderClocks);
  }

  // ----- playing together

  /** A stamp no further from the anchor, by the report's count, than 32 bits can tell. */
  predicate Within(t: Track, stamp: uint32) {
    -HALF <= RtpDelta(stamp, t.report.rtp) - RtpDelta(t.anchor.rtp, t.report.rtp) < HALF
  }

  lemma DeltasAdd(stamp: uint32, base: uint32, origin: uint32)
    requires -HALF <= RtpDelta(stamp, origin) - RtpDelta(base, origin) < HALF
    ensures RtpDelta(stamp, base) == RtpDelta(stamp, origin) - RtpDelta(base, origin)
  {
    RtpDeltaIsUnique(stamp, base);
    assert Represents(RtpDelta(stamp, origin) - RtpDelta(base, origin), stamp, base);
  }

  lemma {:induction false} RealProduct(q: int, b: nat)
    ensures (q * b) as real == q as real * b as real
  {
    if b > 0 {
      RealProduct(q, b - 1);
      assert q * b == q * (b - 1) + q;
      assert q as real * b as real == q as real * (b - 1) as real + q as real;
    }
  }

  lemma RealOrder(x: int, b: int)
    requires 0 - b < x < b
    ensures -(b as real) < x as real < b as real
  {
  }

  lemma Between(y: real, b: real, p: real)
    requires b > 0.0 && p == y * b && -b < p < b
    ensures -1.0 < y < 1.0
  {
  }

  lemma QuotientRemainder(a: int, q: int, b: Rate)
    ensures (a as real / b as real - q as real) * b as real == (a - q * b) as real
  {
    RealProduct(q, b);
    var x, r := a as real / b as real, b as real;
    assert x * r == a as real;
    assert (x - q as real) * r == x * r - q as real * r;
  }

  /** The truncated quotient is within one of the exact one. */
  lemma TruncDivIsClose(a: int, b: Rate)
    ensures -1.0 < a as real / b as real - TruncDiv(a, b) as real < 1.0
  {
    var q := TruncDiv(a, b);
    TruncDivBounds(a, b);
    QuotientRemainder(a, q, b);
    RealOrder(a - q * b, b);
    Between(a as real / b as real - q as real, b as real, (a - q * b) as real);
  }

  lemma MillisecondsToNanoseconds(ticks: int, rate: Rate)
    ensures ticks as real * 1000.0 / rate as real * 1_000_000.0 == (ticks * SECOND) as real / rate as real
  {
    var r := rate as real;
    var x, y := ticks as real * 1000.0 / r, (ticks * SECOND) as real / r;
    assert x * r == ticks as real * 1000.0;
    assert y * r == (ticks * SECOND) as real;
    assert (x * 1_000_000.0 - y) * r == 0.0;
  }

  /** A track's media time at a capture instant, against the sender's timeline. */
  lemma MediaTimeOnTimeline(s: Clocks, t: Track, stamp: uint32)
    requires Within(t, stamp)
    ensures var exact := s.senderBaseWall as real
                         + (SenderTimeMS(t, stamp) - s.senderBaseMS) * 1_000_000.0;
            -2.0 < (t.anchor.MediaTime(stamp, t.rate) - t.jump.shift - Drift(s, t)) as real - exact < 2.0
  {
    var ticks := RtpDelta(stamp, t.anchor.rtp);
    DeltasAdd(stamp, t.anchor.rtp, t.report.rtp);
    var d := (SenderTimeMS(t, t.anchor.rtp) - s.senderBaseMS) * 1_000_000.0;
    TruncIsClose(d);
    TruncDivIsClose(ticks * SECOND, t.rate);
    MillisecondsToNanoseconds(ticks, t.rate);
    SenderTimeDifference(t, stamp);
  }

  lemma SenderTimeDifference(t: Track, stamp: uint32)
    requires Within(t, stamp)
    ensures SenderTimeMS(t, stamp) - SenderTimeMS(t, t.anchor.rtp)
         == RtpDelta(stamp, t.anchor.rtp) as real * 1000.0 / t.rate as real
  {
    DeltasAdd(stamp, t.anchor.rtp, t.report.rtp);
    QuotientsSubtract(RtpDelta(stamp, t.report.rtp) as real * 1000.0, RtpDelta(t.anchor.rtp,
      t.report.rtp) as real * 1000.0,
                      t.rate as real);
  }

  lemma QuotientsSubtract(a: real, b: real, r: real)
    requires r > 0.0
    ensures a / r - b / r == (a - b) / r
  {
    var x, y, z := a / r, b / r, (a - b) / r;
    assert x * r == a;
    assert y * r == b;
    assert z * r == a - b;
    OnlyZero(x - y - z, r);
  }

  lemma OnlyZero(u: real, r: real)
    requires u * r == 0.0 && r > 0.0
    ensures u == 0.0
  {
  }

  /**
   * Media captured at the same instant on two tracks of a stream on its timeline plays, once
   * both have applied the same jump, within 100 ms of each other and four nanoseconds of rounding.
   */
  lemma EqualInstantsPlayTogether(s: Clocks, i: nat, j: nat, stampI: uint32, stampJ: uint32)
    requires OnTimeline(s) && i < |s.tracks| && j < |s.tracks|
    requires s.tracks[i].jump.shift == s.tracks[j].jump.shift && s.tracks[i].target == s.tracks[j].target
    requires Within(s.tracks[i], stampI) && Within(s.tracks[j], stampJ)
    requires SenderTimeMS(s.tracks[i], stampI) == SenderTimeMS(s.tracks[j], stampJ)
    ensures Abs(s.tracks[i].PlayAt(stampI) - s.tracks[j].PlayAt(stampJ)) < 2 * TOLERANCE + 4
  {
    MediaTimeOnTimeline(s, s.tracks[i], stampI);
    MediaTimeOnTimeline(s, s.tracks[j], stampJ);
    var offI, offJ := Drift(s, s.tracks[i]), Drift(s, s.tracks[j]);
    assert Abs(offI) <= TOLERANCE && Abs(offJ) <= TOLERANCE;
    var a := s.tracks[i].anchor.MediaTime(stampI, s.tracks[i].rate) - offI;
    var b := s.tracks[j].anchor.MediaTime(stampJ, s.tracks[j].rate) - offJ;
    assert -4.0 < (a - b) as real < 4.0;
  }
}
