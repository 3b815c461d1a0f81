/**
 * The loop from late packets to a longer delay (internal/relay/relay.go, adjustDelay and ConfigureDelay): a packet is
 * pushed late, its lateness is sampled, and the shared curve climbs.
 */
module CameraDelay {
  import opened RtpClock
  import opened PlayoutHeap
  import opened DelayController
  import opened PlayoutTrack
  import opened PlayoutLine
  import opened StreamClocks
  import opened CameraPlayout
  import opened DepthRecovery
  import opened DelayGrowth
  import opened Admission

  /** A sample: at least as large as the lateness of any track, and that of one of them, or zero. */
  ghost predicate WorstOf(tracks: seq<Track>, late: int) {
    && late >= 0 && (forall i :: 0 <= i < |tracks| ==> tracks[i].lateness.peak <= late)
    && (late == 0 || exists i :: 0 <= i < |tracks| && tracks[i].lateness.peak == late)
  }

  /** An adjustment is made at most once a second, while there is a curve. */
  predicate Adjusts(c: Camera, now: int) {
    c.control.state.Some? && now - c.lastAdjust >= SECOND
  }

  /**
   * An adjustment that is due steps the controller with the worst lateness of the registered tracks, once they have
   * caught up with the curve, and starts a new sample on every one; otherwise nothing happens.
   */
  lemma AdjustmentStepsWithWorst(c: Camera, now: int) returns (late: int)
    requires Matched(c)
    ensures WorstOf(ObservedTracks(c.clocks.tracks, c.control.state), late)
    ensures var d := Next(c, Adjust(now));
            if !Adjusts(c, now) then d == c
            else
              && d.control == c.control.Stepped(now, late) && d.lastAdjust == now
              && forall i :: 0 <= i < |d.clocks.tracks| ==> d.clocks.tracks[i].lateness.peak == 0
  {
    var tracks := ObservedTracks(c.clocks.tracks, c.control.state);
    SampleIsWorst(tracks, |tracks|);
    late := LateOf(c);
  }

  /** A configuration reaches every registered track. */
  lemma ConfigurationReachesAll(c: Camera, now: int, target: int, options: Options, i: nat)
    requires Matched(c) && i < |c.clocks.tracks|
    ensures var d := Next(c, Configure(now, target, options));
            && |d.clocks.tracks| == |c.clocks.tracks| && d.clocks.tracks[i].target == target
            && d.control.base == target
            && (c.control.Relays(target, options) ==> d.clocks.tracks[i].lateness.peak == 0)
            && (c.clocks.tracks[i].jump.dynamic ==> d.clocks.tracks[i].jump == c.clocks.tracks[i].jump)
  {
  }

  /** A track that joins takes over the stream's last recovery, so that an excess of its own starts a new one. */
  lemma NewTrackJoinsRecovery(c: Camera, i: nat, now: int)
    requires Matched(c) && i < |c.loose|
    requires var d := Next(c, Register(i)).clocks.tracks; Sensible(d, now) && Deep(d[|c.clocks.tracks|], now)
    ensures StreamClocks.Fresh(Next(c, Register(i)).clocks, now, false)
  {
    FreshIff(Next(c, Register(i)).clocks, now, false);
  }

  /** The delay the curve has `now`, and what lateness `late` calls for within the maximum. */
  function CalledFor(c: Control, now: int, late: int): int
    requires c.state.Some?
  {
    Min(c.options.Maximum(), c.state.value.Delay(now) + late + HEADROOM)
  }

  lemma StepAnswersLateness(c: Control, now: int, late: int, least: int)
    requires Sane(c) && c.options.enabled && c.Due(now) && 0 < least <= late
    requires c.state.value.Delay(now) <= c.options.Maximum()
    ensures var d := c.Stepped(now, late);
            d.state.Some? && EndOfCurve(d) >= Min(c.state.value.Delay(now) + GROWTH, CalledFor(c, now, least))
  {
    StepClimbs(c, StepAt(now, late));
  }

  /** A packet that joins the queue after its time to leave has its lateness in the sample. */
  lemma LatePacketIsSampled(t: Track, pkt: RtpPacket, now: int, c: Control)
    requires !t.closed && t.based && !t.Behind(c.state) && !CompletesJump(t, pkt, c.state)
    requires Admission.Timely(t, pkt, now, DelayInForce(t, c.state, now))
    ensures var late := now - (MediaTime(t, pkt) + DelayInForce(t, c.state, now));
            var u := t.Arrived(pkt, now, c);
            late > 0 ==> u.lateness.peak >= late && u.jump == t.jump
  {
    assert t.Ready(pkt.timestamp, now, c.state) == t;
    LateIffOverdue(t, pkt, now, c);
    SeatedMoves(t, pkt, now, c);
    StaleIffNotTimely(t, pkt, now, c.state);
    ScheduleIs(t, pkt, now, c);
    AnchorAfterEnqueue(Seated(t, pkt, now, c), pkt, Seated(t, pkt, now, c).PlayAt(pkt.timestamp));
    SeatedKeepsJump(t, pkt, now, c);
  }

  lemma SeatedKeepsJump(t: Track, pkt: RtpPacket, now: int, c: Control)
    requires !CompletesJump(t, pkt, c.state)
    ensures Seated(t, pkt, now, c).jump == t.jump
  {
  }

  /**
   * From a late packet to a longer delay: a packet is pushed at a registered track l after its time to leave; the next
   * adjustment, if it is due, lays a curve that climbs 50 ms, or to what the lateness calls for if that is less.
   */
  lemma LatePacketRaisesDelay(c: Camera, i: nat, pkt: RtpPacket, now: int, later: int)
    requires Accounted(c) && i < |c.clocks.tracks| && Sane(c.control) && c.control.options.enabled
    requires var t := c.clocks.tracks[i];
             && !t.closed && t.based && !t.Behind(c.control.state) && !CompletesJump(t, pkt, c.control.state)
             && Admission.Timely(t, pkt, now, DelayInForce(t, c.control.state, now))
             && now > MediaTime(t, pkt) + DelayInForce(t, c.control.state, now)
    requires Adjusts(c, later) && c.control.Due(later)
    requires c.control.state.value.Delay(later) <= c.control.options.Maximum()
    ensures var t := c.clocks.tracks[i];
            var late := now - (MediaTime(t, pkt) + DelayInForce(t, c.control.state, now));
            var b := Next(c, Arrive(Registered(i), pkt, now));
            var d := Next(b, Adjust(later)).control;
            d.state.Some? && EndOfCurve(d) >=
              Min(c.control.state.value.Delay(later) + GROWTH, CalledFor(c.control, later, late))
  {
    var t, b := c.clocks.tracks[i], Next(c, Arrive(Registered(i), pkt, now));
    LatePacketIsSampled(t, pkt, now, c.control);
    SameControl(t, pkt, now, c.control);
    assert b.clocks.tracks[i] == t.Arrived(pkt, now, c.control);
    assert b.control == c.control && b.lastAdjust == c.lastAdjust;
    var worst := AdjustmentStepsWithWorst(b, later);
    assert ObservedTracks(b.clocks.tracks, b.control.state)[i] == b.clocks.tracks[i];
    StepAnswersLateness(c.control, later, worst, now - (MediaTime(t, pkt) + DelayInForce(t, c.control.state, now)));
  }

  lemma SameControl(t: Track, pkt: RtpPacket, now: int, c: Control)
    requires t.based && !t.Behind(c.state) && !CompletesJump(t, pkt, c.state)
    ensures t.ControlAfter(pkt, now, c) == c
  {
  }
}
