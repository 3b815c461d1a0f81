/**
 * What aligning the tracks of a stream to the sender's clocks does to each (internal/relay/clock.go): where the shared
 * timeline starts, what moves it, and when a track's queue survives.
 */
module Alignment {
  import opened PlayoutTrack
  import opened StreamClocks

  /** The first alignment takes the timeline from the first track, which therefore stands still. */
  lemma TimelineStartsAtFirstTrack(s: Clocks)
    requires s.Reported() && RolledBack(s) == 0
    ensures var a := AlignedClocks(s);
            |a.tracks| == |s.tracks| && a.tracks[0].anchor == s.tracks[0].anchor && Drift(a, a.tracks[0]) == 0
  {
    var u := Timelined(s);
    assert |u.tracks| == |s.tracks| && u.tracks[0] == Settled(s.tracks[0]);
    assert Duration(0.0) == 0;
    assert u.Timeline(u.tracks[0]) == u.senderBaseWall;
    OnTimelineStands(u, false, 0);
  }

  /** A track that is exactly on the timeline does not move. */
  lemma OnTimelineStands(u: Clocks, established: bool, i: nat)
    requires i < |u.tracks| && Drift(u, u.tracks[i]) == 0
    ensures |AlignTo(u, established).tracks| == |u.tracks|
    ensures var a := AlignTo(u, established); a.tracks[i].anchor == u.tracks[i].anchor && Drift(a, a.tracks[i]) == 0
  {
    var t, a := u.tracks[i], AlignTo(u, established);
    AlignedIsClose(t, u.Timeline(t) + t.jump.shift, established);
    assert a.Timeline(a.tracks[i]) == u.Timeline(t);
  }

  /** From then on it moves only by what reports take back of earlier corrections. */
  lemma TimelineMovesByRollbacks(s: Clocks)
    requires s.Reported() && RolledBack(s) != 0
    ensures var a := AlignedClocks(s);
            a.senderBaseMS == s.senderBaseMS && a.senderBaseWall == s.senderBaseWall + Rollbacks(s.tracks, |s.tracks|)
  {
  }

  /** The packets wait in the same places, due earlier or later by `step`. */
  predicate SameQueueMoved(t: Track, v: Track, step: int) {
    && |v.line.queue| == |t.line.queue| && v.line.arrived == t.line.arrived && v.line.dropped == t.line.dropped
    && forall i :: 0 <= i < |t.line.queue| ==>
         v.line.queue[i] == t.line.queue[i].(playAt := t.line.queue[i].playAt + step)
  }

  /** Its timestamps were reset, or it is further off than its margin and there was a timeline before. */
  predicate LosesQueue(t: Track, drift: int, established: bool) {
    t.reset.noticed || (established && Abs(drift) > CorrectionMargin(t.target))
  }

  /**
   * A track within 50 ms of the timeline is left as it is; any other is put on it exactly. Its queue moves
   * along, unless the track was reset or has gone too far: then it is discarded and the track waits for a
   * keyframe.
   */
  lemma AlignmentMovesOrDiscards(u: Clocks, established: bool, i: nat)
    requires i < |u.tracks|
    ensures |AlignTo(u, established).tracks| == |u.tracks|
    ensures var t, v, drift := u.tracks[i], AlignTo(u, established).tracks[i], Drift(u, u.tracks[i]);
            if Abs(drift) <= TOLERANCE && !t.reset.noticed then v == t
            else
              && Drift(AlignTo(u, established), v) == 0 && v.anchor.rtp == t.anchor.rtp
              && if LosesQueue(t, drift, established)
                 then v.line == Line([], t.line.arrived, t.line.dropped + |t.line.queue|) && v.catchUp
                 else SameQueueMoved(t, v, -drift) && v.catchUp == t.catchUp
  {
    var t, a := u.tracks[i], AlignTo(u, established);
    AlignedIsClose(t, u.Timeline(t) + t.jump.shift, established);
    assert a.Timeline(a.tracks[i]) == u.Timeline(t);
  }
}
