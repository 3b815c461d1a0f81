/**
 * What a sender report tells a track (internal/relay/playback.go, clock.go), in terms of the sender's own tick
 * count and NTP clock, of which a report carries only 32 and 64 bits: which reports count, when the timestamps are
 * taken to have been reset, and how much of a depth correction is taken back.
 */
module SenderReports {
  import opened RtpClock
  import opened DelayController
  import opened PlayoutTrack
  import opened StreamClocks

  const ERA := WRAP * WRAP

  /** A report by the sender's own clocks: ticks, and NTP time in units of 2^-32 s. */
  datatype Instant = Instant(ticks: int, ntp: int)

  predicate Carries(r: Report, i: Instant) {
    r == Report(i.ticks % WRAP, i.ntp % ERA) && r.ntp != 0
  }

  /** Closer than the fields can tell apart. */
  predicate Close(a: Instant, b: Instant) {
    -HALF <= b.ticks - a.ticks < HALF && -HALF * WRAP < b.ntp - a.ntp < HALF * WRAP
  }

  /** How far NTP time ran ahead of the timestamps between two reports, in ns, times the rate and 2^32. */
  function Lag(a: Instant, b: Instant, rate: Rate): int {
    ((b.ntp - a.ntp) * rate - (b.ticks - a.ticks) * WRAP) * SECOND
  }

  lemma NtpDifference(a: int, b: int)
    requires 0 <= b - a < ERA
    ensures (b % ERA - a % ERA) % ERA == b - a
  {
    var k := b / ERA - a / ERA;
    assert b - a == b % ERA - a % ERA + k * ERA;
    assert b % ERA - a % ERA == (b - a) - k * ERA;
    assert k == 0 || k == 1;
  }

  lemma NtpBackward(a: int, b: int)
    requires -HALF * WRAP < b - a <= 0
    ensures var d := (b % ERA - a % ERA) % ERA; d == 0 || d >= HALF * WRAP
  {
    if a != b {
      NtpDifference(a, b + ERA);
      assert (b + ERA) % ERA == b % ERA;
    }
  }

  /** Reports that do not move the sender's clock forward are ignored, all others are stored. */
  lemma ReportCountsIff(t: Track, a: Instant, b: Instant)
    requires Carries(t.report, a) && Close(a, b) && b.ntp % ERA != 0
    ensures var u := t.Reported(b.ticks % WRAP, b.ntp % ERA);
            if b.ntp > a.ntp then Carries(u.report, b) && u.reset.epoch == t.reset.epoch else u == t
  {
    if b.ntp > a.ntp {
      NtpDifference(a.ntp, b.ntp);
    } else {
      NtpBackward(a.ntp, b.ntp);
    }
  }

  /** The elapsed NTP time is rounded down to whole nanoseconds. */
  lemma NtpIsRoundedDown(delta: nat)
    ensures NtpNanoseconds(delta) * WRAP <= delta * SECOND < NtpNanoseconds(delta) * WRAP + WRAP
  {
    var s, f := delta / WRAP, delta % WRAP;
    assert delta == s * WRAP + f;
    var q := f * SECOND / WRAP;
    assert q * WRAP <= f * SECOND < q * WRAP + WRAP;
  }

  lemma Scale(x: int, low: int, high: int, factor: int)
    requires low < x <= high && factor > 0
    ensures low * factor < x * factor <= high * factor
  {
    assert (x - low) * factor > 0;
    assert (high - x) * factor >= 0;
  }

  /** The measured drift is the lag, but for rounding less than a nanosecond. */
  lemma DriftIsLag(delta: nat, ticks: nat, rate: Rate)
    ensures var unit, drift := WRAP * rate, NtpNanoseconds(delta) - Nanoseconds(ticks, rate);
            var lag := (delta * rate - ticks * WRAP) * SECOND;
            lag - unit < drift * unit < lag + unit
  {
    var n, k := NtpNanoseconds(delta), Nanoseconds(ticks, rate);
    NtpIsRoundedDown(delta);
    TruncDivBounds(ticks * SECOND, rate);
    Scale(n * WRAP, delta * SECOND - WRAP, delta * SECOND, rate);
    Scale(k * rate, ticks * SECOND - rate, ticks * SECOND, WRAP);
    Spread(n, k, rate, delta, ticks);
  }

  lemma Spread(n: int, k: int, rate: Rate, delta: int, ticks: int)
    ensures (n - k) * (WRAP * rate) == n * WRAP * rate - k * rate * WRAP
    ensures (delta * SECOND - WRAP) * rate == delta * SECOND * rate - WRAP * rate
    ensures (ticks * SECOND - rate) * WRAP == ticks * SECOND * WRAP - WRAP * rate
    ensures (delta * rate - ticks * WRAP) * SECOND == delta * SECOND * rate - ticks * SECOND * WRAP
  {
    assert (n - k) * (WRAP * rate) == n * (WRAP * rate) - k * (WRAP * rate);
    assert n * (WRAP * rate) == n * WRAP * rate;
    assert k * (WRAP * rate) == k * rate * WRAP;
    assert (delta * SECOND - WRAP) * rate == delta * SECOND * rate - WRAP * rate;
    assert delta * rate * SECOND == delta * SECOND * rate;
  }

  /** A multiple of the unit next to a bound. */
  lemma Bounded(drift: int, lag: int, unit: int, margin: int)
    requires unit > 0 && margin >= 0 && lag - unit < drift * unit < lag + unit
    ensures -margin * unit <= lag <= margin * unit ==> Abs(drift) <= margin
    ensures lag >= (margin + 1) * unit || lag <= -(margin + 1) * unit ==> Abs(drift) > margin
  {
    assert (margin + 1) * unit == margin * unit + unit;
    if drift >= margin + 1 {
      Products(unit, margin + 1, drift);
    } else if drift <= -(margin + 1) {
      Products(unit, drift, -(margin + 1));
    } else {
      Products(unit, drift, margin);
      Products(unit, -margin, drift);
    }
  }

  /**
   * A report that counts reveals a reset if the timestamps ran backward, or NTP time and timestamps went apart by a
   * nanosecond over the margin or more; it reveals none if the timestamps went forward and kept within the margin.
   */
  lemma ResetIsNoticed(t: Track, a: Instant, b: Instant)
    requires Carries(t.report, a) && Close(a, b) && b.ntp % ERA != 0 && b.ntp > a.ntp
    ensures var u, margin := t.Reported(b.ticks % WRAP, b.ntp % ERA), CorrectionMargin(t.target);
            var unit, lag := WRAP * t.rate, Lag(a, b, t.rate);
            && (b.ticks < a.ticks || lag >= (margin + 1) * unit || lag <= -(margin + 1) * unit ==> u.reset.noticed)
            && (b.ticks >= a.ticks && -margin * unit <= lag <= margin * unit ==> u.reset.noticed == t.reset.noticed)
  {
    NtpDifference(a.ntp, b.ntp);
    RtpDeltaOfTicks(b.ticks, a.ticks);
    if b.ticks >= a.ticks {
      var delta, ticks := b.ntp - a.ntp, b.ticks - a.ticks;
      DriftIsLag(delta, ticks, t.rate);
      Bounded(NtpNanoseconds(delta) - Nanoseconds(ticks, t.rate), Lag(a, b, t.rate), WRAP * t.rate,
              CorrectionMargin(t.target));
    }
  }

  // ----- a sender that keeps its own time

  function ReportedAll(t: Track, run: seq<Instant>): Track
    decreases |run|
  {
    if run == [] then t else ReportedAll(t.Reported(run[0].ticks % WRAP, run[0].ntp % ERA), run[1..])
  }

  /** One report after the other keeps its timestamps to its clock within the margin. */
  ghost predicate Punctual(last: Instant, run: seq<Instant>, margin: int, rate: Rate)
    decreases |run|
  {
    run != [] ==>
      && Close(last, run[0]) && run[0].ntp % ERA != 0 && run[0].ntp > last.ntp && run[0].ticks >= last.ticks
      && -margin * (WRAP * rate) <= Lag(last, run[0], rate) <= margin * (WRAP * rate)
      && Punctual(run[0], run[1..], margin, rate)
  }

  /** A sender whose timestamps keep time is never taken to have reset them, however long it runs. */
  lemma {:induction false} PunctualSenderIsNeverReset(t: Track, last: Instant, run: seq<Instant>)
    requires Carries(t.report, last) && Punctual(last, run, CorrectionMargin(t.target), t.rate)
    ensures ReportedAll(t, run).reset == t.reset
    decreases |run|
  {
    if run != [] {
      ResetIsNoticed(t, last, run[0]);
      ReportCountsIff(t, last, run[0]);
      var u := t.Reported(run[0].ticks % WRAP, run[0].ntp % ERA);
      PunctualSenderIsNeverReset(u, run[0], run[1..]);
    }
  }

  // ----- taking a correction back

  function NtpMS(ntp: nat): real {
    (ntp / WRAP) as real * 1000.0 + (ntp % WRAP) as real * 1000.0 / WRAP as real
  }

  /** How far the timestamps ran ahead of the sender's clock from one report to a later one, in milliseconds. */
  function RanAhead(a: Report, b: Report, rate: Rate): real {
    RtpDelta(b.rtp, a.rtp) as real * 1000.0 / rate as real - (NtpMS(b.ntp) - NtpMS(a.ntp))
  }

  /**
   * A track is charged with a correction under one report, and later has another. What it then claims back is how
   * far the timestamps ran ahead of the sender's clock in between, whichever packet the correction was measured on.
   */
  lemma ClaimIsTheJump(t: Track, amount: int, u: Track)
    requires u.correction == Blame(t, amount).correction && u.rate == t.rate
    requires var stamp := u.correction.rtp;
             -HALF <= RtpDelta(stamp, t.report.rtp) - RtpDelta(u.report.rtp, t.report.rtp) < HALF
    ensures Claim(u) == Duration(RanAhead(t.report, u.report, t.rate))
  {
    var stamp := u.correction.rtp;
    DeltasAdd(stamp, u.report.rtp, t.report.rtp);
    QuotientsSubtract(RtpDelta(stamp, t.report.rtp) as real * 1000.0,
                      RtpDelta(stamp, u.report.rtp) as real * 1000.0, t.rate as real);
    assert SenderTimeMS(t, stamp)
        == NtpMS(t.report.ntp) + RtpDelta(stamp, t.report.rtp) as real * 1000.0 / t.rate as real;
    assert SenderTimeMS(u, stamp)
        == NtpMS(u.report.ntp) + RtpDelta(stamp, u.report.rtp) as real * 1000.0 / t.rate as real;
  }

  /**
   * Only a jump beyond the margin is taken back, at most as much as was charged, and once: what is taken back and
   * what can still be taken back never exceed what could be before.
   */
  lemma TakesBackAtMostTheCharge(t: Track)
    requires t.correction.shift >= 0
    ensures 0 <= Rollback(t) && Rollback(t) + Settled(t).correction.shift <= t.correction.shift
    ensures Rollback(t) > 0 <==> t.correction.shift > 0 && Claim(t) > CorrectionMargin(t.target)
    ensures Rollback(t) > 0 ==> Rollback(t) == Min(Claim(t), t.correction.shift) && Settled(t).correction.shift == 0
    ensures Rollback(Settled(t)) == 0 || Settled(t) == t
  {
  }

  /** A correction can be taken back until a report is at or past the packet it was measured on, or reveals a reset. */
  lemma CorrectionStandsUntil(t: Track)
    requires t.correction.shift != 0
    ensures Settled(t).correction.shift == t.correction.shift <==>
              && Claim(t) <= CorrectionMargin(t.target)
              && !t.reset.noticed && RtpDelta(t.report.rtp, t.correction.rtp) < 0
    ensures Settled(t) == t.(correction := Settled(t).correction)
  {
  }
}
