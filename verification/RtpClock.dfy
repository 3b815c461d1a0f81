/**
 * RTP timestamps (section 5.1 of RFC 3550) on the relay's and the player's clocks:
 * internal/relay/delay.go, internal/relay/playback.go and internal/dynamicdelay/web/player.js.
 * Times and durations are whole nanoseconds.
 */
module RtpClock {
  import opened Bytes

  const WRAP := 0x1_0000_0000
  const HALF := 0x8000_0000
  const SECOND := 1_000_000_000
  const MILLISECOND := 1_000_000

  /** Go's int64 range. */
  predicate FitsInt64(x: int) {
    -0x8000_0000_0000_0000 <= x < 0x8000_0000_0000_0000
  }

  function Minus32(a: uint32, b: uint32): uint32 {
    if a >= b then a - b else a - b + WRAP
  }

  /** rtpDelta: the upper half of the range is read as a negative distance. */
  function RtpDelta(timestamp: uint32, base: uint32): int {
    var diff := Minus32(timestamp, base);
    if diff > 0x7fff_ffff then -((WRAP - 1 - diff) + 1) else diff
  }

  lemma CongruentTwins(a: int, b: int)
    requires (a - b) % WRAP == 0 && -HALF <= a < HALF && -HALF <= b < HALF
    ensures a == b
  {
    var k := (a - b) / WRAP;
    assert a - b == k * WRAP;
  }

  /** `d` lies in [-2^31, 2^31) and differs from the plain difference by a multiple of 2^32. */
  predicate Represents(d: int, timestamp: uint32, base: uint32) {
    -HALF <= d < HALF && (d - (timestamp - base)) % WRAP == 0
  }

  lemma RtpDeltaIsUnique(timestamp: uint32, base: uint32)
    ensures forall d :: Represents(d, timestamp, base) <==> d == RtpDelta(timestamp, base)
  {
    forall d | Represents(d, timestamp, base)
      ensures d == RtpDelta(timestamp, base)
    {
      CongruentTwins(d, RtpDelta(timestamp, base));
    }
  }

  /** While the true distance stays below half a wrap, RtpDelta is that distance. */
  lemma RtpDeltaOfTicks(ticks: int, base: int)
    requires -HALF <= ticks - base < HALF
    ensures RtpDelta(ticks % WRAP, base % WRAP) == ticks - base
  {
    var d, k := RtpDelta(ticks % WRAP, base % WRAP), ticks / WRAP - base / WRAP;
    assert ticks - base == ticks % WRAP - base % WRAP + k * WRAP;
    assert d == ticks % WRAP - base % WRAP || d == ticks % WRAP - base % WRAP + WRAP
        || d == ticks % WRAP - base % WRAP - WRAP;
    assert d - (ticks - base) == -k * WRAP || d - (ticks - base) == (1 - k) * WRAP
      || d - (ticks - base) == (-1 - k) * WRAP;
  }

  /** ECMAScript's `x | 0`. */
  function ToInt32(x: int): int {
    var m := x % WRAP;
    if m >= HALF then m - WRAP else m
  }

  /** The player and the relay unwrap timestamps alike. */
  lemma PlayerAgreesWithRelay(timestamp: uint32, previous: uint32)
    ensures ToInt32(timestamp - previous) == RtpDelta(timestamp, previous)
  {
  }

  // ----- ticks to nanoseconds

  /** Go's integer division, which truncates toward zero. */
  function TruncDiv(a: int, b: int): int
    requires b > 0
  {
    if a >= 0 then a / b else -(-a / b)
  }

  lemma TruncDivBounds(a: int, b: int)
    requires b > 0
    ensures var q := TruncDiv(a, b);
            && -b < a - q * b < b
            && (a >= 0 ==> q >= 0 && a - q * b >= 0)
            && (a <= 0 ==> q <= 0 && a - q * b <= 0)
  {
  }

  lemma {:induction false} Multiples(p: int, q: int, b: int)
    requires b > 0 && p > q
    ensures p * b >= q * b + b
    decreases p - q
  {
    assert p * b == (p - 1) * b + b;
    if p > q + 1 {
      Multiples(p - 1, q, b);
    }
  }

  lemma TruncDivMonotone(a: int, c: int, b: int)
    requires b > 0 && a <= c
    ensures TruncDiv(a, b) <= TruncDiv(c, b)
  {
    var p, q := TruncDiv(a, b), TruncDiv(c, b);
    TruncDivBounds(a, b);
    TruncDivBounds(c, b);
    if p > q {
      Multiples(p, q, b);
    }
  }

  type Rate = r: int | 0 < r < WRAP witness 1

  function Nanoseconds(ticks: int, rate: Rate): int {
    TruncDiv(ticks * SECOND, rate)
  }

  /** The products in playoutOf stay inside Go's 64-bit durations for any two timestamps. */
  lemma PlayoutFits(timestamp: uint32, base: uint32, rate: Rate)
    ensures FitsInt64(RtpDelta(timestamp, base) * SECOND)
    ensures FitsInt64(Nanoseconds(RtpDelta(timestamp, base), rate))
  {
    var a := RtpDelta(timestamp, base) * SECOND;
    TruncDivMonotone(-HALF * SECOND, a, rate);
    TruncDivMonotone(a, HALF * SECOND, rate);
    TruncDivAtMost(HALF * SECOND, rate);
  }

  lemma FactorAtMost(p: int, b: int)
    requires p >= 0 && b > 0
    ensures p <= p * b
  {
    assert p * (b - 1) >= 0;
  }

  lemma TruncDivAtMost(a: int, b: int)
    requires b > 0 && a >= 0
    ensures 0 <= TruncDiv(a, b) <= a && -a <= TruncDiv(-a, b) <= 0
  {
    TruncDivBounds(a, b);
    FactorAtMost(TruncDiv(a, b), b);
    assert TruncDiv(-a, b) == -TruncDiv(a, b);
  }

  /** A 64-bit NTP difference (section 6.4.1 of RFC 3550) as SenderReport turns it into nanoseconds. */
  function NtpNanoseconds(delta: nat): int {
    delta / WRAP * SECOND + delta % WRAP * SECOND / WRAP
  }

  /** No product, sum or drift in SenderReport leaves the 64-bit range, even on the first report. */
  lemma SenderReportFits(delta: nat, ticks: int, rate: Rate)
    requires delta < WRAP * WRAP && -HALF <= ticks < HALF
    ensures FitsInt64(delta / WRAP * SECOND) && FitsInt64(delta % WRAP * SECOND)
    ensures FitsInt64(NtpNanoseconds(delta))
    ensures FitsInt64(NtpNanoseconds(delta) - Nanoseconds(ticks, rate))
  {
    assert delta / WRAP < WRAP;
    var a := ticks * SECOND;
    TruncDivMonotone(-HALF * SECOND, a, rate);
    TruncDivMonotone(a, HALF * SECOND, rate);
    TruncDivAtMost(HALF * SECOND, rate);
  }

  // ----- the anchor that maps the sender's clock onto ours

  datatype Anchor = Anchor(rtp: uint32, wall: int) {

    /** playoutOf, before the delay target is added. */
    function MediaTime(timestamp: uint32, rate: Rate): int {
      wall + Nanoseconds(RtpDelta(timestamp, rtp), rate)
    }

    /** Push moves the anchor up to a packet more than a minute past it. */
    function Roll(timestamp: uint32, rate: Rate): Anchor {
      if RtpDelta(timestamp, rtp) > rate * 60 then Anchor(timestamp, MediaTime(timestamp, rate)) else this
    }
  }

  /** Later media never plays earlier. */
  lemma MediaTimeMonotone(a: Anchor, base: int, early: int, late: int, rate: Rate)
    requires a.rtp == base % WRAP && early <= late
    requires -HALF <= early - base && late - base < HALF
    ensures a.MediaTime(early % WRAP, rate) <= a.MediaTime(late % WRAP, rate)
  {
    RtpDeltaOfTicks(early, base);
    RtpDeltaOfTicks(late, base);
    TruncDivMonotone((early - base) * SECOND, (late - base) * SECOND, rate);
  }

  /** An anchor followed along a stream: its true tick count, the newest tick, the rolls so far. */
  datatype Followed = Followed(anchor: Anchor, ticks: int, newest: int, rolls: nat)

  function Follow(f: Followed, t: int, rate: Rate): Followed {
    var newest := if t > f.newest then t else f.newest;
    if RtpDelta(t % WRAP, f.anchor.rtp) > rate * 60
    then Followed(f.anchor.Roll(t % WRAP, rate), t, newest, f.rolls + 1)
    else Followed(f.anchor.Roll(t % WRAP, rate), f.ticks, newest, f.rolls)
  }

  function FollowAll(f: Followed, run: seq<int>, rate: Rate): Followed
    decreases |run|
  {
    if run == [] then f else FollowAll(Follow(f, run[0], rate), run[1..], rate)
  }

  /** A tick not half a wrap behind the newest, nor half a wrap less a minute ahead of it. */
  predicate Near(newest: int, t: int, rate: Rate) {
    -HALF <= t - newest < HALF - rate * 60
  }

  ghost predicate AllNear(f: Followed, run: seq<int>, rate: Rate)
    decreases |run|
  {
    run != [] ==> Near(f.newest, run[0], rate) && AllNear(Follow(f, run[0], rate), run[1..], rate)
  }

  /** rate times the nanoseconds by which the mapping of tick `t` falls short of the exact one. */
  function Shortfall(wall: int, origin: int, mapped: int, t: int, rate: Rate): int {
    (t - origin) * SECOND - (mapped - wall) * rate
  }

  /** The anchor tracks its true tick, stays within a minute of the newest, and loses under 1 ns a roll. */
  ghost predicate Faithful(f: Followed, wall: int, origin: int, rate: Rate) {
    && f.anchor.rtp == f.ticks % WRAP
    && f.ticks <= f.newest <= f.ticks + rate * 60
    && 0 <= Shortfall(wall, origin, f.anchor.wall, f.ticks, rate) <= f.rolls * rate
  }

  lemma FollowFaithful(f: Followed, t: int, wall: int, origin: int, rate: Rate)
    requires Faithful(f, wall, origin, rate) && Near(f.newest, t, rate)
    ensures Faithful(Follow(f, t, rate), wall, origin, rate)
  {
    RtpDeltaOfTicks(t, f.ticks);
    if t - f.ticks > rate * 60 {
      var step := Nanoseconds(t - f.ticks, rate);
      TruncDivBounds((t - f.ticks) * SECOND, rate);
      var g := Follow(f, t, rate);
      assert g.anchor.wall == f.anchor.wall + step;
      ShortfallStep(wall, origin, f.anchor.wall, f.ticks, step, t - f.ticks, rate);
      assert g.rolls * rate == f.rolls * rate + rate;
    }
  }

  lemma ShortfallStep(wall: int, origin: int, mapped: int, t: int, step: int, ticks: int, rate: Rate)
    ensures Shortfall(wall, origin, mapped + step, t + ticks, rate)
         == Shortfall(wall, origin, mapped, t, rate) + (ticks * SECOND - step * rate)
  {
    assert (mapped + step - wall) * rate == (mapped - wall) * rate + step * rate;
  }

  lemma {:induction false} FollowAllFaithful(f: Followed, run: seq<int>, wall: int, origin: int, rate: Rate)
    requires Faithful(f, wall, origin, rate) && AllNear(f, run, rate)
    ensures Faithful(FollowAll(f, run, rate), wall, origin, rate)
    decreases |run|
  {
    if run != [] {
      FollowFaithful(f, run[0], wall, origin, rate);
      FollowAllFaithful(Follow(f, run[0], rate), run[1..], wall, origin, rate);
    }
  }

  /** A faithful anchor maps any near tick to within a nanosecond more than it has lost itself. */
  lemma FaithfulMapping(g: Followed, t: int, wall: int, origin: int, rate: Rate)
    requires Faithful(g, wall, origin, rate) && Near(g.newest, t, rate)
    ensures 0 - rate < Shortfall(wall, origin, g.anchor.MediaTime(t % WRAP, rate), t, rate) < g.rolls * rate + rate
  {
    RtpDeltaOfTicks(t, g.ticks);
    var step := Nanoseconds(t - g.ticks, rate);
    TruncDivBounds((t - g.ticks) * SECOND, rate);
    ShortfallStep(wall, origin, g.anchor.wall, g.ticks, step, t - g.ticks, rate);
  }

  function FirstPacket(origin: int, wall: int): Followed {
    Followed(Anchor(origin % WRAP, wall), origin, origin, 0)
  }

  /**
   * However often the 32-bit timestamps wrap, after k anchor rolls any near tick is mapped
   * to within k + 1 ns of the exact, never re-anchored line through the first packet.
   */
  lemma RollingAnchorIsExact(origin: int, wall: int, run: seq<int>, t: int, rate: Rate)
    requires AllNear(FirstPacket(origin, wall), run, rate)
    requires Near(FollowAll(FirstPacket(origin, wall), run, rate).newest, t, rate)
    ensures var g := FollowAll(FirstPacket(origin, wall), run, rate);
            0 - rate < Shortfall(wall, origin, g.anchor.MediaTime(t % WRAP, rate), t, rate) < g.rolls * rate + rate
  {
    var g := FollowAll(FirstPacket(origin, wall), run, rate);
    FollowAllFaithful(FirstPacket(origin, wall), run, wall, origin, rate);
    FaithfulMapping(g, t, wall, origin, rate);
  }

  // ----- the player's unwrapping closure

  /** rtpClock of player.js; the constructor gets the rounded start tick of the relay's snapshot. */
  class PlayerClock {
    var previous: uint32
    var ticks: int

    constructor (timestamp: uint32, start: int)
      ensures previous == timestamp && ticks == start
    {
      previous, ticks := timestamp, start;
    }

    method Next(timestamp: uint32) returns (t: int)
      modifies this
      ensures t == ticks == old(ticks) + RtpDelta(timestamp, old(previous)) && previous == timestamp
    {
      PlayerAgreesWithRelay(timestamp, previous);
      ticks := ticks + ToInt32(timestamp - previous);
      previous := timestamp;
      return ticks;
    }
  }

  /** Consecutive ticks closer than half a wrap. */
  predicate Smooth(run: seq<int>) {
    forall i :: 0 < i < |run| ==> -HALF <= run[i] - run[i - 1] < HALF
  }

  /** Fed the wrapped timestamps of a true tick sequence, the player returns that sequence, shifted. */
  method Unwrap(run: seq<int>, start: int) returns (out: seq<int>)
    requires run != [] && Smooth(run)
    ensures |out| == |run| && forall i :: 0 <= i < |run| ==> out[i] == start + (run[i] - run[0])
  {
    var clock := new PlayerClock(run[0] % WRAP, start);
    RtpDeltaOfTicks(run[0], run[0]);
    out := [];
    for i := 0 to |run|
      invariant |out| == i && forall j :: 0 <= j < i ==> out[j] == start + (run[j] - run[0])
      invariant fresh(clock)
      invariant var last := if i == 0 then 0 else i - 1;
                clock.previous == run[last] % WRAP && clock.ticks == start + (run[last] - run[0])
    {
      var last := if i == 0 then 0 else i - 1;
      RtpDeltaOfTicks(run[i], run[last]);
      var t := clock.Next(run[i] % WRAP);
      out := out + [t];
    }
  }
}
