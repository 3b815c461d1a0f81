/**
 * The audio branch of the player's receive loop (internal/dynamicdelay/web/player.js): Opus
 * packets laid on a 48 kHz timeline, short gaps filled with silence, fragments sent whole.
 */
module AudioTimeline {
  import opened Basics
  import opened Bytes

  datatype Sample = Sample(time: int, duration: int, data: seq<byte>)

  // ----- Opus durations (the TOC byte of section 3.1 of RFC 6716)

  function FrameTicks(toc: byte): nat {
    var config := toc / 8;
    if config >= 16 then 120 * Pow2(config % 4)
    else if config >= 12 then 480 * Pow2(config % 2)
    else [480, 960, 1920, 2880][config % 4]
  }

  function FrameCount(data: seq<byte>): nat
    requires data != []
  {
    match data[0] % 4
    case 0 => 1
    case 3 => if |data| > 1 then data[1] % 64 else 0
    case _ => 2
  }

  /** opusDuration; None where it throws. */
  function OpusDuration(data: seq<byte>): Option<nat> {
    if data == [] || FrameCount(data) == 0 || FrameTicks(data[0]) * FrameCount(data) > 5760 then None
    else Some(FrameTicks(data[0]) * FrameCount(data))
  }

  // ----- silence

  /** The largest of 120, 240, 480 and 960 ticks that fits, as a power of two over 120. */
  function SilenceSize(gap: int): (size: nat)
    requires gap >= 120
    ensures size <= 3 && 120 * Pow2(size) <= gap
  {
    if gap >= 960 then 3 else if gap >= 480 then 2 else if gap >= 240 then 1 else 0
  }

  function Silence(time: int, size: nat): Sample
    requires size <= 3
  {
    Sample(time, 120 * Pow2(size), [0xe0 + size * 8, 0xff, 0xfe])
  }

  /** A decoder plays a generated packet for exactly the time it was given. */
  lemma SilencePlaysItsDuration(time: int, size: nat)
    requires size <= 3
    ensures OpusDuration(Silence(time, size).data) == Some(Silence(time, size).duration)
  {
    var toc: byte := 0xe0 + size * 8;
    assert toc / 8 == 28 + size && (28 + size) % 4 == size && toc % 4 == 0;
    assert Pow2(size) <= 8 by {
      assert Pow2(0) == 1 && Pow2(1) == 2 && Pow2(2) == 4 && Pow2(3) == 8;
    }
    assert FrameTicks(toc) == 120 * Pow2(size);
  }

  /** The packets that fill a gap from `end` on, down to less than 120 ticks. */
  function Fill(end: int, gap: int): seq<Sample>
    decreases gap
  {
    if gap < 120 then [] else
      var s := Silence(end, SilenceSize(gap));
      assert Pow2(SilenceSize(gap)) >= 1;
      [s] + Fill(end + s.duration, gap - s.duration)
  }

  // ----- the timeline

  datatype Audio = Audio(sent: seq<seq<Sample>>, samples: seq<Sample>, end: Option<int>)

  function End(s: Sample): int {
    s.time + s.duration
  }

  /** Each sample begins where the one before it ends. */
  ghost predicate Contiguous(s: seq<Sample>) {
    && (forall i :: 0 <= i < |s| ==> s[i].duration > 0)
    && (forall i :: 0 < i < |s| ==> s[i].time == End(s[i - 1]))
  }

  function Flat(sent: seq<seq<Sample>>): seq<Sample> {
    if sent == [] then [] else Flat(sent[..|sent| - 1]) + sent[|sent| - 1]
  }

  /** Everything placed so far, in order. */
  function Placed(a: Audio): seq<Sample> {
    Flat(a.sent) + a.samples
  }

  /** Samples in order that never overlap. */
  ghost predicate Disjoint(s: seq<Sample>) {
    && (forall i :: 0 <= i < |s| ==> s[i].duration > 0)
    && (forall i, j :: 0 <= i < j < |s| ==> End(s[i]) <= s[j].time)
  }

  ghost predicate Fragments(sent: seq<seq<Sample>>) {
    forall f :: f in sent ==> f != [] && Contiguous(f)
  }

  ghost predicate OpenUpTo(samples: seq<Sample>, end: int) {
    Contiguous(samples) && (samples != [] ==> End(samples[|samples| - 1]) == end)
  }

  ghost predicate Laid(s: seq<Sample>, end: int) {
    Disjoint(s) && forall i :: 0 <= i < |s| ==> End(s[i]) <= end
  }

  /** Whole fragments, the open one running up to `end`, and nothing that overlaps. */
  ghost predicate Sound(sent: seq<seq<Sample>>, samples: seq<Sample>, end: int) {
    && Fragments(sent)
    && OpenUpTo(samples, end)
    && Laid(Flat(sent) + samples, end)
  }

  ghost predicate Good(a: Audio) {
    && |a.samples| < 5
    && (a.end.None? ==> a.sent == [] && a.samples == [])
    && (a.end.Some? ==> Sound(a.sent, a.samples, a.end.value))
  }

  function Flush(a: Audio): Audio {
    Audio(a.sent + [a.samples], [], a.end)
  }

  /** Old audio, already covered by what was placed. */
  predicate TooOld(a: Audio, time: int) {
    a.end.Some? && time <= a.end.value - 120
  }

  function Filler(a: Audio, time: int, rate: int): seq<Sample> {
    if a.end.Some? && time - a.end.value <= rate then Fill(a.end.value, time - a.end.value) else []
  }

  /** Where the packet goes: right after what is there if that is within 120 ticks, else its own time. */
  function Spot(a: Audio, time: int, rate: int): int {
    if a.end.None? then time else
      var end := EndAfter(a.end.value, Filler(a, time, rate));
      if -120 < time - end < 120 then end else time
  }

  function EndAfter(end: int, filler: seq<Sample>): int {
    if filler == [] then end else End(filler[|filler| - 1])
  }

  /** The state once a packet of this time and duration is in. */
  function Insert(a: Audio, time: int, data: seq<byte>, duration: int, rate: int): Audio {
    var b := Audio(a.sent, a.samples + Filler(a, time, rate), a.end);
    var item := Sample(Spot(a, time, rate), duration, data);
    var c := if b.samples != [] && (a.end.None? || item.time != EndAfter(a.end.value, Filler(a, time, rate)))
             then Flush(b) else b;
    var d := Audio(c.sent, c.samples + [item], Some(End(item)));
    if |d.samples| >= 5 then Flush(d) else d
  }

  /** The audio branch of transform, for a frame whose unwrapped time and bytes are given. */
  function Received(a: Audio, time: int, data: seq<byte>, rate: int): Audio {
    if time < 0 || TooOld(a, time) || OpusDuration(data).None? then a
    else Insert(a, time, data, OpusDuration(data).value, rate)
  }

  // ----- filling

  /** `s` runs without a break from `start` to `stop`. */
  ghost predicate Chain(start: int, s: seq<Sample>, stop: int)
    decreases |s|
  {
    if s == [] then start == stop
    else s[0].time == start && s[0].duration > 0 && Chain(End(s[0]), s[1..], stop)
  }

  lemma {:induction false} ChainIsContiguous(start: int, s: seq<Sample>, stop: int)
    requires Chain(start, s, stop)
    ensures Contiguous(s) && start <= stop && stop == EndAfter(start, s)
    ensures forall i :: 0 <= i < |s| ==> start <= s[i].time && End(s[i]) <= stop
    decreases |s|
  {
    if s != [] {
      ChainIsContiguous(End(s[0]), s[1..], stop);
      assert s == [s[0]] + s[1..];
    }
  }

  lemma {:induction false} ContiguousIsChain(s: seq<Sample>)
    requires Contiguous(s) && s != []
    ensures Chain(s[0].time, s, End(s[|s| - 1]))
    decreases |s|
  {
    if |s| > 1 {
      ContiguousIsChain(s[1..]);
    }
  }

  lemma {:induction false} ChainAppend(start: int, s: seq<Sample>, middle: int, t: seq<Sample>, stop: int)
    requires Chain(start, s, middle) && Chain(middle, t, stop)
    ensures Chain(start, s + t, stop)
    decreases |s|
  {
    if s == [] {
      assert s + t == t;
    } else {
      ChainAppend(End(s[0]), s[1..], middle, t, stop);
      assert (s + t)[1..] == s[1..] + t;
    }
  }

  lemma SilenceDurations(size: nat)
    requires size <= 3
    ensures 1 <= Pow2(size) <= 8 && 120 <= Silence(0, size).duration <= 960
  {
    assert Pow2(0) == 1 && Pow2(1) == 2 && Pow2(2) == 4 && Pow2(3) == 8;
  }

  /** The loop leaves less than 120 ticks of the gap. */
  lemma {:induction false} FillCovers(end: int, gap: int) returns (left: int)
    requires gap >= 0
    ensures 0 <= left < 120 && left <= gap && Chain(end, Fill(end, gap), end + gap - left)
    decreases gap
  {
    if gap < 120 {
      left := gap;
    } else {
      var s := Silence(end, SilenceSize(gap));
      SilenceDurations(SilenceSize(gap));
      left := FillCovers(end + s.duration, gap - s.duration);
      assert Fill(end, gap)[1..] == Fill(end + s.duration, gap - s.duration);
    }
  }

  /** Every generated packet is silence of 2.5 to 20 ms that decodes to its recorded duration. */
  lemma {:induction false} FillIsSilence(end: int, gap: int, s: Sample)
    requires s in Fill(end, gap)
    ensures 120 <= s.duration <= 960 && OpusDuration(s.data) == Some(s.duration)
    decreases gap
  {
    var first := Silence(end, SilenceSize(gap));
    SilenceDurations(SilenceSize(gap));
    SilencePlaysItsDuration(end, SilenceSize(gap));
    if s != first {
      FillIsSilence(end + first.duration, gap - first.duration, s);
    }
  }

  // ----- one packet

  /** The filler runs on from the end, and the packet lands after it, within 120 ticks of its time. */
  lemma SpotIsClose(a: Audio, time: int, rate: int)
    requires a.end.Some? && !TooOld(a, time)
    ensures var f, spot := Filler(a, time, rate), Spot(a, time, rate);
            var end := EndAfter(a.end.value, f);
            && Chain(a.end.value, f, end)
            && -120 < spot - time < 120
            && end <= spot && (spot != end ==> f == [])
  {
    var gap := time - a.end.value;
    if 0 <= gap <= rate {
      var left := FillCovers(a.end.value, gap);
      ChainIsContiguous(a.end.value, Fill(a.end.value, gap), a.end.value + gap - left);
    }
  }

  lemma LaidAppend(s: seq<Sample>, end: int, t: seq<Sample>, start: int, stop: int)
    requires Laid(s, end) && end <= start && Chain(start, t, stop)
    ensures Laid(s + t, stop)
  {
    ChainIsContiguous(start, t, stop);
    ChainIsDisjoint(start, t, stop);
  }

  lemma {:induction false} ChainIsDisjoint(start: int, s: seq<Sample>, stop: int)
    requires Chain(start, s, stop)
    ensures Disjoint(s)
    decreases |s|
  {
    if s != [] {
      ChainIsDisjoint(End(s[0]), s[1..], stop);
      ChainIsContiguous(End(s[0]), s[1..], stop);
      assert s == [s[0]] + s[1..];
    }
  }

  lemma FlatAppend(sent: seq<seq<Sample>>, f: seq<Sample>)
    ensures Flat(sent + [f]) == Flat(sent) + f
  {
    assert (sent + [f])[..|sent|] == sent;
  }

  lemma FlushIsSound(sent: seq<seq<Sample>>, samples: seq<Sample>, end: int)
    requires Sound(sent, samples, end) && samples != []
    ensures Sound(sent + [samples], [], end)
  {
    FlatAppend(sent, samples);
    assert Flat(sent + [samples]) + [] == Flat(sent) + samples;
  }

  lemma OpenRunsOn(samples: seq<Sample>, end: int, t: seq<Sample>, stop: int)
    requires OpenUpTo(samples, end) && Chain(end, t, stop)
    ensures OpenUpTo(samples + t, stop)
  {
    if samples == [] {
      ChainIsContiguous(end, t, stop);
      assert samples + t == t;
    } else {
      ContiguousIsChain(samples);
      ChainAppend(samples[0].time, samples, end, t, stop);
      ChainIsContiguous(samples[0].time, samples + t, stop);
    }
  }

  lemma RunOnIsSound(sent: seq<seq<Sample>>, samples: seq<Sample>, end: int, t: seq<Sample>, stop: int)
    requires Sound(sent, samples, end) && Chain(end, t, stop)
    ensures Sound(sent, samples + t, stop)
  {
    OpenRunsOn(samples, end, t, stop);
    LaidAppend(Flat(sent) + samples, end, t, end, stop);
    assert Flat(sent) + (samples + t) == Flat(sent) + samples + t;
  }

  lemma Single(item: Sample)
    requires item.duration > 0
    ensures Chain(item.time, [item], End(item))
  {
    assert [item][1..] == [];
  }

  lemma StartAfresh(sent: seq<seq<Sample>>, end: int, item: Sample)
    requires Sound(sent, [], end) && end <= item.time && item.duration > 0
    ensures Sound(sent, [item], End(item))
  {
    Single(item);
    LaidAppend(Flat(sent) + [], end, [item], item.time, End(item));
    assert Flat(sent) + [] + [item] == Flat(sent) + [item];
  }

  /** Adding the packet where the open fragment ends, or in a fragment of its own. */
  lemma AddIsSound(sent: seq<seq<Sample>>, samples: seq<Sample>, end: int, item: Sample)
    requires Sound(sent, samples, end) && end <= item.time && item.duration > 0
    ensures var c := if samples != [] && item.time != end then Flush(Audio(sent, samples, Some(end)))
                     else Audio(sent, samples, Some(end));
            && Sound(c.sent, c.samples + [item], End(item))
            && Flat(c.sent) + (c.samples + [item]) == Flat(sent) + samples + [item]
  {
    if item.time == end {
      Single(item);
      RunOnIsSound(sent, samples, end, [item], End(item));
      assert Flat(sent) + (samples + [item]) == Flat(sent) + samples + [item];
    } else if samples == [] {
      StartAfresh(sent, end, item);
      assert [] + [item] == [item] && Flat(sent) + [] == Flat(sent);
    } else {
      FlushIsSound(sent, samples, end);
      StartAfresh(sent + [samples], end, item);
      FlatAppend(sent, samples);
      assert [] + [item] == [item];
    }
  }

  lemma InsertIsSound(a: Audio, time: int, data: seq<byte>, duration: int, rate: int)
    requires Good(a) && a.end.Some? && !TooOld(a, time) && duration > 0
    ensures Good(Insert(a, time, data, duration, rate))
    ensures Placed(Insert(a, time, data, duration, rate))
         == Placed(a) + Filler(a, time, rate) + [Sample(Spot(a, time, rate), duration, data)]
  {
    var f, item := Filler(a, time, rate), Sample(Spot(a, time, rate), duration, data);
    var end := EndAfter(a.end.value, f);
    SpotIsClose(a, time, rate);
    RunOnIsSound(a.sent, a.samples, a.end.value, f, end);
    AddIsSound(a.sent, a.samples + f, end, item);
    var c := if a.samples + f != [] && item.time != end then Flush(Audio(a.sent, a.samples + f, Some(end)))
             else Audio(a.sent, a.samples + f, Some(end));
    SendIfFull(c.sent, c.samples + [item], End(item));
    assert Flat(a.sent) + (a.samples + f) == Placed(a) + f;
  }

  lemma SendIfFull(sent: seq<seq<Sample>>, samples: seq<Sample>, end: int)
    requires Sound(sent, samples, end) && samples != []
    ensures var d := Audio(sent, samples, Some(end));
            var e := if |samples| >= 5 then Flush(d) else d;
            Good(e) && Placed(e) == Flat(sent) + samples
  {
    if |samples| >= 5 {
      FlushIsSound(sent, samples, end);
      FlatAppend(sent, samples);
    }
  }

  lemma FirstIsSound(a: Audio, time: int, data: seq<byte>, duration: int, rate: int)
    requires Good(a) && a.end.None? && duration > 0
    ensures Good(Insert(a, time, data, duration, rate))
    ensures Placed(Insert(a, time, data, duration, rate)) == [Sample(time, duration, data)]
  {
    var item := Sample(time, duration, data);
    assert Sound([], [], time) by { assert Flat([]) + [] == []; }
    StartAfresh([], time, item);
    assert a.samples + Filler(a, time, rate) == [];
    assert [] + [item] == [item];
  }

  lemma DurationIsPositive(data: seq<byte>)
    requires OpusDuration(data).Some?
    ensures 0 < OpusDuration(data).value <= 5760
  {
    assert Pow2(0) == 1 && Pow2(1) == 2 && Pow2(2) == 4 && Pow2(3) == 8;
    var f, c := FrameTicks(data[0]), FrameCount(data);
    assert f >= 120;
    assert f * c >= f;
  }

  /** The frames that are placed: not before the origin, not covered already, and proper Opus. */
  predicate Places(a: Audio, time: int, data: seq<byte>) {
    time >= 0 && !TooOld(a, time) && OpusDuration(data).Some?
  }

  /** Silence that continues the timeline is appended, and then the packet at `spot`. */
  ghost predicate PlacedAt(a: Audio, b: Audio, time: int, data: seq<byte>, rate: int, spot: int) {
    && OpusDuration(data).Some? && -120 < spot - time < 120
    && Placed(b) == Placed(a) + Filler(a, time, rate) + [Sample(spot, OpusDuration(data).value, data)]
  }

  /**
   * One frame: exactly the frames that are to be placed change anything, and each of them ends up
   * less than 120 ticks from its true time. What was placed stays.
   */
  lemma ReceivedPlacesPacket(a: Audio, time: int, data: seq<byte>, rate: int)
    requires Good(a)
    ensures var b := Received(a, time, data, rate);
            && Good(b)
            && (Places(a, time, data) ==> PlacedAt(a, b, time, data, rate, Spot(a, time, rate)))
            && (Places(a, time, data) <==> b != a)
  {
    if Places(a, time, data) {
      DurationIsPositive(data);
      var b := Received(a, time, data, rate);
      if a.end.Some? {
        InsertIsSound(a, time, data, OpusDuration(data).value, rate);
        SpotIsClose(a, time, rate);
      } else {
        FirstIsSound(a, time, data, OpusDuration(data).value, rate);
        assert Placed(a) + Filler(a, time, rate) == [];
      }
      assert PlacedAt(a, b, time, data, rate, Spot(a, time, rate));
      assert |Placed(b)| > |Placed(a)|;
    }
  }

  // ----- whole runs

  datatype Frame = Frame(time: int, data: seq<byte>)

  function ReceivedAll(a: Audio, run: seq<Frame>, rate: int): Audio
    decreases |run|
  {
    if run == [] then a else ReceivedAll(Received(a, run[0].time, run[0].data, rate), run[1..], rate)
  }

  const SILENT := Audio([], [], None)

  /** Whatever timestamps arrive: fragments are contiguous and nothing placed ever overlaps. */
  lemma {:induction false} TimelineNeverOverlaps(a: Audio, run: seq<Frame>, rate: int)
    requires Good(a)
    ensures var b := ReceivedAll(a, run, rate);
            && Good(b) && Disjoint(Placed(b))
            && (forall f :: f in b.sent ==> f != [] && Contiguous(f))
            && Placed(a) <= Placed(b)
    decreases |run|
  {
    if run == [] {
      assert a.end.None? ==> Placed(a) == [];
    } else {
      var c := Received(a, run[0].time, run[0].data, rate);
      ReceivedPlacesPacket(a, run[0].time, run[0].data, rate);
      TimelineNeverOverlaps(c, run[1..], rate);
    }
  }

  lemma {:induction false} ReceivedInParts(a: Audio, run: seq<Frame>, k: nat, rate: int)
    requires k <= |run|
    ensures ReceivedAll(a, run, rate) == ReceivedAll(ReceivedAll(a, run[..k], rate), run[k..], rate)
    decreases k
  {
    if k > 0 {
      ReceivedInParts(Received(a, run[0].time, run[0].data, rate), run[1..], k - 1, rate);
      assert run[..k][1..] == run[1..][..k - 1] && run[1..][k - 1..] == run[k..];
    } else {
      assert run[..0] == [] && run[0..] == run;
    }
  }

  /** Somewhere among `placed` lies the packet of `f`, less than 120 ticks from its frame's time. */
  ghost predicate LiesNear(placed: seq<Sample>, f: Frame) {
    exists i :: 0 <= i < |placed| && placed[i].data == f.data && OpusDuration(f.data) == Some(placed[i].duration)
                && -120 < placed[i].time - f.time < 120
  }

  /**
   * Over a whole run the error does not accumulate: every frame that was to be placed when it came is
   * on the final timeline, with its own data and duration, less than 120 ticks from its own time.
   */
  lemma EveryPacketLiesNearItsTime(a: Audio, run: seq<Frame>, k: nat, rate: int)
    requires Good(a) && k < |run|
    requires Places(ReceivedAll(a, run[..k], rate), run[k].time, run[k].data)
    ensures LiesNear(Placed(ReceivedAll(a, run, rate)), run[k])
  {
    var before, f := ReceivedAll(a, run[..k], rate), run[k];
    var after := Received(before, f.time, f.data, rate);
    ReceivedInParts(a, run, k, rate);
    TimelineNeverOverlaps(a, run[..k], rate);
    ReceivedPlacesPacket(before, f.time, f.data, rate);
    assert run[k..][0] == f && run[k..][1..] == run[k + 1..];
    TimelineNeverOverlaps(after, run[k + 1..], rate);
    var at := |Placed(after)| - 1;
    assert Placed(after)[at] == Sample(Spot(before, f.time, rate), OpusDuration(f.data).value, f.data);
    assert Placed(ReceivedAll(a, run, rate))[at] == Placed(after)[at];
  }

  /** The frame is neither ignored nor proper Opus, and ends the transform. */
  predicate Throws(a: Audio, f: Frame) {
    f.time >= 0 && !TooOld(a, f.time) && OpusDuration(f.data).None?
  }

  // ----- the transform, step by step

  lemma FillStep(end: int, gap: int, more: seq<Sample>)
    requires gap >= 120
    ensures var s := Silence(end, SilenceSize(gap));
            more + Fill(end, gap) == more + [s] + Fill(End(s), gap - s.duration)
  {
    var s := Silence(end, SilenceSize(gap));
    assert Fill(end, gap) == [s] + Fill(End(s), gap - s.duration);
  }

  /** The loop that fills a gap with silence, and the end of the audio after it. */
  method FillGap(start: int, time: int, rate: int) returns (filler: seq<Sample>, end: int)
    ensures filler == if time - start <= rate then Fill(start, time - start) else []
    ensures end == EndAfter(start, filler)
  {
    filler, end := [], start;
    var gap := time - end;
    while 120 <= gap <= rate
      invariant gap == time - end <= time - start && end == EndAfter(start, filler)
      invariant if time - start <= rate then Fill(start, time - start) == filler + Fill(end, gap) else filler == []
      decreases gap
    {
      var size := SilenceSize(gap);
      SilenceDurations(size);
      FillStep(end, gap, filler);
      filler := filler + [Silence(end, size)];
      end := end + 120 * Pow2(size);
      gap := time - end;
    }
  }

  class AudioTrack {
    const rate: int
    var sent: seq<seq<Sample>>
    var samples: seq<Sample>
    var audioEnd: Option<int>

    function View(): Audio
      reads this
    {
      Audio(sent, samples, audioEnd)
    }

    constructor (rate: int)
      ensures View() == SILENT && this.rate == rate
    {
      this.rate := rate;
      sent, samples, audioEnd := [], [], None;
    }

    method FlushSamples()
      modifies this
      ensures View() == Flush(old(View()))
    {
      sent := sent + [samples];
      samples := [];
    }

    /** Returns false where the source throws. */
    method Receive(time: int, data: seq<byte>) returns (ok: bool)
      modifies this
      ensures View() == Received(old(View()), time, data, rate)
      ensures ok == !Throws(old(View()), Frame(time, data))
    {
      if time < 0 || (audioEnd.Some? && time <= audioEnd.value - 120) {
        return true;
      }
      if OpusDuration(data).None? {
        return false;
      }
      var at := time;
      assert samples + [] == samples;
      if audioEnd.Some? {
        var filler, end := FillGap(audioEnd.value, time, rate);
        samples, audioEnd := samples + filler, Some(end);
        if -120 < time - audioEnd.value < 120 {
          at := audioEnd.value;
        }
      }
      if samples != [] && Some(at) != audioEnd {
        FlushSamples();
      }
      samples := samples + [Sample(at, OpusDuration(data).value, data)];
      audioEnd := Some(at + OpusDuration(data).value);
      if |samples| >= 5 {
        FlushSamples();
      }
      return true;
    }
  }

  /**
   * A new track is fed a run of frames up to the first that makes the transform throw. Whatever it has sent
   * and still collects never overlaps, and every fragment it sent is contiguous.
   */
  method ReceiveRun(run: seq<Frame>, rate: int) returns (track: AudioTrack, n: nat)
    ensures n <= |run| && track.View() == ReceivedAll(SILENT, run[..n], rate)
    ensures forall k :: 0 <= k < n ==> !Throws(ReceivedAll(SILENT, run[..k], rate), run[k])
    ensures n < |run| ==> Throws(track.View(), run[n])
    ensures Disjoint(Placed(track.View())) && forall f :: f in track.sent ==> f != [] && Contiguous(f)
  {
    track := new AudioTrack(rate);
    n := 0;
    var ok := true;
    while n < |run| && ok
      invariant fresh(track) && track.rate == rate && n <= |run|
      invariant track.View() == ReceivedAll(SILENT, run[..n], rate)
      invariant forall k :: 0 <= k < n ==> !Throws(ReceivedAll(SILENT, run[..k], rate), run[k])
      invariant !ok ==> n < |run| && Throws(track.View(), run[n])
      decreases |run| - n, ok
    {
      ok := track.Receive(run[n].time, run[n].data);
      if ok {
        ReceivedInParts(SILENT, run[..n + 1], n, rate);
        assert run[..n + 1][..n] == run[..n] && run[..n + 1][n..] == [run[n]];
        assert [run[n]][1..] == [];
        n := n + 1;
      }
    }
    TimelineNeverOverlaps(SILENT, run[..n], rate);
  }
}
