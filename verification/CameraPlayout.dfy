/**
 * Everything that happens to the tracks of one camera, as values: tracks are created, registered
 * with the camera's stream and released (internal/relay/relay.go), packets are pushed and popped,
 * the shared delay is configured, stepped and jumped, and the clocks are corrected. Each track
 * has a book of the packets it accepted and gave out.
 */
module CameraPlayout {
  import opened Basics
  import opened Bytes
  import opened RtpClock
  import opened PlayoutHeap
  import opened DelayController
  import opened PlayoutTrack
  import opened StreamClocks

  /** Packets pushed while the track was open, and packets popped. */
  datatype Book = Book(accepted: nat, taken: nat)

  /** The registered tracks are those of `clocks`; the others are not registered yet, or no longer. */
  datatype Camera = Camera(
    clocks: Clocks,
    books: seq<Book>,
    loose: seq<Track>,
    looseBooks: seq<Book>,
    control: Control,
    lastAdjust: int)

  const EMPTY := Camera(Clocks([], 0, 0, 0.0, 0), [], [], [], FRESH, 0)

  datatype Place = Registered(index: nat) | Loose(index: nat)

  datatype Op =
    | Create(target: int, rate: Rate, keyframes: bool)
    | Register(index: nat)                              // Relay.Track
    | Release(index: nat)                               // Relay.Untrack
    | Arrive(place: Place, pkt: RtpPacket, now: int)
    | Take(place: Place, now: int, held: bool)
    | Sender(place: Place, timestamp: uint32, ntp: uint64)
    | Shut(place: Place, now: int)
    | Adjust(now: int)                                  // Stream.adjustDelay
    | Configure(now: int, target: int, options: Options) // Relay.ConfigureDelay
    | Correct(now: int)                                 // Stream.correctClocks
    // the same three, region by region: other operations may come between two buffers
    | Sample(index: nat, now: int)                      // a turn of adjustDelay's loop
    | StepControl(now: int, late: int)                  // and the step that ends it
    | ConfigureControl(now: int, target: int, options: Options)
    | RetargetOne(index: nat, target: int)              // the two regions of a turn of ConfigureDelay's loop
    | AttachOne(index: nat, changed: bool)
    | CatchUp(index: nat, now: int)                     // a turn of correctClocks' first loop
    | Realign(now: int)                                 // and what it does once all buffers are locked

  predicate OfTurn(op: Op) {
    op.Sample? || op.RetargetOne? || op.AttachOne? || op.CatchUp?
  }

  predicate OfPart(op: Op) {
    op.StepControl? || op.ConfigureControl? || op.Realign?
  }

  predicate Matched(c: Camera) {
    |c.books| == |c.clocks.tracks| && |c.looseBooks| == |c.loose|
  }

  predicate Has(c: Camera, p: Place) {
    if p.Registered? then p.index < |c.clocks.tracks| else p.index < |c.loose|
  }

  function TrackAt(c: Camera, p: Place): Track
    requires Has(c, p)
  {
    if p.Registered? then c.clocks.tracks[p.index] else c.loose[p.index]
  }

  function BookAt(c: Camera, p: Place): Book
    requires Matched(c) && Has(c, p)
  {
    if p.Registered? then c.books[p.index] else c.looseBooks[p.index]
  }

  function Put(c: Camera, p: Place, t: Track, b: Book): Camera
    requires Matched(c) && Has(c, p)
  {
    if p.Registered?
    then c.(clocks := c.clocks.(tracks := c.clocks.tracks[p.index := t]), books := c.books[p.index := b])
    else c.(loose := c.loose[p.index := t], looseBooks := c.looseBooks[p.index := b])
  }

  /** Nothing but the track at `p`, and perhaps the controller, is different. */
  ghost predicate OnlyAt(before: Camera, after: Camera, p: Place) {
    && |after.clocks.tracks| == |before.clocks.tracks| && |after.loose| == |before.loose|
    && after.clocks == before.clocks.(tracks := after.clocks.tracks)
    && after.books == before.books && after.looseBooks == before.looseBooks && after.lastAdjust == before.lastAdjust
    && (forall k :: 0 <= k < |before.clocks.tracks| && p != Registered(k) ==>
                      after.clocks.tracks[k] == before.clocks.tracks[k])
    && (forall k :: 0 <= k < |before.loose| && p != Loose(k) ==> after.loose[k] == before.loose[k])
  }

  lemma OnlyAtIsPut(before: Camera, after: Camera, p: Place)
    requires Matched(before) && Has(before, p) && OnlyAt(before, after, p)
    ensures Has(after, p)
    ensures after == Put(before, p, TrackAt(after, p), BookAt(before, p)).(control := after.control)
  {
    if p.Registered? {
      assert after.clocks.tracks == before.clocks.tracks[p.index := after.clocks.tracks[p.index]];
      assert after.loose == before.loose;
    } else {
      assert after.loose == before.loose[p.index := after.loose[p.index]];
      assert after.clocks.tracks == before.clocks.tracks;
    }
  }

  lemma PutTwice(c: Camera, p: Place, t: Track, b: Book, book: Book)
    requires Matched(c) && Has(c, p)
    ensures var d := Put(c, p, t, b);
            Matched(d) && Has(d, p) && TrackAt(d, p) == t && BookAt(d, p) == b
              && Put(d, p, t, book) == Put(c, p, t, book)
  {
    var d := Put(c, p, t, b);
    if p.Registered? {
      assert d.clocks.tracks[p.index := t] == d.clocks.tracks && d.books[p.index := book] == c.books[p.index := book];
    } else {
      assert d.loose[p.index := t] == d.loose && d.looseBooks[p.index := book] == c.looseBooks[p.index := book];
    }
  }

  // ----- one track

  /** Track: the new buffer joins the last recovery, and the shared curve where it stands. */
  function Joined(t: Track, recoveryAt: int, state: Option<Curve>): Track {
    t.(recoveryAt := recoveryAt,
       jump := if state.Some? then Jump(true, state.value.shift, state.value.cutoff) else t.jump)
  }

  /** ConfigureDelay, for one buffer, under the curve the controller has after it. */
  function Reconfigured(t: Track, target: int, changed: bool, state: Option<Curve>): Track {
    Attached(t.Retargeted(target), changed, state)
  }

  /** The region of it after SetTarget. */
  function Attached(u: Track, changed: bool, state: Option<Curve>): Track {
    u.(lateness := if changed then u.lateness.(peak := 0) else u.lateness,
       jump := if state.Some? && !u.jump.dynamic then Jump(true, state.value.shift, state.value.cutoff) else u.jump)
  }

  /** A registered track after its turn in one of the loops over the stream. */
  function Turned(t: Track, op: Op, state: Option<Curve>): Track
    requires OfTurn(op)
  {
    match op
    case Sample(_, _) => Sampled(t, state)
    case RetargetOne(_, target) => t.Retargeted(target)
    case AttachOne(_, changed) => Attached(t, changed, state)
    case CatchUp(_, _) => t.Observe(state)
  }

  /** adjustDelay, for one buffer: it catches up, and its lateness has been sampled. */
  function Sampled(t: Track, state: Option<Curve>): Track {
    var u := t.Observe(state);
    u.(lateness := u.lateness.(peak := 0))
  }

  function SampledTracks(tracks: seq<Track>, state: Option<Curve>): (r: seq<Track>)
    ensures |r| == |tracks| && forall i :: 0 <= i < |tracks| ==> r[i] == Sampled(tracks[i], state)
  {
    seq(|tracks|, i requires 0 <= i < |tracks| => Sampled(tracks[i], state))
  }

  function ReconfiguredTracks(tracks: seq<Track>, target: int, changed: bool, state: Option<Curve>): (r: seq<Track>)
    ensures |r| == |tracks|
    ensures forall i :: 0 <= i < |tracks| ==> r[i] == Reconfigured(tracks[i], target, changed, state)
  {
    seq(|tracks|, i requires 0 <= i < |tracks| => Reconfigured(tracks[i], target, changed, state))
  }

  /** The worst lateness of the first n tracks, or zero. */
  function PeakLate(tracks: seq<Track>, n: nat): int
    requires n <= |tracks|
  {
    if n == 0 then 0 else Max(PeakLate(tracks, n - 1), tracks[n - 1].lateness.peak)
  }

  // ----- the camera

  function Adjusted(c: Camera, now: int): Camera {
    if c.control.state.None? || now - c.lastAdjust < SECOND then c else SteppedDelay(c, now).(lastAdjust := now)
  }

  /** Every registered track has caught up and been sampled. */
  function SampledCamera(c: Camera): Camera {
    c.(clocks := c.clocks.(tracks := SampledTracks(c.clocks.tracks, c.control.state)))
  }

  /** The sample: the worst lateness of any of them. */
  function LateOf(c: Camera): int {
    PeakLate(ObservedTracks(c.clocks.tracks, c.control.state), |c.clocks.tracks|)
  }

  function SteppedDelay(c: Camera, now: int): Camera {
    SampledCamera(c).(control := c.control.Stepped(now, LateOf(c)))
  }

  function ConfiguredDelay(c: Camera, now: int, target: int, options: Options): Camera {
    var control, changed := c.control.Configured(target, options, now), c.control.Relays(target, options);
    c.(control := control,
       clocks := c.clocks.(tracks := ReconfiguredTracks(c.clocks.tracks, target, changed, control.state)))
  }

  function Arrives(c: Camera, p: Place, pkt: RtpPacket, now: int): Camera
    requires Matched(c) && Has(c, p)
  {
    var t, b := TrackAt(c, p), BookAt(c, p);
    var book := if t.closed then b else b.(accepted := b.accepted + 1);
    Put(c, p, t.Arrived(pkt, now, c.control), book).(control := t.ControlAfter(pkt, now, c.control))
  }

  function Takes(c: Camera, p: Place, now: int, held: bool): Camera
    requires Matched(c) && Has(c, p)
  {
    var t, b := TrackAt(c, p), BookAt(c, p);
    var book := if t.TakenFrom(now, c.control.state, held).Packet? then b.(taken := b.taken + 1) else b;
    Put(c, p, t.Taken(now, c.control.state, held), book)
  }

  /** Changing the track and the controller first and the book afterwards is doing all at once. */
  lemma PutThenBook(c: Camera, middle: Camera, p: Place, t: Track, k: Control, next: Book)
    requires Matched(c) && Has(c, p) && middle == Put(c, p, t, BookAt(c, p)).(control := k)
    ensures Matched(middle) && Has(middle, p)
    ensures Put(middle, p, TrackAt(middle, p), next) == Put(c, p, t, next).(control := k)
  {
    PutTwice(c, p, t, BookAt(c, p), next);
  }

  lemma ArrivesIs(c: Camera, p: Place, pkt: RtpPacket, now: int, t: Track, k: Control, next: Book)
    requires Matched(c) && Has(c, p)
    requires t == TrackAt(c, p).Arrived(pkt, now, c.control) && k == TrackAt(c, p).ControlAfter(pkt, now, c.control)
    requires next == if TrackAt(c, p).closed then BookAt(c, p) else BookAt(c, p).(accepted := BookAt(c, p).accepted + 1)
    ensures Arrives(c, p, pkt, now) == Put(c, p, t, next).(control := k)
  {
  }

  lemma TakesIs(c: Camera, p: Place, now: int, held: bool, t: Track, next: Book)
    requires Matched(c) && Has(c, p) && t == TrackAt(c, p).Taken(now, c.control.state, held)
    requires next == if TrackAt(c, p).TakenFrom(now, c.control.state, held).Packet?
                     then BookAt(c, p).(taken := BookAt(c, p).taken + 1) else BookAt(c, p)
    ensures Takes(c, p, now, held) == Put(c, p, t, next).(control := c.control)
  {
  }

  function Registers(c: Camera, i: nat): Camera
    requires Matched(c) && i < |c.loose|
  {
    var t := Joined(c.loose[i], c.clocks.recoveryAt, c.control.state);
    MovedIn(c.(loose := c.loose[i := t]), i)
  }

  /** The loose track joins the registered ones. */
  function MovedIn(c: Camera, i: nat): Camera
    requires Matched(c) && i < |c.loose|
  {
    c.(clocks := c.clocks.(tracks := c.clocks.tracks + [c.loose[i]]), books := c.books + [c.looseBooks[i]],
       loose := Without(c.loose, i), looseBooks := Without(c.looseBooks, i))
  }

  function Releases(c: Camera, i: nat): Camera
    requires Matched(c) && i < |c.clocks.tracks|
  {
    c.(clocks := c.clocks.(tracks := Without(c.clocks.tracks, i)), books := Without(c.books, i),
       loose := c.loose + [c.clocks.tracks[i]], looseBooks := c.looseBooks + [c.books[i]])
  }

  function Without<T>(s: seq<T>, i: nat): (r: seq<T>)
    requires i < |s|
    ensures |r| == |s| - 1
  {
    s[..i] + s[i + 1..]
  }

  predicate OfMember(op: Op) {
    op.Create? || op.Register? || op.Release?
  }

  predicate OfTrack(op: Op) {
    op.Arrive? || op.Take? || op.Sender? || op.Shut?
  }

  predicate OfStream(op: Op) {
    op.Adjust? || op.Configure? || op.Correct?
  }

  function NextMember(c: Camera, op: Op): Camera
    requires Matched(c) && OfMember(op)
  {
    match op
    case Create(target, rate, keyframes) =>
      c.(loose := c.loose + [NewTrack(target, rate, keyframes)], looseBooks := c.looseBooks + [Book(0, 0)])
    case Register(i) => if i < |c.loose| then Registers(c, i) else c
    case Release(i) => if i < |c.clocks.tracks| then Releases(c, i) else c
  }

  function NextTrack(c: Camera, op: Op): Camera
    requires Matched(c) && OfTrack(op)
  {
    if !Has(c, op.place) then c else
      match op
      case Arrive(p, pkt, now) => Arrives(c, p, pkt, now)
      case Take(p, now, held) => Takes(c, p, now, held)
      case Sender(p, timestamp, ntp) => Put(c, p, TrackAt(c, p).Reported(timestamp, ntp), BookAt(c, p))
      case Shut(p, now) => Put(c, p, TrackAt(c, p).Closed(now), BookAt(c, p))
  }

  function NextStream(c: Camera, op: Op): Camera
    requires OfStream(op)
  {
    match op
    case Adjust(now) => Adjusted(c, now)
    case Configure(now, target, options) => ConfiguredDelay(c, now, target, options)
    case Correct(now) => CorrectedCamera(c, now)
  }

  function CorrectedCamera(c: Camera, now: int): Camera {
    c.(clocks := CorrectClocks(c.clocks, c.control.state, now))
  }

  function NextPart(c: Camera, op: Op): Camera
    requires OfPart(op)
  {
    match op
    case StepControl(now, late) => c.(control := c.control.Stepped(now, late))
    case ConfigureControl(now, target, options) => c.(control := c.control.Configured(target, options, now))
    case Realign(now) => c.(clocks := Realigned(c.clocks, now))
  }

  function NextTurn(c: Camera, op: Op): Camera
    requires Matched(c) && OfTurn(op)
  {
    var p := Registered(op.index);
    if Has(c, p) then Put(c, p, Turned(TrackAt(c, p), op, c.control.state), BookAt(c, p)) else c
  }

  /** An operation on a track that does not exist does nothing. */
  function Next(c: Camera, op: Op): Camera
    requires Matched(c)
  {
    if OfMember(op) then NextMember(c, op)
    else if OfTrack(op) then NextTrack(c, op)
    else if OfStream(op) then NextStream(c, op)
    else if OfPart(op) then NextPart(c, op)
    else NextTurn(c, op)
  }

  // ----- the books balance

  /** Every packet the track accepted was given out, was discarded or is queued. */
  ghost predicate Balanced(t: Track, b: Book) {
    t.line.Ok() && b.accepted == b.taken + t.line.dropped + |t.line.queue|
  }

  ghost predicate AllBalanced(tracks: seq<Track>, books: seq<Book>) {
    |books| == |tracks| && forall i :: 0 <= i < |tracks| ==> Balanced(tracks[i], books[i])
  }

  ghost predicate Accounted(c: Camera) {
    AllBalanced(c.clocks.tracks, c.books) && AllBalanced(c.loose, c.looseBooks)
  }

  lemma MovesBalance(t: Track, u: Track, b: Book, book: Book)
    requires Balanced(t, b) && Moves(t.line, u.line, (book.accepted - b.accepted) - (book.taken - b.taken))
    ensures Balanced(u, book)
  {
  }

  lemma PutBalances(c: Camera, p: Place, t: Track, b: Book)
    requires Accounted(c) && Has(c, p) && Balanced(t, b)
    ensures Accounted(Put(c, p, t, b))
  {
  }

  lemma BalancedAt(c: Camera, p: Place)
    requires Accounted(c) && Has(c, p)
    ensures Balanced(TrackAt(c, p), BookAt(c, p))
  {
  }

  lemma ArrivalBalances(c: Camera, p: Place, pkt: RtpPacket, now: int)
    requires Accounted(c) && Has(c, p)
    ensures Accounted(Arrives(c, p, pkt, now))
  {
    var t, b := TrackAt(c, p), BookAt(c, p);
    var book := if t.closed then b else b.(accepted := b.accepted + 1);
    BalancedAt(c, p);
    ArrivedMoves(t, pkt, now, c.control);
    MovesBalance(t, t.Arrived(pkt, now, c.control), b, book);
    PutBalances(c, p, t.Arrived(pkt, now, c.control), book);
  }

  lemma TakingBalances(c: Camera, p: Place, now: int, held: bool)
    requires Accounted(c) && Has(c, p)
    ensures Accounted(Takes(c, p, now, held))
  {
    var t, b, state := TrackAt(c, p), BookAt(c, p), c.control.state;
    var book := if t.TakenFrom(now, state, held).Packet? then b.(taken := b.taken + 1) else b;
    BalancedAt(c, p);
    TakenMoves(t, now, state, held);
    MovesBalance(t, t.Taken(now, state, held), b, book);
    PutBalances(c, p, t.Taken(now, state, held), book);
  }

  lemma ReportOrCloseBalances(c: Camera, p: Place, timestamp: uint32, ntp: uint64, now: int)
    requires Accounted(c) && Has(c, p)
    ensures Accounted(Put(c, p, TrackAt(c, p).Reported(timestamp, ntp), BookAt(c, p)))
    ensures Accounted(Put(c, p, TrackAt(c, p).Closed(now), BookAt(c, p)))
  {
    var t, b := TrackAt(c, p), BookAt(c, p);
    BalancedAt(c, p);
    ClockMoves(t, 0, false, 0, now);
    MovesBalance(t, t.Closed(now), b, b);
    PutBalances(c, p, t.Closed(now), b);
    PutBalances(c, p, t.Reported(timestamp, ntp), b);
  }

  /** The operations on the whole stream change no book. */
  lemma StreamMoves(t: Track, target: int, changed: bool, state: Option<Curve>)
    ensures Moves(t.line, Sampled(t, state).line, 0) && Moves(t.line, Reconfigured(t, target, changed, state).line, 0)
  {
    ObserveMoves(t, state);
    ClockMoves(t, 0, false, target, 0);
  }

  lemma AllMoveBalance(before: seq<Track>, after: seq<Track>, books: seq<Book>)
    requires AllBalanced(before, books) && |after| == |before|
    requires forall i :: 0 <= i < |before| ==> Moves(before[i].line, after[i].line, 0)
    ensures AllBalanced(after, books)
  {
    forall i | 0 <= i < |after| ensures Balanced(after[i], books[i]) {
      assert Moves(before[i].line, after[i].line, 0);
      MovesBalance(before[i], after[i], books[i], books[i]);
    }
  }

  lemma AdjustBalances(c: Camera, now: int)
    requires Accounted(c)
    ensures Accounted(Adjusted(c, now))
  {
    var tracks, state := c.clocks.tracks, c.control.state;
    forall i | 0 <= i < |tracks| ensures Moves(tracks[i].line, Sampled(tracks[i], state).line, 0) {
      StreamMoves(tracks[i], 0, false, state);
    }
    AllMoveBalance(tracks, SampledTracks(tracks, state), c.books);
  }

  lemma ConfigureBalances(c: Camera, now: int, target: int, options: Options)
    requires Accounted(c)
    ensures Accounted(ConfiguredDelay(c, now, target, options))
  {
    var tracks, state := c.clocks.tracks, c.control.Configured(target, options, now).state;
    var changed := c.control.Relays(target, options);
    forall i | 0 <= i < |tracks| ensures Moves(tracks[i].line, Reconfigured(tracks[i], target, changed,
      state).line, 0) {
      StreamMoves(tracks[i], target, changed, state);
    }
    AllMoveBalance(tracks, ReconfiguredTracks(tracks, target, changed, state), c.books);
  }

  lemma CorrectionKeepsCount(s: Clocks, state: Option<Curve>, now: int)
    ensures |CorrectClocks(s, state, now).tracks| == |s.tracks|
  {
    var a := Observed(s, state);
    var b := MaybeAligned(a);
    assert |b.tracks| == |s.tracks|;
  }

  lemma CorrectBalances(c: Camera, now: int)
    requires Accounted(c)
    ensures Accounted(CorrectedCamera(c, now))
  {
    var tracks, after := c.clocks.tracks, CorrectClocks(c.clocks, c.control.state, now).tracks;
    CorrectionKeepsCount(c.clocks, c.control.state, now);
    forall i | 0 <= i < |tracks| ensures Moves(tracks[i].line, after[i].line, 0) {
      CorrectClocksConserves(c.clocks, c.control.state, now, i);
    }
    AllMoveBalance(tracks, after, c.books);
  }

  lemma RealignBalances(c: Camera, now: int)
    requires Accounted(c)
    ensures Accounted(c.(clocks := Realigned(c.clocks, now)))
  {
    var tracks, after := c.clocks.tracks, Realigned(c.clocks, now).tracks;
    assert |MaybeAligned(c.clocks).tracks| == |tracks|;
    assert |after| == |tracks|;
    forall i | 0 <= i < |tracks| ensures Moves(tracks[i].line, after[i].line, 0) {
      RealignedConserves(c.clocks, now, i);
    }
    AllMoveBalance(tracks, after, c.books);
  }

  lemma TurnMoves(t: Track, op: Op, state: Option<Curve>)
    requires OfTurn(op)
    ensures Moves(t.line, Turned(t, op, state).line, 0)
  {
    if op.RetargetOne? {
      ClockMoves(t, 0, false, op.target, 0);
    } else {
      ObserveMoves(t, state);
    }
  }

  lemma TurnBalances(c: Camera, op: Op)
    requires Accounted(c) && OfTurn(op)
    ensures Accounted(NextTurn(c, op))
  {
    var p := Registered(op.index);
    if Has(c, p) {
      var t, b := TrackAt(c, p), BookAt(c, p);
      BalancedAt(c, p);
      TurnMoves(t, op, c.control.state);
      MovesBalance(t, Turned(t, op, c.control.state), b, b);
      PutBalances(c, p, Turned(t, op, c.control.state), b);
    }
  }

  lemma RegisterBalances(c: Camera, i: nat)
    requires Accounted(c)
    ensures i < |c.loose| ==> Accounted(Registers(c, i))
    ensures i < |c.clocks.tracks| ==> Accounted(Releases(c, i))
  {
  }

  lemma MemberBalances(c: Camera, op: Op)
    requires Accounted(c) && OfMember(op)
    ensures Accounted(NextMember(c, op))
  {
    match op
    case Create(target, rate, keyframes) => assert Heap([]);
    case Register(i) => RegisterBalances(c, i);
    case Release(i) => RegisterBalances(c, i);
  }

  lemma TrackBalances(c: Camera, op: Op)
    requires Accounted(c) && OfTrack(op)
    ensures Accounted(NextTrack(c, op))
  {
    if Has(c, op.place) {
      match op
      case Arrive(p, pkt, now) => ArrivalBalances(c, p, pkt, now);
      case Take(p, now, held) => TakingBalances(c, p, now, held);
      case Sender(p, timestamp, ntp) => ReportOrCloseBalances(c, p, timestamp, ntp, 0);
      case Shut(p, now) => ReportOrCloseBalances(c, p, 0, 0, now);
    }
  }

  lemma StreamBalances(c: Camera, op: Op)
    requires Accounted(c) && OfStream(op)
    ensures Accounted(NextStream(c, op))
  {
    match op
    case Adjust(now) => AdjustBalances(c, now);
    case Configure(now, target, options) => ConfigureBalances(c, now, target, options);
    case Correct(now) => CorrectBalances(c, now);
  }

  lemma PartBalances(c: Camera, op: Op)
    requires Accounted(c) && OfPart(op)
    ensures Accounted(NextPart(c, op))
  {
    if op.Realign? {
      RealignBalances(c, op.now);
    }
  }

  /** Every operation keeps every book balanced. */
  lemma StepBalances(c: Camera, op: Op)
    requires Accounted(c)
    ensures Accounted(Next(c, op))
  {
    if OfMember(op) {
      MemberBalances(c, op);
    } else if OfTrack(op) {
      TrackBalances(c, op);
    } else if OfStream(op) {
      StreamBalances(c, op);
    } else if OfPart(op) {
      PartBalances(c, op);
    } else {
      TurnBalances(c, op);
    }
  }

  // ----- whole runs

  function Played(c: Camera, run: seq<Op>): (d: Camera)
    requires Accounted(c)
    ensures Accounted(d)
  {
    if run == [] then c else
      var before := Played(c, run[..|run| - 1]);
      StepBalances(before, run[|run| - 1]);
      Next(before, run[|run| - 1])
  }

  /**
   * From an empty camera, whatever is created, registered, pushed, popped, reported, configured,
   * stepped, jumped, corrected, closed and released, in whatever order: on every track, registered or
   * not, packets accepted are packets given out, discarded and queued, and the queue is a heap.
   */
  lemma EveryPacketIsAccounted(run: seq<Op>, p: Place)
    ensures Accounted(EMPTY)
    ensures var c := Played(EMPTY, run);
            Has(c, p) ==>
              var line, book := TrackAt(c, p).line, BookAt(c, p);
              book.accepted == book.taken + line.dropped + |line.queue| && Heap(line.queue)
  {
    var c := Played(EMPTY, run);
    if Has(c, p) {
      BalancedAt(c, p);
    }
  }

  // ----- what runs come to

  /** A track follows the curve from where that stands: it takes over its last jump, and applies only later ones. */
  predicate Follows(t: Track, curve: Curve) {
    t.jump == Jump(true, curve.shift, curve.cutoff)
  }

  /** Under a curve a track that is registered follows it, and enabling a curve reaches those that did not. */
  lemma RegisteredTracksFollowTheCurve(c: Camera, i: nat, now: int, target: int, options: Options)
    requires Matched(c)
    ensures i < |c.loose| && c.control.state.Some? ==>
              var d := Next(c, Register(i));
              Follows(d.clocks.tracks[|c.clocks.tracks|], c.control.state.value)
    ensures options.enabled && i < |c.clocks.tracks| && !c.clocks.tracks[i].jump.dynamic ==>
              var d := Next(c, Configure(now, target, options));
              d.control.state.Some? ==> Follows(d.clocks.tracks[i], d.control.state.value)
  {
  }
}
