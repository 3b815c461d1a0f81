/**
 * The playout of one camera on its objects: a Stream, the Controller its buffers share, and the
 * buffers that are not registered yet or no longer. Every operation is proved against
 * `CameraPlayout.Next`, so what is proved of its runs holds of the objects.
 */
module PlayoutRun {
  import opened Bytes
  import opened RtpClock
  import opened PlayoutHeap
  import opened DelayController
  import opened PlayoutTrack
  import opened StreamClocks
  import opened CameraPlayout
  import opened PlayoutBuffer

  /** No buffer is in both lists, nor twice in one. */
  ghost predicate Apart(a: seq<Buffer>, b: seq<Buffer>) {
    && Distinct(a) && Distinct(b)
    && (forall i, j :: 0 <= i < |a| && 0 <= j < |b| ==> a[i] != b[j])
  }

  /** Moving a buffer from one list to the end of the other keeps them apart. */
  lemma MoveKeepsApart(a: seq<Buffer>, b: seq<Buffer>, i: nat)
    requires Apart(a, b) && i < |b|
    ensures Apart(a + [b[i]], Without(b, i)) && Apart(Without(b, i), a + [b[i]])
    ensures forall x :: x in a + [b[i]] || x in Without(b, i) <==> x in a || x in b
  {
    var rest := Without(b, i);
    assert forall k :: 0 <= k < |rest| ==> rest[k] == if k < i then b[k] else b[k + 1];
    assert b == b[..i] + [b[i]] + b[i + 1..];
  }

  class Playout {
    const stream: Stream
    const delay: Controller
    var loose: seq<Buffer>
    var books: seq<Book>
    var looseBooks: seq<Book>
    var lastAdjust: int

    /** No buffer is in two places. */
    ghost predicate Valid()
      reads this`loose, stream`buffers
    {
      Apart(stream.buffers, loose)
    }

    ghost function View(): Camera
      reads this, stream, stream.buffers, loose, delay
    {
      Camera(stream.View(), books, Views(loose), looseBooks, delay.View(), lastAdjust)
    }

    /** This object and all it is made of. */
    ghost function Owned(): set<object>
      reads this`loose, stream`buffers
    {
      {this, stream, delay} + (set b | b in stream.buffers) + (set b | b in loose)
    }

    constructor ()
      ensures Valid() && View() == EMPTY && fresh(Owned())
    {
      stream := new Stream([]);
      delay := new Controller();
      loose, books, looseBooks, lastAdjust := [], [], [], 0;
    }

    // ----- one track

    method BufferAt(p: Place) returns (b: Buffer)
      requires Has(View(), p)
      ensures b == if p.Registered? then stream.buffers[p.index] else loose[p.index]
      ensures b.View() == TrackAt(View(), p)
    {
      b := if p.Registered? then stream.buffers[p.index] else loose[p.index];
    }

    method BookOf(p: Place) returns (book: Book)
      requires Matched(View()) && Has(View(), p)
      ensures book == BookAt(View(), p)
    {
      book := if p.Registered? then books[p.index] else looseBooks[p.index];
    }

    method Record(p: Place, book: Book)
      requires Matched(View()) && Has(View(), p)
      modifies this`books, this`looseBooks
      ensures View() == Put(old(View()), p, TrackAt(old(View()), p), book)
    {
      if p.Registered? {
        books := books[p.index := book];
        assert Views(stream.buffers)[p.index := Views(stream.buffers)[p.index]] == Views(stream.buffers);
      } else {
        looseBooks := looseBooks[p.index := book];
        assert Views(loose)[p.index := Views(loose)[p.index]] == Views(loose);
      }
    }

    /** The book of a track that has just been changed, and perhaps the controller with it. */
    method BookLater(p: Place, next: Book, ghost c: Camera, ghost t: Track, ghost k: Control)
      requires Matched(c) && Has(c, p) && View() == Put(c, p, t, BookAt(c, p)).(control := k)
      modifies this`books, this`looseBooks
      ensures View() == Put(c, p, t, next).(control := k)
    {
      PutThenBook(c, View(), p, t, k, next);
      Record(p, next);
    }

    method PushOnly(p: Place, pkt: RtpPacket, now: int)
      requires Valid() && Has(View(), p) && TrackAt(View(), p).line.Ok()
      modifies stream.buffers, loose, delay
      ensures OnlyAt(old(View()), View(), p) && Has(View(), p)
      ensures TrackAt(View(), p) == TrackAt(old(View()), p).Arrived(pkt, now, old(View()).control)
      ensures View().control == TrackAt(old(View()), p).ControlAfter(pkt, now, old(View()).control)
    {
      var b := BufferAt(p);
      b.Push(pkt, now, delay);
    }

    /** A push at the buffer in one place; the books follow later. */
    method PushAt(p: Place, pkt: RtpPacket, now: int) returns (ghost t: Track, ghost k: Control)
      requires Valid() && Matched(View()) && Has(View(), p) && TrackAt(View(), p).line.Ok()
      modifies stream.buffers, loose, delay
      ensures t == TrackAt(old(View()), p).Arrived(pkt, now, old(View()).control)
      ensures k == TrackAt(old(View()), p).ControlAfter(pkt, now, old(View()).control)
      ensures View() == Put(old(View()), p, t, BookAt(old(View()), p)).(control := k)
    {
      ghost var c := View();
      PushOnly(p, pkt, now);
      ghost var d := View();
      t, k := TrackAt(d, p), d.control;
      OnlyAtIsPut(c, d, p);
    }

    method Arrive(p: Place, pkt: RtpPacket, now: int)
      requires Valid() && Accounted(View()) && Has(View(), p)
      modifies this`books, this`looseBooks, stream.buffers, loose, delay
      ensures View() == Arrives(old(View()), p, pkt, now)
    {
      ghost var c := View();
      BalancedAt(c, p);
      var b := BufferAt(p);
      var book := BookOf(p);
      var next := if b.closed then book else book.(accepted := book.accepted + 1);
      ghost var t, k := PushAt(p, pkt, now);
      ArrivesIs(c, p, pkt, now, t, k, next);
      BookLater(p, next, c, t, k);
    }

    method PopOnly(p: Place, now: int, held: bool) returns (r: PopResult, ghost t: Track)
      requires Valid() && Has(View(), p) && TrackAt(View(), p).line.Ok()
      modifies stream.buffers, loose
      ensures r == TrackAt(old(View()), p).TakenFrom(now, old(View()).control.state, held)
      ensures t == TrackAt(old(View()), p).Taken(now, old(View()).control.state, held)
      ensures OnlyAt(old(View()), View(), p) && Has(View(), p) && TrackAt(View(), p) == t
      ensures View().control == old(View()).control
    {
      var b := BufferAt(p);
      r := b.Pop(now, delay.state, held);
      t := b.View();
    }

    method PopAt(p: Place, now: int, held: bool) returns (r: PopResult, ghost t: Track)
      requires Valid() && Matched(View()) && Has(View(), p) && TrackAt(View(), p).line.Ok()
      modifies stream.buffers, loose
      ensures r == TrackAt(old(View()), p).TakenFrom(now, old(View()).control.state, held)
      ensures t == TrackAt(old(View()), p).Taken(now, old(View()).control.state, held)
      ensures View() == Put(old(View()), p, t, BookAt(old(View()), p)).(control := old(View()).control)
    {
      ghost var c := View();
      r, t := PopOnly(p, now, held);
      OnlyAtIsPut(c, View(), p);
    }

    method Take(p: Place, now: int, held: bool) returns (r: PopResult)
      requires Valid() && Accounted(View()) && Has(View(), p)
      modifies this`books, this`looseBooks, stream.buffers, loose
      ensures View() == Takes(old(View()), p, now, held)
      ensures r == TrackAt(old(View()), p).TakenFrom(now, old(View()).control.state, held)
    {
      ghost var c := View();
      BalancedAt(c, p);
      var book := BookOf(p);
      ghost var t;
      r, t := PopAt(p, now, held);
      var next := if r.Packet? then book.(taken := book.taken + 1) else book;
      TakesIs(c, p, now, held, t, next);
      BookLater(p, next, c, t, c.control);
    }

    method Report(p: Place, timestamp: uint32, ntp: uint64)
      requires Valid() && Matched(View()) && Has(View(), p)
      modifies stream.buffers, loose
      ensures View() == Put(old(View()), p, TrackAt(old(View()), p).Reported(timestamp, ntp), BookAt(old(View()), p))
    {
      ghost var c := View();
      var b := BufferAt(p);
      b.SenderReport(timestamp, ntp);
      ghost var d := View();
      assert OnlyAt(c, d, p);
      OnlyAtIsPut(c, d, p);
    }

    method Shut(p: Place, now: int)
      requires Valid() && Matched(View()) && Has(View(), p)
      modifies stream.buffers, loose
      ensures View() == Put(old(View()), p, TrackAt(old(View()), p).Closed(now), BookAt(old(View()), p))
    {
      ghost var c := View();
      var b := BufferAt(p);
      b.Close(now);
      ghost var d := View();
      assert OnlyAt(c, d, p);
      OnlyAtIsPut(c, d, p);
    }

    // ----- membership

    method Create(target: int, rate: Rate, keyframes: bool)
      requires Valid() && Matched(View())
      modifies this`loose, this`looseBooks
      ensures Valid() && View() == NextMember(old(View()), CameraPlayout.Create(target, rate, keyframes))
      ensures fresh(Owned() - old(Owned()))
    {
      var b := new Buffer(target, rate, keyframes);
      loose, looseBooks := loose + [b], looseBooks + [Book(0, 0)];
      assert Views(loose) == old(Views(loose)) + [b.View()];
    }

    /** Relay.Track */
    method Register(i: nat)
      requires Valid() && Matched(View()) && i < |loose|
      modifies this`loose, this`books, this`looseBooks, stream`buffers, loose
      ensures Valid() && View() == Registers(old(View()), i)
      ensures Owned() == old(Owned())
    {
      loose[i].Join(stream.recoveryAt, delay.state);
      OnlyAtIsPut(old(View()), View(), Loose(i));
      MoveIn(i);
    }

    /** The list part of Track. */
    method MoveIn(i: nat)
      requires Valid() && Matched(View()) && i < |loose|
      modifies this`loose, this`books, this`looseBooks, stream`buffers
      ensures Valid() && View() == MovedIn(old(View()), i)
      ensures Owned() == old(Owned())
    {
      MoveKeepsApart(stream.buffers, loose, i);
      stream.buffers := stream.buffers + [loose[i]];
      books, looseBooks := books + [looseBooks[i]], Without(looseBooks, i);
      loose := Without(loose, i);
      assert Views(loose) == Without(old(Views(loose)), i);
      assert Views(stream.buffers) == old(Views(stream.buffers)) + [old(Views(loose))[i]];
    }

    /** Relay.Untrack, once the buffer is found in the list. */
    method Release(i: nat)
      requires Valid() && Matched(View()) && i < |stream.buffers|
      modifies this`loose, this`books, this`looseBooks, stream`buffers
      ensures Valid() && View() == Releases(old(View()), i)
      ensures Owned() == old(Owned())
    {
      var b := stream.buffers[i];
      MoveKeepsApart(loose, stream.buffers, i);
      stream.buffers := Without(stream.buffers, i);
      loose, looseBooks := loose + [b], looseBooks + [books[i]];
      books := Without(books, i);
      assert Views(stream.buffers) == Without(old(Views(stream.buffers)), i);
      assert Views(loose) == old(Views(loose)) + [b.View()];
    }

    // ----- the whole stream

    /** Stream.adjustDelay */
    method Adjust(now: int)
      requires Valid()
      modifies this`lastAdjust, stream.buffers, delay
      ensures View() == Adjusted(old(View()), now)
    {
      if delay.state.None? || now - lastAdjust < SECOND {
        return;
      }
      lastAdjust := now;
      StepDelay(now);
    }

    /** The part of adjustDelay after its test of the interval. */
    method StepDelay(now: int)
      requires Valid()
      modifies stream.buffers, delay
      ensures View() == SteppedDelay(old(View()), now)
    {
      var late := SampleLateness(now);
      ghost var middle := View();
      var _ := delay.Step(now, late);
      assert View() == middle.(control := delay.View());
    }

    /** The loop of adjustDelay. */
    method SampleLateness(now: int) returns (late: int)
      requires Valid()
      modifies stream.buffers
      ensures View() == SampledCamera(old(View())) && late == LateOf(old(View()))
    {
      late := stream.SampleAll(delay.state, now);
      assert Views(loose) == old(Views(loose));
    }

    /** Relay.ConfigureDelay */
    method Configure(now: int, target: int, options: Options)
      requires Valid()
      modifies stream.buffers, delay
      ensures View() == ConfiguredDelay(old(View()), now, target, options)
    {
      var changed := delay.Configure(target, options, now);
      stream.ReconfigureAll(target, changed, delay.state);
      assert Views(loose) == old(Views(loose));
    }

    method Correct(now: int) returns (corrected: bool, asks: bool)
      requires Valid()
      modifies stream, stream.buffers
      ensures Valid() && stream.buffers == old(stream.buffers)
      ensures View() == CorrectedCamera(old(View()), now)
      ensures corrected == Corrects(Observed(old(stream.View()), delay.state), now)
    {
      corrected, asks := stream.CorrectClocks(delay.state, now);
      assert Views(loose) == old(Views(loose));
    }

    // ----- one buffer's turn in the loops over the stream, and what comes between

    method TakeTurn(b: Buffer, op: Op)
      requires OfTurn(op)
      modifies b
      ensures b.View() == Turned(old(b.View()), op, delay.state)
    {
      match op
      case Sample(_, now) => var _ := b.Sample(delay.state, now);
      case RetargetOne(_, target) => b.SetTarget(target);
      case AttachOne(_, changed) => b.Attach(changed, delay.state);
      case CatchUp(_, now) => var _ := b.DynamicOffset(delay.state, now);
    }

    method Turn(op: Op)
      requires Valid() && Matched(View()) && OfTurn(op)
      modifies stream.buffers
      ensures View() == NextTurn(old(View()), op)
    {
      if op.index < |stream.buffers| {
        TakeTurn(stream.buffers[op.index], op);
        OnlyAtIsPut(old(View()), View(), Registered(op.index));
      }
    }

    /** The controller by itself. */
    method DriveControl(op: Op)
      requires op.StepControl? || op.ConfigureControl?
      modifies delay
      ensures View() == NextPart(old(View()), op)
    {
      if op.StepControl? {
        var _ := delay.Step(op.now, op.late);
      } else {
        var _ := delay.Configure(op.target, op.options, op.now);
      }
    }

    /** correctClocks from where every buffer is locked. */
    method Realign(now: int)
      requires Valid()
      modifies stream, stream.buffers
      ensures Valid() && stream.buffers == old(stream.buffers)
      ensures View() == old(View()).(clocks := Realigned(old(View()).clocks, now))
    {
      var _, _ := stream.Realign(now);
      assert Views(loose) == old(Views(loose));
    }

    method Part(op: Op)
      requires Valid() && OfPart(op)
      modifies stream, stream.buffers, delay
      ensures Valid() && View() == NextPart(old(View()), op) && stream.buffers == old(stream.buffers)
    {
      if op.Realign? {
        Realign(op.now);
      } else {
        DriveControl(op);
      }
    }

    // ----- runs

    method Member(op: Op)
      requires Valid() && Matched(View()) && OfMember(op)
      modifies this, stream, loose
      ensures Valid() && View() == NextMember(old(View()), op) && fresh(Owned() - old(Owned()))
    {
      match op
      case Create(target, rate, keyframes) =>
        Create(target, rate, keyframes);
      case Register(i) =>
        if i < |loose| {
          Register(i);
        }
      case Release(i) =>
        if i < |stream.buffers| {
          Release(i);
        }
    }

    method OneTrack(op: Op)
      requires Valid() && Accounted(View()) && OfTrack(op)
      modifies this`books, this`looseBooks, stream.buffers, loose, delay
      ensures View() == NextTrack(old(View()), op)
    {
      if op.place.index >= if op.place.Registered? then |stream.buffers| else |loose| {
        return;
      }
      match op
      case Arrive(p, pkt, now) => Arrive(p, pkt, now);
      case Take(p, now, held) => var _ := Take(p, now, held);
      case Sender(p, timestamp, ntp) => Report(p, timestamp, ntp);
      case Shut(p, now) => Shut(p, now);
    }

    method WholeStream(op: Op)
      requires Valid() && OfStream(op)
      modifies this`lastAdjust, stream, stream.buffers, delay
      ensures Valid() && View() == NextStream(old(View()), op) && stream.buffers == old(stream.buffers)
    {
      match op
      case Adjust(now) => Adjust(now);
      case Configure(now, target, options) => Configure(now, target, options);
      case Correct(now) => var _, _ := Correct(now);
    }

    /** The same, with what it leaves alone: the buffers stay in their places. */
    method TrackInPlace(op: Op)
      requires Valid() && Accounted(View()) && OfTrack(op)
      modifies this`books, this`looseBooks, stream.buffers, loose, delay
      ensures Valid() && View() == Next(old(View()), op) && Owned() == old(Owned())
    {
      OneTrack(op);
    }

    /** Everything but membership and what concerns one track. */
    method StreamWide(op: Op)
      requires Valid() && Matched(View()) && !OfMember(op) && !OfTrack(op)
      modifies this`lastAdjust, stream, stream.buffers, delay
      ensures Valid() && View() == Next(old(View()), op) && Owned() == old(Owned())
    {
      if OfStream(op) {
        WholeStream(op);
      } else if OfPart(op) {
        Part(op);
      } else {
        Turn(op);
      }
    }

    method InPlace(op: Op)
      requires Valid() && Accounted(View()) && !OfMember(op)
      modifies this`books, this`looseBooks, this`lastAdjust, stream, stream.buffers, loose, delay
      ensures Valid() && View() == Next(old(View()), op) && Owned() == old(Owned())
    {
      if OfTrack(op) {
        TrackInPlace(op);
      } else {
        StreamWide(op);
      }
    }

    method Execute(op: Op)
      requires Valid() && Accounted(View())
      modifies Owned()
      ensures Valid() && View() == Next(old(View()), op) && fresh(Owned() - old(Owned()))
    {
      if OfMember(op) {
        Member(op);
      } else {
        InPlace(op);
      }
    }
  }

  /** The equation between a buffer and its book. */
  ghost predicate Even(b: Buffer, book: Book)
    reads b
  {
    book.accepted == book.taken + b.line.dropped + |b.line.queue|
  }

  lemma BooksAreEven(s: Playout)
    requires Accounted(s.View())
    ensures |s.books| == |s.stream.buffers| && |s.looseBooks| == |s.loose|
    ensures forall i :: 0 <= i < |s.stream.buffers| ==> Even(s.stream.buffers[i], s.books[i])
    ensures forall i :: 0 <= i < |s.loose| ==> Even(s.loose[i], s.looseBooks[i])
  {
    var c := s.View();
    forall i | 0 <= i < |s.stream.buffers| ensures Even(s.stream.buffers[i], s.books[i]) {
      assert Balanced(c.clocks.tracks[i], c.books[i]) && c.clocks.tracks[i] == s.stream.buffers[i].View();
    }
    forall i | 0 <= i < |s.loose| ensures Even(s.loose[i], s.looseBooks[i]) {
      assert Balanced(c.loose[i], c.looseBooks[i]) && c.loose[i] == s.loose[i].View();
    }
  }

  lemma PlayedOneMore(run: seq<Op>, i: nat)
    requires i < |run|
    ensures Played(EMPTY, run[..i + 1]) == Next(Played(EMPTY, run[..i]), run[i])
  {
    assert run[..i + 1][..i] == run[..i];
  }

  /** Any run of operations on new objects does what the run on values does. */
  method Play(run: seq<Op>) returns (s: Playout)
    ensures s.Valid() && s.View() == Played(EMPTY, run)
  {
    s := new Playout();
    for i := 0 to |run|
      invariant fresh(s.Owned())
      invariant s.Valid() && s.View() == Played(EMPTY, run[..i])
    {
      PlayedOneMore(run, i);
      s.Execute(run[i]);
    }
    assert run[..|run|] == run;
  }

  /**
   * So after any run every buffer, registered or not, has given out, discarded or still queues exactly
   * the packets it accepted.
   */
  method Serve(run: seq<Op>) returns (s: Playout)
    ensures s.Valid() && s.View() == Played(EMPTY, run)
    ensures |s.books| == |s.stream.buffers| && |s.looseBooks| == |s.loose|
    ensures forall i :: 0 <= i < |s.stream.buffers| ==> Even(s.stream.buffers[i], s.books[i])
    ensures forall i :: 0 <= i < |s.loose| ==> Even(s.loose[i], s.looseBooks[i])
  {
    s := Play(run);
    BooksAreEven(s);
  }
}
