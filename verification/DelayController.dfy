/**
 * The controller that grows and shrinks a camera's shared playout delay
 * (internal/dynamicdelay/delay.go). Times are nanoseconds since the zero time, so that 0 is
 * Go's zero Time; durations are nanoseconds.
 */
module DelayController {
  import opened Basics
  import opened RtpClock

  /** MaximumMS: the ceiling of configured relay buffering. */
  const MAXIMUM_MS := 10000

  const GROWTH := 50 * MILLISECOND
  const QUIET := 5 * SECOND

  function Min(a: int, b: int): int { if a < b then a else b }

  function Max(a: int, b: int): int { if a > b then a else b }

  /** AutoCatchUp may be unset, which counts as automatic. */
  datatype Auto = Unset | On | Off

  datatype Options = Options(enabled: bool, maximumMS: int, jump: bool, catchUpMSPerSecond: int, autoCatchUp: Auto) {

    function Normalize(baseMS: int): Options {
      var maximum := if maximumMS == 0 then MAXIMUM_MS else maximumMS;
      var rate := if catchUpMSPerSecond == 0 then 10 else catchUpMSPerSecond;
      Options(enabled,
              Max(1, Max(baseMS, Min(MAXIMUM_MS, maximum))),
              jump || maximumMS == 0,
              Max(1, Min(200, rate)),
              if autoCatchUp.Unset? then On else autoCatchUp)
    }

    predicate Automatic() {
      !autoCatchUp.Off?
    }

    function Maximum(): int {
      maximumMS * MILLISECOND
    }

    function Span(base: int): int {
      Max(MILLISECOND, Maximum() - base)
    }

    function CatchUp(current: int, base: int): int {
      if !Automatic() then catchUpMSPerSecond * MILLISECOND
      else Min(200, 10 + 1900 * Max(0, current - base) / (9 * Span(base))) * MILLISECOND
    }

    /** What Normalize establishes. */
    predicate Normal(baseMS: int) {
      && maximumMS >= 1 && maximumMS >= baseMS && maximumMS <= Max(MAXIMUM_MS, baseMS)
      && 1 <= catchUpMSPerSecond <= 200
      && !autoCatchUp.Unset?
    }

    /** The slowest catch-up these options ever use. */
    function SlowestCatchUp(): int {
      if Automatic() then 10 * MILLISECOND else catchUpMSPerSecond * MILLISECOND
    }
  }

  /** Normalizing gives normal options, and has nothing left to do the second time. */
  lemma NormalizeSettles(o: Options, baseMS: int)
    ensures o.Normalize(baseMS).Normal(baseMS)
    ensures o.Normalize(baseMS).Normalize(baseMS) == o.Normalize(baseMS)
    ensures o.Normal(baseMS) && baseMS <= MAXIMUM_MS ==> o.Normalize(baseMS) == o
  {
  }

  lemma QuotientAtLeast(a: int, b: int, k: int)
    requires b > 0 && a >= 0
    ensures a / b >= k <==> a >= k * b
  {
    var q := a / b;
    TruncDivBounds(a, b);
    if q > k {
      Multiples(q, k, b);
    } else if q < k {
      Multiples(k, q, b);
    }
  }

  /** Automatic catch-up reaches its top speed exactly at nine tenths of the space above the base. */
  lemma CatchUpTopsOutAtNineTenths(o: Options, current: int, base: int)
    requires o.Automatic()
    ensures o.CatchUp(current, base) == 200 * MILLISECOND <==> 10 * (current - base) >= 9 * o.Span(base)
  {
    var d := Max(0, current - base);
    QuotientAtLeast(1900 * d, 9 * o.Span(base), 190);
  }

  lemma CatchUpBounds(o: Options, current: int, base: int)
    requires 1 <= o.catchUpMSPerSecond <= 200
    ensures o.SlowestCatchUp() <= o.CatchUp(current, base) <= 200 * MILLISECOND
    ensures o.SlowestCatchUp() >= MILLISECOND
  {
    QuotientAtLeast(1900 * Max(0, current - base), 9 * o.Span(base), 0);
  }

  // ----- the curve

  datatype Curve = Curve(start: int, from: int, to: int, shift: int, cutoff: int, pending: bool) {

    function Elapsed(now: int): int {
      Min(SECOND, Max(0, now - start))
    }

    function Delay(now: int): int {
      from + TruncDiv((to - from) * Elapsed(now), SECOND)
    }
  }

  lemma DelayAtEnds(c: Curve, now: int)
    ensures now <= c.start ==> c.Delay(now) == c.from
    ensures now >= c.start + SECOND ==> c.Delay(now) == c.to
    ensures c.from == c.to ==> c.Delay(now) == c.from
  {
    if now >= c.start + SECOND {
      TruncDivBounds((c.to - c.from) * SECOND, SECOND);
    }
  }

  lemma Products(x: int, a: int, b: int)
    requires a <= b
    ensures x >= 0 ==> x * a <= x * b
    ensures x <= 0 ==> x * b <= x * a
  {
    assert x >= 0 ==> x * (b - a) >= 0;
    assert x <= 0 ==> x * (b - a) <= 0;
  }

  /** The delay moves from one end of the curve to the other and never turns back. */
  lemma DelayMonotone(c: Curve, early: int, late: int)
    requires early <= late
    ensures c.from <= c.to ==> c.from <= c.Delay(early) <= c.Delay(late) <= c.to
    ensures c.to <= c.from ==> c.to <= c.Delay(late) <= c.Delay(early) <= c.from
  {
    var d, a, b := c.to - c.from, c.Elapsed(early), c.Elapsed(late);
    Products(d, 0, a);
    Products(d, a, b);
    Products(d, b, SECOND);
    DelayAtEnds(c, c.start + SECOND);
    if d >= 0 {
      TruncDivMonotone(0, d * a, SECOND);
      TruncDivMonotone(d * a, d * b, SECOND);
      TruncDivMonotone(d * b, d * SECOND, SECOND);
    } else {
      TruncDivMonotone(d * a, 0, SECOND);
      TruncDivMonotone(d * b, d * a, SECOND);
      TruncDivMonotone(d * SECOND, d * b, SECOND);
    }
  }

  // ----- the controller

  datatype Control = Control(
    state: Option<Curve>,
    options: Options,
    base: int,
    goal: int,
    quietUntil: int,
    lastStep: int,
    shift: int,
    cutoff: int)
  {
    function Configured(newBase: int, requested: Options, now: int): Control {
      var o := requested.Normalize(TruncDiv(newBase, MILLISECOND));
      if base == newBase
         && options.(catchUpMSPerSecond := o.catchUpMSPerSecond, autoCatchUp := o.autoCatchUp) == o
      then
        this.(options := o)  // a change of speed alone
      else
        var c := this.(base := newBase, options := o, goal := newBase);
        if state.None? && !o.enabled then c else
          var current := if state.Some? && o.enabled then state.value.Delay(now) else newBase;
          c.(state := Some(Curve(now, current, current, shift, cutoff, false)))
    }

    /** Whether a configuration lays a new curve, rather than changing the speed or nothing. */
    predicate Relays(newBase: int, requested: Options) {
      var o := requested.Normalize(TruncDiv(newBase, MILLISECOND));
      && !(base == newBase
           && options.(catchUpMSPerSecond := o.catchUpMSPerSecond, autoCatchUp := o.autoCatchUp) == o)
      && (state.Some? || o.enabled)
    }

    /** The goal and the end of the quiet period after a lateness sample. */
    function Goal(now: int, current: int, late: int): int {
      if late > 0 then Max(goal, Min(options.Maximum(), current + late + 100 * MILLISECOND))
      else if now > quietUntil then base else goal
    }

    predicate Exceeded(current: int, late: int) {
      (if late > 0 then current + late + 100 * MILLISECOND else current) > options.Maximum()
    }

    /** A step that is due: a curve exists, no jump is ahead of it, a second has passed. */
    predicate Due(now: int) {
      state.Some? && now >= state.value.cutoff && now - lastStep >= SECOND
    }

    function Stepped(now: int, late: int): Control {
      if !Due(now) then this
      else if !options.enabled then this.(lastStep := now, state := None)
      else
        var current := state.value.Delay(now);
        var g := Goal(now, current, late);
        var to := Max(current - options.CatchUp(current, base), Min(current + GROWTH, g));
        this.(lastStep := now,
              goal := g,
              quietUntil := if late > 0 then now + QUIET else quietUntil,
              state := Some(state.value.(start := now, from := current, to := to,
                            pending := state.value.pending || (options.jump && Exceeded(current, late)))))
    }

    function Jumped(now: int, mediaTime: int): Control {
      if state.None? || !state.value.pending then this else
        var moved := state.value.shift + (now - mediaTime);
        this.(shift := moved, cutoff := now, goal := base, quietUntil := now + QUIET,
              state := Some(Curve(now, base, base, moved, now, false)))
    }
  }

  const FRESH := Control(None, Options(false, 0, false, 0, Unset), 0, 0, 0, 0, 0, 0)

  class Controller {
    var state: Option<Curve>
    var options: Options
    var base: int
    var goal: int
    var quietUntil: int
    var lastStep: int
    var shift: int
    var cutoff: int

    function View(): Control
      reads this
    {
      Control(state, options, base, goal, quietUntil, lastStep, shift, cutoff)
    }

    constructor ()
      ensures View() == FRESH
    {
      state, options := None, Options(false, 0, false, 0, Unset);
      base, goal, quietUntil, lastStep, shift, cutoff := 0, 0, 0, 0, 0, 0;
    }

    /** Also says whether a new curve was stored, which callers compare with the one before. */
    method Configure(newBase: int, requested: Options, now: int) returns (changed: bool)
      modifies this
      ensures View() == old(View()).Configured(newBase, requested, now)
      ensures changed == old(View()).Relays(newBase, requested)
    {
      var o := requested.Normalize(TruncDiv(newBase, MILLISECOND));
      var previous := options.(catchUpMSPerSecond := o.catchUpMSPerSecond, autoCatchUp := o.autoCatchUp);
      if base == newBase && previous == o {
        options := o;
        return false;
      }
      base, options, goal := newBase, o, newBase;
      if state.None? && !o.enabled {
        return false;
      }
      var current := newBase;
      if state.Some? && o.enabled {
        current := state.value.Delay(now);
      }
      state := Some(Curve(now, current, current, shift, cutoff, false));
      return true;
    }

    method Step(now: int, late: int) returns (next: Option<Curve>)
      modifies this
      ensures View() == old(View()).Stepped(now, late) && next == state
    {
      if state.None? || now < state.value.cutoff || now - lastStep < SECOND {
        return state;
      }
      lastStep := now;
      if !options.enabled {
        state := None;
        return None;
      }
      var current := state.value.Delay(now);
      var exceeded := UpdateGoal(now, current, late);
      var catchUp := options.CatchUp(current, base);
      var pending := state.value.pending || (options.jump && exceeded);
      state := Some(state.value.(start := now, from := current, pending := pending,
                                 to := Max(current - catchUp, Min(current + GROWTH, goal))));
      return state;
    }

    method UpdateGoal(now: int, current: int, late: int) returns (exceeded: bool)
      modifies this`goal, this`quietUntil
      ensures exceeded == old(View()).Exceeded(current, late)
      ensures goal == old(View()).Goal(now, current, late)
      ensures quietUntil == if late > 0 then now + QUIET else old(quietUntil)
    {
      var maximum, wanted := options.maximumMS * MILLISECOND, current;
      if late > 0 {
        wanted := wanted + late + 100 * MILLISECOND;
        goal := Max(goal, Min(maximum, wanted));
        quietUntil := now + QUIET;
      } else if now > quietUntil {
        goal := base;
      }
      return wanted > maximum;
    }

    method Jump(now: int, mediaTime: int)
      modifies this
      ensures View() == old(View()).Jumped(now, mediaTime)
    {
      if state.None? || !state.value.pending {
        return;
      }
      var next := Curve(now, base, base, state.value.shift + (now - mediaTime), now, false);
      shift, cutoff, goal, quietUntil := next.shift, next.cutoff, base, now + QUIET;
      state := Some(next);
    }
  }

  // ----- what every operation keeps

  /** A whole number of milliseconds, as the configuration stores delays. */
  predicate WholeMS(base: int) {
    base >= 0 && base % MILLISECOND == 0
  }

  /** Slopes within 50 ms up and 200 ms down a second; the goal inside [base, maximum]. */
  predicate Sane(c: Control) {
    && WholeMS(c.base)
    && c.options.Normal(c.base / MILLISECOND)
    && c.base <= c.goal <= c.options.Maximum()
    && (c.state.Some? ==> -200 * MILLISECOND <= c.state.value.to - c.state.value.from <= GROWTH)
  }

  lemma ConfiguredSane(c: Control, base: int, o: Options, now: int)
    requires WholeMS(base) && (Sane(c) || c == FRESH)
    ensures Sane(c.Configured(base, o, now))
  {
    NormalizeSettles(o, base / MILLISECOND);
    assert TruncDiv(base, MILLISECOND) == base / MILLISECOND;
    assert base == base / MILLISECOND * MILLISECOND;
  }

  lemma SteppedSane(c: Control, now: int, late: int)
    requires Sane(c)
    ensures Sane(c.Stepped(now, late))
  {
    if c.state.Some? {
      CatchUpBounds(c.options, c.state.value.Delay(now), c.base);
    }
  }

  lemma JumpedSane(c: Control, now: int, mediaTime: int)
    requires Sane(c)
    ensures Sane(c.Jumped(now, mediaTime))
  {
  }

  /** The curve does not break where a step or an enabled reconfiguration replaces it. */
  lemma CurveIsContinuous(c: Control, now: int, late: int, base: int, o: Options)
    requires c.state.Some?
    ensures c.options.enabled ==>
              c.Stepped(now, late).state.Some?
                && c.Stepped(now, late).state.value.Delay(now) == c.state.value.Delay(now)
    ensures o.enabled ==>
              c.Configured(base, o, now).state.Some?
              && c.Configured(base, o, now).state.value.Delay(now) == c.state.value.Delay(now)
  {
    if c.options.enabled {
      DelayAtEnds(c.Stepped(now, late).state.value, now);
    }
    if o.enabled {
      DelayAtEnds(c.Configured(base, o, now).state.value, now);
    }
  }

  /** The curve carries the controller's own last jump. */
  predicate SameJump(c: Control) {
    c.state.Some? ==> c.state.value.shift == c.shift && c.state.value.cutoff == c.cutoff
  }

  // ----- the envelope

  predicate Inside(c: Control, x: int) {
    c.base <= x <= c.options.Maximum()
  }

  predicate CurveInside(c: Control) {
    c.state.Some? ==> Inside(c, c.state.value.from) && Inside(c, c.state.value.to)
  }

  datatype Event = StepAt(now: int, late: int) | JumpAt(now: int, mediaTime: int)
                 | ConfigureAt(now: int, base: int, options: Options)

  function Apply(c: Control, e: Event): Control {
    match e
    case StepAt(now, late) => c.Stepped(now, late)
    case JumpAt(now, mediaTime) => c.Jumped(now, mediaTime)
    case ConfigureAt(now, base, options) => c.Configured(base, options, now)
  }

  function Run(c: Control, run: seq<Event>): Control
    decreases |run|
  {
    if run == [] then c else Run(Apply(c, run[0]), run[1..])
  }

  /** From the first configuration on, in whatever order things happen. */
  lemma {:induction false} RunsStaySane(c: Control, run: seq<Event>)
    requires Sane(c) && SameJump(c)
    requires forall i :: 0 <= i < |run| && run[i].ConfigureAt? ==> WholeMS(run[i].base)
    ensures Sane(Run(c, run)) && SameJump(Run(c, run))
    decreases |run|
  {
    if run != [] {
      match run[0] {
        case StepAt(now, late) => SteppedSane(c, now, late);
        case JumpAt(now, mediaTime) => JumpedSane(c, now, mediaTime);
        case ConfigureAt(now, base, options) => ConfiguredSane(c, base, options, now);
      }
      RunsStaySane(Apply(c, run[0]), run[1..]);
    }
  }

  /** Once the delay is in [base, maximum], no lateness and no jump takes it out, at any instant. */
  lemma {:induction false} DelayStaysInside(c: Control, run: seq<Event>, t: int)
    requires Sane(c) && CurveInside(c) && forall i :: 0 <= i < |run| ==> !run[i].ConfigureAt?
    ensures var d := Run(c, run);
            d.base == c.base && d.options == c.options && (d.state.Some? ==> Inside(c, d.state.value.Delay(t)))
    decreases |run|
  {
    if run == [] {
      if c.state.Some? {
        DelayMonotone(c.state.value, t, t);
      }
    } else {
      StepStaysInside(c, run[0]);
      DelayStaysInside(Apply(c, run[0]), run[1..], t);
    }
  }

  lemma StepStaysInside(c: Control, e: Event)
    requires Sane(c) && CurveInside(c) && !e.ConfigureAt?
    ensures Sane(Apply(c, e)) && CurveInside(Apply(c, e))
    ensures Apply(c, e).base == c.base && Apply(c, e).options == c.options
  {
    match e
    case StepAt(now, late) =>
      SteppedSane(c, now, late);
      if c.Due(now) {
        DelayMonotone(c.state.value, now, now);
        CatchUpBounds(c.options, c.state.value.Delay(now), c.base);
      }
    case JumpAt(now, mediaTime) => JumpedSane(c, now, mediaTime);
  }

  /** How far a delay lies outside [base, maximum]. */
  function Excess(c: Control, x: int): int {
    Max(0, Max(c.base - x, x - c.options.Maximum()))
  }

  /** Steps at least a second apart, the first one due. */
  predicate Spaced(c: Control, times: seq<int>) {
    && times != [] && c.Due(times[0])
    && forall i :: 0 < i < |times| ==> times[i] - times[i - 1] >= SECOND
  }

  function StepAll(c: Control, times: seq<int>, lates: seq<int>): Control
    requires |lates| == |times|
    decreases |times|
  {
    if times == [] then c else StepAll(c.Stepped(times[0], lates[0]), times[1..], lates[1..])
  }

  /** After a due step the next one a second later starts from where this one ends. */
  lemma NextStep(c: Control, times: seq<int>, late: int)
    requires Sane(c) && c.options.enabled && Spaced(c, times)
    ensures var d := c.Stepped(times[0], late);
            && Sane(d) && d.options == c.options && d.base == c.base && d.state.Some?
            && (|times| > 1 ==> Spaced(d, times[1..]) && d.state.value.Delay(times[1]) == d.state.value.to)
  {
    SteppedSane(c, times[0], late);
    if |times| > 1 {
      DelayAtEnds(c.Stepped(times[0], late).state.value, times[1]);
    }
  }

  /** Each step takes a delay outside the interval closer by at least the slower of the two limits. */
  lemma StepAbsorbs(c: Control, now: int, late: int)
    requires Sane(c) && c.options.enabled && c.Due(now)
    ensures var rate := Min(GROWTH, c.options.SlowestCatchUp());
            Excess(c, c.Stepped(now, late).state.value.to) <= Max(0, Excess(c, c.state.value.Delay(now)) - rate)
  {
    CatchUpBounds(c.options, c.state.value.Delay(now), c.base);
  }

  lemma Accumulate(n: int, rate: int, before: int, after: int)
    requires n >= 1 && rate >= 0 && after <= Max(0, before - rate)
    ensures Max(0, after - (n - 1) * rate) <= Max(0, before - n * rate)
  {
    assert n * rate == (n - 1) * rate + rate;
    assert (n - 1) * rate >= 0;
  }

  /** Whatever arrives late, n steps bring the delay n times the slowest rate closer to the interval. */
  lemma {:induction false} IntervalAbsorbsDelay(c: Control, times: seq<int>, lates: seq<int>)
    requires Sane(c) && c.options.enabled && Spaced(c, times) && |lates| == |times|
    ensures var rate, d := Min(GROWTH, c.options.SlowestCatchUp()), StepAll(c, times, lates);
            d.state.Some?
            && Excess(c, d.state.value.to) <= Max(0, Excess(c, c.state.value.Delay(times[0])) - |times| * rate)
    decreases |times|
  {
    var rate := Min(GROWTH, c.options.SlowestCatchUp());
    StepAbsorbs(c, times[0], lates[0]);
    NextStep(c, times, lates[0]);
    CatchUpBounds(c.options, 0, c.base);
    if |times| > 1 {
      var d := c.Stepped(times[0], lates[0]);
      IntervalAbsorbsDelay(d, times[1..], lates[1..]);
      Accumulate(|times|, rate, Excess(c, c.state.value.Delay(times[0])), Excess(c, d.state.value.to));
    } else {
      assert StepAll(c, times, lates) == c.Stepped(times[0], lates[0]);
    }
  }

  // ----- back to the base after a quiet period

  lemma QuietStep(c: Control, now: int)
    requires Sane(c) && c.options.enabled && c.Due(now) && now > c.quietUntil
    ensures var x, to := c.state.value.Delay(now), c.Stepped(now, 0).state.value.to;
            && (x >= c.base ==> c.base <= to <= Max(c.base, x - c.options.SlowestCatchUp()))
            && (x <= c.base ==> to == Min(c.base, x + GROWTH))
  {
    CatchUpBounds(c.options, c.state.value.Delay(now), c.base);
  }

  /** Steps with nothing late. */
  function QuietSteps(c: Control, times: seq<int>): Control
    decreases |times|
  {
    if times == [] then c else QuietSteps(c.Stepped(times[0], 0), times[1..])
  }

  /** From above, n quiet steps undo at least n times the slowest catch-up, and stop at the base. */
  lemma {:induction false} QuietStepsFall(c: Control, times: seq<int>)
    requires Sane(c) && c.options.enabled && Spaced(c, times) && times[0] > c.quietUntil
    requires c.state.value.Delay(times[0]) >= c.base
    ensures var d, x := QuietSteps(c, times), c.state.value.Delay(times[0]);
            && d.state.Some? && d.state.value.start == times[|times| - 1]
            && 0 <= d.state.value.to - c.base <= Max(0, x - c.base - |times| * c.options.SlowestCatchUp())
    decreases |times|
  {
    var d, x, rate := c.Stepped(times[0], 0), c.state.value.Delay(times[0]), c.options.SlowestCatchUp();
    QuietStep(c, times[0]);
    NextStep(c, times, 0);
    CatchUpBounds(c.options, 0, c.base);
    if |times| > 1 {
      assert times[1] - times[0] >= SECOND;
      QuietStepsFall(d, times[1..]);
      Accumulate(|times|, rate, x - c.base, d.state.value.to - c.base);
    } else {
      assert QuietSteps(d, times[1..]) == d;
    }
  }

  /** From below, after the base was raised, n quiet steps climb 50 ms each, and stop at the base. */
  lemma {:induction false} QuietStepsRise(c: Control, times: seq<int>)
    requires Sane(c) && c.options.enabled && Spaced(c, times) && times[0] > c.quietUntil
    requires c.state.value.Delay(times[0]) <= c.base
    ensures var d, x := QuietSteps(c, times), c.state.value.Delay(times[0]);
            && d.state.Some? && d.state.value.start == times[|times| - 1]
            && 0 <= c.base - d.state.value.to <= Max(0, c.base - x - |times| * GROWTH)
    decreases |times|
  {
    var d, x := c.Stepped(times[0], 0), c.state.value.Delay(times[0]);
    QuietStep(c, times[0]);
    NextStep(c, times, 0);
    if |times| > 1 {
      assert times[1] - times[0] >= SECOND;
      QuietStepsRise(d, times[1..]);
      Accumulate(|times|, GROWTH, c.base - x, c.base - d.state.value.to);
    } else {
      assert QuietSteps(d, times[1..]) == d;
    }
  }

  /** So (delay - base) / slowest-rate quiet steps suffice to be back at the base, and to stay there. */
  lemma QuietReachesBase(c: Control, times: seq<int>, t: int)
    requires Sane(c) && c.options.enabled && Spaced(c, times) && times[0] > c.quietUntil
    requires var x := c.state.value.Delay(times[0]);
             && |times| * c.options.SlowestCatchUp() >= x - c.base
             && |times| * GROWTH >= c.base - x
    requires t >= times[|times| - 1] + SECOND
    ensures var d := QuietSteps(c, times); d.state.Some? && d.state.value.Delay(t) == c.base
  {
    if c.state.value.Delay(times[0]) >= c.base {
      QuietStepsFall(c, times);
    } else {
      QuietStepsRise(c, times);
    }
    DelayAtEnds(QuietSteps(c, times).state.value, t);
  }

  // ----- how fast the delay can change

  /** The interpolated change after `a` nanoseconds of a curve that moves by `d` in a second. */
  lemma PartialChange(d: int, a: int)
    requires -200 * MILLISECOND <= d <= GROWTH && 0 <= a <= SECOND
    ensures 20 * TruncDiv(d * a, SECOND) <= a && -5 * TruncDiv(d * a, SECOND) <= a
  {
    TruncDivBounds(d * a, SECOND);
    Products(a, -200 * MILLISECOND, d);
    Products(a, d, GROWTH);
    Products(d, 0, a);
  }

  lemma ChangeBetween(d: int, a: int, b: int)
    requires -200 * MILLISECOND <= d <= GROWTH && 0 <= a <= b <= SECOND
    ensures 20 * (TruncDiv(d * b, SECOND) - TruncDiv(d * a, SECOND)) <= b - a + 20
    ensures 5 * (TruncDiv(d * a, SECOND) - TruncDiv(d * b, SECOND)) <= b - a + 5
  {
    TruncDivBounds(d * a, SECOND);
    TruncDivBounds(d * b, SECOND);
    Products(b - a, -200 * MILLISECOND, d);
    Products(b - a, d, GROWTH);
    assert (b - a) * d == d * b - d * a;
    Products(d, 0, a);
    Products(d, 0, b);
  }

  lemma CurveSlope(c: Curve, early: int, late: int)
    requires -200 * MILLISECOND <= c.to - c.from <= GROWTH && c.start <= early <= late
    ensures 20 * (c.Delay(late) - c.from) <= late - c.start
    ensures 5 * (c.from - c.Delay(late)) <= late - c.start
    ensures 20 * (c.Delay(late) - c.Delay(early)) <= late - early + 20
    ensures 5 * (c.Delay(early) - c.Delay(late)) <= late - early + 5
  {
    PartialChange(c.to - c.from, c.Elapsed(late));
    ChangeBetween(c.to - c.from, c.Elapsed(early), c.Elapsed(late));
  }

  /** A run of steps and reconfigurations that keep the controller enabled, in time order from t. */
  predicate Steady(t: int, run: seq<Event>)
    decreases |run|
  {
    run != [] ==>
      && run[0].now >= t
      && !run[0].JumpAt?
      && (run[0].ConfigureAt? ==> run[0].options.enabled && WholeMS(run[0].base))
      && Steady(run[0].now, run[1..])
  }

  function EndOf(t: int, run: seq<Event>): int
    decreases |run|
  {
    if run == [] then t else EndOf(run[0].now, run[1..])
  }

  lemma {:induction false} EndIsLast(t: int, run: seq<Event>)
    requires Steady(t, run)
    ensures EndOf(t, run) >= t
    decreases |run|
  {
    if run != [] {
      EndIsLast(run[0].now, run[1..]);
    }
  }

  /** One event of a steady run either leaves the curve alone or restarts it where it stands. */
  lemma SteadyStep(c: Control, e: Event)
    requires Sane(c) && c.state.Some? && c.options.enabled && !e.JumpAt?
    requires e.ConfigureAt? ==> e.options.enabled && WholeMS(e.base)
    ensures var d := Apply(c, e);
            && Sane(d) && d.state.Some? && d.options.enabled
            && (d.state == c.state || (d.state.value.start == e.now
              && d.state.value.from == c.state.value.Delay(e.now)))
  {
    match e
    case StepAt(now, late) => SteppedSane(c, now, late);
    case ConfigureAt(now, base, options) => ConfiguredSane(c, base, options, now);
  }

  lemma {:induction false} RateFromCurveStart(c: Control, run: seq<Event>, t: int)
    requires Sane(c) && c.state.Some? && c.options.enabled
    requires Steady(c.state.value.start, run) && t >= EndOf(c.state.value.start, run)
    ensures var d := Run(c, run);
            && d.state.Some?
            && 20 * (d.state.value.Delay(t) - c.state.value.from) <= t - c.state.value.start
            && 5 * (c.state.value.from - d.state.value.Delay(t)) <= t - c.state.value.start
    decreases |run|
  {
    var k := c.state.value;
    EndIsLast(k.start, run);
    if run == [] {
      CurveSlope(k, k.start, t);
    } else {
      SteadyStep(c, run[0]);
      var d := Apply(c, run[0]);
      if d.state == c.state {
        SteadyFromEarlier(run[0].now, k.start, run[1..]);
      } else {
        CurveSlope(k, k.start, run[0].now);
      }
      RateFromCurveStart(d, run[1..], t);
    }
  }

  lemma SteadyFromEarlier(t: int, earlier: int, run: seq<Event>)
    requires Steady(t, run) && earlier <= t
    ensures Steady(earlier, run)
    ensures run != [] ==> EndOf(earlier, run) == EndOf(t, run)
    ensures run == [] ==> EndOf(earlier, run) <= EndOf(t, run)
  {
  }

  /**
   * Between any two instants of a steady run the delay rises by at most 50 ms and falls by at
   * most 200 ms per second, give or take the nanosecond the interpolation truncates.
   */
  lemma {:induction false} DelayRateIsLimited(c: Control, run: seq<Event>, early: int, late: int)
    requires Sane(c) && c.state.Some? && c.options.enabled
    requires c.state.value.start <= early && Steady(early, run) && late >= EndOf(early, run)
    ensures var d := Run(c, run);
            && d.state.Some?
            && 20 * (d.state.value.Delay(late) - c.state.value.Delay(early)) <= late - early + 20
            && 5 * (c.state.value.Delay(early) - d.state.value.Delay(late)) <= late - early + 5
    decreases |run|
  {
    EndIsLast(early, run);
    if run == [] {
      CurveSlope(c.state.value, early, late);
    } else {
      SteadyStep(c, run[0]);
      var d := Apply(c, run[0]);
      if d.state == c.state {
        SteadyFromEarlier(run[0].now, early, run[1..]);
        DelayRateIsLimited(d, run[1..], early, late);
      } else {
        CurveSlope(c.state.value, early, run[0].now);
        RateFromCurveStart(d, run[1..], late);
      }
    }
  }

  // ----- the catch-up rate limits every fall

  /** By how much the present curve falls in its second, if it falls. */
  function CurveFall(c: Control): int {
    if c.state.Some? then c.state.value.from - c.state.value.to else 0
  }

  /** No curve of the run falls by more than `rate` in its second. */
  ghost predicate FallsWithin(c: Control, run: seq<Event>, rate: int)
    decreases |run|
  {
    CurveFall(c) <= rate && (run != [] ==> FallsWithin(Apply(c, run[0]), run[1..], rate))
  }

  /** How far a curve that falls at most `rate` a second has fallen after `a` nanoseconds. */
  lemma PartialFall(d: int, a: int, rate: int)
    requires -rate <= d && 0 <= a <= SECOND && rate >= 0
    ensures -TruncDiv(d * a, SECOND) * SECOND <= rate * a
  {
    TruncDivBounds(d * a, SECOND);
    Products(a, -rate, d);
    Products(d, 0, a);
    Products(rate, 0, a);
    assert -rate * a == -(rate * a);
  }

  lemma FallBetween(d: int, a: int, b: int, rate: int)
    requires -rate <= d && 0 <= a <= b <= SECOND && rate >= 0
    ensures (TruncDiv(d * a, SECOND) - TruncDiv(d * b, SECOND)) * SECOND <= rate * (b - a) + SECOND
  {
    TruncDivBounds(d * a, SECOND);
    TruncDivBounds(d * b, SECOND);
    Products(b - a, -rate, d);
    Products(d, 0, a);
    Products(d, 0, b);
    Products(rate, 0, b - a);
    assert (b - a) * d == d * b - d * a;
    assert (b - a) * -rate == -(rate * (b - a));
  }

  lemma CurveFallsSlowly(c: Curve, early: int, late: int, rate: int)
    requires c.from - c.to <= rate && rate >= 0 && c.start <= early <= late
    ensures (c.from - c.Delay(late)) * SECOND <= rate * (late - c.start)
    ensures (c.Delay(early) - c.Delay(late)) * SECOND <= rate * (late - early) + SECOND
  {
    PartialFall(c.to - c.from, c.Elapsed(late), rate);
    Products(rate, c.Elapsed(late), late - c.start);
    FallBetween(c.to - c.from, c.Elapsed(early), c.Elapsed(late), rate);
    Products(rate, c.Elapsed(late) - c.Elapsed(early), late - early);
  }

  lemma FallsAdd(rate: int, a: int, b: int, c: int, first: int, second: int, slack: int)
    requires first * SECOND <= rate * (b - a) + slack && second * SECOND <= rate * (c - b)
    ensures (first + second) * SECOND <= rate * (c - a) + slack
  {
    assert rate * (b - a) + rate * (c - b) == rate * (c - a);
  }

  lemma {:induction false} FallFromCurveStart(c: Control, run: seq<Event>, t: int, rate: int)
    requires Sane(c) && c.state.Some? && c.options.enabled && rate >= 0
    requires Steady(c.state.value.start, run) && t >= EndOf(c.state.value.start, run) && FallsWithin(c, run, rate)
    ensures var d := Run(c, run);
            d.state.Some? && (c.state.value.from - d.state.value.Delay(t)) * SECOND <= rate * (t - c.state.value.start)
    decreases |run|
  {
    var k := c.state.value;
    EndIsLast(k.start, run);
    if run == [] {
      CurveFallsSlowly(k, k.start, t, rate);
    } else {
      SteadyStep(c, run[0]);
      var d := Apply(c, run[0]);
      if d.state == c.state {
        SteadyFromEarlier(run[0].now, k.start, run[1..]);
        FallFromCurveStart(d, run[1..], t, rate);
      } else {
        CurveFallsSlowly(k, k.start, run[0].now, rate);
        FallFromCurveStart(d, run[1..], t, rate);
        FallsAdd(rate, k.start, run[0].now, t, k.from - k.Delay(run[0].now),
                 k.Delay(run[0].now) - Run(c, run).state.value.Delay(t), 0);
      }
    }
  }

  /**
   * Between any two instants of a steady run none of whose curves falls by more than `rate` in its
   * second, the delay falls at most at that rate, give or take the nanosecond of the interpolation.
   */
  lemma {:induction false} FallIsLimited(c: Control, run: seq<Event>, early: int, late: int, rate: int)
    requires Sane(c) && c.state.Some? && c.options.enabled && rate >= 0
    requires c.state.value.start <= early && Steady(early, run) && late >= EndOf(early, run)
             && FallsWithin(c, run, rate)
    ensures var d := Run(c, run);
            && d.state.Some?
            && (c.state.value.Delay(early) - d.state.value.Delay(late)) * SECOND <= rate * (late - early) + SECOND
    decreases |run|
  {
    EndIsLast(early, run);
    if run == [] {
      CurveFallsSlowly(c.state.value, early, late, rate);
    } else {
      SteadyStep(c, run[0]);
      var d := Apply(c, run[0]);
      if d.state == c.state {
        SteadyFromEarlier(run[0].now, early, run[1..]);
        FallIsLimited(d, run[1..], early, late, rate);
      } else {
        CurveFallsSlowly(c.state.value, early, run[0].now, rate);
        FallFromCurveStart(d, run[1..], late, rate);
        var middle := c.state.value.Delay(run[0].now);
        FallsAdd(rate, early, run[0].now, late, c.state.value.Delay(early) - middle,
                 middle - Run(c, run).state.value.Delay(late), SECOND);
      }
    }
  }

  /** A step lays a curve that falls at most at the catch-up rate for the delay it starts from. */
  lemma StepFallsAtCatchUp(c: Control, now: int, late: int)
    requires Sane(c)
    ensures var d := c.Stepped(now, late);
            d.state == c.state || d.state.None? || CurveFall(d) <= c.options.CatchUp(d.state.value.from, c.base)
  {
    if c.state.Some? {
      CatchUpBounds(c.options, c.state.value.Delay(now), c.base);
    }
  }

  /** The catch-up rate in force when an event lays a curve; a reconfiguration lays a level one. */
  function LaidRate(c: Control, e: Event): int {
    if e.StepAt? && c.Due(e.now) && c.options.enabled
    then c.options.CatchUp(c.state.value.Delay(e.now), c.base) else 0
  }

  /** The largest rate in force when a curve of the run was laid. */
  function InForce(c: Control, run: seq<Event>): int
    decreases |run|
  {
    if run == [] then 0 else Max(LaidRate(c, run[0]), InForce(Apply(c, run[0]), run[1..]))
  }

  /** An event of a steady run leaves the curve alone or lays one that falls at most at the rate in force. */
  lemma LaidWithinRate(c: Control, e: Event)
    requires Sane(c) && c.state.Some? && c.options.enabled && !e.JumpAt?
    requires e.ConfigureAt? ==> e.options.enabled && WholeMS(e.base)
    ensures Apply(c, e).state == c.state || CurveFall(Apply(c, e)) <= Max(0, LaidRate(c, e))
  {
    if e.StepAt? {
      StepFallsAtCatchUp(c, e.now, e.late);
    }
  }

  lemma {:induction false} LaidRunsFallWithin(c: Control, run: seq<Event>, t: int, rate: int)
    requires Sane(c) && c.state.Some? && c.options.enabled && Steady(t, run)
    requires CurveFall(c) <= rate && InForce(c, run) <= rate && rate >= 0
    ensures FallsWithin(c, run, rate)
    decreases |run|
  {
    if run != [] {
      SteadyStep(c, run[0]);
      LaidWithinRate(c, run[0]);
      LaidRunsFallWithin(Apply(c, run[0]), run[1..], run[0].now, rate);
    }
  }

  // ----- when the configured speed holds

  /** What is left of the curve from `now` on falls no faster than `rate`, to within the rounded nanosecond. */
  predicate Slow(k: Curve, now: int, rate: int) {
    (k.Delay(now) - k.to) * SECOND <= rate * Max(0, k.start + SECOND - now) + SECOND
  }

  /** The fall from `early` on the present curve to `late` after the run keeps to `rate`. */
  predicate FallKeeps(c: Control, run: seq<Event>, early: int, late: int, rate: int) {
    var d := Run(c, run);
    && c.state.Some? && d.state.Some?
    && (c.state.value.Delay(early) - d.state.value.Delay(late)) * SECOND <= rate * (late - early) + SECOND
  }

  /** A curve that falls faster than `rate` falls least behind it at its end. */
  lemma SteepFall(d: int, a: int, b: int, rate: int)
    requires d <= -rate <= 0 && 0 <= a <= b <= SECOND
    requires (TruncDiv(d * a, SECOND) - d) * SECOND <= rate * (SECOND - a) + SECOND
    ensures (TruncDiv(d * a, SECOND) - TruncDiv(d * b, SECOND)) * SECOND <= rate * (b - a) + SECOND
  {
    TruncDivBounds(d * b, SECOND);
    Products(d, 0, b);
    Products(SECOND - b, d, -rate);
    assert (SECOND - b) * d == d * SECOND - d * b;
    assert (SECOND - b) * -rate == -(rate * SECOND - rate * b);
    assert rate * (SECOND - a) == rate * SECOND - rate * a;
    assert rate * (b - a) == rate * b - rate * a;
  }

  lemma RestOfCurve(k: Curve, now: int, late: int, rate: int)
    requires k.start <= now <= late && rate >= 0 && Slow(k, now, rate)
    ensures (k.Delay(now) - k.Delay(late)) * SECOND <= rate * (late - now) + SECOND
  {
    var d, a, b := k.to - k.from, k.Elapsed(now), k.Elapsed(late);
    Products(rate, b - a, late - now);
    if d >= -rate {
      FallBetween(d, a, b, rate);
    } else {
      if now >= k.start + SECOND {
        DelayAtEnds(k, now);
        DelayAtEnds(k, late);
      } else {
        SteepFall(d, a, b, rate);
      }
    }
  }

  /** From the start of a curve that keeps to the rate, through any run that does. */
  lemma FallAfterNewCurve(d: Control, run: seq<Event>, late: int, rate: int)
    requires Sane(d) && d.state.Some? && d.options.enabled && rate >= 0
    requires Steady(d.state.value.start, run) && late >= EndOf(d.state.value.start, run)
    requires CurveFall(d) <= rate && InForce(d, run) <= rate
    ensures var e := Run(d, run);
            && e.state.Some?
            && (d.state.value.from - e.state.value.Delay(late)) * SECOND <= rate * (late - d.state.value.start)
  {
    LaidRunsFallWithin(d, run, d.state.value.start, rate);
    FallFromCurveStart(d, run, late, rate);
  }

  /** The rest of the old curve, and then everything from the first event on. */
  lemma FallAcrossNewCurve(c: Control, run: seq<Event>, early: int, late: int, rate: int)
    requires Sane(c) && c.state.Some? && rate >= 0 && c.state.value.start <= early
    requires Slow(c.state.value, early, rate) && run != [] && early <= run[0].now
    requires var d, t := Apply(c, run[0]), run[0].now;
             && Sane(d) && d.state.Some? && d.options.enabled
             && d.state.value.start == t && d.state.value.from == c.state.value.Delay(t)
             && Steady(t, run[1..]) && late >= EndOf(t, run[1..])
             && CurveFall(d) <= rate && InForce(d, run[1..]) <= rate
    ensures FallKeeps(c, run, early, late, rate)
  {
    var k, d, t := c.state.value, Apply(c, run[0]), run[0].now;
    RestOfCurve(k, early, t, rate);
    FallAfterNewCurve(d, run[1..], late, rate);
    FallsAdd(rate, early, t, late, k.Delay(early) - k.Delay(t), k.Delay(t) - Run(c, run).state.value.Delay(late),
      SECOND);
  }

  /**
   * Over any steady run, reconfigurations included, the delay falls at most at the largest catch-up rate in
   * force when a curve of the run was laid, if what is left of the curve at its start does.
   */
  lemma {:induction false} LaidRatesLimitFall(c: Control, run: seq<Event>, early: int, late: int, rate: int)
    requires Sane(c) && c.state.Some? && c.options.enabled
    requires c.state.value.start <= early && Steady(early, run) && late >= EndOf(early, run)
    requires InForce(c, run) <= rate && rate >= 0 && Slow(c.state.value, early, rate)
    ensures FallKeeps(c, run, early, late, rate)
    decreases |run|
  {
    var k := c.state.value;
    EndIsLast(early, run);
    if run == [] {
      RestOfCurve(k, early, late, rate);
    } else {
      SteadyStep(c, run[0]);
      var d := Apply(c, run[0]);
      if d.state == c.state {
        SteadyFromEarlier(run[0].now, early, run[1..]);
        LaidRatesLimitFall(d, run[1..], early, late, rate);
      } else {
        LaidWithinRate(c, run[0]);
        FallAcrossNewCurve(c, run, early, late, rate);
      }
    }
  }

  /** A run in which every reconfiguration asks for `speed` by hand. */
  predicate FixedSpeed(run: seq<Event>, speed: int) {
    forall i :: 0 <= i < |run| && run[i].ConfigureAt? ==>
                  run[i].options.autoCatchUp.Off? && run[i].options.catchUpMSPerSecond == speed
  }

  /** In such a run no other speed is ever in force. */
  lemma {:induction false} OnlySpeedInForce(c: Control, run: seq<Event>, t: int)
    requires Sane(c) && c.state.Some? && c.options.enabled && c.options.autoCatchUp.Off?
    requires Steady(t, run) && FixedSpeed(run, c.options.catchUpMSPerSecond)
    ensures InForce(c, run) <= c.options.catchUpMSPerSecond * MILLISECOND
    decreases |run|
  {
    if run != [] {
      SteadyStep(c, run[0]);
      var d, speed := Apply(c, run[0]), c.options.catchUpMSPerSecond;
      assert d.options.autoCatchUp.Off? && d.options.catchUpMSPerSecond == speed;
      forall i | 0 <= i < |run[1..]| && run[1..][i].ConfigureAt?
        ensures run[1..][i].options.autoCatchUp.Off? && run[1..][i].options.catchUpMSPerSecond == speed
      {
        assert run[1..][i] == run[i + 1];
      }
      OnlySpeedInForce(d, run[1..], run[0].now);
    }
  }

  /** The delay keeps to the configured speed from `now` on, whatever follows at that speed. */
  ghost predicate SpeedHolds(c: Control, now: int) {
    forall run, late :: Steady(now, run) && FixedSpeed(run, c.options.catchUpMSPerSecond) && late >= EndOf(now, run) ==>
      FallKeeps(c, run, now, late, c.options.catchUpMSPerSecond * MILLISECOND)
  }

  /**
   * From any instant of any state, the delay keeps to a speed set by hand over every continuation at that
   * speed exactly if what is left of the running curve does.
   */
  lemma SpeedHoldsIff(c: Control, now: int)
    requires Sane(c) && c.state.Some? && c.options.enabled && c.options.autoCatchUp.Off? && c.state.value.start <= now
    ensures SpeedHolds(c, now) <==> Slow(c.state.value, now, c.options.catchUpMSPerSecond * MILLISECOND)
  {
    var k, rate := c.state.value, c.options.catchUpMSPerSecond * MILLISECOND;
    if SpeedHolds(c, now) {
      var late := Max(now, k.start + SECOND);
      DelayAtEnds(k, late);
      assert Steady(now, []) && FixedSpeed([], c.options.catchUpMSPerSecond) && EndOf(now, []) == now;
      assert FallKeeps(c, [], now, late, rate);
    }
    if Slow(k, now, rate) {
      forall run, late | Steady(now, run) && FixedSpeed(run, c.options.catchUpMSPerSecond) && late >= EndOf(now, run)
        ensures FallKeeps(c, run, now, late, rate)
      {
        OnlySpeedInForce(c, run, now);
        LaidRatesLimitFall(c, run, now, late, rate);
      }
    }
  }

  /** A curve that is over, or was laid to fall no faster, is slow. */
  lemma SlowEnough(k: Curve, now: int, rate: int)
    requires k.start <= now && rate >= 0
    ensures now >= k.start + SECOND || k.from - k.to <= rate ==> Slow(k, now, rate)
  {
    DelayAtEnds(k, Max(now, k.start + SECOND));
    Products(rate, 0, Max(0, k.start + SECOND - now));
    if k.from - k.to <= rate {
      CurveFallsSlowly(k, now, Max(now, k.start + SECOND), rate);
    }
  }

  /**
   * So after any reconfiguration to a speed set by hand: that speed holds from then on exactly if a new curve
   * was laid, or what was left of the old one is slow enough for it.
   */
  lemma ReconfiguredSpeedHoldsIff(c: Control, base: int, o: Options, now: int)
    requires Sane(c) && c.state.Some? && c.state.value.start <= now && WholeMS(base) && o.enabled && o.autoCatchUp.Off?
    ensures var d := c.Configured(base, o, now);
            SpeedHolds(d, now) <==>
              c.Relays(base, o) || Slow(c.state.value, now, d.options.catchUpMSPerSecond * MILLISECOND)
  {
    var d := c.Configured(base, o, now);
    ConfiguredSane(c, base, o, now);
    SpeedHoldsIff(d, now);
    if c.Relays(base, o) {
      SlowEnough(d.state.value, now, d.options.catchUpMSPerSecond * MILLISECOND);
    }
  }

  /** At a speed fixed by hand the delay falls, between any two instants, at most at that speed. */
  lemma ManualSpeedLimitsFall(c: Control, run: seq<Event>, early: int, late: int)
    requires Sane(c) && c.state.Some? && c.options.enabled && c.options.autoCatchUp.Off?
    requires c.state.value.start <= early && Steady(early, run) && late >= EndOf(early, run)
    requires FixedSpeed(run, c.options.catchUpMSPerSecond)
    requires Slow(c.state.value, early, c.options.catchUpMSPerSecond * MILLISECOND)
    ensures var d, rate := Run(c, run), c.options.catchUpMSPerSecond * MILLISECOND;
            && d.state.Some?
            && (c.state.value.Delay(early) - d.state.value.Delay(late)) * SECOND <= rate * (late - early) + SECOND
  {
    SpeedHoldsIff(c, early);
    assert FallKeeps(c, run, early, late, c.options.catchUpMSPerSecond * MILLISECOND);
  }

  lemma QuotientMonotone(a: int, c: int, b: int)
    requires b > 0 && 0 <= a <= c
    ensures a / b <= c / b
  {
    QuotientAtLeast(c, b, a / b);
    QuotientAtLeast(a, b, a / b);
  }

  /** The higher the delay, the faster it may fall. */
  lemma CatchUpMonotone(o: Options, low: int, high: int, base: int)
    requires low <= high
    ensures o.CatchUp(low, base) <= o.CatchUp(high, base)
  {
    QuotientMonotone(1900 * Max(0, low - base), 1900 * Max(0, high - base), 9 * o.Span(base));
  }

  /** The highest delay from which a curve of the run starts. */
  function Peak(c: Control, run: seq<Event>): int
    decreases |run|
  {
    var from := if c.state.Some? then c.state.value.from else 0;
    if run == [] then from else Max(from, Peak(Apply(c, run[0]), run[1..]))
  }

  /** No curve falls faster than its own starting point allows. */
  predicate Paced(c: Control) {
    c.state.Some? ==> CurveFall(c) <= c.options.CatchUp(c.state.value.from, c.base)
  }

  predicate OnlySteps(run: seq<Event>) {
    forall i :: 0 <= i < |run| ==> run[i].StepAt?
  }

  lemma {:induction false} PeakRateInForce(c: Control, run: seq<Event>, t: int, top: int)
    requires Sane(c) && c.state.Some? && c.options.enabled
    requires Steady(t, run) && OnlySteps(run) && Peak(c, run) <= top
    ensures InForce(c, run) <= c.options.CatchUp(top, c.base)
    decreases |run|
  {
    CatchUpBounds(c.options, top, c.base);
    if run != [] {
      assert run[0].StepAt?;
      SteadyStep(c, run[0]);
      var d := Apply(c, run[0]);
      if c.Due(run[0].now) {
        CatchUpMonotone(c.options, d.state.value.from, top, c.base);
      }
      PeakRateInForce(d, run[1..], run[0].now, top);
    }
  }

  /**
   * At whatever speed, also the automatic one: over a run of steps the delay falls at most at the
   * catch-up rate of the highest delay reached.
   */
  lemma CatchUpLimitsFall(c: Control, run: seq<Event>, early: int, late: int)
    requires Sane(c) && c.state.Some? && c.options.enabled && Paced(c)
    requires c.state.value.start <= early && Steady(early, run) && late >= EndOf(early, run) && OnlySteps(run)
    ensures FallKeeps(c, run, early, late, c.options.CatchUp(Peak(c, run), c.base))
  {
    var rate := c.options.CatchUp(Peak(c, run), c.base);
    CatchUpBounds(c.options, Peak(c, run), c.base);
    PeakRateInForce(c, run, early, Peak(c, run));
    CatchUpMonotone(c.options, c.state.value.from, Peak(c, run), c.base);
    SlowEnough(c.state.value, early, rate);
    LaidRatesLimitFall(c, run, early, late, rate);
  }

  /** Steps and jumps keep the curve paced, and so does any reconfiguration that lays a level one. */
  lemma PacedAfterEach(c: Control, e: Event)
    requires Sane(c) && Paced(c) && Sane(Apply(c, e))
    requires e.ConfigureAt? ==> CurveFall(Apply(c, e)) == 0
    ensures Paced(Apply(c, e))
  {
    var d := Apply(c, e);
    if d.state.Some? {
      CatchUpBounds(d.options, d.state.value.from, d.base);
    }
    if e.StepAt? {
      StepFallsAtCatchUp(c, e.now, e.late);
    }
  }

  // ----- a change of speed

  lemma {:induction false} RunSteps(c: Control, run: seq<Event>, n: nat)
    requires n < |run|
    ensures Run(c, run[..n + 1]) == Apply(Run(c, run[..n]), run[n])
    decreases n
  {
    if n > 0 {
      RunSteps(Apply(c, run[0]), run[1..], n - 1);
      assert run[..n + 1][1..] == run[1..][..n] && run[..n][1..] == run[1..][..n - 1];
    } else {
      assert run[..1][1..] == [];
    }
  }

  /** From the first configuration: the delay has risen by 50 ms, falls back, and is slowed down on its way. */
  const SLOWED := [
    ConfigureAt(SECOND, 0, Options(true, 1000, false, 200, Off)),
    StepAt(2 * SECOND, SECOND),
    StepAt(8 * SECOND, 0),
    ConfigureAt(8 * SECOND, 0, Options(true, 1000, false, 1, Off))]

  /** Configured to fall by 1 ms a second, it still falls by the 50 ms of the curve that was running. */
  lemma SlowedCurveFallsOn()
    ensures var d := Run(FRESH, SLOWED);
            && d.options.catchUpMSPerSecond == 1 && !d.options.Automatic() && d.state.Some?
            && d.state.value.Delay(8 * SECOND) - d.state.value.Delay(9 * SECOND) == 50 * MILLISECOND
  {
    var a := Apply(FRESH, SLOWED[0]);
    var b := Apply(a, SLOWED[1]);
    var c := Apply(b, SLOWED[2]);
    var d := Apply(c, SLOWED[3]);
    assert a.state == Some(Curve(SECOND, 0, 0, 0, 0, false)) && a.goal == 0;
    assert b.state == Some(Curve(2 * SECOND, 0, 50 * MILLISECOND, 0, 0, false)) && b.quietUntil == 7 * SECOND;
    DelayAtEnds(b.state.value, 8 * SECOND);
    assert c.state == Some(Curve(8 * SECOND, 50 * MILLISECOND, 0, 0, 0, false));
    assert d.state == c.state;
    DelayAtEnds(d.state.value, 8 * SECOND);
    DelayAtEnds(d.state.value, 9 * SECOND);
    RunSteps(FRESH, SLOWED, 0);
    RunSteps(FRESH, SLOWED, 1);
    RunSteps(FRESH, SLOWED, 2);
    RunSteps(FRESH, SLOWED, 3);
    assert SLOWED[..4] == SLOWED;
  }
}
