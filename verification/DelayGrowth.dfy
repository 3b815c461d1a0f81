/**
 * How the shared delay answers lateness (internal/dynamicdelay/delay.go, Step and updateGoal): it climbs by 50 ms a
 * second, as far as the late packet calls for and no further.
 */
module DelayGrowth {
  import opened RtpClock
  import opened DelayController

  const HEADROOM := 100 * MILLISECOND

  /** Every event is a step that takes effect while control stays enabled. */
  ghost predicate AllDue(c: Control, run: seq<Event>)
    decreases |run|
  {
    run != [] ==>
      && run[0].StepAt? && c.options.enabled && c.Due(run[0].now)
      && AllDue(Apply(c, run[0]), run[1..])
  }

  /** Each comes with lateness, or no later than 5 s after the last that did, which was at `last`. */
  ghost predicate Unquiet(last: int, run: seq<Event>)
    decreases |run|
  {
    run != [] ==>
      && run[0].StepAt? && (run[0].late > 0 || run[0].now <= last + 5 * SECOND)
      && Unquiet(if run[0].late > 0 then run[0].now else last, run[1..])
  }

  predicate NothingLate(run: seq<Event>) {
    forall i :: 0 <= i < |run| ==> run[i].StepAt? && run[i].late <= 0
  }

  /** Where the curve is a second after the last step. */
  function EndOfCurve(c: Control): int
    requires c.state.Some?
  {
    c.state.value.to
  }

  /** The goal after a step while nothing is quiet. */
  function NextGoal(c: Control, x: int, late: int): int {
    if late > 0 then Max(c.goal, Min(c.options.Maximum(), x + late + HEADROOM)) else c.goal
  }

  /** A step that is due, during unrest. */
  predicate Climbing(c: Control, e: Event) {
    e.StepAt? && Sane(c) && c.options.enabled && c.Due(e.now) && (e.late > 0 || e.now <= c.quietUntil)
  }

  lemma StepClimbs(c: Control, e: Event)
    requires Climbing(c, e)
    ensures var x, d := c.state.value.Delay(e.now), Apply(c, e);
            && Sane(d) && d.state.Some? && d.lastStep == e.now && d.state.value.start == e.now
            && d.goal == NextGoal(c, x, e.late)
            && d.quietUntil == (if e.late > 0 then e.now + 5 * SECOND else c.quietUntil)
            && (x <= d.goal ==> EndOfCurve(d) == Min(x + GROWTH, d.goal))
  {
    SteppedSane(c, e.now, e.late);
    CatchUpBounds(c.options, c.state.value.Delay(e.now), c.base);
  }

  /** By the next step that is due the curve has come to its end. */
  lemma CurveIsOver(d: Control, now: int)
    requires d.state.Some? && d.state.value.start == d.lastStep && d.Due(now)
    ensures d.state.value.Delay(now) == EndOfCurve(d)
  {
    DelayAtEnds(d.state.value, now);
  }

  /** The delay a run starts from. */
  predicate StartsAt(c: Control, run: seq<Event>, x: int) {
    c.state.Some? && x == (if run == [] then EndOfCurve(c) else c.state.value.Delay(run[0].now))
  }

  /** n steps up from x, but not over the goal; exactly so if nothing new was late. */
  ghost predicate Climbed(d: Control, run: seq<Event>, x: int, goal: int) {
    && d.state.Some? && EndOfCurve(d) >= Min(x + |run| * GROWTH, goal)
    && (NothingLate(run) ==> EndOfCurve(d) == Min(x + |run| * GROWTH, goal))
  }

  lemma ClimbOneMore(d: Control, run: seq<Event>, x: int, y: int, goal: int, next: int)
    requires run != [] && y == Min(x + GROWTH, next) && goal <= next && Climbed(d, run[1..], y, next)
    requires run[0].StepAt? && (run[0].late <= 0 ==> next == goal)
    ensures Climbed(d, run, x, goal)
  {
    var n := |run|;
    assert (n - 1) * GROWTH + GROWTH == n * GROWTH;
    if NothingLate(run) {
      assert run[0].late <= 0;
      assert forall i :: 0 <= i < |run[1..]| ==> run[1..][i] == run[i + 1];
    }
  }

  /** From below its goal the delay climbs with every step until it is there, and stays while nothing is quiet. */
  lemma {:induction false} Climbs(c: Control, run: seq<Event>, x: int, last: int)
    requires Sane(c) && AllDue(c, run) && StartsAt(c, run, x) && x <= c.goal
    requires Unquiet(last, run) && c.quietUntil == last + 5 * SECOND
    ensures Climbed(Run(c, run), run, x, c.goal)
    decreases |run|
  {
    if run != [] {
      var d := Apply(c, run[0]);
      assert Climbing(c, run[0]);
      StepClimbs(c, run[0]);
      RestStartsThere(c, run);
      Climbs(d, run[1..], EndOfCurve(d), if run[0].late > 0 then run[0].now else last);
      ClimbOneMore(Run(c, run), run, x, EndOfCurve(d), c.goal, d.goal);
    }
  }

  lemma RestStartsThere(c: Control, run: seq<Event>)
    requires run != [] && Climbing(c, run[0]) && AllDue(c, run)
    ensures var d := Apply(c, run[0]); d.state.Some? && StartsAt(d, run[1..], EndOfCurve(d))
  {
    var d := Apply(c, run[0]);
    StepClimbs(c, run[0]);
    if |run| > 1 {
      assert run[1..][0] == run[1];
      CurveIsOver(d, run[1].now);
    }
  }

  /**
   * A step at delay x with lateness l > 0, and n - 1 more, none later than 5 s after one with lateness: the
   * delay ends n times 50 ms higher, or at what the late packet calls for, x + l + 100 ms within the maximum, or
   * at a goal that was higher still; exactly there if nothing else is late, and no lower if something is.
   */
  lemma LatenessRaisesDelay(c: Control, run: seq<Event>)
    requires Sane(c) && c.state.Some? && run != [] && AllDue(c, run)
    requires run[0].late > 0 && Unquiet(run[0].now, run[1..])
    requires c.state.value.Delay(run[0].now) <= c.options.Maximum()
    ensures var x, d := c.state.value.Delay(run[0].now), Run(c, run);
            var goal := Max(c.goal, Min(c.options.Maximum(), x + run[0].late + HEADROOM));
            && d.state.Some? && EndOfCurve(d) >= Min(x + |run| * GROWTH, goal)
            && (NothingLate(run[1..]) ==> EndOfCurve(d) == Min(x + |run| * GROWTH, goal))
  {
    var x, d := c.state.value.Delay(run[0].now), Apply(c, run[0]);
    assert Climbing(c, run[0]);
    StepClimbs(c, run[0]);
    RestStartsThere(c, run);
    Climbs(d, run[1..], EndOfCurve(d), run[0].now);
    FirstStepCounts(Run(c, run), run[1..], x, EndOfCurve(d), d.goal);
  }

  lemma FirstStepCounts(d: Control, rest: seq<Event>, x: int, y: int, goal: int)
    requires y == Min(x + GROWTH, goal) && Climbed(d, rest, y, goal)
    ensures EndOfCurve(d) >= Min(x + (|rest| + 1) * GROWTH, goal)
    ensures NothingLate(rest) ==> EndOfCurve(d) == Min(x + (|rest| + 1) * GROWTH, goal)
  {
    assert |rest| * GROWTH + GROWTH == (|rest| + 1) * GROWTH;
  }

  /**
   * From 5 s after the last lateness on the delay goes back to the base, and the given number of steps takes it
   * there.
   */
  lemma LatenessPasses(c: Control, now: int, late: int, times: seq<int>, t: int)
    requires Climbing(c, StepAt(now, late)) && late > 0
    requires var d := c.Stepped(now, late);
             && Spaced(d, times) && times[0] > now + 5 * SECOND
             && |times| * c.options.SlowestCatchUp() >= EndOfCurve(d) - c.base
             && |times| * GROWTH >= c.base - EndOfCurve(d)
    requires t >= times[|times| - 1] + SECOND
    ensures var d := QuietSteps(c.Stepped(now, late), times); d.state.Some? && d.state.value.Delay(t) == c.base
  {
    var d := c.Stepped(now, late);
    StepClimbs(c, StepAt(now, late));
    DelayAtEnds(d.state.value, times[0]);
    QuietReachesBase(d, times, t);
  }

  /**
   * A step asks for a jump exactly if jumps are allowed and the maximum cannot hold what is needed: the delay
   * itself, or the delay, the lateness and 100 ms. A jump that is asked for stays so until it is made.
   */
  lemma JumpIsAskedForIff(c: Control, now: int, late: int)
    requires Sane(c) && c.options.enabled && c.Due(now)
    ensures var x, d := c.state.value.Delay(now), c.Stepped(now, late);
            d.state.Some? && (d.state.value.pending <==>
              || c.state.value.pending
              || (c.options.jump
                  && (x > c.options.Maximum() || (late > 0 && x + late > c.options.Maximum() - HEADROOM))))
  {
  }

  /** A step does nothing before the last jump or within a second of the last step; switched off, it ends the curve. */
  lemma StepTakesEffectIff(c: Control, now: int, late: int)
    requires c.state.Some?
    ensures if now >= c.state.value.cutoff && now - c.lastStep >= SECOND
            then c.Stepped(now, late).lastStep == now && c.Stepped(now, late).state.Some? == c.options.enabled
            else c.Stepped(now, late) == c
  {
  }

  /** What options mean: nothing set is 10 s with jumps, 10 ms a second, automatic; the rest is kept within limits. */
  lemma OptionsMean(o: Options, baseMS: int)
    requires 1 <= baseMS <= 10_000
    ensures var n := o.Normalize(baseMS);
            && n.enabled == o.enabled && n.autoCatchUp == (if o.autoCatchUp.Off? then Off else On)
            && (o.maximumMS == 0 ==> n.maximumMS == 10_000 && n.jump)
            && (baseMS <= o.maximumMS <= 10_000 ==> n.maximumMS == o.maximumMS && n.jump == o.jump)
            && (o.maximumMS != 0 && o.maximumMS < baseMS ==> n.maximumMS == baseMS)
            && (o.maximumMS > 10_000 ==> n.maximumMS == 10_000)
            && (o.catchUpMSPerSecond == 0 ==> n.catchUpMSPerSecond == 10)
            && (1 <= o.catchUpMSPerSecond <= 200 ==> n.catchUpMSPerSecond == o.catchUpMSPerSecond)
  {
  }

  /** The delay makes for the base: up by 50 ms at most, down by no less than the slowest catch-up, and not past it. */
  predicate MakesForBase(c: Control, x: int, to: int) {
    && (x <= c.base ==> to == Min(c.base, x + GROWTH))
    && (x >= c.base ==> c.base <= to <= Max(c.base, x - c.options.SlowestCatchUp()))
  }

  /** While the goal is the base, a step with nothing late makes for it, quiet or not. */
  lemma AimedStepMakesForBase(c: Control, now: int, late: int)
    requires Sane(c) && c.options.enabled && c.Due(now) && late <= 0 && c.goal == c.base
    ensures var d := c.Stepped(now, late);
            d.state.Some? && MakesForBase(c, c.state.value.Delay(now), EndOfCurve(d)) && d.goal == d.base == c.base
  {
    CatchUpBounds(c.options, c.state.value.Delay(now), c.base);
  }

  /** A configuration that lays a new curve forgets what earlier lateness called for. */
  lemma ConfigurationMakesForBase(c: Control, base: int, o: Options, now: int, later: int, late: int)
    requires Sane(c) && WholeMS(base) && o.enabled && c.Relays(base, o) && late <= 0
    requires c.Configured(base, o, now).Due(later)
    ensures var d := c.Configured(base, o, now);
            && d.base == base && d.Stepped(later, late).state.Some?
            && MakesForBase(d, d.state.value.Delay(later), EndOfCurve(d.Stepped(later, late)))
  {
    ConfiguredSane(c, base, o, now);
    AimedStepMakesForBase(c.Configured(base, o, now), later, late);
  }

  /** And so does a jump: from its instant on the delay is the base, and stays so while nothing is late. */
  lemma {:induction false} JumpRestsAtBase(c: Control, times: seq<int>, t: int)
    requires Sane(c) && c.options.enabled && c.goal == c.base && c.state.Some?
    requires c.state.value.from == c.state.value.to == c.base && Spaced(c, times)
    ensures var d := QuietSteps(c, times); d.state.Some? && d.state.value.Delay(t) == c.base
    decreases |times|
  {
    var d := c.Stepped(times[0], 0);
    DelayAtEnds(c.state.value, times[0]);
    AimedStepMakesForBase(c, times[0], 0);
    SteppedSane(c, times[0], 0);
    if |times| > 1 {
      SpacedAfter(c, times);
      JumpRestsAtBase(d, times[1..], t);
    } else {
      assert QuietSteps(c, times) == d;
      DelayAtEnds(d.state.value, t);
    }
  }

  lemma SpacedAfter(c: Control, times: seq<int>)
    requires Sane(c) && Spaced(c, times) && c.options.enabled && |times| > 1
    ensures Spaced(c.Stepped(times[0], 0), times[1..])
  {
    assert times[1] - times[0] >= SECOND;
    NextStep(c, times, 0);
  }

  lemma JumpMakesForBase(c: Control, now: int, mediaTime: int, times: seq<int>, t: int)
    requires Sane(c) && c.options.enabled && c.state.Some? && c.state.value.pending
    requires Spaced(c.Jumped(now, mediaTime), times)
    ensures var d := QuietSteps(c.Jumped(now, mediaTime), times); d.state.Some? && d.state.value.Delay(t) == c.base
  {
    JumpedSane(c, now, mediaTime);
    JumpRestsAtBase(c.Jumped(now, mediaTime), times, t);
  }
}
