/** The clock arithmetic of Application::start: the fixed-timestep gate and the
    once-per-second rate snapshot, as pure functions over the loop's local variables. */
module Scheduler {
  import opened Events

  datatype Option<T> = None | Some(value: T)

  /** UP_TICK: the length of one simulation tick in milliseconds, 1000/60, kept exact. */
  const UpTick: real := 1000.0 / 60.0

  /** The loop-local variables of start(): the tick mark `upTimer` (ms), the second mark
      `timer` (s), and the frame and update counters of the current second. */
  datatype Clock = Clock(upTimer: real, timer: real, frames: nat, updates: nat)

  /** What one pass of the loop reads from the outside: the events polled, the millisecond
      clock reading taken for the gate and the second reading taken for the snapshot. */
  datatype Iteration = Iteration(events: seq<Event>, nowMs: int, nowSec: real)

  /** Frames and updates per second, as snapshotted once per second. */
  datatype Rates = Rates(fps: nat, ups: nat)

  /** The effect of one pass on the clock: the new locals, whether a simulation tick ran,
      and the rates reported if the second boundary was crossed. */
  datatype Outcome = Outcome(clock: Clock, ticked: bool, report: Option<Rates>)

  /** A simulation tick is due when strictly more than UP_TICK has passed since the tick mark. */
  predicate TickDue(upTimer: real, nowMs: int)
  {
    nowMs as real - upTimer > UpTick
  }

  /** The per-second bookkeeping is due when strictly more than one second has passed. */
  predicate SecondDue(timer: real, nowSec: real)
  {
    nowSec - timer > 1.0
  }

  /** The timestep gate: when a tick is due, count it and move the mark on by UP_TICK. */
  function Gate(c: Clock, nowMs: int): Clock
  {
    if TickDue(c.upTimer, nowMs) then c.(updates := c.updates + 1, upTimer := c.upTimer + UpTick) else c
  }

  /** The per-second bookkeeping: when a second is due, move the second mark on by one and
      zero both counters (their values having been reported). */
  function Bookkeep(c: Clock, nowSec: real): Clock
  {
    if SecondDue(c.timer, nowSec) then c.(timer := c.timer + 1.0, frames := 0, updates := 0) else c
  }

  /** One pass of the loop body, in the source's order: the gate, one frame, then the
      per-second snapshot of the counters as they stand after this pass's frame. */
  function Step(c: Clock, it: Iteration): Outcome
  {
    var gated := Gate(c, it.nowMs);
    var framed := gated.(frames := gated.frames + 1);
    Outcome(Bookkeep(framed, it.nowSec), TickDue(c.upTimer, it.nowMs),
            if SecondDue(framed.timer, it.nowSec) then Some(Rates(framed.frames, framed.updates)) else None)
  }

  /** What one pass guarantees. At most one tick, and exactly when strictly more than
      UP_TICK has passed since the mark. A tick moves the mark by UP_TICK, not to now, so the
      mark stays below now. The snapshot is taken exactly when more than a second has
      passed. It reports the counts including this pass's frame and tick, advances the
      second mark by one and zeroes both counters; otherwise they only count. */
  lemma StepContract(c: Clock, it: Iteration)
    ensures var o := Step(c, it);
      && (o.ticked <==> TickDue(c.upTimer, it.nowMs))
      && o.clock.upTimer == (if o.ticked then c.upTimer + UpTick else c.upTimer)
      && (o.ticked ==> o.clock.upTimer < it.nowMs as real)
      && (o.report.Some? <==> SecondDue(c.timer, it.nowSec))
      && (o.report.Some? ==>
            o.report.value == Rates(c.frames + 1, if o.ticked then c.updates + 1 else c.updates) &&
            o.clock.timer == c.timer + 1.0 && o.clock.frames == 0 && o.clock.updates == 0)
      && (o.report.None? ==>
            o.clock.timer == c.timer && o.clock.frames == c.frames + 1 &&
            o.clock.updates == if o.ticked then c.updates + 1 else c.updates)
  {
  }

  /** The locals after running the passes `its` in order from `c`. */
  function Run(c: Clock, its: seq<Iteration>): Clock
    decreases |its|
  {
    if its == [] then c else Step(Run(c, its[..|its| - 1]), its[|its| - 1]).clock
  }

  /** The number of passes among `its` that ran a simulation tick; never more than one
      per pass. */
  function Ticks(c: Clock, its: seq<Iteration>): (k: nat)
    decreases |its|
    ensures k <= |its|
  {
    if its == [] then 0
    else
      var prefix := its[..|its| - 1];
      Ticks(c, prefix) + if Step(Run(c, prefix), its[|its| - 1]).ticked then 1 else 0
  }

  /** The number of passes among `its` that crossed a second boundary. */
  function Seconds(c: Clock, its: seq<Iteration>): (k: nat)
    decreases |its|
    ensures k <= |its|
    ensures k as real == Run(c, its).timer - c.timer
  {
    if its == [] then 0
    else
      var prefix := its[..|its| - 1];
      Seconds(c, prefix) + if Step(Run(c, prefix), its[|its| - 1]).report.Some? then 1 else 0
  }

  /** The published rates after one pass: its report if it crossed a second, else `prev`. */
  function Published(c: Clock, it: Iteration, prev: Rates): Rates
  {
    match Step(c, it).report
    case Some(r) => r
    case None => prev
  }

  /** The rates last reported by the passes `its`, or `initial` if none crossed a second. */
  function Reported(c: Clock, its: seq<Iteration>, initial: Rates): Rates
    decreases |its|
  {
    if its == [] then initial
    else
      var prefix := its[..|its| - 1];
      Published(Run(c, prefix), its[|its| - 1], Reported(c, prefix, initial))
  }

  /** No drift: after k ticks the tick mark is exactly k * UP_TICK past where it started,
      however the clock readings fell. */
  lemma {:induction false} NoDrift(c: Clock, its: seq<Iteration>)
    ensures Run(c, its).upTimer == c.upTimer + Ticks(c, its) as real * UpTick
    decreases |its|
  {
    if its != [] {
      NoDrift(c, its[..|its| - 1]);
    }
  }

  /** The tick mark never overtakes a bound that it and every clock reading respect. */
  lemma {:induction false} MarkBelowClock(c: Clock, its: seq<Iteration>, bound: real)
    requires c.upTimer <= bound
    requires forall i :: 0 <= i < |its| ==> its[i].nowMs as real <= bound
    ensures Run(c, its).upTimer <= bound
    decreases |its|
  {
    if its != [] {
      MarkBelowClock(c, its[..|its| - 1], bound);
    }
  }

  /** The ticks performed never exceed what the elapsed time justifies: if `now` is no
      earlier than the starting mark and than every reading (with a clock that never runs
      backwards, the last reading is such a `now`), then k ticks satisfy
      k * UP_TICK <= now - starting mark. */
  lemma NeverAhead(c: Clock, its: seq<Iteration>, now: int)
    requires c.upTimer <= now as real
    requires forall i :: 0 <= i < |its| ==> its[i].nowMs <= now
    ensures Ticks(c, its) as real * UpTick <= now as real - c.upTimer
  {
    MarkBelowClock(c, its, now as real);
    NoDrift(c, its);
  }

  /** A backlog is worked off one tick per pass: if at least |its| ticks are overdue at
      the reading `now` and the clock never falls below `now` afterwards, every pass ticks. */
  lemma {:induction false} BacklogOnePerPass(c: Clock, its: seq<Iteration>, now: int)
    requires forall i :: 0 <= i < |its| ==> its[i].nowMs >= now
    requires now as real - c.upTimer > |its| as real * UpTick
    ensures Ticks(c, its) == |its|
    decreases |its|
  {
    if its != [] {
      var prefix := its[..|its| - 1];
      BacklogOnePerPass(c, prefix, now);
      NoDrift(c, prefix);
    }
  }

  /** Within one second (no pass crosses the boundary) the second mark stays put, `frames`
      counts every pass and `updates` counts exactly the ticking passes. */
  lemma {:induction false} CountsWithinSecond(c: Clock, its: seq<Iteration>)
    requires forall i :: 0 <= i < |its| ==> !SecondDue(c.timer, its[i].nowSec)
    ensures Run(c, its).timer == c.timer
    ensures Run(c, its).frames == c.frames + |its|
    ensures Run(c, its).updates == c.updates + Ticks(c, its)
    decreases |its|
  {
    if its != [] {
      CountsWithinSecond(c, its[..|its| - 1]);
    }
  }

  /** Starting from freshly reset counters, the pass that crosses the second boundary
      reports as fps the number of passes (renders) of that second, itself included, and as
      ups the number of simulation ticks among them. */
  lemma SecondReportsRates(c: Clock, its: seq<Iteration>)
    requires c.frames == 0 && c.updates == 0
    requires its != []
    requires forall i :: 0 <= i < |its| - 1 ==> !SecondDue(c.timer, its[i].nowSec)
    requires SecondDue(c.timer, its[|its| - 1].nowSec)
    ensures Step(Run(c, its[..|its| - 1]), its[|its| - 1]).report == Some(Rates(|its|, Ticks(c, its)))
    ensures Reported(c, its, Rates(0, 0)) == Rates(|its|, Ticks(c, its))
  {
    CountsWithinSecond(c, its[..|its| - 1]);
  }
}
