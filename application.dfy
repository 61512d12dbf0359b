/** The Application object: its state stack, the window's open flag, the published
    rates, and the run loop that steps everything once per iteration. */
module App {
  import opened Events
  import opened Scheduler
  import opened Calls

  /** The locals start() begins with: tick mark at the first clock reading, second mark
      at zero, both counters at zero. */
  function StartClock(startMs: int): Clock
  {
    Clock(startMs as real, 0.0, 0, 0)
  }

  /** No pass among `its` saw an event that closes the window. */
  predicate NoPassCloses(its: seq<Iteration>)
    decreases |its|
  {
    its == [] || (NoPassCloses(its[..|its| - 1]) && KeepsOpen(its[|its| - 1].events))
  }

  /** NoPassCloses says exactly that no event of any pass closes the window. */
  lemma {:induction false} NoPassClosesAll(its: seq<Iteration>)
    ensures NoPassCloses(its) <==> forall j :: 0 <= j < |its| ==> KeepsOpen(its[j].events)
    decreases |its|
  {
    if its != [] {
      NoPassClosesAll(its[..|its| - 1]);
    }
  }

  /** The calls dispatched by one pass `it` run from `c` while `top` is the top state. */
  function PassTrace(top: StateRef, c: Clock, it: Iteration): seq<Dispatched>
  {
    IterationCalls(top, it.events, Step(c, it).ticked, Step(c, it).report.Some?)
  }

  /** The calls dispatched by the passes `its`, run from `c` while `top` is the top state. */
  function RunCalls(top: StateRef, c: Clock, its: seq<Iteration>): seq<Dispatched>
    decreases |its|
  {
    if its == [] then []
    else
      var prefix := its[..|its| - 1];
      RunCalls(top, c, prefix) + PassTrace(top, Run(c, prefix), its[|its| - 1])
  }

  /** Re-associating a concatenation of five pieces, stated once as a lemma so that the
      solver meets it as one fact instead of unfolding it inside `Iterate`. */
  lemma Regroup<T>(a: seq<T>, b: seq<T>, c: seq<T>, d: seq<T>, e: seq<T>)
    ensures a + b + c + d + e == a + (b + (c + d + e))
  {
  }

  /** Only the top state is ever called: a suspended state receives nothing. */
  lemma {:induction false} RunCallsOnlyTop(top: StateRef, c: Clock, its: seq<Iteration>)
    ensures forall i :: 0 <= i < |RunCalls(top, c, its)| ==> RunCalls(top, c, its)[i].target == top
    decreases |its|
  {
    if its != [] {
      var prefix := its[..|its| - 1];
      var o := Step(Run(c, prefix), its[|its| - 1]);
      RunCallsOnlyTop(top, c, prefix);
      IterationShape(top, its[|its| - 1].events, o.ticked, o.report.Some?);
    }
  }

  /** Over a run, render is called once per pass. */
  lemma {:induction false} RunCallsRenders(top: StateRef, c: Clock, its: seq<Iteration>)
    ensures Count(RunCalls(top, c, its), OnRender) == |its|
    decreases |its|
  {
    if its != [] {
      var prefix := its[..|its| - 1];
      var o := Step(Run(c, prefix), its[|its| - 1]);
      RunCallsRenders(top, c, prefix);
      IterationCounts(top, its[|its| - 1].events, o.ticked, o.report.Some?);
      CountConcat(RunCalls(top, c, prefix), IterationCalls(top, its[|its| - 1].events, o.ticked, o.report.Some?), OnRender);
    }
  }

  /** Over a run, input and update are each called once per simulation tick. */
  lemma {:induction false} RunCallsUpdates(top: StateRef, c: Clock, its: seq<Iteration>)
    ensures Count(RunCalls(top, c, its), OnInput) == Ticks(c, its)
    ensures Count(RunCalls(top, c, its), OnUpdate) == Ticks(c, its)
    decreases |its|
  {
    if its != [] {
      var prefix := its[..|its| - 1];
      var o := Step(Run(c, prefix), its[|its| - 1]);
      var last := IterationCalls(top, its[|its| - 1].events, o.ticked, o.report.Some?);
      RunCallsUpdates(top, c, prefix);
      IterationCounts(top, its[|its| - 1].events, o.ticked, o.report.Some?);
      CountConcat(RunCalls(top, c, prefix), last, OnInput);
      CountConcat(RunCalls(top, c, prefix), last, OnUpdate);
    }
  }

  /** Over a run, tick is called once per second boundary crossed. */
  lemma {:induction false} RunCallsSeconds(top: StateRef, c: Clock, its: seq<Iteration>)
    ensures Count(RunCalls(top, c, its), OnTick) == Seconds(c, its)
    decreases |its|
  {
    if its != [] {
      var prefix := its[..|its| - 1];
      var o := Step(Run(c, prefix), its[|its| - 1]);
      RunCallsSeconds(top, c, prefix);
      IterationCounts(top, its[|its| - 1].events, o.ticked, o.report.Some?);
      CountConcat(RunCalls(top, c, prefix), IterationCalls(top, its[|its| - 1].events, o.ticked, o.report.Some?), OnTick);
    }
  }

  class Application {
    /** m_states: the stack of owned states, top at the back. */
    var states: seq<StateRef>
    /** Whether the window is open; the loop runs while it is. */
    var windowOpen: bool
    /** m_framesPerSecond and m_updatesPerSecond. */
    var framesPerSecond: nat
    var updatesPerSecond: nat
    /** Every call dispatched to a state so far, in order. */
    ghost var trace: seq<Dispatched>

    /** The active state: the back of the stack. */
    function Top(): StateRef
      reads this`states
      requires states != []
    {
      states[|states| - 1]
    }

    /** The window opens and the stack is seeded with a Menu. */
    constructor (menuId: nat)
      ensures states == [StateRef(Menu, menuId)]
      ensures windowOpen && framesPerSecond == 0 && updatesPerSecond == 0 && trace == []
    {
      states := [];
      windowOpen := true;
      framesPerSecond, updatesPerSecond := 0, 0;
      trace := [];
      new;
      PushState(StateRef(Menu, menuId));
    }

    /** The new state goes on top; everything below is kept. */
    method PushState(s: StateRef)
      modifies this`states
      ensures states == old(states) + [s]
      ensures Top() == s && states[..|old(states)|] == old(states)
    {
      states := states + [s];
    }

    /** The top state is removed; popping an empty stack is the caller's error. */
    method PopState()
      requires states != []
      modifies this`states
      ensures states == old(states)[..|old(states)| - 1]
    {
      states := states[..|states| - 1];
    }

    /** Pushing and then popping leaves the stack exactly as it was. */
    method PushThenPop(s: StateRef)
      modifies this`states
      ensures states == old(states)
    {
      PushState(s);
      PopState();
    }

    /** Forward one call to the top state. */
    method Dispatch(call: Call)
      requires states != []
      modifies this`trace
      ensures trace == old(trace) + [Dispatched(Top(), call)]
    {
      trace := trace + [Dispatched(Top(), call)];
    }

    /** handleEvents: a close request and the release of key E close the window; every
        event, those two included, is then forwarded to the top state. */
    method HandleEvent(e: Event)
      requires states != []
      modifies this`windowOpen, this`trace
      ensures windowOpen == (old(windowOpen) && !ClosesWindow(e))
      ensures trace == old(trace) + [Dispatched(Top(), OnEvent(e))]
    {
      match e {
        case Closed =>
          windowOpen := false;
        case KeyReleased(k) =>
          if k == E {
            windowOpen := false;
          }
        case _ =>
      }
      Dispatch(OnEvent(e));
    }

    /** Drain the batch of pending events, handling each in turn. */
    method PollEvents(events: seq<Event>)
      requires states != []
      modifies this`windowOpen, this`trace
      ensures windowOpen == (old(windowOpen) && KeepsOpen(events))
      ensures trace == old(trace) + EventCalls(Top(), events)
    {
      var i := 0;
      while i < |events|
        invariant 0 <= i <= |events|
        invariant windowOpen == (old(windowOpen) && KeepsOpen(events[..i]))
        invariant trace == old(trace) + EventCalls(Top(), events[..i])
      {
        assert events[..i + 1][..i] == events[..i];
        HandleEvent(events[i]);
        i := i + 1;
      }
      assert events[..i] == events;
    }

    /** The timestep gate of one iteration: when a tick is due, count it, move the mark
        on by UP_TICK and call input() then update() on the top state. */
    method SimulationTick(c: Clock, nowMs: int) returns (next: Clock)
      requires states != []
      modifies this`trace
      ensures next == Gate(c, nowMs)
      ensures trace == old(trace) + GateCalls(Top(), TickDue(c.upTimer, nowMs))
    {
      var upTimer, updates := c.upTimer, c.updates;
      if nowMs as real - upTimer > UpTick {
        updates := updates + 1;
        upTimer := upTimer + UpTick;
        Dispatch(OnInput);
        Dispatch(OnUpdate);
      }
      next := c.(upTimer := upTimer, updates := updates);
    }

    /** The per-second block of one iteration: when a second is due, move the second mark on,
        publish the counters as the rates, call tick() on the top state, zero the counters. */
    method PerSecond(c: Clock, nowSec: real) returns (next: Clock)
      requires states != []
      modifies this`trace, this`framesPerSecond, this`updatesPerSecond
      ensures next == Bookkeep(c, nowSec)
      ensures trace == old(trace) + SecondCalls(Top(), SecondDue(c.timer, nowSec))
      ensures SecondDue(c.timer, nowSec) ==> framesPerSecond == c.frames && updatesPerSecond == c.updates
      ensures !SecondDue(c.timer, nowSec) ==>
                framesPerSecond == old(framesPerSecond) && updatesPerSecond == old(updatesPerSecond)
    {
      var timer, frames, updates := c.timer, c.frames, c.updates;
      if nowSec - timer > 1.0 {
        timer := timer + 1.0;
        framesPerSecond := frames;
        updatesPerSecond := updates;
        Dispatch(OnTick);
        frames := 0;
        updates := 0;
      }
      next := c.(timer := timer, frames := frames, updates := updates);
    }

    /** One iteration of the loop in start(): handle all events, run at most one
        simulation tick, render, and once per second publish the rates and call tick. */
    method Iterate(c: Clock, it: Iteration) returns (next: Clock)
      requires states != []
      modifies this`windowOpen, this`trace, this`framesPerSecond, this`updatesPerSecond
      ensures next == Step(c, it).clock
      ensures windowOpen == (old(windowOpen) && KeepsOpen(it.events))
      ensures trace == old(trace) + PassTrace(Top(), c, it)
      ensures Rates(framesPerSecond, updatesPerSecond) ==
              Published(c, it, Rates(old(framesPerSecond), old(updatesPerSecond)))
    {
      ghost var top := Top();
      PollEvents(it.events);
      ghost var events := trace;
      var gated := SimulationTick(c, it.nowMs);
      ghost var ticks := trace;
      var framed := gated.(frames := gated.frames + 1);
      Dispatch(OnRender);
      ghost var rendered := trace;
      next := PerSecond(framed, it.nowSec);
      ghost var ticked, second := TickDue(c.upTimer, it.nowMs), SecondDue(framed.timer, it.nowSec);
      assert Step(c, it).ticked == ticked && Step(c, it).report.Some? == second;
      ghost var ev, gate, tail := EventCalls(top, it.events), GateCalls(top, ticked), SecondCalls(top, second);
      assert trace == old(trace) + ev + gate + [Dispatched(top, OnRender)] + tail;
      assert PassTrace(top, c, it) == ev + (gate + [Dispatched(top, OnRender)] + tail);
      Regroup(old(trace), ev, gate, [Dispatched(top, OnRender)], tail);
    }

    /** One pass of start()'s loop, seen from the loop: if the state is that of the first
        `n` passes, after this pass it is that of the first n + 1. */
    method Advance(ghost base: seq<Dispatched>, ghost open0: bool, ghost c0: Clock, ghost rates0: Rates,
                   its: seq<Iteration>, n: nat, c: Clock) returns (next: Clock)
      requires states != [] && n < |its|
      requires c == Run(c0, its[..n])
      requires trace == base + RunCalls(Top(), c0, its[..n])
      requires windowOpen == (open0 && NoPassCloses(its[..n]))
      requires Rates(framesPerSecond, updatesPerSecond) == Reported(c0, its[..n], rates0)
      modifies this`windowOpen, this`trace, this`framesPerSecond, this`updatesPerSecond
      ensures next == Run(c0, its[..n + 1])
      ensures trace == base + RunCalls(Top(), c0, its[..n + 1])
      ensures windowOpen == (old(windowOpen) && KeepsOpen(its[n].events))
      ensures windowOpen == (open0 && NoPassCloses(its[..n + 1]))
      ensures Rates(framesPerSecond, updatesPerSecond) == Reported(c0, its[..n + 1], rates0)
    {
      assert its[..n + 1][..n] == its[..n];
      next := Iterate(c, its[n]);
    }

    /** start(): from the first clock reading `startMs`, run passes of the loop over `its`
        while the window stays open. `n` passes ran; the loop stopped early only because
        the window closed, and it closed during the last pass that ran. */
    method Start(startMs: int, its: seq<Iteration>) returns (n: nat, c: Clock)
      requires states != []
      modifies this`windowOpen, this`trace, this`framesPerSecond, this`updatesPerSecond
      ensures n <= |its|
      ensures c == Run(StartClock(startMs), its[..n])
      ensures c.upTimer == startMs as real + Ticks(StartClock(startMs), its[..n]) as real * UpTick
      ensures trace == old(trace) + RunCalls(Top(), StartClock(startMs), its[..n])
      ensures windowOpen == (old(windowOpen) && NoPassCloses(its[..n]))
      ensures n > 0 ==> NoPassCloses(its[..n - 1])
      ensures !old(windowOpen) ==> n == 0
      ensures n < |its| ==> !windowOpen
      ensures Rates(framesPerSecond, updatesPerSecond) ==
              Reported(StartClock(startMs), its[..n], Rates(old(framesPerSecond), old(updatesPerSecond)))
    {
      ghost var c0 := StartClock(startMs);
      ghost var rates0 := Rates(framesPerSecond, updatesPerSecond);
      c := Clock(startMs as real, 0.0, 0, 0);
      n := 0;
      while windowOpen && n < |its|
        invariant n <= |its|
        invariant c == Run(c0, its[..n])
        invariant trace == old(trace) + RunCalls(Top(), c0, its[..n])
        invariant windowOpen == (old(windowOpen) && NoPassCloses(its[..n]))
        invariant n > 0 ==> NoPassCloses(its[..n - 1])
        invariant !old(windowOpen) ==> n == 0
        invariant Rates(framesPerSecond, updatesPerSecond) == Reported(c0, its[..n], rates0)
      {
        c := Advance(old(trace), old(windowOpen), c0, rates0, its, n, c);
        n := n + 1;
      }
      NoDrift(c0, its[..n]);
    }
  }

  /** Start with the Menu, push a Playing state, and run one pass: the Menu stays on the
      stack, suspended, and every call of the pass goes to Playing. */
  method MenuThenPlaying(menuId: nat, playingId: nat, it: Iteration) returns (app: Application)
    ensures app.states == [StateRef(Menu, menuId), StateRef(Playing, playingId)]
    ensures app.trace != []
    ensures forall i :: 0 <= i < |app.trace| ==> app.trace[i].target == StateRef(Playing, playingId)
  {
    app := new Application(menuId);
    app.PushState(StateRef(Playing, playingId));
    var c := app.Iterate(StartClock(0), it);
    IterationShape(StateRef(Playing, playingId), it.events, Step(StartClock(0), it).ticked,
                   Step(StartClock(0), it).report.Some?);
    IterationCounts(StateRef(Playing, playingId), it.events, Step(StartClock(0), it).ticked,
                    Step(StartClock(0), it).report.Some?);
  }
}
