/** The calls the application dispatches to its states, recorded as a trace. States are
    opaque identities: what a state does with a call is not part of this model. */
module Calls {
  import opened Events

  /** The two state variants. */
  datatype StateKind = Menu | Playing

  /** An owned state on the stack: its variant and an identity telling instances apart. */
  datatype StateRef = StateRef(kind: StateKind, id: nat)

  /** The five entry points every state offers. */
  datatype Call = OnEvent(event: Event) | OnInput | OnUpdate | OnRender | OnTick

  /** One dispatched call and the state that received it. */
  datatype Dispatched = Dispatched(target: StateRef, call: Call)

  /** Position of a call within one pass of the loop: events, input, update, render, tick. */
  function Phase(call: Call): nat
  {
    match call
    case OnEvent(_) => 0
    case OnInput => 1
    case OnUpdate => 2
    case OnRender => 3
    case OnTick => 4
  }

  /** How many entries of the trace are the call `call`. */
  function Count(t: seq<Dispatched>, call: Call): nat
    decreases |t|
  {
    if t == [] then 0
    else Count(t[..|t| - 1], call) + if t[|t| - 1].call == call then 1 else 0
  }

  lemma {:induction false} CountConcat(a: seq<Dispatched>, b: seq<Dispatched>, call: Call)
    ensures Count(a + b, call) == Count(a, call) + Count(b, call)
    decreases |b|
  {
    if b != [] {
      var ab := a + b;
      assert ab[..|ab| - 1] == a + b[..|b| - 1];
      assert ab[|ab| - 1] == b[|b| - 1];
      CountConcat(a, b[..|b| - 1], call);
      assert Count(ab, call) == Count(a + b[..|b| - 1], call) + if b[|b| - 1].call == call then 1 else 0;
    } else {
      assert a + b == a;
    }
  }

  lemma {:induction false} CountAbsent(t: seq<Dispatched>, call: Call)
    requires forall i :: 0 <= i < |t| ==> t[i].call != call
    ensures Count(t, call) == 0
    decreases |t|
  {
    if t != [] {
      CountAbsent(t[..|t| - 1], call);
    }
  }

  /** The batch's events as forwarded to `top`. */
  function EventCalls(top: StateRef, events: seq<Event>): seq<Dispatched>
    decreases |events|
  {
    if events == [] then []
    else EventCalls(top, events[..|events| - 1]) + [Dispatched(top, OnEvent(events[|events| - 1]))]
  }

  /** Every event of the batch is forwarded to `top`, once and in order. */
  lemma {:induction false} EventCallsForward(top: StateRef, events: seq<Event>)
    ensures |EventCalls(top, events)| == |events|
    ensures forall i :: 0 <= i < |events| ==> EventCalls(top, events)[i] == Dispatched(top, OnEvent(events[i]))
    decreases |events|
  {
    if events != [] {
      EventCallsForward(top, events[..|events| - 1]);
    }
  }

  /** The calls of one pass of the loop, all to the top state `top`: the batch's events,
      then input and update if a tick ran, then render, then tick if a second passed. */
  function IterationCalls(top: StateRef, events: seq<Event>, ticked: bool, second: bool): seq<Dispatched>
  {
    EventCalls(top, events) + PassCalls(top, ticked, second)
  }

  /** The calls of one pass that follow its events. */
  function PassCalls(top: StateRef, ticked: bool, second: bool): seq<Dispatched>
  {
    GateCalls(top, ticked) + [Dispatched(top, OnRender)] + SecondCalls(top, second)
  }

  /** The calls of the timestep gate: input then update, if a tick ran. */
  function GateCalls(top: StateRef, ticked: bool): seq<Dispatched>
  {
    if ticked then [Dispatched(top, OnInput), Dispatched(top, OnUpdate)] else []
  }

  /** The call of the per-second block: tick, if a second passed. */
  function SecondCalls(top: StateRef, second: bool): seq<Dispatched>
  {
    if second then [Dispatched(top, OnTick)] else []
  }

  /** The shape of one pass: every call goes to the top state; the events come first, each
      forwarded once and in order; after them input, update, render and tick each occur at
      most once and in that order; input and update occur exactly when a tick ran, render
      always, tick exactly when a second passed; and nothing else is called. */
  lemma IterationShape(top: StateRef, events: seq<Event>, ticked: bool, second: bool)
    ensures var t := IterationCalls(top, events, ticked, second);
      && (forall i :: 0 <= i < |t| ==> t[i].target == top)
      && |t| == |events| + (if ticked then 2 else 0) + 1 + (if second then 1 else 0)
      && (forall i :: 0 <= i < |events| ==> t[i].call == OnEvent(events[i]))
      && (forall i, j :: 0 <= i < j < |t| ==> Phase(t[i].call) <= Phase(t[j].call))
      && (forall i, j :: |events| <= i < j < |t| ==> Phase(t[i].call) < Phase(t[j].call))
      && Count(t, OnInput) == (if ticked then 1 else 0)
      && Count(t, OnUpdate) == (if ticked then 1 else 0)
      && Count(t, OnRender) == 1
      && Count(t, OnTick) == (if second then 1 else 0)
  {
    IterationOrder(top, events, ticked, second);
    IterationLength(top, events, ticked, second);
    IterationCounts(top, events, ticked, second);
  }

  /** The ordering half of IterationShape. */
  lemma IterationOrder(top: StateRef, events: seq<Event>, ticked: bool, second: bool)
    ensures var t := IterationCalls(top, events, ticked, second);
      && (forall i :: 0 <= i < |t| ==> t[i].target == top)
      && |events| <= |t|
      && (forall i :: 0 <= i < |events| ==> t[i].call == OnEvent(events[i]))
      && (forall i, j :: 0 <= i < j < |t| ==> Phase(t[i].call) <= Phase(t[j].call))
      && (forall i, j :: |events| <= i < j < |t| ==> Phase(t[i].call) < Phase(t[j].call))
  {
    EventCallsForward(top, events);
  }

  /** A pass holds the batch's events, two calls for a tick, render, and one call for a
      second, and nothing more. */
  lemma IterationLength(top: StateRef, events: seq<Event>, ticked: bool, second: bool)
    ensures |IterationCalls(top, events, ticked, second)| ==
            |events| + (if ticked then 2 else 0) + 1 + (if second then 1 else 0)
  {
    EventCallsForward(top, events);
  }

  /** The counting half of IterationShape. */
  lemma IterationCounts(top: StateRef, events: seq<Event>, ticked: bool, second: bool)
    ensures Count(IterationCalls(top, events, ticked, second), OnInput) == (if ticked then 1 else 0)
    ensures Count(IterationCalls(top, events, ticked, second), OnUpdate) == (if ticked then 1 else 0)
    ensures Count(IterationCalls(top, events, ticked, second), OnRender) == 1
    ensures Count(IterationCalls(top, events, ticked, second), OnTick) == (if second then 1 else 0)
  {
    var ev := EventCalls(top, events);
    EventCallsForward(top, events);
    var gate := if ticked then [Dispatched(top, OnInput), Dispatched(top, OnUpdate)] else [];
    var tail := if second then [Dispatched(top, OnTick)] else [];
    var rest := gate + [Dispatched(top, OnRender)] + tail;
    assert rest == PassCalls(top, ticked, second);
    CountsOfRest(top, ticked, second, gate, tail, rest);
    forall c | c in {OnInput, OnUpdate, OnRender, OnTick}
      ensures Count(ev + rest, c) == Count(rest, c)
    {
      CountAbsent(ev, c);
      CountConcat(ev, rest, c);
    }
  }

  lemma CountsOfRest(top: StateRef, ticked: bool, second: bool,
                     gate: seq<Dispatched>, tail: seq<Dispatched>, rest: seq<Dispatched>)
    requires gate == if ticked then [Dispatched(top, OnInput), Dispatched(top, OnUpdate)] else []
    requires tail == if second then [Dispatched(top, OnTick)] else []
    requires rest == gate + [Dispatched(top, OnRender)] + tail
    ensures Count(rest, OnInput) == Count(rest, OnUpdate) == if ticked then 1 else 0
    ensures Count(rest, OnRender) == 1
    ensures Count(rest, OnTick) == if second then 1 else 0
  {
    var render := [Dispatched(top, OnRender)];
    if ticked {
      assert gate[..1] == [Dispatched(top, OnInput)];
    }
    CountSplit(gate, render, tail, OnInput);
    CountSplit(gate, render, tail, OnUpdate);
    CountSplit(gate, render, tail, OnRender);
    CountSplit(gate, render, tail, OnTick);
  }

  lemma CountSplit(a: seq<Dispatched>, b: seq<Dispatched>, c: seq<Dispatched>, call: Call)
    ensures Count(a + b + c, call) == Count(a, call) + Count(b, call) + Count(c, call)
  {
    CountConcat(a, b, call);
    CountConcat(a + b, c, call);
  }
}
