# Application run loop of Community-Game, modelled in Dafny

This project models the core of `src/app/Application.cpp`. An `Application` owns a window and a
stack of game states (a Menu first, later Playing). Its run loop, `start()`, does one pass per
iteration:

1. It drains and handles the pending window events.
2. It runs at most one fixed-length simulation tick. The tick is `UP_TICK` = 1000/60 ms long and
   calls `input()` then `update()` on the top state.
3. It renders the top state.
4. Once per second, it publishes frames-per-second and updates-per-second, calls `tick()`, and
   resets both counters.

Files:

- `events.dfy` (module `Events`): window events, and which of them close the window (a close
  request, or the release of key E).
- `scheduler.dfy` (module `Scheduler`): the loop's clock arithmetic as pure functions over
  start()'s local variables (`Clock`). `Step` is one pass (the gate `Gate`, one frame, the
  per-second block `Bookkeep`); `StepContract` says what that pass guarantees. `Run`, `Ticks`,
  `Seconds` and `Reported` fold passes together. The lemmas say the tick mark never drifts, the ticks never
  get ahead of the clock, a backlog is worked off one tick per pass, and the per-second snapshot
  reports the passes and ticks of that second.
- `calls.dfy` (module `Calls`): states as opaque identities, and the trace of calls the
  application sends them. `IterationShape` gives the order and multiplicity of the calls in one pass, and that
  it holds no other call.
- `application.dfy` (module `App`): class `Application`. Its fields are the stack `states`, the
  window flag `windowOpen`, the published rates, and a ghost `trace` of dispatched calls. Its
  methods follow the source: the constructor, `PushState`, `PopState`, `HandleEvent`,
  `PollEvents`, the loop's two guarded blocks `SimulationTick` and `PerSecond`, one loop pass
  `Iterate` (with `Advance`, the same pass stated in terms of the folds over passes), and the
  loop `Start`. Each method's postcondition ties
  the new state to the functions of `Scheduler` and `Calls`.

Time is exact. The millisecond clock reading is an integer converted to `real`, and `UP_TICK` is
the real number 1000/60. The seconds reading is a separate `real` input, because the source
reads the clock twice: once for the gate and once for the per-second check. Clock readings,
event batches and the first clock reading are parameters of `Start`. `Start` runs over a finite
sequence of passes. It stops when the window is closed or when the sequence runs out.

A fixed-timestep loop is often expected to run floor(E / UP_TICK) ticks over E ms, however the
interval is sliced. This code instead guards the tick with an `if`, so it runs at most one tick per
pass and works a backlog off one tick per later pass. `Ticks` (at most one per pass), `NeverAhead`
and `BacklogOnePerPass` state what the code actually guarantees.

## Model

| member | source | states |
|---|---|---|
| `Scheduler.StepContract` | src/app/Application.cpp:76-110 | A tick runs iff now - upTimer > UP_TICK (strictly). A tick advances upTimer by exactly UP_TICK, which leaves it still below now. With no tick, upTimer is unchanged. A report is made iff nowSec - timer > 1. It carries the frame count including this pass and the update count including this pass's tick. It then advances timer by 1 and zeroes both counters. Otherwise timer is unchanged, frames grows by 1 and updates by the tick |
| `Scheduler.Ticks` | src/app/Application.cpp:77-84 | The ticks over a run of passes are at most the number of passes: never more than one per pass |
| `Scheduler.Seconds` | src/app/Application.cpp:100-102 | The second boundaries crossed are at most one per pass, and they equal how far timer has advanced |
| `Scheduler.NoDrift` | src/app/Application.cpp:77-81 | After k ticks, upTimer = upTimer0 + k * UP_TICK. It is never re-anchored to the clock |
| `Scheduler.MarkBelowClock` | src/app/Application.cpp:76-81 | If a bound is at least the starting mark and every clock reading, the tick mark cannot pass it |
| `Scheduler.NeverAhead` | src/app/Application.cpp:56-81 | Take a time `now` no earlier than the starting mark and every reading; with a clock that never runs backwards, the last reading is one. Then k ticks satisfy k * UP_TICK <= now - starting mark: never more ticks than the elapsed time justifies |
| `Scheduler.BacklogOnePerPass` | src/app/Application.cpp:77-81 | With at least n ticks overdue at a reading `now`, and a clock that never reads below `now` afterwards, each of n passes runs exactly one tick |
| `Scheduler.CountsWithinSecond` | src/app/Application.cpp:80-110 | While no pass crosses the second boundary, timer is unchanged, frames counts every pass and updates counts exactly the ticking passes |
| `Scheduler.SecondReportsRates` | src/app/Application.cpp:100-110 | Starting from reset counters, the pass that crosses the second reports fps = the number of passes (renders) of that second and ups = its number of ticks; those become the published rates |
| `Calls.EventCallsForward` | src/app/Application.cpp:71-74 | Every event of the batch is forwarded once, in order, to the top state |
| `Calls.IterationShape` | src/app/Application.cpp:67-110 | In one pass all calls go to the top state. Events come first, in order. input, update, render and tick then each occur at most once and in that order. input and update occur iff a tick ran; render always occurs; tick occurs iff a second passed. The pass holds exactly these calls and nothing else: its length is the batch's length plus 2 for a tick, 1 for render and 1 for a second |
| `Calls.IterationCounts` | src/app/Application.cpp:77-110 | One pass holds one input and one update iff it ticked, exactly one render, and one tick iff the second boundary was crossed |
| `App.NoPassClosesAll` | src/app/Application.cpp:67-74 | The loop's "still open" condition over the passes run holds iff no event of any of those passes closes the window |
| `App.RunCallsOnlyTop` | src/app/Application.cpp:82-105 | Over a run, every dispatched call targets the top state; suspended states receive nothing |
| `App.RunCallsRenders` | src/app/Application.cpp:87-89 | Over a run, render is called exactly once per pass |
| `App.RunCallsUpdates` | src/app/Application.cpp:77-84 | Over a run, input and update are each called exactly once per simulation tick |
| `App.RunCallsSeconds` | src/app/Application.cpp:100-105 | Over a run, tick is called exactly once per second boundary crossed |
| `App.Application.constructor` | src/app/Application.cpp:46 | The stack starts as exactly one Menu, so it is non-empty. The window is open and the trace is empty |
| `App.Application.PushState` | src/app/Application.cpp:143-146 | The stack becomes old + [s]: s is the top and every earlier entry is unchanged |
| `App.Application.PopState` | src/app/Application.cpp:148-151 | Requires a non-empty stack; the stack becomes old without its last entry |
| `App.Application.PushThenPop` | src/app/Application.cpp:143-151 | A push followed by a pop restores the stack exactly |
| `App.Application.Dispatch` | src/app/Application.cpp:140 | A call goes to the back of the stack, which must be non-empty, and is appended to the trace |
| `App.Application.HandleEvent` | src/app/Application.cpp:116-141 | The window closes iff the event is Closed, or KeyReleased with key E. Any other event leaves the flag unchanged. In every case the event is then forwarded exactly once to the top state |
| `App.Application.PollEvents` | src/app/Application.cpp:70-74 | After draining a batch, the window is open iff it was open and no event of the batch closes it. The trace grows by the batch's forwarded events |
| `App.Application.SimulationTick` | src/app/Application.cpp:77-84 | The gate: if a tick is due, updates grows by one, upTimer by UP_TICK, and input then update go to the top state; otherwise nothing changes and nothing is called |
| `App.Application.PerSecond` | src/app/Application.cpp:100-110 | If a second is due, timer grows by one. The pre-reset frames and updates become the published rates, tick goes to the top state, and both counters become 0. Otherwise nothing changes |
| `App.Application.Iterate` | src/app/Application.cpp:67-112 | One loop pass: the new locals are those of Step. The window flag follows the events. The trace grows by exactly that pass's calls. On a report, the published rates are replaced by the report; otherwise they are unchanged |
| `App.Application.Advance` | src/app/Application.cpp:67-112 | One pass seen from the loop: if the locals, trace, window flag and rates are those of the first n passes, then after pass n + 1 they are those of the first n + 1 passes. Pass n + 1 closes the window iff one of its events closes it |
| `App.Application.Start` | src/app/Application.cpp:49-113 | The passes run only while the window is open. Every pass but the last kept it open, and the loop stops early only on a closed window. The final locals are Run over the passes that ran, with upTimer = start + ticks * UP_TICK. The trace is RunCalls of those passes. The published rates are the last report |
| `App.MenuThenPlaying` | src/app/Application.cpp:82-105 | Start with the Menu, push a Playing state and run one pass. The stack is [Menu, Playing], the pass made at least one call, and every call went to Playing: the suspended Menu received nothing |

## Left out

- Window creation, fullscreen and desktop-mode queries, vertical sync, `clear`/`display` and the label view geometry (lines 26-38, 69, 93-97, 112): graphics I/O.
- The fps and frame-time labels, font lookup, background music and logging (lines 18-24, 40-44, 62-65, 91, 106-107): foreign calls with no stateable logic.
- The frame-time measurement `m_frameTime` around `render` (lines 88-90): it needs a second, nested clock. The clock itself is a parameter.
- `Timestep::update` and the timestep value passed to `update` (lines 61, 79): it is not part of this model. `update` is recorded as a call without its argument.
- `inputPressed`, `mousePosition`, `setVSync`, `getWindow`, `getResources`, `getSettings` (lines 153-182): thin wrappers over the input manager and the window.
- The global `instance` pointer (lines 8, 16): ambient state with no effect on the loop.
- `App.Application.PollEvents`: the drain does not stop at the first event that closes the window. In SFML, `close()` destroys the window, so the next `pollEvent` returns false and the rest of the batch is never handled. The model forwards every event of the batch, a superset of the source's calls.
- What a state does with a call, including a state asking the application to push or pop, or closing the window through `getWindow()` (line 163; the Menu's quit action does this), during a callback. The model's states cannot close the window, so `Start`'s window flag follows the events alone. `Start` and `Iterate` keep the stack unchanged; `PushState`/`PopState` are modelled as separate operations.
- `Scheduler.StepContract`: the counters are unbounded naturals, so the 32-bit `uint` wrap-around of `frames` and `updates` is not modelled. Both are reset every second.
- `Scheduler.StepContract`: `UP_TICK`, `upTimer`, `timer` and the clock readings are `float` in the source. The model uses exact reals, so float rounding is not modelled. The millisecond reading is taken as an already-truncated integer.
- `App.Application.constructor`: the initial values of `m_framesPerSecond` and `m_updatesPerSecond` come from `Application.h`, which is not part of this model. They are taken to be 0.
- `src/app/states/StatePlaying.h`, `src/app/states/StateBase.h`, `src/entity/system/System.h`: declarations only. Tile passability, movement and stats systems have no bodies to model. `StateBase.h` only justifies the five calls a state receives.
