# Twinkrun game engine in Dafny

Twinkrun is a proximity colour game for phones. Each player shows a colour that
changes over time. Phones discover each other over Bluetooth, and a meeting with
another player changes the score according to both players' current colours.
The engine is the class `TWRGame` (`Twinkrun/Models/TWRGame.swift`). It runs a
countdown, then the game, and a game timer ends it. The engine is driven by two
kinds of callback:

- five repeating run-loop timers: countdown, colour change, score sampling,
  flash and game end;
- the Bluetooth central's discovery callback.

Each callback updates the engine's fields in place and notifies a delegate.

In the source, a game never gets past its start: the countdown tick that sees
zero starts the game and then traps at line 92, before any game-phase timer can
fire. In a build with overflow checks, `updateColor`, `updateScore`, `flash`,
`end(timer:)` and the discovery callback (which unwraps `startTime`) therefore
never run. The model states what each of those handlers does when it is
called, and its runs deliberately go on past the trap, so that the handlers
can be studied in sequence.

The project has four modules:

- `TwrTypes` (`twr_types.dfy`) holds the value types:
  - the three engine states `Idle`, `CountDown` and `Stated`, as spelled in the source;
  - colours, colour intervals, delegate notifications and timers;
  - the run loop, players and game options;
  - the elapsed-time conversion.
- `TwrSpec` (`twr_spec.dfy`) is the engine as a state machine on values:
  - `GameView` holds everything the handlers read or write;
  - there is one step function per handler;
  - `Run` applies a sequence of inbound actions: a call of `start()` or `end()`,
    a timer firing, a discovery.
- `TwrGame` (`twr_game.dfy`) is the class `TWRGame`:
  - its fields are the fields of the Swift class;
  - each handler is a method that changes them in place;
  - each method is proved to perform the step function of `TwrSpec` on the
    object's `View()`, and to keep the timer table well formed.
- `TwrProperties` (`twr_properties.dfy`) proves properties of the handlers and of
  whole runs: the countdown, the delegate protocol, the flash bound, the colour
  history and score samples, discovery scoring, and the timers that `end()`
  leaves scheduled.

How the environment is represented:

- **Timers.** The run loop is a table of every timer the engine created, indexed
  by id, plus the set of ids still scheduled. Arming a timer stores a fresh id in
  its handle field. `invalidate()` removes an id from the scheduled set. Every
  timer of the source repeats, so firing never removes one. A handler can run
  only when a scheduled timer of its own kind fires. The run loop is the field
  `runLoop` of the class.
- **Delegate.** Notifications are appended to an event log.
- **Clock.** A reading is a `nat` of whole seconds passed to each handler. The
  elapsed time handed to the colour schedules is computed as the source does:
  the interval since `startTime`, divided by 1000 and truncated. The zero tick
  sets `startTime` to the clock reading at which it fires, so the first colour
  is read at elapsed time 0.
- **Collaborators.** The player's colour schedule and the option functions
  (`flashStartTime`, `flashInterval`, `gameTime`) are uninterpreted functions.
- **Discovery.** The equality test of the discovered player against each peer is
  an input `isMatch`.

Several behaviours of the code are easy to miss, and the model keeps them as
written:

- **No end state.** The state type has no end state, and `start()` has no
  guard on the state: it resets the round from any state and leaves `state`
  unchanged. `end()` changes no
  state, and a stray tick is not ignored.
- **Zero tick traps.** The countdown tick that sees zero starts the game, then
  decrements the unsigned counter (line 92), which traps in Swift. The
  decrement's precondition (a positive counter) fails there.
  - `TWRGame.CountDown` returns `trapped = true` on that tick.
  - `CountDownStep` gives the state at the trap, with the counter still 0.
  - Nothing wraps around.
- **No once-per-window limit.** The flag `countedScore`, cleared on every score
  sample (line 116) and tested before a discovery scores (line 153), is named
  for a limit of one score effect per peer and score window. The code never
  sets it to true, so
  each discovery of a playing peer adjusts `addScore` again
  (`RepeatedDiscovery`, `CountedNeverSet`).
- **Bonus never committed.** `addScore` is never added to `score`. Every score
  sample taken within an interval is therefore the same value (`RunSamples`).
- **Timer leaks.**
  - Re-arming the colour or flash timer (lines 104, 107, 125) overwrites the
    handle without invalidating the old timer.
  - A second `start()` does the same with the countdown timer
    (`RestartLeaksCountDown`).
  - `end()` invalidates only the timers the handles hold. A replaced timer stays
    scheduled and can fire after `end()` (`ReplacedColorTimerOutlivesEnd`,
    `ColorChangeFlashTimerOutlivesEnd`, `ReplacedFlashTimerOutlivesEnd`,
    `RestartedCountDownOutlivesEnd`).

## Model

| member | source | states |
|---|---|---|
| `TwrGame.TWRGame.constructor` | Twinkrun/Models/TWRGame.swift:44-55 | The new game is idle with score `option.startScore`, bonus 0, no history, no counters, no timers and no notifications; the timer table is well formed. |
| `TwrGame.TWRGame.ArmTimer` | Twinkrun/Models/TWRGame.swift:64-65 | Creates a repeating timer of the given kind with a fresh id, stores it in that kind's handle field and schedules it. Only the run loop and that one handle change. |
| `TwrGame.TWRGame.Invalidate` | Twinkrun/Models/TWRGame.swift:133-137 | `t?.invalidate()`: removes the timer `t` refers to, if any, from the scheduled set. Nothing else changes. |
| `TwrGame.TWRGame.Notify` | Twinkrun/Models/TWRGame.swift:18-25 | Appends one notification to the delegate log. Nothing else changes. |
| `TwrGame.TWRGame.ResetRound` | Twinkrun/Models/TWRGame.swift:58-62 | Empties the history and the samples, sets the score to `option.startScore`, the flash counter to 0 and the countdown to `option.countTime`. |
| `TwrGame.TWRGame.Start` | Twinkrun/Models/TWRGame.swift:57-66 | Performs `StartStep` on the view from any state, with no guard, and keeps the timer table well formed. |
| `TwrGame.TWRGame.CountDown` | Twinkrun/Models/TWRGame.swift:68-93 | Performs `CountDownStep`. `trapped` is true exactly when the counter was 0, the case in which the decrement at line 92 traps. |
| `TwrGame.TWRGame.StartGame` | Twinkrun/Models/TWRGame.swift:72-90 | The zero tick: performs `StartGameStep`. It invalidates the firing timer, sets the state to `Stated`, notifies start and colour, records the start time and arms four timers. |
| `TwrGame.TWRGame.CloseInterval` | Twinkrun/Models/TWRGame.swift:96-100 | Appends the interval made of the colour and the current samples to the history, empties the samples and zeroes the flash counter. |
| `TwrGame.TWRGame.UpdateColor` | Twinkrun/Models/TWRGame.swift:95-109 | Performs `UpdateColorStep` and keeps the timer table well formed. |
| `TwrGame.TWRGame.ClearCountedScores` | Twinkrun/Models/TWRGame.swift:115-117 | The loop over `others`: every peer ends with `countedScore` false and is otherwise unchanged. Their number and colour schedules are unchanged. |
| `TwrGame.TWRGame.UpdateScore` | Twinkrun/Models/TWRGame.swift:111-120 | Performs `UpdateScoreStep`. The configuration, including the peers' colour schedules, is unchanged. |
| `TwrGame.TWRGame.Flash` | Twinkrun/Models/TWRGame.swift:122-130 | Performs `FlashStep` and keeps the timer table well formed. |
| `TwrGame.TWRGame.End` | Twinkrun/Models/TWRGame.swift:132-138 | Performs `EndStep`: the five handles' timers are invalidated one after the other. |
| `TwrGame.TWRGame.EndByTimer` | Twinkrun/Models/TWRGame.swift:140-143 | Performs `EndTickStep`: `end()`, then one `didEndGame`. |
| `TwrGame.TWRGame.DidDiscover` | Twinkrun/Models/TWRGame.swift:145-159 | Performs `DiscoverStep` on the first peer that matches, if any. The configuration and the score are unchanged. |
| `TwrGame.FirstMatch` | Twinkrun/Models/TWRGame.swift:149-151 | `others.filter { $0 == findPlayer }[0]`: the result is a matching index with no match before it, and it is `None` exactly when no peer matches. |
| `TwrTypes.Elapsed` | Twinkrun/Models/TWRGame.swift:79 | The elapsed time handed to the colour schedules is the interval since the start divided by 1000, truncated: `current * 1000 <= now - start < (current + 1) * 1000`. |
| `TwrSpec.StepKeepsWellFormed` | Twinkrun/Models/TWRGame.swift:57-157 | Every handler keeps each live id in the table and each handle pointing at a timer of its own kind. |
| `TwrSpec.EndLive` | Twinkrun/Models/TWRGame.swift:132-138 | `end()` removes exactly the ids the handles hold from the scheduled set and changes nothing else. |
| `TwrProperties.StepNotifies` | Twinkrun/Models/TWRGame.swift:68-143 | Each handler appends exactly the notifications of the delegate protocol (`Emitted`), in order. |
| `TwrProperties.RunExtendsEvents` | Twinkrun/Models/TWRGame.swift:18-25 | No run removes or reorders a notification already sent. |
| `TwrProperties.RunKeepsWellFormed` | Twinkrun/Models/TWRGame.swift:37 | Every state reachable by a run keeps the timer table well formed. |
| `TwrProperties.StartForgetsRound` | Twinkrun/Models/TWRGame.swift:57-62 | Two states that differ only in history, samples, score, flash counter and countdown are equal after `start()`. |
| `TwrProperties.StartResets` | Twinkrun/Models/TWRGame.swift:57-66 | After `start()`: history and samples are empty, score is `startScore`, the flash counter is 0 and the countdown is `countTime`. One new 1-second countdown timer is scheduled and held in `scanTimer`. The state, the bonus, the peers and the notifications are unchanged. |
| `TwrProperties.RestartLeaksCountDown` | Twinkrun/Models/TWRGame.swift:64-65 | After two calls of `start()`, both countdown timers are scheduled; only the second is in the handle. |
| `TwrProperties.RestartedCountDownOutlivesEnd` | Twinkrun/Models/TWRGame.swift:64-65 | From a well-formed state, the countdown timer of the first of two `start()` calls is still scheduled after `end()`, and its handler can run again. |
| `TwrProperties.CountDownTicks` | Twinkrun/Models/TWRGame.swift:68-71 | `k <= n` ticks on counter `n` notify `n, n-1, ..., n-k+1`, leave the counter at `n-k` and the state `CountDown`, and change nothing else. |
| `TwrProperties.ZeroTickStartsGame` | Twinkrun/Models/TWRGame.swift:72-92 | The zero tick traps and does the following. It notifies `0`, start and colour, in that order. It invalidates the firing timer and sets the state to `Stated` and the start time to the clock reading. It arms the colour, score, flash and game timers in that order, with the intervals of the colour at elapsed time 0. The counter stays 0, and history, samples, score and flash counter are unchanged. |
| `TwrProperties.StartThenCountDown` | Twinkrun/Models/TWRGame.swift:57-93 | From `start()`, the countdown timer's first `countTime` ticks count down to 0. The next tick traps after starting the game. The log gains `countTime, ..., 0`, start and colour. The countdown timer is stopped, and exactly four new timers are scheduled. |
| `TwrProperties.UpdateColorAppendsInterval` | Twinkrun/Models/TWRGame.swift:95-108 | Exactly one interval is appended to the history: the current colour with the samples taken before the call. Earlier entries are kept. Samples are emptied and the flash counter zeroed, with one `didUpdateColor`. A colour timer with the colour's duration and a flash timer with `flashStartTime` of it are added and scheduled, and they replace the colour and flash handles; the old timers stay scheduled. Score, bonus, peers, state, start time, countdown and the other three handles are unchanged. |
| `TwrProperties.UpdateScoreSamples` | Twinkrun/Models/TWRGame.swift:111-120 | The score is appended to the samples and the bonus becomes 0. Every peer's counted flag is cleared; its playing flag and signal strength are kept. One `didUpdateScore` is sent. Score, history and timers are unchanged. |
| `TwrProperties.FlashStepBranches` | Twinkrun/Models/TWRGame.swift:122-130 | The flash counter rises by exactly one. Below `option.flashCount`, one `didFlash` is sent and a timer with `flashInterval` is added, scheduled and stored in the flash handle, the old one staying scheduled; otherwise nothing else changes. |
| `TwrProperties.RunFlashes` | Twinkrun/Models/TWRGame.swift:122-130 | In a run without `start()` and without a colour change, the number of `didFlash` equals `min(c', F) - min(c, F)`, where `c` and `c'` are the flash counter before and after and `F` is `option.flashCount`. |
| `TwrProperties.FlashBound` | Twinkrun/Models/TWRGame.swift:122-130 | From a counter reset (0), a run without `start()` or a colour change sends at most `option.flashCount` `didFlash`. |
| `TwrProperties.RunHistory` | Twinkrun/Models/TWRGame.swift:95-97 | In a run without `start()`, the history only grows. It gains one interval per `didUpdateColor`, minus one per `didStartGame`. |
| `TwrProperties.RunSamples` | Twinkrun/Models/TWRGame.swift:111-112 | In a run without `start()` or a colour change, the samples gain the unchanged score once per `didUpdateScore`. |
| `TwrProperties.DiscoverScores` | Twinkrun/Models/TWRGame.swift:150-157 | A discovery of peer `i` sets that peer's signal strength only. It changes `addScore` by the peer's colour score minus the player's, exactly when the peer plays and is not counted. Nothing else changes, including `score`. |
| `TwrProperties.DiscoverUnknown` | Twinkrun/Models/TWRGame.swift:149-150 | A discovery that matches no peer changes nothing. |
| `TwrProperties.CountedNeverSet` | Twinkrun/Models/TWRGame.swift:115-117 | If no peer is counted at the start of a run, none is counted in any reachable state. The number of peers and their playing flags are kept. |
| `TwrProperties.RepeatedDiscovery` | Twinkrun/Models/TWRGame.swift:153-156 | `k` discoveries of the same playing, uncounted peer add its gain `k` times to `addScore`. |
| `TwrProperties.EndStopsHandles` | Twinkrun/Models/TWRGame.swift:132-138 | After `end()`, no timer held by a handle is scheduled. Handles and the timer table are unchanged, and no timer is scheduled anew. |
| `TwrProperties.EndIdempotent` | Twinkrun/Models/TWRGame.swift:132-138 | `end()` twice is `end()` once. |
| `TwrProperties.EndTickNotifiesOnce` | Twinkrun/Models/TWRGame.swift:140-143 | `end(timer:)` is `end()` plus exactly one more `didEndGame`. |
| `TwrProperties.ReplacedColorTimerOutlivesEnd` | Twinkrun/Models/TWRGame.swift:104-105 | The colour timer that `updateColor` replaced is still scheduled after `end()`, and its handler can run again. |
| `TwrProperties.ColorChangeFlashTimerOutlivesEnd` | Twinkrun/Models/TWRGame.swift:107-108 | The flash timer that `updateColor` replaced is still scheduled after `end()`, and its handler can run again. |
| `TwrProperties.ReplacedFlashTimerOutlivesEnd` | Twinkrun/Models/TWRGame.swift:125-126 | The flash timer that `flash` replaced is still scheduled after `end()`, and its handler can run again. |

## Left out

- Real time is not modelled. Timer scheduling on `NSRunLoop`, the timers'
  periods and the order in which due timers fire are outside the model. A
  timer's interval is recorded, and any scheduled timer may fire at any point
  of a run.
- `NSDate` is floating point; here clock readings are whole seconds, so the
  model's `/ 1000` truncates a whole number of seconds. The conversion of that
  quotient to `UInt` is the truncation of a non-negative number.
- The Bluetooth managers, the decoding of advertisement data into a
  `TWRPlayer`, the player equality operator and the two empty state callbacks
  (lines 161-165) are not part of this model. The outcome of the equality test
  on each peer is an input.
- The colour schedule `TWRPlayer.currentColor` and the option functions
  `flashStartTime`, `flashInterval` and `gameTime` are not part of this model.
  They are uninterpreted functions.
- The delegate is optional in the source; the model records every notification
  as if a delegate were set.
- Selector strings and the unused `timer` parameters of the handlers are
  runtime binding details, not modelled. Each timer is bound to the handler
  of its kind. Read literally, the strings name other methods, or none: `"end"` names
  `end()`, which sends no `didEndGame`, and `"countDown"`, `"updateColor"`,
  `"updateScore"` and `"flash"` name no method of the class (the handlers
  take a `timer:` argument). The model assumes each binding reaches the
  `timer:` handler.
- `TWRPlayer` objects are shared references in the source; the model keeps the
  peers as values in `others`, so aliasing between `others` and other holders
  of the same player objects is not captured.
- `TwrGame.TWRGame.CountDown`: the state after a trapping tick is the state at the trap; the model's later steps from it are not behaviour of the source, which has crashed.
- The overflow of `flashCount` (`UInt`) after 2^64 flash ticks is not modelled.
- `TwrGame.TWRGame.UpdateColor`: requires a clock reading no earlier than `startTime`. The source accepts an earlier reading: an interval of under 1000 seconds back converts to 0, and a longer one makes the `UInt` conversion at line 96 trap. Neither case is modelled.
- `TwrGame.TWRGame.DidDiscover`: requires a clock reading no earlier than `startTime`, for the same reason, at line 146. It also does not model the traps of the 64-bit `Int` subtraction and addition on `addScore` at lines 154-155.
- `TwrProperties.RepeatedDiscovery`: `addScore` is an unbounded integer, so `k` discoveries add `k` times the gain for every `k`. In the source, `score` and `addScore` are 64-bit `Int`s, and the bonus traps once it leaves that range.
