# Crash game front end — a Dafny model of its three state machines

The repository is the React client of a "crash" betting game. In a round the
multiplier climbs from 1 until the server ends the round, and players cash out
before that. Most of the client is rendering. This project models the three
components that hold real state, as Dafny classes with one method per
inbound event:

- **Autobet** (`src/components/Autobet.tsx`, module `Autobet`, numeric input in
  module `NumericInput`). It has three text settings: base bet, maximum and
  auto cash-out. The input gate only admits strings of the form `^\d*\.?\d*$`.
  Values go through JavaScript's `Number(x) || fallback`. A start check refuses
  bad settings. A countdown effect places the current stake while the countdown
  is in `(1, 8]` and the bet count is below the maximum. A `betResult` handler
  sets the next stake by the "base" or "double" strategy and adds one to the
  count.
- **Flight animation** (`src/components/Airplain.tsx`, module `Airplane`). The
  progress clock is `min(elapsed/12 s, 1)`, sampled while a run is live.
  Explosions use a one-shot latch, and a run start re-opens it. A resize while
  the game is on bumps the restart key. The flight path has 101 points. Pure
  rules choose whether the plane is drawn and what the corner readout shows.
- **Round view** (`src/components/Game.tsx`, module `Game`). The socket events
  `multiplierUpdate`, `gameStart` and `gameEnd` set the multiplier and the
  round flag. The place-bet and cash-out buttons emit fixed-shape messages, and
  only while a round is live.

How events map to Dafny:

- Socket callbacks, timer callbacks and renders with new props are method
  calls.
- The clock is the `now` parameter in milliseconds. `Date.now()` is part of
  the model only through that parameter.
- Outbound actions are appended to ghost sequences: `setBetAmount`,
  `placebet`, the error toast, `onExplode` and the socket emits.
- A React effect is a method. The event methods call it when its dependencies
  change, in the order the component declares its effects.

The Airplane explosion effect runs after the events that can change one of its
dependencies (multiplier, threshold, `hasExploded`, `gameActive`): the first
render, a prop change and a resize. The sampling tick and the two timeouts
change none of them, so the effect does not run there. After a prop change or
a resize it runs even when no dependency changed. That is the same as running
it only on a change, because its decision depends only on those dependencies
and firing changes one of them (`hasExploded`).

Module `Scenarios` holds client methods. They drive the classes through event
sequences using only the classes' contracts.

The code differs from a stricter reading of the game's rules in several ways.
The model follows the code each time:

- A lower or equal multiplier tick is not ignored. `multiplierUpdate`
  overwrites the multiplier (`Scenarios.LateTickOverwrites`).
- There are no separate bet-acceptance or cash-out flags. Both buttons depend
  on `gameActive` alone.
- The autobet count goes up when a bet *result* arrives, not when a bet is
  placed. The countdown effect re-runs on every change of `gameActive` or
  `countdown`. So one countdown 8, 7, …, 2 places seven bets
  (`Scenarios.RepeatedTicksInOneCountdown`). With one window tick and one
  result per round, three losing rounds at maximum 3 place three bets, and the
  fourth window stops the automation (`Scenarios.ThreeLosingRounds`).
- The settings can still be edited while autobet runs. The next window reads
  the new values: a maximum of "." (NaN) stops the automation
  (`Scenarios.EditingTheMaximumWhileRunning`). A cash-out edited to "1" is
  placed as 1.
- A resize during a round restarts the run and re-opens the explosion latch.
  `onExplode` can then be called again in the same round
  (`Scenarios.ResizeRestartsTheRun`).
- The explosion's 800 ms timeout is never cancelled. If a restart comes before
  it fires, it stops the new run's sampler and hides its plane
  (`Scenarios.ExplosionTimeoutOutlivesRestart`).

## Model

| member | source | states |
|---|---|---|
| NumericInput.AcceptsIffPattern | src/components/Autobet.tsx:40 | the character-by-character gate accepts a string iff it splits into digits, at most one dot, then digits (`^\d*\.?\d*$`), both directions |
| NumericInput.IntValue | src/components/Autobet.tsx:46-47 | the integer part read from the digits is 0 exactly when no digit other than 0 occurs |
| NumericInput.FracValue | src/components/Autobet.tsx:46-48 | the fraction read from the digits after the dot lies in [0, 1), and is 0 exactly when all of them are 0 |
| NumericInput.Parse | src/components/Autobet.tsx:46-48 | `Number` on an admitted string is NaN iff the string is "."; otherwise a non-negative value, an all-digit string is its integer, and the value is positive iff a digit other than 0 occurs |
| NumericInput.FracScaled | src/components/Autobet.tsx:46-48 | the fraction read from the digits after the dot, scaled by 10 to the number of digits, is the same digits read as an integer |
| NumericInput.ParseDecimal | src/components/Autobet.tsx:46-48 | `Number` on digits `w`, a dot and digits `f` (not both empty) is the integer `w` plus the integer `f` over 10^|f| |
| NumericInput.NumberOr | src/components/Autobet.tsx:46-48 | `Number(x) or d` is the parsed value, which is positive, when a digit other than 0 occurs, and is `d` otherwise ("", "0", "0.0", ".") |
| Autobet.WithField | src/components/Autobet.tsx:41 | the edited text field takes the new value; the other text fields and both strategies are unchanged |
| Autobet.WithStrategy | src/components/Autobet.tsx:163-165 | the chosen radio group takes the option; the other group and all text fields are unchanged |
| Autobet.StartCheck | src/components/Autobet.tsx:46-53 | a start that passes yields a positive stake equal to `Number(baseBet) or 0` |
| Autobet.StartCheckIff | src/components/Autobet.tsx:46-53 | a start passes iff base bet and maximum each have a digit other than 0 and the cash-out has none or reads as at least 1.01 |
| Autobet.StartRejectsCashoutOne | src/components/Autobet.tsx:48-53 | a cash-out typed as "1" or "1.00" is refused |
| Autobet.StartAcceptsCashoutFloor | src/components/Autobet.tsx:48-53 | a cash-out of "1.01" passes when base bet and maximum are positive |
| Autobet.StartWithDefaultCashout | src/components/Autobet.tsx:48-50 | an empty, zero or unparsable cash-out falls back to 1.01 and never blocks a start |
| Autobet.InBettingWindow | src/components/Autobet.tsx:65-71 | the window holds iff there is a countdown and it lies in 2..8 |
| Autobet.BelowCeilingIff | src/components/Autobet.tsx:72 | `currentBet < Number(maxStake)` holds iff the maximum has a digit other than 0 and reads as more than the count (NaN and 0 never admit a bet) |
| Autobet.StakeAfterResult | src/components/Autobet.tsx:92-104 | under "double" the next stake is twice the settled amount; under "base" it is `Number(baseBet) or 0` |
| Autobet.BaseResetsToStartStake | src/components/Autobet.tsx:55-56 | under "base" the next stake ignores the settled amount and equals the stake a start begins with |
| Autobet.BetActions | src/components/Autobet.tsx:73-76 | a bet sends `setBetAmount(stake)` and then `placebet(stake, cashout)`, with cash-out 1.01 when the setting has no digit other than 0 and its value otherwise |
| Autobet.AutobetController.constructor | src/components/Autobet.tsx:26-36 | empty settings, both strategies "base", count 0, stake 0, inactive, nothing sent |
| Autobet.AutobetController.InputChange | src/components/Autobet.tsx:39-43 | an edit is stored iff the gate admits it, and only the edited field changes |
| Autobet.AutobetController.ChooseStrategy | src/components/Autobet.tsx:163-165 | the radio choice replaces that strategy only |
| Autobet.AutobetController.StartAutobet | src/components/Autobet.tsx:45-58 | refused settings send one error toast and change nothing; otherwise count 0, stake = base bet, active |
| Autobet.AutobetController.StopAutobet | src/components/Autobet.tsx:60-62 | inactive; count and stake untouched |
| Autobet.AutobetController.PropsChange | src/components/Autobet.tsx:64-85 | the effect re-runs iff a prop changed; in the window it places exactly the current stake if below the maximum and otherwise stops; a run with the game off leaves autobet inactive |
| Autobet.AutobetController.CountdownEffect | src/components/Autobet.tsx:65-84 | one run of the effect: bet or stop inside the window, stop when the game is off, nothing else |
| Autobet.AutobetController.BetResult | src/components/Autobet.tsx:89-107 | ignored while inactive; otherwise the stake follows the outcome's strategy and the count goes up by exactly one |
| Airplane.Progress | src/components/Airplain.tsx:28 | a sample lies in [0, 1] and is 1 exactly from 12 000 ms on |
| Airplane.ProgressMonotone | src/components/Airplain.tsx:67-70 | later samples are never smaller, and strictly larger until saturation |
| Airplane.ProgressLinear | src/components/Airplain.tsx:67-70 | below saturation the sample is elapsed ms over 12 000 |
| Airplane.Display | src/components/Airplain.tsx:206-216 | the readout is the countdown iff there is one, else the multiplier iff the game is on, else nothing |
| Airplane.PathPoints | src/components/Airplain.tsx:100-112 | the loop yields exactly 101 points, the i-th at `t = i/100`, `x = t*width`, `y = height + 80 - t*t*height` |
| Airplane.PathEnds | src/components/Airplain.tsx:104-108 | the path runs from `(0, height+80)` to `(width, 80)` |
| Airplane.PathMonotone | src/components/Airplain.tsx:104-108 | for positive width x strictly increases along the path; for positive height y strictly decreases |
| Airplane.PathShape | src/components/Airplain.tsx:100-112 | every point sequence the loop yields has those end points and that monotonicity |
| Airplane.PlaneVisible | src/components/Airplain.tsx:169 | the plane is drawn iff it is not hidden, the game is on and it has not exploded |
| Airplane.Stopped | src/components/Airplain.tsx:74 | stopping never leaves the path drawing and never puts it at rest: a drawing path halts, a halted or resting one stays as it is |
| Airplane.AirplaneAnimation.constructor | src/components/Airplain.tsx:20-30 | initial size 1000×400, flags clear, progress 0, key 0, then the mount run of the path and explosion effects |
| Airplane.AirplaneAnimation.PathEffect | src/components/Airplain.tsx:53-81 | with the game on: drawing from 0, start time re-based, latch and both flags cleared, sampler on; with it off: sampler off, path stopped, one reset scheduled, flags kept |
| Airplane.AirplaneAnimation.ExplosionEffect | src/components/Airplain.tsx:84-98 | fires iff multiplier ≥ threshold, latch open and game on; then latch closed, explosion shown, `onExplode` called once, path stopped, one timeout scheduled; otherwise nothing changes |
| Airplane.AirplaneAnimation.SetProps | src/components/Airplain.tsx:53-98 | a game start restarts the run and re-opens the latch; an end stops sampling and schedules the path reset; the explosion fires at most once per run and then hides the plane; the plane is shown iff not hidden, game on, not exploded (src/components/Airplain.tsx:169) |
| Airplane.AirplaneAnimation.Resize | src/components/Airplain.tsx:33-50 | the size is stored; the key is bumped and the run restarted only while the game is on |
| Airplane.AirplaneAnimation.SampleTick | src/components/Airplain.tsx:67-71 | the progress becomes the sample for the time since the run started |
| Airplane.AirplaneAnimation.ExplosionTimerFires | src/components/Airplain.tsx:92-96 | sampling stops, the plane is hidden, the explosion is taken down |
| Airplane.AirplaneAnimation.PathResetTimerFires | src/components/Airplain.tsx:75-77 | the path goes back to length 0 only when this timeout fires |
| Game.GameView.constructor | src/components/Game.tsx:8-11 | multiplier 1, no round live, identity 1 / "Player1", nothing sent |
| Game.GameView.MultiplierUpdate | src/components/Game.tsx:15-17 | the carried value replaces the multiplier unconditionally; the round flag is untouched |
| Game.GameView.GameStart | src/components/Game.tsx:20-23 | a round is live and the multiplier is 1 |
| Game.GameView.GameEnd | src/components/Game.tsx:26-28 | no round is live; the multiplier is untouched |
| Game.GameView.PlaceBet | src/components/Game.tsx:38-42 | exactly one `placeBet` message `{userId, username, amount: 100}` is sent |
| Game.GameView.CashOut | src/components/Game.tsx:44-46 | exactly one `cashout` message with the user id and the current multiplier is sent |
| Game.GameView.ClickPlaceBet | src/components/Game.tsx:52-54 | the place-bet message is sent iff a round is live; otherwise nothing is sent |
| Game.GameView.ClickCashOut | src/components/Game.tsx:55-57 | the cash-out message is sent iff a round is live; otherwise nothing is sent |

## Left out

- Socket transport, `socket.on`/`off` and the handler lifecycle: every handler is a method, always subscribed.
- Toasts are recorded as an `ErrorToast` action with the message text; their display is not modelled.
- `placebet?.` and `onExplode?.` are optional in the source. The model records the call as if the callback were present.
- JavaScript numbers are exact reals, and countdowns are integers. Floating-point rounding, and `Number` on strings the input gate refuses (such strings never reach the settings), are not modelled.
- `toFixed`, the SVG path string and the `offsetDistance` string are not modelled: points are pairs of reals, and the readout is a tagged value.
- framer-motion is reduced to three path states (at rest, drawing, halted). Interpolation is not modelled, and `controls.set` during a running animation is taken to put the path at rest.
- The ResizeObserver and the clock are reduced to the `Resize` event and the `now` argument. Timers are counters of pending callbacks that the environment fires, without real timing.
- Airplane.AirplaneAnimation.SampleTick: requires the clock not to run backwards (`now >= start`). With a backwards clock the source would produce a negative progress.
- A stale React closure between a state update and the next render is not modelled: each event sees the latest state. The handlers do read state from the closure of the render that registered them. The countdown effect (`src/components/Autobet.tsx:64-85`) reads the count, the stake, the active flag and the settings, but depends only on `[gameActive, countdown]`. `handleInputChange` and the radio `onChange` read `settings`. Each of these runs with the closure of the latest render, which holds the latest state, because a render follows every state update before the next event arrives.
- The ResizeObserver is re-created on every change of `gameActive` (`src/components/Airplain.tsx:33-50`), and a new observer reports the size once when it starts observing. So in the program every game start is followed by a resize callback, which bumps the animation key and restarts the run a second time. The model allows this `Resize` event after a `SetProps` but does not force it.
- src/components/UserHistory.tsx, src/components/UserList.tsx, src/App.tsx, src/pages/Landing.tsx and src/axios/axiosInstance.ts are not part of this model: HTTP fetches, list rendering and composition only.
- The component that feeds `gameActive` and `countdown` to the autobet panel is not part of this model; those props arrive through `PropsChange`.
