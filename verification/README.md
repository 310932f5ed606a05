# BugHunter session controller in Dafny

BugHunter is a one-minute balloon-tapping game. Its logic lives in the
`Game` singleton of `Game.kt`: it starts and stops a match, keeps an
append-only roster of players, tracks the current player, adds points to a
player's score and publishes the latest `GameState`. A one-minute timer
ends the match with `Over` unless a stop or a restart cancels it first.

The model has four modules:

- `Players` (`player.dfy`): the `Player` class, whose `score` is a Kotlin
  `Int`. It is a 32-bit `Int32` here, and `+=` wraps around (`WrappingAdd`).
- `GameStates` (`game_state.dfy`): `GameMode`, the six-variant `GameState`,
  and `IsActive`, the screen's "not stopped" test from `App.kt:66-67`.
- `Session` (`session.dfy`): the controller as a transition system over
  values. A `Snapshot` holds the object's fields. An `Event` is one public
  call or a timer firing. `Step` applies one event and `Run` applies a
  sequence. `Inv` is the invariant that holds between calls. The lemmas
  state what holds over any sequence of calls.
- `GameObject` (`game.dfy`): the `Game` class, updated in place. Each method
  is proved to keep `Inv` and to change the fields exactly as `Step` says.
  `Player` objects are shared by reference, so a player passed to
  `AddScore` may also be the current player and may sit in the roster.

Stand-ins for what Dafny cannot see:

- The clock reading `Clock.System.now()` is the parameter `now`. It has type
  `Millis`, a non-zero integer, because `isGameStarted` reads 0 as "not
  started".
- The coroutine `job` is a `Timer`: `Idle` (no job, or a cancelled one) or
  `Armed(id)`. Every launched timer gets a fresh id from a counter
  `launched`.
- The timer reaching its minute is `Game.GameOver` (allowed only while a
  timer is armed), or the event `TimerFired(id)` in `Session`. A cancelled
  timer firing changes nothing.

The model follows the code where a roster of distinct players might be
expected. `startGame` appends its player every time, so starting the same
player twice lists them twice (`Session.RosterKeepsDuplicates`). `addScore`
accepts any player, not only the current one. A score update publishes
`ScoreUpdate`, which counts as active, even after a stop
(`Session.ScoreEffect`).

## Model

| member | source | states |
|---|---|---|
| `Players.WrappingAdd` | composeApp/src/commonMain/kotlin/Game.kt:77 | the result is congruent to the mathematical sum modulo 2^32, and equals it when the sum fits in 32 bits |
| `Players.Player.constructor` | composeApp/src/commonMain/kotlin/Game.kt:72-74 | a new player has the given name and score 0 |
| `Players.Player.AddScore` | composeApp/src/commonMain/kotlin/Game.kt:76-78 | the score moves by exactly `points`, wrapped to 32 bits; it is the plain sum when that fits |
| `GameObject.Game.constructor` | composeApp/src/commonMain/kotlin/Game.kt:13-24 | the initial state is `None`, the start time 0, the roster empty, there is no current player and no timer, so `isGameStarted` is false |
| `GameObject.Game.StartGame` | composeApp/src/commonMain/kotlin/Game.kt:26-44 | the state becomes `Started(player)`, the player is current and appended to the roster, the start time is `now`, the old timer is cancelled and exactly one fresh timer is armed; `isGameStarted` holds; the invariant is kept |
| `GameObject.Game.GameOver` | composeApp/src/commonMain/kotlin/Game.kt:46-50 | the armed timer firing clears the start time and the timer and publishes `Over` for the current player; the roster and current player are unchanged |
| `GameObject.Game.StopGame` | composeApp/src/commonMain/kotlin/Game.kt:52-56 | from any state: `Stopped`, start time 0, timer cancelled, `isGameStarted` false; the roster and current player are unchanged |
| `GameObject.Game.AddScore` | composeApp/src/commonMain/kotlin/Game.kt:58-61 | the given player's score moves by exactly `points` and the state becomes `ScoreUpdate(player)`; the roster, current player, start time and timer are unchanged |
| `GameObject.Game.GetPlayers` | composeApp/src/commonMain/kotlin/Game.kt:63 | returns the roster in insertion order, as a value that later calls cannot change; nothing changes |
| `GameObject.Game.SelectPlayer` | composeApp/src/commonMain/kotlin/Game.kt:65-67 | only the current player changes |
| `GameObject.Game.IsGameStarted` | composeApp/src/commonMain/kotlin/Game.kt:69 | a session is started exactly when the match timer is armed |
| `Session.InitialState` | composeApp/src/commonMain/kotlin/Game.kt:15-23 | the initial snapshot satisfies the invariant: state `None`, start time 0, empty roster, no current player, no armed timer |
| `Session.StepKeepsInv` | composeApp/src/commonMain/kotlin/Game.kt:26-69 | every operation keeps the invariant: start time set exactly when the newest timer is armed, an armed timer implies a current player, never `PlayerSelected` |
| `Session.RunKeepsInv` | composeApp/src/commonMain/kotlin/Game.kt:26-69 | the invariant holds after any sequence of calls |
| `Session.NeverPlayerSelected` | composeApp/src/commonMain/kotlin/Game.kt:90 | no sequence of calls ever publishes `PlayerSelected` |
| `Session.StartEffect` | composeApp/src/commonMain/kotlin/Game.kt:26-44 | after a start: `Started(p)`, active, `p` current, start time `now` (non-zero), roster extended by `p`, a fresh timer armed and the previous one spent |
| `Session.StopEffect` | composeApp/src/commonMain/kotlin/Game.kt:52-56 | after a stop: `Stopped`, inactive, start time 0, timer idle, roster and current player unchanged; a second stop changes nothing |
| `Session.ScoreEffect` | composeApp/src/commonMain/kotlin/Game.kt:58-61 | a score update publishes `ScoreUpdate(p)`, which is active, for any `p`, and changes no other field |
| `Session.TimeoutIsOver` | composeApp/src/commonMain/kotlin/Game.kt:46-50 | when the armed timer fires there is a current player, the state becomes `Over` for it, the session is inactive and that timer is spent |
| `Session.EveryTimeoutIsOver` | composeApp/src/commonMain/kotlin/Game.kt:46-50 | after any sequence of calls from the initial state, the armed timer firing publishes `Over` for the current player |
| `Session.SpentTimerInert` | composeApp/src/commonMain/kotlin/Game.kt:27 | a cancelled or already-fired timer firing changes nothing |
| `Session.SpentForever` | composeApp/src/commonMain/kotlin/Game.kt:38-41 | a spent timer stays spent whatever is called next; no later start re-arms it |
| `Session.CancelledTimerNeverFires` | composeApp/src/commonMain/kotlin/Game.kt:52-54 | after a stop or a restart, no timer launched before it can change the state, whatever is called next |
| `Session.RosterAppendOnly` | composeApp/src/commonMain/kotlin/Game.kt:29-33 | after any calls, the roster is the old roster followed by every player passed to `startGame`, in call order |
| `Session.RosterKeepsDuplicates` | composeApp/src/commonMain/kotlin/Game.kt:31 | starting the same player twice appends them twice |
| `Session.CurrentStaysSet` | composeApp/src/commonMain/kotlin/Game.kt:65-67 | once there is a current player there always is one |
| `Session.StartSetsCurrent` | composeApp/src/commonMain/kotlin/Game.kt:36 | after any sequence of calls that contains a start there is a current player |

## Left out

- The Compose UI of `App.kt` (`App`, `AppBar`, `AppBottomBar`): rendering and theming. Its buttons only call `startGame` and `stopGame`.
- The balloon spawn loop in `App.kt`: coroutine timing with concurrently launched hide tasks. Only its "not stopped" test is modelled, as `GameStates.IsActive`.
- `TearDrop` and `createPath` in `App.kt`: random placement, floating-point animation and drawing. A tap calls `addScore(currentPlayer, 1)`, which `GameObject.Game.AddScore` covers.
- The real clock and the one-minute delay: the clock is the `now` parameter, and the delay is the caller choosing when to call `GameOver`. Concurrency between the timer's coroutine and the other calls is not modelled: each call runs to completion.
- `StateFlow` emission and conflation: only the latest published value is kept. `Player`'s data-class equality, which compares names and matters only for conflation, is not modelled; players are compared by identity.
- `gameStartTime` is a 64-bit `Long` holding a clock reading; no arithmetic is done on it, so it is an unbounded `int`. A clock reading of exactly 0 is excluded by `Millis`.
- `GameObject.Game.GameOver`: its contract covers only the case with a current player, because the invariant makes the case without one unreachable. The source's silent no-op for that case is modelled in `Session.Step`.
