# Crypto Tenzies game state machine in Dafny

This project models the game logic of the Crypto Tenzies React component
(`App.jsx`). A player rolls ten dice and holds them one by one until all ten
show the same value. Each game has 180 seconds and 15 rolls. A win pays points
into an airdrop balance, and the player's statistics record games, wins, the
current streak, the best time and the total points.

The game keeps four records: the dice, the game session, the crypto state and
the player progress. Every handler and effect in the component replaces some
of these records with new ones built from the old ones:

- `rollDice` starts a new game, or counts a roll and rerolls the unheld dice.
- `hold` toggles one die's held flag.
- The one-second countdown tick lowers the timer.
- The win effect and the loss effect settle the result.

Modules:

- `Dice`: the `Die` record, the win test `GameWon` (`gameWon`), and the dice updaters
  `AllNewDice`, `Reroll` and `ToggleHeld`. Randomness is passed in. A draw is a
  real number in [0, 1), standing for a `Math.random()` result, and a die face
  is `Ceil(6 * draw)`. Ids stand for `crypto.randomUUID()` results.
- `Scoring`: `calculatePoints` in integer arithmetic. It is proved equal, for
  all inputs, to the source's `Math.floor(10 + k * 0.5 + m * 2)` written on
  reals.
- `Clock`: `formatTime` (`m:ss`). Its partner `ParseClock` reads the string
  back, and a round-trip lemma connects the two.
- `Tenzies`: the four records, the defaults, the derived values
  (`rollsRemaining`, `gameActive`, `gameLost`, `airdropEligible`), one pure
  function per transition, and `Dispatch`. `Dispatch` runs an event, then the
  effects whose guards the event made true.
- `Invariants`: what each step does, the invariant `Inv` that every step
  keeps, and what a whole event does to the statistics. An event adds a game
  exactly when it ends one, and a win exactly when it wins one. `Inv` holds in
  every state reachable from a first visit.
- `App`: the class `Game`. It holds the four records as fields, and its
  methods assign those fields the same way the component's setters do. Each
  method's `ensures` makes the new state equal to the matching `Tenzies` step
  of the old state.

The model follows the code on four points that are easy to misread:

- Die faces are 0..6, not 1..6. `Math.ceil(Math.random() * 6)` is 0 when
  `Math.random()` returns exactly 0 (`Dice.DieFace`).
- The best time is `min(prior, timeUsed)` only when the prior value is truthy.
  A recorded best time of 0 is treated as absent and gets overwritten
  (`Invariants.BestTimeRule`).
- The first roll of an idle game does two things in the same click: it starts
  the game and it counts a roll that rerolls the dice.
- The win test reads the dice, not the status. A roll on a winning board starts
  a new game even before the win effect has marked the game as won.

## Model

| member | source | states |
|---|---|---|
| `Dice.Ceil` | App.jsx:124 | `Math.ceil(x)`: the least integer that is not below x. |
| `Dice.DieFace` | App.jsx:124 | A face drawn from a draw in [0,1) lies in 0..6. It is 0 exactly when the draw is 0, and 1..6 for every positive draw. |
| `Dice.AllNewDiceFresh` | App.jsx:120-128 | A new set of dice has ten dice, none held. Each face comes from its draw and each id is the one supplied. Distinct ids stay distinct. A new board is never a winning board. |
| `Dice.RerollKeepsHeld` | App.jsx:155-157 | A roll keeps every held die identical. It sets each unheld die's value to the face of that die's draw. It never changes an id, a held flag or the number of dice, and it keeps faces in 0..6. |
| `Dice.RerollKeepsWin` | App.jsx:155-157 | A roll neither creates nor breaks a win. On a winning board (all dice held) a roll changes nothing. |
| `Dice.ToggleHeldEffect` | App.jsx:171-173 | Holding flips the held flag exactly on the dice whose id matches. It keeps every value, every id and every other die. An absent id changes nothing. |
| `Dice.ToggleHeldOne` | App.jsx:171-173 | With distinct ids, holding a present id changes that one die's held flag and nothing else. |
| `Dice.ToggleHeldInvolution` | App.jsx:171-173 | Clicking the same die twice restores the dice. |
| `Dice.GameWonPairwise` | App.jsx:52 | `gameWon` (all held, all equal to the first die's value) holds exactly when all dice are held and all values are pairwise equal. |
| `Scoring.TimeUnder` | App.jsx:132 | The time bonus before halving is `60 - timeUsed` up to a minute and 0 from a minute on. It is never negative. |
| `Scoring.RollsUnder` | App.jsx:133 | The roll bonus before doubling is `10 - rollsUsed` up to ten rolls and 0 from ten rolls on. It is never negative. |
| `Scoring.CalculatePointsMatchesFloor` | App.jsx:130-135 | On every input, the integer formula equals the floor of `10 + max(0,60-t)*0.5 + max(0,10-r)*2` taken over the reals. |
| `Scoring.PointsAtLeastBase` | App.jsx:130-135 | Every win pays at least the base 10 points. |
| `Scoring.PointsBounds` | App.jsx:130-135 | For non-negative time and rolls, the points lie between 10 and 60. |
| `Scoring.PointsNonIncreasing` | App.jsx:130-135 | The points never increase when the time or the rolls increase. |
| `Scoring.PointsInstantWin` | App.jsx:130-135 | A win with no time used and no rolls pays the maximum 60 points. |
| `Scoring.PointsSlowWin` | App.jsx:130-135 | A win after 60 seconds and 10 rolls pays only the base 10 points. |
| `Scoring.PointsBaseOnly` | App.jsx:130-135 | From 60 seconds and 10 rolls on, only the base 10 points are paid. |
| `Clock.NatToString` | App.jsx:180 | The decimal string of a number is non-empty and all digits. It has one digit exactly when the number is below 10, and no leading zero. |
| `Clock.PadStart` | App.jsx:180 | `padStart` fills on the left up to the width. The original string ends the result, and everything before it is the fill character. |
| `Clock.FormatTime` | App.jsx:177-181 | The display is at least four characters long, with the colon third from the end. |
| `Clock.FormatTimeShape` | App.jsx:177-181 | The display is one or more minute digits, a colon, and exactly two second digits. |
| `Clock.ParseNatToString` | App.jsx:180 | Reading back the decimal string of a number gives the number. |
| `Clock.SecondsField` | App.jsx:179-180 | The seconds part is always exactly two digits and reads back as `seconds % 60`. |
| `Clock.ClockRoundTrip` | App.jsx:177-181 | Parsing any formatted time gives back the number of seconds. |
| `Clock.FormatTimeInjective` | App.jsx:177-181 | Two different timer values never have the same display. |
| `Clock.FormatTimeStart` | App.jsx:177-181 | A new game's 180 seconds show as "3:00". |
| `Clock.FormatTimeMinuteFive` | App.jsx:177-181 | 65 seconds show as "1:05", with the seconds padded to two digits. |
| `Tenzies.TickSession` | App.jsx:76-81 | The tick updater sets the timer to `max(0, timer - 1)`, so the timer never goes negative. The status becomes lost exactly when the timer reaches 0. Rolls and start time are unchanged. |
| `Invariants.RollResets` | App.jsx:138-146 | Rolling a won or lost game gives ten fresh unheld dice and the session {timer 180, rollCount 0, maxRolls 15, no start time, idle}. No roll is counted, and points and progress are unchanged. |
| `Invariants.RollCounts` | App.jsx:147-165 | With rolls left and the game neither won nor lost, a roll adds exactly one to rollCount. The status becomes lost exactly when the new count reaches maxRolls. An idle game starts (playing, with start time `now`). Held dice and all held flags are unchanged, the roll does not win, and the timer, points and progress are unchanged. |
| `Invariants.RollExhausted` | App.jsx:147 | With no rolls left, and the game neither won nor lost, a roll changes nothing. |
| `Invariants.HoldEffect` | App.jsx:169-175 | Holding acts only while playing and not won. It flips exactly the dice with the matching id and never changes values, session, points or progress. |
| `Invariants.TickEffect` | App.jsx:72-85 | A tick happens only while playing, with a positive timer and no win. It lowers the timer by 1, or sets it to 0 and loses the game when the timer is at most 1, and changes nothing else. |
| `Invariants.BestTimeRule` | App.jsx:96 | The best time becomes the minimum of the prior and new times when the prior is truthy. Otherwise it becomes the new time, so a prior 0 is overwritten. It never exceeds the new time. |
| `Invariants.SettleWinEffect` | App.jsx:87-102 | The win effect fires only when all dice are held, equal and playing. It sets the status to won. It adds `calculatePoints(180 - timer, rollCount)` to both the airdrop and the total points. Games, wins and streak each grow by 1, the best time is updated, and wins never exceed games. |
| `Invariants.SettleLossEffect` | App.jsx:104-114 | The loss effect fires only when lost. It adds one game and resets the streak to 0. Wins, best time and points are unchanged. |
| `Invariants.InitialInv` | App.jsx:5-47 | The state of a first visit, with nothing saved, satisfies the invariant and has no unsettled win. |
| `Invariants.RollsRemainingBounds` | App.jsx:49-53 | In a reachable state, `rollsRemaining` is between 0 and 15, and it is 0 only in a lost game. A game in play has a positive timer. |
| `Invariants.RollKeepsInv` | App.jsx:137-167 | `rollDice` keeps the invariant: ten dice with faces 0..6, timer in 0..180, rollCount at most maxRolls, and the status-specific conditions. |
| `Invariants.HoldKeepsInv` | App.jsx:169-175 | `hold` keeps the invariant. |
| `Invariants.TickKeepsInv` | App.jsx:76-81 | The tick keeps the invariant; in particular the timer stays in 0..180. |
| `Invariants.WinPoints` | App.jsx:89-90 | In a reachable state, a win pays between 10 and 58 points, because at least one roll was made. |
| `Invariants.SettleWinKeepsInv` | App.jsx:87-102 | The win effect keeps the invariant, including airdrop points = total points and wins ≤ games, and leaves no win pending. |
| `Invariants.SettleLossKeepsInv` | App.jsx:104-114 | The loss effect keeps the invariant, including streak ≤ wins ≤ games. |
| `Invariants.DispatchKeepsInv` | App.jsx:72-114 | An event followed by the effects it triggers keeps the invariant and leaves no win unsettled. |
| `Invariants.DispatchStatusOrder` | App.jsx:137-175 | The status only moves forward (idle, then playing, then won or lost) until the roll that starts a new game. A won game never becomes lost, and a lost game never becomes won. |
| `Invariants.DispatchCountsGames` | App.jsx:87-114 | An event adds one game exactly when it ends a game, and one win exactly when it wins one. Losing resets the streak. Points never decrease, and once the airdrop is eligible it stays eligible. |
| `Invariants.RunKeepsInv` | App.jsx:72-175 | The invariant holds after any sequence of events. |
| `Invariants.ReachableInv` | App.jsx:5-175 | Every state reachable from a first visit has ten dice, a timer in 0..180, at most 15 rolls, and no more wins than games. |
| `App.Game.constructor` | App.jsx:5-47 | Builds the first-visit state: new dice and the default session, crypto state and progress. |
| `App.Game.RollDice` | App.jsx:137-167 | The new fields are `RollStep` of the old ones, and the invariant is kept. |
| `App.Game.Hold` | App.jsx:169-175 | The new fields are `HoldStep` of the old ones, and the invariant is kept. |
| `App.Game.Tick` | App.jsx:72-85 | The new fields are `TickStep` of the old ones, and the invariant is kept. |
| `App.Game.SettleWin` | App.jsx:87-102 | The new fields are `SettleWinStep` of the old ones. The invariant is kept and no win is left pending. |
| `App.Game.SettleLoss` | App.jsx:104-114 | The new fields are `SettleLossStep` of the old ones, and the invariant is kept. |
| `App.Game.Dispatch` | App.jsx:72-114 | Runs the event's handler, then the win effect if its guard holds, then the loss effect if the game has just been lost. The result equals `Tenzies.Dispatch`, and the invariant and settledness are kept. |

## Left out

- Persistence: loading and saving the four records in `localStorage` with `JSON.parse`/`JSON.stringify` (App.jsx:5-47, 56-70) is I/O. Only the defaults of a first visit are modelled. Re-running the loss effect when a saved lost game is reloaded, which counts that game again, is therefore not modelled.
- Scheduling: `setInterval`/`clearInterval` and React's effect ordering (App.jsx:72-85) are runtime plumbing. A tick is an explicit event. The effects are modelled by `RunEffects`: the win effect runs whenever its guard holds after an event, and the loss effect runs when `gameLost` has just become true.
- Randomness and the clock: `Math.random()`, `crypto.randomUUID()` and `Date.now()` are foreign calls, so they are parameters. Draws are exact reals in [0, 1), so floating-point rounding in `Math.random() * 6` is not modelled. Distinct ids are not assumed; `hold` flips every die that carries the id.
- Rendering: the JSX, the button text and its disabled state, the CSS classes and `buttonRef.current.focus()` (App.jsx:100, 183-277) are UI.
- `airdropProgress` (App.jsx:199) is a floating-point percentage used only for display.
- `tokenSymbol` and `achievements` (App.jsx:14-15) are never read by the logic.
- Die.jsx is a presentational component. Its only logic is the symbol lookup `cryptoSymbols[value - 1]`.
- Clock.FormatTime: only non-negative integer seconds are modelled, because the timer it formats never goes negative. JavaScript's output for negative or fractional seconds is not modelled.
- `Number(prev.currentStreak)` (App.jsx:97) converts a value that may have been loaded as a string. All values here are integers, so the conversion is the identity.
