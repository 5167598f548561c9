# Roulette betting and settlement engine

This project models the game engine of the roulette mini-game in `roleta/script.js`.
The player places a number bet and a colour bet, each with its own stake. The spin
button draws the winning slot first and then animates the wheel and the ball towards
it. Every display frame moves the two angles along a cubic ease-out. The first frame
that sees the animation complete schedules settlement, once. Settlement reads the
slot under the ball, records it in the history list, takes both stakes and pays the
winnings in one balance update, and clears the bet.

Modules:

- `Wrappers` (`wrappers.dfy`): `Option`, `Result` and `Outcome`.
- `Wheel` (`wheel.dfy`): the 37-slot European table and the facts about it.
- `Angles` (`angles.dfy`): `easeOutCubic`, `lerp`, `mod`, JavaScript's `%`, and the
  slot read back from the final angles. Angles are exact reals in slice units. A full
  turn is 37.0 and a slice is 1.0 (2 pi and 2 pi / 37 in the source).
- `Betting` (`betting.dfy`): the bet record, the stake check, the payout table, the
  balance update and the house edge.
- `History` (`history.dfy`): the bounded, newest-first list of results.
- `Roulette` (`roulette.dfy`): the class `Game` holds the page's global state
  (`balance`, `slowMo`, `currentBet`, the angles, `animating`, `finishScheduled`,
  the history). Its methods are the button handlers, `scheduleAnimationForWinner`,
  `updateAnimation` (`Tick`) and `finishSpinAndPayout` (`Settle`). `PlayRound` drives
  one whole round over a sequence of frame times.

Inputs that the source takes from the browser are parameters. The draws of
`Math.random()` are reals in [0, 1). The clock reading of `performance.now()` is
`now`. The result of `parseInt` is an `Option<int>`, with `None` for `NaN`. The ghost
field `clock` records the latest reading, and the methods ask that the clock never
runs backwards.

The model follows the code in these points, some of which differ from what the game's
interface suggests:

- The spin guard tests `!currentBet.number`, so the number 0 counts as "no number".
  A bet on 0 alone is accepted by the number handler but cannot be spun
  (`LoneZeroBetRefused`).
- The guard at the top of `finishSpinAndPayout` never returns. The one-shot guard is
  the `finishScheduled` test in `updateAnimation`.
- Each stake is checked against the balance on its own. The two together may exceed
  it, so the balance can become negative (`BalanceCanGoNegative`).
- The history list is prepended to, newest first, and the oldest entry is dropped.
- A spin requested while one is running is ignored without a message. The model
  returns `Fail(SpinAlreadyInProgress)` and changes nothing.
- Bets may be placed while the wheel turns. The source has no guard for this, so the
  bet at settlement time is the one paid.

## Model

| member | source | states |
|---|---|---|
| `Wheel.ColorCounts` | roleta/script.js:51-62 | the wheel has 37 slots: 18 red, 18 black and one green |
| `Wheel.EachNumberOnce` | roleta/script.js:51-62 | each number 0..36 is on exactly one slot, and no other number is on the wheel |
| `Wheel.OnlyZeroIsGreen` | roleta/script.js:51-62 | a slot is green exactly when it carries 0, and that slot is the first one |
| `Wheel.ColorsAlternate` | roleta/script.js:51-62 | after the green zero, red and black alternate around the wheel |
| `Angles.EaseOutCubic` | roleta/script.js:79 | the easing maps 0 to 0 and 1 to 1, and keeps [0, 1] inside [0, 1] |
| `Angles.Lerp` | roleta/script.js:80 | interpolation gives the start at t = 0 and the end at t = 1, and stays between them for t in [0, 1] |
| `Angles.JsRem` | roleta/script.js:81 | JavaScript's `%` on numbers differs from the dividend by a whole multiple of the divisor, takes the sign of the dividend and is smaller than the divisor in size, which fixes it uniquely |
| `Angles.Mod` | roleta/script.js:81 | `mod(a, m)` lies in [0, m) and equals the floored remainder a - m * floor(a / m) |
| `Angles.SlotIndexAt` | roleta/script.js:292-294 | the slot read from the angle between ball and wheel is a valid index, and the ball's angle, taken modulo a full turn, lies within that slot's arc |
| `Angles.LandsOnTarget` | roleta/script.js:292-294 | a ball that ends over the centre of a slot, any whole number of turns ahead of the wheel, is read back as that slot |
| `Betting.CheckStake` | roleta/script.js:123-125 | a missing or non-positive amount is refused as invalid, a larger amount than the balance as insufficient, and only an amount in 1..balance is accepted as it is |
| `Betting.Payout` | roleta/script.js:308-319 | a matching number pays 36 times its stake, a matching colour pays 36 times (green) or twice (red, black) its stake, nothing else pays; the payout is between 0 and 36 times the stake and positive exactly when a part matches |
| `Betting.SettledBalance` | roleta/script.js:305-322 | after a spin the balance lies between old balance minus the stake and old balance plus 35 times the stake; a spin where nothing matches loses exactly the stake |
| `Betting.HouseEdge` | roleta/script.js:308-319 | summed over all 37 slots every bet is paid 36 times its stake, so one spin returns 36/37 of the stake on average |
| `Betting.BalanceCanGoNegative` | roleta/script.js:148-154 | two stakes that each pass the check can together lose more than the balance, leaving -500 |
| `Betting.WorkedExamples` | roleta/script.js:304-322 | 50 on 17 and 20 on red when 17 comes up take 500 to 2230; 10 on green when 0 comes up takes 500 to 850 |
| `History.Record` | roleta/script.js:301-302 | the landed slot goes first, the old entries follow in order, and the list never grows past 60 |
| `History.HistoryShowsNewest` | roleta/script.js:297-302 | after any sequence of results the list holds the 60 newest (or all, if fewer), newest first |
| `Roulette.AnimDuration` | roleta/script.js:224 | a spin lasts a positive time, longer in slow motion |
| `Roulette.SpinRefusal` | roleta/script.js:200-204 | a spin is refused while one runs, refused for lack of a bet when there is no colour and no number or the number 0, and allowed otherwise |
| `Roulette.LoneZeroBetRefused` | roleta/script.js:200-204 | a bet on the number 0 alone passes the stake check but cannot be spun |
| `Roulette.RandomBelow` | roleta/script.js:207 | the drawn winner index is one of the 37 slots |
| `Roulette.WheelTurns` | roleta/script.js:214 | the wheel turns 4 to 6 extra times |
| `Roulette.BallTurns` | roleta/script.js:215 | the ball runs 2 to 4 extra turns |
| `Roulette.Jitter` | roleta/script.js:220 | the wheel's stopping offset is at least half a slice back and less than half a slice forward |
| `Roulette.Progress` | roleta/script.js:344-345 | the raw progress is at most 1, is 1 exactly when the animation's time is up, and is not negative after the start |
| `Roulette.Game.constructor` | roleta/script.js:31-74 | the game starts with 500, no bet, no spin, normal speed and an empty history |
| `Roulette.Game.Inject` | roleta/script.js:110 | the "+500" button adds 500 to the balance and changes nothing else |
| `Roulette.Game.ToggleSlowMo` | roleta/script.js:111 | the slow-motion button flips the speed and changes nothing else |
| `Roulette.Game.PlaceNumberBet` | roleta/script.js:121-129 | a refused amount changes nothing and reports why; an accepted one overwrites only the number and its stake; the balance is never touched |
| `Roulette.Game.PlaceColorBet` | roleta/script.js:148-155 | a refused amount changes nothing and reports why; an accepted one overwrites only the colour and its stake; the balance is never touched |
| `Roulette.Game.RequestSpin` | roleta/script.js:200-209 | a refused spin changes nothing and reports why; otherwise the winner is drawn and the animation set up from the current angles, which stay as they are, with bet, balance and history unchanged |
| `Roulette.Game.ScheduleAnimationForWinner` | roleta/script.js:212-234 | the end angles put the ball over the centre of the winning slot a whole number of turns ahead of the wheel; the spin runs with no settlement scheduled |
| `Roulette.Game.Tick` | roleta/script.js:342-355 | no change when no spin runs; otherwise both angles follow the eased progress, and settlement is scheduled only by the first frame that sees the progress reach 1 |
| `Roulette.Game.Settle` | roleta/script.js:288-339 | the slot read back is the one drawn at spin time; the balance becomes old balance - stake + payout; the slot is recorded in the history; bet, spin and schedule flag are cleared |
| `Roulette.PlayRound` | roleta/script.js:342-355 | on a freshly loaded page at normal speed, with a number bet and a colour bet of at most 500 each and a spin started at `start`: over any non-decreasing sequence of frame times from `start` on, settlement is scheduled at most once, exactly when a frame reaches the end of the animation, and then pays the bet on the slot drawn at spin time; before that the balance is unchanged |

## Left out

- Canvas drawing (`drawWheel`, `drawBall`, `draw`) and the `requestAnimationFrame`
  loop: rendering only. `PlayRound` stands in for the loop with explicit frame times.
- DOM wiring: element lookups, the start screen and number-grid toggles,
  `showResultMessage` and its 3 s timeout, `updateCurrentBetDisplay`,
  `createNumbersGrid`, button highlights, the "place number bet" hint and
  `window.__roulette_winner_index` (kept only as the ghost field `winner`).
- Parsing of the typed amount by `parseInt`: the model takes its result.
- `Math.random()` and `performance.now()`: their values are parameters.
- Floating point: angles are exact reals in slice units, so `Math.PI` and `Math.pow`
  rounding is not modelled. Balances are unbounded integers; JavaScript numbers lose
  precision beyond 2^53.
- The 80 ms `setTimeout` before settlement: `Settle` is a separate step, callable only
  once `finishScheduled` is set, which is when the source schedules it. Its first
  line, `if (!finishScheduled) finishScheduled = true`, has no effect then and is
  omitted.
- The top-level `script.js` (particle field, card tilt, parallax): presentation code.
