# The Dice Game — verified model of the roll and level logic

The Dice Game is a single-window game. The player rolls a growing number of
dice. Each time every die settles on six, the level goes up and one more die
joins. The session counts rolls per level and per run, times the run, and
keeps a best-time / best-rolls record across restarts.

This project models the game's one piece of real logic in Dafny:

- `die.dfy` (module `Die`) holds the per-die state machine. The `Dice` class
  changes its fields in place on `Roll` and `Update`, exactly as the game's
  `Dice` object does. Each method is specified by a pure function on the
  value `DieState` (`Rolled`, `Step`). The timing properties are lemmas about
  `Run`, which applies one `Step` per frame.
- `layout.dfy` (module `Layout`) gives the screen place of the k-th die of n
  in closed form (`PosX`, `PosY`). Its lemmas state the layout's
  properties: rows of at most five, `ceil(n/5)` rows, centred rows, no two
  dice overlapping, and fitting on the screen up to 25 dice.
- `scores.dfy` (module `Scores`) holds the best-score record. The game's
  infinity sentinel becomes `None`.
- `game.dfy` (module `Session`) holds the `Game` class: its list of `Dice`
  objects and its counters. `ResetDice` builds the dice with the game's
  nested row loops, and is proved equal to the closed-form layout.
  `RollDice`, `Update` and `Restart` are proved against the value-level
  functions `RollAll`, `StepAll` and `NewDice`, and keep the session
  invariant `Valid()`.

All random draws are parameters, each constrained by `requires` to the range
the game draws it from:

- the target face of a roll (`targets`, 1..6);
- the face shown during a rolling frame (`faces`, 1..6);
- the per-die animation speed (`speeds`, 5..15).

The clock is the integer parameter `now`.

The game writes the record file on every restart, improved or not
(main.py:331); saving is outside this model.

## Model

| member | source | states |
|---|---|---|
| `Die.Dice.constructor` | main.py:131-138 | a new die is at (x, y), settled, showing 1, targeting 1, with 0 frames left and its drawn speed in 5..15 |
| `Die.Initial` | main.py:134-138 | the value of a new die is well formed (faces in 1..6, 0 <= frames <= speed), settled and shows 1 |
| `Die.Rolled` | main.py:140-143 | after a roll the die is rolling, its target is the drawn face in 1..6, its frame count equals its speed, which lies in 5..15, and its shown face and position are unchanged |
| `Die.Dice.Roll` | main.py:140-143 | the die's fields afterwards are exactly `Rolled` of its old fields, and it stays well formed |
| `Die.Step` | main.py:145-153 | one update: a settled die is unchanged; a rolling die with frames left loses exactly one frame, keeps rolling and shows the drawn face; a rolling die with no frames left stops rolling and shows its target; faces stay in 1..6 |
| `Die.Dice.Update` | main.py:145-153 | the die's fields afterwards are exactly `Step` of its old fields, and it stays well formed |
| `Die.Run` | main.py:145-153 | any number of updates keep a die well formed and never change its target, speed or position |
| `Die.SettledIsFixed` | main.py:146 | updating a settled die any number of times changes nothing (idempotence on settled dice) |
| `Die.CountsDown` | main.py:147-150 | while frames remain, k updates leave the die rolling with exactly k fewer frames |
| `Die.SettlesOnTarget` | main.py:151-153 | a rolling die with f frames left has settled on its target after exactly f + 1 updates |
| `Die.RollSettlesAfterSpeedPlusOne` | main.py:140-153 | after a roll, the die is rolling after k updates iff k <= its speed, and from update speed + 1 on it shows the drawn target |
| `Die.SettledWithinMaxSpeed` | main.py:138-153 | whatever its state, a die has stopped rolling after 16 updates (the largest speed plus one) |
| `Layout.PosX` | main.py:222-240 | the left edge of die k lies within the span of its centred row (row k / 5); with at most five dice it is the centring offset of the single row plus k times 120 |
| `Layout.PosY` | main.py:227-241 | the top edge of die k lies within the block of rows that starts 50 pixels higher per row; with at most five dice it is 200 |
| `Layout.Rows` | main.py:231-232 | the row count is the ceiling of n / 5: enough rows for n dice, none left empty, and zero rows only for zero dice |
| `Layout.SingleRow` | main.py:220-228 | with 1..5 dice they share one row at y = 200, the first at the centring offset, consecutive x positions 120 (die size plus margin) apart |
| `Layout.RowsHoldAtMostFive` | main.py:229-242 | every row holds 1..5 dice, all rows before the last hold exactly 5, and die k sits in row k / 5 at a column that row has |
| `Layout.RowCentred` | main.py:235-240 | in every row the gap left of the first die equals the gap right of the last die |
| `Layout.NoOverlap` | main.py:216-242 | two different dice are at least 120 pixels apart horizontally or vertically, so they never overlap |
| `Layout.FitsUpToFiveRows` | main.py:234-242 | up to 25 dice, every die lies wholly inside the 800 x 600 screen |
| `Layout.OffScreenFromSixRows` | main.py:241 | from 26 dice on, the first row starts above the top of the screen |
| `Session.LayOutOneRow` | main.py:220-228 | the single-row loop builds exactly n distinct new dice, the k-th placed as the layout's k-th, settled on 1 with its drawn speed |
| `Session.LayOutRows` | main.py:229-242 | the nested row loops build exactly n distinct new dice, the k-th placed as the layout's k-th, settled on 1 with its drawn speed |
| `Session.NewDice` | main.py:216-242 | a reset yields exactly n dice, each settled, showing 1, at its layout place; so none is rolling and, for n > 0, not all show six |
| `Session.Game.ResetDice` | main.py:216-242 | the session's dice become a list of `diceCount` distinct new objects whose values are `NewDice(diceCount, speeds)` |
| `Session.RollAll` | main.py:251-252 | rolling every die leaves each one rolling towards its drawn target with its full speed loaded, keeping its shown face, speed and position, so some die is rolling |
| `Session.StepAll` | main.py:258-259 | one frame steps each die independently: settled dice are unchanged; a rolling die with frames left loses one and shows its drawn face; a rolling die with none left settles on its target with 0 frames; every die keeps its target, speed and position; a board with nothing rolling is unchanged |
| `Session.RunAll` | main.py:256-261 | repeated frames keep every die well formed and the number of dice fixed |
| `Session.RunAllIsPerDie` | main.py:256-261 | the dice do not interact: die i after any number of frames is die i run alone on its own drawn faces |
| `Session.BoardSettles` | main.py:254-261 | after 16 frames no die is rolling, so the session's rolling flag clears and the player can roll again |
| `Session.SettledBoardIsFixed` | main.py:257-261 | any number of frames leave a board with no die rolling unchanged |
| `Session.NewLevelIsQuiet` | main.py:263-270 | the dice of a new level stay unchanged through any number of frames until the next roll and cannot win the level, so at most one level-up follows each roll |
| `Session.Game.constructor` | main.py:160-171 | a new session is at level 1 with zero rolls, not rolling, started at `now`, holding the record read from storage and one new die |
| `Session.Game.RollDice` | main.py:244-252 | while rolling, nothing changes; otherwise both roll counters grow by exactly one and every die is rolled; the invariant (including roll count <= total rolls) is kept |
| `Session.Game.AdvanceDice` | main.py:257-261 | every die is advanced by one `Step` with its drawn face, and the result says whether any die is still rolling |
| `Session.Game.Update` | main.py:254-273 | the rolling flag becomes exactly "some die still rolls"; if no die rolls and all show six, the level grows by one, the level's roll count becomes 0, total rolls are unchanged and the dice are a new layout; otherwise only the dice step; the elapsed time becomes `now` minus the start |
| `Scores.Improved` | main.py:324-328 | the record only goes down: it becomes the minimum of record and run for a run that reached level 2, and is unchanged otherwise |
| `Session.Game.Restart` | main.py:321-338 | both records are offered the run (and can only go down, only when level > 1); then level is 1, both roll counts are 0, the clock restarts at `now` and the dice are reset |

## Left out

- Drawing is not modelled: `load_or_create_dice_images`, `Dice.draw`, `Game.draw` and `Button.draw` are pygame calls with no behaviour beyond pixels.
- The `Button` class, `check_hover`, `is_clicked` and `Game.handle_event` are not modelled; they wrap pygame's point-in-rectangle test and event dispatch.
- `load_best_scores` and `save_best_scores` (file I/O, float parsing, swallowed exceptions) are not modelled. The `Game` constructor takes the record read from storage as parameters, and `Restart` does not save.
- Randomness is not modelled: every `random.randint` is a parameter whose range is a `requires`.
- `Session.Game.Update` takes the speeds of a possible next level (`diceCount + 1` of them) on every call; only the level-up path uses them.
- Wall-clock time is an integer parameter `now`, and `game_time` is an integer; the game's time is a float in seconds. `Restart` compares times exactly as the game does, but on integers.
- `Session.Game.Update` calls the helper `AdvanceDice` for the per-die loop; the game runs that loop inline and sets its flag inside it. The order of the steps and their effects is the same.
- `reset_dice`'s two branches are the module-level methods `LayOutOneRow` (one row) and `LayOutRows` (rows of five), which `Session.Game.ResetDice` calls; the game runs them inline. They build the same dice in the same order.
- The `main` loop, frame-rate capping and process exit are not modelled.
- `Restart` leaves the session's rolling flag as it was, as the game does. So "the rolling flag is set iff some die rolls" is not a session invariant: right after a restart during a roll the flag is still set, with no die rolling, until the next `Update`. The invariant kept is one-way: when the flag is clear, no die is rolling.
