# Shadow Steps: the puzzle state machine

Shadow Steps is a single-screen puzzle game. A token moves on a 10×10 grid.
The player toggles between two overlapping worlds, Real and Shadow. Each
world shows its own labelled tiles. The player wins by stepping on the
hidden labels in one fixed order, ending on the goal cell.

This project models the game logic of `main.py` and proves its properties:

- `World` (world.dfy): the grid size, the two label tables, the goal cell,
  the 13-entry `Sequence`, and `LabelAt`, the label seen under a cell in a
  given mode.
- `Tracker` (tracker.dfy): `check_tile`'s sequence tracker as the pure
  function `Observe`, with an `Outcome` datatype in place of the message
  strings.
- `Puzzle` (puzzle.dfy): the game state as a `State` value, the transitions
  `MoveStep` (`move_player`), `ToggleMode` (`switch_mode`), `Apply` (one key
  event) and `Run` (a stream of key events), the invariants they keep, and
  the class `Game`. `Game` holds the module-level variables of the source
  and updates them in place. Its positions are two-element arrays written
  element-wise, as the source's lists are. Each of its methods is proved to
  agree with the matching function.
- `Walkthrough` (walkthrough.dfy): concrete plays. These are the first
  correct step, a wrong step that resets, a complete 67-key winning play,
  and the crash after the win.
- `Wrappers` (wrappers.dfy): the `Option` datatype.

The unguarded `sequence[len(progress)]` at main.py:182 is modelled as it
is. Once "GOAL" has been appended, `progress` has all 13 entries. Any
later step onto a labelled cell then raises `IndexError`, and nothing
catches it. The model returns the outcome `IndexError` and leaves
`progress` unchanged. The position has already been updated by then, since
`move_player` writes it before calling `check_tile`. `Run` and `Game.Play`
stop at that event, as the program does. There is no precondition that
hides this case.

The tile code is tested with Python truthiness (`if tile_code:`). `Truthy`
treats both a missing entry and an empty string as "no label".

Cell (1,2) carries "R2" (main.py:82), the first label of the sequence;
`FirstStepCorrect` shows the step onto it from the start position.

## Model

| member | source | states |
|---|---|---|
| World.LabelAt | main.py:176-179 | The goal cell reads "GOAL" in either mode. Any other cell reads its entry in the table of the current mode, or nothing. |
| World.Lookup | main.py:176 | `dict.get`: a label exactly when the cell is a key of the table, and then that key's entry. |
| World.TablesDisjoint | main.py:81-101 | The Real and Shadow tables have disjoint cells, and neither contains the goal cell. |
| World.TablesOnGrid | main.py:81-101 | Every labelled cell and the goal cell lie on the 10×10 grid. |
| World.SequenceLabelsPlaced | main.py:81-108 | Each non-final entry of `Sequence` is not "GOAL". It starts with R or S and is a value of exactly one table (R in Real, S in Shadow). It is read at its solution cell in that world. |
| World.SequenceLabelsUnique | main.py:81-108 | Each non-final entry of `Sequence` lies on exactly one cell of its table. |
| World.LabelledInOneWorld | main.py:176-179 | Only the goal cell reads a label in both worlds. An off-grid cell reads nothing in either world. |
| Tracker.Truthy | main.py:181 | A tile code counts as present only when it is a label, and a label only when it is non-empty, as Python's truth test on a `str` or `None`. |
| Tracker.Observe | main.py:181-190 | Observing keeps `progress` a prefix of `Sequence`. No label gives `NoLabel` and changes nothing. `IndexError` happens exactly when a label is seen with all of `Sequence` already matched, and then `progress` is unchanged. |
| Tracker.ObserveGrowsOrResets | main.py:182-190 | The next expected label grows `progress` by exactly that label and reports `CorrectStep` of it, or `GoalReached` for "GOAL". Any other label resets it to `[]` with `WrongStep`, even one that occurs elsewhere in `Sequence`. |
| Tracker.GoalOnlyAfterFullPrefix | main.py:182-185 | For a prefix of `Sequence`, the goal outcome happens iff the label is "GOAL" and `progress == Sequence[..12]`. `progress` is then all of `Sequence`. |
| Tracker.GoalIsLast | main.py:104-108 | "GOAL" occurs in `Sequence` only at its last index. |
| Tracker.IndexErrorOnlyAfterWin | main.py:181-182 | For a prefix of `Sequence`, the unguarded index fails iff a label is present and `progress` is all of `Sequence`. |
| Puzzle.Init | main.py:111-114 | The start state is valid, in Real mode, with nothing matched and the real token active. |
| Puzzle.MoveStep | main.py:193-203 | An off-grid target changes nothing and calls no check. An on-grid target moves only the active token to `pos + delta`. It keeps the inactive token and the mode. It observes exactly the label of the new cell. It preserves the invariant. |
| Puzzle.ToggleMode | main.py:205-209 | Negates `shadowMode` and leaves both positions and `progress` untouched. |
| Puzzle.Delta | main.py:282-289 | Each arrow key asks for one of the four unit deltas. |
| Puzzle.Apply | main.py:279-289 | A key event preserves the invariant. Space only toggles the mode. |
| Puzzle.Run | main.py:275-289 | The event loop: no keys change nothing. From a valid state a run stops early only at the uncaught index error, and then `progress` holds all of `Sequence`. |
| Puzzle.RunKeepsInv | main.py:173-209 | Any run of key events from a valid state keeps both tokens on the grid and `progress` a prefix of `Sequence`. |
| Puzzle.RunAppend | main.py:275-289 | Processing two batches of events in turn equals processing their concatenation, unless the first batch raised. |
| Puzzle.ReachableStatesValid | main.py:111-114 | From the start state, for every key sequence, both tokens stay in [0,10)×[0,10). `progress` is a prefix of `Sequence` of length 0..13. |
| Puzzle.ToggleTwice | main.py:205-209 | Toggling twice restores the state. |
| Puzzle.RejectedMoveIdempotent | main.py:196-198 | A rejected move, made a second time, is rejected again and changes nothing. |
| Puzzle.MoveOntoGoal | main.py:178-185 | A move onto the goal wins iff `progress == Sequence[..12]`. `progress` then becomes all of `Sequence`. |
| Puzzle.WonGameCrashesOnLabel | main.py:182 | After the win, a move onto any labelled cell raises `IndexError`. The token has moved and `progress` stays all of `Sequence`. |
| Puzzle.Game.constructor | main.py:111-114 | The initial variables are tokens at (2,2) and (1,6), Real mode, and empty progress. |
| Puzzle.Game.CheckTile | main.py:173-191 | Updates only `progress`, as `Observe` does on the label under `pos` in the current mode. Returns `Observe`'s outcome. |
| Puzzle.Game.Move | main.py:193-203 | The new variables and the returned outcome are those of `MoveStep` on the old variables. |
| Puzzle.Game.SwitchMode | main.py:205-209 | Only `shadowMode` changes; it is negated. |
| Puzzle.Game.HandleKey | main.py:279-289 | One key event changes the variables as `Apply` does. |
| Puzzle.Game.Play | main.py:275-289 | Feeding events in order ends in the state `Run` gives. It reports whether an event raised. |
| Walkthrough.FirstStepCorrect | main.py:82 | From the start, the left key lands on "R2" and gives `CorrectStep("R2")`. |
| Walkthrough.WrongStepResets | main.py:186-190 | With ["R2"] matched, toggling and stepping onto "S20" resets `progress` to `[]`. |
| Walkthrough.Solvable | main.py:81-114 | From the start state, 67 key events match all of `Sequence` and end on the goal without raising. |
| Walkthrough.ReenteringGoalCrashes | main.py:178-182 | After the win, stepping off the goal and back on raises `IndexError`. |

## Left out

- The tkinter intro dialog (main.py:7-26) and the main menu (main.py:239-258): user interface only.
- pygame and mixer setup, the window and fonts, sound loading, and `play_sound` (main.py:29-78, 120-122): I/O with no effect on the game state.
- The `draw_*` functions (main.py:124-171, 211-236): rendering only, partly in floating point.
- The message text and `message_timer` with its 2000 ms fade (main.py:54, 185, 189, 191, 215-224): wall-clock time. The model keeps the kind of outcome and not its text or timestamp.
- The QUIT event and frame timing of `main` (main.py:265-277, 291-294): pygame polling and clock ticks. `Run` and `Game.Play` take the key events as a sequence and process all of them unless one raises.
