/** The mutable game state and its transitions: `move_player`
    (main.py:193-203), `switch_mode` (main.py:205-209) and the arrow and
    space keys of the event loop (main.py:279-289). The functions below
    describe each transition on a `State` value; the class `Game` performs
    them in place and is proved to agree with them. */
module Puzzle {
  import opened Wrappers
  import opened World
  import opened Tracker

  /** A snapshot of the module-level game variables (main.py:111-114). */
  datatype State = State(player: Cell, shadow: Cell, shadowMode: bool, progress: seq<Label>)

  /** The keys the event loop reacts to. */
  datatype Command = Up | Down | Left | Right | Space

  /** The result of one command: the new state and, for a move that was
      accepted, the outcome of the one `check_tile` call it made. */
  datatype Moved = Moved(state: State, outcome: Option<Outcome>)

  /** The start of a game (main.py:111-114): the real token at (2,2), the
      shadow token at (1,6), Real mode, nothing matched. */
  function Init(): (r: State)
    ensures Inv(r) && !r.shadowMode && r.progress == []
    ensures Active(r) == r.player
  {
    State(Cell(2, 2), Cell(1, 6), false, [])
  }

  /** The token that moves: the shadow token in shadow mode. */
  function Active(s: State): Cell {
    if s.shadowMode then s.shadow else s.player
  }

  /** What every reachable state satisfies: both tokens on the grid and
      `progress` a prefix of `Sequence`. */
  predicate Inv(s: State) {
    InGrid(s.player) && InGrid(s.shadow) && IsProgress(s.progress)
  }

  /** `move_player(dx, dy)`: a move whose target leaves the grid is dropped
      without calling `check_tile`; otherwise the active token moves to
      the target, the inactive token and the mode stay, and the target
      cell alone is checked. */
  function MoveStep(s: State, dx: int, dy: int): (r: Moved)
    ensures var t := Cell(Active(s).col + dx, Active(s).row + dy);
      (!InGrid(t) ==> r == Moved(s, None)) &&
      (InGrid(t) ==>
        Active(r.state) == t &&
        r.state.shadowMode == s.shadowMode &&
        (if s.shadowMode then r.state.player == s.player else r.state.shadow == s.shadow) &&
        r.outcome == Some(Observe(s.progress, LabelAt(t, s.shadowMode)).outcome) &&
        r.state.progress == Observe(s.progress, LabelAt(t, s.shadowMode)).progress)
    ensures Inv(s) ==> Inv(r.state)
  {
    var pos := if s.shadowMode then s.shadow else s.player;
    var newX, newY := pos.col + dx, pos.row + dy;
    if 0 <= newX < Cols && 0 <= newY < Rows then
      var moved := if s.shadowMode then s.(shadow := Cell(newX, newY)) else s.(player := Cell(newX, newY));
      var step := Observe(s.progress, LabelAt(Cell(newX, newY), s.shadowMode));
      Moved(moved.(progress := step.progress), Some(step.outcome))
    else
      Moved(s, None)
  }

  /** `switch_mode`: only the mode changes. */
  function ToggleMode(s: State): (r: State)
    ensures r.shadowMode == !s.shadowMode
    ensures r.player == s.player && r.shadow == s.shadow && r.progress == s.progress
  {
    s.(shadowMode := !s.shadowMode)
  }

  /** The unit delta an arrow key asks for (main.py:282-289). */
  function Delta(cmd: Command): (d: (int, int))
    requires cmd != Space
    ensures d in {(0, -1), (0, 1), (-1, 0), (1, 0)}
  {
    match cmd
    case Up => (0, -1)
    case Down => (0, 1)
    case Left => (-1, 0)
    case Right => (1, 0)
  }

  /** One key event. */
  function Apply(s: State, cmd: Command): (r: Moved)
    ensures Inv(s) ==> Inv(r.state)
    ensures cmd == Space ==> r == Moved(ToggleMode(s), None)
  {
    if cmd == Space then Moved(ToggleMode(s), None)
    else MoveStep(s, Delta(cmd).0, Delta(cmd).1)
  }

  /** Whether an outcome ends the program: the `IndexError` is not caught
      anywhere, so the event loop stops. */
  predicate Crashes(o: Option<Outcome>) {
    o == Some(IndexError)
  }

  /** The end of a run of key events: the last state and whether the run
      stopped at an event that raised. */
  datatype Ran = Ran(state: State, crashed: bool)

  /** Processes key events in order, stopping at the event that raised.
      From a valid state a run can only raise once the game is won: the
      last state then holds all of `Sequence`. */
  function Run(s: State, cmds: seq<Command>): (r: Ran)
    ensures cmds == [] ==> r == Ran(s, false)
    ensures Inv(s) && r.crashed ==> r.state.progress == Sequence
    decreases |cmds|
  {
    if cmds == [] then Ran(s, false)
    else
      var r := Apply(s, cmds[0]);
      if Crashes(r.outcome) then Ran(r.state, true) else Run(r.state, cmds[1..])
  }

  /** Every run keeps both tokens on the grid and `progress` a prefix of
      `Sequence`. */
  lemma {:induction false} RunKeepsInv(s: State, cmds: seq<Command>)
    requires Inv(s)
    ensures Inv(Run(s, cmds).state)
    decreases |cmds|
  {
    if cmds != [] {
      var r := Apply(s, cmds[0]);
      if !Crashes(r.outcome) {
        RunKeepsInv(r.state, cmds[1..]);
      }
    }
  }

  /** Running two batches of keys one after the other is running their
      concatenation, unless the first batch already raised. */
  lemma {:induction false} RunAppend(s: State, a: seq<Command>, b: seq<Command>)
    ensures Run(s, a + b) == if Run(s, a).crashed then Run(s, a) else Run(Run(s, a).state, b)
    decreases |a|
  {
    if a != [] {
      assert (a + b)[0] == a[0] && (a + b)[1..] == a[1..] + b;
      var r := Apply(s, a[0]);
      if !Crashes(r.outcome) {
        RunAppend(r.state, a[1..], b);
      }
    } else {
      assert a + b == b;
    }
  }

  /** From the start position, whatever keys are pressed, the tokens stay
      in `[0,10)×[0,10)` and `progress` is a prefix of `Sequence` of length
      0 to 13. */
  lemma ReachableStatesValid(cmds: seq<Command>)
    ensures Inv(Run(Init(), cmds).state)
    ensures 0 <= |Run(Init(), cmds).state.progress| <= |Sequence| == 13
  {
    RunKeepsInv(Init(), cmds);
  }

  /** Toggling twice restores the state. */
  lemma ToggleTwice(s: State)
    ensures ToggleMode(ToggleMode(s)) == s
  {
  }

  /** A rejected move, made a second time, is rejected again and still
      changes nothing. */
  lemma RejectedMoveIdempotent(s: State, dx: int, dy: int)
    requires MoveStep(s, dx, dy).outcome == None
    ensures MoveStep(MoveStep(s, dx, dy).state, dx, dy) == Moved(s, None)
  {
  }

  /** A move onto the goal cell reads "GOAL" in both worlds and wins exactly
      when all other labels have been matched. */
  lemma MoveOntoGoal(s: State, dx: int, dy: int)
    requires Inv(s)
    requires Active(s).col + dx == GoalTile.col && Active(s).row + dy == GoalTile.row
    ensures MoveStep(s, dx, dy).outcome == Some(GoalReached) <==> s.progress == Sequence[..|Sequence| - 1]
    ensures MoveStep(s, dx, dy).outcome == Some(GoalReached) ==> MoveStep(s, dx, dy).state.progress == Sequence
  {
    GoalOnlyAfterFullPrefix(s.progress, Some(Goal));
  }

  /** Once the game is won, moving onto any labelled cell raises the
      unguarded index error; the token has already moved and `progress`
      still holds all of `Sequence`. */
  lemma WonGameCrashesOnLabel(s: State, dx: int, dy: int)
    requires Inv(s) && s.progress == Sequence
    requires var t := Cell(Active(s).col + dx, Active(s).row + dy);
      InGrid(t) && Truthy(LabelAt(t, s.shadowMode))
    ensures MoveStep(s, dx, dy).outcome == Some(IndexError)
    ensures Active(MoveStep(s, dx, dy).state) == Cell(Active(s).col + dx, Active(s).row + dy)
    ensures MoveStep(s, dx, dy).state.progress == Sequence
  {
  }

  /** The state machine of a game, as the source keeps it in module-level
      variables; positions are two-element lists written element-wise. */
  class Game {
    var playerPos: array<int>
    var shadowPos: array<int>
    var shadowMode: bool
    var progress: seq<Label>

    ghost predicate Shaped()
      reads this
    {
      playerPos.Length == 2 && shadowPos.Length == 2 && playerPos != shadowPos
    }

    /** The value of the game variables. */
    ghost function Snapshot(): State
      reads this, playerPos, shadowPos
      requires Shaped()
    {
      State(Cell(playerPos[0], playerPos[1]), Cell(shadowPos[0], shadowPos[1]), shadowMode, progress)
    }

    ghost predicate Valid()
      reads this, playerPos, shadowPos
    {
      Shaped() && Inv(Snapshot())
    }

    /** The initial state of main.py:111-114. */
    constructor ()
      ensures Valid() && fresh(playerPos) && fresh(shadowPos)
      ensures Snapshot() == Init()
    {
      playerPos := new int[2] [2, 2];
      shadowPos := new int[2] [1, 6];
      shadowMode := false;
      progress := [];
    }

    /** `check_tile(pos)`: observes the label under `pos` in the current
        mode and updates `progress`; nothing else changes. */
    method CheckTile(pos: Cell) returns (o: Outcome)
      requires Valid()
      modifies this`progress
      ensures Valid()
      ensures progress == Observe(old(progress), LabelAt(pos, shadowMode)).progress
      ensures o == Observe(old(progress), LabelAt(pos, shadowMode)).outcome
    {
      var tileCode := LabelAt(pos, shadowMode);
      if Truthy(tileCode) {
        if |progress| >= |Sequence| {
          return IndexError;
        }
        var expected := Sequence[|progress|];
        if tileCode.value == expected {
          progress := progress + [tileCode.value];
          o := if tileCode.value != Goal then CorrectStep(tileCode.value) else GoalReached;
        } else {
          progress := [];
          o := WrongStep;
        }
      } else {
        o := NoLabel;
      }
    }

    /** `move_player(dx, dy)`. */
    method Move(dx: int, dy: int) returns (o: Option<Outcome>)
      requires Valid()
      modifies this`progress, playerPos, shadowPos
      ensures Valid()
      ensures Moved(Snapshot(), o) == MoveStep(old(Snapshot()), dx, dy)
    {
      var pos := if shadowMode then shadowPos else playerPos;
      var newX, newY := pos[0] + dx, pos[1] + dy;
      if 0 <= newX < Cols && 0 <= newY < Rows {
        if shadowMode {
          shadowPos[0], shadowPos[1] := newX, newY;
        } else {
          playerPos[0], playerPos[1] := newX, newY;
        }
        var checked := CheckTile(Cell(newX, newY));
        o := Some(checked);
      } else {
        o := None;
      }
    }

    /** `switch_mode`. */
    method SwitchMode()
      requires Valid()
      modifies this`shadowMode
      ensures Valid()
      ensures Snapshot() == ToggleMode(old(Snapshot()))
    {
      shadowMode := !shadowMode;
    }

    /** One key event of the event loop. */
    method HandleKey(cmd: Command) returns (o: Option<Outcome>)
      requires Valid()
      modifies this`progress, this`shadowMode, playerPos, shadowPos
      ensures Valid()
      ensures Moved(Snapshot(), o) == Apply(old(Snapshot()), cmd)
    {
      match cmd
      case Space =>
        SwitchMode();
        o := None;
      case Up => o := Move(0, -1);
      case Down => o := Move(0, 1);
      case Left => o := Move(-1, 0);
      case Right => o := Move(1, 0);
    }

    /** Feeds key events in order until one raises; reports whether one did. */
    method Play(cmds: seq<Command>) returns (crashed: bool)
      requires Valid()
      modifies this`progress, this`shadowMode, playerPos, shadowPos
      ensures Valid()
      ensures Ran(Snapshot(), crashed) == Run(old(Snapshot()), cmds)
    {
      var i := 0;
      crashed := false;
      while i < |cmds|
        invariant 0 <= i <= |cmds|
        invariant Valid()
        invariant !crashed
        invariant Run(old(Snapshot()), cmds) == Run(Snapshot(), cmds[i..])
      {
        var o := HandleKey(cmds[i]);
        assert cmds[i..][1..] == cmds[i + 1..];
        if Crashes(o) {
          crashed := true;
          return;
        }
        i := i + 1;
      }
    }
  }
}
