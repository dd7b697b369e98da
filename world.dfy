/** The fixed world of the puzzle: the grid, the two label tables, the goal
    cell and the required visiting order (main.py:34, 81-108). */
module World {
  import opened Wrappers

  type Label = string

  /** A grid cell, column first, as the `(col, row)` tuples of the source. */
  datatype Cell = Cell(col: int, row: int)

  const Cols: int := 10
  const Rows: int := 10

  predicate InGrid(c: Cell) {
    0 <= c.col < Cols && 0 <= c.row < Rows
  }

  /** Labels visible in the Real world. */
  const RealTiles: map<Cell, Label> := map[
    Cell(1, 2) := "R2",
    Cell(3, 1) := "R4",
    Cell(5, 2) := "R5",
    Cell(7, 1) := "R8",
    Cell(2, 5) := "R12",
    Cell(4, 7) := "R15",
    Cell(6, 5) := "R18",
    Cell(0, 0) := "Rx1", Cell(9, 0) := "Rz2", Cell(0, 9) := "Ry3", Cell(9, 9) := "Rw4", Cell(5, 5) := "Rv5"
  ]

  /** Labels visible in the Shadow world. */
  const ShadowTiles: map<Cell, Label> := map[
    Cell(2, 3) := "S6",
    Cell(4, 2) := "S10",
    Cell(6, 3) := "S14",
    Cell(8, 2) := "S16",
    Cell(1, 7) := "S20",
    Cell(0, 1) := "Sx1", Cell(9, 1) := "Sz2", Cell(0, 8) := "Sy3", Cell(9, 8) := "Sw4", Cell(5, 4) := "Sv5"
  ]

  const GoalTile: Cell := Cell(9, 7)

  const Goal: Label := "GOAL"

  /** The one order in which the labels must be stepped on. */
  const Sequence: seq<Label> := [
    "R2", "S6", "R4", "S10",
    "R5", "S14", "R8", "S16",
    "R12", "S20", "R15", "R18", "GOAL"
  ]

  /** The table shown in the given mode. */
  function Visible(shadowMode: bool): map<Cell, Label> {
    if shadowMode then ShadowTiles else RealTiles
  }

  /** `dict.get`: the entry of `c` in `m`, or nothing when `c` is no key. */
  function Lookup(m: map<Cell, Label>, c: Cell): (r: Option<Label>)
    ensures r.Some? <==> c in m
    ensures r.Some? ==> r.value == m[c]
  {
    if c in m then Some(m[c]) else None
  }

  /** The label under cell `c` in the given mode: the table lookup of the
      active world, overridden by "GOAL" on the goal cell. */
  function LabelAt(c: Cell, shadowMode: bool): (r: Option<Label>)
    ensures c == GoalTile ==> r == Some(Goal)
    ensures c != GoalTile ==> (r.Some? <==> c in Visible(shadowMode))
    ensures c != GoalTile && r.Some? ==> r.value == Visible(shadowMode)[c]
  {
    if c == GoalTile then Some(Goal) else Lookup(Visible(shadowMode), c)
  }

  /** The data tables are consistent: the two tables are disjoint, lie on
      the grid and do not contain the goal cell. */
  lemma TablesDisjoint()
    ensures RealTiles.Keys !! ShadowTiles.Keys
    ensures GoalTile !in RealTiles && GoalTile !in ShadowTiles
  {
  }

  /** Every labelled cell and the goal cell lie on the 10×10 grid. */
  lemma TablesOnGrid()
    ensures forall c :: c in RealTiles ==> InGrid(c)
    ensures forall c :: c in ShadowTiles ==> InGrid(c)
    ensures InGrid(GoalTile)
  {
  }

  /** Where each non-goal entry of `Sequence` lies: cell and world. */
  function SolutionCell(i: nat): (r: (Cell, bool))
    requires i < |Sequence| - 1
  {
    [ (Cell(1, 2), false), (Cell(2, 3), true), (Cell(3, 1), false), (Cell(4, 2), true),
      (Cell(5, 2), false), (Cell(6, 3), true), (Cell(7, 1), false), (Cell(8, 2), true),
      (Cell(2, 5), false), (Cell(1, 7), true), (Cell(4, 7), false), (Cell(6, 5), false) ][i]
  }

  /** Every label of `Sequence` except the last is found in exactly one
      table, an "R" label in the Real table and an "S" label in the Shadow
      table; only the last entry is "GOAL". */
  lemma SequenceLabelsPlaced(i: nat)
    requires i < |Sequence| - 1
    ensures Sequence[i] != Goal
    ensures Sequence[i][0] == 'R' || Sequence[i][0] == 'S'
    ensures Sequence[i][0] == 'R' ==> Sequence[i] in RealTiles.Values && Sequence[i] !in ShadowTiles.Values
    ensures Sequence[i][0] == 'S' ==> Sequence[i] in ShadowTiles.Values && Sequence[i] !in RealTiles.Values
    ensures LabelAt(SolutionCell(i).0, SolutionCell(i).1) == Some(Sequence[i])
  {
    var (c, m) := SolutionCell(i);
    assert Visible(m)[c] == Sequence[i];
  }

  /** ... and on exactly one cell of that table. */
  lemma SequenceLabelsUnique(i: nat)
    requires i < |Sequence| - 1
    ensures forall c :: c in Visible(SolutionCell(i).1) && Visible(SolutionCell(i).1)[c] == Sequence[i] ==> c == SolutionCell(i).0
  {
  }

  /** Only the goal cell reads a label in both worlds, and a cell off the
      grid reads nothing in either. */
  lemma LabelledInOneWorld(c: Cell)
    ensures LabelAt(c, false).Some? && LabelAt(c, true).Some? ==> c == GoalTile
    ensures !InGrid(c) ==> LabelAt(c, false) == None && LabelAt(c, true) == None
  {
    TablesDisjoint();
  }
}
