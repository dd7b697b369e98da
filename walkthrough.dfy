/** Concrete plays from the start state of main.py:111-114: the first
    steps, a wrong step, a complete winning play, and the crash that the
    unguarded index of main.py:182 causes after the win. */
module Walkthrough {
  import opened Wrappers
  import opened World
  import opened Tracker
  import opened Puzzle

  /** The initial left step lands on "R2", the first expected label. */
  lemma FirstStepCorrect()
    ensures Apply(Init(), Left) == Moved(Init().(player := Cell(1, 2), progress := ["R2"]), Some(CorrectStep("R2")))
  {
  }

  /** With ["R2"] matched, as after `FirstStepCorrect`, switching to the
      Shadow world and stepping down onto "S20" instead of "S6" resets the
      sequence. */
  lemma WrongStepResets()
    ensures Run(State(Cell(1, 2), Cell(1, 6), false, ["R2"]), [Space, Down]) == Ran(State(Cell(1, 2), Cell(1, 7), true, []), false)
  {
    assert Run(State(Cell(1, 2), Cell(1, 6), true, ["R2"]), [Down]) == Ran(State(Cell(1, 2), Cell(1, 7), true, []), false);
  }

  /** The keys that take the game from one matched label to the next:
      leg `i` ends on the cell of `Sequence[i]`. Each leg is written in
      parts of at most 2 keys, the parts its proof runs one at a time. */
  function Leg(i: nat): seq<Command>
  {
    match i
    case 0 => [Left]
    case 1 => [Space, Up] + [Up, Up] + [Right]
    case 2 => [Space, Up] + [Right, Right]
    case 3 => [Space, Up] + [Right, Right]
    case 4 => [Space, Down] + [Right, Right]
    case 5 => [Space, Down] + [Right, Right]
    case 6 => [Space, Up] + [Right, Right]
    case 7 => [Space, Up] + [Right, Right]
    case 8 => [Space, Down] + [Down, Down] + [Left, Left] + [Left, Down] + [Left, Left]
    case 9 => [Space, Down] + [Down, Down] + [Down, Down] + [Left, Left] + [Left, Left] + [Left, Left] + [Left]
    case 10 => [Space, Down] + [Down, Right] + [Right]
    case 11 => [Up, Right] + [Right, Up]
    case 12 => [Down, Down] + [Right, Right] + [Right]
    case _ => []
  }

  /** The state once the first `i` labels have been matched on this play. */
  function Waypoint(i: nat): State
  {
    match i
    case 0 => State(Cell(2, 2), Cell(1, 6), false, Sequence[..0])
    case 1 => State(Cell(1, 2), Cell(1, 6), false, Sequence[..1])
    case 2 => State(Cell(1, 2), Cell(2, 3), true, Sequence[..2])
    case 3 => State(Cell(3, 1), Cell(2, 3), false, Sequence[..3])
    case 4 => State(Cell(3, 1), Cell(4, 2), true, Sequence[..4])
    case 5 => State(Cell(5, 2), Cell(4, 2), false, Sequence[..5])
    case 6 => State(Cell(5, 2), Cell(6, 3), true, Sequence[..6])
    case 7 => State(Cell(7, 1), Cell(6, 3), false, Sequence[..7])
    case 8 => State(Cell(7, 1), Cell(8, 2), true, Sequence[..8])
    case 9 => State(Cell(2, 5), Cell(8, 2), false, Sequence[..9])
    case 10 => State(Cell(2, 5), Cell(1, 7), true, Sequence[..10])
    case 11 => State(Cell(4, 7), Cell(1, 7), false, Sequence[..11])
    case 12 => State(Cell(6, 5), Cell(1, 7), false, Sequence[..12])
    case _ => State(Cell(9, 7), Cell(1, 7), false, Sequence)
  }

  /** The keys of legs `i` to `n - 1`, one after the other. */
  function Joined(legs: nat -> seq<Command>, i: nat, n: nat): seq<Command>
    decreases n - i
  {
    if i >= n then [] else legs(i) + Joined(legs, i + 1, n)
  }

  /** Each leg matches one more label and nothing raises on the way. */
  lemma LegReaches(i: nat)
    requires i < |Sequence|
    ensures Run(Waypoint(i), Leg(i)) == Ran(Waypoint(i + 1), false)
  {
    if i == 0 { Leg0Keys(); }
    else if i == 1 { Leg1Keys(); }
    else if i == 2 { Leg2Keys(); }
    else if i == 3 { Leg3Keys(); }
    else if i == 4 { Leg4Keys(); }
    else if i == 5 { Leg5Keys(); }
    else if i == 6 { Leg6Keys(); }
    else if i == 7 { Leg7Keys(); }
    else if i == 8 { Leg8Keys(); }
    else if i == 9 { Leg9Keys(); }
    else if i == 10 { Leg10Keys(); }
    else if i == 11 { Leg11Keys(); }
    else { Leg12Keys(); }
  }

  /** Two runs that end without raising can be chained. */
  lemma RunThrough(s: State, a: seq<Command>, m: State, b: seq<Command>, t: State)
    requires Run(s, a) == Ran(m, false) && Run(m, b) == Ran(t, false)
    ensures Run(s, a + b) == Ran(t, false)
  {
    RunAppend(s, a, b);
  }

  // One lemma per leg, and per part of a leg, each stepping backwards from
  // the end: every assertion is one more key processed by `Run`. The parts
  // of a leg are chained by `RunThrough`.

  lemma Leg0Keys()
    ensures Run(State(Cell(2, 2), Cell(1, 6), false, Sequence[..0]), [Left]) == Ran(State(Cell(1, 2), Cell(1, 6), false, Sequence[..1]), false)
  {
    assert Sequence[..0] + [Sequence[0]] == Sequence[..1];
  }

  lemma Leg1Part0()
    ensures Run(State(Cell(1, 2), Cell(1, 6), false, Sequence[..1]), [Space, Up]) == Ran(State(Cell(1, 2), Cell(1, 5), true, Sequence[..1]), false)
  {
    assert Run(State(Cell(1, 2), Cell(1, 6), true, Sequence[..1]), [Up]) == Ran(State(Cell(1, 2), Cell(1, 5), true, Sequence[..1]), false);
  }

  lemma Leg1Part1()
    ensures Run(State(Cell(1, 2), Cell(1, 5), true, Sequence[..1]), [Up, Up]) == Ran(State(Cell(1, 2), Cell(1, 3), true, Sequence[..1]), false)
  {
    assert Run(State(Cell(1, 2), Cell(1, 4), true, Sequence[..1]), [Up]) == Ran(State(Cell(1, 2), Cell(1, 3), true, Sequence[..1]), false);
  }

  lemma Leg1Part2()
    ensures Run(State(Cell(1, 2), Cell(1, 3), true, Sequence[..1]), [Right]) == Ran(State(Cell(1, 2), Cell(2, 3), true, Sequence[..2]), false)
  {
    assert Sequence[..1] + [Sequence[1]] == Sequence[..2];
  }

  lemma Leg1Keys()
    ensures Run(State(Cell(1, 2), Cell(1, 6), false, Sequence[..1]), [Space, Up] + [Up, Up] + [Right]) == Ran(State(Cell(1, 2), Cell(2, 3), true, Sequence[..2]), false)
  {
    Leg1Part0();
    Leg1Part1();
    Leg1Part2();
    RunThrough(State(Cell(1, 2), Cell(1, 6), false, Sequence[..1]), [Space, Up], State(Cell(1, 2), Cell(1, 5), true, Sequence[..1]), [Up, Up], State(Cell(1, 2), Cell(1, 3), true, Sequence[..1]));
    RunThrough(State(Cell(1, 2), Cell(1, 6), false, Sequence[..1]), [Space, Up] + [Up, Up], State(Cell(1, 2), Cell(1, 3), true, Sequence[..1]), [Right], State(Cell(1, 2), Cell(2, 3), true, Sequence[..2]));
  }

  lemma Leg2Part0()
    ensures Run(State(Cell(1, 2), Cell(2, 3), true, Sequence[..2]), [Space, Up]) == Ran(State(Cell(1, 1), Cell(2, 3), false, Sequence[..2]), false)
  {
    assert Run(State(Cell(1, 2), Cell(2, 3), false, Sequence[..2]), [Up]) == Ran(State(Cell(1, 1), Cell(2, 3), false, Sequence[..2]), false);
  }

  lemma Leg2Part1()
    ensures Run(State(Cell(1, 1), Cell(2, 3), false, Sequence[..2]), [Right, Right]) == Ran(State(Cell(3, 1), Cell(2, 3), false, Sequence[..3]), false)
  {
    assert Sequence[..2] + [Sequence[2]] == Sequence[..3];
    assert Run(State(Cell(2, 1), Cell(2, 3), false, Sequence[..2]), [Right]) == Ran(State(Cell(3, 1), Cell(2, 3), false, Sequence[..3]), false);
  }

  lemma Leg2Keys()
    ensures Run(State(Cell(1, 2), Cell(2, 3), true, Sequence[..2]), [Space, Up] + [Right, Right]) == Ran(State(Cell(3, 1), Cell(2, 3), false, Sequence[..3]), false)
  {
    Leg2Part0();
    Leg2Part1();
    RunThrough(State(Cell(1, 2), Cell(2, 3), true, Sequence[..2]), [Space, Up], State(Cell(1, 1), Cell(2, 3), false, Sequence[..2]), [Right, Right], State(Cell(3, 1), Cell(2, 3), false, Sequence[..3]));
  }

  lemma Leg3Part0()
    ensures Run(State(Cell(3, 1), Cell(2, 3), false, Sequence[..3]), [Space, Up]) == Ran(State(Cell(3, 1), Cell(2, 2), true, Sequence[..3]), false)
  {
    assert Run(State(Cell(3, 1), Cell(2, 3), true, Sequence[..3]), [Up]) == Ran(State(Cell(3, 1), Cell(2, 2), true, Sequence[..3]), false);
  }

  lemma Leg3Part1()
    ensures Run(State(Cell(3, 1), Cell(2, 2), true, Sequence[..3]), [Right, Right]) == Ran(State(Cell(3, 1), Cell(4, 2), true, Sequence[..4]), false)
  {
    assert Sequence[..3] + [Sequence[3]] == Sequence[..4];
    assert Run(State(Cell(3, 1), Cell(3, 2), true, Sequence[..3]), [Right]) == Ran(State(Cell(3, 1), Cell(4, 2), true, Sequence[..4]), false);
  }

  lemma Leg3Keys()
    ensures Run(State(Cell(3, 1), Cell(2, 3), false, Sequence[..3]), [Space, Up] + [Right, Right]) == Ran(State(Cell(3, 1), Cell(4, 2), true, Sequence[..4]), false)
  {
    Leg3Part0();
    Leg3Part1();
    RunThrough(State(Cell(3, 1), Cell(2, 3), false, Sequence[..3]), [Space, Up], State(Cell(3, 1), Cell(2, 2), true, Sequence[..3]), [Right, Right], State(Cell(3, 1), Cell(4, 2), true, Sequence[..4]));
  }

  lemma Leg4Part0()
    ensures Run(State(Cell(3, 1), Cell(4, 2), true, Sequence[..4]), [Space, Down]) == Ran(State(Cell(3, 2), Cell(4, 2), false, Sequence[..4]), false)
  {
    assert Run(State(Cell(3, 1), Cell(4, 2), false, Sequence[..4]), [Down]) == Ran(State(Cell(3, 2), Cell(4, 2), false, Sequence[..4]), false);
  }

  lemma Leg4Part1()
    ensures Run(State(Cell(3, 2), Cell(4, 2), false, Sequence[..4]), [Right, Right]) == Ran(State(Cell(5, 2), Cell(4, 2), false, Sequence[..5]), false)
  {
    assert Sequence[..4] + [Sequence[4]] == Sequence[..5];
    assert Run(State(Cell(4, 2), Cell(4, 2), false, Sequence[..4]), [Right]) == Ran(State(Cell(5, 2), Cell(4, 2), false, Sequence[..5]), false);
  }

  lemma Leg4Keys()
    ensures Run(State(Cell(3, 1), Cell(4, 2), true, Sequence[..4]), [Space, Down] + [Right, Right]) == Ran(State(Cell(5, 2), Cell(4, 2), false, Sequence[..5]), false)
  {
    Leg4Part0();
    Leg4Part1();
    RunThrough(State(Cell(3, 1), Cell(4, 2), true, Sequence[..4]), [Space, Down], State(Cell(3, 2), Cell(4, 2), false, Sequence[..4]), [Right, Right], State(Cell(5, 2), Cell(4, 2), false, Sequence[..5]));
  }

  lemma Leg5Part0()
    ensures Run(State(Cell(5, 2), Cell(4, 2), false, Sequence[..5]), [Space, Down]) == Ran(State(Cell(5, 2), Cell(4, 3), true, Sequence[..5]), false)
  {
    assert Run(State(Cell(5, 2), Cell(4, 2), true, Sequence[..5]), [Down]) == Ran(State(Cell(5, 2), Cell(4, 3), true, Sequence[..5]), false);
  }

  lemma Leg5Part1()
    ensures Run(State(Cell(5, 2), Cell(4, 3), true, Sequence[..5]), [Right, Right]) == Ran(State(Cell(5, 2), Cell(6, 3), true, Sequence[..6]), false)
  {
    assert Sequence[..5] + [Sequence[5]] == Sequence[..6];
    assert Run(State(Cell(5, 2), Cell(5, 3), true, Sequence[..5]), [Right]) == Ran(State(Cell(5, 2), Cell(6, 3), true, Sequence[..6]), false);
  }

  lemma Leg5Keys()
    ensures Run(State(Cell(5, 2), Cell(4, 2), false, Sequence[..5]), [Space, Down] + [Right, Right]) == Ran(State(Cell(5, 2), Cell(6, 3), true, Sequence[..6]), false)
  {
    Leg5Part0();
    Leg5Part1();
    RunThrough(State(Cell(5, 2), Cell(4, 2), false, Sequence[..5]), [Space, Down], State(Cell(5, 2), Cell(4, 3), true, Sequence[..5]), [Right, Right], State(Cell(5, 2), Cell(6, 3), true, Sequence[..6]));
  }

  lemma Leg6Part0()
    ensures Run(State(Cell(5, 2), Cell(6, 3), true, Sequence[..6]), [Space, Up]) == Ran(State(Cell(5, 1), Cell(6, 3), false, Sequence[..6]), false)
  {
    assert Run(State(Cell(5, 2), Cell(6, 3), false, Sequence[..6]), [Up]) == Ran(State(Cell(5, 1), Cell(6, 3), false, Sequence[..6]), false);
  }

  lemma Leg6Part1()
    ensures Run(State(Cell(5, 1), Cell(6, 3), false, Sequence[..6]), [Right, Right]) == Ran(State(Cell(7, 1), Cell(6, 3), false, Sequence[..7]), false)
  {
    assert Sequence[..6] + [Sequence[6]] == Sequence[..7];
    assert Run(State(Cell(6, 1), Cell(6, 3), false, Sequence[..6]), [Right]) == Ran(State(Cell(7, 1), Cell(6, 3), false, Sequence[..7]), false);
  }

  lemma Leg6Keys()
    ensures Run(State(Cell(5, 2), Cell(6, 3), true, Sequence[..6]), [Space, Up] + [Right, Right]) == Ran(State(Cell(7, 1), Cell(6, 3), false, Sequence[..7]), false)
  {
    Leg6Part0();
    Leg6Part1();
    RunThrough(State(Cell(5, 2), Cell(6, 3), true, Sequence[..6]), [Space, Up], State(Cell(5, 1), Cell(6, 3), false, Sequence[..6]), [Right, Right], State(Cell(7, 1), Cell(6, 3), false, Sequence[..7]));
  }

  lemma Leg7Part0()
    ensures Run(State(Cell(7, 1), Cell(6, 3), false, Sequence[..7]), [Space, Up]) == Ran(State(Cell(7, 1), Cell(6, 2), true, Sequence[..7]), false)
  {
    assert Run(State(Cell(7, 1), Cell(6, 3), true, Sequence[..7]), [Up]) == Ran(State(Cell(7, 1), Cell(6, 2), true, Sequence[..7]), false);
  }

  lemma Leg7Part1()
    ensures Run(State(Cell(7, 1), Cell(6, 2), true, Sequence[..7]), [Right, Right]) == Ran(State(Cell(7, 1), Cell(8, 2), true, Sequence[..8]), false)
  {
    assert Sequence[..7] + [Sequence[7]] == Sequence[..8];
    assert Run(State(Cell(7, 1), Cell(7, 2), true, Sequence[..7]), [Right]) == Ran(State(Cell(7, 1), Cell(8, 2), true, Sequence[..8]), false);
  }

  lemma Leg7Keys()
    ensures Run(State(Cell(7, 1), Cell(6, 3), false, Sequence[..7]), [Space, Up] + [Right, Right]) == Ran(State(Cell(7, 1), Cell(8, 2), true, Sequence[..8]), false)
  {
    Leg7Part0();
    Leg7Part1();
    RunThrough(State(Cell(7, 1), Cell(6, 3), false, Sequence[..7]), [Space, Up], State(Cell(7, 1), Cell(6, 2), true, Sequence[..7]), [Right, Right], State(Cell(7, 1), Cell(8, 2), true, Sequence[..8]));
  }

  lemma Leg8Part0()
    ensures Run(State(Cell(7, 1), Cell(8, 2), true, Sequence[..8]), [Space, Down]) == Ran(State(Cell(7, 2), Cell(8, 2), false, Sequence[..8]), false)
  {
    assert Run(State(Cell(7, 1), Cell(8, 2), false, Sequence[..8]), [Down]) == Ran(State(Cell(7, 2), Cell(8, 2), false, Sequence[..8]), false);
  }

  lemma Leg8Part1()
    ensures Run(State(Cell(7, 2), Cell(8, 2), false, Sequence[..8]), [Down, Down]) == Ran(State(Cell(7, 4), Cell(8, 2), false, Sequence[..8]), false)
  {
    assert Run(State(Cell(7, 3), Cell(8, 2), false, Sequence[..8]), [Down]) == Ran(State(Cell(7, 4), Cell(8, 2), false, Sequence[..8]), false);
  }

  lemma Leg8Part2()
    ensures Run(State(Cell(7, 4), Cell(8, 2), false, Sequence[..8]), [Left, Left]) == Ran(State(Cell(5, 4), Cell(8, 2), false, Sequence[..8]), false)
  {
    assert Run(State(Cell(6, 4), Cell(8, 2), false, Sequence[..8]), [Left]) == Ran(State(Cell(5, 4), Cell(8, 2), false, Sequence[..8]), false);
  }

  lemma Leg8Part3()
    ensures Run(State(Cell(5, 4), Cell(8, 2), false, Sequence[..8]), [Left, Down]) == Ran(State(Cell(4, 5), Cell(8, 2), false, Sequence[..8]), false)
  {
    assert Run(State(Cell(4, 4), Cell(8, 2), false, Sequence[..8]), [Down]) == Ran(State(Cell(4, 5), Cell(8, 2), false, Sequence[..8]), false);
  }

  lemma Leg8Part4()
    ensures Run(State(Cell(4, 5), Cell(8, 2), false, Sequence[..8]), [Left, Left]) == Ran(State(Cell(2, 5), Cell(8, 2), false, Sequence[..9]), false)
  {
    assert Sequence[..8] + [Sequence[8]] == Sequence[..9];
    assert Run(State(Cell(3, 5), Cell(8, 2), false, Sequence[..8]), [Left]) == Ran(State(Cell(2, 5), Cell(8, 2), false, Sequence[..9]), false);
  }

  lemma Leg8Keys()
    ensures Run(State(Cell(7, 1), Cell(8, 2), true, Sequence[..8]), [Space, Down] + [Down, Down] + [Left, Left] + [Left, Down] + [Left, Left]) == Ran(State(Cell(2, 5), Cell(8, 2), false, Sequence[..9]), false)
  {
    Leg8Part0();
    Leg8Part1();
    Leg8Part2();
    Leg8Part3();
    Leg8Part4();
    RunThrough(State(Cell(7, 1), Cell(8, 2), true, Sequence[..8]), [Space, Down], State(Cell(7, 2), Cell(8, 2), false, Sequence[..8]), [Down, Down], State(Cell(7, 4), Cell(8, 2), false, Sequence[..8]));
    RunThrough(State(Cell(7, 1), Cell(8, 2), true, Sequence[..8]), [Space, Down] + [Down, Down], State(Cell(7, 4), Cell(8, 2), false, Sequence[..8]), [Left, Left], State(Cell(5, 4), Cell(8, 2), false, Sequence[..8]));
    RunThrough(State(Cell(7, 1), Cell(8, 2), true, Sequence[..8]), [Space, Down] + [Down, Down] + [Left, Left], State(Cell(5, 4), Cell(8, 2), false, Sequence[..8]), [Left, Down], State(Cell(4, 5), Cell(8, 2), false, Sequence[..8]));
    RunThrough(State(Cell(7, 1), Cell(8, 2), true, Sequence[..8]), [Space, Down] + [Down, Down] + [Left, Left] + [Left, Down], State(Cell(4, 5), Cell(8, 2), false, Sequence[..8]), [Left, Left], State(Cell(2, 5), Cell(8, 2), false, Sequence[..9]));
  }

  lemma Leg9Part0()
    ensures Run(State(Cell(2, 5), Cell(8, 2), false, Sequence[..9]), [Space, Down]) == Ran(State(Cell(2, 5), Cell(8, 3), true, Sequence[..9]), false)
  {
    assert Run(State(Cell(2, 5), Cell(8, 2), true, Sequence[..9]), [Down]) == Ran(State(Cell(2, 5), Cell(8, 3), true, Sequence[..9]), false);
  }

  lemma Leg9Part1()
    ensures Run(State(Cell(2, 5), Cell(8, 3), true, Sequence[..9]), [Down, Down]) == Ran(State(Cell(2, 5), Cell(8, 5), true, Sequence[..9]), false)
  {
    assert Run(State(Cell(2, 5), Cell(8, 4), true, Sequence[..9]), [Down]) == Ran(State(Cell(2, 5), Cell(8, 5), true, Sequence[..9]), false);
  }

  lemma Leg9Part2()
    ensures Run(State(Cell(2, 5), Cell(8, 5), true, Sequence[..9]), [Down, Down]) == Ran(State(Cell(2, 5), Cell(8, 7), true, Sequence[..9]), false)
  {
    assert Run(State(Cell(2, 5), Cell(8, 6), true, Sequence[..9]), [Down]) == Ran(State(Cell(2, 5), Cell(8, 7), true, Sequence[..9]), false);
  }

  lemma Leg9Part3()
    ensures Run(State(Cell(2, 5), Cell(8, 7), true, Sequence[..9]), [Left, Left]) == Ran(State(Cell(2, 5), Cell(6, 7), true, Sequence[..9]), false)
  {
    assert Run(State(Cell(2, 5), Cell(7, 7), true, Sequence[..9]), [Left]) == Ran(State(Cell(2, 5), Cell(6, 7), true, Sequence[..9]), false);
  }

  lemma Leg9Part4()
    ensures Run(State(Cell(2, 5), Cell(6, 7), true, Sequence[..9]), [Left, Left]) == Ran(State(Cell(2, 5), Cell(4, 7), true, Sequence[..9]), false)
  {
    assert Run(State(Cell(2, 5), Cell(5, 7), true, Sequence[..9]), [Left]) == Ran(State(Cell(2, 5), Cell(4, 7), true, Sequence[..9]), false);
  }

  lemma Leg9Part5()
    ensures Run(State(Cell(2, 5), Cell(4, 7), true, Sequence[..9]), [Left, Left]) == Ran(State(Cell(2, 5), Cell(2, 7), true, Sequence[..9]), false)
  {
    assert Run(State(Cell(2, 5), Cell(3, 7), true, Sequence[..9]), [Left]) == Ran(State(Cell(2, 5), Cell(2, 7), true, Sequence[..9]), false);
  }

  lemma Leg9Part6()
    ensures Run(State(Cell(2, 5), Cell(2, 7), true, Sequence[..9]), [Left]) == Ran(State(Cell(2, 5), Cell(1, 7), true, Sequence[..10]), false)
  {
    assert Sequence[..9] + [Sequence[9]] == Sequence[..10];
  }

  lemma Leg9Keys()
    ensures Run(State(Cell(2, 5), Cell(8, 2), false, Sequence[..9]), [Space, Down] + [Down, Down] + [Down, Down] + [Left, Left] + [Left, Left] + [Left, Left] + [Left]) == Ran(State(Cell(2, 5), Cell(1, 7), true, Sequence[..10]), false)
  {
    Leg9Part0();
    Leg9Part1();
    Leg9Part2();
    Leg9Part3();
    Leg9Part4();
    Leg9Part5();
    Leg9Part6();
    RunThrough(State(Cell(2, 5), Cell(8, 2), false, Sequence[..9]), [Space, Down], State(Cell(2, 5), Cell(8, 3), true, Sequence[..9]), [Down, Down], State(Cell(2, 5), Cell(8, 5), true, Sequence[..9]));
    RunThrough(State(Cell(2, 5), Cell(8, 2), false, Sequence[..9]), [Space, Down] + [Down, Down], State(Cell(2, 5), Cell(8, 5), true, Sequence[..9]), [Down, Down], State(Cell(2, 5), Cell(8, 7), true, Sequence[..9]));
    RunThrough(State(Cell(2, 5), Cell(8, 2), false, Sequence[..9]), [Space, Down] + [Down, Down] + [Down, Down], State(Cell(2, 5), Cell(8, 7), true, Sequence[..9]), [Left, Left], State(Cell(2, 5), Cell(6, 7), true, Sequence[..9]));
    RunThrough(State(Cell(2, 5), Cell(8, 2), false, Sequence[..9]), [Space, Down] + [Down, Down] + [Down, Down] + [Left, Left], State(Cell(2, 5), Cell(6, 7), true, Sequence[..9]), [Left, Left], State(Cell(2, 5), Cell(4, 7), true, Sequence[..9]));
    RunThrough(State(Cell(2, 5), Cell(8, 2), false, Sequence[..9]), [Space, Down] + [Down, Down] + [Down, Down] + [Left, Left] + [Left, Left], State(Cell(2, 5), Cell(4, 7), true, Sequence[..9]), [Left, Left], State(Cell(2, 5), Cell(2, 7), true, Sequence[..9]));
    RunThrough(State(Cell(2, 5), Cell(8, 2), false, Sequence[..9]), [Space, Down] + [Down, Down] + [Down, Down] + [Left, Left] + [Left, Left] + [Left, Left], State(Cell(2, 5), Cell(2, 7), true, Sequence[..9]), [Left], State(Cell(2, 5), Cell(1, 7), true, Sequence[..10]));
  }

  lemma Leg10Part0()
    ensures Run(State(Cell(2, 5), Cell(1, 7), true, Sequence[..10]), [Space, Down]) == Ran(State(Cell(2, 6), Cell(1, 7), false, Sequence[..10]), false)
  {
    assert Run(State(Cell(2, 5), Cell(1, 7), false, Sequence[..10]), [Down]) == Ran(State(Cell(2, 6), Cell(1, 7), false, Sequence[..10]), false);
  }

  lemma Leg10Part1()
    ensures Run(State(Cell(2, 6), Cell(1, 7), false, Sequence[..10]), [Down, Right]) == Ran(State(Cell(3, 7), Cell(1, 7), false, Sequence[..10]), false)
  {
    assert Run(State(Cell(2, 7), Cell(1, 7), false, Sequence[..10]), [Right]) == Ran(State(Cell(3, 7), Cell(1, 7), false, Sequence[..10]), false);
  }

  lemma Leg10Part2()
    ensures Run(State(Cell(3, 7), Cell(1, 7), false, Sequence[..10]), [Right]) == Ran(State(Cell(4, 7), Cell(1, 7), false, Sequence[..11]), false)
  {
    assert Sequence[..10] + [Sequence[10]] == Sequence[..11];
  }

  lemma Leg10Keys()
    ensures Run(State(Cell(2, 5), Cell(1, 7), true, Sequence[..10]), [Space, Down] + [Down, Right] + [Right]) == Ran(State(Cell(4, 7), Cell(1, 7), false, Sequence[..11]), false)
  {
    Leg10Part0();
    Leg10Part1();
    Leg10Part2();
    RunThrough(State(Cell(2, 5), Cell(1, 7), true, Sequence[..10]), [Space, Down], State(Cell(2, 6), Cell(1, 7), false, Sequence[..10]), [Down, Right], State(Cell(3, 7), Cell(1, 7), false, Sequence[..10]));
    RunThrough(State(Cell(2, 5), Cell(1, 7), true, Sequence[..10]), [Space, Down] + [Down, Right], State(Cell(3, 7), Cell(1, 7), false, Sequence[..10]), [Right], State(Cell(4, 7), Cell(1, 7), false, Sequence[..11]));
  }

  lemma Leg11Part0()
    ensures Run(State(Cell(4, 7), Cell(1, 7), false, Sequence[..11]), [Up, Right]) == Ran(State(Cell(5, 6), Cell(1, 7), false, Sequence[..11]), false)
  {
    assert Run(State(Cell(4, 6), Cell(1, 7), false, Sequence[..11]), [Right]) == Ran(State(Cell(5, 6), Cell(1, 7), false, Sequence[..11]), false);
  }

  lemma Leg11Part1()
    ensures Run(State(Cell(5, 6), Cell(1, 7), false, Sequence[..11]), [Right, Up]) == Ran(State(Cell(6, 5), Cell(1, 7), false, Sequence[..12]), false)
  {
    assert Sequence[..11] + [Sequence[11]] == Sequence[..12];
    assert Run(State(Cell(6, 6), Cell(1, 7), false, Sequence[..11]), [Up]) == Ran(State(Cell(6, 5), Cell(1, 7), false, Sequence[..12]), false);
  }

  lemma Leg11Keys()
    ensures Run(State(Cell(4, 7), Cell(1, 7), false, Sequence[..11]), [Up, Right] + [Right, Up]) == Ran(State(Cell(6, 5), Cell(1, 7), false, Sequence[..12]), false)
  {
    Leg11Part0();
    Leg11Part1();
    RunThrough(State(Cell(4, 7), Cell(1, 7), false, Sequence[..11]), [Up, Right], State(Cell(5, 6), Cell(1, 7), false, Sequence[..11]), [Right, Up], State(Cell(6, 5), Cell(1, 7), false, Sequence[..12]));
  }

  lemma Leg12Part0()
    ensures Run(State(Cell(6, 5), Cell(1, 7), false, Sequence[..12]), [Down, Down]) == Ran(State(Cell(6, 7), Cell(1, 7), false, Sequence[..12]), false)
  {
    assert Run(State(Cell(6, 6), Cell(1, 7), false, Sequence[..12]), [Down]) == Ran(State(Cell(6, 7), Cell(1, 7), false, Sequence[..12]), false);
  }

  lemma Leg12Part1()
    ensures Run(State(Cell(6, 7), Cell(1, 7), false, Sequence[..12]), [Right, Right]) == Ran(State(Cell(8, 7), Cell(1, 7), false, Sequence[..12]), false)
  {
    assert Run(State(Cell(7, 7), Cell(1, 7), false, Sequence[..12]), [Right]) == Ran(State(Cell(8, 7), Cell(1, 7), false, Sequence[..12]), false);
  }

  lemma Leg12Part2()
    ensures Run(State(Cell(8, 7), Cell(1, 7), false, Sequence[..12]), [Right]) == Ran(State(Cell(9, 7), Cell(1, 7), false, Sequence), false)
  {
    assert Sequence[..12] + [Sequence[12]] == Sequence;
  }

  lemma Leg12Keys()
    ensures Run(State(Cell(6, 5), Cell(1, 7), false, Sequence[..12]), [Down, Down] + [Right, Right] + [Right]) == Ran(State(Cell(9, 7), Cell(1, 7), false, Sequence), false)
  {
    Leg12Part0();
    Leg12Part1();
    Leg12Part2();
    RunThrough(State(Cell(6, 5), Cell(1, 7), false, Sequence[..12]), [Down, Down], State(Cell(6, 7), Cell(1, 7), false, Sequence[..12]), [Right, Right], State(Cell(8, 7), Cell(1, 7), false, Sequence[..12]));
    RunThrough(State(Cell(6, 5), Cell(1, 7), false, Sequence[..12]), [Down, Down] + [Right, Right], State(Cell(8, 7), Cell(1, 7), false, Sequence[..12]), [Right], State(Cell(9, 7), Cell(1, 7), false, Sequence));
  }

  /** Legs that each end, without raising, where the next one starts
      run through in one go. */
  lemma {:induction false} RunAlong(at: nat -> State, legs: nat -> seq<Command>, i: nat, n: nat)
    requires i <= n
    requires forall j :: i <= j < n ==> Run(at(j), legs(j)) == Ran(at(j + 1), false)
    ensures Run(at(i), Joined(legs, i, n)) == Ran(at(n), false)
    decreases n - i
  {
    if i < n {
      RunAlong(at, legs, i + 1, n);
      RunThrough(at(i), legs(i), at(i + 1), Joined(legs, i + 1, n), at(n));
    }
  }

  /** The puzzle can be won: from the start state the keys of all thirteen
      legs match the whole of `Sequence`, the real token ending on the goal
      cell, without raising. The start state is a parameter equal to
      `Init()` rather than `Init()` itself, so that the verifier does not
      unfold the whole run on literal arguments in one go. */
  lemma Solvable(start: State)
    requires start == Init()
    ensures Run(start, Joined(Leg, 0, |Sequence|)) == Ran(State(GoalTile, Cell(1, 7), false, Sequence), false)
  {
    forall j | 0 <= j < |Sequence|
      ensures Run(Waypoint(j), Leg(j)) == Ran(Waypoint(j + 1), false)
    {
      LegReaches(j);
    }
    RunAlong(Waypoint, Leg, 0, |Sequence|);
    assert Waypoint(0) == start;
  }

  /** After the win, stepping off the goal and back onto it raises the
      `IndexError` of main.py:182, which ends the program. */
  lemma ReenteringGoalCrashes()
    ensures Run(Waypoint(|Sequence|), [Left, Right]) == Ran(State(GoalTile, Cell(1, 7), false, Sequence), true)
  {
    assert LabelAt(Cell(8, 7), false) == None;
  }
}
