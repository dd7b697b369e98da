/** The sequence tracker of `check_tile` (main.py:173-191): the label seen
    under the active token either extends the matched prefix of
    `Sequence`, resets it, or is absent. */
module Tracker {
  import opened Wrappers
  import opened World

  /** What one observation produced; the source turns these into a message
      and a sound (main.py:185-190). `IndexError` is the exception raised by
      the unguarded index `sequence[len(progress)]` once all of `Sequence`
      has been matched. */
  datatype Outcome = NoLabel | CorrectStep(code: Label) | GoalReached | WrongStep | IndexError

  datatype Step = Step(progress: seq<Label>, outcome: Outcome)

  /** Python truthiness of the looked-up tile code: `None` and "" are false. */
  predicate Truthy(tile: Option<Label>)
    ensures Truthy(tile) ==> tile.Some?
    ensures tile.Some? ==> (Truthy(tile) <==> |tile.value| > 0)
  {
    tile.Some? && tile.value != ""
  }

  /** The matched prefixes are exactly the prefixes of `Sequence`. */
  predicate IsProgress(p: seq<Label>) {
    p <= Sequence
  }

  /** How `check_tile` updates `progress` on seeing `tile`. When the
      expected index is out of range the source raises before touching
      `progress`, so it is left as it was. */
  function Observe(progress: seq<Label>, tile: Option<Label>): (r: Step)
    ensures IsProgress(progress) ==> IsProgress(r.progress)
    ensures r.outcome == NoLabel <==> !Truthy(tile)
    ensures r.outcome == IndexError <==> Truthy(tile) && |progress| >= |Sequence|
    ensures r.outcome in {NoLabel, IndexError} ==> r.progress == progress
  {
    if Truthy(tile) then
      if |progress| < |Sequence| then
        var expected := Sequence[|progress|];
        if tile.value == expected then
          Step(progress + [tile.value], if tile.value != Goal then CorrectStep(tile.value) else GoalReached)
        else
          Step([], WrongStep)
      else
        Step(progress, IndexError)
    else
      Step(progress, NoLabel)
  }

  /** A present label is either the next expected one, and then `progress`
      grows by exactly that label and the step is reported as correct (or
      as the goal, for "GOAL"), or it is any other label, and then
      `progress` becomes empty, even when that label occurs elsewhere in
      `Sequence`. */
  lemma ObserveGrowsOrResets(progress: seq<Label>, code: Label)
    requires code != ""
    requires |progress| < |Sequence|
    ensures code == Sequence[|progress|] ==>
      Observe(progress, Some(code)).progress == progress + [code] &&
      |Observe(progress, Some(code)).progress| == |progress| + 1 &&
      Observe(progress, Some(code)).outcome == (if code == Goal then GoalReached else CorrectStep(code))
    ensures code != Sequence[|progress|] ==>
      Observe(progress, Some(code)) == Step([], WrongStep)
    ensures code in Sequence && code != Sequence[|progress|] ==>
      Observe(progress, Some(code)).progress == []
  {
  }

  /** "GOAL" is appended, with the goal outcome, exactly when everything
      before it has been matched. */
  lemma GoalOnlyAfterFullPrefix(progress: seq<Label>, tile: Option<Label>)
    requires IsProgress(progress)
    ensures Observe(progress, tile).outcome == GoalReached <==>
      tile == Some(Goal) && progress == Sequence[..|Sequence| - 1]
    ensures Observe(progress, tile).outcome == GoalReached ==>
      Observe(progress, tile).progress == Sequence
  {
    var r := Observe(progress, tile);
    if r.outcome == GoalReached {
      assert |progress| < |Sequence| && tile.value == Sequence[|progress|] == Goal;
      GoalIsLast(|progress|);
      assert progress == Sequence[..|progress|];
    }
    if tile == Some(Goal) && progress == Sequence[..|Sequence| - 1] {
      assert Sequence[|progress|] == Goal;
    }
  }

  /** "GOAL" occurs in `Sequence` only at its last position. */
  lemma GoalIsLast(i: nat)
    requires i < |Sequence|
    ensures Sequence[i] == Goal <==> i == |Sequence| - 1
  {
  }

  /** The unguarded index fails only once the game is won: under the
      prefix invariant, an `IndexError` means `progress` is all of
      `Sequence`, and then every present label raises it. */
  lemma IndexErrorOnlyAfterWin(progress: seq<Label>, tile: Option<Label>)
    requires IsProgress(progress)
    ensures Observe(progress, tile).outcome == IndexError <==>
      Truthy(tile) && progress == Sequence
  {
  }
}
