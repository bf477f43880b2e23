/**
 * The game state of the Countdown numbers game (game_engine.py): the two
 * pools the puzzle numbers are drawn from, the drawing of one number, and
 * the submission of an answer, which `safe_eval` judges.  The random index
 * of a draw is a parameter; the messages returned and printed are left out.
 */
module GameEngine {
  import opened Eval

  /** `larges`: the values a large pick can take. */
  const Larges: seq<int> := [25, 50, 75, 100]

  /** `smalls`: the values a small pick can take. */
  const Smalls: seq<int> := [1, 2, 3, 4, 5, 6, 7, 8, 9, 10]

  /** The `Game` dataclass.  Its methods reassign `picks` where the source
      appends to the list in place. */
  class Game {
    var target: int
    var picks: seq<int>
    var roundNumber: int

    /** The dataclass constructor. */
    constructor (target: int, picks: seq<int>, roundNumber: int)
      ensures this.target == target && this.picks == picks && this.roundNumber == roundNumber
    {
      this.target := target;
      this.picks := picks;
      this.roundNumber := roundNumber;
    }

    /** `pick_large`, with `index` the value `random.randint(0, len(larges) - 1)` drew. */
    method PickLarge(index: nat)
      requires index < |Larges|
      modifies this`picks
      ensures picks == old(picks) + [Larges[index]]
    {
      picks := picks + [Larges[index]];
    }

    /** `pick_small`, with `index` the value `random.randint(0, len(smalls) - 1)` drew. */
    method PickSmall(index: nat)
      requires index < |Smalls|
      modifies this`picks
      ensures picks == old(picks) + [Smalls[index]]
    {
      picks := picks + [Smalls[index]];
    }

    /** `pick_operands`: exactly "L" draws a large number, exactly "S" a small
        one; any other input leaves the picks as they were. */
    method PickOperands(choice: string, index: nat)
      requires choice == "L" ==> index < |Larges|
      requires choice == "S" ==> index < |Smalls|
      modifies this`picks
      ensures choice == "L" ==> |picks| == |old(picks)| + 1 && picks[..|old(picks)|] == old(picks) && picks[|old(picks)|] in Larges
      ensures choice == "S" ==> |picks| == |old(picks)| + 1 && picks[..|old(picks)|] == old(picks) && picks[|old(picks)|] in Smalls
      ensures choice == "L" ==> picks == old(picks) + [Larges[index]]
      ensures choice == "S" ==> picks == old(picks) + [Smalls[index]]
      ensures choice != "L" && choice != "S" ==> picks == old(picks)
    {
      if choice == "L" {
        PickLarge(index);
      } else if choice == "S" {
        PickSmall(index);
      }
    }

    /** `submit_expression`: a rejected expression fails and leaves the round
        as it is; a numeric answer ends the round, and succeeds exactly when it
        hits the target.  Only `round_number` is written. */
    method SubmitExpression(input: ParseOutcome, picks: seq<int>) returns (success: bool)
      modifies this`roundNumber
      ensures var outcome := SafeEvalSpec(input, picks);
        && (outcome.Err? ==> !success && roundNumber == old(roundNumber))
        && (outcome.Ok? ==> roundNumber == old(roundNumber) + 1 && (success <==> outcome.value == target))
    {
      var outcome := SafeEval(input, picks);
      if outcome.Err? {
        return false;
      }
      var value := outcome.value;
      if value != target {
        roundNumber := roundNumber + 1;
        return false;
      }
      roundNumber := roundNumber + 1;
      return true;
    }

    /** `is_finished`: the game stops after round 10. */
    predicate IsFinished()
      reads this
    {
      roundNumber > 10
    }
  }
}
