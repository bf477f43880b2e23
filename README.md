# Countdown numbers game: the restricted arithmetic evaluator

This project models the core of a Countdown-style numbers game written in
Python. A player draws up to six numbers from a "large" pool (25, 50, 75, 100)
and a "small" pool (1 to 10), then types an arithmetic expression meant to hit
a random target. `safe_eval` (eval.py) decides whether the expression is
legal and computes its value:

1. Python's `ast.parse(expr, mode="eval")` turns the string into a syntax
   tree. This step is an input here: a `ParseOutcome` is either a tree or
   `ParseFailed`, which is the SyntaxError path.
2. `_Validator` walks the tree once. It stops at the first violation, in
   visiting order. A BinOp's operator is checked before its operands. The
   operator must be one of Add, Sub, Mult, FloorDiv. A constant must be an
   int that occurs in `picks`. Each int is counted in a `used_numbers`
   counter, and the walk fails as soon as a count goes past the number of
   copies drawn. A UnaryOp is refused when the walk reaches its unary
   operator child. Any other node class is refused outright.
3. `_Counter` walks the tree again and counts the int constants. The count
   must be 2 to 6.
4. `_evaluate` computes the value by recursion, with Python floor division.
   A ZeroDivisionError becomes an ordinary rejection.

`Game` (game_engine.py) holds the target, the drawn numbers and the round
number. `pick_operands` draws one number for the input "L" or "S".
`submit_expression` runs `safe_eval`. A numeric answer ends the round, and it
succeeds when it equals the target.

Files:

- `eval.dfy`, module `Eval`: the syntax tree as a closed datatype, with
  variants for the shapes the validator must refuse; `_Validator` and
  `_Counter` as classes whose methods update their counter fields; `_evaluate`
  as the function `Evaluate`; `safe_eval` as the method `SafeEval`, proved
  equal to the function `SafeEvalSpec`; and the lemmas.
- `game_engine.dfy`, module `GameEngine`: the two pools and the `Game` class.
- `scenarios.dfy`, module `Scenarios`: concrete trees and their outcomes, and
  a client that plays a round using only the methods' contracts.

Modelling choices:

- Python's `Counter` is a Dafny `multiset<int>`. `Counter(picks)` is
  `multiset(picks)`. `val in counter` is membership, which means a positive
  count. `counter[val]` is the multiplicity.
- Python's integers are unbounded, and so are Dafny's `int`s.
- Python's `//` rounds toward negative infinity. Dafny's `/` is Euclidean, and
  the two differ for negative divisors: `7 // -2` is `-4` in Python, while
  `7 / -2` is `-3` in Dafny. `FloorDivide` is written by hand.
- Every `ValueError` of `safe_eval` is a `Rejection` variant. Each variant
  carries the data the message shows: the value, the counts, the operator, or
  the node's class name.
- `Evaluated.Stuck` stands for the ways `_evaluate` fails on trees the
  validator has refused: a KeyError on an operator missing from `_OP_MAP`,
  the KeyError of the UnaryOp branch, the RuntimeError for any other node,
  and any arithmetic on a non-int constant (see "## Left out").
  `AdmissibleEvaluates` proves that a validated tree never gets there, so
  `SafeEval` never meets that case.

What the code does at the points where a reader might expect otherwise:

- The code refuses every `UnaryOp`: `generic_visit` lets the UnaryOp node
  through, then visits its `USub`/`UAdd` child, which is not an
  `ast.operator` and is not whitelisted (eval.py:65-70). So `-7//2` is
  rejected with `DisallowedSyntax("USub")` rather than evaluated to `-4`.
  The UnaryOp branch of `_evaluate` (eval.py:83-86) is never reached.
- The comment at eval.py:17 speaks of division "with no remainder", but the
  code does plain floor division (eval.py:22, eval.py:30), and an inexact
  quotient is accepted (`(50+75)*100//6` is 2083).
- The validator counts the literals it has seen in a separate
  `used_numbers` counter and compares each count with the allowance
  (eval.py:48-53); the allowance itself is never changed.
- The literals are counted by a second walk, `_Counter` (eval.py:112-125),
  which runs only after validation succeeded.
- `round_number` advances only on a numeric answer, right or wrong; a
  rejected expression returns before it and leaves it alone
  (game_engine.py:40-50).

## Model

| member | source | states |
|---|---|---|
| Eval.FloorDivide | eval.py:30 | `operator.floordiv` on ints: the quotient `q` satisfies `b*q <= a < b*q + b` for `b > 0`, and `b*q + b < a <= b*q` for `b < 0`, so it is rounded toward negative infinity |
| Eval.FloorDivideUnique | eval.py:30 | any `q` within those bounds equals `FloorDivide(a, b)`, so the bounds define Python's `//` |
| Eval.FloorDivideExamples | eval.py:30 | `7//2 == 3`, `7//-2 == -4` (Dafny's `7 / -2` is `-3`), `-7//2 == -4`, `-7//-2 == 3` |
| Eval.AdmissibleEvaluates | eval.py:73-89 | on a tree of int constants and whitelisted operators, `_evaluate` never reaches its KeyError or RuntimeError paths, and it raises ZeroDivisionError exactly when some divisor evaluates to 0, however that divisor is computed |
| Eval.WalkAccepts | eval.py:42-70 | from a counter within the allowance, validation succeeds if and only if the tree has only int constants and the four operators and its literals, added to the counter, are a sub-multiset of the allowance; on success `used_numbers` has grown by exactly the tree's literals |
| Eval.WalkErrorMeaning | eval.py:42-70 | every validation error is of the validator's own kinds; a refused operator is outside the whitelist; a refused structure (non-int constant, UnaryOp, other node class) means the tree is not whitelisted; "not in the puzzle set" names a literal of the tree absent from the allowance; an overuse is reported at the first copy past the allowance, with used count `available + 1` and `available` the value's count in `picks` |
| Eval.Validator.constructor | eval.py:38-40 | keeps the allowance and starts an empty `used_numbers` counter |
| Eval.Validator.VisitConstant | eval.py:42-53 | `visit_Constant`: refuses a non-int, then a value not in the allowance; otherwise increments the value's count and refuses it if the count now exceeds the allowance; the new counter and the error are those of `CheckConstant` |
| Eval.Validator.VisitBinOp | eval.py:55-58 | `visit_BinOp`: refuses an operator outside Add/Sub/Mult/FloorDiv before visiting either operand, then visits left and right, stopping at the first error; state and error equal `Walk` of the node |
| Eval.Validator.VisitNode | eval.py:65-70 | the overridden `generic_visit` dispatch: a UnaryOp is refused at its unary operator child, before its operand; any other node class is refused with its class name; state and error equal `Walk` |
| Eval.Validator.Visit | eval.py:60-62 | `visit_Expression`: validates the body |
| Eval.LiteralCounter.constructor | eval.py:113-114 | the count starts at 0 |
| Eval.LiteralCounter.VisitNode | eval.py:115-117 | the default visitor walk adds to `count` exactly the number of int constants anywhere in the node, including under nodes the validator refuses |
| Eval.LiteralCounter.Visit | eval.py:119-120 | `counter.visit(tree)` adds the number of int constants of the body |
| Eval.SafeEval | eval.py:92-133 | `safe_eval` step by step (fresh counter from `picks`, parse outcome, validation, literal count, evaluation, ZeroDivisionError caught) returns exactly `SafeEvalSpec(input, picks)` |
| Eval.SafeEvalAccepts | eval.py:101-133 | a parsed tree is accepted if and only if it holds only int constants and the four operators, its literals are a sub-multiset of `picks`, it has 2 to 6 of them, and no divisor evaluates to zero; the accepted value is the tree's value under `_evaluate` |
| Eval.SafeEvalStages | eval.py:108-131 | the stages run in order: a validation error wins; on a validated tree a literal count outside 2..6 is `WrongLiteralCount(count)`; on a validated tree with an allowed count the result is `DivisionByZero` exactly when some divisor evaluates to zero |
| Eval.SafeEvalRefusesOperator | eval.py:55-57 | a BinOp with an operator outside Add/Sub/Mult/FloorDiv is refused for that operator whatever its operands contain, even literals that were never drawn |
| Eval.SafeEvalRefusesUnary | eval.py:65-70 | a UnaryOp (`-x`, `+x`, `not x`, `~x`) is refused with the unary operator's class name whatever its operand |
| Eval.SafeEvalRepeatable | eval.py:101-102 | `safe_eval` reads `picks` and builds its own counter, so two calls with the same arguments give the same outcome |
| GameEngine.Game.constructor | game_engine.py:24-28 | the dataclass fields take the given target, picks and round number |
| GameEngine.Game.PickLarge | game_engine.py:12-15 | appends `larges[index]` for a drawn index in `0..len(larges)-1`; nothing else changes |
| GameEngine.Game.PickSmall | game_engine.py:18-21 | appends `smalls[index]` for a drawn index in `0..len(smalls)-1`; nothing else changes |
| GameEngine.Game.PickOperands | game_engine.py:30-36 | exactly "L" appends one element, and it is in `larges`; exactly "S" appends one element, and it is in `smalls`; the old picks are kept as a prefix; any other input leaves `picks` unchanged; target and round never change |
| GameEngine.Game.SubmitExpression | game_engine.py:38-50 | a rejection gives `False` and leaves `round_number`; a value raises `round_number` by exactly 1 and gives `True` if and only if it equals the target; `target` and `picks` never change |
| Scenarios.AcceptedProduct | eval.py:92-133 | with picks 25, 50, 75, 100, 3, 6, `25*3+6` is accepted with value 81 |
| Scenarios.AcceptedQuotient | eval.py:127-133 | with the same picks, `(50+75)*100//6` is accepted with value 2083: an inexact division is not refused |
| Scenarios.AcceptedFloorDivision | eval.py:30 | `7//2` with picks 7, 2 is 3 |
| Scenarios.AcceptedNegativeQuotient | eval.py:30 | `(3-10)//2` with picks 3, 10, 2 is -4, rounded toward negative infinity |
| Scenarios.RejectedOveruse | eval.py:48-53 | `3+3` with a single 3 drawn is refused at the second 3, used 2 times, available 1 |
| Scenarios.RejectedCount | eval.py:122-125 | `100` alone is refused with a count of 1 literals |
| Scenarios.RejectedAbsentLiteral | eval.py:46-47 | `7+1` with picks 1 to 6 is refused because 7 is not in the puzzle set |
| Scenarios.RejectedSyntax | eval.py:55-70 | `-7//2` is refused at `USub`; `2**3` and `9/9` are refused at their operators whatever the operands; a float constant is refused as a non-integer; a failed parse is a syntax error |
| Scenarios.RejectedZeroDivisor | eval.py:127-131 | `5//0` with picks 5, 0 is refused as division by zero |
| Scenarios.RejectedComputedZeroDivisor | eval.py:127-131 | `6//(3-3)` with picks 6, 3, 3 is refused as division by zero: the divisor is computed |

The functions the contracts above are stated with model the source directly
and carry no contract of their own: `Walk` and `CheckConstant` are the
validator's walk (eval.py:42-70), `Evaluate` and `Apply` are `_evaluate` and
`_OP_MAP` (eval.py:26-31, eval.py:73-89) on trees whose constants are ints,
`SafeEvalSpec` is `safe_eval` (eval.py:92-133), `AllowedOp` is the key set of `_ALLOWED_OPS`
(eval.py:18-23), and `Game.IsFinished` is `is_finished`, true exactly when
`round_number > 10` (game_engine.py:52-54). `Larges` and `Smalls` are the two
pools (game_engine.py:7, game_engine.py:9).

## Left out

- `ast.parse` (eval.py:104-107): Python's full expression grammar is not
  modelled. The tree is an input, and a SyntaxError is the `ParseFailed`
  outcome. The SyntaxError's message is not kept.
- Error message text and `print` calls: every f-string message in eval.py
  and game_engine.py is replaced by a tagged `Rejection`, and
  `submit_expression` returns only its success flag.
- `random.randint` in `pick_large` and `pick_small`: the drawn index is a
  parameter, bounded by the pool's length.
- `pick_large` and `pick_small` are module-level functions that append to the
  list they are given. Here they are methods of `Game` that append to its
  `picks`. `pick_operands` draws into `this.picks`, not into a separate list
  argument. The only caller, main.py, always passes `game.picks`.
- Python's `bool` being a subclass of `int`: a `True` constant would count
  as the int 1. The model treats booleans as non-int constants.
- Evaluate, Apply: on a tree holding a non-int constant, `_evaluate` returns
  that constant as is (eval.py:74-75) and Python then does float, complex or
  str arithmetic with it, so `2.5 + 1` gives 3.5 and `1 // 0.0` raises
  ZeroDivisionError. `Evaluate` turns all of this into `Stuck`, since
  `ConstValue.NonIntValue` carries no value. Validation refuses such trees
  with `NonInteger` before `_evaluate` runs (eval.py:44-45, `WalkAccepts`),
  so no outcome of `safe_eval` depends on it.
- `RecursionError` on trees nested deeper than Python's recursion limit:
  the model has no depth limit.
- After a rejection the validator's counter holds the counts up to the
  failing literal. The model states this state exactly, but nothing reads it.
- main.py is not part of this model: the input loop, the help text, reset,
  quit and `KeyboardInterrupt` handling are I/O glue. main.py caps the picks
  at six; the model does not need that cap.
