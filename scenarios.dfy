/**
 * Concrete trees, as `ast.parse(..., mode="eval")` builds them, and what
 * `safe_eval` and a game make of them.
 */
module Scenarios {
  import opened Eval
  import opened GameEngine

  function Lit(v: int): Node
  {
    Constant(IntValue(v))
  }

  /** The puzzle set 25, 50, 75, 100, 3, 6. */
  const Puzzle: seq<int> := [25, 50, 75, 100, 3, 6]

  /** 25*3+6 evaluates to 81. */
  lemma AcceptedProduct()
    ensures SafeEvalSpec(Parsed(Expression(BinOp(BinOp(Lit(25), Mult, Lit(3)), Add, Lit(6)))), Puzzle) == Ok(81)
  {
    var t := Expression(BinOp(BinOp(Lit(25), Mult, Lit(3)), Add, Lit(6)));
    ProductParts();
    ProductDrawn();
    SafeEvalAccepts(t, Puzzle);
  }

  /** The literals of 25*3+6. */
  lemma ProductParts()
    ensures IntLiterals(BinOp(BinOp(Lit(25), Mult, Lit(3)), Add, Lit(6))) == multiset{25, 3, 6}
  {
  }

  /** 25, 3 and 6 are among the drawn numbers. */
  lemma ProductDrawn()
    ensures multiset{25, 3, 6} <= multiset(Puzzle)
  {
    assert multiset(Puzzle) == multiset{25, 3, 6} + multiset{50, 75, 100};
  }

  /** (50+75)*100//6 evaluates to 2083, the quotient rounded down. */
  lemma AcceptedQuotient()
    ensures SafeEvalSpec(Parsed(Expression(
              BinOp(BinOp(BinOp(Lit(50), Add, Lit(75)), Mult, Lit(100)), FloorDiv, Lit(6)))), Puzzle) == Ok(2083)
  {
    var t := Expression(BinOp(BinOp(BinOp(Lit(50), Add, Lit(75)), Mult, Lit(100)), FloorDiv, Lit(6)));
    QuotientParts();
    QuotientDrawn();
    SafeEvalAccepts(t, Puzzle);
  }

  /** The value and the literals of (50+75)*100//6. */
  lemma QuotientParts()
    ensures var body := BinOp(BinOp(BinOp(Lit(50), Add, Lit(75)), Mult, Lit(100)), FloorDiv, Lit(6));
      Evaluate(body) == Value(2083) && IntLiterals(body) == multiset{50, 75, 100, 6}
  {
    assert FloorDivide(12500, 6) == 2083;
  }

  /** 50, 75, 100 and 6 are among the drawn numbers. */
  lemma QuotientDrawn()
    ensures multiset{50, 75, 100, 6} <= multiset(Puzzle)
  {
    assert multiset(Puzzle) == multiset{50, 75, 100, 6} + multiset{25, 3};
  }

  /** 7//2 is 3. */
  lemma AcceptedFloorDivision()
    ensures SafeEvalSpec(Parsed(Expression(BinOp(Lit(7), FloorDiv, Lit(2)))), [7, 2]) == Ok(3)
  {
    assert multiset([7, 2]) == multiset{7, 2};
    SafeEvalAccepts(Expression(BinOp(Lit(7), FloorDiv, Lit(2))), [7, 2]);
  }

  /** (3-10)//2 is -4: division rounds toward negative infinity. */
  lemma AcceptedNegativeQuotient()
    ensures SafeEvalSpec(Parsed(Expression(BinOp(BinOp(Lit(3), Sub, Lit(10)), FloorDiv, Lit(2)))), [3, 10, 2]) == Ok(-4)
  {
    assert multiset([3, 10, 2]) == multiset{3, 10, 2};
    SafeEvalAccepts(Expression(BinOp(BinOp(Lit(3), Sub, Lit(10)), FloorDiv, Lit(2))), [3, 10, 2]);
  }

  /** 3+3 with a single 3 drawn: the second 3 is reported as overuse. */
  lemma RejectedOveruse()
    ensures SafeEvalSpec(Parsed(Expression(BinOp(Lit(3), Add, Lit(3)))), Puzzle) == Err(Overused(3, 2, 1))
  {
    var allowed := multiset(Puzzle);
    assert allowed == multiset{25, 50, 75, 100, 3, 6};
    assert allowed[3] == 1;
    assert Walk(Lit(3), allowed, multiset{}) == Walked(multiset{3}, None);
    assert multiset{3}[3 := 2][3] == 2;
    assert Walk(Lit(3), allowed, multiset{3}).error == Some(Overused(3, 2, 1));
  }

  /** 100 alone: a valid literal, but one is fewer than two. */
  lemma RejectedCount()
    ensures SafeEvalSpec(Parsed(Expression(Lit(100))), Puzzle) == Err(WrongLiteralCount(1))
  {
    assert multiset(Puzzle)[100] == 1;
  }

  /** 7+1 with 1 to 6 drawn: 7 is not in the puzzle set. */
  lemma RejectedAbsentLiteral()
    ensures SafeEvalSpec(Parsed(Expression(BinOp(Lit(7), Add, Lit(1)))), [1, 2, 3, 4, 5, 6]) == Err(NotInPuzzle(7))
  {
    var allowed := multiset([1, 2, 3, 4, 5, 6]);
    assert allowed == multiset{1, 2, 3, 4, 5, 6};
    assert 7 !in allowed;
    assert Walk(BinOp(Lit(7), Add, Lit(1)), allowed, multiset{}).error == Some(NotInPuzzle(7));
  }

  /** Syntax outside the whitelist: a unary minus (-7//2), the operators ** and /
      whatever their operands, a float constant (2.5+1), and a failed parse. */
  lemma RejectedSyntax()
    ensures SafeEvalSpec(Parsed(Expression(BinOp(UnaryOp(USub, Lit(7)), FloorDiv, Lit(2)))), [7, 2])
            == Err(DisallowedSyntax("USub"))
    ensures SafeEvalSpec(Parsed(Expression(BinOp(Lit(2), Pow, Lit(3)))), [2, 3]) == Err(OperatorNotAllowed(Pow))
    ensures SafeEvalSpec(Parsed(Expression(BinOp(Lit(9), Div, Lit(9)))), [2, 3]) == Err(OperatorNotAllowed(Div))
    ensures SafeEvalSpec(Parsed(Expression(BinOp(Constant(NonIntValue), Add, Lit(1)))), [1]) == Err(NonInteger)
    ensures SafeEvalSpec(ParseFailed, Puzzle) == Err(SyntaxError)
  {
    assert Walk(BinOp(UnaryOp(USub, Lit(7)), FloorDiv, Lit(2)), multiset([7, 2]), multiset{}).error
           == Some(DisallowedSyntax("USub"));
    assert Walk(BinOp(Constant(NonIntValue), Add, Lit(1)), multiset([1]), multiset{}).error == Some(NonInteger);
  }

  /** 5//0: a literal zero divisor is a rejection. */
  lemma RejectedZeroDivisor()
    ensures SafeEvalSpec(Parsed(Expression(BinOp(Lit(5), FloorDiv, Lit(0)))), [5, 0]) == Err(DivisionByZero)
  {
    var t := Expression(BinOp(Lit(5), FloorDiv, Lit(0)));
    assert IntLiterals(t.body) == multiset{5, 0} == multiset([5, 0]);
    WalkAccepts(t.body, multiset([5, 0]), multiset{});
    SafeEvalStages(t, [5, 0]);
  }

  /** 6//(3-3): a divisor computed to be zero is a rejection too. */
  lemma RejectedComputedZeroDivisor()
    ensures SafeEvalSpec(Parsed(Expression(BinOp(Lit(6), FloorDiv, BinOp(Lit(3), Sub, Lit(3))))), [6, 3, 3])
            == Err(DivisionByZero)
  {
    var t := Expression(BinOp(Lit(6), FloorDiv, BinOp(Lit(3), Sub, Lit(3))));
    assert IntLiterals(t.body) == multiset{6, 3, 3} == multiset([6, 3, 3]);
    assert Evaluate(BinOp(Lit(3), Sub, Lit(3))) == Value(0);
    WalkAccepts(t.body, multiset([6, 3, 3]), multiset{});
    SafeEvalStages(t, [6, 3, 3]);
  }

  /** A game driven only by the contracts of the game's methods: six draws,
      one invalid choice among them, then three answers. */
  method PlayOneRound()
  {
    var game := new Game(81, [], 1);
    game.PickOperands("L", 0);
    game.PickOperands("L", 1);
    game.PickOperands("l", 1);
    game.PickOperands("L", 2);
    game.PickOperands("L", 3);
    game.PickOperands("S", 2);
    game.PickOperands("S", 5);
    assert game.picks == Puzzle;
    AnswerRound(game);
  }

  /** A wrong answer ends the round, a rejected one does not, the right one
      succeeds. */
  method AnswerRound(game: Game)
    requires game.picks == Puzzle && game.target == 81 && game.roundNumber == 1
    modifies game
  {
    AcceptedQuotient();
    var wrong := game.SubmitExpression(Parsed(Expression(
      BinOp(BinOp(BinOp(Lit(50), Add, Lit(75)), Mult, Lit(100)), FloorDiv, Lit(6)))), game.picks);
    assert !wrong && game.roundNumber == 2;

    RejectedOveruse();
    var invalid := game.SubmitExpression(Parsed(Expression(BinOp(Lit(3), Add, Lit(3)))), game.picks);
    assert !invalid && game.roundNumber == 2;

    AcceptedProduct();
    var right := game.SubmitExpression(Parsed(Expression(BinOp(BinOp(Lit(25), Mult, Lit(3)), Add, Lit(6)))), game.picks);
    assert right && game.roundNumber == 3 && !game.IsFinished();
  }
}
