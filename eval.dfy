/**
 * The restricted arithmetic evaluator of the Countdown numbers game
 * (eval.py): a whitelist validator over a parsed syntax tree, a second walk
 * that counts the integer literals, and a recursive evaluator with Python's
 * floor division.  The parser itself (`ast.parse`) is not modelled: its
 * output is an input here, and a failed parse is the `ParseFailed` outcome.
 */
module Eval {

  // ---------------------------------------------------------------------------
  // Syntax trees, as Python's `ast` module produces them in `eval` mode
  // ---------------------------------------------------------------------------

  /** The subclasses of `ast.operator` (binary operators). */
  datatype BinOperator =
    | Add | Sub | Mult | FloorDiv
    | Div | Mod | Pow | LShift | RShift | BitOr | BitXor | BitAnd | MatMult

  /** The subclasses of `ast.unaryop`. */
  datatype UnaryOperator = UAdd | USub | Not | Invert

  /** The value of an `ast.Constant`: an int, or anything else (float, complex, str, bytes, None, ...). */
  datatype ConstValue = IntValue(i: int) | NonIntValue

  /** An expression node.  `OtherNode` stands for every node class the validator
      does not whitelist (Name, Call, Compare, Tuple, ...), with its type name and
      its child nodes in field order. */
  datatype Node =
    | Constant(value: ConstValue)
    | BinOp(left: Node, op: BinOperator, right: Node)
    | UnaryOp(uop: UnaryOperator, operand: Node)
    | OtherNode(kind: string, children: seq<Node>)

  /** The top-level `ast.Expression` node that `ast.parse(..., mode="eval")` returns. */
  datatype Tree = Expression(body: Node)

  /** What `ast.parse` hands to `safe_eval`: a tree, or a SyntaxError. */
  datatype ParseOutcome = Parsed(tree: Tree) | ParseFailed

  /** Every `ValueError` that `safe_eval` raises, with the data its message carries. */
  datatype Rejection =
    | SyntaxError
    | NonInteger
    | NotInPuzzle(value: int)
    | Overused(value: int, used: nat, available: nat)
    | OperatorNotAllowed(op: BinOperator)
    | DisallowedSyntax(kind: string)
    | WrongLiteralCount(count: nat)
    | DivisionByZero

  datatype Result<T> = Ok(value: T) | Err(error: Rejection)

  datatype Option<T> = None | Some(value: T)

  /** The keys of `_ALLOWED_OPS` and `_OP_MAP` (the two tables are identical). */
  predicate AllowedOp(op: BinOperator)
  {
    op == Add || op == Sub || op == Mult || op == FloorDiv
  }

  /** `type(node).__name__` of a unary operator node. */
  function UnaryName(u: UnaryOperator): string
  {
    match u
    case UAdd => "UAdd"
    case USub => "USub"
    case Not => "Not"
    case Invert => "Invert"
  }

  // ---------------------------------------------------------------------------
  // Reference notions the lemmas are stated with
  // ---------------------------------------------------------------------------

  /** The trees made only of int constants and whitelisted binary operators. */
  predicate Admissible(n: Node)
  {
    match n
    case Constant(c) => c.IntValue?
    case BinOp(l, op, r) => AllowedOp(op) && Admissible(l) && Admissible(r)
    case UnaryOp(_, _) => false
    case OtherNode(_, _) => false
  }

  /** The multiset of int constants anywhere in a tree. */
  function IntLiterals(n: Node): multiset<int>
    decreases n, 1
  {
    match n
    case Constant(c) => if c.IntValue? then multiset{c.i} else multiset{}
    case BinOp(l, _, r) => IntLiterals(l) + IntLiterals(r)
    case UnaryOp(_, x) => IntLiterals(x)
    case OtherNode(_, cs) => IntLiteralsOf(cs)
  }

  /** The multiset of int constants in a list of sibling nodes. */
  function IntLiteralsOf(cs: seq<Node>): multiset<int>
    decreases cs, 0
  {
    if cs == [] then multiset{}
    else IntLiteralsOf(cs[..|cs| - 1]) + IntLiterals(cs[|cs| - 1])
  }

  // ---------------------------------------------------------------------------
  // Python floor division
  // ---------------------------------------------------------------------------

  /** Python's `a // b` on ints: the quotient rounded toward negative infinity.
      Dafny's own `/` is Euclidean and differs from it when `b < 0`. */
  function FloorDivide(a: int, b: int): (q: int)
    requires b != 0
    ensures b > 0 ==> b * q <= a < b * q + b
    ensures b < 0 ==> b * q + b < a <= b * q
  {
    if b > 0 then a / b else (-a) / (-b)
  }

  /** The bounds in FloorDivide's contract single out its result. */
  lemma FloorDivideUnique(a: int, b: int, q: int)
    requires b > 0 ==> b * q <= a < b * q + b
    requires b < 0 ==> b * q + b < a <= b * q
    requires b != 0
    ensures q == FloorDivide(a, b)
  {
    var f := FloorDivide(a, b);
    if q < f {
      MulMonotone(b, q + 1, f);
    } else if q > f {
      MulMonotone(b, f + 1, q);
    }
  }

  /** Multiplying by a non-zero `b` preserves (b > 0) or reverses (b < 0) `x <= y`. */
  lemma MulMonotone(b: int, x: int, y: int)
    requires x <= y
    ensures b > 0 ==> b * x <= b * y
    ensures b < 0 ==> b * y <= b * x
  {
    assert b * y - b * x == b * (y - x);
  }

  /** Python rounds toward negative infinity where Dafny's `/` would not. */
  lemma FloorDivideExamples()
    ensures FloorDivide(7, 2) == 3
    ensures FloorDivide(7, -2) == -4 && 7 / -2 == -3
    ensures FloorDivide(-7, 2) == -4
    ensures FloorDivide(-7, -2) == 3
  {
  }

  // ---------------------------------------------------------------------------
  // _evaluate
  // ---------------------------------------------------------------------------

  /** What `_evaluate` does with a subtree: return an int, raise
      ZeroDivisionError on an int divisor of 0, or fail on a tree the validator
      refuses (`Stuck`): a KeyError on an operator missing from `_OP_MAP`, the
      RuntimeError for an unexpected node, or any arithmetic on a non-int
      constant, whose float or str result the model does not track. */
  datatype Evaluated = Value(v: int) | ZeroDivision | Stuck

  /** One entry of `_OP_MAP` applied to two ints. */
  function Apply(op: BinOperator, a: int, b: int): Evaluated
  {
    match op
    case Add => Value(a + b)
    case Sub => Value(a - b)
    case Mult => Value(a * b)
    case FloorDiv => if b == 0 then ZeroDivision else Value(FloorDivide(a, b))
    case _ => Stuck
  }

  /** `_evaluate`: left operand, then right operand, then the operator. */
  function Evaluate(n: Node): Evaluated
  {
    match n
    case Constant(c) => if c.IntValue? then Value(c.i) else Stuck
    case BinOp(l, op, r) =>
      var a := Evaluate(l);
      if !a.Value? then a
      else
        var b := Evaluate(r);
        if !b.Value? then b else Apply(op, a.v, b.v)
    case UnaryOp(_, x) =>
      // the operand is evaluated, then `_OP_MAP[type(node.op)]` has no unary entry
      var a := Evaluate(x);
      if !a.Value? then a else Stuck
    case OtherNode(_, _) => Stuck
  }

  /** Some floor division in the tree has a divisor that evaluates to 0. */
  predicate HasZeroDivisor(n: Node)
  {
    match n
    case BinOp(l, op, r) =>
      HasZeroDivisor(l) || HasZeroDivisor(r) || (op == FloorDiv && Evaluate(r) == Value(0))
    case _ => false
  }

  /** On a whitelisted tree `_evaluate` never reaches its KeyError or
      RuntimeError paths, and it raises ZeroDivisionError exactly when some
      divisor, however computed, is 0. */
  lemma {:induction false} AdmissibleEvaluates(n: Node)
    requires Admissible(n)
    ensures Evaluate(n) != Stuck
    ensures Evaluate(n) == ZeroDivision <==> HasZeroDivisor(n)
  {
    match n
    case Constant(_) =>
    case BinOp(l, op, r) =>
      AdmissibleEvaluates(l);
      AdmissibleEvaluates(r);
  }

  // ---------------------------------------------------------------------------
  // _Validator
  // ---------------------------------------------------------------------------

  /** The state of a validator walk: its `used_numbers` counter, and the
      ValueError it raised, if any. */
  datatype Walked = Walked(used: multiset<int>, error: Option<Rejection>)

  /** `visit_Constant`: the int check, the membership check, then the counter
      increment followed by the overuse check. */
  function CheckConstant(c: ConstValue, allowed: multiset<int>, used: multiset<int>): Walked
  {
    match c
    case NonIntValue => Walked(used, Some(NonInteger))
    case IntValue(v) =>
      if v !in allowed then Walked(used, Some(NotInPuzzle(v)))
      else
        var used' := used[v := used[v] + 1];
        if used'[v] > allowed[v] then Walked(used', Some(Overused(v, used'[v], allowed[v])))
        else Walked(used', None)
  }

  /** A whole `_Validator.visit` of a node, stopping at the first ValueError.
      A BinOp's operator is checked before either operand is visited; a
      UnaryOp is refused when `generic_visit` reaches its `ast.unaryop` child,
      before its operand; every other node class is refused outright. */
  function Walk(n: Node, allowed: multiset<int>, used: multiset<int>): Walked
  {
    match n
    case Constant(c) => CheckConstant(c, allowed, used)
    case BinOp(l, op, r) =>
      if !AllowedOp(op) then Walked(used, Some(OperatorNotAllowed(op)))
      else
        var w := Walk(l, allowed, used);
        if w.error.Some? then w else Walk(r, allowed, w.used)
    case UnaryOp(u, _) => Walked(used, Some(DisallowedSyntax(UnaryName(u))))
    case OtherNode(kind, _) => Walked(used, Some(DisallowedSyntax(kind)))
  }

  /** Starting from a counter within the allowance, the walk succeeds exactly on
      whitelisted trees whose literals, added to the counter, stay within the
      allowance; on success the counter has grown by exactly those literals. */
  lemma {:induction false} WalkAccepts(n: Node, allowed: multiset<int>, used: multiset<int>)
    requires used <= allowed
    ensures Walk(n, allowed, used).error.None? <==> Admissible(n) && used + IntLiterals(n) <= allowed
    ensures Walk(n, allowed, used).error.None? ==> Walk(n, allowed, used).used == used + IntLiterals(n)
  {
    match n
    case Constant(c) =>
      if c.IntValue? {
        var v := c.i;
        if v in allowed && used[v] + 1 <= allowed[v] {
          assert used[v := used[v] + 1] == used + multiset{v};
          forall x ensures (used + multiset{v})[x] <= allowed[x] {
            if x != v { assert (used + multiset{v})[x] == used[x]; }
          }
        }
      }
    case BinOp(l, op, r) =>
      if AllowedOp(op) {
        WalkAccepts(l, allowed, used);
        var w := Walk(l, allowed, used);
        if w.error.None? {
          WalkAccepts(r, allowed, w.used);
          assert used + IntLiterals(n) == w.used + IntLiterals(r);
        }
      }
    case UnaryOp(_, _) =>
    case OtherNode(_, _) =>
  }

  /** What each ValueError of the validator means: only the validator's own
      kinds arise, a rejected operator is outside the whitelist, a literal
      "not in the puzzle set" is absent from the allowance, and an overuse is
      reported at the first occurrence beyond the allowance, so that the tree
      really holds more copies of that literal than the allowance does. */
  lemma {:induction false} WalkErrorMeaning(n: Node, allowed: multiset<int>, used: multiset<int>)
    requires used <= allowed
    ensures var e := Walk(n, allowed, used).error;
      e.Some? ==> (
        && (e.value.NotInPuzzle? || e.value.Overused? || !Admissible(n))
        && !e.value.SyntaxError? && !e.value.WrongLiteralCount? && !e.value.DivisionByZero?
        && (e.value.OperatorNotAllowed? ==> !AllowedOp(e.value.op))
        && (e.value.NotInPuzzle? ==> e.value.value !in allowed && e.value.value in IntLiterals(n))
        && (e.value.Overused? ==>
              var v := e.value.value;
              && v in IntLiterals(n)
              && e.value.available == allowed[v] > 0
              && e.value.used == allowed[v] + 1
              && (used + IntLiterals(n))[v] > allowed[v]))
  {
    match n
    case Constant(c) =>
    case BinOp(l, op, r) =>
      if AllowedOp(op) {
        WalkErrorMeaning(l, allowed, used);
        WalkAccepts(l, allowed, used);
        var w := Walk(l, allowed, used);
        if w.error.None? {
          WalkErrorMeaning(r, allowed, w.used);
          assert used + IntLiterals(n) == w.used + IntLiterals(r);
        }
      }
    case UnaryOp(_, _) =>
    case OtherNode(_, _) =>
  }

  /** `_Validator`: the allowance (`allowed_numbers`, never written) and the
      `used_numbers` counter its visits increment. */
  class Validator {
    const allowed: multiset<int>
    var used: multiset<int>

    /** `_Validator.__init__`: a fresh, empty `used_numbers` counter. */
    constructor (allowed: multiset<int>)
      ensures this.allowed == allowed && used == multiset{}
    {
      this.allowed := allowed;
      used := multiset{};
    }

    /** `visit_Constant`. */
    method VisitConstant(c: ConstValue) returns (err: Option<Rejection>)
      modifies this
      ensures Walked(used, err) == CheckConstant(c, allowed, old(used))
    {
      match c
      case NonIntValue =>
        err := Some(NonInteger);
      case IntValue(v) =>
        if v !in allowed {
          err := Some(NotInPuzzle(v));
          return;
        }
        used := used[v := used[v] + 1];
        if used[v] > allowed[v] {
          err := Some(Overused(v, used[v], allowed[v]));
        } else {
          err := None;
        }
    }

    /** `visit_BinOp`: the operator check, then `generic_visit` of the left
        operand, the operator (nothing to do) and the right operand. */
    method VisitBinOp(l: Node, op: BinOperator, r: Node) returns (err: Option<Rejection>)
      modifies this
      ensures Walked(used, err) == Walk(BinOp(l, op, r), allowed, old(used))
      decreases BinOp(l, op, r), 0
    {
      if !AllowedOp(op) {
        return Some(OperatorNotAllowed(op));
      }
      err := VisitNode(l);
      if err.Some? {
        return;
      }
      err := VisitNode(r);
    }

    /** `visit` of an expression node, with the overridden `generic_visit` for
        the node classes that have no `visit_` method of their own. */
    method VisitNode(n: Node) returns (err: Option<Rejection>)
      modifies this
      ensures Walked(used, err) == Walk(n, allowed, old(used))
      decreases n, 1
    {
      match n
      case Constant(c) =>
        err := VisitConstant(c);
      case BinOp(l, op, r) =>
        err := VisitBinOp(l, op, r);
      case UnaryOp(u, _) =>
        // generic_visit lets UnaryOp through and visits its `op` child first,
        // which is an ast.unaryop, not an ast.operator, and not whitelisted
        err := Some(DisallowedSyntax(UnaryName(u)));
      case OtherNode(kind, _) =>
        err := Some(DisallowedSyntax(kind));
    }

    /** `visit_Expression`: `generic_visit` of the body. */
    method Visit(t: Tree) returns (err: Option<Rejection>)
      modifies this
      ensures Walked(used, err) == Walk(t.body, allowed, old(used))
    {
      err := VisitNode(t.body);
    }
  }

  // ---------------------------------------------------------------------------
  // _Counter
  // ---------------------------------------------------------------------------

  /** The inner `_Counter` visitor: counts int constants anywhere in the tree. */
  class LiteralCounter {
    var count: nat

    constructor ()
      ensures count == 0
    {
      count := 0;
    }

    /** `visit` with the default `generic_visit`, which descends into every child. */
    method VisitNode(n: Node)
      modifies this
      ensures count == old(count) + |IntLiterals(n)|
      decreases n
    {
      match n
      case Constant(c) =>
        if c.IntValue? {
          count := count + 1;
        }
      case BinOp(l, _, r) =>
        VisitNode(l);
        VisitNode(r);
      case UnaryOp(_, x) =>
        VisitNode(x);
      case OtherNode(_, cs) =>
        for i := 0 to |cs|
          invariant count == old(count) + |IntLiteralsOf(cs[..i])|
        {
          assert cs[..i + 1][..i] == cs[..i];
          VisitNode(cs[i]);
        }
        assert cs[..|cs|] == cs;
    }

    /** `visit` of the `ast.Expression` root. */
    method Visit(t: Tree)
      modifies this
      ensures count == old(count) + |IntLiterals(t.body)|
    {
      VisitNode(t.body);
    }
  }

  // ---------------------------------------------------------------------------
  // safe_eval
  // ---------------------------------------------------------------------------

  /** The outcome `safe_eval` computes: parse, validate against `Counter(picks)`,
      count literals (2 to 6), evaluate, and turn ZeroDivisionError into a
      rejection. */
  function SafeEvalSpec(input: ParseOutcome, picks: seq<int>): Result<int>
  {
    match input
    case ParseFailed => Err(SyntaxError)
    case Parsed(t) =>
      var w := Walk(t.body, multiset(picks), multiset{});
      if w.error.Some? then Err(w.error.value)
      else
        var count := |IntLiterals(t.body)|;
        if !(2 <= count <= 6) then Err(WrongLiteralCount(count))
        else
          WalkAccepts(t.body, multiset(picks), multiset{});
          AdmissibleEvaluates(t.body);
          match Evaluate(t.body)
          case Value(v) => Ok(v)
          case ZeroDivision => Err(DivisionByZero)
          case Stuck => assert false; Err(SyntaxError)
  }

  /** `safe_eval`, step by step.  `picks` is a value here: the method only reads
      it, so calling it again with the same arguments gives the same outcome. */
  method SafeEval(input: ParseOutcome, picks: seq<int>) returns (r: Result<int>)
    ensures r == SafeEvalSpec(input, picks)
  {
    var allowedCounter := multiset(picks);
    if input.ParseFailed? {
      return Err(SyntaxError);
    }
    var tree := input.tree;
    var validator := new Validator(allowedCounter);
    var err := validator.Visit(tree);
    if err.Some? {
      return Err(err.value);
    }
    var counter := new LiteralCounter();
    counter.Visit(tree);
    if !(2 <= counter.count <= 6) {
      return Err(WrongLiteralCount(counter.count));
    }
    WalkAccepts(tree.body, allowedCounter, multiset{});
    AdmissibleEvaluates(tree.body);
    var result := Evaluate(tree.body);
    match result
    case Value(v) =>
      r := Ok(v);
    case ZeroDivision =>
      r := Err(DivisionByZero);
  }

  /** `safe_eval` accepts exactly the whitelisted trees whose literals form a
      sub-multiset of `picks`, number 2 to 6, and divide by no zero; what it
      returns is then the tree's value under `_evaluate`. */
  lemma SafeEvalAccepts(t: Tree, picks: seq<int>)
    ensures SafeEvalSpec(Parsed(t), picks).Ok? <==>
      && Admissible(t.body)
      && IntLiterals(t.body) <= multiset(picks)
      && 2 <= |IntLiterals(t.body)| <= 6
      && !HasZeroDivisor(t.body)
    ensures SafeEvalSpec(Parsed(t), picks).Ok? ==>
      Evaluate(t.body) == Value(SafeEvalSpec(Parsed(t), picks).value)
  {
    WalkAccepts(t.body, multiset(picks), multiset{});
    assert multiset{} + IntLiterals(t.body) == IntLiterals(t.body);
    if Admissible(t.body) {
      AdmissibleEvaluates(t.body);
    }
  }

  /** The stages run in order and each rejects with its own kind: validation
      errors first, then the literal count (only on a validated tree), then
      division by zero. */
  lemma SafeEvalStages(t: Tree, picks: seq<int>)
    ensures var r := SafeEvalSpec(Parsed(t), picks);
      var w := Walk(t.body, multiset(picks), multiset{});
      var count := |IntLiterals(t.body)|;
      && (w.error.Some? ==> r == Err(w.error.value))
      && (w.error.None? && !(2 <= count <= 6) ==> r == Err(WrongLiteralCount(count)))
      && (w.error.None? && 2 <= count <= 6 ==>
            (r == Err(DivisionByZero) <==> HasZeroDivisor(t.body)))
  {
    WalkAccepts(t.body, multiset(picks), multiset{});
    if Walk(t.body, multiset(picks), multiset{}).error.None? {
      AdmissibleEvaluates(t.body);
    }
  }

  /** A BinOp whose operator is outside the whitelist is refused for that
      operator, whatever its operands hold: the operator is checked first. */
  lemma SafeEvalRefusesOperator(l: Node, op: BinOperator, r: Node, picks: seq<int>)
    requires !AllowedOp(op)
    ensures SafeEvalSpec(Parsed(Expression(BinOp(l, op, r))), picks) == Err(OperatorNotAllowed(op))
  {
  }

  /** A unary operator is refused at the operator itself, whatever its operand. */
  lemma SafeEvalRefusesUnary(u: UnaryOperator, x: Node, picks: seq<int>)
    ensures SafeEvalSpec(Parsed(Expression(UnaryOp(u, x))), picks) == Err(DisallowedSyntax(UnaryName(u)))
  {
  }

  /** Calling `safe_eval` twice with the same arguments gives the same outcome. */
  method SafeEvalRepeatable(input: ParseOutcome, picks: seq<int>) returns (first: Result<int>, second: Result<int>)
    ensures first == second
  {
    first := SafeEval(input, picks);
    second := SafeEval(input, picks);
  }
}
