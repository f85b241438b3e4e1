/**
 * Properties of the expression parser: how tightly each operator binds and
 * which way it groups, what becomes of an assignment, the two errors that
 * end a parse, and where error recovery stops.
 */
module ParserFacts {
  import opened Wrappers
  import opened TokenTypes
  import opened Tokens
  import opened Errors
  import opened Exprs
  import opened Parsers

  /** The level an operator belongs to, loosest 0; Levels for every kind that is not a binary operator. */
  function Precedence(k: TokenType): (n: nat)
    ensures n <= Levels
  {
    if k == Or then 0
    else if k == And then 1
    else if k in {BangEqual, EqualEqual} then 2
    else if k in {Greater, GreaterEqual, Less, LessEqual} then 3
    else if k in {Minus, Plus} then 4
    else if k in {Slash, Star} then 5
    else Levels
  }

  /** The operator tables are exactly the precedence classes; END_OF_FILE is in none. */
  lemma OperatorsByPrecedence(k: TokenType, n: nat)
    requires n < Levels
    ensures k in Operators(n) <==> Precedence(k) == n
    ensures Precedence(EndOfFile) == Levels
  {
  }

  lemma MatchByPrecedence(t: seq<Token>, q: nat, n: nat)
    requires q < |t| && n < Levels
    ensures MatchAny(t, q, Operators(n)) <==> Precedence(t[q].kind) == n
  {
    OperatorsByPrecedence(t[q].kind, n);
  }

  // ----- building blocks: one level at a time -----

  /** A level whose operand is not followed by one of its operators is that operand. */
  lemma LevelNoOperator(t: seq<Token>, n: nat, p: nat, errs: seq<ErrorReport>)
    requires TokenStream(t) && p < |t| && n < Levels
    requires var o := OperandAt(t, n, p, errs); o.result.Some? && Precedence(t[o.pos].kind) != n
    ensures LevelAt(t, n, p, errs) == OperandAt(t, n, p, errs)
  {
    MatchByPrecedence(t, OperandAt(t, n, p, errs).pos, n);
  }

  /** Two operands joined by one operator of the level. */
  lemma LevelOneOperator(t: seq<Token>, n: nat, p: nat, errs: seq<ErrorReport>)
    requires TokenStream(t) && p < |t| && n < Levels
    requires var o1 := OperandAt(t, n, p, errs);
      && o1.result.Some? && Precedence(t[o1.pos].kind) == n
      && var o2 := OperandAt(t, n, o1.pos + 1, o1.errors);
      && o2.result.Some? && Precedence(t[o2.pos].kind) != n
    ensures var o1 := OperandAt(t, n, p, errs);
      var o2 := OperandAt(t, n, o1.pos + 1, o1.errors);
      LevelAt(t, n, p, errs) == Parsed(Some(Combine(n, o1.result.value, t[o1.pos], o2.result.value)), o2.pos, o2.errors)
  {
    var o1 := OperandAt(t, n, p, errs);
    var o2 := OperandAt(t, n, o1.pos + 1, o1.errors);
    MatchByPrecedence(t, o1.pos, n);
    MatchByPrecedence(t, o2.pos, n);
    var joined := Combine(n, o1.result.value, t[o1.pos], o2.result.value);
    assert LevelAt(t, n, p, errs) == LevelLoop(t, n, o1.result.value, o1.pos, o1.errors);
    assert LevelLoop(t, n, o1.result.value, o1.pos, o1.errors) == LevelLoop(t, n, joined, o2.pos, o2.errors);
    assert LevelLoop(t, n, joined, o2.pos, o2.errors) == Parsed(Some(joined), o2.pos, o2.errors);
  }

  /** Three operands joined by two operators of the same level group to the left. */
  lemma LevelTwoOperators(t: seq<Token>, n: nat, p: nat, errs: seq<ErrorReport>)
    requires TokenStream(t) && p < |t| && n < Levels
    requires var o1 := OperandAt(t, n, p, errs);
      && o1.result.Some? && Precedence(t[o1.pos].kind) == n
      && var o2 := OperandAt(t, n, o1.pos + 1, o1.errors);
      && o2.result.Some? && Precedence(t[o2.pos].kind) == n
      && var o3 := OperandAt(t, n, o2.pos + 1, o2.errors);
      && o3.result.Some? && Precedence(t[o3.pos].kind) != n
    ensures var o1 := OperandAt(t, n, p, errs);
      var o2 := OperandAt(t, n, o1.pos + 1, o1.errors);
      var o3 := OperandAt(t, n, o2.pos + 1, o2.errors);
      var inner := Combine(n, o1.result.value, t[o1.pos], o2.result.value);
      LevelAt(t, n, p, errs) == Parsed(Some(Combine(n, inner, t[o2.pos], o3.result.value)), o3.pos, o3.errors)
  {
    var o1 := OperandAt(t, n, p, errs);
    var o2 := OperandAt(t, n, o1.pos + 1, o1.errors);
    var o3 := OperandAt(t, n, o2.pos + 1, o2.errors);
    MatchByPrecedence(t, o1.pos, n);
    MatchByPrecedence(t, o2.pos, n);
    MatchByPrecedence(t, o3.pos, n);
    var inner := Combine(n, o1.result.value, t[o1.pos], o2.result.value);
    var outer := Combine(n, inner, t[o2.pos], o3.result.value);
    assert LevelAt(t, n, p, errs) == LevelLoop(t, n, o1.result.value, o1.pos, o1.errors);
    assert LevelLoop(t, n, o1.result.value, o1.pos, o1.errors) == LevelLoop(t, n, inner, o2.pos, o2.errors);
    assert LevelLoop(t, n, inner, o2.pos, o2.errors) == LevelLoop(t, n, outer, o3.pos, o3.errors);
    assert LevelLoop(t, n, outer, o3.pos, o3.errors) == Parsed(Some(outer), o3.pos, o3.errors);
  }

  /**
   * A looser level gives the same tree as a tighter one when no operator of
   * the levels in between follows it.
   */
  lemma {:induction false} Lift(t: seq<Token>, m: nat, k: nat, p: nat, errs: seq<ErrorReport>)
    requires TokenStream(t) && p < |t| && m <= k < Levels
    requires var r := LevelAt(t, k, p, errs); r.result.Some? && !(m <= Precedence(t[r.pos].kind) < k)
    ensures LevelAt(t, m, p, errs) == LevelAt(t, k, p, errs)
    decreases k - m
  {
    if m < k {
      Lift(t, m + 1, k, p, errs);
      LevelNoOperator(t, m, p, errs);
    }
  }

  /** A variable followed by no operator tighter than level n is the whole operand of level n. */
  lemma OperandVariable(t: seq<Token>, n: nat, p: nat, errs: seq<ErrorReport>)
    requires TokenStream(t) && p < |t| && n < Levels
    requires t[p].kind == Identifier && !(n < Precedence(t[p + 1].kind) < Levels)
    ensures OperandAt(t, n, p, errs) == Parsed(Some(Variable(t[p])), p + 1, errs)
  {
    assert UnaryAt(t, p, errs) == Parsed(Some(Variable(t[p])), p + 1, errs);
    if n < Levels - 1 {
      LevelNoOperator(t, Levels - 1, p, errs);
      Lift(t, n + 1, Levels - 1, p, errs);
    }
  }

  /** A variable followed by no binary operator is a whole operand of the or-level. */
  lemma LevelVariable(t: seq<Token>, p: nat, errs: seq<ErrorReport>)
    requires TokenStream(t) && p < |t|
    requires t[p].kind == Identifier && Precedence(t[p + 1].kind) == Levels
    ensures LevelAt(t, 0, p, errs) == Parsed(Some(Variable(t[p])), p + 1, errs)
  {
    OperandVariable(t, 0, p, errs);
    LevelNoOperator(t, 0, p, errs);
  }

  /** Without a following '=', an expression is its or-level. */
  lemma NoAssignment(t: seq<Token>, p: nat, errs: seq<ErrorReport>)
    requires TokenStream(t) && p < |t|
    requires var r := LevelAt(t, 0, p, errs); r.result.Some? && t[r.pos].kind != Equal
    ensures ExpressionAt(t, p, errs) == LevelAt(t, 0, p, errs)
  {
    assert ExpressionAt(t, p, errs) == AssignmentAt(t, p, errs);
  }

  // ----- precedence and associativity -----

  /** The shape `x op1 y op2 z` followed by END_OF_FILE, with variables for x, y and z and binary operators between them. */
  predicate ThreeOperands(t: seq<Token>)
  {
    && |t| == 6 && t[5].kind == EndOfFile
    && t[0].kind == Identifier && t[2].kind == Identifier && t[4].kind == Identifier
    && Precedence(t[1].kind) < Levels && Precedence(t[3].kind) < Levels
  }

  lemma TighterSecondOperator(t: seq<Token>)
    requires ThreeOperands(t) && Precedence(t[3].kind) > Precedence(t[1].kind)
    ensures var i, j := Precedence(t[1].kind), Precedence(t[3].kind);
      var tree := Combine(i, Variable(t[0]), t[1], Combine(j, Variable(t[2]), t[3], Variable(t[4])));
      Parse(t) == Parsed(Some(tree), 5, [])
  {
    var i, j := Precedence(t[1].kind), Precedence(t[3].kind);
    var none: seq<ErrorReport> := [];
    OperandVariable(t, j, 4, none);
    OperandVariable(t, j, 2, none);
    LevelOneOperator(t, j, 2, none);
    Lift(t, i + 1, j, 2, none);
    OperandVariable(t, i, 0, none);
    LevelOneOperator(t, i, 0, none);
    Lift(t, 0, i, 0, none);
    NoAssignment(t, 0, none);
  }

  lemma SameLevelOperators(t: seq<Token>)
    requires ThreeOperands(t) && Precedence(t[3].kind) == Precedence(t[1].kind)
    ensures var i := Precedence(t[1].kind);
      var tree := Combine(i, Combine(i, Variable(t[0]), t[1], Variable(t[2])), t[3], Variable(t[4]));
      Parse(t) == Parsed(Some(tree), 5, [])
  {
    var i := Precedence(t[1].kind);
    var none: seq<ErrorReport> := [];
    OperandVariable(t, i, 0, none);
    OperandVariable(t, i, 2, none);
    OperandVariable(t, i, 4, none);
    LevelTwoOperators(t, i, 0, none);
    Lift(t, 0, i, 0, none);
    NoAssignment(t, 0, none);
  }

  lemma LooserSecondOperator(t: seq<Token>)
    requires ThreeOperands(t) && Precedence(t[3].kind) < Precedence(t[1].kind)
    ensures var i, j := Precedence(t[1].kind), Precedence(t[3].kind);
      var tree := Combine(j, Combine(i, Variable(t[0]), t[1], Variable(t[2])), t[3], Variable(t[4]));
      Parse(t) == Parsed(Some(tree), 5, [])
  {
    var i, j := Precedence(t[1].kind), Precedence(t[3].kind);
    var none: seq<ErrorReport> := [];
    OperandVariable(t, i, 0, none);
    OperandVariable(t, i, 2, none);
    LevelOneOperator(t, i, 0, none);
    Lift(t, j + 1, i, 0, none);
    OperandVariable(t, j, 4, none);
    LevelOneOperator(t, j, 0, none);
    Lift(t, 0, j, 0, none);
    NoAssignment(t, 0, none);
  }

  /**
   * `x op1 y op2 z` groups to the right exactly when op2 binds tighter than
   * op1; otherwise, operators of one level included, it groups to the left.
   * So `*` and `/` bind tighter than `+` and `-`, then the comparisons,
   * the equalities, `and`, and `or`, and each level is left-associative.
   */
  lemma PrecedenceAndAssociativity(t: seq<Token>)
    requires ThreeOperands(t)
    ensures var i, j := Precedence(t[1].kind), Precedence(t[3].kind);
      var x, y, z := Variable(t[0]), Variable(t[2]), Variable(t[4]);
      Parse(t) == Parsed(Some(
        if j > i then Combine(i, x, t[1], Combine(j, y, t[3], z))
        else Combine(j, Combine(i, x, t[1], y), t[3], z)), 5, [])
  {
    var i, j := Precedence(t[1].kind), Precedence(t[3].kind);
    if j > i {
      TighterSecondOperator(t);
    } else if j == i {
      SameLevelOperators(t);
    } else {
      LooserSecondOperator(t);
    }
  }

  // ----- assignment -----

  /** `a = b = c` assigns c to b and the result to a: assignment groups to the right. */
  lemma AssignmentRightAssociative(t: seq<Token>)
    requires |t| == 6 && t[5].kind == EndOfFile
    requires t[0].kind == Identifier && t[2].kind == Identifier && t[4].kind == Identifier
    requires t[1].kind == Equal && t[3].kind == Equal
    ensures Parse(t) == Parsed(Some(Assign(t[0], Assign(t[2], Variable(t[4])))), 5, [])
  {
    var none: seq<ErrorReport> := [];
    LevelVariable(t, 0, none);
    LevelVariable(t, 2, none);
    LevelVariable(t, 4, none);
    var c := AssignmentAt(t, 4, none);
    assert c == Parsed(Some(Variable(t[4])), 5, none);
    var b := AssignmentAt(t, 2, none);
    assert b == Parsed(Some(Assign(t[2], Variable(t[4]))), 5, none);
    assert ExpressionAt(t, 0, none) == AssignmentAt(t, 0, none);
  }

  /**
   * `x op y = z`: the left side is not a variable, so the error is reported
   * at the '=' and the parse goes on, giving the left side unchanged.
   */
  lemma InvalidAssignmentTarget(t: seq<Token>)
    requires |t| == 6 && t[5].kind == EndOfFile
    requires t[0].kind == Identifier && t[2].kind == Identifier && t[4].kind == Identifier
    requires Precedence(t[1].kind) < Levels && t[3].kind == Equal
    ensures var i := Precedence(t[1].kind);
      Parse(t) == Parsed(Some(Combine(i, Variable(t[0]), t[1], Variable(t[2]))), 5,
                         [AtToken(t[3], "Invalid assignment target.")])
  {
    var i := Precedence(t[1].kind);
    var none: seq<ErrorReport> := [];
    assert Precedence(t[5].kind) == Levels && Precedence(t[3].kind) == Levels;
    LevelVariable(t, 4, none);
    assert AssignmentAt(t, 4, none) == Parsed(Some(Variable(t[4])), 5, none);
    OperandVariable(t, i, 0, none);
    OperandVariable(t, i, 2, none);
    LevelOneOperator(t, i, 0, none);
    var left := Combine(i, Variable(t[0]), t[1], Variable(t[2]));
    assert LevelAt(t, i, 0, none) == Parsed(Some(left), 3, none);
    Lift(t, 0, i, 0, none);
    assert !left.Variable?;
    assert ExpressionAt(t, 0, none) == AssignmentAt(t, 0, none);
  }

  /** An or-level followed by '=': where it is and what follows the '='. */
  predicate AssignmentShape(t: seq<Token>, p: nat, errs: seq<ErrorReport>)
    requires TokenStream(t) && p < |t|
  {
    var l := LevelAt(t, 0, p, errs);
    l.result.Some? && t[l.pos].kind == Equal
  }

  /** The '=' of an assignment is not END_OF_FILE, so a token follows it. */
  lemma EqualNotLast(t: seq<Token>, p: nat, errs: seq<ErrorReport>)
    requires TokenStream(t) && p < |t| && AssignmentShape(t, p, errs)
    ensures LevelAt(t, 0, p, errs).pos + 1 < |t|
  {
  }

  /**
   * `name = value` for any expressions: a variable on the left becomes an
   * Assign node of the whole right side, which is itself an expression, so
   * assignment groups to the right.
   */
  lemma AssignToVariable(t: seq<Token>, p: nat, errs: seq<ErrorReport>)
    requires TokenStream(t) && p < |t| && AssignmentShape(t, p, errs)
    requires LevelAt(t, 0, p, errs).result.value.Variable?
    requires var l := LevelAt(t, 0, p, errs);
      l.pos + 1 < |t| && ExpressionAt(t, l.pos + 1, l.errors).result.Some?
    ensures var l := LevelAt(t, 0, p, errs);
      var r := ExpressionAt(t, l.pos + 1, l.errors);
      ExpressionAt(t, p, errs) == Parsed(Some(Assign(l.result.value.name, r.result.value)), r.pos, r.errors)
  {
    var l := LevelAt(t, 0, p, errs);
    assert ExpressionAt(t, l.pos + 1, l.errors) == AssignmentAt(t, l.pos + 1, l.errors);
    assert ExpressionAt(t, p, errs) == AssignmentAt(t, p, errs);
  }

  /**
   * Any other left side is kept as the result: the right side is still
   * parsed, and "Invalid assignment target." is reported at the '=' after
   * the right side's own reports.
   */
  lemma AssignToOther(t: seq<Token>, p: nat, errs: seq<ErrorReport>)
    requires TokenStream(t) && p < |t| && AssignmentShape(t, p, errs)
    requires !LevelAt(t, 0, p, errs).result.value.Variable?
    requires var l := LevelAt(t, 0, p, errs);
      l.pos + 1 < |t| && ExpressionAt(t, l.pos + 1, l.errors).result.Some?
    ensures var l := LevelAt(t, 0, p, errs);
      var r := ExpressionAt(t, l.pos + 1, l.errors);
      ExpressionAt(t, p, errs) == Parsed(l.result, r.pos, r.errors + [AtToken(t[l.pos], "Invalid assignment target.")])
  {
    var l := LevelAt(t, 0, p, errs);
    assert ExpressionAt(t, l.pos + 1, l.errors) == AssignmentAt(t, l.pos + 1, l.errors);
    assert ExpressionAt(t, p, errs) == AssignmentAt(t, p, errs);
  }

  /** A right side that fails makes the whole assignment fail with it, whatever the left side is. */
  lemma AssignRightFails(t: seq<Token>, p: nat, errs: seq<ErrorReport>)
    requires TokenStream(t) && p < |t| && AssignmentShape(t, p, errs)
    requires var l := LevelAt(t, 0, p, errs);
      l.pos + 1 < |t| && ExpressionAt(t, l.pos + 1, l.errors).result.None?
    ensures var l := LevelAt(t, 0, p, errs);
      ExpressionAt(t, p, errs) == ExpressionAt(t, l.pos + 1, l.errors)
  {
    var l := LevelAt(t, 0, p, errs);
    assert ExpressionAt(t, l.pos + 1, l.errors) == AssignmentAt(t, l.pos + 1, l.errors);
    assert ExpressionAt(t, p, errs) == AssignmentAt(t, p, errs);
  }

  /** `a = b = rest` with variables a and b: `a = (b = rest)`, for any right side that parses. */
  lemma ChainedAssignment(t: seq<Token>, p: nat, errs: seq<ErrorReport>)
    requires TokenStream(t) && p < |t| && AssignmentShape(t, p, errs)
    requires LevelAt(t, 0, p, errs).result.value.Variable?
    requires var l := LevelAt(t, 0, p, errs);
      && l.pos + 1 < |t| && AssignmentShape(t, l.pos + 1, l.errors)
      && var m := LevelAt(t, 0, l.pos + 1, l.errors);
      && m.result.value.Variable? && m.pos + 1 < |t|
      && ExpressionAt(t, m.pos + 1, m.errors).result.Some?
    ensures var l := LevelAt(t, 0, p, errs);
      var m := LevelAt(t, 0, l.pos + 1, l.errors);
      var r := ExpressionAt(t, m.pos + 1, m.errors);
      ExpressionAt(t, p, errs)
        == Parsed(Some(Assign(l.result.value.name, Assign(m.result.value.name, r.result.value))), r.pos, r.errors)
  {
    var l := LevelAt(t, 0, p, errs);
    AssignToVariable(t, l.pos + 1, l.errors);
    AssignToVariable(t, p, errs);
  }

  // ----- prefix operators -----

  /** The two prefix operators, `!` and `-`. */
  predicate IsPrefix(k: TokenType)
  {
    k == Bang || k == Minus
  }

  /** A unary expression followed by no operator tighter than level n is the whole operand of level n. */
  lemma OperandIsUnary(t: seq<Token>, n: nat, p: nat, errs: seq<ErrorReport>)
    requires TokenStream(t) && p < |t| && n < Levels
    requires var u := UnaryAt(t, p, errs); u.result.Some? && !(n < Precedence(t[u.pos].kind) < Levels)
    ensures OperandAt(t, n, p, errs) == UnaryAt(t, p, errs)
  {
    if n < Levels - 1 {
      var u := UnaryAt(t, p, errs);
      assert OperandAt(t, Levels - 1, p, errs) == u;
      LevelNoOperator(t, Levels - 1, p, errs);
      assert LevelAt(t, Levels - 1, p, errs) == u;
      Lift(t, n + 1, Levels - 1, p, errs);
      assert OperandAt(t, n, p, errs) == LevelAt(t, n + 1, p, errs);
    }
  }

  /** A prefix `!` or `-` applies to the whole unary expression after it. */
  lemma PrefixApplies(t: seq<Token>, p: nat, errs: seq<ErrorReport>)
    requires TokenStream(t) && p < |t| && IsPrefix(t[p].kind)
    requires UnaryAt(t, p + 1, errs).result.Some?
    ensures var u := UnaryAt(t, p + 1, errs);
      UnaryAt(t, p, errs) == Parsed(Some(Unary(t[p], u.result.value)), u.pos, u.errors)
  {
    assert MatchAny(t, p, {Bang, Minus});
  }

  /**
   * A prefix `!` or `-` takes the whole unary expression after it, and that
   * is all of the operand of level n when no operator tighter than level n
   * follows it.
   */
  lemma PrefixOperand(t: seq<Token>, n: nat, p: nat, errs: seq<ErrorReport>)
    requires TokenStream(t) && p < |t| && n < Levels && IsPrefix(t[p].kind)
    requires var u := UnaryAt(t, p + 1, errs); u.result.Some? && !(n < Precedence(t[u.pos].kind) < Levels)
    ensures var u := UnaryAt(t, p + 1, errs);
      OperandAt(t, n, p, errs) == Parsed(Some(Unary(t[p], u.result.value)), u.pos, u.errors)
  {
    PrefixApplies(t, p, errs);
    OperandIsUnary(t, n, p, errs);
  }

  /**
   * `- a op b` is `(-a) op b` for every binary operator, `-` itself
   * included, and likewise for `!`: a prefix operator binds tighter than
   * any binary one.
   */
  lemma PrefixBindsTighter(t: seq<Token>)
    requires |t| == 5 && t[4].kind == EndOfFile
    requires IsPrefix(t[0].kind) && t[1].kind == Identifier && t[3].kind == Identifier
    requires Precedence(t[2].kind) < Levels
    ensures var i := Precedence(t[2].kind);
      Parse(t) == Parsed(Some(Combine(i, Unary(t[0], Variable(t[1])), t[2], Variable(t[3]))), 4, [])
  {
    var i := Precedence(t[2].kind);
    var none: seq<ErrorReport> := [];
    PrefixedVariable(t, 0, none);
    OperandIsUnary(t, i, 0, none);
    OperandVariable(t, i, 3, none);
    LevelOneOperator(t, i, 0, none);
    Lift(t, 0, i, 0, none);
    NoAssignment(t, 0, none);
  }

  /** `! ! a` and `- - a` nest to the right: the outer operator applies to the inner unary expression. */
  lemma PrefixNests(t: seq<Token>)
    requires |t| == 4 && t[3].kind == EndOfFile
    requires IsPrefix(t[0].kind) && IsPrefix(t[1].kind) && t[2].kind == Identifier
    ensures Parse(t) == Parsed(Some(Unary(t[0], Unary(t[1], Variable(t[2])))), 3, [])
  {
    var none: seq<ErrorReport> := [];
    var inner := Unary(t[1], Variable(t[2]));
    PrefixedVariable(t, 1, none);
    PrefixApplies(t, 0, none);
    OperandIsUnary(t, 0, 0, none);
    assert OperandAt(t, 0, 0, none) == Parsed(Some(Unary(t[0], inner)), 3, none);
    LevelNoOperator(t, 0, 0, none);
    NoAssignment(t, 0, none);
  }

  /** A prefix operator followed by a variable is one unary expression over that variable. */
  lemma PrefixedVariable(t: seq<Token>, p: nat, errs: seq<ErrorReport>)
    requires TokenStream(t) && p + 1 < |t| && IsPrefix(t[p].kind) && t[p + 1].kind == Identifier
    ensures UnaryAt(t, p, errs) == Parsed(Some(Unary(t[p], Variable(t[p + 1]))), p + 2, errs)
  {
    assert UnaryAt(t, p + 1, errs) == Parsed(Some(Variable(t[p + 1])), p + 2, errs);
    PrefixApplies(t, p, errs);
  }

  // ----- errors that end the parse -----

  /** A failure at the unary level passes up through every binary level unchanged. */
  lemma {:induction false} FailureRises(t: seq<Token>, n: nat, p: nat, errs: seq<ErrorReport>)
    requires TokenStream(t) && p < |t| && n < Levels
    requires UnaryAt(t, p, errs).result.None?
    ensures LevelAt(t, n, p, errs) == UnaryAt(t, p, errs)
    decreases Levels - n
  {
    if n < Levels - 1 {
      FailureRises(t, n + 1, p, errs);
    }
  }

  /** A failure at the unary level ends the whole expression with it. */
  lemma FailureEndsExpression(t: seq<Token>, p: nat, errs: seq<ErrorReport>)
    requires TokenStream(t) && p < |t|
    requires UnaryAt(t, p, errs).result.None?
    ensures ExpressionAt(t, p, errs) == UnaryAt(t, p, errs)
  {
    FailureRises(t, 0, p, errs);
    assert ExpressionAt(t, p, errs) == AssignmentAt(t, p, errs);
  }

  /** The kinds an expression can start with. */
  const ExpressionStarts: set<TokenType> := {Bang, Minus, False, True, Nil, Number, String, Identifier, LeftParen}

  /** Any other token (END_OF_FILE included) ends the parse with "Expect expression." reported at it, and no tree. */
  lemma ExpectExpression(t: seq<Token>, p: nat, errs: seq<ErrorReport>)
    requires TokenStream(t) && p < |t| && t[p].kind !in ExpressionStarts
    ensures ExpressionAt(t, p, errs) == Parsed(None, p, errs + [AtToken(t[p], "Expect expression.")])
  {
    FailureEndsExpression(t, p, errs);
  }

  /** An empty input: the error is reported " at end" on the line of END_OF_FILE. */
  lemma EmptyInput(t: seq<Token>)
    requires TokenStream(t) && |t| == 1
    ensures Parse(t) == Parsed(None, 0, [SyntaxError(t[0].line, " at end", "Expect expression.")])
  {
    ExpectExpression(t, 0, []);
  }

  /** `(x)` is a group around the variable. */
  lemma ClosedGroup(t: seq<Token>)
    requires |t| == 4 && t[3].kind == EndOfFile
    requires t[0].kind == LeftParen && t[1].kind == Identifier && t[2].kind == RightParen
    ensures Parse(t) == Parsed(Some(Grouping(Variable(t[1]))), 3, [])
  {
    var none: seq<ErrorReport> := [];
    LevelVariable(t, 1, none);
    NoAssignment(t, 1, none);
    ParenClosed(t, 0, none);
    var group := Parsed(Some(Grouping(Variable(t[1]))), 3, none);
    assert Precedence(t[3].kind) == Levels;
    LevelNoOperator(t, Levels - 1, 0, none);
    assert LevelAt(t, Levels - 1, 0, none) == group;
    Lift(t, 0, Levels - 1, 0, none);
    NoAssignment(t, 0, none);
  }

  /** `(x` without its ')' ends the parse with "Expect ')' after expression." at the token found instead. */
  lemma UnclosedGroup(t: seq<Token>)
    requires |t| == 3 && t[2].kind == EndOfFile
    requires t[0].kind == LeftParen && t[1].kind == Identifier
    ensures Parse(t) == Parsed(None, 2, [SyntaxError(t[2].line, " at end", "Expect ')' after expression.")])
  {
    var none: seq<ErrorReport> := [];
    LevelVariable(t, 1, none);
    NoAssignment(t, 1, none);
    ParenUnclosed(t, 0, none);
    FailureEndsExpression(t, 0, none);
  }

  /** A '(' whose inner expression is followed by ')' is a group around that expression. */
  lemma ParenClosed(t: seq<Token>, p: nat, errs: seq<ErrorReport>)
    requires TokenStream(t) && p + 1 < |t| && t[p].kind == LeftParen
    requires var inner := ExpressionAt(t, p + 1, errs); inner.result.Some? && t[inner.pos].kind == RightParen
    ensures var inner := ExpressionAt(t, p + 1, errs);
      UnaryAt(t, p, errs) == Parsed(Some(Grouping(inner.result.value)), inner.pos + 1, inner.errors)
  {
    assert UnaryAt(t, p, errs) == PrimaryAt(t, p, errs);
  }

  /** A '(' whose inner expression is followed by anything but ')' fails with the error at that token. */
  lemma ParenUnclosed(t: seq<Token>, p: nat, errs: seq<ErrorReport>)
    requires TokenStream(t) && p + 1 < |t| && t[p].kind == LeftParen
    requires var inner := ExpressionAt(t, p + 1, errs); inner.result.Some? && t[inner.pos].kind != RightParen
    ensures var inner := ExpressionAt(t, p + 1, errs);
      UnaryAt(t, p, errs) == Parsed(None, inner.pos, inner.errors + [AtToken(t[inner.pos], "Expect ')' after expression.")])
  {
    assert UnaryAt(t, p, errs) == PrimaryAt(t, p, errs);
  }

  // ----- the cursor -----

  /** `advance` stays on END_OF_FILE and otherwise moves exactly one token. */
  lemma AdvanceStopsAtEnd(t: seq<Token>, pos: nat)
    requires TokenStream(t) && pos < |t|
    ensures AtEnd(t, pos) ==> AdvanceAt(t, pos) == pos
    ensures !AtEnd(t, pos) ==> AdvanceAt(t, pos) == pos + 1 && pos + 1 < |t|
    ensures AtEnd(t, pos) ==> forall k :: !Check(t, pos, k)
  {
  }

  /** A place recovery does not stop at: not the end, no ';' just before, no statement keyword here. */
  predicate NoBoundary(t: seq<Token>, q: nat)
  {
    0 < q < |t| && !AtEnd(t, q) && t[q - 1].kind != Semicolon && t[q].kind !in StatementStarts
  }

  /**
   * `recover_from_error` moves on at least one token unless at the end, and
   * stops at the first place after that just past a ';', just before a
   * statement keyword, or at END_OF_FILE.
   */
  lemma {:induction false} RecoveryStops(t: seq<Token>, pos: nat)
    requires TokenStream(t) && pos < |t| && (pos > 0 || AtEnd(t, pos))
    ensures var r := RecoverLoop(t, pos);
      && (AtEnd(t, r) || t[r - 1].kind == Semicolon || t[r].kind in StatementStarts)
      && forall q :: pos <= q < r ==> NoBoundary(t, q)
    decreases |t| - pos
  {
    if !AtEnd(t, pos) && t[pos - 1].kind != Semicolon && t[pos].kind !in StatementStarts {
      RecoveryStops(t, pos + 1);
    }
  }

  lemma RecoverMovesOn(t: seq<Token>, pos: nat)
    requires TokenStream(t) && pos < |t| && (pos > 0 || !AtEnd(t, pos))
    ensures var r := RecoverAt(t, pos);
      && (AtEnd(t, pos) ==> r == pos)
      && (!AtEnd(t, pos) ==> pos < r)
      && (AtEnd(t, r) || t[r - 1].kind == Semicolon || t[r].kind in StatementStarts)
      && forall q :: AdvanceAt(t, pos) <= q < r ==> NoBoundary(t, q)
  {
    RecoveryStops(t, AdvanceAt(t, pos));
  }
}
