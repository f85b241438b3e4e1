/**
 * Properties of evaluation: truthiness and equality, the operators and
 * their faults, short-circuiting, assignment, declarations and scope
 * lifetime, loops, and how a fault ends a program.
 */
module InterpreterFacts {
  import opened Wrappers
  import Numbers
  import opened TokenTypes
  import opened Tokens
  import opened Errors
  import opened Exprs
  import opened Stmts
  import opened Environments
  import opened Interpreters
  import Parsers

  // ---------------------------------------------------------------- values

  /** Exactly nil and false are falsy. */
  lemma TruthyExactly(v: Value)
    ensures !IsTruthy(v) <==> v == NilVal || v == BoolVal(false)
  {
  }

  /**
   * Equality is identity of values, except that NaN equals nothing and the
   * empty value equals nothing. So it is symmetric, nil equals only nil,
   * values of different types are never equal, and every other value
   * equals itself.
   */
  lemma EqualityIsIdentity(a: Value, b: Value)
    ensures IsEqual(a, b) <==> a == b && !a.EmptyVal? && !(a.NumVal? && a.n.NaN?)
    ensures IsEqual(a, b) == IsEqual(b, a)
    ensures IsEqual(NilVal, b) <==> b == NilVal
  {
  }

  /**
   * A literal token, parsed and then printed, shows the same text as the
   * token printer gives for its literal: strings their text, numbers the
   * same rendering, and true, false and nil their names.
   */
  lemma LiteralPrintsAsToken(ts: seq<Token>, numberText: Numbers.Num -> string)
    requires Parsers.TokenStream(ts) && ts[0].kind in {String, Number, True, False, Nil} && WellFormedToken(ts[0])
    ensures var p := Parsers.PrimaryAt(ts, 0, []);
      && p.result.Some? && p.result.value.Literal?
      && ValueText(p.result.value.literal, numberText) == LiteralString(ts[0], numberText)
  {
  }

  /** Numbers compare the IEEE way: NaN is not equal to itself. */
  lemma NumberEquality(x: Numbers.Num, y: Numbers.Num)
    ensures IsEqual(NumVal(x), NumVal(y)) <==> Numbers.Equal(x, y)
    ensures !IsEqual(NumVal(Numbers.NaN), NumVal(Numbers.NaN))
  {
  }

  /** `!=` is the negation of `==` on every pair of values. */
  lemma NotEqualNegatesEqual(eq: Token, ne: Token, a: Value, b: Value)
    requires eq.kind == EqualEqual && ne.kind == BangEqual
    ensures EvalBinary(eq, a, b).Ok? && EvalBinary(ne, a, b).Ok?
    ensures EvalBinary(ne, a, b).value == BoolVal(!EvalBinary(eq, a, b).value.b)
  {
  }

  // ------------------------------------------------------------- operators

  /** `+` adds two numbers, concatenates two strings, and faults on any other pair. */
  lemma PlusOperands(op: Token, a: Value, b: Value)
    requires op.kind == Plus
    ensures EvalBinary(op, a, b).Ok? <==> (a.NumVal? && b.NumVal?) || (a.StrVal? && b.StrVal?)
    ensures a.NumVal? && b.NumVal? ==> EvalBinary(op, a, b) == Ok(NumVal(Numbers.Add(a.n, b.n)))
    ensures a.StrVal? && b.StrVal? ==> EvalBinary(op, a, b) == Ok(StrVal(a.s + b.s))
    ensures EvalBinary(op, a, b).Err? ==>
      EvalBinary(op, a, b).error == RuntimeError(op, "Operands must be two numbers or two strings.")
  {
  }

  /**
   * The comparison and the other arithmetic operators fault unless both
   * operands are numbers; comparisons give booleans, arithmetic numbers.
   */
  lemma NumericOperands(op: Token, a: Value, b: Value)
    requires op.kind in NumericOperators
    ensures EvalBinary(op, a, b).Err? <==> !(a.NumVal? && b.NumVal?)
    ensures EvalBinary(op, a, b).Err? ==> EvalBinary(op, a, b).error == RuntimeError(op, "Operands must be numbers.")
    ensures EvalBinary(op, a, b).Ok? && op.kind in {Greater, GreaterEqual, Less, LessEqual} ==>
      EvalBinary(op, a, b).value.BoolVal?
    ensures EvalBinary(op, a, b).Ok? && op.kind in {Minus, Slash, Star} ==> EvalBinary(op, a, b).value.NumVal?
  {
  }

  /** Every comparison with NaN is false. */
  lemma ComparisonWithNaN(op: Token, x: Numbers.Num)
    requires op.kind in {Greater, GreaterEqual, Less, LessEqual}
    ensures EvalBinary(op, NumVal(x), NumVal(Numbers.NaN)) == Ok(BoolVal(false))
    ensures EvalBinary(op, NumVal(Numbers.NaN), NumVal(x)) == Ok(BoolVal(false))
  {
  }

  /** `!` is the negation of truthiness, for every operand; so `!!v` is v's truthiness. */
  lemma BangNegatesTruthiness(op: Token, v: Value)
    requires op.kind == Bang
    ensures EvalUnary(op, v) == Ok(BoolVal(!IsTruthy(v)))
    ensures EvalUnary(op, EvalUnary(op, v).value) == Ok(BoolVal(IsTruthy(v)))
  {
  }

  /** Unary `-` negates a number and faults on anything else. */
  lemma MinusNeedsNumber(op: Token, v: Value)
    requires op.kind == Minus
    ensures EvalUnary(op, v).Ok? <==> v.NumVal?
    ensures v.NumVal? ==> EvalUnary(op, v) == Ok(NumVal(Numbers.Neg(v.n)))
    ensures !v.NumVal? ==> EvalUnary(op, v) == Err(RuntimeError(op, "Operand must be a number."))
  {
  }

  // ---------------------------------------------------------- expressions

  /**
   * A logical operator whose left operand decides gives that operand's value
   * itself (not a boolean), and the right operand is not evaluated: the
   * result and the scopes are exactly the left operand's. Otherwise the
   * result is the right operand's, evaluated after the left.
   */
  lemma ShortCircuit(left: Expr, op: Token, right: Expr, scopes: seq<Scope>)
    requires EvalExpr(left, scopes).result.Ok?
    ensures var a := EvalExpr(left, scopes);
      EvalExpr(Logical(left, op, right), scopes) ==
        if ShortCircuits(op, a.result.value) then a else EvalExpr(right, a.scopes)
    ensures op.kind == Or ==>
      (ShortCircuits(op, EvalExpr(left, scopes).result.value) <==> IsTruthy(EvalExpr(left, scopes).result.value))
    ensures op.kind != Or ==>
      (ShortCircuits(op, EvalExpr(left, scopes).result.value) <==> !IsTruthy(EvalExpr(left, scopes).result.value))
  {
  }

  /**
   * An assignment gives the assigned value, and afterwards the name looks up
   * to it; it faults exactly when the value faults or no scope binds the name.
   */
  lemma AssignGivesValue(name: Token, value: Expr, scopes: seq<Scope>)
    ensures var a := EvalExpr(value, scopes);
      var r := EvalExpr(Assign(name, value), scopes);
      && (r.result.Ok? <==> a.result.Ok? && Bound(a.scopes, name.lexeme))
      && (r.result.Ok? ==> r.result == a.result && Lookup(r.scopes, name) == a.result)
      && (a.result.Ok? && !Bound(a.scopes, name.lexeme) ==> r == Evaluated(Err(CannotAssign(name)), a.scopes))
  {
    var a := EvalExpr(value, scopes);
    if a.result.Ok? && Bound(a.scopes, name.lexeme) {
      AssignThenLookup(a.scopes, name, a.result.value, name);
    }
  }

  /** The names each scope of a chain binds, innermost first. */
  function Names(a: seq<Scope>): seq<set<string>>
  {
    seq(|a|, i requires 0 <= i < |a| => a[i].Keys)
  }

  /** Two chains whose scopes bind the same names, scope by scope. */
  predicate SameNames(a: seq<Scope>, b: seq<Scope>)
  {
    Names(a) == Names(b)
  }

  /** Expressions only overwrite existing bindings: every scope keeps its set of names. */
  lemma {:induction false} EvalKeepsNames(e: Expr, scopes: seq<Scope>)
    ensures SameNames(scopes, EvalExpr(e, scopes).scopes)
    decreases e
  {
    match e
    case Assign(name, value) =>
      EvalKeepsNames(value, scopes);
      var a := EvalExpr(value, scopes);
      if a.result.Ok? && Bound(a.scopes, name.lexeme) {
        AssignKeepsNames(a.scopes, name, a.result.value);
      }
    case Binary(left, _, right) =>
      EvalKeepsNames(left, scopes);
      EvalKeepsNames(right, EvalExpr(left, scopes).scopes);
    case Grouping(inner) =>
      EvalKeepsNames(inner, scopes);
    case Literal(_) =>
    case Logical(left, _, right) =>
      EvalKeepsNames(left, scopes);
      EvalKeepsNames(right, EvalExpr(left, scopes).scopes);
    case Unary(_, operand) =>
      EvalKeepsNames(operand, scopes);
    case Variable(_) =>
  }

  /** No binding holds the empty value. */
  predicate NoEmpty(scopes: seq<Scope>)
  {
    forall i, k :: 0 <= i < |scopes| && k in scopes[i] ==> scopes[i][k] != EmptyVal
  }

  /** A value that is not the empty value. */
  predicate Proper(r: Result<Value, RuntimeError>)
  {
    r.Ok? ==> !r.value.EmptyVal?
  }

  /**
   * A tree the parser built never evaluates to the empty value: the
   * evaluator's fall-through for an unknown operator is unreachable from
   * parsed code, and no binding ever holds the empty value.
   */
  lemma {:induction false} WellFormedNeverEmpty(e: Expr, scopes: seq<Scope>)
    requires WellFormedExpr(e) && NoEmpty(scopes)
    ensures Proper(EvalExpr(e, scopes).result) && NoEmpty(EvalExpr(e, scopes).scopes)
    decreases e
  {
    match e
    case Assign(name, value) =>
      WellFormedNeverEmpty(value, scopes);
      var a := EvalExpr(value, scopes);
      if a.result.Ok? && Bound(a.scopes, name.lexeme) {
        AssignKeepsNoEmpty(a.scopes, name, a.result.value);
      }
    case Binary(left, op, right) =>
      WellFormedNeverEmpty(left, scopes);
      var a := EvalExpr(left, scopes);
      if a.result.Ok? {
        WellFormedNeverEmpty(right, a.scopes);
        var b := EvalExpr(right, a.scopes);
        if b.result.Ok? {
          BinaryNeverEmpty(op, a.result.value, b.result.value);
        }
      }
    case Grouping(inner) =>
      WellFormedNeverEmpty(inner, scopes);
    case Literal(_) =>
    case Logical(left, op, right) =>
      WellFormedNeverEmpty(left, scopes);
      var a := EvalExpr(left, scopes);
      if a.result.Ok? {
        WellFormedNeverEmpty(right, a.scopes);
      }
    case Unary(op, operand) =>
      WellFormedNeverEmpty(operand, scopes);
    case Variable(name) =>
      LookupProper(scopes, name);
  }

  /** Looking a name up in proper bindings gives a proper value. */
  lemma LookupProper(scopes: seq<Scope>, name: Token)
    requires NoEmpty(scopes)
    ensures Proper(Lookup(scopes, name))
  {
    var k := Depth(scopes, name.lexeme);
    if k < |scopes| {
      assert scopes[k][name.lexeme] != EmptyVal;
    }
  }

  /** The operators the parser puts in Binary nodes never fall through to the empty value. */
  lemma BinaryNeverEmpty(op: Token, a: Value, b: Value)
    requires IsBinaryOperator(op.kind)
    ensures Proper(EvalBinary(op, a, b))
  {
  }

  /** Assigning a proper value keeps every binding proper. */
  lemma AssignKeepsNoEmpty(scopes: seq<Scope>, name: Token, v: Value)
    requires NoEmpty(scopes) && v != EmptyVal && Bound(scopes, name.lexeme)
    ensures NoEmpty(AssignIn(scopes, name, v).value)
  {
    var s := AssignIn(scopes, name, v).value;
    var d := Depth(scopes, name.lexeme);
    forall i, k | 0 <= i < |s| && k in s[i]
      ensures s[i][k] != EmptyVal
    {
      if i != d || k != name.lexeme {
        assert s[i][k] == scopes[i][k];
      }
    }
  }

  // ------------------------------------------------------------ statements

  /** `var` without an initialiser binds nil in the innermost scope, and the name then looks up to nil. */
  lemma VarWithoutInitialiser(name: Token, scopes: seq<Scope>, out: string, numberText: Numbers.Num -> string, fuel: nat)
    requires scopes != []
    ensures var r := Exec(Stmt.Var(name, None), scopes, out, numberText, fuel);
      && r == Run(Normal, DefineIn(scopes, name.lexeme, NilVal), out)
      && Lookup(r.scopes, name) == Ok(NilVal)
      && r.scopes[1..] == scopes[1..]
  {
    DefineThenLookup(scopes, name, NilVal);
  }

  /** Two chains of the same length whose scopes other than the innermost bind the same names. */
  predicate OuterSame(a: seq<Scope>, b: seq<Scope>)
  {
    |a| == |b| && (a != [] ==> Names(a[1..]) == Names(b[1..]))
  }

  lemma SameNamesOuter(a: seq<Scope>, b: seq<Scope>)
    requires SameNames(a, b)
    ensures OuterSame(a, b)
  {
    assert |Names(a)| == |a| && |Names(b)| == |b|;
    if a != [] {
      forall i | 0 <= i < |a| - 1
        ensures Names(a[1..])[i] == Names(b[1..])[i]
      {
        assert Names(a)[i + 1] == Names(b)[i + 1];
      }
    }
  }

  lemma EvalKeepsOuterNames(e: Expr, scopes: seq<Scope>)
    ensures OuterSame(scopes, EvalExpr(e, scopes).scopes)
  {
    EvalKeepsNames(e, scopes);
    SameNamesOuter(scopes, EvalExpr(e, scopes).scopes);
  }

  /**
   * Statements add names only to the innermost scope: every enclosing scope
   * keeps its set of names.
   */
  lemma {:induction false} OuterNamesKept(s: Stmt, scopes: seq<Scope>, out: string, numberText: Numbers.Num -> string, fuel: nat)
    requires scopes != []
    ensures OuterSame(scopes, Exec(s, scopes, out, numberText, fuel).scopes)
    decreases Size(s), fuel + 1, 1
  {
    match s
    case Block(ss) =>
      BlockKeepsNames(ss, scopes, out, numberText, fuel);
      SameNamesOuter(scopes, Exec(s, scopes, out, numberText, fuel).scopes);
    case Expression(e) =>
      EvalKeepsOuterNames(e, scopes);
    case If(c, t, el) =>
      var a := EvalExpr(c, scopes);
      EvalKeepsOuterNames(c, scopes);
      if a.result.Ok? {
        if IsTruthy(a.result.value) {
          OuterNamesKept(t, a.scopes, out, numberText, fuel);
          OuterSameTransitive(scopes, a.scopes, Exec(t, a.scopes, out, numberText, fuel).scopes);
        } else if el.Some? {
          OuterNamesKept(el.value, a.scopes, out, numberText, fuel);
          OuterSameTransitive(scopes, a.scopes, Exec(el.value, a.scopes, out, numberText, fuel).scopes);
        }
      }
    case Print(e) =>
      EvalKeepsOuterNames(e, scopes);
    case Var(name, init) =>
      if init.Some? {
        EvalKeepsOuterNames(init.value, scopes);
      }
    case While(c, body) =>
      LoopOuterNamesKept(c, body, scopes, out, numberText, fuel, fuel);
  }

  /** A block leaves every name binding of its surroundings as it found it: its own declarations die with it. */
  lemma {:induction false} BlockKeepsNames(ss: seq<Stmt>, scopes: seq<Scope>, out: string, numberText: Numbers.Num -> string, fuel: nat)
    requires scopes != []
    ensures SameNames(scopes, Exec(Block(ss), scopes, out, numberText, fuel).scopes)
    decreases Size(Block(ss)), fuel + 1, 0
  {
    var inner := [map[]] + scopes;
    ListOuterNamesKept(ss, inner, out, numberText, fuel);
    assert inner[1..] == scopes;
  }

  lemma {:induction false} ListOuterNamesKept(ss: seq<Stmt>, scopes: seq<Scope>, out: string, numberText: Numbers.Num -> string, fuel: nat)
    requires scopes != []
    ensures OuterSame(scopes, ExecList(ss, scopes, out, numberText, fuel).scopes)
    decreases ListSize(ss), fuel + 2
  {
    if ss != [] {
      var r := Exec(ss[0], scopes, out, numberText, fuel);
      OuterNamesKept(ss[0], scopes, out, numberText, fuel);
      if r.status == Normal {
        ListOuterNamesKept(ss[1..], r.scopes, r.output, numberText, fuel);
        OuterSameTransitive(scopes, r.scopes, ExecList(ss[1..], r.scopes, r.output, numberText, fuel).scopes);
      }
    }
  }

  lemma {:induction false} LoopOuterNamesKept(c: Expr, body: Stmt, scopes: seq<Scope>, out: string, numberText: Numbers.Num -> string, fuel: nat, left: nat)
    requires scopes != []
    ensures OuterSame(scopes, WhileLoop(c, body, scopes, out, numberText, fuel, left).scopes)
    decreases 1 + Size(body), left, 1
  {
    var a := EvalExpr(c, scopes);
    EvalKeepsOuterNames(c, scopes);
    if a.result.Ok? && IsTruthy(a.result.value) && left > 0 {
      IterationOuterNamesKept(c, body, scopes, out, numberText, fuel, left);
    }
  }

  /** One iteration of a loop whose test held, then the rest of the loop. */
  lemma {:induction false} IterationOuterNamesKept(c: Expr, body: Stmt, scopes: seq<Scope>, out: string, numberText: Numbers.Num -> string, fuel: nat, left: nat)
    requires scopes != [] && left > 0
    requires EvalExpr(c, scopes).result.Ok? && IsTruthy(EvalExpr(c, scopes).result.value)
    ensures OuterSame(scopes, WhileLoop(c, body, scopes, out, numberText, fuel, left).scopes)
    decreases 1 + Size(body), left, 0
  {
    var a := EvalExpr(c, scopes);
    var r := Exec(body, a.scopes, out, numberText, fuel);
    EvalKeepsOuterNames(c, scopes);
    OuterNamesKept(body, a.scopes, out, numberText, fuel);
    if r.status == Normal {
      LoopOuterNamesKept(c, body, r.scopes, r.output, numberText, fuel, left - 1);
      LoopContinues(c, body, scopes, out, numberText, fuel, left);
    } else {
      LoopStops(c, body, scopes, out, numberText, fuel, left);
    }
  }

  /** A loop whose test holds and whose body completes goes on with one iteration less. */
  lemma LoopContinues(c: Expr, body: Stmt, scopes: seq<Scope>, out: string, numberText: Numbers.Num -> string, fuel: nat, left: nat)
    requires scopes != [] && left > 0
    requires EvalExpr(c, scopes).result.Ok? && IsTruthy(EvalExpr(c, scopes).result.value)
    requires Exec(body, EvalExpr(c, scopes).scopes, out, numberText, fuel).status == Normal
    ensures var r := Exec(body, EvalExpr(c, scopes).scopes, out, numberText, fuel);
      WhileLoop(c, body, scopes, out, numberText, fuel, left) == WhileLoop(c, body, r.scopes, r.output, numberText, fuel, left - 1)
  {
  }

  /** A loop whose test holds and whose body does not complete ends as the body did. */
  lemma LoopStops(c: Expr, body: Stmt, scopes: seq<Scope>, out: string, numberText: Numbers.Num -> string, fuel: nat, left: nat)
    requires scopes != [] && left > 0
    requires EvalExpr(c, scopes).result.Ok? && IsTruthy(EvalExpr(c, scopes).result.value)
    requires Exec(body, EvalExpr(c, scopes).scopes, out, numberText, fuel).status != Normal
    ensures WhileLoop(c, body, scopes, out, numberText, fuel, left) == Exec(body, EvalExpr(c, scopes).scopes, out, numberText, fuel)
  {
  }

  lemma OuterSameTransitive(a: seq<Scope>, b: seq<Scope>, c: seq<Scope>)
    requires OuterSame(a, b) && OuterSame(b, c)
    ensures OuterSame(a, c)
  {
  }

  /** Output is only ever appended to: what was printed before a statement stays printed. */
  lemma {:induction false} OutputOnlyGrows(s: Stmt, scopes: seq<Scope>, out: string, numberText: Numbers.Num -> string, fuel: nat)
    requires scopes != []
    ensures out <= Exec(s, scopes, out, numberText, fuel).output
    decreases Size(s), fuel + 1
  {
    match s
    case Block(ss) =>
      ListOutputOnlyGrows(ss, [map[]] + scopes, out, numberText, fuel);
    case If(c, t, el) =>
      var a := EvalExpr(c, scopes);
      if a.result.Ok? {
        if IsTruthy(a.result.value) {
          OutputOnlyGrows(t, a.scopes, out, numberText, fuel);
        } else if el.Some? {
          OutputOnlyGrows(el.value, a.scopes, out, numberText, fuel);
        }
      }
    case Print(e) =>
    case Expression(e) =>
    case Var(name, init) =>
    case While(c, body) =>
      LoopOutputOnlyGrows(c, body, scopes, out, numberText, fuel, fuel);
  }

  lemma {:induction false} ListOutputOnlyGrows(ss: seq<Stmt>, scopes: seq<Scope>, out: string, numberText: Numbers.Num -> string, fuel: nat)
    requires scopes != []
    ensures out <= ExecList(ss, scopes, out, numberText, fuel).output
    decreases ListSize(ss), fuel + 2
  {
    if ss != [] {
      var r := Exec(ss[0], scopes, out, numberText, fuel);
      OutputOnlyGrows(ss[0], scopes, out, numberText, fuel);
      if r.status == Normal {
        ListOutputOnlyGrows(ss[1..], r.scopes, r.output, numberText, fuel);
      }
    }
  }

  lemma {:induction false} LoopOutputOnlyGrows(c: Expr, body: Stmt, scopes: seq<Scope>, out: string, numberText: Numbers.Num -> string, fuel: nat, left: nat)
    requires scopes != []
    ensures out <= WhileLoop(c, body, scopes, out, numberText, fuel, left).output
    decreases 1 + Size(body), left
  {
    var a := EvalExpr(c, scopes);
    if a.result.Ok? && IsTruthy(a.result.value) && left > 0 {
      var r := Exec(body, a.scopes, out, numberText, fuel);
      OutputOnlyGrows(body, a.scopes, out, numberText, fuel);
      if r.status == Normal {
        LoopOutputOnlyGrows(c, body, r.scopes, r.output, numberText, fuel, left - 1);
      }
    }
  }

  /**
   * Running `p ++ rest` runs p and then, only if p completed normally, rest
   * from where p left off: after a runtime fault no further statement runs.
   */
  lemma {:induction false} FaultStopsProgram(p: seq<Stmt>, rest: seq<Stmt>, scopes: seq<Scope>, out: string, numberText: Numbers.Num -> string, fuel: nat)
    requires scopes != []
    ensures var r := ExecList(p, scopes, out, numberText, fuel);
      ExecList(p + rest, scopes, out, numberText, fuel) ==
        if r.status == Normal then ExecList(rest, r.scopes, r.output, numberText, fuel) else r
    decreases |p|
  {
    if p == [] {
      assert p + rest == rest;
    } else {
      assert (p + rest)[0] == p[0];
      assert (p + rest)[1..] == p[1..] + rest;
      var r := Exec(p[0], scopes, out, numberText, fuel);
      if r.status == Normal {
        FaultStopsProgram(p[1..], rest, r.scopes, r.output, numberText, fuel);
      }
    }
  }

  /** A `while` whose condition is falsy at the first test never runs its body. */
  lemma WhileFalseSkipsBody(c: Expr, body: Stmt, scopes: seq<Scope>, out: string, numberText: Numbers.Num -> string, fuel: nat)
    requires scopes != []
    requires EvalExpr(c, scopes).result.Ok? && !IsTruthy(EvalExpr(c, scopes).result.value)
    ensures Exec(Stmt.While(c, body), scopes, out, numberText, fuel) == Run(Normal, EvalExpr(c, scopes).scopes, out)
  {
  }

  /** A number with an integer value. */
  function Count(k: int): Value
  {
    NumVal(Numbers.Finite(k as real))
  }

  /** The condition `x > 0`. */
  function Positive(x: Token, gt: Token): Expr
  {
    Binary(Variable(x), gt, Literal(Count(0)))
  }

  /** The body `{ x = x - 1; }`. */
  function Decrement(x: Token, minus: Token): Stmt
  {
    Block([Expression(Assign(x, Binary(Variable(x), minus, Literal(Count(1)))))])
  }

  /** `k - 1` on two integer-valued numbers. */
  lemma SubtractOne(minus: Token, k: int)
    requires minus.kind == Minus
    ensures EvalBinary(minus, Count(k), Count(1)) == Ok(Count(k - 1))
  {
    assert Numbers.Sub(Numbers.Finite(k as real), Numbers.Finite(1.0)) == Numbers.Finite((k - 1) as real);
  }

  /** `x = x - 1` takes x from k to k - 1. */
  lemma DecrementAssign(x: Token, minus: Token, scopes: seq<Scope>, k: int)
    requires minus.kind == Minus
    requires Lookup(scopes, x) == Ok(Count(k))
    ensures Bound(scopes, x.lexeme)
    ensures EvalExpr(Assign(x, Binary(Variable(x), minus, Literal(Count(1)))), scopes)
      == Evaluated(Ok(Count(k - 1)), AssignIn(scopes, x, Count(k - 1)).value)
  {
    var rhs := Binary(Variable(x), minus, Literal(Count(1)));
    assert EvalExpr(Variable(x), scopes) == Evaluated(Ok(Count(k)), scopes);
    assert EvalExpr(Literal(Count(1)), scopes) == Evaluated(Ok(Count(1)), scopes);
    SubtractOne(minus, k);
    assert EvalExpr(rhs, scopes) == Evaluated(Ok(Count(k - 1)), scopes);
  }

  /** One run of the body takes x from k to k - 1, keeping the names. */
  lemma DecrementStep(x: Token, minus: Token, scopes: seq<Scope>, k: int, out: string, numberText: Numbers.Num -> string, fuel: nat)
    requires minus.kind == Minus && scopes != []
    requires Lookup(scopes, x) == Ok(Count(k))
    ensures var r := Exec(Decrement(x, minus), scopes, out, numberText, fuel);
      && r.status == Normal && r.output == out
      && Lookup(r.scopes, x) == Ok(Count(k - 1))
  {
    var inner := [map[]] + scopes;
    assert inner[1..] == scopes;
    assert Lookup(inner, x) == Ok(Count(k));
    var e := Assign(x, Binary(Variable(x), minus, Literal(Count(1))));
    DecrementAssign(x, minus, inner, k);
    var updated := AssignIn(inner, x, Count(k - 1)).value;
    AssignThenLookup(inner, x, Count(k - 1), x);
    var body := [Expression(e)];
    assert Exec(body[0], inner, out, numberText, fuel) == Run(Normal, updated, out);
    assert ExecList(body, inner, out, numberText, fuel) == Run(Normal, updated, out) by {
      assert body[1..] == [];
    }
    assert Exec(Decrement(x, minus), scopes, out, numberText, fuel) == Run(Normal, updated[1..], out);
    assert Lookup(updated[1..], x) == Ok(Count(k - 1)) by {
      assert x.lexeme !in updated[0];
    }
  }

  /** In a state where P holds of j, the test c gives `j > 0` and leaves the scopes alone. */
  predicate TestCounts(c: Expr, P: (seq<Scope>, nat) -> bool, scopes: seq<Scope>, j: nat)
  {
    scopes != [] && P(scopes, j) ==> EvalExpr(c, scopes) == Evaluated(Ok(BoolVal(j > 0)), scopes)
  }

  /**
   * In a state where P holds of j > 0, the body completes normally, prints
   * nothing and reaches a state where P holds of j - 1.
   */
  predicate BodyCounts(body: Stmt, numberText: Numbers.Num -> string, fuel: nat,
                       P: (seq<Scope>, nat) -> bool, scopes: seq<Scope>, j: nat, out: string)
  {
    scopes != [] && P(scopes, j) && j > 0 ==>
      var r := Exec(body, scopes, out, numberText, fuel);
      r.status == Normal && r.output == out && P(r.scopes, j - 1)
  }

  /**
   * The condition is re-tested before every iteration: a loop whose test
   * and body count a variant j down (TestCounts and BodyCounts), started
   * where P holds of k (k <= the fuel left), stops normally after k
   * iterations in a state where P holds of 0, and prints nothing.
   */
  lemma {:induction false} LoopCountsDown(c: Expr, body: Stmt, P: (seq<Scope>, nat) -> bool, scopes: seq<Scope>, k: nat, out: string, numberText: Numbers.Num -> string, fuel: nat, left: nat)
    requires scopes != [] && P(scopes, k) && k <= left
    requires forall s: seq<Scope>, j: nat :: TestCounts(c, P, s, j)
    requires forall s: seq<Scope>, j: nat, o: string :: BodyCounts(body, numberText, fuel, P, s, j, o)
    ensures var r := WhileLoop(c, body, scopes, out, numberText, fuel, left);
      r.status == Normal && r.output == out && P(r.scopes, 0)
    decreases k
  {
    assert TestCounts(c, P, scopes, k);
    if k > 0 {
      assert BodyCounts(body, numberText, fuel, P, scopes, k, out);
      CountOnce(c, body, P, scopes, k, out, numberText, fuel, left);
      var r := Exec(body, scopes, out, numberText, fuel);
      LoopCountsDown(c, body, P, r.scopes, k - 1, out, numberText, fuel, left - 1);
    } else {
      CountEnds(c, body, P, scopes, out, numberText, fuel, left);
    }
  }

  /** One iteration of a counting loop: the body runs once and the variant drops by one. */
  lemma CountOnce(c: Expr, body: Stmt, P: (seq<Scope>, nat) -> bool, scopes: seq<Scope>, k: nat, out: string, numberText: Numbers.Num -> string, fuel: nat, left: nat)
    requires scopes != [] && P(scopes, k) && 0 < k <= left
    requires TestCounts(c, P, scopes, k) && BodyCounts(body, numberText, fuel, P, scopes, k, out)
    ensures var r := Exec(body, scopes, out, numberText, fuel);
      && r.scopes != [] && r.output == out && P(r.scopes, k - 1)
      && WhileLoop(c, body, scopes, out, numberText, fuel, left) == WhileLoop(c, body, r.scopes, out, numberText, fuel, left - 1)
  {
    LoopIteration(c, body, scopes, out, numberText, fuel, left);
  }

  /** A counting loop whose variant is 0 stops at once. */
  lemma CountEnds(c: Expr, body: Stmt, P: (seq<Scope>, nat) -> bool, scopes: seq<Scope>, out: string, numberText: Numbers.Num -> string, fuel: nat, left: nat)
    requires scopes != [] && P(scopes, 0) && TestCounts(c, P, scopes, 0)
    ensures WhileLoop(c, body, scopes, out, numberText, fuel, left) == Run(Normal, scopes, out)
  {
    LoopExit(c, body, scopes, out, numberText, fuel, left);
  }

  /** A truthy test with fuel left runs the body once and then the loop again. */
  lemma LoopIteration(c: Expr, body: Stmt, scopes: seq<Scope>, out: string, numberText: Numbers.Num -> string, fuel: nat, left: nat)
    requires scopes != [] && left > 0
    requires EvalExpr(c, scopes) == Evaluated(Ok(BoolVal(true)), scopes)
    requires Exec(body, scopes, out, numberText, fuel).status == Normal
    ensures var r := Exec(body, scopes, out, numberText, fuel);
      WhileLoop(c, body, scopes, out, numberText, fuel, left) == WhileLoop(c, body, r.scopes, r.output, numberText, fuel, left - 1)
  {
  }

  /** A falsy test ends the loop. */
  lemma LoopExit(c: Expr, body: Stmt, scopes: seq<Scope>, out: string, numberText: Numbers.Num -> string, fuel: nat, left: nat)
    requires scopes != []
    requires EvalExpr(c, scopes) == Evaluated(Ok(BoolVal(false)), scopes)
    ensures WhileLoop(c, body, scopes, out, numberText, fuel, left) == Run(Normal, scopes, out)
  {
  }

  /** The test `x > 0` with x == k. */
  lemma PositiveTest(x: Token, gt: Token, scopes: seq<Scope>, k: int)
    requires gt.kind == Greater
    requires Lookup(scopes, x) == Ok(Count(k))
    ensures EvalExpr(Positive(x, gt), scopes) == Evaluated(Ok(BoolVal(k > 0)), scopes)
  {
    assert EvalExpr(Variable(x), scopes) == Evaluated(Ok(Count(k)), scopes);
    assert EvalExpr(Literal(Count(0)), scopes) == Evaluated(Ok(Count(0)), scopes);
    assert EvalBinary(gt, Count(k), Count(0)) == Ok(BoolVal(k > 0));
  }

  /** The countdown's variant: x holds the number j. */
  function HoldsCount(x: Token): (seq<Scope>, nat) -> bool
  {
    (s: seq<Scope>, j: nat) => Lookup(s, x) == Ok(Count(j))
  }

  /** The countdown's test `x > 0` compares the variant with 0. */
  lemma CountdownTest(x: Token, gt: Token, s: seq<Scope>, j: nat)
    requires gt.kind == Greater
    ensures TestCounts(Positive(x, gt), HoldsCount(x), s, j)
  {
    if s != [] && HoldsCount(x)(s, j) {
      PositiveTest(x, gt, s, j);
    }
  }

  /** The countdown's body `x = x - 1` counts the variant down by one. */
  lemma CountdownBody(x: Token, minus: Token, numberText: Numbers.Num -> string, fuel: nat, s: seq<Scope>, j: nat, o: string)
    requires minus.kind == Minus
    ensures BodyCounts(Decrement(x, minus), numberText, fuel, HoldsCount(x), s, j, o)
  {
    if s != [] && HoldsCount(x)(s, j) && j > 0 {
      DecrementStep(x, minus, s, j, o, numberText, fuel);
      var r := Exec(Decrement(x, minus), s, o, numberText, fuel);
      assert HoldsCount(x)(r.scopes, j - 1);
    }
  }

  /**
   * `while (x > 0) { x = x - 1; }` started with x == k (and fuel for k
   * iterations) stops normally with x == 0 and prints nothing.
   */
  lemma CountdownLoop(x: Token, gt: Token, minus: Token, scopes: seq<Scope>, k: nat, out: string, numberText: Numbers.Num -> string, fuel: nat, left: nat)
    requires gt.kind == Greater && minus.kind == Minus
    requires scopes != [] && Lookup(scopes, x) == Ok(Count(k)) && k <= left
    ensures var r := WhileLoop(Positive(x, gt), Decrement(x, minus), scopes, out, numberText, fuel, left);
      r.status == Normal && r.output == out && Lookup(r.scopes, x) == Ok(Count(0))
  {
    forall s: seq<Scope>, j: nat
      ensures TestCounts(Positive(x, gt), HoldsCount(x), s, j)
    {
      CountdownTest(x, gt, s, j);
    }
    forall s: seq<Scope>, j: nat, o: string
      ensures BodyCounts(Decrement(x, minus), numberText, fuel, HoldsCount(x), s, j, o)
    {
      CountdownBody(x, minus, numberText, fuel, s, j, o);
    }
    LoopCountsDown(Positive(x, gt), Decrement(x, minus), HoldsCount(x), scopes, k, out, numberText, fuel, left);
  }

  /** Three statements that each complete normally run one after the other. */
  lemma ThreeStatements(a: Stmt, b: Stmt, c: Stmt, scopes: seq<Scope>, out: string, numberText: Numbers.Num -> string, fuel: nat)
    requires scopes != []
    requires Exec(a, scopes, out, numberText, fuel).status == Normal
    requires var r0 := Exec(a, scopes, out, numberText, fuel);
      Exec(b, r0.scopes, r0.output, numberText, fuel).status == Normal
    ensures var r0 := Exec(a, scopes, out, numberText, fuel);
      var r1 := Exec(b, r0.scopes, r0.output, numberText, fuel);
      ExecList([a, b, c], scopes, out, numberText, fuel) == Exec(c, r1.scopes, r1.output, numberText, fuel)
  {
    var p := [a, b, c];
    var r0 := Exec(a, scopes, out, numberText, fuel);
    var r1 := Exec(b, r0.scopes, r0.output, numberText, fuel);
    var r2 := Exec(c, r1.scopes, r1.output, numberText, fuel);
    assert p[1..] == [b, c] && p[1..][1..] == [c] && p[1..][1..][1..] == [];
    assert ExecList([c], r1.scopes, r1.output, numberText, fuel) == r2;
    assert ExecList([b, c], r0.scopes, r0.output, numberText, fuel) == r2;
  }

  /**
   * `var x = 10; while (x > 0) { x = x - 1; } print x;` prints 0 (with
   * enough fuel for the ten iterations).
   */
  lemma CountdownProgram(x: Token, gt: Token, minus: Token, numberText: Numbers.Num -> string, fuel: nat)
    requires gt.kind == Greater && minus.kind == Minus && fuel >= 10
    ensures ExecList([Stmt.Var(x, Some(Literal(Count(10)))), Stmt.While(Positive(x, gt), Decrement(x, minus)), Stmt.Print(Variable(x))],
                     [map[]], "", numberText, fuel).output == numberText(Numbers.Finite(0.0)) + "\n"
  {
    var declare := Stmt.Var(x, Some(Literal(Count(10))));
    var loop := Stmt.While(Positive(x, gt), Decrement(x, minus));
    var show := Stmt.Print(Variable(x));
    var s1 := DefineIn([map[]], x.lexeme, Count(10));
    assert Exec(declare, [map[]], "", numberText, fuel) == Run(Normal, s1, "");
    DefineThenLookup([map[]], x, Count(10));
    CountdownLoop(x, gt, minus, s1, 10, "", numberText, fuel, fuel);
    var r := WhileLoop(Positive(x, gt), Decrement(x, minus), s1, "", numberText, fuel, fuel);
    assert Exec(loop, s1, "", numberText, fuel) == r;
    ThreeStatements(declare, loop, show, [map[]], "", numberText, fuel);
    assert EvalExpr(Variable(x), r.scopes) == Evaluated(Ok(Count(0)), r.scopes);
    assert Exec(show, r.scopes, "", numberText, fuel).output == "" + numberText(Numbers.Finite(0.0)) + "\n";
  }

  /**
   * `var x = 1; { var x = 2; } print x;` prints 1: the inner declaration
   * shadows the outer one only inside the block.
   */
  lemma ShadowingEndsWithBlock(x: Token, one: Value, two: Value, numberText: Numbers.Num -> string, fuel: nat)
    ensures ExecList([Stmt.Var(x, Some(Literal(one))), Block([Stmt.Var(x, Some(Literal(two)))]), Stmt.Print(Variable(x))],
                     [map[]], "", numberText, fuel).output == ValueText(one, numberText) + "\n"
  {
    var declare := Stmt.Var(x, Some(Literal(one)));
    var inside := Stmt.Var(x, Some(Literal(two)));
    var show := Stmt.Print(Variable(x));
    var s1 := DefineIn([map[]], x.lexeme, one);
    assert Exec(declare, [map[]], "", numberText, fuel) == Run(Normal, s1, "");
    var inner := [map[]] + s1;
    assert ExecList([inside], inner, "", numberText, fuel) == Run(Normal, DefineIn(inner, x.lexeme, two), "") by {
      assert [inside][1..] == [];
      assert Exec(inside, inner, "", numberText, fuel) == Run(Normal, DefineIn(inner, x.lexeme, two), "");
    }
    assert DefineIn(inner, x.lexeme, two)[1..] == s1;
    assert Exec(Block([inside]), s1, "", numberText, fuel) == Run(Normal, s1, "");
    ThreeStatements(declare, Block([inside]), show, [map[]], "", numberText, fuel);
    DefineThenLookup([map[]], x, one);
    assert EvalExpr(Variable(x), s1) == Evaluated(Ok(one), s1);
    assert Exec(show, s1, "", numberText, fuel).output == "" + ValueText(one, numberText) + "\n";
  }
}
