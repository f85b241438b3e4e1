/**
 * The tree-walking evaluator.
 *
 * The first half defines what evaluation means, as functions over a chain
 * of scopes (innermost first): an expression yields a value or a runtime
 * fault together with the scopes as its assignments left them, and a
 * statement yields how it completed, the scopes and the output text. The
 * second half is the Interpreter object, whose methods walk the tree over
 * the linked Environment objects and are proved to do what the functions say.
 */
module Interpreters {
  import opened Wrappers
  import Numbers
  import opened TokenTypes
  import opened Tokens
  import opened Errors
  import opened Exprs
  import opened Stmts
  import opened Environments

  /** `is_truthy`: nil and false are falsy, every other value is truthy. */
  predicate IsTruthy(v: Value)
  {
    match v
    case NilVal => false
    case BoolVal(b) => b
    case _ => true
  }

  /** `is_equal`: nil equals only nil, same-typed values compare by value (numbers the IEEE way), different types never. */
  predicate IsEqual(a: Value, b: Value)
    ensures IsEqual(a, b) ==> a == b
    ensures a.NilVal? ==> (IsEqual(a, b) <==> b.NilVal?)
  {
    if a.NilVal? && b.NilVal? then true
    else if a.NilVal? || b.NilVal? then false
    else if a.StrVal? && b.StrVal? then a.s == b.s
    else if a.NumVal? && b.NumVal? then Numbers.Equal(a.n, b.n)
    else if a.BoolVal? && b.BoolVal? then a.b == b.b
    else false
  }

  /**
   * `to_string`. How a number is rendered is the parameter numberText; the
   * empty value of an unknown operator has its own error text.
   */
  function ValueText(v: Value, numberText: Numbers.Num -> string): (r: string)
    ensures v.NilVal? ==> r == "nil"
    ensures v.StrVal? ==> r == v.s
    ensures v.BoolVal? ==> r == (if v.b then "true" else "false")
    ensures v.NumVal? ==> r == numberText(v.n)
    ensures v.EmptyVal? ==> r == "Error in to_string: unrecognised value type"
  {
    match v
    case NilVal => "nil"
    case NumVal(n) => numberText(n)
    case StrVal(s) => s
    case BoolVal(b) => if b then "true" else "false"
    case EmptyVal => "Error in to_string: unrecognised value type"
  }

  /** `validate_number_operand`. */
  function CheckNumberOperand(op: Token, v: Value): (o: Outcome<RuntimeError>)
    ensures o.Pass? <==> v.NumVal?
    ensures o.Fail? ==> o.error == RuntimeError(op, "Operand must be a number.")
  {
    if v.NumVal? then Pass else Fail(RuntimeError(op, "Operand must be a number."))
  }

  /** `validate_number_operands`. */
  function CheckNumberOperands(op: Token, a: Value, b: Value): (o: Outcome<RuntimeError>)
    ensures o.Pass? <==> a.NumVal? && b.NumVal?
    ensures o.Fail? ==> o.error == RuntimeError(op, "Operands must be numbers.")
  {
    if a.NumVal? && b.NumVal? then Pass else Fail(RuntimeError(op, "Operands must be numbers."))
  }

  /** The binary operators that accept only numbers. */
  const NumericOperators: set<TokenType> := {Greater, GreaterEqual, Less, LessEqual, Minus, Slash, Star}

  /** The value of a numeric binary operator on two numbers. */
  function NumericResult(k: TokenType, x: Numbers.Num, y: Numbers.Num): Value
    requires k in NumericOperators
  {
    match k
    case Greater => BoolVal(Numbers.Greater(x, y))
    case GreaterEqual => BoolVal(Numbers.GreaterEqual(x, y))
    case Less => BoolVal(Numbers.Less(x, y))
    case LessEqual => BoolVal(Numbers.LessEqual(x, y))
    case Minus => NumVal(Numbers.Sub(x, y))
    case Slash => NumVal(Numbers.Div(x, y))
    case Star => NumVal(Numbers.Mul(x, y))
  }

  /** What `visit_binary_expr` does with the two operand values. */
  function EvalBinary(op: Token, a: Value, b: Value): (r: Result<Value, RuntimeError>)
    ensures r.Err? ==> r.error.token == op
  {
    if op.kind in NumericOperators then
      (match CheckNumberOperands(op, a, b)
       case Fail(e) => Err(e)
       case Pass => Ok(NumericResult(op.kind, a.n, b.n)))
    else
      match op.kind
      case EqualEqual => Ok(BoolVal(IsEqual(a, b)))
      case BangEqual => Ok(BoolVal(!IsEqual(a, b)))
      case Plus =>
        if a.NumVal? && b.NumVal? then Ok(NumVal(Numbers.Add(a.n, b.n)))
        else if a.StrVal? && b.StrVal? then Ok(StrVal(a.s + b.s))
        else Err(RuntimeError(op, "Operands must be two numbers or two strings."))
      case _ => Ok(EmptyVal)
  }

  /** What `visit_unary_expr` does with the operand value. */
  function EvalUnary(op: Token, v: Value): (r: Result<Value, RuntimeError>)
    ensures r.Err? ==> r.error.token == op
  {
    match op.kind
    case Bang => Ok(BoolVal(!IsTruthy(v)))
    case Minus =>
      (match CheckNumberOperand(op, v)
       case Fail(e) => Err(e)
       case Pass => Ok(NumVal(Numbers.Neg(v.n))))
    case _ => Ok(EmptyVal)
  }

  /** The result of evaluating an expression, and the scopes afterwards. */
  datatype Evaluated = Evaluated(result: Result<Value, RuntimeError>, scopes: seq<Scope>)

  /**
   * Evaluation of an expression: operands left to right, each seeing the
   * assignments of the ones before; a fault ends the evaluation at once.
   */
  function EvalExpr(e: Expr, scopes: seq<Scope>): (r: Evaluated)
    ensures |r.scopes| == |scopes|
    decreases e
  {
    match e
    case Assign(name, value) =>
      var a := EvalExpr(value, scopes);
      if a.result.Err? then a
      else
        (match AssignIn(a.scopes, name, a.result.value)
         case Ok(s) => Evaluated(a.result, s)
         case Err(fault) => Evaluated(Err(fault), a.scopes))
    case Binary(left, op, right) =>
      var a := EvalExpr(left, scopes);
      if a.result.Err? then a
      else
        var b := EvalExpr(right, a.scopes);
        if b.result.Err? then b
        else Evaluated(EvalBinary(op, a.result.value, b.result.value), b.scopes)
    case Grouping(inner) => EvalExpr(inner, scopes)
    case Literal(v) => Evaluated(Ok(v), scopes)
    case Logical(left, op, right) =>
      var a := EvalExpr(left, scopes);
      if a.result.Err? then a
      else if ShortCircuits(op, a.result.value) then a
      else EvalExpr(right, a.scopes)
    case Unary(op, operand) =>
      var a := EvalExpr(operand, scopes);
      if a.result.Err? then a else Evaluated(EvalUnary(op, a.result.value), a.scopes)
    case Variable(name) => Evaluated(Lookup(scopes, name), scopes)
  }

  /** A logical operator's left value decides the result: a truthy left for `or`, a falsy one otherwise. */
  predicate ShortCircuits(op: Token, left: Value)
  {
    if op.kind == Or then IsTruthy(left) else !IsTruthy(left)
  }

  /**
   * How a statement completed: normally, by a runtime fault propagating out,
   * or (not a behaviour of the source) because a loop used up its fuel.
   */
  datatype Status = Normal | Thrown(error: RuntimeError) | OutOfFuel

  /** A statement's completion, the scopes afterwards and all output so far. */
  datatype Run = Run(status: Status, scopes: seq<Scope>, output: string)

  /** The completion of a statement that only evaluates an expression. */
  function StatusOf(r: Result<Value, RuntimeError>): (s: Status)
    ensures s != OutOfFuel
    ensures s == Normal <==> r.Ok?
  {
    if r.Ok? then Normal else Thrown(r.error)
  }

  /**
   * Execution of a statement, appending to the output text out. A block
   * runs in a fresh innermost scope that is dropped however the block ends;
   * each `while` runs its body at most fuel times.
   */
  function Exec(s: Stmt, scopes: seq<Scope>, out: string, numberText: Numbers.Num -> string, fuel: nat): (r: Run)
    requires scopes != []
    ensures |r.scopes| == |scopes|
    decreases Size(s), fuel + 1
  {
    match s
    case Block(ss) =>
      var r := ExecList(ss, [map[]] + scopes, out, numberText, fuel);
      Run(r.status, r.scopes[1..], r.output)
    case Expression(e) =>
      var a := EvalExpr(e, scopes);
      Run(StatusOf(a.result), a.scopes, out)
    case If(c, thenBranch, elseBranch) =>
      var a := EvalExpr(c, scopes);
      if a.result.Err? then Run(Thrown(a.result.error), a.scopes, out)
      else if IsTruthy(a.result.value) then Exec(thenBranch, a.scopes, out, numberText, fuel)
      else if elseBranch.Some? then Exec(elseBranch.value, a.scopes, out, numberText, fuel)
      else Run(Normal, a.scopes, out)
    case Print(e) =>
      var a := EvalExpr(e, scopes);
      if a.result.Err? then Run(Thrown(a.result.error), a.scopes, out)
      else Run(Normal, a.scopes, out + ValueText(a.result.value, numberText) + "\n")
    case Var(name, init) =>
      if init.None? then Run(Normal, DefineIn(scopes, name.lexeme, NilVal), out)
      else
        var a := EvalExpr(init.value, scopes);
        if a.result.Err? then Run(Thrown(a.result.error), a.scopes, out)
        else Run(Normal, DefineIn(a.scopes, name.lexeme, a.result.value), out)
    case While(c, body) => WhileLoop(c, body, scopes, out, numberText, fuel, fuel)
  }

  /** Statements in order, stopping at the first that does not complete normally. */
  function ExecList(ss: seq<Stmt>, scopes: seq<Scope>, out: string, numberText: Numbers.Num -> string, fuel: nat): (r: Run)
    requires scopes != []
    ensures |r.scopes| == |scopes|
    decreases ListSize(ss), fuel + 2
  {
    if ss == [] then Run(Normal, scopes, out)
    else
      var r := Exec(ss[0], scopes, out, numberText, fuel);
      if r.status != Normal then r else ExecList(ss[1..], r.scopes, r.output, numberText, fuel)
  }

  /** A `while` loop with left iterations of fuel remaining: the condition is tested before every iteration. */
  function WhileLoop(c: Expr, body: Stmt, scopes: seq<Scope>, out: string, numberText: Numbers.Num -> string, fuel: nat, left: nat): (r: Run)
    requires scopes != []
    ensures |r.scopes| == |scopes|
    decreases 1 + Size(body), left
  {
    var a := EvalExpr(c, scopes);
    if a.result.Err? then Run(Thrown(a.result.error), a.scopes, out)
    else if !IsTruthy(a.result.value) then Run(Normal, a.scopes, out)
    else if left == 0 then Run(OutOfFuel, a.scopes, out)
    else
      var r := Exec(body, a.scopes, out, numberText, fuel);
      if r.status != Normal then r else WhileLoop(c, body, r.scopes, r.output, numberText, fuel, left - 1)
  }

  /**
   * The evaluator object: the current scope, the output written so far and
   * the shared diagnostics. numberText renders numbers; fuel bounds the
   * iterations of each execution of a `while` statement.
   */
  class Interpreter {
    var current: Environment
    var output: string
    const diag: Diagnostics
    const numberText: Numbers.Num -> string
    const fuel: nat

    ghost predicate Valid()
      reads this
    {
      current.Valid()
    }

    /** The scopes from the current one out to the global one. */
    ghost function Scopes(): (s: seq<Scope>)
      requires Valid()
      reads this, current.Repr
      ensures s != []
    {
      current.Scopes()
    }

    /** A new interpreter starts in an empty global scope with no output. */
    constructor (diagnostics: Diagnostics, render: Numbers.Num -> string, bound: nat)
      ensures Valid() && fresh(current.Repr)
      ensures Scopes() == [map[]] && output == ""
      ensures diag == diagnostics && numberText == render && fuel == bound
    {
      current := new Environment();
      output := "";
      diag := diagnostics;
      numberText := render;
      fuel := bound;
    }

    /** `eval_expression`: dispatch on the variant, as `accept` does. */
    method Evaluate(e: Expr) returns (r: Result<Value, RuntimeError>)
      requires Valid()
      modifies current.Repr
      ensures Valid()
      ensures r == EvalExpr(e, old(Scopes())).result && Scopes() == EvalExpr(e, old(Scopes())).scopes
      decreases e, 1
    {
      match e
      case Assign(_, _) => r := VisitAssign(e);
      case Binary(_, _, _) => r := VisitBinary(e);
      case Grouping(inner) => r := Evaluate(inner);
      case Literal(v) => r := Ok(v);
      case Logical(_, _, _) => r := VisitLogical(e);
      case Unary(_, _) => r := VisitUnary(e);
      case Variable(name) => r := current.Get(name);
    }

    /** `visit_assign_expr`: evaluate, assign in place, give back the value. */
    method VisitAssign(e: Expr) returns (r: Result<Value, RuntimeError>)
      requires e.Assign? && Valid()
      modifies current.Repr
      ensures Valid()
      ensures r == EvalExpr(e, old(Scopes())).result && Scopes() == EvalExpr(e, old(Scopes())).scopes
      decreases e, 0
    {
      r := Evaluate(e.value);
      if r.Err? {
        return;
      }
      var o := current.Assign(e.name, r.value);
      if o.Fail? {
        r := Err(o.error);
      }
    }

    /** `visit_binary_expr`: left operand, right operand, then the operator. */
    method VisitBinary(e: Expr) returns (r: Result<Value, RuntimeError>)
      requires e.Binary? && Valid()
      modifies current.Repr
      ensures Valid()
      ensures r == EvalExpr(e, old(Scopes())).result && Scopes() == EvalExpr(e, old(Scopes())).scopes
      decreases e, 0
    {
      var left := Evaluate(e.left);
      if left.Err? {
        return left;
      }
      var right := Evaluate(e.right);
      if right.Err? {
        return right;
      }
      r := EvalBinary(e.op, left.value, right.value);
    }

    /** `visit_logical_expr`: the right operand is evaluated only when the left one does not decide. */
    method VisitLogical(e: Expr) returns (r: Result<Value, RuntimeError>)
      requires e.Logical? && Valid()
      modifies current.Repr
      ensures Valid()
      ensures r == EvalExpr(e, old(Scopes())).result && Scopes() == EvalExpr(e, old(Scopes())).scopes
      decreases e, 0
    {
      r := Evaluate(e.left);
      if r.Err? {
        return;
      }
      if e.op.kind == Or {
        if IsTruthy(r.value) {
          return;
        }
      } else {
        if !IsTruthy(r.value) {
          return;
        }
      }
      r := Evaluate(e.right);
    }

    /** `visit_unary_expr`. */
    method VisitUnary(e: Expr) returns (r: Result<Value, RuntimeError>)
      requires e.Unary? && Valid()
      modifies current.Repr
      ensures Valid()
      ensures r == EvalExpr(e, old(Scopes())).result && Scopes() == EvalExpr(e, old(Scopes())).scopes
      decreases e, 0
    {
      r := Evaluate(e.operand);
      if r.Err? {
        return;
      }
      r := EvalUnary(e.op, r.value);
    }

    /** `exec_statement`: dispatch on the variant. The current scope is the same afterwards. */
    method Execute(s: Stmt) returns (st: Status)
      requires Valid()
      modifies this, current.Repr
      ensures Valid() && current == old(current)
      ensures var run := Exec(s, old(Scopes()), old(output), numberText, fuel);
        st == run.status && Scopes() == run.scopes && output == run.output
      decreases Size(s), fuel + 1, 1
    {
      match s
      case Block(_) => st := VisitBlock(s);
      case Expression(_) => st := VisitExpression(s);
      case If(_, _, _) => st := VisitIf(s);
      case Print(_) => st := VisitPrint(s);
      case Var(_, _) => st := VisitVar(s);
      case While(_, _) => st := VisitWhile(s);
    }

    /**
     * `exec_block`: run the statements with blockEnv as the current scope,
     * then make the previous scope current again, however the statements
     * completed.
     */
    method ExecBlock(ss: seq<Stmt>, blockEnv: Environment) returns (st: Status)
      requires Valid() && blockEnv.Valid() && blockEnv.parent == current
      modifies this, blockEnv.Repr
      ensures Valid() && current == old(current)
      ensures var run := ExecList(ss, old(blockEnv.Scopes()), old(output), numberText, fuel);
        st == run.status && blockEnv.Scopes() == run.scopes && Scopes() == run.scopes[1..] && output == run.output
      decreases ListSize(ss), fuel + 2, 0
    {
      var previous := current;
      current := blockEnv;
      ghost var final := ExecList(ss, blockEnv.Scopes(), output, numberText, fuel);
      st := Normal;
      var i := 0;
      while i < |ss| && st == Normal
        invariant 0 <= i <= |ss|
        invariant current == blockEnv && Valid()
        invariant st == Normal ==> ExecList(ss[i..], blockEnv.Scopes(), output, numberText, fuel) == final
        invariant st != Normal ==> final == Run(st, blockEnv.Scopes(), output)
        decreases |ss| - i
      {
        ListSizeBounds(ss, i);
        assert ss[i..][1..] == ss[i + 1..];
        st := Execute(ss[i]);
        i := i + 1;
      }
      current := previous;
    }

    /** `visit_block_stmt`: the block runs in a fresh child of the current scope. */
    method VisitBlock(s: Stmt) returns (st: Status)
      requires s.Block? && Valid()
      modifies this, current.Repr
      ensures Valid() && current == old(current)
      ensures var run := Exec(s, old(Scopes()), old(output), numberText, fuel);
        st == run.status && Scopes() == run.scopes && output == run.output
      decreases Size(s), fuel + 1, 0
    {
      var blockEnv := new Environment.Enclosed(current);
      st := ExecBlock(s.statements, blockEnv);
    }

    /** `visit_expression_stmt`: evaluate and discard the value. */
    method VisitExpression(s: Stmt) returns (st: Status)
      requires s.Expression? && Valid()
      modifies this, current.Repr
      ensures Valid() && current == old(current)
      ensures var run := Exec(s, old(Scopes()), old(output), numberText, fuel);
        st == run.status && Scopes() == run.scopes && output == run.output
      decreases Size(s), fuel + 1, 0
    {
      var r := Evaluate(s.expression);
      st := StatusOf(r);
    }

    /** `visit_if_stmt`: the condition's truthiness picks the branch; a missing else does nothing. */
    method VisitIf(s: Stmt) returns (st: Status)
      requires s.If? && Valid()
      modifies this, current.Repr
      ensures Valid() && current == old(current)
      ensures var run := Exec(s, old(Scopes()), old(output), numberText, fuel);
        st == run.status && Scopes() == run.scopes && output == run.output
      decreases Size(s), fuel + 1, 0
    {
      var c := Evaluate(s.condition);
      if c.Err? {
        return Thrown(c.error);
      }
      if IsTruthy(c.value) {
        st := Execute(s.thenBranch);
      } else if s.elseBranch.Some? {
        st := Execute(s.elseBranch.value);
      } else {
        st := Normal;
      }
    }

    /** `visit_print_stmt`: write the value's text and a newline. */
    method VisitPrint(s: Stmt) returns (st: Status)
      requires s.Print? && Valid()
      modifies this, current.Repr
      ensures Valid() && current == old(current)
      ensures var run := Exec(s, old(Scopes()), old(output), numberText, fuel);
        st == run.status && Scopes() == run.scopes && output == run.output
      decreases Size(s), fuel + 1, 0
    {
      var v := Evaluate(s.expression);
      if v.Err? {
        return Thrown(v.error);
      }
      output := output + ValueText(v.value, numberText) + "\n";
      st := Normal;
    }

    /** `visit_var_stmt`: the initialiser's value, or nil, defined in the current scope. */
    method VisitVar(s: Stmt) returns (st: Status)
      requires s.Var? && Valid()
      modifies this, current.Repr
      ensures Valid() && current == old(current)
      ensures var run := Exec(s, old(Scopes()), old(output), numberText, fuel);
        st == run.status && Scopes() == run.scopes && output == run.output
      decreases Size(s), fuel + 1, 0
    {
      var value := NilVal;
      if s.initializer.Some? {
        var r := Evaluate(s.initializer.value);
        if r.Err? {
          return Thrown(r.error);
        }
        value := r.value;
      }
      current.Define(s.name.lexeme, value);
      st := Normal;
    }

    /** `visit_while_stmt`: test the condition, run the body, repeat. */
    method VisitWhile(s: Stmt) returns (st: Status)
      requires s.While? && Valid()
      modifies this, current.Repr
      ensures Valid() && current == old(current)
      ensures var run := Exec(s, old(Scopes()), old(output), numberText, fuel);
        st == run.status && Scopes() == run.scopes && output == run.output
      decreases Size(s), fuel + 1, 0
    {
      ghost var final := WhileLoop(s.condition, s.body, Scopes(), output, numberText, fuel, fuel);
      var left := fuel;
      while true
        invariant Valid() && current == old(current)
        invariant WhileLoop(s.condition, s.body, Scopes(), output, numberText, fuel, left) == final
        decreases left
      {
        var c := Evaluate(s.condition);
        if c.Err? {
          return Thrown(c.error);
        }
        if !IsTruthy(c.value) {
          return Normal;
        }
        if left == 0 {
          return OutOfFuel;
        }
        st := Execute(s.body);
        if st != Normal {
          return;
        }
        left := left - 1;
      }
    }

    /**
     * `interpret`: run the program's statements in order. The first runtime
     * fault stops the run and is reported exactly once; it does not escape.
     */
    method Interpret(ss: seq<Stmt>)
      requires Valid()
      modifies this, current.Repr, diag
      ensures Valid() && current == old(current)
      ensures var run := ExecList(ss, old(Scopes()), old(output), numberText, fuel);
        && Scopes() == run.scopes && output == run.output
        && diag.reports == old(diag.reports) + (if run.status.Thrown? then [RuntimeReport(run.status.error)] else [])
        && diag.hadRuntimeError == (old(diag.hadRuntimeError) || run.status.Thrown?)
        && diag.hadError == old(diag.hadError)
    {
      ghost var final := ExecList(ss, Scopes(), output, numberText, fuel);
      var st := Normal;
      var i := 0;
      while i < |ss| && st == Normal
        invariant 0 <= i <= |ss|
        invariant Valid() && current == old(current)
        invariant unchanged(diag)
        invariant st == Normal ==> ExecList(ss[i..], Scopes(), output, numberText, fuel) == final
        invariant st != Normal ==> final == Run(st, Scopes(), output)
        decreases |ss| - i
      {
        assert ss[i..][1..] == ss[i + 1..];
        st := Execute(ss[i]);
        i := i + 1;
      }
      if st.Thrown? {
        diag.ReportRuntimeError(st.error);
      }
    }
  }
}
