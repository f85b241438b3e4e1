/**
 * Statement syntax trees: six immutable variants over expressions.
 */
module Stmts {
  import opened Wrappers
  import opened Tokens
  import opened Exprs

  datatype Stmt =
    | Block(statements: seq<Stmt>)
    | Expression(expression: Expr)
    | If(condition: Expr, thenBranch: Stmt, elseBranch: Option<Stmt>)
    | Print(expression: Expr)
    | Var(name: Token, initializer: Option<Expr>)
    | While(condition: Expr, body: Stmt)

  /** The number of statement nodes in s; the measure that evaluation recurses on. */
  function Size(s: Stmt): (n: nat)
    ensures n >= 1
  {
    match s
    case Block(ss) => 1 + ListSize(ss)
    case If(_, t, e) => 1 + Size(t) + (if e.Some? then Size(e.value) else 0)
    case While(_, b) => 1 + Size(b)
    case _ => 1
  }

  function ListSize(ss: seq<Stmt>): nat
  {
    if ss == [] then 0 else Size(ss[0]) + ListSize(ss[1..])
  }

  /** A statement list is bigger than each of its elements and each of its suffixes. */
  lemma {:induction false} ListSizeBounds(ss: seq<Stmt>, i: nat)
    requires i < |ss|
    ensures Size(ss[i]) <= ListSize(ss[i..]) <= ListSize(ss)
    ensures ListSize(ss[i + 1..]) < ListSize(ss[i..])
  {
    if i > 0 {
      ListSizeBounds(ss[1..], i - 1);
      assert ss[1..][i - 1..] == ss[i..];
      assert ss[1..][i - 1] == ss[i];
      assert ss[1..][i..] == ss[i + 1..];
    }
  }

  /** All expressions the statement contains were built by the parser. */
  predicate WellFormedStmt(s: Stmt)
  {
    match s
    case Block(ss) => forall i :: 0 <= i < |ss| ==> WellFormedStmt(ss[i])
    case Expression(e) => WellFormedExpr(e)
    case If(c, t, e) => WellFormedExpr(c) && WellFormedStmt(t) && (e.Some? ==> WellFormedStmt(e.value))
    case Print(e) => WellFormedExpr(e)
    case Var(_, init) => init.Some? ==> WellFormedExpr(init.value)
    case While(c, b) => WellFormedExpr(c) && WellFormedStmt(b)
  }
}
