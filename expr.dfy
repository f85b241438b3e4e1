/**
 * Expression syntax trees: seven immutable variants, built once by the
 * parser and only read afterwards.
 */
module Exprs {
  import opened Numbers
  import opened TokenTypes
  import opened Tokens

  /**
   * The runtime values. The first four are the language's values;
   * EmptyVal is the empty `std::any` that the evaluator's fall-through
   * returns for an operator token outside its table.
   */
  datatype Value = NilVal | BoolVal(b: bool) | NumVal(n: Num) | StrVal(s: string) | EmptyVal

  datatype Expr =
    | Assign(name: Token, value: Expr)
    | Binary(left: Expr, op: Token, right: Expr)
    | Grouping(inner: Expr)
    | Literal(literal: Value)
    | Logical(left: Expr, op: Token, right: Expr)
    | Unary(op: Token, operand: Expr)
    | Variable(name: Token)

  predicate IsBinaryOperator(k: TokenType)
  {
    k in {BangEqual, EqualEqual, Greater, GreaterEqual, Less, LessEqual, Minus, Plus, Slash, Star}
  }

  /**
   * The shape of every tree the parser builds: operators come from the
   * tables of their levels and literals hold one of the four language values.
   */
  predicate WellFormedExpr(e: Expr)
  {
    match e
    case Assign(_, v) => WellFormedExpr(v)
    case Binary(l, op, r) => IsBinaryOperator(op.kind) && WellFormedExpr(l) && WellFormedExpr(r)
    case Grouping(inner) => WellFormedExpr(inner)
    case Literal(v) => !v.EmptyVal?
    case Logical(l, op, r) => op.kind in {And, Or} && WellFormedExpr(l) && WellFormedExpr(r)
    case Unary(op, operand) => op.kind in {Bang, Minus} && WellFormedExpr(operand)
    case Variable(_) => true
  }
}
