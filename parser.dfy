/**
 * The expression parser: recursive descent over the token list, one
 * function per precedence level. A syntax error either is reported and
 * parsing goes on (an invalid assignment target) or is reported and ends
 * the parse, which then yields no tree. The pure functions below say what
 * parsing from a position gives; the class Parser, with its cursor, is
 * proved to do exactly that.
 */
module Parsers {
  import opened Wrappers
  import opened TokenTypes
  import opened Tokens
  import opened Errors
  import opened Exprs

  /** What the parser expects of its input: a token list closed by END_OF_FILE. */
  predicate TokenStream(t: seq<Token>)
  {
    |t| > 0 && t[|t| - 1].kind == EndOfFile
  }

  predicate AtEnd(t: seq<Token>, pos: nat)
    requires pos < |t|
  {
    t[pos].kind == EndOfFile
  }

  /** `check`: the token at pos has the kind, and the input is not used up. */
  predicate Check(t: seq<Token>, pos: nat, kind: TokenType)
    requires pos < |t|
  {
    !AtEnd(t, pos) && t[pos].kind == kind
  }

  /** The test `match` makes: the token at pos has one of the kinds, and the input is not used up. */
  predicate MatchAny(t: seq<Token>, pos: nat, kinds: set<TokenType>)
    requires pos < |t|
  {
    !AtEnd(t, pos) && t[pos].kind in kinds
  }

  /** Where `advance` leaves the cursor: one further, but never past END_OF_FILE. */
  function AdvanceAt(t: seq<Token>, pos: nat): (next: nat)
    requires TokenStream(t) && pos < |t|
    ensures next < |t|
  {
    if AtEnd(t, pos) then pos else pos + 1
  }

  /** The number of binary precedence levels, from `or` (0) to `*` and `/` (5). */
  const Levels: nat := 6

  /** The operators of each binary level, loosest first. */
  function Operators(n: nat): set<TokenType>
    requires n < Levels
  {
    match n
    case 0 => {Or}
    case 1 => {And}
    case 2 => {BangEqual, EqualEqual}
    case 3 => {Greater, GreaterEqual, Less, LessEqual}
    case 4 => {Minus, Plus}
    case _ => {Slash, Star}
  }

  /** The node a level builds: `or` and `and` make logical nodes, the rest binary nodes. */
  function Combine(n: nat, left: Expr, op: Token, right: Expr): Expr
  {
    if n < 2 then Logical(left, op, right) else Binary(left, op, right)
  }

  /** The value a literal token carries into a Literal node; the lexer's null is nil. */
  function LiteralValue(v: TokenValue): (r: Value)
    ensures !r.EmptyVal?
  {
    match v
    case NoLiteral => NilVal
    case NumberLiteral(n) => NumVal(n)
    case StringLiteral(s) => StrVal(s)
  }

  /**
   * What parsing from a position gives: the tree, or None when a syntax
   * error ended the parse; where the cursor stops; and the error stream
   * after it (the errors given on entry, then those reported on the way).
   */
  datatype Parsed = Parsed(result: Option<Expr>, pos: nat, errors: seq<ErrorReport>)

  /** The cursor never moves back or past the end, and every tree built has the parser's shape. */
  predicate Sound(t: seq<Token>, pos: nat, r: Parsed)
  {
    pos <= r.pos < |t| && (r.result.Some? ==> WellFormedExpr(r.result.value))
  }

  // The levels call each other from the loosest to the tightest; the pair
  // (tokens left, rank) decreases on every call, and the ranks follow the
  // order of the calls at one position.

  function ExpressionAt(t: seq<Token>, pos: nat, errs: seq<ErrorReport>): (r: Parsed)
    requires TokenStream(t) && pos < |t|
    ensures Sound(t, pos, r)
    decreases |t| - pos, 20
  {
    AssignmentAt(t, pos, errs)
  }

  /**
   * An assignment is right-associative: after '=' comes another assignment.
   * A variable on the left becomes an Assign node; any other left side is
   * reported and kept.
   */
  function AssignmentAt(t: seq<Token>, pos: nat, errs: seq<ErrorReport>): (r: Parsed)
    requires TokenStream(t) && pos < |t|
    ensures Sound(t, pos, r)
    decreases |t| - pos, 19
  {
    var left := LevelAt(t, 0, pos, errs);
    if left.result.None? || !MatchAny(t, left.pos, {Equal}) then left
    else
      var right := AssignmentAt(t, left.pos + 1, left.errors);
      if right.result.None? then right
      else if left.result.value.Variable? then
        Parsed(Some(Assign(left.result.value.name, right.result.value)), right.pos, right.errors)
      else
        Parsed(left.result, right.pos, right.errors + [AtToken(t[left.pos], "Invalid assignment target.")])
  }

  /** One binary level: an operand, then any number of operator-operand pairs, grouped to the left. */
  function LevelAt(t: seq<Token>, n: nat, pos: nat, errs: seq<ErrorReport>): (r: Parsed)
    requires TokenStream(t) && pos < |t| && n < Levels
    ensures Sound(t, pos, r)
    decreases |t| - pos, 18 - 2 * n
  {
    var left := OperandAt(t, n, pos, errs);
    if left.result.None? then left else LevelLoop(t, n, left.result.value, left.pos, left.errors)
  }

  /** The operand of level n: the next tighter level, or a unary expression below the last one. */
  function OperandAt(t: seq<Token>, n: nat, pos: nat, errs: seq<ErrorReport>): (r: Parsed)
    requires TokenStream(t) && pos < |t| && n < Levels
    ensures Sound(t, pos, r)
    decreases |t| - pos, 17 - 2 * n
  {
    if n == Levels - 1 then UnaryAt(t, pos, errs) else LevelAt(t, n + 1, pos, errs)
  }

  /** The loop of a binary level, with the tree built so far on the left. */
  function LevelLoop(t: seq<Token>, n: nat, left: Expr, pos: nat, errs: seq<ErrorReport>): (r: Parsed)
    requires TokenStream(t) && pos < |t| && n < Levels
    ensures pos <= r.pos < |t|
    ensures WellFormedExpr(left) && r.result.Some? ==> WellFormedExpr(r.result.value)
    decreases |t| - pos, 0
  {
    if MatchAny(t, pos, Operators(n)) then
      var right := OperandAt(t, n, pos + 1, errs);
      if right.result.None? then right
      else LevelLoop(t, n, Combine(n, left, t[pos], right.result.value), right.pos, right.errors)
    else Parsed(Some(left), pos, errs)
  }

  /** A prefix `!` or `-` applies to another unary expression. */
  function UnaryAt(t: seq<Token>, pos: nat, errs: seq<ErrorReport>): (r: Parsed)
    requires TokenStream(t) && pos < |t|
    ensures Sound(t, pos, r)
    decreases |t| - pos, 2
  {
    if MatchAny(t, pos, {Bang, Minus}) then
      var right := UnaryAt(t, pos + 1, errs);
      if right.result.None? then right
      else Parsed(Some(Unary(t[pos], right.result.value)), right.pos, right.errors)
    else PrimaryAt(t, pos, errs)
  }

  /** A literal, a variable or a parenthesised expression; anything else ends the parse. */
  function PrimaryAt(t: seq<Token>, pos: nat, errs: seq<ErrorReport>): (r: Parsed)
    requires TokenStream(t) && pos < |t|
    ensures Sound(t, pos, r)
    decreases |t| - pos, 1
  {
    if MatchAny(t, pos, {False}) then Parsed(Some(Literal(BoolVal(false))), pos + 1, errs)
    else if MatchAny(t, pos, {True}) then Parsed(Some(Literal(BoolVal(true))), pos + 1, errs)
    else if MatchAny(t, pos, {Nil}) then Parsed(Some(Literal(NilVal)), pos + 1, errs)
    else if MatchAny(t, pos, {Number, String}) then Parsed(Some(Literal(LiteralValue(t[pos].literal))), pos + 1, errs)
    else if MatchAny(t, pos, {Identifier}) then Parsed(Some(Variable(t[pos])), pos + 1, errs)
    else if MatchAny(t, pos, {LeftParen}) then
      var inner := ExpressionAt(t, pos + 1, errs);
      if inner.result.None? then inner
      else if Check(t, inner.pos, RightParen) then Parsed(Some(Grouping(inner.result.value)), inner.pos + 1, inner.errors)
      else Parsed(None, inner.pos, inner.errors + [AtToken(t[inner.pos], "Expect ')' after expression.")])
    else Parsed(None, pos, errs + [AtToken(t[pos], "Expect expression.")])
  }

  /** `parse`: the tree of the whole expression, or None after a syntax error that ended it. */
  function Parse(t: seq<Token>): Parsed
    requires TokenStream(t)
  {
    ExpressionAt(t, 0, [])
  }

  /** The kinds that begin a statement; recovery stops in front of them. */
  const StatementStarts: set<TokenType> := {Class, Fun, Var, For, If, While, Print, Return}

  /** The loop of `recover_from_error`, from pos on. */
  function RecoverLoop(t: seq<Token>, pos: nat): (r: nat)
    requires TokenStream(t) && pos < |t| && (pos > 0 || AtEnd(t, pos))
    ensures pos <= r < |t|
    decreases |t| - pos
  {
    if AtEnd(t, pos) then pos
    else if t[pos - 1].kind == Semicolon then pos
    else if t[pos].kind in StatementStarts then pos
    else RecoverLoop(t, pos + 1)
  }

  /**
   * Where `recover_from_error` leaves the cursor: one token on, then on to
   * a statement boundary. Its first `advance` reads the token before the
   * cursor, so it cannot start at the very first token when that is the end.
   */
  function RecoverAt(t: seq<Token>, pos: nat): (r: nat)
    requires TokenStream(t) && pos < |t| && (pos > 0 || !AtEnd(t, pos))
  {
    RecoverLoop(t, AdvanceAt(t, pos))
  }

  /** The state the error flag is left in after a parse step: set if and only if something was reported. */
  twostate predicate Flagged(d: Diagnostics)
    reads d
  {
    && |old(d.reports)| <= |d.reports|
    && d.hadError == (old(d.hadError) || |old(d.reports)| < |d.reports|)
    && d.hadRuntimeError == old(d.hadRuntimeError)
  }

  /** The parser: the token list, the cursor into it, and where errors go. */
  class Parser {
    const tokens: seq<Token>
    var current: nat
    const diag: Diagnostics

    ghost predicate Valid()
      reads this`current
    {
      TokenStream(tokens) && current < |tokens|
    }

    constructor (stream: seq<Token>, diagnostics: Diagnostics)
      requires TokenStream(stream)
      ensures Valid() && tokens == stream && current == 0 && diag == diagnostics
    {
      tokens := stream;
      current := 0;
      diag := diagnostics;
    }

    /** This state is what the spec result p describes, with r the tree returned. */
    ghost predicate Gives(p: Parsed, r: Option<Expr>)
      reads this`current, diag
    {
      r == p.result && current == p.pos && diag.reports == p.errors
    }

    function Peek(): (token: Token)
      requires Valid()
      reads this`current
      ensures token == tokens[current]
      ensures current == |tokens| - 1 ==> token.kind == EndOfFile
    {
      tokens[current]
    }

    function Previous(): Token
      requires Valid() && current > 0
      reads this`current
    {
      tokens[current - 1]
    }

    predicate IsAtEnd()
      requires Valid()
      reads this`current
      ensures IsAtEnd() == AtEnd(tokens, current)
    {
      Peek().kind == EndOfFile
    }

    /** `check`: never true at the end of the input. */
    predicate CheckKind(kind: TokenType)
      requires Valid()
      reads this`current
      ensures CheckKind(kind) == Check(tokens, current, kind)
      ensures IsAtEnd() ==> !CheckKind(kind)
    {
      if IsAtEnd() then false else Peek().kind == kind
    }

    /** `advance`: move on unless at the end, and give the token just passed. */
    method Advance() returns (token: Token)
      requires Valid() && (current > 0 || !IsAtEnd())
      modifies this`current
      ensures Valid() && current == AdvanceAt(tokens, old(current))
      ensures current > 0 && token == tokens[current - 1]
    {
      if !IsAtEnd() {
        current := current + 1;
      }
      token := Previous();
    }

    /** `match`: consume the token when it has one of the kinds. */
    method Match(kinds: set<TokenType>) returns (matched: bool)
      requires Valid()
      modifies this`current
      ensures Valid() && matched == MatchAny(tokens, old(current), kinds)
      ensures current == if matched then old(current) + 1 else old(current)
    {
      if !IsAtEnd() && Peek().kind in kinds {
        var _ := Advance();
        return true;
      }
      return false;
    }

    /** `consume`: take a token of the expected kind, or report the message at the current token and fail. */
    method Consume(kind: TokenType, message: string) returns (token: Option<Token>)
      requires Valid()
      modifies this`current, diag
      ensures Valid()
      ensures old(CheckKind(kind)) ==> token == Some(old(Peek())) && current == old(current) + 1 && unchanged(diag)
      ensures !old(CheckKind(kind)) ==> token == None && current == old(current) && Reported(diag, [AtToken(old(Peek()), message)])
    {
      if CheckKind(kind) {
        var t := Advance();
        return Some(t);
      }
      diag.ErrorAt(Peek(), message);
      return None;
    }

    method Parse() returns (r: Option<Expr>)
      requires Valid()
      modifies this`current, diag
      ensures Valid() && Gives(ExpressionAt(tokens, old(current), old(diag.reports)), r) && Flagged(diag)
    {
      r := Expression();
    }

    method Expression() returns (r: Option<Expr>)
      requires Valid()
      modifies this`current, diag
      ensures Valid() && Gives(ExpressionAt(tokens, old(current), old(diag.reports)), r) && Flagged(diag)
      decreases |tokens| - current, 20
    {
      r := Assignment();
    }

    method Assignment() returns (r: Option<Expr>)
      requires Valid()
      modifies this`current, diag
      ensures Valid() && Gives(AssignmentAt(tokens, old(current), old(diag.reports)), r) && Flagged(diag)
      decreases |tokens| - current, 19
    {
      var expr := Level(0);
      if expr.None? {
        return None;
      }
      var isAssignment := Match({Equal});
      if isAssignment {
        var equals := Previous();
        var value := Assignment();
        if value.None? {
          return None;
        }
        if expr.value.Variable? {
          return Some(Assign(expr.value.name, value.value));
        }
        diag.ErrorAt(equals, "Invalid assignment target.");
      }
      return expr;
    }

    /**
     * One binary level (`or_expression`, `and_expression`, `equality`,
     * `comparison`, `term`, `factor` for n = 0 to 5).
     */
    method Level(n: nat) returns (r: Option<Expr>)
      requires Valid() && n < Levels
      modifies this`current, diag
      ensures Valid() && Gives(LevelAt(tokens, n, old(current), old(diag.reports)), r) && Flagged(diag)
      decreases |tokens| - current, 18 - 2 * n
    {
      var left := Operand(n);
      if left.None? {
        return None;
      }
      var expr := left.value;
      ghost var final := LevelAt(tokens, n, old(current), old(diag.reports));
      while MatchAny(tokens, current, Operators(n))
        invariant Valid() && Flagged(diag)
        invariant LevelLoop(tokens, n, expr, current, diag.reports) == final
        decreases |tokens| - current
      {
        var op := Advance();
        var right := Operand(n);
        if right.None? {
          return None;
        }
        expr := Combine(n, expr, op, right.value);
      }
      return Some(expr);
    }

    method Operand(n: nat) returns (r: Option<Expr>)
      requires Valid() && n < Levels
      modifies this`current, diag
      ensures Valid() && Gives(OperandAt(tokens, n, old(current), old(diag.reports)), r) && Flagged(diag)
      decreases |tokens| - current, 17 - 2 * n
    {
      if n == Levels - 1 {
        r := Unary();
      } else {
        r := Level(n + 1);
      }
    }

    method Unary() returns (r: Option<Expr>)
      requires Valid()
      modifies this`current, diag
      ensures Valid() && Gives(UnaryAt(tokens, old(current), old(diag.reports)), r) && Flagged(diag)
      decreases |tokens| - current, 2
    {
      var isPrefix := Match({Bang, Minus});
      if isPrefix {
        var op := Previous();
        var operand := Unary();
        if operand.None? {
          return None;
        }
        return Some(Expr.Unary(op, operand.value));
      }
      r := Primary();
    }

    method Primary() returns (r: Option<Expr>)
      requires Valid()
      modifies this`current, diag
      ensures Valid() && Gives(PrimaryAt(tokens, old(current), old(diag.reports)), r) && Flagged(diag)
      decreases |tokens| - current, 1
    {
      var found := Match({False});
      if found {
        return Some(Literal(BoolVal(false)));
      }
      found := Match({True});
      if found {
        return Some(Literal(BoolVal(true)));
      }
      found := Match({Nil});
      if found {
        return Some(Literal(NilVal));
      }
      found := Match({Number, String});
      if found {
        return Some(Literal(LiteralValue(Previous().literal)));
      }
      found := Match({Identifier});
      if found {
        return Some(Variable(Previous()));
      }
      found := Match({LeftParen});
      if found {
        var inner := Expression();
        if inner.None? {
          return None;
        }
        var closing := Consume(RightParen, "Expect ')' after expression.");
        if closing.None? {
          return None;
        }
        return Some(Grouping(inner.value));
      }
      diag.ErrorAt(Peek(), "Expect expression.");
      return None;
    }

    /** `recover_from_error`: skip to just after a ';', just before a statement keyword, or to the end. */
    method RecoverFromError()
      requires Valid() && (current > 0 || !IsAtEnd())
      modifies this`current
      ensures Valid() && current == RecoverAt(tokens, old(current))
    {
      var _ := Advance();
      while !IsAtEnd()
        invariant Valid() && current > 0
        invariant RecoverLoop(tokens, current) == RecoverAt(tokens, old(current))
        decreases |tokens| - current
      {
        if Previous().kind == Semicolon {
          return;
        }
        if Peek().kind in StatementStarts {
          return;
        }
        var _ := Advance();
      }
    }
  }
}
