/**
 * The immutable token record and its printed form.
 */
module Tokens {
  import opened TokenTypes
  import opened Numbers

  /** The literal a token carries: a number, a string, or nothing (the null the lexer stores for every other kind). */
  datatype TokenValue = NoLiteral | NumberLiteral(number: Num) | StringLiteral(text: string)

  datatype Token = Token(kind: TokenType, lexeme: string, literal: TokenValue, line: nat)

  /** What the lexer establishes for every token: the literal is present exactly for NUMBER and STRING, with the matching type. */
  predicate WellFormedToken(t: Token)
  {
    && (t.kind == Number <==> t.literal.NumberLiteral?)
    && (t.kind == String <==> t.literal.StringLiteral?)
  }

  /**
   * The literal part of the printed token. Numbers are printed by
   * `formatNumber`, which stands for `std::to_string(double)`. A STRING or
   * NUMBER token whose literal has another type would make the source's
   * `any_cast` throw, hence the requirement.
   */
  function LiteralString(t: Token, formatNumber: Num -> string): (s: string)
    requires t.kind == String ==> t.literal.StringLiteral?
    requires t.kind == Number ==> t.literal.NumberLiteral?
    ensures t.kind == Identifier ==> s == t.lexeme
    ensures t.kind == String ==> s == t.literal.text
    ensures t.kind == Number ==> s == formatNumber(t.literal.number)
    ensures t.kind == True ==> s == "true"
    ensures t.kind == False ==> s == "false"
    ensures t.kind !in {Identifier, String, Number, True, False} ==> s == "nil"
  {
    if t.kind == Identifier then t.lexeme
    else if t.kind == String then t.literal.text
    else if t.kind == Number then formatNumber(t.literal.number)
    else if t.kind == True then "true"
    else if t.kind == False then "false"
    else "nil"
  }

  /** The printed token: kind name, a space, the lexeme, a space, the literal. */
  function ToString(t: Token, formatNumber: Num -> string): string
    requires t.kind == String ==> t.literal.StringLiteral?
    requires t.kind == Number ==> t.literal.NumberLiteral?
  {
    Name(t.kind) + " " + t.lexeme + " " + LiteralString(t, formatNumber)
  }

  /**
   * The printed form can be taken apart again by position: the kind's name,
   * which ends at the first space, then the lexeme, then the literal part.
   * A STRING lexeme may itself hold spaces.
   */
  lemma ToStringFields(t: Token, formatNumber: Num -> string)
    requires t.kind == String ==> t.literal.StringLiteral?
    requires t.kind == Number ==> t.literal.NumberLiteral?
    ensures var s := ToString(t, formatNumber);
      var n := |Name(t.kind)|;
      && s[..n] == DeclaredName(t.kind)
      && s[n] == ' '
      && s[n + 1..n + 1 + |t.lexeme|] == t.lexeme
      && s[n + 1 + |t.lexeme|] == ' '
      && s[n + 2 + |t.lexeme|..] == LiteralString(t, formatNumber)
      && ' ' !in s[..n]
      && (' ' !in t.lexeme ==> ' ' !in s[n + 1..n + 1 + |t.lexeme|])
  {
    NameIsDeclaredName(t.kind);
    NameHasNoSpace(t.kind);
    SplitFields(Name(t.kind), t.lexeme, LiteralString(t, formatNumber));
  }

  /** Three fields joined by single spaces can be cut out again by position. */
  lemma SplitFields(a: string, b: string, c: string)
    ensures var s := a + " " + b + " " + c;
      && s[..|a|] == a
      && s[|a|] == ' '
      && s[|a| + 1..|a| + 1 + |b|] == b
      && s[|a| + 1 + |b|] == ' '
      && s[|a| + 2 + |b|..] == c
  {
    var s := a + " " + b + " " + c;
    assert s == a + ([' '] + (b + ([' '] + c)));
    assert s[|a| + 1..] == b + ([' '] + c);
  }

  lemma NameHasNoSpace(k: TokenType)
    ensures ' ' !in Name(k)
  {
    NameIsDeclaredName(k);
    match k
    case LeftParen | RightParen | LeftBrace | RightBrace | Comma | Dot | Semicolon => DelimitersHaveNoSpace(k);
    case Minus | Plus | Slash | Star => OperatorsHaveNoSpace(k);
    case Bang | BangEqual | Equal | EqualEqual | Greater | GreaterEqual | Less | LessEqual => ComparisonsHaveNoSpace(k);
    case Identifier | String | Number => LiteralsHaveNoSpace(k);
    case And | Class | Else | False | Fun | For | If | Nil => KeywordsAHaveNoSpace(k);
    case Or | Print | Return | Super | This | True | Var | While | EndOfFile => KeywordsBHaveNoSpace(k);
  }

  lemma DelimitersHaveNoSpace(k: TokenType)
    requires k in {LeftParen, RightParen, LeftBrace, RightBrace, Comma, Dot, Semicolon}
    ensures ' ' !in DeclaredName(k)
  {
  }

  lemma OperatorsHaveNoSpace(k: TokenType)
    requires k in {Minus, Plus, Slash, Star}
    ensures ' ' !in DeclaredName(k)
  {
  }

  lemma ComparisonsHaveNoSpace(k: TokenType)
    requires k in {Bang, BangEqual, Equal, EqualEqual, Greater, GreaterEqual, Less, LessEqual}
    ensures ' ' !in DeclaredName(k)
  {
  }

  lemma LiteralsHaveNoSpace(k: TokenType)
    requires k in {Identifier, String, Number}
    ensures ' ' !in DeclaredName(k)
  {
  }

  lemma KeywordsAHaveNoSpace(k: TokenType)
    requires k in {And, Class, Else, False, Fun, For, If, Nil}
    ensures ' ' !in DeclaredName(k)
  {
  }

  lemma KeywordsBHaveNoSpace(k: TokenType)
    requires k in {Or, Print, Return, Super, This, True, Var, While, EndOfFile}
    ensures ' ' !in DeclaredName(k)
  {
  }
}
