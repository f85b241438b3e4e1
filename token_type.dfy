/**
 * The closed enumeration of token kinds and the table of their printed names.
 */
module TokenTypes {

  datatype TokenType =
    // Grouping delimiters
    | LeftParen | RightParen | LeftBrace | RightBrace
    // Separators and operators
    | Comma | Dot | Semicolon | Minus | Plus | Slash | Star
    // Comparison operators
    | Bang | BangEqual | Equal | EqualEqual | Greater | GreaterEqual | Less | LessEqual
    // Literal values
    | Identifier | String | Number
    // Language keywords
    | And | Class | Else | False | Fun | For | If | Nil | Or
    | Print | Return | Super | This | True | Var | While
    // Special token
    | EndOfFile

  /** The number of enumerators. */
  const KindCount: nat := 39

  /** The size the name table is declared with; one slot more than there are kinds. */
  const TableSize: nat := 40

  /** The enumerator's position in the declaration, as `static_cast<int>` gives it. */
  function Ordinal(k: TokenType): (i: nat)
    ensures i < KindCount
  {
    match k
    case LeftParen => 0 case RightParen => 1 case LeftBrace => 2 case RightBrace => 3
    case Comma => 4 case Dot => 5 case Semicolon => 6 case Minus => 7 case Plus => 8
    case Slash => 9 case Star => 10
    case Bang => 11 case BangEqual => 12 case Equal => 13 case EqualEqual => 14
    case Greater => 15 case GreaterEqual => 16 case Less => 17 case LessEqual => 18
    case Identifier => 19 case String => 20 case Number => 21
    case And => 22 case Class => 23 case Else => 24 case False => 25 case Fun => 26
    case For => 27 case If => 28 case Nil => 29 case Or => 30 case Print => 31
    case Return => 32 case Super => 33 case This => 34 case True => 35 case Var => 36
    case While => 37
    case EndOfFile => 38
  }

  /**
   * The name table: 39 initialisers in a table of 40 entries, so the last
   * slot holds the empty string.
   */
  const TokenNames: seq<string> := [
    "LEFT_PAREN", "RIGHT_PAREN", "LEFT_BRACE", "RIGHT_BRACE",
    "COMMA", "DOT", "SEMICOLON",
    "MINUS", "PLUS", "SLASH", "STAR",
    "BANG", "BANG_EQUAL",
    "EQUAL", "EQUAL_EQUAL",
    "GREATER", "GREATER_EQUAL",
    "LESS", "LESS_EQUAL",
    "IDENTIFIER", "STRING", "NUMBER",
    "AND", "CLASS", "ELSE", "FALSE", "FUN", "FOR", "IF", "NIL", "OR",
    "PRINT", "RETURN", "SUPER", "THIS", "TRUE", "VAR", "WHILE",
    "END_OF_FILE",
    ""]

  /** `to_string(TokenType)`: look the kind's ordinal up in the name table. */
  function Name(k: TokenType): string
  {
    TokenNames[Ordinal(k)]
  }

  /** The identifier each enumerator is declared with, written per kind. */
  function DeclaredName(k: TokenType): string
  {
    match k
    case LeftParen => "LEFT_PAREN" case RightParen => "RIGHT_PAREN"
    case LeftBrace => "LEFT_BRACE" case RightBrace => "RIGHT_BRACE"
    case Comma => "COMMA" case Dot => "DOT" case Semicolon => "SEMICOLON"
    case Minus => "MINUS" case Plus => "PLUS" case Slash => "SLASH" case Star => "STAR"
    case Bang => "BANG" case BangEqual => "BANG_EQUAL"
    case Equal => "EQUAL" case EqualEqual => "EQUAL_EQUAL"
    case Greater => "GREATER" case GreaterEqual => "GREATER_EQUAL"
    case Less => "LESS" case LessEqual => "LESS_EQUAL"
    case Identifier => "IDENTIFIER" case String => "STRING" case Number => "NUMBER"
    case And => "AND" case Class => "CLASS" case Else => "ELSE" case False => "FALSE"
    case Fun => "FUN" case For => "FOR" case If => "IF" case Nil => "NIL" case Or => "OR"
    case Print => "PRINT" case Return => "RETURN" case Super => "SUPER" case This => "THIS"
    case True => "TRUE" case Var => "VAR" case While => "WHILE"
    case EndOfFile => "END_OF_FILE"
  }

  predicate IsKeyword(k: TokenType)
  {
    k in {And, Class, Else, False, Fun, For, If, Nil, Or, Print, Return, Super, This, True, Var, While}
  }

  /** The kind declared at position i: the inverse of Ordinal. */
  function KindAt(i: nat): TokenType
    requires i < KindCount
  {
    match i
    case 0 => LeftParen case 1 => RightParen case 2 => LeftBrace case 3 => RightBrace case 4 => Comma case 5 => Dot case 6 => Semicolon case 7 => Minus case 8 => Plus case 9 => Slash case 10 => Star case 11 => Bang case 12 => BangEqual case 13 => Equal case 14 => EqualEqual case 15 => Greater case 16 => GreaterEqual case 17 => Less case 18 => LessEqual case 19 => Identifier case 20 => String case 21 => Number case 22 => And case 23 => Class case 24 => Else case 25 => False case 26 => Fun case 27 => For case 28 => If case 29 => Nil case 30 => Or case 31 => Print case 32 => Return case 33 => Super case 34 => This case 35 => True case 36 => Var case 37 => While case 38 => EndOfFile
  }

  /** The table lookup gives every kind exactly its declared identifier (so the table follows the enum order, FUN before FOR). */
  lemma NameIsDeclaredName(k: TokenType)
    ensures Name(k) == DeclaredName(k)
  {
    match k
    case LeftParen | RightParen | LeftBrace | RightBrace | Comma | Dot => DelimiterNames();
    case Semicolon | Minus | Plus | Slash | Star => OperatorNames();
    case Bang | BangEqual | Equal | EqualEqual | Greater | GreaterEqual | Less | LessEqual => ComparisonNames();
    case Identifier | String | Number => LiteralNames();
    case And | Class | Else | False | Fun | For | If | Nil => KeywordANames();
    case Or | Print | Return | Super | This | True | Var | While | EndOfFile => KeywordBNames();
  }

  lemma DelimiterNames()
    ensures TokenNames[0] == "LEFT_PAREN"
    ensures TokenNames[1] == "RIGHT_PAREN"
    ensures TokenNames[2] == "LEFT_BRACE"
    ensures TokenNames[3] == "RIGHT_BRACE"
    ensures TokenNames[4] == "COMMA"
    ensures TokenNames[5] == "DOT"
  {
  }

  lemma OperatorNames()
    ensures TokenNames[6] == "SEMICOLON"
    ensures TokenNames[7] == "MINUS"
    ensures TokenNames[8] == "PLUS"
    ensures TokenNames[9] == "SLASH"
    ensures TokenNames[10] == "STAR"
  {
  }

  lemma ComparisonNames()
    ensures TokenNames[11] == "BANG"
    ensures TokenNames[12] == "BANG_EQUAL"
    ensures TokenNames[13] == "EQUAL"
    ensures TokenNames[14] == "EQUAL_EQUAL"
    ensures TokenNames[15] == "GREATER"
    ensures TokenNames[16] == "GREATER_EQUAL"
    ensures TokenNames[17] == "LESS"
    ensures TokenNames[18] == "LESS_EQUAL"
  {
  }

  lemma LiteralNames()
    ensures TokenNames[19] == "IDENTIFIER"
    ensures TokenNames[20] == "STRING"
    ensures TokenNames[21] == "NUMBER"
  {
  }

  lemma KeywordANames()
    ensures TokenNames[22] == "AND"
    ensures TokenNames[23] == "CLASS"
    ensures TokenNames[24] == "ELSE"
    ensures TokenNames[25] == "FALSE"
    ensures TokenNames[26] == "FUN"
    ensures TokenNames[27] == "FOR"
    ensures TokenNames[28] == "IF"
    ensures TokenNames[29] == "NIL"
  {
  }

  lemma KeywordBNames()
    ensures TokenNames[30] == "OR"
    ensures TokenNames[31] == "PRINT"
    ensures TokenNames[32] == "RETURN"
    ensures TokenNames[33] == "SUPER"
    ensures TokenNames[34] == "THIS"
    ensures TokenNames[35] == "TRUE"
    ensures TokenNames[36] == "VAR"
    ensures TokenNames[37] == "WHILE"
    ensures TokenNames[38] == "END_OF_FILE"
  {
  }

  /** Ordinal is a bijection onto 0..38: KindAt undoes it, so different kinds have different ordinals. */
  lemma OrdinalRoundTrip(k: TokenType)
    ensures KindAt(Ordinal(k)) == k
  {
    match k
    case LeftParen =>
    case RightParen =>
    case LeftBrace =>
    case RightBrace =>
    case Comma =>
    case Dot =>
    case Semicolon =>
    case Minus =>
    case Plus =>
    case Slash =>
    case Star =>
    case Bang =>
    case BangEqual =>
    case Equal =>
    case EqualEqual =>
    case Greater =>
    case GreaterEqual =>
    case Less =>
    case LessEqual =>
    case Identifier =>
    case String =>
    case Number =>
    case And =>
    case Class =>
    case Else =>
    case False =>
    case Fun =>
    case For =>
    case If =>
    case Nil =>
    case Or =>
    case Print =>
    case Return =>
    case Super =>
    case This =>
    case True =>
    case Var =>
    case While =>
    case EndOfFile =>
  }

  lemma OrdinalInjective(j: TokenType, k: TokenType)
    requires j != k
    ensures Ordinal(j) != Ordinal(k)
  {
    OrdinalRoundTrip(j);
    OrdinalRoundTrip(k);
  }

  /** The keyword kinds are exactly the ordinals from AND to WHILE, and END_OF_FILE comes last. */
  lemma KeywordsContiguous(k: TokenType)
    ensures IsKeyword(k) <==> Ordinal(And) <= Ordinal(k) <= Ordinal(While)
    ensures Ordinal(k) <= Ordinal(EndOfFile) && Ordinal(EndOfFile) == KindCount - 1
  {
  }

  /** Every lookup is in bounds: 39 ordinals index a table of 40 entries. */
  lemma NameLookupInBounds(k: TokenType)
    ensures |TokenNames| == TableSize && Ordinal(k) < KindCount < TableSize
  {
  }

  /** The unused last table slot is the only empty name. */
  lemma NamesNonEmpty(k: TokenType)
    ensures Name(k) != "" && TokenNames[TableSize - 1] == ""
  {
    NameIsDeclaredName(k);
    LastSlotEmpty();
  }

  lemma LastSlotEmpty()
    ensures TokenNames[TableSize - 1] == ""
  {
  }
}
