/**
 * Properties of the scanner: what one step produces for each kind of
 * input, the decimal reading of number literals, and the shape of the
 * whole token list.
 */
module LexerFacts {
  import opened Wrappers
  import opened Numbers
  import opened Text
  import opened TokenTypes
  import opened Tokens
  import opened Errors
  import opened Lexers

  // ----- number literals -----

  /** The shape of a number lexeme: digits, optionally a dot and at least one more digit. */
  predicate IsNumberLexeme(s: string)
  {
    var k := LeadingDigits(s);
    0 < k && (k == |s| || (s[k] == '.' && k + 1 < |s| && AllDigits(s[k + 1..])))
  }

  /** The value of the digits after a decimal point: 0.d1d2d3... */
  function FractionValue(d: string): real
    requires AllDigits(d)
  {
    if d == [] then 0.0 else ((d[0] as int - '0' as int) as real + FractionValue(d[1..])) / 10.0
  }

  /** The exact value of a number lexeme, read from its text. */
  function DecimalValue(s: string): real
    requires IsNumberLexeme(s)
  {
    var k := LeadingDigits(s);
    if k == |s| then DigitsValue(s) as real
    else DigitsValue(s[..k]) as real + FractionValue(s[k + 1..])
  }

  lemma {:induction false} IntegerValueIsDigitsValue(src: string, i: nat, j: nat)
    requires i <= j <= |src|
    requires forall k :: i <= k < j ==> IsDigit(src[k])
    ensures AllDigits(src[i..j]) && IntegerValue(src, i, j) == DigitsValue(src[i..j])
    decreases j - i
  {
    if i < j {
      IntegerValueIsDigitsValue(src, i, j - 1);
      assert src[i..j][..j - 1 - i] == src[i..j - 1];
    }
  }

  lemma {:induction false} FractionAtIsFractionValue(src: string, i: nat, j: nat)
    requires i <= j <= |src|
    requires forall k :: i <= k < j ==> IsDigit(src[k])
    ensures AllDigits(src[i..j]) && FractionAt(src, i, j) == FractionValue(src[i..j])
    decreases j - i
  {
    if i < j {
      FractionAtIsFractionValue(src, i + 1, j);
      assert src[i..j][1..] == src[i + 1..j];
    }
  }

  lemma {:induction false} LeadingDigitsWhole(s: string)
    requires AllDigits(s)
    ensures LeadingDigits(s) == |s|
    decreases |s|
  {
    if s != [] {
      LeadingDigitsWhole(s[1..]);
    }
  }

  /** A number without a fraction: all of its text is the integer part. */
  lemma IntegerLexeme(src: string, start: nat, d: nat)
    requires start < d <= |src|
    requires forall k :: start <= k < d ==> IsDigit(src[k])
    requires DigitsEnd(src, start) == d
    ensures IsNumberLexeme(src[start..d]) && NumberValue(src, start, d) == DecimalValue(src[start..d])
  {
    IntegerValueIsDigitsValue(src, start, d);
    LeadingDigitsWhole(src[start..d]);
  }

  /** A number with a fraction: the digits before the dot, then the digits after it. */
  lemma FractionLexeme(src: string, start: nat, d: nat, j: nat)
    requires start < d && d + 1 < j <= |src|
    requires forall k :: start <= k < d ==> IsDigit(src[k])
    requires src[d] == '.'
    requires forall k :: d + 1 <= k < j ==> IsDigit(src[k])
    requires DigitsEnd(src, start) == d
    ensures IsNumberLexeme(src[start..j]) && NumberValue(src, start, j) == DecimalValue(src[start..j])
  {
    var text := src[start..j];
    var k := d - start;
    IntegerValueIsDigitsValue(src, start, d);
    FractionAtIsFractionValue(src, d + 1, j);
    assert text == src[start..d] + src[d..j];
    LeadingDigitsOfDigitsThen(src[start..d], src[d..j]);
    assert text[..k] == src[start..d];
    assert text[k + 1..] == src[d + 1..j];
  }

  /**
   * A number token's lexeme has the shape of a decimal number, and its
   * literal is the exact value of that text.
   */
  lemma NumberLiteralValue(src: string, start: nat, line: nat)
    requires start < |src| && IsDigit(src[start])
    ensures var t := NumberStep(src, start, line).tokens[0];
      && t.kind == Number
      && IsNumberLexeme(t.lexeme)
      && t.literal == NumberLiteral(Finite(DecimalValue(t.lexeme)))
  {
    var d := DigitsEnd(src, start + 1);
    var j := NumberEnd(src, start + 1);
    DigitsRun(src, start + 1);
    assert DigitsEnd(src, start) == d;
    if j == d {
      IntegerLexeme(src, start, d);
    } else {
      DigitsRun(src, d + 1);
      FractionLexeme(src, start, d, j);
    }
  }

  /**
   * A number stops before a dot that no digit follows: the number is the
   * leading digits only, with the dot left for the next step.
   */
  lemma NumberWithoutFraction(src: string, start: nat, line: nat)
    requires start < |src| && IsDigit(src[start])
    requires var d := DigitsEnd(src, start + 1); !IsDigit(CharAt(src, d + 1))
    ensures var s := NumberStep(src, start, line);
      s.next == DigitsEnd(src, start + 1) && AllDigits(s.tokens[0].lexeme)
  {
    var d := DigitsEnd(src, start + 1);
    assert NumberEnd(src, start + 1) == d;
    DigitsRun(src, start + 1);
    IntegerValueIsDigitsValue(src, start, d);
  }

  // ----- the dispatch on the first character -----

  /** A digit starts a number. */
  lemma ScanDigit(src: string, start: nat, line: nat)
    requires start < |src| && IsDigit(src[start])
    ensures ScanToken(src, start, line) == NumberStep(src, start, line)
  {
  }

  /** `!`, `=`, `<` and `>` take the following '=' into a two-character operator exactly when it is there. */
  lemma TwoCharacterOperator(src: string, start: nat, line: nat)
    requires start < |src| && src[start] in "!=<>"
    ensures var s := ScanToken(src, start, line);
      var kinds := PairKinds(src[start]).value;
      && |s.tokens| == 1 && s.errors == [] && s.line == line
      && (CharAt(src, start + 1) == '=' ==> s.next == start + 2 && s.tokens[0].kind == kinds.0)
      && (CharAt(src, start + 1) != '=' ==> s.next == start + 1 && s.tokens[0].kind == kinds.1)
      && kinds.0 in {BangEqual, EqualEqual, LessEqual, GreaterEqual}
      && kinds.1 in {Bang, Equal, Less, Greater}
  {
  }

  /** Two slashes start a comment: no token, and the cursor stops at the next line break or the end of the input. */
  lemma CommentSkipsLine(src: string, start: nat, line: nat)
    requires start + 1 < |src| && src[start] == '/' && src[start + 1] == '/'
    ensures var s := ScanToken(src, start, line);
      && s.tokens == [] && s.errors == [] && s.line == line
      && (forall k :: start <= k < s.next ==> src[k] != '\n')
      && (s.next == |src| || src[s.next] == '\n')
  {
    RunStops(src, start + 2, '\n');
  }

  /** A slash not followed by another is the division operator. */
  lemma LoneSlash(src: string, start: nat, line: nat)
    requires start < |src| && src[start] == '/' && CharAt(src, start + 1) != '/'
    ensures var s := ScanToken(src, start, line);
      s.tokens == [Token(Slash, "/", NoLiteral, line)] && s.next == start + 1 && s.errors == []
  {
    assert src[start..start + 1] == "/";
  }

  /** A terminated string: its literal is the lexeme without the quotes, and the line moves over the breaks inside it. */
  lemma TerminatedString(src: string, start: nat, line: nat)
    requires start < |src| && src[start] == '"'
    requires RunEnd(src, start + 1, '"') < |src|
    ensures var s := ScanToken(src, start, line);
      var t := s.tokens[0];
      && |s.tokens| == 1 && s.errors == []
      && t.kind == String
      && t.literal == StringLiteral(t.lexeme[1..|t.lexeme| - 1])
      && |t.lexeme| >= 2 && t.lexeme[0] == '"' && t.lexeme[|t.lexeme| - 1] == '"'
      && '"' !in t.literal.text
      && s.line == line + LineBreaks(src, start + 1, s.next - 1)
  {
    var j := RunEnd(src, start + 1, '"');
    var l := line + LineBreaks(src, start + 1, j);
    QuotedText(src, start, j);
    ScanQuote(src, start, line);
    assert StringStep(src, start, line) == ClosedString(src, start, line, j);
  }

  /** The lexeme of a closed string: quotes at both ends, and no quote between them. */
  lemma QuotedText(src: string, start: nat, j: nat)
    requires start < |src| && src[start] == '"'
    requires j == RunEnd(src, start + 1, '"') < |src|
    ensures var lexeme := src[start..j + 1];
      && |lexeme| >= 2 && lexeme[0] == '"' && lexeme[|lexeme| - 1] == '"'
      && lexeme[1..|lexeme| - 1] == src[start + 1..j]
      && '"' !in src[start + 1..j]
  {
    RunStops(src, start + 1, '"');
    var lexeme := src[start..j + 1];
    var inner, text := lexeme[1..|lexeme| - 1], src[start + 1..j];
    assert |inner| == |text| && forall k :: 0 <= k < |inner| ==> inner[k] == text[k];
  }

  lemma ScanQuote(src: string, start: nat, line: nat)
    requires start < |src| && src[start] == '"'
    ensures ScanToken(src, start, line) == StringStep(src, start, line)
  {
  }

  /** An unterminated string: no token, the input is used up, and one error names the line reached. */
  lemma UnterminatedString(src: string, start: nat, line: nat)
    requires start < |src| && src[start] == '"'
    requires RunEnd(src, start + 1, '"') == |src|
    ensures var s := ScanToken(src, start, line);
      && s.tokens == [] && s.next == |src|
      && s.line == line + LineBreaks(src, start + 1, |src|)
      && s.errors == [AtLine(s.line, "Unterminated string.")]
  {
  }

  /** One of the ten single-character tokens: exactly that token, one character long, on the current line. */
  lemma SingleCharacterToken(src: string, start: nat, line: nat)
    requires start < |src| && SingleKind(src[start]).Some?
    ensures ScanToken(src, start, line)
      == Step([Token(SingleKind(src[start]).value, src[start..start + 1], NoLiteral, line)], start + 1, line, [])
  {
  }

  /** A blank (space, carriage return or tab) is skipped: one character, no token, no report, same line. */
  lemma BlankSkipped(src: string, start: nat, line: nat)
    requires start < |src| && src[start] in " \r\t"
    ensures ScanToken(src, start, line) == Step([], start + 1, line, [])
  {
  }

  /** A line break is skipped and raises the line by one. */
  lemma NewlineCounted(src: string, start: nat, line: nat)
    requires start < |src| && src[start] == '\n'
    ensures ScanToken(src, start, line) == Step([], start + 1, line + 1, [])
  {
  }

  /** Every character no rule accepts. */
  predicate Unexpected(c: char)
  {
    && SingleKind(c).None? && PairKinds(c).None?
    && c !in "/ \r\t\n\"" && !IsDigit(c) && !IsAlpha(c)
  }

  /** An unexpected character is reported and skipped, and scanning goes on after it. */
  lemma UnexpectedCharacter(src: string, start: nat, line: nat)
    requires start < |src| && Unexpected(src[start])
    ensures var s := ScanToken(src, start, line);
      s == Step([], start + 1, line, [AtLine(line, "Unexpected character.")])
  {
  }

  // ----- identifiers and keywords -----

  /** Every entry the lookup finds is in the table. */
  lemma {:induction false} FindKeywordSound(table: seq<(string, TokenType)>, word: string)
    ensures FindKeyword(table, word).Some? ==> (word, FindKeyword(table, word).value) in table
  {
    if table != [] && table[0].0 != word {
      FindKeywordSound(table[1..], word);
    }
  }

  /** The reserved word of each keyword kind. */
  function KeywordText(k: TokenType): string
    requires IsKeyword(k)
  {
    match k
    case And => "and" case Class => "class" case Else => "else" case False => "false"
    case For => "for" case Fun => "fun" case If => "if" case Nil => "nil"
    case Or => "or" case Print => "print" case Return => "return" case Super => "super"
    case This => "this" case True => "true" case Var => "var" case While => "while"
  }

  /** Where each keyword kind sits in the table. */
  function KeywordIndex(k: TokenType): (i: nat)
    requires IsKeyword(k)
    ensures i < |ReservedWords|
  {
    match k
    case And => 0 case Class => 1 case Else => 2 case False => 3
    case For => 4 case Fun => 5 case If => 6 case Nil => 7
    case Or => 8 case Print => 9 case Return => 10 case Super => 11
    case This => 12 case True => 13 case Var => 14 case While => 15
  }

  /** Every keyword kind is found under its word: the table covers all sixteen. */
  lemma KeywordFound(k: TokenType)
    requires IsKeyword(k)
    ensures FindKeyword(ReservedWords, KeywordText(k)) == Some(k)
  {
    var i := KeywordIndex(k);
    assert ReservedWords[i] == (KeywordText(k), k);
    FindKeywordAt(ReservedWords, i);
  }

  /** The lookup finds the first entry with the word. */
  lemma {:induction false} FindKeywordAt(table: seq<(string, TokenType)>, i: nat)
    requires i < |table| && forall j :: 0 <= j < i ==> table[j].0 != table[i].0
    ensures FindKeyword(table, table[i].0) == Some(table[i].1)
  {
    if i > 0 {
      FindKeywordAt(table[1..], i - 1);
    }
  }

  /** A word is reserved exactly when the table has it; its kind is then a keyword kind. */
  lemma KeywordOrIdentifier(src: string, start: nat, line: nat)
    requires start < |src| && IsAlpha(src[start])
    ensures var s := IdentifierStep(src, start, line);
      var t := s.tokens[0];
      var found := FindKeyword(ReservedWords, t.lexeme);
      && |s.tokens| == 1 && s.errors == []
      && (found.Some? ==> t.kind == found.value && (t.lexeme, t.kind) in ReservedWords && IsKeyword(t.kind))
      && (found.None? ==> t.kind == Identifier)
  {
    var j := IdentifierEnd(src, start + 1);
    FindKeywordSound(ReservedWords, src[start..j]);
    KeywordKinds(src[start..j]);
  }

  /** A letter or an underscore starts an identifier or a keyword. */
  lemma ScanAlpha(src: string, start: nat, line: nat)
    requires start < |src| && IsAlpha(src[start])
    ensures ScanToken(src, start, line) == IdentifierStep(src, start, line)
  {
    var c := src[start];
    assert SingleKind(c).None? && PairKinds(c).None? && !IsDigit(c);
  }

  /** An identifier is the longest run of letters, digits and underscores. */
  lemma IdentifierMaximalMunch(src: string, start: nat, line: nat)
    requires start < |src| && IsAlpha(src[start])
    ensures var s := IdentifierStep(src, start, line);
      && (forall k :: start <= k < s.next ==> IsAlphaNumeric(src[k]))
      && (s.next < |src| ==> !IsAlphaNumeric(src[s.next]))
  {
    IdentifierRun(src, start + 1);
  }

  // ----- the whole scan -----

  /** A token the scan loop may emit: never END_OF_FILE, and with a literal of the right type. */
  predicate Emitted(t: Token)
  {
    t.kind != EndOfFile && WellFormedToken(t)
  }

  predicate AllEmitted(ts: seq<Token>)
  {
    forall i :: 0 <= i < |ts| ==> Emitted(ts[i])
  }

  lemma {:induction false} ScanLoopEmits(src: string, pos: nat, line: nat, tokens: seq<Token>, errors: seq<ErrorReport>)
    requires pos <= |src| && AllEmitted(tokens)
    ensures AllEmitted(ScanLoop(src, pos, line, tokens, errors).tokens)
    decreases |src| - pos
  {
    if pos < |src| {
      var s := ScanToken(src, pos, line);
      assert AllEmitted(tokens + s.tokens) by {
        forall i | 0 <= i < |tokens + s.tokens|
          ensures Emitted((tokens + s.tokens)[i])
        {
          if i >= |tokens| {
            assert (tokens + s.tokens)[i] == s.tokens[0];
          }
        }
      }
      ScanLoopEmits(src, s.next, s.line, tokens + s.tokens, errors + s.errors);
    }
  }

  /**
   * The token list ends with the one END_OF_FILE token, on the line after
   * the last line break, and every token before it is an ordinary token.
   */
  lemma ScanEndsWithEndOfFile(src: string)
    ensures var ts := Scan(src).tokens;
      && |ts| >= 1
      && ts[|ts| - 1] == Token(EndOfFile, "", NoLiteral, 1 + LineBreaks(src, 0, |src|))
      && forall i :: 0 <= i < |ts| - 1 ==> Emitted(ts[i])
  {
    ScanLoopEmits(src, 0, 1, [], []);
    var r := ScanFrom(src, 0, 1);
    var ts := Scan(src).tokens;
    forall i | 0 <= i < |ts| - 1
      ensures Emitted(ts[i])
    {
      assert ts[i] == r.tokens[i];
    }
  }

  /** An unterminated string uses up the input: nothing but END_OF_FILE follows it. */
  lemma UnterminatedStringEndsScan(src: string, start: nat, line: nat)
    requires start < |src| && src[start] == '"'
    requires RunEnd(src, start + 1, '"') == |src|
    ensures var l := line + LineBreaks(src, start + 1, |src|);
      ScanFrom(src, start, line) == Scanned([], [AtLine(l, "Unterminated string.")], l)
  {
    UnterminatedString(src, start, line);
    var s := ScanToken(src, start, line);
    assert ScanFrom(src, start, line) == ScanLoop(src, |src|, s.line, [] + s.tokens, [] + s.errors);
    assert [] + s.tokens == [] && [] + s.errors == s.errors;
  }

  /** After an unexpected character the scan continues with the next one, with the error in front. */
  lemma UnexpectedCharacterContinues(src: string, start: nat, line: nat)
    requires start < |src| && Unexpected(src[start])
    ensures var r := ScanFrom(src, start + 1, line);
      ScanFrom(src, start, line) == Scanned(r.tokens, [AtLine(line, "Unexpected character.")] + r.errors, r.line)
  {
    var e := [AtLine(line, "Unexpected character.")];
    UnexpectedCharacter(src, start, line);
    var none: seq<Token> := [];
    assert ScanFrom(src, start, line) == ScanLoop(src, start + 1, line, none + none, [] + e);
    assert none + none == none && [] + e == e;
    ScanLoopAccumulates(src, start + 1, line, [], e);
    var r := ScanFrom(src, start + 1, line);
    assert [] + r.tokens == r.tokens;
  }

  /** The kinds of a token list. */
  function Kinds(ts: seq<Token>): (ks: seq<TokenType>)
    ensures |ks| == |ts| && forall i :: 0 <= i < |ts| ==> ks[i] == ts[i].kind
  {
    if ts == [] then [] else [ts[0].kind] + Kinds(ts[1..])
  }

  /** A digit then a dot is a number followed by a dot: the fraction needs a digit after the point. */
  lemma NumberThenDot(src: string)
    requires |src| == 2 && IsDigit(src[0]) && src[1] == '.'
    ensures Kinds(Scan(src).tokens) == [Number, Dot, EndOfFile]
  {
    var s0 := LoneDigit(src);
    var s1 := DotAt(src, 1, s0.line);
    var ts := TwoSteps(src, s0, s1);
    assert Kinds(ts) == [ts[0].kind, ts[1].kind, ts[2].kind];
  }

  /** A digit followed by a dot scans as a one-character number. */
  lemma LoneDigit(src: string) returns (s: Step)
    requires |src| == 2 && IsDigit(src[0]) && src[1] == '.'
    ensures s == ScanToken(src, 0, 1)
    ensures s.next == 1 && s.errors == [] && |s.tokens| == 1 && s.tokens[0].kind == Number
  {
    ScanDigit(src, 0, 1);
    assert DigitsEnd(src, 1) == 1;
    NumberStepShape(src, 0, 1, 1, 1);
    s := ScanToken(src, 0, 1);
  }

  /** A dot is a token on its own. */
  lemma DotAt(src: string, start: nat, line: nat) returns (s: Step)
    requires start < |src| && src[start] == '.'
    ensures s == ScanToken(src, start, line)
    ensures s.next == start + 1 && s.errors == [] && |s.tokens| == 1 && s.tokens[0].kind == Dot
  {
    assert SingleKind('.') == Some(Dot);
    s := ScanToken(src, start, line);
  }

  /** The tokens of scanning a two-character input that takes two one-character steps. */
  lemma TwoSteps(src: string, s0: Step, s1: Step) returns (ts: seq<Token>)
    requires |src| == 2
    requires s0 == ScanToken(src, 0, 1) && s0.next == 1 && s0.errors == []
    requires s1 == ScanToken(src, 1, s0.line) && s1.next == 2 && s1.errors == []
    ensures ts == Scan(src).tokens
    ensures ts == s0.tokens + s1.tokens + [Token(EndOfFile, "", NoLiteral, s1.line)]
  {
    var none: seq<Token> := [];
    var no: seq<ErrorReport> := [];
    assert ScanFrom(src, 0, 1) == ScanLoop(src, 1, s0.line, none + s0.tokens, no + s0.errors);
    assert none + s0.tokens == s0.tokens && no + s0.errors == s0.errors;
    assert ScanLoop(src, 1, s0.line, s0.tokens, s0.errors)
        == ScanLoop(src, 2, s1.line, s0.tokens + s1.tokens, s0.errors + s1.errors);
    ts := Scan(src).tokens;
  }
}
