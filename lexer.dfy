/**
 * The lexer: a character-level scanner that turns the source text into
 * tokens, one maximal munch at a time, and reports lexical errors without
 * stopping. The pure functions below specify one scanning step and the
 * whole scan; the class Lexer is the scanner with its moving cursor, proved
 * to take exactly those steps.
 */
module Lexers {
  import opened Wrappers
  import opened Numbers
  import opened Text
  import opened TokenTypes
  import opened Tokens
  import opened Errors

  /** A letter or underscore: always an ASCII character, and never a digit. */
  predicate IsAlpha(c: char)
    ensures IsAlpha(c) ==> c as int < 128 && !IsDigit(c)
  {
    ('a' <= c <= 'z') || ('A' <= c <= 'Z') || c == '_'
  }

  /** A character an identifier continues with: ASCII, and none of the characters that begin another kind of token. */
  predicate IsAlphaNumeric(c: char)
    ensures IsAlphaNumeric(c) ==> c as int < 128 && SingleKind(c).None? && PairKinds(c).None? && c !in "/ \r\t\n\""
  {
    IsAlpha(c) || IsDigit(c)
  }

  /** The reserved-word table, in the order of its initialiser. */
  const ReservedWords: seq<(string, TokenType)> := [
    ("and", And), ("class", Class), ("else", Else), ("false", False),
    ("for", For), ("fun", Fun), ("if", If), ("nil", Nil),
    ("or", Or), ("print", Print), ("return", Return), ("super", Super),
    ("this", This), ("true", True), ("var", Var), ("while", While)]

  /** The table lookup `find` performs: the kind of the word, if it is reserved. */
  function FindKeyword(table: seq<(string, TokenType)>, word: string): Option<TokenType>
  {
    if table == [] then None
    else if table[0].0 == word then Some(table[0].1)
    else FindKeyword(table[1..], word)
  }

  /** The character at i, or the NUL character past the end (what `peek` and `peek_next` return). */
  function CharAt(src: string, i: nat): char
  {
    if i < |src| then src[i] else '\0'
  }

  /** The number of line breaks among the characters from i up to (not including) j. */
  function LineBreaks(src: string, i: nat, j: nat): nat
    requires i <= j <= |src|
    decreases j - i
  {
    if i == j then 0 else LineBreaks(src, i, j - 1) + (if src[j - 1] == '\n' then 1 else 0)
  }

  // Where each greedy loop of the scanner stops, starting at i: the first
  // position at or after i whose character ends the run (or the end of the
  // input). What each run consists of is stated by the lemma after it.

  function IdentifierEnd(src: string, i: nat): (j: nat)
    requires i <= |src|
    ensures i <= j <= |src|
    decreases |src| - i
  {
    if i < |src| && IsAlphaNumeric(src[i]) then IdentifierEnd(src, i + 1) else i
  }

  lemma {:induction false} IdentifierRun(src: string, i: nat)
    requires i <= |src|
    ensures forall k :: i <= k < IdentifierEnd(src, i) ==> IsAlphaNumeric(src[k])
    ensures IdentifierEnd(src, i) < |src| ==> !IsAlphaNumeric(src[IdentifierEnd(src, i)])
    decreases |src| - i
  {
    if i < |src| && IsAlphaNumeric(src[i]) {
      IdentifierRun(src, i + 1);
    }
  }

  function DigitsEnd(src: string, i: nat): (j: nat)
    requires i <= |src|
    ensures i <= j <= |src|
    decreases |src| - i
  {
    if i < |src| && IsDigit(src[i]) then DigitsEnd(src, i + 1) else i
  }

  lemma {:induction false} DigitsRun(src: string, i: nat)
    requires i <= |src|
    ensures forall k :: i <= k < DigitsEnd(src, i) ==> IsDigit(src[k])
    ensures DigitsEnd(src, i) < |src| ==> !IsDigit(src[DigitsEnd(src, i)])
    decreases |src| - i
  {
    if i < |src| && IsDigit(src[i]) {
      DigitsRun(src, i + 1);
    }
  }

  /**
   * Where a string body or a comment ends: the first position at or after i
   * that holds stop (a double quote for strings, a line break for comments),
   * or the end of the input.
   */
  function RunEnd(src: string, i: nat, stop: char): (j: nat)
    requires i <= |src|
    ensures i <= j <= |src|
    decreases |src| - i
  {
    if i < |src| && src[i] != stop then RunEnd(src, i + 1, stop) else i
  }

  lemma {:induction false} RunStops(src: string, i: nat, stop: char)
    requires i <= |src|
    ensures forall k :: i <= k < RunEnd(src, i, stop) ==> src[k] != stop
    ensures RunEnd(src, i, stop) < |src| ==> src[RunEnd(src, i, stop)] == stop
    decreases |src| - i
  {
    if i < |src| && src[i] != stop {
      RunStops(src, i + 1, stop);
    }
  }

  /** Where a number whose first digit is already consumed (i is just after it) ends: digits, then a fraction only if a digit follows the dot. */
  function NumberEnd(src: string, i: nat): nat
    requires i <= |src|
  {
    var j := DigitsEnd(src, i);
    if CharAt(src, j) == '.' && IsDigit(CharAt(src, j + 1)) then DigitsEnd(src, j + 1) else j
  }

  function DigitValue(c: char): nat
  {
    if IsDigit(c) then c as int - '0' as int else 0
  }

  /** The digits from i up to j read as a whole number. */
  function IntegerValue(src: string, i: nat, j: nat): nat
    requires i <= j <= |src|
    decreases j - i
  {
    if i == j then 0 else 10 * IntegerValue(src, i, j - 1) + DigitValue(src[j - 1])
  }

  /** The digits from i up to j read as the part after a decimal point. */
  function FractionAt(src: string, i: nat, j: nat): real
    requires i <= j <= |src|
    decreases j - i
  {
    if i == j then 0.0 else (DigitValue(src[i]) as real + FractionAt(src, i + 1, j)) / 10.0
  }

  /**
   * What `std::stod` reads from the number text between start and j: the
   * leading digits, plus the digits after the point if there is one. The
   * value is exact.
   */
  function NumberValue(src: string, start: nat, j: nat): real
    requires start <= j <= |src|
  {
    var d := DigitsEnd(src, start);
    if d < j then IntegerValue(src, start, d) as real + FractionAt(src, d + 1, j)
    else IntegerValue(src, start, j) as real
  }

  /** One scanning step: the tokens it emits (none or one), where the cursor ends, the line after it, and the errors it reports. */
  datatype Step = Step(tokens: seq<Token>, next: nat, line: nat, errors: seq<ErrorReport>)

  /**
   * What every scanning step guarantees: it consumes at least one character,
   * emits at most one token, and that token spans exactly the consumed text,
   * carries the step's line, is never END_OF_FILE and has a literal of the
   * right type; the line advances by the line breaks consumed.
   */
  predicate ValidStep(src: string, start: nat, line: nat, s: Step)
  {
    && start < s.next <= |src|
    && |s.tokens| <= 1
    && (s.tokens != [] ==>
          var t := s.tokens[0];
          t.lexeme == src[start..s.next] && t.line == s.line && t.kind != EndOfFile && WellFormedToken(t))
    && s.line == line + LineBreaks(src, start, s.next)
  }

  /** A token without a literal, spanning start to next. */
  function Emit(src: string, start: nat, next: nat, line: nat, kind: TokenType): (s: Step)
    requires start < next <= |src| && forall k :: start <= k < next ==> src[k] != '\n'
    requires kind !in {Number, String, EndOfFile}
    ensures ValidStep(src, start, line, s)
  {
    NoLineBreaks(src, start, next);
    Step([Token(kind, src[start..next], NoLiteral, line)], next, line, [])
  }

  /** A one- or two-character operator: the longer one when the next character is '='. */
  function EmitMatched(src: string, start: nat, line: nat, withEqual: TokenType, alone: TokenType): (s: Step)
    requires start < |src| && src[start] != '\n'
    requires withEqual !in {Number, String, EndOfFile} && alone !in {Number, String, EndOfFile}
    ensures ValidStep(src, start, line, s)
  {
    if CharAt(src, start + 1) == '=' then Emit(src, start, start + 2, line, withEqual)
    else Emit(src, start, start + 1, line, alone)
  }

  /** A slash: a comment running to the end of the line when another slash follows, otherwise the division operator. */
  function SlashStep(src: string, start: nat, line: nat): (s: Step)
    requires start < |src| && src[start] == '/'
    ensures ValidStep(src, start, line, s)
  {
    if CharAt(src, start + 1) == '/' then
      var j := RunEnd(src, start + 2, '\n');
      RunStops(src, start + 2, '\n');
      NoLineBreaks(src, start, j);
      Step([], j, line, [])
    else
      assert src[start..start + 1] == "/";
      Emit(src, start, start + 1, line, Slash)
  }

  /** Skipping one character that is not a line break: a blank, or an unexpected character reported as errors. */
  function SkipStep(src: string, start: nat, line: nat, errors: seq<ErrorReport>): (s: Step)
    requires start < |src| && src[start] != '\n'
    ensures ValidStep(src, start, line, s)
  {
    NoLineBreaks(src, start, start + 1);
    Step([], start + 1, line, errors)
  }

  function NewlineStep(src: string, start: nat, line: nat): (s: Step)
    requires start < |src| && src[start] == '\n'
    ensures ValidStep(src, start, line, s)
  {
    Step([], start + 1, line + 1, [])
  }

  /** An identifier or keyword starting at start. */
  function IdentifierStep(src: string, start: nat, line: nat): (s: Step)
    requires start < |src| && IsAlpha(src[start])
    ensures ValidStep(src, start, line, s)
  {
    var j := IdentifierEnd(src, start + 1);
    var text := src[start..j];
    IdentifierRun(src, start + 1);
    KeywordKinds(text);
    var kind := FindKeyword(ReservedWords, text);
    Emit(src, start, j, line, if kind.Some? then kind.value else Identifier)
  }

  /** A reserved word is never a literal kind. */
  lemma KeywordKinds(text: string)
    ensures FindKeyword(ReservedWords, text).Some? ==> IsKeyword(FindKeyword(ReservedWords, text).value)
  {
    KeywordTableKinds(ReservedWords, text);
  }

  lemma {:induction false} KeywordTableKinds(table: seq<(string, TokenType)>, word: string)
    requires forall i :: 0 <= i < |table| ==> IsKeyword(table[i].1)
    ensures FindKeyword(table, word).Some? ==> IsKeyword(FindKeyword(table, word).value)
  {
    if table != [] && table[0].0 != word {
      KeywordTableKinds(table[1..], word);
    }
  }

  /** A number whose first digit is at start. */
  function NumberStep(src: string, start: nat, line: nat): (s: Step)
    requires start < |src| && IsDigit(src[start])
    ensures ValidStep(src, start, line, s)
  {
    var j := NumberEnd(src, start + 1);
    NumberNoLineBreak(src, start);
    Step([Token(Number, src[start..j], NumberLiteral(Finite(NumberValue(src, start, j))), line)], j, line, [])
  }

  /** The number step spelled out from where its leading digits end (d) and where it ends (j). */
  lemma NumberStepShape(src: string, start: nat, line: nat, d: nat, j: nat)
    requires start < |src| && IsDigit(src[start])
    requires d == DigitsEnd(src, start + 1)
    requires j == if CharAt(src, d) == '.' && IsDigit(CharAt(src, d + 1)) then DigitsEnd(src, d + 1) else d
    ensures start < j <= |src|
    ensures NumberStep(src, start, line) == Step([Token(Number, src[start..j], NumberLiteral(Finite(NumberValue(src, start, j))), line)], j, line, [])
  {
  }

  lemma NumberNoLineBreak(src: string, start: nat)
    requires start < |src| && IsDigit(src[start])
    ensures LineBreaks(src, start, NumberEnd(src, start + 1)) == 0
  {
    var d := DigitsEnd(src, start + 1);
    var j := NumberEnd(src, start + 1);
    DigitsRun(src, start + 1);
    if j != d {
      DigitsRun(src, d + 1);
    }
    assert forall k :: start <= k < j ==> IsDigit(src[k]) || k == d;
    NoLineBreaks(src, start, j);
  }

  /** A string literal whose opening quote is at start; the line advances over breaks inside it. */
  function StringStep(src: string, start: nat, line: nat): (s: Step)
    requires start < |src| && src[start] == '"'
    ensures ValidStep(src, start, line, s)
  {
    var j := RunEnd(src, start + 1, '"');
    if j < |src| then ClosedString(src, start, line, j) else UnclosedString(src, start, line, j)
  }

  /** A string closed by the quote at j: one STRING token whose literal is the text between the quotes. */
  function ClosedString(src: string, start: nat, line: nat, j: nat): (s: Step)
    requires start < |src| && src[start] == '"' && j == RunEnd(src, start + 1, '"') < |src|
    ensures ValidStep(src, start, line, s)
  {
    var l := line + LineBreaks(src, start + 1, j);
    StringLines(src, start);
    ClosedStringStep(src, start, line, Token(String, src[start..j + 1], StringLiteral(src[start + 1..j]), l), j + 1, l)
  }

  /** A string that reaches the end of the input: no token, and the error names the line reached. */
  function UnclosedString(src: string, start: nat, line: nat, j: nat): (s: Step)
    requires start < |src| && src[start] == '"' && j == RunEnd(src, start + 1, '"') == |src|
    ensures ValidStep(src, start, line, s)
  {
    var l := line + LineBreaks(src, start + 1, j);
    StringLines(src, start);
    var s := Step([], j, l, [AtLine(l, "Unterminated string.")]);
    assert s.line == line + LineBreaks(src, start, s.next);
    s
  }

  /** The step of a closed string literal: its one token spans start to next. */
  function ClosedStringStep(src: string, start: nat, line: nat, t: Token, next: nat, l: nat): (s: Step)
    requires start < next <= |src| && l == line + LineBreaks(src, start, next)
    requires t.kind == String && t.literal.StringLiteral? && t.lexeme == src[start..next] && t.line == l
    ensures ValidStep(src, start, line, s)
  {
    Step([t], next, l, [])
  }

  /** The quotes of a string literal hold no line break, so only its body moves the line. */
  lemma StringLines(src: string, start: nat)
    requires start < |src| && src[start] == '"'
    ensures var j := RunEnd(src, start + 1, '"');
      LineBreaks(src, start, if j == |src| then j else j + 1) == LineBreaks(src, start + 1, j)
  {
    var j := RunEnd(src, start + 1, '"');
    RunStops(src, start + 1, '"');
    LineBreaksCons(src, start, if j == |src| then j else j + 1);
  }

  /** The kind of a character that is a token on its own, if it is one. */
  function SingleKind(c: char): Option<TokenType>
  {
    match c
    case '(' => Some(LeftParen) case ')' => Some(RightParen)
    case '{' => Some(LeftBrace) case '}' => Some(RightBrace)
    case ',' => Some(Comma) case '.' => Some(Dot) case '-' => Some(Minus)
    case '+' => Some(Plus) case ';' => Some(Semicolon) case '*' => Some(Star)
    case _ => None
  }

  /** For a character that may be followed by '=', the kinds with and without it. */
  function PairKinds(c: char): Option<(TokenType, TokenType)>
  {
    match c
    case '!' => Some((BangEqual, Bang)) case '=' => Some((EqualEqual, Equal))
    case '<' => Some((LessEqual, Less)) case '>' => Some((GreaterEqual, Greater))
    case _ => None
  }

  /**
   * The step `process_token` takes from start: a dispatch on the first
   * character, in the order the source tests them (the single-character
   * tokens and the one-or-two-character operators are grouped by a table).
   */
  function ScanToken(src: string, start: nat, line: nat): (s: Step)
    requires start < |src|
    ensures ValidStep(src, start, line, s)
  {
    var c := src[start];
    if SingleKind(c).Some? then Emit(src, start, start + 1, line, SingleKind(c).value)
    else if PairKinds(c).Some? then EmitMatched(src, start, line, PairKinds(c).value.0, PairKinds(c).value.1)
    else if c == '/' then SlashStep(src, start, line)
    else if c == ' ' || c == '\r' || c == '\t' then SkipStep(src, start, line, [])
    else if c == '\n' then NewlineStep(src, start, line)
    else if c == '"' then StringStep(src, start, line)
    else if IsDigit(c) then NumberStep(src, start, line)
    else if IsAlpha(c) then IdentifierStep(src, start, line)
    else SkipStep(src, start, line, [AtLine(line, "Unexpected character.")])
  }

  lemma {:induction false} NoLineBreaks(src: string, i: nat, j: nat)
    requires i <= j <= |src|
    requires forall k :: i <= k < j ==> src[k] != '\n'
    ensures LineBreaks(src, i, j) == 0
    decreases j - i
  {
    if i < j {
      NoLineBreaks(src, i, j - 1);
    }
  }

  lemma {:induction false} LineBreaksCons(src: string, i: nat, j: nat)
    requires i < j <= |src|
    ensures LineBreaks(src, i, j) == (if src[i] == '\n' then 1 else 0) + LineBreaks(src, i + 1, j)
    decreases j - i
  {
    if j > i + 1 {
      LineBreaksCons(src, i, j - 1);
    }
  }

  /** The tokens and errors of scanning from pos to the end of the input, and the line reached. */
  datatype Scanned = Scanned(tokens: seq<Token>, errors: seq<ErrorReport>, line: nat)

  /**
   * The scanning loop: from pos to the end of the input, step after step,
   * appending each step's tokens and errors to those gathered so far.
   */
  function ScanLoop(src: string, pos: nat, line: nat, tokens: seq<Token>, errors: seq<ErrorReport>): (r: Scanned)
    requires pos <= |src|
    ensures r.line == line + LineBreaks(src, pos, |src|)
    decreases |src| - pos
  {
    if pos == |src| then Scanned(tokens, errors, line)
    else
      var s := ScanToken(src, pos, line);
      LineBreaksSplit(src, pos, s.next, |src|);
      ScanLoop(src, s.next, s.line, tokens + s.tokens, errors + s.errors)
  }

  /** What scanning from pos yields on its own. */
  function ScanFrom(src: string, pos: nat, line: nat): Scanned
    requires pos <= |src|
  {
    ScanLoop(src, pos, line, [], [])
  }

  /** Scanning with tokens and errors already gathered only puts them in front. */
  lemma {:induction false} ScanLoopAccumulates(src: string, pos: nat, line: nat, tokens: seq<Token>, errors: seq<ErrorReport>)
    requires pos <= |src|
    ensures var r := ScanFrom(src, pos, line);
      ScanLoop(src, pos, line, tokens, errors) == Scanned(tokens + r.tokens, errors + r.errors, r.line)
    decreases |src| - pos
  {
    if pos == |src| {
      assert tokens + [] == tokens && errors + [] == errors;
    } else {
      var s := ScanToken(src, pos, line);
      ScanLoopAccumulates(src, s.next, s.line, tokens + s.tokens, errors + s.errors);
      ScanLoopAccumulates(src, s.next, s.line, s.tokens, s.errors);
      assert [] + s.tokens == s.tokens && [] + s.errors == s.errors;
      var r := ScanFrom(src, s.next, s.line);
      assert (tokens + s.tokens) + r.tokens == tokens + (s.tokens + r.tokens);
      assert (errors + s.errors) + r.errors == errors + (s.errors + r.errors);
    }
  }

  lemma {:induction false} LineBreaksSplit(src: string, i: nat, j: nat, k: nat)
    requires i <= j <= k <= |src|
    ensures LineBreaks(src, i, k) == LineBreaks(src, i, j) + LineBreaks(src, j, k)
    decreases k - j
  {
    if j < k {
      LineBreaksSplit(src, i, j, k - 1);
    }
  }

  /** `scanTokens` on a fresh lexer: everything scanned, then the end-of-file token on the last line. */
  function Scan(src: string): (r: Scanned)
    ensures r.tokens != [] && r.line == 1 + LineBreaks(src, 0, |src|)
    ensures r.tokens[|r.tokens| - 1] == Token(EndOfFile, "", NoLiteral, r.line)
  {
    var r := ScanFrom(src, 0, 1);
    Scanned(r.tokens + [Token(EndOfFile, "", NoLiteral, r.line)], r.errors, r.line)
  }

  /** The scanner. The fields are the input text, the token list it appends to, and the cursor. */
  class Lexer {
    const input: string
    var tokens: seq<Token>
    var start: nat
    var current: nat
    var line: nat
    /** Where lexical errors are reported (the source's global error state). */
    const diag: Diagnostics

    ghost predicate Valid()
      reads this`start, this`current
    {
      start <= current <= |input|
    }

    constructor (source: string, diagnostics: Diagnostics)
      ensures Valid() && input == source && diag == diagnostics
      ensures tokens == [] && start == 0 && current == 0 && line == 1
    {
      input := source;
      diag := diagnostics;
      tokens := [];
      start, current, line := 0, 0, 1;
    }

    /** The state change of one step taken from the current token start. */
    twostate predicate Took(s: Step)
      reads this, diag
    {
      && tokens == old(tokens) + s.tokens
      && current == s.next && line == s.line && start == old(start)
      && Reported(diag, s.errors)
    }

    predicate IsEnd()
      reads this`current
      ensures IsEnd() ==> CharAt(input, current) == '\0' && CharAt(input, current + 1) == '\0'
    {
      current >= |input|
    }

    function Peek(): (c: char)
      reads this`current
      ensures c == CharAt(input, current)
    {
      if IsEnd() then '\0' else input[current]
    }

    function PeekNext(): (c: char)
      reads this`current
      ensures c == CharAt(input, current + 1)
    {
      if current + 1 >= |input| then '\0' else input[current + 1]
    }

    method Advance() returns (c: char)
      requires Valid() && current < |input|
      modifies this`current
      ensures Valid() && c == input[old(current)] && current == old(current) + 1
    {
      c := input[current];
      current := current + 1;
    }

    /** Consume the next character only if it is the expected one. */
    method Match(expected: char) returns (matched: bool)
      requires Valid()
      modifies this`current
      ensures Valid()
      ensures matched == (old(current) < |input| && input[old(current)] == expected)
      ensures current == if matched then old(current) + 1 else old(current)
    {
      if IsEnd() || input[current] != expected {
        return false;
      }
      current := current + 1;
      return true;
    }

    /** Append a token whose lexeme is the text between start and the cursor. */
    method EmitToken(kind: TokenType, literal: TokenValue)
      requires Valid()
      modifies this`tokens
      ensures tokens == old(tokens) + [Token(kind, input[start..current], literal, line)]
    {
      tokens := tokens + [Token(kind, input[start..current], literal, line)];
    }

    method ProcessIdentifier()
      requires Valid() && start < |input| && current == start + 1 && IsAlpha(input[start])
      modifies this`current, this`tokens
      ensures Valid() && Took(IdentifierStep(input, old(start), old(line)))
    {
      while IsAlphaNumeric(Peek())
        invariant Valid() && tokens == old(tokens)
        invariant start < current && IdentifierEnd(input, current) == IdentifierEnd(input, start + 1)
        decreases |input| - current
      {
        var _ := Advance();
      }
      var text := input[start..current];
      var keyword := FindKeyword(ReservedWords, text);
      if keyword.Some? {
        EmitToken(keyword.value, NoLiteral);
      } else {
        EmitToken(Identifier, NoLiteral);
      }
    }

    /** Advance over a run of digits. */
    method SkipDigits()
      requires Valid()
      modifies this`current
      ensures Valid() && current == DigitsEnd(input, old(current))
    {
      ghost var from := current;
      while IsDigit(Peek())
        invariant Valid() && from <= current && DigitsEnd(input, current) == DigitsEnd(input, from)
        decreases |input| - current
      {
        var _ := Advance();
      }
    }

    method ProcessNumber()
      requires Valid() && start < |input| && current == start + 1 && IsDigit(input[start])
      modifies this`current, this`tokens
      ensures Valid() && Took(NumberStep(input, old(start), old(line)))
    {
      SkipDigits();
      ghost var d := current;
      assert Peek() == CharAt(input, d) && PeekNext() == CharAt(input, d + 1);
      if Peek() == '.' && IsDigit(PeekNext()) {
        var _ := Advance();
        SkipDigits();
      }
      NumberStepShape(input, start, line, d, current);
      EmitToken(Number, NumberLiteral(Finite(NumberValue(input, start, current))));
    }

    method ProcessString()
      requires Valid() && start < |input| && current == start + 1 && input[start] == '"'
      modifies this`current, this`tokens, this`line, diag
      ensures Valid() && Took(StringStep(input, old(start), old(line)))
    {
      ghost var step := StringStep(input, start, line);
      SkipStringBody();
      if IsEnd() {
        assert step == Step([], current, line, [AtLine(line, "Unterminated string.")]);
        diag.ErrorAtLine(line, "Unterminated string.");
        return;
      }
      ghost var j := current;
      assert step == Step([Token(String, input[start..j + 1], StringLiteral(input[start + 1..j]), line)], j + 1, line, []);
      var _ := Advance();
      var value := input[start + 1..current - 1];
      EmitToken(String, StringLiteral(value));
    }

    /** Advance to the closing quote or the end of input, counting the line breaks passed. */
    method SkipStringBody()
      requires Valid()
      modifies this`current, this`line
      ensures Valid() && current == RunEnd(input, old(current), '"')
      ensures line == old(line) + LineBreaks(input, old(current), current)
    {
      ghost var from := current;
      while Peek() != '"' && !IsEnd()
        invariant Valid() && from <= current && RunEnd(input, current, '"') == RunEnd(input, from, '"')
        invariant line == old(line) + LineBreaks(input, from, current)
        decreases |input| - current
      {
        if Peek() == '\n' {
          line := line + 1;
        }
        var _ := Advance();
      }
    }

    /** Advance to the end of the line: the rest of a `//` comment. */
    method SkipComment()
      requires Valid()
      modifies this`current
      ensures Valid() && current == RunEnd(input, old(current), '\n')
    {
      ghost var from := current;
      while Peek() != '\n' && !IsEnd()
        invariant Valid() && from <= current && RunEnd(input, current, '\n') == RunEnd(input, from, '\n')
        decreases |input| - current
      {
        var _ := Advance();
      }
    }

    /** Scan one token (or skip one piece of whitespace or comment) from the current start. */
    method ProcessToken()
      requires Valid() && start < |input| && current == start
      modifies this`current, this`tokens, this`line, diag
      ensures Valid() && Took(ScanToken(input, old(start), old(line)))
    {
      ghost var step := ScanToken(input, start, line);
      var c := Advance();
      var single := SingleKind(c);
      var pair := PairKinds(c);
      if single.Some? {
        EmitToken(single.value, NoLiteral);
      } else if pair.Some? {
        var m := Match('=');
        EmitToken(if m then pair.value.0 else pair.value.1, NoLiteral);
      } else if c == '/' {
        var m := Match('/');
        if m {
          SkipComment();
        } else {
          EmitToken(Slash, NoLiteral);
        }
      } else if c == ' ' || c == '\r' || c == '\t' {
      } else if c == '\n' {
        line := line + 1;
      } else if c == '"' {
        ProcessString();
      } else if IsDigit(c) {
        ProcessNumber();
      } else if IsAlpha(c) {
        ProcessIdentifier();
      } else {
        diag.ErrorAtLine(line, "Unexpected character.");
      }
    }

    /** `scanTokens`: scan to the end of the input, then append the end-of-file token. */
    method ScanTokens() returns (result: seq<Token>)
      requires Valid()
      modifies this`tokens, this`start, this`current, this`line, diag
      ensures Valid() && current == |input|
      ensures var r := ScanFrom(input, old(current), old(line));
        && result == tokens
        && tokens == old(tokens) + r.tokens + [Token(EndOfFile, "", NoLiteral, r.line)]
        && line == r.line
        && Reported(diag, r.errors)
    {
      ghost var final := ScanLoop(input, current, line, tokens, diag.reports);
      while !IsEnd()
        invariant Valid()
        invariant ScanLoop(input, current, line, tokens, diag.reports) == final
        invariant |old(diag.reports)| <= |diag.reports|
        invariant diag.hadError == (old(diag.hadError) || |diag.reports| > |old(diag.reports)|)
        invariant diag.hadRuntimeError == old(diag.hadRuntimeError)
        decreases |input| - current
      {
        start := current;
        ProcessToken();
      }
      ScanLoopAccumulates(input, old(current), old(line), old(tokens), old(diag.reports));
      tokens := tokens + [Token(EndOfFile, "", NoLiteral, line)];
      result := tokens;
    }
  }
}
