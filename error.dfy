/**
 * Diagnostics: the text of compile-time and runtime error reports, and the
 * process-wide error stream with its two sticky flags.
 */
module Errors {
  import opened Wrappers
  import opened Text
  import opened TokenTypes
  import opened Tokens

  /** A runtime fault: the token it is blamed on and its message. */
  datatype RuntimeError = RuntimeError(token: Token, message: string)

  /**
   * One entry on the error stream: a compile-time error (its line, the
   * context naming where on the line, and the message) or a runtime fault.
   */
  datatype ErrorReport =
    | SyntaxError(line: nat, context: string, message: string)
    | RuntimeReport(error: RuntimeError)

  /** Where a token-level error is: " at end" for END_OF_FILE, otherwise the lexeme in quotes. */
  function TokenContext(t: Token): (context: string)
    ensures t.kind == EndOfFile ==> context == " at end"
    ensures t.kind != EndOfFile ==> context == " at '" + t.lexeme + "'"
  {
    if t.kind == EndOfFile then " at end" else " at '" + t.lexeme + "'"
  }

  /** The report `error(token, msg)` makes. */
  function AtToken(t: Token, message: string): ErrorReport
  {
    SyntaxError(t.line, TokenContext(t), message)
  }

  /** The report `error(line, msg)` makes: no context. */
  function AtLine(line: nat, message: string): ErrorReport
  {
    SyntaxError(line, "", message)
  }

  /** The line `report` writes. */
  function ReportText(line: nat, context: string, message: string): string
  {
    "[line " + NatToString(line) + "] Error" + context + ": " + message + "\n"
  }

  /** The text an entry puts on the error stream. */
  function Render(r: ErrorReport): string
  {
    match r
    case SyntaxError(l, c, m) => ReportText(l, c, m)
    case RuntimeReport(e) => RuntimeErrorText(e)
  }

  /** The whole error stream, one text per entry, in order. */
  function RenderAll(rs: seq<ErrorReport>): (lines: seq<string>)
    ensures |lines| == |rs|
  {
    if rs == [] then [] else [Render(rs[0])] + RenderAll(rs[1..])
  }

  lemma {:induction false} RenderAllAt(rs: seq<ErrorReport>, i: nat)
    requires i < |rs|
    ensures RenderAll(rs)[i] == Render(rs[i])
  {
    if i > 0 {
      RenderAllAt(rs[1..], i - 1);
    }
  }

  lemma {:induction false} RenderAllAppend(a: seq<ErrorReport>, b: seq<ErrorReport>)
    ensures RenderAll(a + b) == RenderAll(a) + RenderAll(b)
  {
    if a == [] {
      assert a + b == b;
    } else {
      assert (a + b)[1..] == a[1..] + b;
      RenderAllAppend(a[1..], b);
    }
  }

  /** The text `runtime_error` writes: the message, then the line of the blamed token. */
  function RuntimeErrorText(e: RuntimeError): string
  {
    e.message + "\n" + "[line " + NatToString(e.token.line) + "]\n"
  }

  /** Reads the line number back out of a text that starts with "[line N]". */
  function LineOf(text: string): Option<nat>
  {
    if |text| >= 6 && text[..6] == "[line " then
      var rest := text[6..];
      var k := LeadingDigits(rest);
      if 0 < k < |rest| && rest[k] == ']' then Some(DigitsValue(rest[..k])) else None
    else None
  }

  lemma LineOfBracketed(n: nat, tail: string)
    ensures LineOf("[line " + NatToString(n) + "]" + tail) == Some(n)
  {
    var digits := NatToString(n);
    var text := "[line " + digits + "]" + tail;
    assert text[..6] == "[line ";
    assert text[6..] == digits + ("]" + tail);
    LeadingDigitsOfDigitsThen(digits, "]" + tail);
    assert text[6..][..|digits|] == digits;
    DigitsValueOfNatToString(n);
  }

  /** A report can be read back: its line number, and its message just before the final newline. */
  lemma ReportTextFields(line: nat, context: string, message: string)
    ensures var text := ReportText(line, context, message);
      && LineOf(text) == Some(line)
      && |text| > |message|
      && text[|text| - 1 - |message|..] == message + "\n"
  {
    var tail := " Error" + context + ": " + message + "\n";
    assert ReportText(line, context, message) == "[line " + NatToString(line) + "]" + tail;
    LineOfBracketed(line, tail);
  }

  /** A runtime report starts with the message and ends with the line of the blamed token. */
  lemma RuntimeErrorTextFields(e: RuntimeError)
    ensures var text := RuntimeErrorText(e);
      && text[..|e.message|] == e.message
      && text[|e.message|] == '\n'
      && LineOf(text[|e.message| + 1..]) == Some(e.token.line)
  {
    var text := RuntimeErrorText(e);
    assert text[|e.message| + 1..] == "[line " + NatToString(e.token.line) + "]" + "\n";
    LineOfBracketed(e.token.line, "\n");
  }

  /**
   * The error stream and the two sticky flags, shared by the lexer, the
   * parser and the interpreter. The stream is kept as its entries; its text
   * is Log().
   */
  class Diagnostics {
    var reports: seq<ErrorReport>
    var hadError: bool
    var hadRuntimeError: bool

    constructor ()
      ensures reports == [] && !hadError && !hadRuntimeError
    {
      reports, hadError, hadRuntimeError := [], false, false;
    }

    /** Everything written to the error stream. */
    function Log(): seq<string>
      reads this
    {
      RenderAll(reports)
    }

    /** `report`: write one compile-time report and set the error flag. */
    method Report(line: nat, context: string, message: string)
      modifies this
      ensures reports == old(reports) + [SyntaxError(line, context, message)]
      ensures hadError && hadRuntimeError == old(hadRuntimeError)
    {
      reports := reports + [SyntaxError(line, context, message)];
      hadError := true;
    }

    /** `error(token, msg)`: report with the token's context. */
    method ErrorAt(token: Token, message: string)
      modifies this
      ensures Reported(this, [AtToken(token, message)])
    {
      Report(token.line, TokenContext(token), message);
    }

    /** `error(line, msg)`: report with an empty context. */
    method ErrorAtLine(line: nat, message: string)
      modifies this
      ensures Reported(this, [AtLine(line, message)])
    {
      Report(line, "", message);
    }

    /** `runtime_error`: write a runtime report and set the runtime flag, leaving the other flag alone. */
    method ReportRuntimeError(e: RuntimeError)
      modifies this
      ensures reports == old(reports) + [RuntimeReport(e)]
      ensures hadRuntimeError && hadError == old(hadError)
    {
      reports := reports + [RuntimeReport(e)];
      hadRuntimeError := true;
    }
  }

  /** Between the two states, exactly the compile-time reports rs were written (the flag is set when there is one). */
  twostate predicate Reported(d: Diagnostics, rs: seq<ErrorReport>)
    reads d
  {
    && d.reports == old(d.reports) + rs
    && d.hadError == (old(d.hadError) || rs != [])
    && d.hadRuntimeError == old(d.hadRuntimeError)
  }
}
