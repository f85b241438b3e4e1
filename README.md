# prism in Dafny

prism is a tree-walking interpreter for a small dynamically typed scripting
language in the Lox family.
Its core is written as C++ headers:

- a lexer turns source text into tokens;
- a recursive-descent parser turns tokens into expression trees;
- an interpreter evaluates expressions and executes statements over a chain of
  nested environments;
- a small error module prints diagnostics and sets two global flags.

This project models that core and proves properties of the model.

| module | file | models |
|---|---|---|
| `TokenTypes` | token_type.dfy | the `TokenType` enumeration and its name table |
| `Tokens` | token.dfy | the `Token` record and its printable form |
| `Errors` | error.dfy | `report`, both `error` overloads, `runtime_error` and the two flags (class `Diagnostics`) |
| `Text` | text.dfy | decimal rendering of line numbers |
| `Numbers` | numbers.dfy | the `double` values the language computes with (finite, ±infinity, NaN) |
| `Environments` | environment.dfy | scope chains as values, and class `Environment` over linked scopes |
| `Exprs`, `Stmts` | expr.dfy, stmt.dfy | the syntax trees |
| `Lexers` | lexer.dfy | one pure step function per branch of `process_token`, and class `Lexer` that proves its methods against them |
| `LexerFacts` | lexer_facts.dfy | what a scan produces: numbers, strings, comments, keywords, end of file |
| `Parsers` | parser.dfy | one pure function per grammar rule, and class `Parser` that proves its methods against them |
| `ParserFacts` | parser_facts.dfy | precedence, associativity, assignment targets, error messages, recovery |
| `Interpreters` | interpreter.dfy | `EvalExpr`/`Exec` as the meaning of programs, and class `Interpreter` whose visitors are proved to match them |
| `InterpreterFacts` | interpreter_facts.dfy | truthiness, equality, operand checks, short-circuiting, scoping, output, loops |

The stateful classes (`Lexer`, `Parser`, `Interpreter`, `Environment`,
`Diagnostics`) keep the fields that the source mutates.
Each of their methods is specified by a pure function of the old state.
The properties of the language are proved about those functions.

## Model

| member | source | states |
|---|---|---|
| TokenTypes.Ordinal | token_type.h:10-62 | every token kind has a position below the table size (39 kinds) |
| TokenTypes.OrdinalRoundTrip | token_type.h:10-62 | the position of a kind determines the kind: reading the enumeration at a kind's position gives it back |
| TokenTypes.OrdinalInjective | token_type.h:10-62 | distinct kinds have distinct positions |
| TokenTypes.KeywordsContiguous | token_type.h:42-61 | the keywords are exactly the kinds from AND to WHILE, and END_OF_FILE is the last kind |
| TokenTypes.NameLookupInBounds | token_type.h:70-98 | indexing the 40-entry name table by a kind's position stays in bounds |
| TokenTypes.NameIsDeclaredName | token_type.h:70-102 | `to_string` gives each kind's declared enumerator name |
| TokenTypes.NamesNonEmpty | token_type.h:73-98 | every kind has a non-empty name; the unused 40th table entry is empty |
| Tokens.LiteralString | token.h:18-45 | identifiers show their lexeme, strings their text, numbers their rendering, true/false their word, every other kind "nil" |
| Tokens.ToStringFields | token.h:64-72 | a token prints as kind name, space, lexeme, space, literal; each field can be cut back out of the text by position, for any lexeme (a STRING lexeme may hold spaces), and the name ends at the first space |
| Tokens.NameHasNoSpace | token_type.h:76-98 | no kind name contains a space, so the first field of a printed token ends at the first space |
| Errors.TokenContext | error.h:44-55 | the context is " at end" for END_OF_FILE and " at '<lexeme>'" otherwise |
| Errors.RenderAllAt | error.h:21-34 | the i-th stderr line is the rendering of the i-th report |
| Errors.RenderAllAppend | error.h:21-34 | stderr output is the concatenation of the reports in order |
| Errors.ReportTextFields | error.h:26-27 | a syntax error text starts with the line number in brackets and ends with the message and a line break |
| Errors.RuntimeErrorTextFields | error.h:81-83 | a runtime error text is the message, a line break, then "[line N]" with the token's line |
| Errors.LineOfBracketed | error.h:26 | the line number can be read back from "[line N]" |
| Errors.Diagnostics.constructor | error.h:11-12 | no reports and both flags clear at start |
| Errors.Diagnostics.Report | error.h:21-34 | appends one syntax report and sets `had_error`; `had_runtime_error` is unchanged |
| Errors.Diagnostics.ErrorAt | error.h:42-59 | reports the token's line with its context |
| Errors.Diagnostics.ErrorAtLine | error.h:67-71 | reports the line with an empty context |
| Errors.Diagnostics.ReportRuntimeError | error.h:78-89 | appends the runtime report and sets `had_runtime_error`; `had_error` is unchanged |
| Text.NatToString | error.h:26 | a line number renders as a non-empty digit string, with more than one digit exactly from 10 on |
| Text.DigitsValueOfNatToString | error.h:26 | reading the rendered digits back gives the number |
| Text.NatToStringInjective | error.h:26 | distinct line numbers render differently |
| Numbers.Neg | interpreter.h:458-461 | negation keeps NaN, gives -a for a finite a and swaps the two infinities |
| Numbers.NegInvolutive | interpreter.h:458-461 | negating twice gives the number back |
| Numbers.Add | interpreter.h:378-380 | exact sum on finite operands; NaN in gives NaN out |
| Numbers.Mul | interpreter.h:372-374 | exact product on finite operands; NaN in gives NaN out |
| Numbers.Div | interpreter.h:368-370 | exact quotient for a non-zero divisor; 0/0 and NaN give NaN |
| Numbers.DivisionByZero | interpreter.h:368-370 | a non-zero number divided by zero is the infinity of its sign |
| Numbers.Trichotomy | interpreter.h:340-354 | every comparison with NaN is false; otherwise exactly one of <, ==, > holds |
| Environments.Depth | environment.h:54-75 | the search walks outward to the first scope that binds the name |
| Environments.Lookup | environment.h:54-75 | `get` succeeds exactly when some scope binds the name and returns the innermost binding; otherwise "Undefined variable '<name>'." |
| Environments.AssignIn | environment.h:83-106 | `assign` succeeds exactly when some scope binds the name and rewrites only the innermost binding; otherwise "Cannot assign to undefined variable '<name>'." |
| Environments.DefineThenLookup | environment.h:113-117 | after `define`, `get` of that name returns the defined value |
| Environments.DefineKeepsOtherNames | environment.h:113-117 | `define` leaves every other name's lookup unchanged |
| Environments.AssignKeepsNames | environment.h:83-106 | `assign` changes the values of the scopes, never their names |
| Environments.AssignThenLookup | environment.h:83-106 | after `assign`, `get` of that name returns the new value and other names are unchanged |
| Environments.Environment.Scopes | environment.h:18-25 | the chain starts with the environment's own scope |
| Environments.Environment.constructor | environment.h:34-37 | a global environment with no parent and one empty scope |
| Environments.Environment.Enclosed | environment.h:43-46 | a new empty scope in front of the enclosing chain |
| Environments.Environment.Get | environment.h:54-75 | the method returns `Lookup` of the chain |
| Environments.Environment.Assign | environment.h:83-106 | the method updates the linked chain exactly as `AssignIn`, or fails and changes nothing |
| Environments.Environment.Define | environment.h:113-117 | the method binds the name in the innermost scope only, as `DefineIn` |
| Lexers.IsAlpha | lexer.h:32-35 | a letter or '_' is an ASCII character and never a digit |
| Lexers.IsAlphaNumeric | lexer.h:42-45 | a character that continues an identifier is ASCII and begins no other kind of token: no single- or two-character operator, no '/', blank, line break or quote |
| Lexers.IdentifierEnd | lexer.h:87-88 | the identifier loop stops inside the input |
| Lexers.IdentifierRun | lexer.h:87-88 | an identifier is the longest run of letters, digits and underscores |
| Lexers.DigitsEnd | lexer.h:107-108 | the digit loop stops inside the input |
| Lexers.DigitsRun | lexer.h:107-108 | the loop consumes the longest run of digits |
| Lexers.RunEnd | lexer.h:128-133 | the string loop (and the comment loop at lines 192-193, with a line break as the stop) stops inside the input |
| Lexers.RunStops | lexer.h:192-193 | the comment loop stops at the first line break, the string loop at lines 128-133 at the first double quote, or either at end of input |
| Lexers.Emit | lexer.h:72-81 | a valid step: at most one well-formed token, lexeme the consumed text, line unchanged over text without breaks (the exact step is `LexerFacts.SingleCharacterToken`) |
| Lexers.EmitMatched | lexer.h:177-184 | `!`, `=`, `<`, `>` take a following `=` into one two-character token |
| Lexers.SlashStep | lexer.h:187-199 | `//` skips the rest of the line; a lone `/` is SLASH |
| Lexers.SkipStep | lexer.h:202-205 | a valid step over a character that is not a line break (the exact step is `LexerFacts.BlankSkipped` and `LexerFacts.UnexpectedCharacter`) |
| Lexers.NewlineStep | lexer.h:208-211 | a valid step over the line break, whose line counts it (the exact step is `LexerFacts.NewlineCounted`) |
| Lexers.IdentifierStep | lexer.h:84-102 | an identifier step is a valid step that emits one token |
| Lexers.KeywordKinds | lexer.h:256-273 | every kind in the reserved-word table is a keyword |
| Lexers.NumberStep | lexer.h:104-123 | a number step is a valid step that emits one NUMBER token |
| Lexers.StringStep | lexer.h:125-148 | a string step is a valid step; its line advances by the breaks inside the string |
| Lexers.ScanToken | lexer.h:150-232 | each step consumes at least one character, emits at most one well-formed non-EOF token whose lexeme is the consumed text, and advances the line by the breaks consumed |
| Lexers.ScanLoop | lexer.h:239-252 | after a full scan the line is the start line plus the line breaks in the input |
| Lexers.ScanLoopAccumulates | lexer.h:239-252 | scanning with accumulated tokens and errors appends to them |
| Lexers.Scan | lexer.h:239-252 | the token list is never empty and ends with END_OF_FILE, with an empty lexeme and no literal, on line 1 plus the input's line breaks |
| Lexers.Lexer.constructor | lexer.h:236 | an empty token list at position 0, line 1 |
| Lexers.Lexer.IsEnd | lexer.h:27-30 | at the end of the input both lookaheads read the sentinel '\0' |
| Lexers.Lexer.Peek | lexer.h:53-56 | the character at the cursor, or '\0' past the end (`CharAt`, the lookahead the step functions use) |
| Lexers.Lexer.PeekNext | lexer.h:58-61 | the character after the cursor, or '\0' past the end (`CharAt` one place on) |
| Lexers.Lexer.Advance | lexer.h:48-51 | returns the current character and moves one place |
| Lexers.Lexer.Match | lexer.h:63-69 | consumes the expected character exactly when it is next |
| Lexers.Lexer.EmitToken | lexer.h:72-81 | appends the token for the text from `start` to `current` |
| Lexers.Lexer.ProcessIdentifier | lexer.h:84-102 | performs exactly `IdentifierStep` |
| Lexers.Lexer.SkipDigits | lexer.h:107-108 | moves to `DigitsEnd` |
| Lexers.Lexer.ProcessNumber | lexer.h:104-123 | performs exactly `NumberStep` |
| Lexers.Lexer.ProcessString | lexer.h:125-148 | performs exactly `StringStep`, including its error report |
| Lexers.Lexer.SkipComment | lexer.h:192-193 | moves to `RunEnd` with a line break as the stop |
| Lexers.Lexer.SkipStringBody | lexer.h:128-133 | moves to `RunEnd` with a double quote as the stop, counting every line break it passes |
| Lexers.Lexer.ProcessToken | lexer.h:150-232 | performs exactly `ScanToken`: its tokens, position, line and reports |
| Lexers.Lexer.ScanTokens | lexer.h:239-252 | the tokens are the scan of the rest of the input followed by END_OF_FILE on the last line, and exactly the scan's errors are reported |
| LexerFacts.IntegerLexeme | lexer.h:104-123 | a digits-only lexeme denotes its decimal value |
| LexerFacts.FractionLexeme | lexer.h:110-123 | a lexeme with a fraction denotes its decimal value |
| LexerFacts.NumberLiteralValue | lexer.h:104-123 | a NUMBER token's literal is the decimal value its lexeme denotes |
| LexerFacts.NumberWithoutFraction | lexer.h:110-119 | a dot not followed by a digit is not part of the number |
| LexerFacts.NumberThenDot | lexer.h:110-119 | "1." scans as NUMBER, DOT, END_OF_FILE |
| LexerFacts.ScanDigit | lexer.h:220-223 | a digit starts a number |
| LexerFacts.TwoCharacterOperator | lexer.h:177-184 | `!`, `=`, `<`, `>` give the two-character kind when `=` follows and the one-character kind otherwise |
| LexerFacts.CommentSkipsLine | lexer.h:190-194 | `//` skips to the line break, emitting nothing |
| LexerFacts.LoneSlash | lexer.h:196-198 | a single `/` is SLASH |
| LexerFacts.TerminatedString | lexer.h:125-148 | a closed string gives one STRING whose literal is the text between the quotes and counts its line breaks |
| LexerFacts.UnterminatedString | lexer.h:136-140 | an unclosed string reports "Unterminated string." on the last line and emits nothing |
| LexerFacts.SingleCharacterToken | lexer.h:155-174 | each of the ten single-character kinds is exactly one token of that kind, one character long, on the current line, with no report |
| LexerFacts.BlankSkipped | lexer.h:201-205 | a space, carriage return or tab is skipped: one character, no token, no report, same line |
| LexerFacts.NewlineCounted | lexer.h:207-211 | a line break is skipped and raises the line by exactly one |
| LexerFacts.UnexpectedCharacter | lexer.h:228-231 | any other character reports "Unexpected character." and is skipped |
| LexerFacts.UnterminatedStringEndsScan | lexer.h:136-140 | an unclosed string ends the scan with that one error |
| LexerFacts.UnexpectedCharacterContinues | lexer.h:228-231 | scanning continues after an unexpected character |
| LexerFacts.KeywordFound | lexer.h:256-273 | each keyword's text is found in the reserved-word table |
| LexerFacts.KeywordOrIdentifier | lexer.h:92-101 | a reserved word becomes its keyword kind; any other word becomes IDENTIFIER |
| LexerFacts.ScanAlpha | lexer.h:224-227 | a letter or underscore starts an identifier |
| LexerFacts.IdentifierMaximalMunch | lexer.h:87-88 | identifiers are maximal |
| LexerFacts.ScanLoopEmits | lexer.h:239-249 | the scan loop emits only well-formed non-EOF tokens |
| LexerFacts.ScanEndsWithEndOfFile | lexer.h:239-252 | a whole scan ends with exactly one END_OF_FILE, on the last line |
| Parsers.AdvanceAt | parser.h:523-530 | the cursor never moves past the END_OF_FILE token |
| Parsers.LiteralValue | parser.h:430-455 | a literal in the tree is never the empty value |
| Parsers.ExpressionAt | parser.h:279-282 | the parse only moves forward and builds well-formed trees |
| Parsers.AssignmentAt | parser.h:287-308 | the parse only moves forward and builds well-formed trees |
| Parsers.LevelAt | parser.h:313-410 | each binary level only moves forward and builds well-formed trees |
| Parsers.OperandAt | parser.h:313-410 | an operand is parsed one level tighter |
| Parsers.LevelLoop | parser.h:313-410 | the operator loop keeps the tree well-formed |
| Parsers.UnaryAt | parser.h:415-425 | the parse only moves forward and builds well-formed trees |
| Parsers.PrimaryAt | parser.h:430-471 | the parse only moves forward and builds well-formed trees |
| Parsers.RecoverLoop | parser.h:568-597 | recovery stops on a token of the list |
| Parsers.Parser.constructor | parser.h:37-40 | the cursor starts at 0 |
| Parsers.Parser.Peek | parser.h:543-546 | the token at the cursor, which is END_OF_FILE at the last position |
| Parsers.Parser.Previous | parser.h:551-554 | the token just before the cursor; every caller has moved past the first token (see Left out) |
| Parsers.Parser.IsAtEnd | parser.h:535-538 | true exactly on END_OF_FILE, as `AtEnd` |
| Parsers.Parser.CheckKind | parser.h:511-518 | `Check`: the kind matches, and never at the end |
| Parsers.Parser.Advance | parser.h:523-530 | moves as `AdvanceAt` and returns the token passed |
| Parsers.Parser.Match | parser.h:480-492 | consumes one token exactly when its kind is in the set |
| Parsers.Parser.Consume | parser.h:498-506 | consumes the expected token, or reports the message at the current token and moves nowhere |
| Parsers.Parser.Parse | parser.h:59-69 | returns the tree, position and reports of `ExpressionAt` |
| Parsers.Parser.Expression | parser.h:279-282 | matches `ExpressionAt` |
| Parsers.Parser.Assignment | parser.h:287-308 | matches `AssignmentAt` |
| Parsers.Parser.Level | parser.h:313-410 | matches `LevelAt` for each of the six binary levels |
| Parsers.Parser.Operand | parser.h:313-410 | matches `OperandAt` |
| Parsers.Parser.Unary | parser.h:415-425 | matches `UnaryAt` |
| Parsers.Parser.Primary | parser.h:430-471 | matches `PrimaryAt` |
| Parsers.Parser.RecoverFromError | parser.h:568-597 | moves as `RecoverAt` |
| ParserFacts.Precedence | parser.h:313-410 | each kind has at most one binary level |
| ParserFacts.OperatorsByPrecedence | parser.h:313-410 | a kind is an operator of level n exactly when its precedence is n |
| ParserFacts.MatchByPrecedence | parser.h:480-492 | matching a level's operators is testing the precedence |
| ParserFacts.LevelNoOperator | parser.h:381-393 | with no operator of the level, the level is its operand |
| ParserFacts.LevelOneOperator | parser.h:381-393 | one operator combines two operands |
| ParserFacts.LevelTwoOperators | parser.h:381-393 | two operators of one level group to the left |
| ParserFacts.Lift | parser.h:313-410 | a looser level passes a tighter one's result through when no operator lies in between |
| ParserFacts.OperandVariable | parser.h:430-471 | an identifier is a variable |
| ParserFacts.LevelVariable | parser.h:313-471 | a lone identifier parses to a variable at every level |
| ParserFacts.NoAssignment | parser.h:287-308 | without `=` the expression is the `or` level |
| ParserFacts.TighterSecondOperator | parser.h:313-410 | `a op1 b op2 c` groups as `a op1 (b op2 c)` when op2 binds tighter |
| ParserFacts.SameLevelOperators | parser.h:313-410 | operators of one level associate to the left |
| ParserFacts.LooserSecondOperator | parser.h:313-410 | `a op1 b op2 c` groups as `(a op1 b) op2 c` when op2 binds looser |
| ParserFacts.PrecedenceAndAssociativity | parser.h:313-410 | the grouping of any two binary operators follows precedence, with left association on ties |
| ParserFacts.AssignmentRightAssociative | parser.h:287-308 | `a = b = c` is `a = (b = c)` |
| ParserFacts.InvalidAssignmentTarget | parser.h:296-306 | `a + b = c` reports "Invalid assignment target." at `=` and keeps the left side |
| ParserFacts.EqualNotLast | parser.h:291-294 | the '=' of an assignment is never the last token, so a right side follows it |
| ParserFacts.AssignToVariable | parser.h:289-301 | for any input, an or-level that is a variable, followed by '=' and an expression, parses as `Assign` of that name and the whole right-hand expression, with the cursor and the reports the right side leaves |
| ParserFacts.AssignToOther | parser.h:289-307 | for any input, any other left side followed by '=' and an expression is kept as the result, the cursor ends after the right side, and "Invalid assignment target." is reported at the '=' after the right side's reports |
| ParserFacts.AssignRightFails | parser.h:291-294 | a right side that fails makes the whole expression fail with the same result, whatever the left side is |
| ParserFacts.ChainedAssignment | parser.h:289-301 | for any input, `a = b = rest` with variables a and b parses as `a = (b = rest)`: assignment groups to the right |
| ParserFacts.OperandIsUnary | parser.h:313-425 | a unary expression followed by no tighter binary operator is the whole operand of a level |
| ParserFacts.PrefixApplies | parser.h:415-425 | `!` or `-` applies to the whole unary expression after it, with that expression's cursor and reports |
| ParserFacts.PrefixOperand | parser.h:313-425 | a prefixed unary expression is the whole operand of a level when no tighter operator follows |
| ParserFacts.PrefixedVariable | parser.h:415-425 | `!a` and `-a` are one unary node over the variable |
| ParserFacts.PrefixBindsTighter | parser.h:313-425 | `- a op b` and `! a op b` are `(-a) op b` and `(!a) op b` for every binary operator, `-` included |
| ParserFacts.PrefixNests | parser.h:415-425 | `! ! a`, `- - a` and their mixtures nest to the right: the outer operator applies to the inner unary expression |
| ParserFacts.FailureRises | parser.h:313-425 | a failed operand fails the whole level unchanged |
| ParserFacts.FailureEndsExpression | parser.h:279-425 | a failed operand fails the whole expression |
| ParserFacts.ExpectExpression | parser.h:470 | a token that cannot start an expression reports "Expect expression." |
| ParserFacts.EmptyInput | parser.h:59-69 | an empty input reports "Expect expression." at end |
| ParserFacts.ClosedGroup | parser.h:461-467 | `( a )` is a grouping of `a` |
| ParserFacts.UnclosedGroup | parser.h:461-467 | `( a` reports "Expect ')' after expression." at end |
| ParserFacts.ParenClosed | parser.h:461-467 | after '(' an expression followed by ')' is a grouping of that expression, the cursor just past the ')' |
| ParserFacts.ParenUnclosed | parser.h:461-467 | after '(' an expression followed by anything else fails, the error reported at that token |
| ParserFacts.AdvanceStopsAtEnd | parser.h:511-538 | advance stops at END_OF_FILE, where no kind is checked |
| ParserFacts.RecoveryStops | parser.h:568-597 | recovery stops after a semicolon, before a statement keyword or at end, and skips nothing that is one |
| ParserFacts.RecoverMovesOn | parser.h:568-597 | recovery first consumes the offending token, then stops at the first boundary |
| Interpreters.IsTruthy | interpreter.h:73-89 | nil is falsy, a boolean is its value, any other value is truthy; `InterpreterFacts.TruthyExactly` states that exactly nil and false are falsy |
| Interpreters.IsEqual | interpreter.h:94-125 | equal values are identical, and nil equals exactly nil |
| Interpreters.ValueText | interpreter.h:31-68 | "nil" for nil, a string's own text, "true" or "false" for booleans, the `numberText` rendering for numbers, the error text for the empty value |
| Interpreters.CheckNumberOperand | interpreter.h:131-139 | passes exactly for a number; fails with "Operand must be a number." |
| Interpreters.CheckNumberOperands | interpreter.h:144-157 | passes exactly for two numbers; fails with "Operands must be numbers." |
| Interpreters.EvalBinary | interpreter.h:330-394 | a runtime error names the operator token |
| Interpreters.EvalUnary | interpreter.h:446-465 | a runtime error names the operator token |
| Interpreters.EvalExpr | interpreter.h:162-165 | evaluation never adds or removes scopes |
| Interpreters.StatusOf | interpreter.h:170-173 | a statement completes normally exactly when its evaluation did |
| Interpreters.Exec | interpreter.h:234-308 | executing never adds or removes scopes |
| Interpreters.ExecList | interpreter.h:179-205 | executing a list never adds or removes scopes |
| Interpreters.WhileLoop | interpreter.h:300-308 | a loop never adds or removes scopes |
| Interpreters.Interpreter.Scopes | interpreter.h:26 | the current environment's chain is never empty |
| Interpreters.Interpreter.constructor | interpreter.h:26 | starts with one empty global scope and no output |
| Interpreters.Interpreter.Evaluate | interpreter.h:162-165 | result and new scopes are `EvalExpr` of the old scopes |
| Interpreters.Interpreter.VisitAssign | interpreter.h:317-325 | result and new scopes are `EvalExpr` of the assignment |
| Interpreters.Interpreter.VisitBinary | interpreter.h:330-394 | result and new scopes are `EvalExpr` of the binary expression |
| Interpreters.Interpreter.VisitLogical | interpreter.h:416-441 | result and new scopes are `EvalExpr` of the logical expression |
| Interpreters.Interpreter.VisitUnary | interpreter.h:446-465 | result and new scopes are `EvalExpr` of the unary expression |
| Interpreters.Interpreter.Execute | interpreter.h:170-173 | status, scopes and output are `Exec` of the old state |
| Interpreters.Interpreter.ExecBlock | interpreter.h:179-205 | runs the list in the block's environment and restores the enclosing one afterwards, also after a runtime error |
| Interpreters.Interpreter.VisitBlock | interpreter.h:234-238 | matches `Exec` of the block |
| Interpreters.Interpreter.VisitExpression | interpreter.h:244-247 | matches `Exec` of the expression statement |
| Interpreters.Interpreter.VisitIf | interpreter.h:253-266 | matches `Exec` of the conditional |
| Interpreters.Interpreter.VisitPrint | interpreter.h:272-277 | matches `Exec` of the print statement |
| Interpreters.Interpreter.VisitVar | interpreter.h:283-294 | matches `Exec` of the declaration |
| Interpreters.Interpreter.VisitWhile | interpreter.h:300-308 | matches `Exec` of the loop |
| Interpreters.Interpreter.Interpret | interpreter.h:210-225 | runs the statements; a runtime error stops the program, is reported once and sets `had_runtime_error`; `had_error` is unchanged |
| InterpreterFacts.TruthyExactly | interpreter.h:73-89 | exactly nil and false are falsy |
| InterpreterFacts.LiteralPrintsAsToken | interpreter.h:31-68 | a literal token, parsed and then printed, shows the same text as the token printer gives for its literal |
| InterpreterFacts.EqualityIsIdentity | interpreter.h:94-126 | values are equal exactly when identical, except NaN and the empty value; equality is symmetric; nil equals only nil |
| InterpreterFacts.NumberEquality | interpreter.h:112-116 | numbers compare as doubles, so NaN differs from itself |
| InterpreterFacts.NotEqualNegatesEqual | interpreter.h:357-361 | `==` and `!=` never fail and give opposite answers |
| InterpreterFacts.PlusOperands | interpreter.h:376-390 | `+` adds two numbers or joins two strings, and fails with its message on any other pair |
| InterpreterFacts.NumericOperands | interpreter.h:340-374 | the other arithmetic and comparison operators fail exactly on a non-number; comparisons give booleans and arithmetic gives numbers |
| InterpreterFacts.ComparisonWithNaN | interpreter.h:340-354 | every ordering comparison with NaN is false |
| InterpreterFacts.BangNegatesTruthiness | interpreter.h:454-456 | `!` gives the negated truthiness, and `!!v` its truthiness |
| InterpreterFacts.MinusNeedsNumber | interpreter.h:458-461 | unary `-` negates a number and fails on anything else |
| InterpreterFacts.ShortCircuit | interpreter.h:416-441 | `or` returns a truthy left value and `and` a falsy one without evaluating the right side |
| InterpreterFacts.AssignGivesValue | interpreter.h:317-325 | an assignment gives the assigned value and stores it, or fails when the name is unbound |
| InterpreterFacts.EvalKeepsNames | interpreter.h:317-325 | evaluating an expression never adds or removes a name in any scope |
| InterpreterFacts.EvalKeepsOuterNames | interpreter.h:317-325 | evaluation keeps the names of the enclosing scopes |
| InterpreterFacts.WellFormedNeverEmpty | interpreter.h:162-165 | a parsed expression never evaluates to the empty value |
| InterpreterFacts.VarWithoutInitialiser | interpreter.h:283-294 | `var x;` binds x to nil in the innermost scope only |
| InterpreterFacts.OuterNamesKept | interpreter.h:179-205 | a statement may add names only to the innermost scope |
| InterpreterFacts.BlockKeepsNames | interpreter.h:179-205 | a block's declarations disappear when it ends |
| InterpreterFacts.ListOuterNamesKept | interpreter.h:179-205 | a statement list adds names only to the innermost scope |
| InterpreterFacts.LoopOuterNamesKept | interpreter.h:300-308 | a loop adds names only to the innermost scope |
| InterpreterFacts.OutputOnlyGrows | interpreter.h:272-277 | output is append-only |
| InterpreterFacts.ListOutputOnlyGrows | interpreter.h:179-205 | output is append-only over a statement list |
| InterpreterFacts.LoopOutputOnlyGrows | interpreter.h:300-308 | output is append-only over a loop |
| InterpreterFacts.FaultStopsProgram | interpreter.h:210-225 | statements after a runtime error are not run |
| InterpreterFacts.WhileFalseSkipsBody | interpreter.h:300-308 | a loop whose test is falsy never runs its body |
| InterpreterFacts.DecrementStep | interpreter.h:317-366 | `x = x - 1` lowers x by one and prints nothing |
| InterpreterFacts.LoopCountsDown | interpreter.h:300-308 | a loop whose test holds while a measure is positive and whose body lowers the measure by one ends normally with measure zero |
| InterpreterFacts.CountdownTest | interpreter.h:340-342 | `x > 0` holds exactly while the counter is positive |
| InterpreterFacts.CountdownBody | interpreter.h:317-366 | the counter body lowers the counter by one |
| InterpreterFacts.CountdownLoop | interpreter.h:300-308 | `while (x > 0) x = x - 1;` ends with x equal to zero and prints nothing |
| InterpreterFacts.CountdownProgram | interpreter.h:210-308 | `var x = 10; while (x > 0) x = x - 1; print x;` prints the rendering of 0 |
| InterpreterFacts.ShadowingEndsWithBlock | interpreter.h:179-205 | `var x = a; { var x = b; } print x;` prints a |

## Left out

- Number printing: `std::to_string` and the ".0" trim in `to_string` (interpreter.h:31-68) and in token printing are a `Num -> string` parameter. The model does not fix a format. One parameter can stand for both printers. `std::to_string(double)` always prints six decimals, or `inf`, `-inf`, `nan`, so its text never ends in ".0". The trim at interpreter.h:45-50 therefore never changes it, and the interpreter prints a number exactly as token printing does. InterpreterFacts.LiteralPrintsAsToken depends on this.
- Numbers.Add: arithmetic on `double` is modelled as exact real arithmetic with ±infinity and NaN. Rounding, overflow to infinity and the sign of zero are not modelled.
- Lexers.NumberValue: `std::stod` is modelled as reading the exact decimal value of the lexeme, without rounding.
- Input and output: standard output is the interpreter's `output` string. Standard error and the two global flags are the `Diagnostics` object.
- Interpreters.Exec: `while` is bounded by a fuel parameter. A program that runs out of fuel ends with status `OutOfFuel`. The source has no such status, and it loops forever instead.
- Interpreters.WhileLoop: the same fuel bound. The loop ends with status `OutOfFuel` when the fuel is used up, where interpreter.h:300-308 keeps looping.
- Interpreters.Interpreter.VisitWhile: its loop is `WhileLoop`, so it too can stop with `OutOfFuel` where interpreter.h:300-308 never stops.
- Interpreters.Interpreter.Interpret: a statement that ends with `OutOfFuel` stops the run without any report. The source never returns from such a program (interpreter.h:210-225).
- Interpreters.Interpreter.ExecBlock: requires that the block's environment encloses the current one. Every call in the source creates it that way.
- The statement parser in parser.h is commented out and is not modelled. Statements are built directly as trees.
- `std::any`, `shared_ptr` and the visitor dispatch become datatypes and `match` expressions. The empty value `{}` that `std::any` holds after a failed dispatch is the value `EmptyVal`.
- Parsers.Parser.Level: one method stands for the six binary-level methods `or`, `and`, `equality`, `comparison`, `term` and `factor`. They differ only in their operator set and their next level.
- Parsers.Parser.constructor: requires a token list that ends with END_OF_FILE, as the lexer produces. On any other list the source's `.at()` would throw.
- Lexers.Lexer: the class in lexer.h declares `source`, `tokens` and `keywords`, but its code uses `input`, `output` and `reserved_words`, and its constructor is named `Scanner`. The model follows what the code evidently intends.
- Lexers.Lexer.SkipDigits, Lexers.Lexer.SkipComment and Lexers.Lexer.SkipStringBody are the inner loops of `process_number`, of the `/` branch and of `process_string`, written as separate methods.
- Lexers.ScanToken: the input is a sequence of Unicode characters, while lexer.h scans the bytes of a `std::string_view`. A non-ASCII character outside a string or a comment therefore gives one "Unexpected character." report here, where the source gives one per byte of its UTF-8 encoding. The same holds for Lexers.Lexer.ProcessToken and Lexers.Lexer.ScanTokens, which follow ScanToken. Nothing else differs: every character the grammar accepts is ASCII, and inside strings and comments the characters are only copied or skipped. The character count of a lexeme can still differ from the byte count.
- Parsers.Parser.RecoverFromError: requires that the cursor is past the first token, or that the first token is not END_OF_FILE. In the excluded case, `advance` calls `previous()`, which reads `token_stream.at(current_pos - 1)` at position 0 and throws `std::out_of_range` (parser.h:523-554). `parse()` catches only `ParseError`, so that exception escapes. The model does not cover this path. Parsers.RecoverAt and Parsers.Parser.Advance carry the same requirement. No live code reaches the excluded case. Inside the expression parser, `advance` runs only after `check` or `match` has passed, so never on END_OF_FILE. The only call of `recover_from_error` sits in the commented-out statement parser (parser.h:92).
- ast_printer.h, token_printer.h, ast_printer_driver.cpp and prism.cpp are not part of this model. runtime_error.h is not part of this model; its class is modelled by its two fields, token and message.
