# Lumen compiler front end in Dafny

This project models the front end of the Lumen compiler (`compiler/src`) and proves properties of the model:

- the token vocabulary;
- the character-at-a-time lexer;
- the syntax tree with its canonical `String` rendering;
- the Pratt parser.

Modules:

| module | file | what it holds |
|---|---|---|
| `Wrappers` | `wrappers.dfy` | `Option`, for a Go value that may be nil |
| `Tokens` | `tokens.dfy` | the 36 token kinds in declaration order, their ordinals, the `Token` record |
| `TokensLemmas` | `tokens_lemmas.dfy` | ordinal facts |
| `GoStrconv` | `gostrconv.dfy` | the parts of Go's `strconv`/`fmt` the core calls: `%d` (`Itoa`), `%q` (`Quote`) and `strconv.ParseInt(s, 0, 64)` |
| `GoStrconvLemmas` | `gostrconv_lemmas.dfy` | round trip and base-0 facts about them |
| `Lexer` | `lexer.dfy` | the lexer as a value `LexState` with one specification function per Go method, and the `class Lexer` whose methods are proved against those functions |
| `LexerLemmas` | `lexer_lemmas.dfy` | what a scan yields and consumes; worked examples |
| `TokenStream` | `token_stream.dfy` | the sequence of tokens successive `NextToken` calls produce, and the proof that it matches the lexer step by step |
| `Ast` | `ast.dfy` | the node types, `String` and `TokenLiteral` |
| `AstLemmas` | `ast_lemmas.dfy` | rendering facts: list order, balanced parentheses, literal forms |
| `ParserSpec` | `parser_spec.dfy` | the parser as functions over a value `PState`: the token window, the `errors` list, a position in the token stream |
| `Parser` | `parser.dfy` | the `class Parser` that owns a `Lexer`; every parsing method is proved equal to its `ParserSpec` function |
| `ParserLemmas` | `parser_lemmas.dfy` | precedence, associativity, error paths and list shapes |

The Go lexer and parser change fields step by step, so they are classes:

- `Lexer` keeps `offset`, `line`, `column`, `current` and `peek`.
- `Parser` keeps `cur`, `peek` and `errors` and calls into its `Lexer`.

Each method's `ensures` ties the new state, and the result, to a specification function of the old state. The lemmas are stated about those functions. The loops of `skipWhitespace`, `readIdentifier`, `readNumber`, `parseExpression` and the two list parsers are `while` loops with invariants. Every recursive parsing method terminates on a measure built from the input still unread.

Input is a sequence of already decoded runes, one buffer unit per rune. `IsLetter` and `IsDigit` are the ASCII ranges. `IsSpace` is the list of code points Go's `unicode.IsSpace` accepts.

Quirks of the code are modelled as written, and several are proved:

- `peek` is never assigned, so `-` is always `TokenMinus` and `=` always `TokenEqual`.
- `true`/`false` lex as `TokenBool`, which has no prefix production.
- `(` has no prefix production.
- A failed `let` is the typed nil `NilLetStatement`, which still lands in the statement list.
- An identifier's literal is the buffer slice between its line-relative columns. That slice is the identifier's own text only on line 1.

## Model

| member | source | states |
|---|---|---|
| Tokens.Ordinal | compiler/src/tokens.go:5-51 | every kind has an ordinal below the count of 36 kinds |
| TokensLemmas.OrdinalRoundTrip | compiler/src/tokens.go:5-51 | the ordinal identifies its kind: `FromOrdinal` inverts `Ordinal` |
| TokensLemmas.OrdinalInjective | compiler/src/tokens.go:5-51 | two kinds have the same ordinal exactly when they are the same kind |
| TokensLemmas.SentinelsComeLast | compiler/src/tokens.go:48-50 | `TokenLet` is 0, `TokenEOF` 34 and `TokenError` 35; every non-sentinel kind is below `TokenEOF` |
| TokensLemmas.BooleanKindsAreDistinct | compiler/src/tokens.go:15-22 | `TokenTrue` (8), `TokenFalse` (9) and `TokenBool` (13) are three different kinds |
| GoStrconv.DigitChar | compiler/src/ast.go:92 | the decimal digit character whose value is the given digit |
| GoStrconv.NatToDecimal | compiler/src/ast.go:92 | `%d` text is non-empty, all decimal digits, and starts with `0` only for zero |
| GoStrconv.DigitValue | compiler/src/parser.go:172 | a digit's value in base 36 is at most 36 (anything else is marked invalid) |
| GoStrconv.BaseAndDigits | compiler/src/parser.go:172 | base 0 picks a base between 2 and 36 from the literal's prefix |
| GoStrconv.ParseUint | compiler/src/parser.go:172 | a parsed unsigned value fits in 64 bits |
| GoStrconvLemmas.ScanDigitsPrefix | compiler/src/parser.go:172 | scanning the first k runes of a string does not look past them |
| GoStrconvLemmas.ScanDecimal | compiler/src/parser.go:172 | scanning the `%d` text of n in base 10 gives back n's value |
| GoStrconvLemmas.ParseIntOfItoa | compiler/src/parser.go:172 | `ParseInt` with base 0 reads back the `%d` text of every int64 |
| GoStrconvLemmas.OctalExamples | compiler/src/parser.go:172 | a leading zero means octal: `010` is 8, and `0` is 0 |
| GoStrconvLemmas.OctalRejectsEightAndNine | compiler/src/parser.go:172 | `08` and `09` fail, since 8 and 9 are not octal digits |
| GoStrconvLemmas.DecimalRange | compiler/src/parser.go:172 | the decimal text of m parses exactly when m is at most 2^63-1, and then to m |
| GoStrconvLemmas.QuoteDigits | compiler/src/parser.go:174 | `%q` of a decimal literal is that literal in plain quotes |
| GoStrconvLemmas.QuoteBodyDigits | compiler/src/parser.go:174 | decimal digits need no escape under `%q` |
| Lexer.LookupIdent | compiler/src/lexer.go:129-147 | a word is `TokenIdent` exactly when it is not one of the ten keywords; `TokenBool` exactly for `true` and `false`; otherwise one of the keyword kinds |
| Lexer.AfterReadChar | compiler/src/lexer.go:29-37 | `readChar` moves the column by one and keeps buffer, line and `peek` |
| Lexer.Start | compiler/src/lexer.go:18-27 | a new lexer is on line 1, holds the input, has `peek` 0 and has read its first rune |
| Lexer.SkipStep | compiler/src/lexer.go:103-111 | one whitespace rune: a newline moves to the next line at column 1, any other whitespace moves one column; input shrinks |
| Lexer.AfterSkipWhitespace | compiler/src/lexer.go:103-111 | after skipping, the current rune is not whitespace, the line never goes back and at end of input nothing changes |
| Lexer.AfterIdentifierRun | compiler/src/lexer.go:113-119 | the run stops at a non-identifier rune, stays on its line and consumes input exactly when it started on an identifier rune |
| Lexer.AfterNumberRun | compiler/src/lexer.go:121-127 | the same for a run of digits |
| Lexer.PunctuationKind | compiler/src/lexer.go:44-78 | a single-rune operator or delimiter is never one of the kinds the lexer does not produce, nor EOF or Error |
| Lexer.Scan | compiler/src/lexer.go:39-101 | one `NextToken` keeps the buffer and `peek`, never moves back a line and consumes at least one rune unless input is exhausted |
| Lexer.ScanAt | compiler/src/lexer.go:44-101 | classifying the rune after the whitespace stays on its line and consumes input unless input is exhausted |
| Lexer.Lexer.constructor | compiler/src/lexer.go:18-27 | `NewLexer` yields the state `Start(input)` |
| Lexer.Lexer.ReadChar | compiler/src/lexer.go:29-37 | the new state is `AfterReadChar` of the old |
| Lexer.Lexer.SkipWhitespace | compiler/src/lexer.go:103-111 | the loop ends in `AfterSkipWhitespace` of the old state |
| Lexer.Lexer.ReadIdentifier | compiler/src/lexer.go:113-119 | literal and new state are `LexIdentifier` of the old state |
| Lexer.Lexer.ReadNumber | compiler/src/lexer.go:121-127 | literal and new state are `LexNumber` of the old state |
| Lexer.Lexer.NextToken | compiler/src/lexer.go:39-101 | token and new state are `Scan` of the old state |
| LexerLemmas.After | compiler/src/lexer.go:39-101 | any number of `NextToken` calls keeps the buffer and `peek` |
| LexerLemmas.Advance | compiler/src/lexer.go:39-101 | the same, counted from the other end |
| LexerLemmas.MinusAndEqualAreSingle | compiler/src/lexer.go:47-64 | with `peek` 0, `-` always yields `TokenMinus "-"` and `=` always `TokenEqual "="` |
| LexerLemmas.ScanNeverLexes | compiler/src/lexer.go:82-96 | no scan yields true, false, float, string, `!=`, `<`, `<=`, `>`, `>=`, `->` or `==` kinds |
| LexerLemmas.EofScan | compiler/src/lexer.go:79-80 | at end of input each call returns `TokenEOF` with literal `""` on the same line, and only the column grows, by one |
| LexerLemmas.ScanConsumes | compiler/src/lexer.go:39-101 | every call before the end of input consumes at least one rune |
| LexerLemmas.Consumed | compiler/src/lexer.go:39-101 | k calls consume at least k runes or reach the end |
| LexerLemmas.ReachesEndOfInput | compiler/src/lexer.go:39-101 | as many calls as there are runes left reach the end of input |
| LexerLemmas.ErrorTokenIff | compiler/src/lexer.go:94-99 | `TokenError` comes exactly from a rune that is no operator, delimiter, letter, digit or 0; its literal is that rune and scanning resumes at the next one |
| LexerLemmas.EofTokenIff | compiler/src/lexer.go:79-80 | `TokenEOF` comes exactly from a current rune of 0, with literal `""` |
| LexerLemmas.IdentifierRunIsMaximal | compiler/src/lexer.go:113-119 | the run covers only identifier runes and stops at the first other rune or at the end of the buffer |
| LexerLemmas.NumberRunIsMaximal | compiler/src/lexer.go:121-127 | the same for digits |
| LexerLemmas.IdentifierLiteralOnLineOne | compiler/src/lexer.go:113-119 | on line 1 the literal is exactly the scanned run, and is non-empty |
| LexerLemmas.NumberLiteralOnLineOne | compiler/src/lexer.go:121-127 | the same for numbers |
| LexerLemmas.ScanAfterSpaces | compiler/src/lexer.go:42 | leading whitespace does not change the next token |
| LexerLemmas.ScanIdentifier | compiler/src/lexer.go:82-87 | a letter yields `LookupIdent` of the identifier literal, with the column one past the run |
| LexerLemmas.ScanNumber | compiler/src/lexer.go:88-93 | a digit yields `TokenInt` of the number literal, with the column one past the run |
| LexerLemmas.ScanPunctuation | compiler/src/lexer.go:44-78 | an operator or delimiter rune yields its kind and the rune as literal, then reads one rune |
| LexerLemmas.LetStatementTokens | compiler/src/lexer.go:39-101 | `let x = 5;` yields Let, Ident, Equal, Int and Semicolon with the columns one past each run, then end of input |
| LexerLemmas.LiteralPastLineOne | compiler/src/lexer.go:113-119 | in `a\nbc` the second identifier's literal is `a\n`, not `bc`, because columns restart on each line |
| TokenStream.At | compiler/src/lexer.go:79-80 | past the last real token the stream yields `TokenEOF`; no position yields a kind the lexer never produces |
| TokenStream.StreamFrom | compiler/src/lexer.go:39-101 | the stream of a lexer has one token per rune step before the end and holds no unproduced kind |
| TokenStream.NeverLexedNowhere | compiler/src/lexer.go:82-96 | no token of the stream has a kind the lexer never produces |
| TokenStream.StreamEnd | compiler/src/lexer.go:79-80 | the stream's EOF position is where the lexer lands once input is used up |
| TokenStream.PastEnd | compiler/src/lexer.go:79-80 | calls past the end keep the line and grow the column one at a time, as `At` records |
| TokenStream.StepPastEnd | compiler/src/lexer.go:79-80 | each call past the end agrees with the stream |
| TokenStream.StepMatches | compiler/src/lexer.go:39-101 | the k-th `NextToken` call returns the stream's k-th token and leaves the lexer where k+1 calls leave it |
| Ast.ArgumentStrings | compiler/src/ast.go:218-221 | one rendering per argument, in argument order |
| AstLemmas.JoinConcat | compiler/src/ast.go:203 | joining two lists is joining each with one separator between |
| AstLemmas.FunctionParameterOrder | compiler/src/ast.go:195-207 | a function renders `fn(`, its parameters in order separated by `, `, `) ` and its body |
| AstLemmas.StatementsParentIrrelevant | compiler/src/ast.go:180-186 | the statement fold depends only on the statements |
| AstLemmas.StatementsConcat | compiler/src/ast.go:180-186 | rendering a concatenation of statements concatenates their renderings, with no separator |
| AstLemmas.ProgramConcat | compiler/src/ast.go:54-60 | a program of `a + b` renders as `a`'s rendering followed by `b`'s |
| AstLemmas.ProgramAppend | compiler/src/ast.go:54-60 | appending a statement appends its rendering |
| AstLemmas.ProgramRendersLikeBlock | compiler/src/ast.go:54-60 | a program renders exactly like a block of the same statements |
| AstLemmas.ValueSitsBeforeSemicolon | compiler/src/ast.go:69-77 | `let NAME = ;` and `return ;` for a nil value with the value's rendering put in front of the `;` otherwise; a nil expression statement renders empty |
| AstLemmas.IntegerLiteralRoundTrip | compiler/src/ast.go:92-93 | an integer literal renders as decimal text that base-0 parsing reads back, and its token literal is the same text |
| AstLemmas.StringLiteralIsUnescaped | compiler/src/ast.go:109 | a string literal renders as `%q` of its value exactly when no rune of it needs an escape |
| AstLemmas.QuoteCharLength | compiler/src/ast.go:109 | an escaped rune is longer than the rune |
| AstLemmas.QuoteBodyLength | compiler/src/ast.go:109 | escaping never shortens a string and lengthens it when any rune needs an escape |
| AstLemmas.QuoteBodyIdentity | compiler/src/ast.go:109 | escaping leaves a string unchanged exactly when no rune of it needs an escape |
| AstLemmas.DepthConcat | compiler/src/ast.go:126-151 | parenthesis depth adds over concatenation |
| AstLemmas.ParenFreeDepth | compiler/src/ast.go:126-151 | text without parentheses has depth 0 |
| AstLemmas.ParenFreeBalanced | compiler/src/ast.go:126-151 | text without parentheses is balanced |
| AstLemmas.BalancedConcat | compiler/src/ast.go:126-151 | balanced text concatenated is balanced |
| AstLemmas.BalancedWrap | compiler/src/ast.go:126-133 | wrapping balanced text in one pair stays balanced |
| AstLemmas.BalancedGlue | compiler/src/ast.go:143-151 | balanced parts joined by parenthesis-free glue are balanced |
| AstLemmas.ItoaParenFree | compiler/src/ast.go:92-93 | decimal text holds no parenthesis |
| AstLemmas.BalancedJoin | compiler/src/ast.go:203 | joining balanced parts with a parenthesis-free separator is balanced |
| AstLemmas.BalancedQuoted | compiler/src/ast.go:109 | a quoted parenthesis-free value is balanced |
| AstLemmas.BalancedPrefix | compiler/src/ast.go:126-133 | `(op right)` is balanced |
| AstLemmas.BalancedInfix | compiler/src/ast.go:143-151 | `(left op right)` is balanced |
| AstLemmas.BalancedIf | compiler/src/ast.go:161-172 | `if` with balanced parts is balanced |
| AstLemmas.BalancedElse | compiler/src/ast.go:167-170 | the `else` part is balanced |
| AstLemmas.BalancedFunction | compiler/src/ast.go:195-207 | a function rendering is balanced |
| AstLemmas.BalancedCall | compiler/src/ast.go:216-227 | a call rendering is balanced |
| AstLemmas.BalancedExpression | compiler/src/ast.go:79-227 | every renderable expression whose names and operators hold no parenthesis renders with balanced parentheses |
| AstLemmas.BalancedBlock | compiler/src/ast.go:180-186 | the same for blocks |
| AstLemmas.BalancedStatements | compiler/src/ast.go:180-186 | the same for a statement fold |
| AstLemmas.BalancedStatement | compiler/src/ast.go:69-77 | the same for every statement kind |
| AstLemmas.BalancedOperand | compiler/src/ast.go:69-77 | an optional value renders balanced |
| AstLemmas.LetPrefixParenFree | compiler/src/ast.go:69-77 | the `let NAME = ` frame holds no parenthesis |
| AstLemmas.BalancedTerminated | compiler/src/ast.go:235-243 | a statement frame ending in `;` around balanced text is balanced |
| AstLemmas.InfixIsParenthesised | compiler/src/ast.go:143-151 | an infix rendering starts with `(`, ends with `)` and is balanced inside |
| ParserSpec.Precedence | compiler/src/parser.go:397-414 | every level lies between LOWEST and CALL, and every kind above LOWEST has an infix production |
| ParserSpec.Initial | compiler/src/parser.go:47-48 | the two initial `nextToken` calls fill `cur` and `peek` with the first two tokens and no error |
| ParserSpec.Init | compiler/src/parser.go:19-50 | a parser over the input reads the input's token stream |
| ParserSpec.NextToken | compiler/src/parser.go:64-67 | the window shifts: the new `cur` is the old `peek`, errors are unchanged, progress is made before EOF |
| ParserSpec.ExpectPeek | compiler/src/parser.go:363-377 | on a match it advances exactly once and adds no error; on a mismatch it adds exactly "expected next token to be X, got Y instead" and changes nothing else |
| ParserSpec.SkipSemicolon | compiler/src/parser.go:136-138 | the optional `;` skip adds no error |
| ParserSpec.ParseProgram | compiler/src/parser.go:69-82 | parsing a program stops at EOF |
| ParserSpec.ProgramLoop | compiler/src/parser.go:73-79 | each iteration appends exactly the statement `parseStatement` returns, even a failed `let`, and keeps the earlier ones |
| ParserSpec.ParseStatement | compiler/src/parser.go:84-93 | a statement parse only moves forward |
| ParserSpec.ParseLetStatement | compiler/src/parser.go:95-117 | a `let` parse only moves forward |
| ParserSpec.ParseReturnStatement | compiler/src/parser.go:119-131 | a `return` parse only moves forward |
| ParserSpec.ParseExpressionStatement | compiler/src/parser.go:133-141 | an expression statement parse only moves forward |
| ParserSpec.ParseExpression | compiler/src/parser.go:143-163 | an expression parse only moves forward |
| ParserSpec.InfixLoop | compiler/src/parser.go:151-160 | the loop ends at a `;`, or when the next operator does not bind tighter than the given level |
| ParserSpec.PrefixParse | compiler/src/parser.go:25-34 | dispatch on the prefix table only moves forward |
| ParserSpec.ParseIntegerLiteral | compiler/src/parser.go:169-181 | the literal becomes an `IntegerLiteral` exactly when base-0 parsing succeeds; otherwise exactly one "could not parse %q as integer" is added and the window stays |
| ParserSpec.ParsePrefixExpression | compiler/src/parser.go:205-215 | a prefix parse only moves forward |
| ParserSpec.InfixParse | compiler/src/parser.go:36-45 | dispatch on the infix table only moves forward |
| ParserSpec.ParseInfixExpression | compiler/src/parser.go:217-228 | an infix parse only moves forward |
| ParserSpec.ParseIfExpression | compiler/src/parser.go:230-261 | an `if` parse only moves forward |
| ParserSpec.IfConsequence | compiler/src/parser.go:240-258 | the consequence part only moves forward |
| ParserSpec.IfAlternative | compiler/src/parser.go:250-260 | the `else` part only moves forward |
| ParserSpec.ParseBlockStatement | compiler/src/parser.go:263-278 | a block stops at `}` or EOF |
| ParserSpec.BlockLoop | compiler/src/parser.go:269-275 | each iteration appends exactly the statement `parseStatement` returns and keeps the earlier ones; the loop stops at `}` or EOF |
| ParserSpec.ParseFunctionLiteral | compiler/src/parser.go:280-296 | a function parse only moves forward |
| ParserSpec.ParseFunctionParameters | compiler/src/parser.go:298-323 | a parameter list ends on `)` with no new error, or is nil after exactly one "expected `)`" error |
| ParserSpec.ParameterLoop | compiler/src/parser.go:311-316 | the loop keeps the names read so far as a prefix, adds no error, stops when no comma follows, and after a comma appends the literal of the token after it next |
| ParserSpec.ParseCallExpression | compiler/src/parser.go:325-329 | a call parse only moves forward |
| ParserSpec.ParseExpressionList | compiler/src/parser.go:331-353 | a list ends on its closing token; it is nil only when that token is missing, and then the last error is "expected next token to be" that token; the closing token right away gives the empty list; otherwise the first item is the expression right after the opening token |
| ParserSpec.ListLoop | compiler/src/parser.go:342-346 | the loop keeps the items read so far as a prefix, stops when no comma follows, and after a comma appends the expression parsed after it next |
| Parser.Parser.constructor | compiler/src/parser.go:19-50 | `NewParser` reads two tokens and yields `Initial` of the lexer's stream |
| Parser.Parser.NextToken | compiler/src/parser.go:64-67 | the new state is `ParserSpec.NextToken` of the old |
| Parser.Parser.PeekError | compiler/src/parser.go:373-377 | appends exactly one "expected next token" message |
| Parser.Parser.NoPrefixParseFnError | compiler/src/parser.go:379-382 | appends exactly one "no prefix parse function" message |
| Parser.Parser.ExpectPeek | compiler/src/parser.go:363-371 | result and new state are `ParserSpec.ExpectPeek` of the old state |
| Parser.Parser.ParseProgram | compiler/src/parser.go:69-82 | result and new state are `ParserSpec.ParseProgram` of the old state |
| Parser.Parser.ParseStatement | compiler/src/parser.go:84-93 | result and new state are `ParserSpec.ParseStatement` of the old state |
| Parser.Parser.ParseLetStatement | compiler/src/parser.go:95-117 | result and new state are `ParserSpec.ParseLetStatement` of the old state |
| Parser.Parser.ParseReturnStatement | compiler/src/parser.go:119-131 | result and new state are `ParserSpec.ParseReturnStatement` of the old state |
| Parser.Parser.ParseExpressionStatement | compiler/src/parser.go:133-141 | result and new state are `ParserSpec.ParseExpressionStatement` of the old state |
| Parser.Parser.ParseExpression | compiler/src/parser.go:143-163 | result and new state are `ParserSpec.ParseExpression` of the old state |
| Parser.Parser.InfixLoop | compiler/src/parser.go:151-160 | the `for` loop ends in `ParserSpec.InfixLoop` of the old state |
| Parser.Parser.ParsePrefix | compiler/src/parser.go:25-34 | result and new state are `ParserSpec.PrefixParse` of the old state |
| Parser.Parser.ParseInfix | compiler/src/parser.go:36-45 | result and new state are `ParserSpec.InfixParse` of the old state |
| Parser.Parser.ParseIdentifier | compiler/src/parser.go:165-167 | the identifier node holds `cur`'s literal |
| Parser.Parser.ParseIntegerLiteral | compiler/src/parser.go:169-181 | result and new state are `ParserSpec.ParseIntegerLiteral` of the old state |
| Parser.Parser.ParsePrefixExpression | compiler/src/parser.go:205-215 | result and new state are `ParserSpec.ParsePrefixExpression` of the old state |
| Parser.Parser.ParseInfixExpression | compiler/src/parser.go:217-228 | result and new state are `ParserSpec.ParseInfixExpression` of the old state |
| Parser.Parser.ParseIfExpression | compiler/src/parser.go:230-261 | result and new state are `ParserSpec.ParseIfExpression` of the old state |
| Parser.Parser.ParseBlockStatement | compiler/src/parser.go:263-278 | result and new state are `ParserSpec.ParseBlockStatement` of the old state |
| Parser.Parser.ParseFunctionLiteral | compiler/src/parser.go:280-296 | result and new state are `ParserSpec.ParseFunctionLiteral` of the old state |
| Parser.Parser.ParseFunctionParameters | compiler/src/parser.go:298-323 | result and new state are `ParserSpec.ParseFunctionParameters` of the old state |
| Parser.Parser.ParameterLoop | compiler/src/parser.go:311-316 | the `for` loop ends in `ParserSpec.ParameterLoop` of the old state |
| Parser.Parser.ParseCallExpression | compiler/src/parser.go:325-329 | result and new state are `ParserSpec.ParseCallExpression` of the old state |
| Parser.Parser.ParseExpressionList | compiler/src/parser.go:331-353 | result and new state are `ParserSpec.ParseExpressionList` of the old state |
| Parser.Parser.ListLoop | compiler/src/parser.go:342-346 | the `for` loop ends in `ParserSpec.ListLoop` of the old state |
| ParserLemmas.IdentifierPrefix | compiler/src/parser.go:143-167 | an identifier starts the Pratt loop with the identifier node |
| ParserLemmas.MinusPrefix | compiler/src/parser.go:205-215 | `-` parses its operand at PREFIX and wraps it in a prefix node before the loop |
| ParserLemmas.InfixLoopStops | compiler/src/parser.go:151 | with `;` next, or an operator that binds no tighter, the loop returns the left side and changes nothing |
| ParserLemmas.BinaryStep | compiler/src/parser.go:151-160 | an operator that binds tighter is consumed and its right side parsed at its own level |
| ParserLemmas.SimpleBinary | compiler/src/parser.go:151-160 | `x op y` followed by a stopper gives `(x op y)` |
| ParserLemmas.LeftAssociative | compiler/src/parser.go:151-160 | operators of equal level associate left: `x op y op z` is `((x op y) op z)` |
| ParserLemmas.TighterBindsFirst | compiler/src/parser.go:151-160 | a tighter second operator binds first: `x + y * z` is `(x + (y * z))` |
| ParserLemmas.PrefixBindsTighter | compiler/src/parser.go:205-215 | `-x op y` is `((-x) op y)` |
| ParserLemmas.NoPrefixError | compiler/src/parser.go:143-148 | with no prefix production the result is absent, the window stays, and exactly one "no prefix parse function" message is added |
| ParserLemmas.PrefixKinds | compiler/src/parser.go:25-34 | among produced kinds only Ident, Int, Minus, If and Fn have a prefix production; Bool, `(`, `while`, `struct`, `impl`, `;`, Error and EOF have none |
| ParserLemmas.PrecedenceTable | compiler/src/parser.go:384-421 | LOWEST < EQUALS < LESSGREATER < SUM < PRODUCT < PREFIX < CALL; a missing entry is LOWEST; a kind has an infix production exactly when its level is above LOWEST |
| ParserLemmas.InfixAlwaysRegistered | compiler/src/parser.go:151-159 | inside the loop the next operator always has an infix production, and each step makes progress |
| ParserLemmas.FailedLet | compiler/src/parser.go:95-100 | a `let` not followed by a name is the typed nil with one "expected next token" error and no movement |
| ParserLemmas.FailedLetIsKept | compiler/src/parser.go:73-79 | the failed `let` is still the program's first statement, and its error is recorded |
| ParserLemmas.FailedLetInBlock | compiler/src/parser.go:269-275 | a block keeps a failed `let` too |
| ParserLemmas.EmptyInput | compiler/src/parser.go:69-82 | no tokens give the empty program and no error |
| ParserLemmas.EmptyParameters | compiler/src/parser.go:301-304 | `()` gives an empty parameter list |
| ParserLemmas.EmptyArguments | compiler/src/parser.go:334-337 | a closing token right away gives an empty argument list |
| ParserLemmas.TwoParameters | compiler/src/parser.go:298-323 | `(a, b)` gives the names in source order, taken from the literals with no kind check |
| ParserLemmas.OctalIntegerLiteral | compiler/src/parser.go:169-181 | the literal `010` parses to 8 |
| ParserLemmas.IntegerError | compiler/src/parser.go:169-181 | a failing digit literal adds exactly `could not parse "LIT" as integer` and yields an absent node |
| ParserLemmas.BadOctalIntegerLiteral | compiler/src/parser.go:169-181 | `08` fails with that message |
| ParserLemmas.AheadTwo | compiler/src/parser.go:311-313 | two `nextToken` calls move the lookahead window two tokens on |
| ParserLemmas.RunNamesAt | compiler/src/parser.go:311-316 | the i-th name of a comma run is the literal 2i+1 tokens past `peek` |
| ParserLemmas.ParameterRun | compiler/src/parser.go:311-316 | over n `, name` pairs followed by a closing token, the loop appends exactly those n names, in source order, and stops before the closing token |
| ParserLemmas.ParametersInOrder | compiler/src/parser.go:298-323 | for any number n of further names, `(a, b, ...)` gives every name in source order, adds no error and ends on `)` |
| ParserLemmas.ParameterNamesAt | compiler/src/parser.go:298-323 | the i-th parameter is the literal 2i tokens past `peek`, i.e. every other token |
| ParserLemmas.ReturnStatementShape | compiler/src/parser.go:119-131 | `return` builds a return statement holding the expression after it, keeps that expression's errors and skips one optional `;` |
| ParserLemmas.ReturnIdentifier | compiler/src/parser.go:119-131 | `return x;` holds the identifier `x`, ends on `;` and adds no error |
| ParserLemmas.LetStatementShape | compiler/src/parser.go:95-117 | `let NAME = E` builds a let statement holding the name and the expression after `=`, keeps that expression's errors and skips one optional `;` |
| ParserLemmas.LetMissingEqual | compiler/src/parser.go:102-106 | a name not followed by `=` gives the typed nil, with the window on the name and exactly one "expected `=`" error |
| ParserLemmas.LetWithoutValue | compiler/src/parser.go:108-116 | `let x =;` still builds the statement, with an absent value and exactly one "no prefix parse function" error for `;` |
| ParserLemmas.ExpressionStatementShape | compiler/src/parser.go:133-141 | any statement not starting with `let` or `return` is an expression statement holding the expression at LOWEST, then one optional `;` is skipped |
| ParserLemmas.NoPrefixStatement | compiler/src/parser.go:143-148 | a statement starting with a token that has no prefix production holds a nil expression and adds exactly the one "no prefix parse function" message |
| ParserLemmas.IfMissingLParen | compiler/src/parser.go:233-235 | `if` not followed by `(` gives nil, stays put and adds exactly one "expected `(`" error |
| ParserLemmas.IfCondition | compiler/src/parser.go:237-238 | after `if (` the condition is the expression at LOWEST, and the rest continues from where it ends |
| ParserLemmas.IfMissingRParen | compiler/src/parser.go:240-242 | a condition not followed by `)` gives nil with exactly one "expected `)`" error |
| ParserLemmas.IfMissingLBrace | compiler/src/parser.go:244-246 | `)` not followed by `{` gives nil, having consumed the `)`, with exactly one "expected `{`" error |
| ParserLemmas.IfConsequenceBlock | compiler/src/parser.go:244-248 | `) {` starts the consequence block, and the rest continues from where it ends |
| ParserLemmas.IfWithoutElse | compiler/src/parser.go:250-260 | with no `else` next the result is the `if` node with no alternative and nothing moves |
| ParserLemmas.IfWithElse | compiler/src/parser.go:250-258 | `else {` parses the alternative block into the node |
| ParserLemmas.ElseMissingLBrace | compiler/src/parser.go:250-255 | `else` not followed by `{` gives nil with exactly one "expected `{`" error |
| ParserLemmas.IfAlternativeResult | compiler/src/parser.go:250-260 | the `else` part yields an `if` node with the given condition, or nil whose last error is "expected `{`" |
| ParserLemmas.IfConsequenceResult | compiler/src/parser.go:240-260 | after the condition the result is an `if` node with that condition, or nil with at least one new error |
| ParserLemmas.IfResult | compiler/src/parser.go:230-261 | an `if` parse yields an `if` node whose condition is the expression after `(`, or nil with at least one new error |
| ParserLemmas.FunctionMissingLParen | compiler/src/parser.go:283-285 | `fn` not followed by `(` gives nil, stays put and adds exactly one "expected `(`" error |
| ParserLemmas.FunctionLiteralShape | compiler/src/parser.go:280-296 | a function literal holds the parsed parameter list and the block after it; with no `{` after the parameters it is nil with exactly one "expected `{`" error |
| ParserLemmas.CallStep | compiler/src/parser.go:151-160 | a `(` after an operand is consumed at CALL level by the call production, and the loop continues on the call node |
| ParserLemmas.CallShape | compiler/src/parser.go:325-353 | a call node always results, holding the callee; `()` gives no arguments; a nil argument list leaves "expected `)`" as the last error; otherwise it ends on `)` and the first argument is the expression after `(` |
| GoStrconvLemmas.QuoteCharKeeps | compiler/src/ast.go:109 | `%q` writes a rune as itself exactly when it is printable ASCII other than `"` and `\`, or a non-ASCII rune outside the unprintable set |
| GoStrconvLemmas.HexDigitsRoundTrip | compiler/src/ast.go:109 | the fixed-width hex digits of an escape read back to the code point |
| GoStrconvLemmas.QuoteControlShape | compiler/src/ast.go:109 | an ASCII control rune without a short escape, and DEL, become `\x` and two hex digits |
| GoStrconvLemmas.QuoteControlEscape | compiler/src/ast.go:109 | those two digits read back to the rune |
| GoStrconvLemmas.QuoteUnicodeShape | compiler/src/ast.go:109 | an unprintable non-ASCII rune becomes `\u` and four hex digits below U+10000, `\U` and eight above |
| GoStrconvLemmas.QuoteUnicodeEscape | compiler/src/ast.go:109 | those digits read back to the rune |
| GoStrconvLemmas.QuoteNoBreakSpace | compiler/src/ast.go:109 | U+00A0 is written `\u00a0` |
| GoStrconvLemmas.QuotePrivateUse | compiler/src/ast.go:109 | U+F0000 is written `\U000f0000` |
| GoStrconvLemmas.QuoteEAcute | compiler/src/ast.go:109 | `é` is written as itself |

## Left out

- `parseFloatLiteral`, `parseStringLiteral` and `parseBooleanLiteral`: the parser registers them for `TokenFloat`, `TokenString`, `TokenTrue` and `TokenFalse`, but the lexer never produces those kinds (`LexerLemmas.ScanNeverLexes`). They are unreachable from source text, and the float one needs floating point. `FloatLiteral` has no node in the model for the same reason.
- `bufio.ReadRune` decoding and the byte buffer: the model's buffer is the sequence of decoded runes. Go's buffer is the input's UTF-8 bytes (`compiler/src/lexer.go:11, 21`), while `column` counts runes (`compiler/src/lexer.go:29-36`). `readIdentifier` and `readNumber` slice those bytes with rune-counted columns (`compiler/src/lexer.go:113-127`). So after a multi-byte rune Go's literal is the wrong bytes: for `→x` Go's literal is the lone byte 0x86 (the middle byte of `→`), while the model's is `x`. The two agree wherever the input is ASCII. Token literals are strings of runes in the model, so Go's byte-level literals, including invalid UTF-8, cannot be represented. Go's `isLetter`/`isDigit` use `unicode.IsLetter`/`unicode.IsDigit` (`compiler/src/lexer.go:149-155`); the model restricts both to ASCII, so a non-ASCII letter or digit is a `TokenError` here where Go scans an identifier or number run (`é` starts an identifier in Go; `٣`, U+0663, starts a `TokenInt` that `parseIntegerLiteral` then rejects).
- LexerLemmas.IdentifierLiteralOnLineOne: holds for Go only on ASCII input, for the reason above.
- LexerLemmas.NumberLiteralOnLineOne: holds for Go only on ASCII input, for the reason above.
- GoStrconv.QuoteChar: escapes the non-ASCII runes in `KnownUnprintable` (C1 controls, the no-break and other Unicode spaces, the soft hyphen, the line and paragraph separators, format characters such as U+200B-U+200F and U+FEFF, private use, noncharacters U+FFFE and U+FFFF, and the tag block) as `\u`/`\U` escapes, as `strconv.Quote` does. Other runes that Go's `IsPrint` rejects, mainly unassigned code points, are written as they are. Invalid UTF-8 (`\x` escapes of bytes at or above 0x80) does not arise because strings are runes.
- `registerPrefix` and `registerInfix`: the tables are fixed after `NewParser`, so they are the predicates `HasPrefixFn` and `HasInfixFn`.
- `Errors()`: an accessor for the `errors` field, which is public in the class.
- Rendering a node with a nil child that `String()` or `TokenLiteral()` dereferences without a guard (`compiler/src/ast.go:71, 130, 146-148, 164-166, 205, 220, 222, 250`): Go panics there. This includes a nil call argument (`a.String()`, `compiler/src/ast.go:220`) and `ExpressionStatement.TokenLiteral` on a nil expression (`compiler/src/ast.go:250`). The rendering functions require the child to be present (`Renderable`, which also requires every call argument), and `StatementTokenLiteral` requires `HasTokenLiteral`.
- `NilLetStatement` has no rendering, because its `String` dereferences nil.
- A `BlockStatement` as a `Statement`: `*BlockStatement` has `statementNode()` (`compiler/src/ast.go:178`), so Go's type allows a block in a statement list, but `parseStatement` (`compiler/src/parser.go:84-93`) never returns one. `Ast.Statement` therefore has no block variant; blocks appear only as the bodies of `if` and `fn`, where parsing reaches them.
- A parse-render-parse fixed point: `(` has no prefix production, so fully parenthesised renderings do not re-parse.
- The browser playground, the WebAssembly glue and the C standard library: I/O and host code outside the front end.
- Parser.Parser.ParseIdentifier: the method changes nothing, so its contract says only which node it builds.
- ParserSpec.ParseStatement: its contract states only forward movement. Which production it dispatches to, and what each builds, is `ParserLemmas.LetStatementShape`, `FailedLet`, `ReturnStatementShape` and `ExpressionStatementShape`.
- ParserSpec.ParseLetStatement: its contract states only forward movement. What it builds is `ParserLemmas.LetStatementShape` and `LetWithoutValue`; its two typed-nil exits are `FailedLet` and `LetMissingEqual`.
- ParserSpec.ParseExpression: its contract states only forward movement. What it builds is `ParserLemmas.IdentifierPrefix`, `MinusPrefix`, `NoPrefixError`, `SimpleBinary`, `LeftAssociative`, `TighterBindsFirst` and `PrefixBindsTighter`.
- ParserSpec.PrefixParse: its contract states only forward movement. Which kinds have a production is `ParserLemmas.PrefixKinds`, and what the identifier and `-` productions build is `IdentifierPrefix` and `MinusPrefix`.
- ParserSpec.ParsePrefixExpression: its contract states only forward movement. What it builds is `ParserLemmas.MinusPrefix`.
- ParserSpec.InfixParse: its contract states only forward movement. What it builds is `ParserLemmas.BinaryStep` for binary operators and `CallStep` for `(`.
- ParserSpec.ParseInfixExpression: its contract states only forward movement. What it builds is `ParserLemmas.BinaryStep`.
- ParserSpec.ParseReturnStatement: its contract states only forward movement. What it builds is `ParserLemmas.ReturnStatementShape` and `ReturnIdentifier`.
- ParserSpec.ParseExpressionStatement: its contract states only forward movement. What it builds is `ParserLemmas.ExpressionStatementShape` and `NoPrefixStatement`.
- ParserSpec.ParseIfExpression: its contract states only forward movement. Each branch is `ParserLemmas.IfMissingLParen` and `IfCondition`, and the result overall is `IfResult`.
- ParserSpec.IfConsequence: its contract states only forward movement. Its branches are `ParserLemmas.IfMissingRParen`, `IfMissingLBrace` and `IfConsequenceBlock`, and its result is `IfConsequenceResult`.
- ParserSpec.IfAlternative: its contract states only forward movement. Its branches are `ParserLemmas.IfWithoutElse`, `IfWithElse` and `ElseMissingLBrace`, and its result is `IfAlternativeResult`.
- ParserSpec.ParseFunctionLiteral: its contract states only forward movement. What it builds is `ParserLemmas.FunctionMissingLParen` and `FunctionLiteralShape`.
- ParserSpec.ParseCallExpression: its contract states only forward movement. What it builds is `ParserLemmas.CallShape`, and how the loop reaches it is `CallStep`.
- ParserSpec.ParameterLoop: its contract places only the next name. The whole run, in order and for any length, is `ParserLemmas.ParameterRun`.
- ParserSpec.ListLoop: its contract places only the next item, after the items so far. No lemma unrolls a run of n arguments, because each item is a whole expression parse.
- LexerLemmas.LetStatementTokens and LiteralPastLineOne: these fix concrete inputs. The general statements are `ScanIdentifier`, `ScanNumber`, `ScanPunctuation` and `IdentifierLiteralOnLineOne`.
- `int64` overflow: `ParseInt` rejects values above 2^63-1 as Go does. The model's integers are otherwise unbounded; no other arithmetic in the core can overflow.
