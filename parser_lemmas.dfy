/** Properties of the parser functions in ParserSpec: the Pratt loop, error paths and list shapes. */
module ParserLemmas {
  import opened Wrappers
  import opened Tokens
  import opened TokenStream
  import opened Ast
  import opened ParserSpec
  import opened GoStrconv
  import opened GoStrconvLemmas
  import opened Lexer

  function Id(name: string): Option<Expression> {
    Some(Identifier(name))
  }

  /** An identifier operand: `parseIdentifier`, then the infix loop on it. */
  lemma IdentifierPrefix(s: PState, precedence: int)
    requires ValidP(s) && s.cur.kind == TokenIdent
    ensures ParseExpression(s, precedence) == InfixLoop(s, precedence, Some(Identifier(s.cur.literal)))
  {
  }

  /** A `-` operand: `parsePrefixExpression` parses what follows at `PREFIX`, then the infix loop runs on the result. */
  lemma MinusPrefix(s: PState, precedence: int)
    requires ValidP(s) && s.cur.kind == TokenMinus
    ensures var right := ParseExpression(NextToken(s), PREFIX);
      ParseExpression(s, precedence) == InfixLoop(right.1, precedence, Some(PrefixExpression(s.cur.literal, right.0)))
  {
    var right := ParseExpression(NextToken(s), PREFIX);
    assert PrefixParse(s) == ParsePrefixExpression(s);
    assert ParsePrefixExpression(s) == (Some(PrefixExpression(s.cur.literal, right.0)), right.1);
  }

  /** The loop makes no step when `peek` is `;` or binds no tighter than `precedence`. */
  lemma InfixLoopStops(s: PState, precedence: int, left: Option<Expression>)
    requires ValidP(s) && (s.peek.kind == TokenSemicolon || Precedence(s.peek.kind) <= precedence)
    ensures InfixLoop(s, precedence, left) == (left, s)
  {
  }

  /** One step of the loop on a binary operator: its right operand is parsed at the operator's precedence. */
  lemma BinaryStep(s: PState, precedence: int, left: Option<Expression>)
    requires ValidP(s) && s.peek.kind != TokenSemicolon && s.peek.kind != TokenLParen
    requires LOWEST <= precedence < Precedence(s.peek.kind)
    ensures var right := ParseExpression(NextToken(NextToken(s)), Precedence(s.peek.kind));
      InfixLoop(s, precedence, left) == InfixLoop(right.1, precedence, Some(InfixExpression(left, s.peek.literal, right.0)))
  {
    var s1 := NextToken(s);
    assert s1.cur == s.peek;
    var right := ParseExpression(NextToken(s1), Precedence(s.peek.kind));
    assert InfixParse(s1, left) == (Some(InfixExpression(left, s.peek.literal, right.0)), right.1);
  }

  /** `x op y` followed by a token binding no tighter than `precedence`, where `op` binds tighter: one infix node. */
  lemma SimpleBinary(s: PState, precedence: int)
    requires ValidP(s) && s.cur.kind == TokenIdent && s.peek.kind != TokenSemicolon && s.peek.kind != TokenLParen
    requires LOWEST <= precedence < Precedence(s.peek.kind)
    requires var s2 := NextToken(NextToken(s));
      s2.cur.kind == TokenIdent && (s2.peek.kind == TokenSemicolon || Precedence(s2.peek.kind) <= precedence)
    ensures var s2 := NextToken(NextToken(s));
      ParseExpression(s, precedence) == (Some(InfixExpression(Id(s.cur.literal), s.peek.literal, Id(s2.cur.literal))), s2)
  {
    var s2 := NextToken(NextToken(s));
    var e := Some(InfixExpression(Id(s.cur.literal), s.peek.literal, Id(s2.cur.literal)));
    IdentifierPrefix(s, precedence);
    BinaryStep(s, precedence, Id(s.cur.literal));
    IdentifierPrefix(s2, Precedence(s.peek.kind));
    InfixLoopStops(s2, Precedence(s.peek.kind), Id(s2.cur.literal));
    InfixLoopStops(s2, precedence, e);
  }

  /** A binary operator: one the loop steps over, other than the call's `(`. */
  predicate IsBinary(t: TokenType) {
    HasInfixFn(t) && t != TokenLParen
  }

  /**
   * `x op1 y op2 z` with both operators at the same level, above `precedence`,
   * and then a token that binds no tighter: `((x op1 y) op2 z)`.
   */
  lemma LeftAssociative(s: PState, precedence: int)
    requires ValidP(s) && LOWEST <= precedence
    requires var s2 := NextToken(NextToken(s)); var s4 := NextToken(NextToken(s2));
      && s.cur.kind == TokenIdent && s2.cur.kind == TokenIdent && s4.cur.kind == TokenIdent
      && IsBinary(s.peek.kind) && IsBinary(s2.peek.kind)
      && Precedence(s2.peek.kind) == Precedence(s.peek.kind) > precedence
      && (s4.peek.kind == TokenSemicolon || Precedence(s4.peek.kind) <= precedence)
    ensures var s2 := NextToken(NextToken(s)); var s4 := NextToken(NextToken(s2));
      ParseExpression(s, precedence).0
      == Some(InfixExpression(Some(InfixExpression(Id(s.cur.literal), s.peek.literal, Id(s2.cur.literal))), s2.peek.literal, Id(s4.cur.literal)))
  {
    var s2 := NextToken(NextToken(s));
    var s4 := NextToken(NextToken(s2));
    var level := Precedence(s.peek.kind);
    var left := Some(InfixExpression(Id(s.cur.literal), s.peek.literal, Id(s2.cur.literal)));
    IdentifierPrefix(s, precedence);
    BinaryStep(s, precedence, Id(s.cur.literal));
    IdentifierPrefix(s2, level);
    InfixLoopStops(s2, level, Id(s2.cur.literal));
    BinaryStep(s2, precedence, left);
    IdentifierPrefix(s4, level);
    InfixLoopStops(s4, level, Id(s4.cur.literal));
    InfixLoopStops(s4, precedence, Some(InfixExpression(left, s2.peek.literal, Id(s4.cur.literal))));
  }

  /**
   * `x op1 y op2 z` where `op2` binds tighter than `op1`, which binds tighter
   * than `precedence`, and then a token that binds no tighter: `(x op1 (y op2 z))`.
   */
  lemma TighterBindsFirst(s: PState, precedence: int)
    requires ValidP(s) && LOWEST <= precedence
    requires var s2 := NextToken(NextToken(s)); var s4 := NextToken(NextToken(s2));
      && s.cur.kind == TokenIdent && s2.cur.kind == TokenIdent && s4.cur.kind == TokenIdent
      && IsBinary(s.peek.kind) && IsBinary(s2.peek.kind)
      && Precedence(s2.peek.kind) > Precedence(s.peek.kind) > precedence
      && (s4.peek.kind == TokenSemicolon || Precedence(s4.peek.kind) <= precedence)
    ensures var s2 := NextToken(NextToken(s)); var s4 := NextToken(NextToken(s2));
      ParseExpression(s, precedence).0
      == Some(InfixExpression(Id(s.cur.literal), s.peek.literal, Some(InfixExpression(Id(s2.cur.literal), s2.peek.literal, Id(s4.cur.literal)))))
  {
    var s2 := NextToken(NextToken(s));
    var s4 := NextToken(NextToken(s2));
    var level := Precedence(s.peek.kind);
    var right := Some(InfixExpression(Id(s2.cur.literal), s2.peek.literal, Id(s4.cur.literal)));
    IdentifierPrefix(s, precedence);
    BinaryStep(s, precedence, Id(s.cur.literal));
    IdentifierPrefix(s2, level);
    BinaryStep(s2, level, Id(s2.cur.literal));
    IdentifierPrefix(s4, Precedence(s2.peek.kind));
    InfixLoopStops(s4, Precedence(s2.peek.kind), Id(s4.cur.literal));
    InfixLoopStops(s4, level, right);
    InfixLoopStops(s4, precedence, Some(InfixExpression(Id(s.cur.literal), s.peek.literal, right)));
  }

  /**
   * `-x op y` with `op` above `precedence` (every binary operator is below
   * `PREFIX`), and then a token that binds no tighter: `((-x) op y)`.
   */
  lemma PrefixBindsTighter(s: PState, precedence: int)
    requires ValidP(s) && LOWEST <= precedence
    requires var s1 := NextToken(s); var s3 := NextToken(NextToken(s1));
      && s.cur.kind == TokenMinus && s1.cur.kind == TokenIdent && s3.cur.kind == TokenIdent
      && IsBinary(s1.peek.kind) && Precedence(s1.peek.kind) > precedence
      && (s3.peek.kind == TokenSemicolon || Precedence(s3.peek.kind) <= precedence)
    ensures var s1 := NextToken(s); var s3 := NextToken(NextToken(s1));
      ParseExpression(s, precedence).0
      == Some(InfixExpression(Some(PrefixExpression(s.cur.literal, Id(s1.cur.literal))), s1.peek.literal, Id(s3.cur.literal)))
  {
    var s1 := NextToken(s);
    var s3 := NextToken(NextToken(s1));
    var negated := Some(PrefixExpression(s.cur.literal, Id(s1.cur.literal)));
    IdentifierPrefix(s1, PREFIX);
    InfixLoopStops(s1, PREFIX, Id(s1.cur.literal));
    MinusPrefix(s, precedence);
    BinaryStep(s1, precedence, negated);
    IdentifierPrefix(s3, Precedence(s1.peek.kind));
    InfixLoopStops(s3, Precedence(s1.peek.kind), Id(s3.cur.literal));
    InfixLoopStops(s3, precedence, Some(InfixExpression(negated, s1.peek.literal, Id(s3.cur.literal))));
  }

  /** Without a prefix production for `cur`: one error, no expression, and the window stays put. */
  lemma NoPrefixError(s: PState, precedence: int)
    requires ValidP(s) && !HasPrefixFn(s.cur.kind)
    ensures var r := ParseExpression(s, precedence);
      && r.0 == None && r.1.pos == s.pos && r.1.cur == s.cur && r.1.peek == s.peek
      && r.1.errors == s.errors + [NoPrefixMessage(s.cur.kind)]
  {
  }

  /** Of the kinds the lexer produces, exactly five start an expression. */
  lemma PrefixKinds(t: TokenType)
    requires !NeverLexed(t)
    ensures HasPrefixFn(t) <==> t in {TokenIdent, TokenInt, TokenMinus, TokenIf, TokenFn}
    ensures t in {TokenBool, TokenLParen, TokenWhile, TokenStruct, TokenImpl, TokenSemicolon, TokenError, TokenEOF} ==> !HasPrefixFn(t)
  {
  }

  /** The precedence levels are ordered, and a kind binds above `LOWEST` exactly when it has an infix production. */
  lemma PrecedenceTable(t: TokenType)
    ensures LOWEST < EQUALS < LESSGREATER < SUM < PRODUCT < PREFIX < CALL
    ensures PrecedenceEntry(t).None? ==> Precedence(t) == LOWEST
    ensures HasInfixFn(t) <==> Precedence(t) > LOWEST
  {
  }

  /** So the loop's `infix == nil` exit is never taken, and a step that is taken consumes input. */
  lemma InfixAlwaysRegistered(s: PState, precedence: int, left: Option<Expression>)
    requires ValidP(s) && s.peek.kind != TokenSemicolon && LOWEST <= precedence < Precedence(s.peek.kind)
    ensures HasInfixFn(s.peek.kind)
    ensures Measure(InfixLoop(s, precedence, left).1) < Measure(s)
  {
    assert Measure(s) > 0;
    assert Measure(NextToken(s)) < Measure(s);
  }

  /** `parseLetStatement` without a name after `let`: the typed nil, after one error. */
  lemma FailedLet(s: PState)
    requires ValidP(s) && s.cur.kind == TokenLet && s.peek.kind != TokenIdent
    ensures ParseStatement(s) == (NilLetStatement, s.(errors := s.errors + [PeekErrorMessage(TokenIdent, s.peek.kind)]))
  {
    assert ExpectPeek(s, TokenIdent) == (false, s.(errors := s.errors + [PeekErrorMessage(TokenIdent, s.peek.kind)]));
  }

  /** A `let` whose name is missing still yields a statement, the typed nil, after one error. */
  lemma FailedLetIsKept(s: PState)
    requires ValidP(s) && s.cur.kind == TokenLet && s.peek.kind != TokenIdent
    ensures var r := ParseProgram(s);
      && |r.0.statements| > 0 && r.0.statements[0] == NilLetStatement
      && |r.1.errors| > |s.errors| && r.1.errors[|s.errors|] == PeekErrorMessage(TokenIdent, s.peek.kind)
  {
    var s1 := s.(errors := s.errors + [PeekErrorMessage(TokenIdent, s.peek.kind)]);
    FailedLet(s);
    assert ParseStatement(s).0 == NilLetStatement;
    assert ParseStatement(s).1 == s1;
    assert [] + [NilLetStatement] == [NilLetStatement];
    assert ParseProgram(s) == ProgramLoop(s, []);
    assert ProgramLoop(s, []) == ProgramLoop(NextToken(s1), [NilLetStatement]);
  }

  /** The same inside a block, whose loop appends every statement it parses. */
  lemma FailedLetInBlock(s: PState, acc: seq<Statement>)
    requires ValidP(s) && s.cur.kind == TokenLet && s.peek.kind != TokenIdent
    ensures BlockLoop(s, acc).0.statements[|acc|] == NilLetStatement
  {
    FailedLet(s);
  }

  /** An empty program: no statements and no errors. */
  lemma EmptyInput(ts: Stream)
    requires ts.tokens == []
    ensures ParseProgram(Initial(ts)) == (Program([]), Initial(ts))
  {
  }

  /** `()`: no parameters, and the window is on the `)`. */
  lemma EmptyParameters(s: PState)
    requires ValidP(s) && s.peek.kind == TokenRParen
    ensures ParseFunctionParameters(s) == (Some([]), NextToken(s))
  {
  }

  /** An empty argument list likewise. */
  lemma EmptyArguments(s: PState, end: TokenType)
    requires ValidP(s) && s.peek.kind == end
    ensures ParseExpressionList(s, end) == (ArgumentList([]), NextToken(s))
  {
  }

  /** `(p, q)`: both names in source order, whatever the kind of their tokens. */
  lemma TwoParameters(s: PState)
    requires ValidP(s) && s.peek.kind != TokenRParen
    requires At(s.ts, s.pos).kind == TokenComma && At(s.ts, s.pos + 2).kind == TokenRParen
    ensures ParseFunctionParameters(s).0 == Some([s.peek.literal, At(s.ts, s.pos + 1).literal])
  {
    var s1 := NextToken(s);
    var s3 := NextToken(NextToken(s1));
    assert s1.cur == s.peek && s1.peek == At(s.ts, s.pos);
    assert s3.cur == At(s.ts, s.pos + 1) && s3.peek == At(s.ts, s.pos + 2);
    var names := [s.peek.literal, s3.cur.literal];
    assert ParameterLoop(s3, names) == (names, s3);
    assert s1.peek.kind == TokenComma;
    assert [s.peek.literal] + [s3.cur.literal] == names;
    assert ParameterLoop(s1, [s.peek.literal]) == ParameterLoop(s3, names);
    assert ExpectPeek(s3, TokenRParen).0;
  }

  /** The token `k` places past `cur`: `peek` for 0, `peekToken` after `k` more calls of `nextToken`. */
  function Ahead(s: PState, k: nat): Token
    requires ValidP(s)
    decreases k
  {
    if k == 0 then s.peek else Ahead(NextToken(s), k - 1)
  }

  /** Two calls of `nextToken` move every lookahead two places closer. */
  lemma AheadTwo(s: PState, k: nat)
    requires ValidP(s)
    ensures Ahead(s, k + 2) == Ahead(NextToken(NextToken(s)), k)
  {
  }

  /**
   * What the `for p.peekTokenIs(TokenComma)` loop of `parseFunctionParameters`
   * walks over: `n` times a comma and one more token, then a `close` token.
   */
  ghost predicate CommaRun(s: PState, n: nat, close: TokenType)
    requires ValidP(s)
    decreases n
  {
    if n == 0 then s.peek.kind == close
    else s.peek.kind == TokenComma && CommaRun(NextToken(NextToken(s)), n - 1, close)
  }

  /** The literals of the tokens after the commas of `CommaRun(s, n, close)`. */
  function RunNames(s: PState, n: nat): (names: seq<string>)
    requires ValidP(s)
    ensures |names| == n
    decreases n
  {
    if n == 0 then [] else [NextToken(s).peek.literal] + RunNames(NextToken(NextToken(s)), n - 1)
  }

  /** Name `i` of `RunNames(s, n)` is the literal `2i + 1` tokens ahead. */
  lemma {:induction false} RunNamesAt(s: PState, n: nat, i: nat)
    requires ValidP(s) && i < n
    ensures RunNames(s, n)[i] == Ahead(s, 2 * i + 1).literal
    decreases i
  {
    var s2 := NextToken(NextToken(s));
    if i > 0 {
      RunNamesAt(s2, n - 1, i - 1);
      AheadTwo(s, 2 * (i - 1) + 1);
    }
  }

  /**
   * The `for p.peekTokenIs(TokenComma)` loop over `CommaRun(s, n, close)`:
   * each turn appends the literal after the comma, in source order, whatever
   * its kind, and the loop stops on the `close` token.
   */
  lemma {:induction false} ParameterRun(s: PState, acc: seq<string>, n: nat, close: TokenType)
    requires ValidP(s) && close != TokenComma && CommaRun(s, n, close)
    ensures var r := ParameterLoop(s, acc);
      r.0 == acc + RunNames(s, n) && r.1.peek.kind == close
    decreases n
  {
    if n > 0 {
      var s2 := NextToken(NextToken(s));
      ParameterRun(s2, acc + [s2.cur.literal], n - 1, close);
      AppendCons(acc, s2.cur.literal, RunNames(s2, n - 1));
    }
  }

  lemma AppendCons<T>(acc: seq<T>, x: T, rest: seq<T>)
    ensures acc + [x] + rest == acc + ([x] + rest)
  {
  }

  /**
   * `(p0, p1, …, pn)` for any `n`: the `n + 1` names come back in source order
   * and without an error, and the window is on the `)`.
   */
  lemma ParametersInOrder(s: PState, n: nat)
    requires ValidP(s) && s.peek.kind != TokenRParen && CommaRun(NextToken(s), n, TokenRParen)
    ensures var r := ParseFunctionParameters(s);
      && r.0 == Some([s.peek.literal] + RunNames(NextToken(s), n))
      && r.1.errors == s.errors && r.1.cur.kind == TokenRParen
  {
    var s1 := NextToken(s);
    ParameterRun(s1, [s1.cur.literal], n, TokenRParen);
  }

  /** The names of `ParametersInOrder` by position: name `i` is the token `2i` ahead. */
  lemma ParameterNamesAt(s: PState, n: nat, i: nat)
    requires ValidP(s) && i <= n
    ensures ([s.peek.literal] + RunNames(NextToken(s), n))[i] == Ahead(s, 2 * i).literal
  {
    if i > 0 {
      RunNamesAt(NextToken(s), n, i - 1);
    }
  }

  // ---------------------------------------------------------------------------
  // Statements
  // ---------------------------------------------------------------------------

  /** `return E;`: the node holds what `parseExpression(LOWEST)` returns after `return`; the optional `;` adds no error. */
  lemma ReturnStatementShape(s: PState)
    requires ValidP(s) && s.cur.kind == TokenReturn
    ensures var value := ParseExpression(NextToken(s), LOWEST); var r := ParseStatement(s);
      && r.0 == ReturnStatement(value.0)
      && r.1.errors == value.1.errors
      && r.1.pos == value.1.pos + (if value.1.peek.kind == TokenSemicolon then 1 else 0)
  {
  }

  /** `return x;`: a return of one identifier, with the window left on the `;`. */
  lemma ReturnIdentifier(s: PState)
    requires ValidP(s) && s.cur.kind == TokenReturn && s.peek.kind == TokenIdent
    requires At(s.ts, s.pos).kind == TokenSemicolon
    ensures var r := ParseStatement(s);
      r.0 == ReturnStatement(Id(s.peek.literal)) && r.1.cur.kind == TokenSemicolon && r.1.errors == s.errors
  {
    var s1 := NextToken(s);
    IdentifierPrefix(s1, LOWEST);
    InfixLoopStops(s1, LOWEST, Id(s1.cur.literal));
    ReturnStatementShape(s);
  }

  /** `let NAME = E;`: the node holds the name and what `parseExpression(LOWEST)` returns after `=`; the optional `;` adds no error. */
  lemma LetStatementShape(s: PState)
    requires ValidP(s) && s.cur.kind == TokenLet && s.peek.kind == TokenIdent && At(s.ts, s.pos).kind == TokenEqual
    ensures var value := ParseExpression(NextToken(NextToken(NextToken(s))), LOWEST); var r := ParseStatement(s);
      && r.0 == LetStatement(s.peek.literal, value.0)
      && r.1.errors == value.1.errors
      && r.1.pos == value.1.pos + (if value.1.peek.kind == TokenSemicolon then 1 else 0)
  {
  }

  /** `let NAME` not followed by `=`: the typed nil again, after one "expected `=`" error and with the window on the name. */
  lemma LetMissingEqual(s: PState)
    requires ValidP(s) && s.cur.kind == TokenLet && s.peek.kind == TokenIdent && At(s.ts, s.pos).kind != TokenEqual
    ensures var r := ParseStatement(s);
      && r.0 == NilLetStatement
      && r.1.errors == s.errors + [PeekErrorMessage(TokenEqual, At(s.ts, s.pos).kind)]
      && r.1.cur == s.peek
  {
  }

  /** `let NAME =;`: the value is absent and the statement is still built, after one "no prefix parse function" error for `;`. */
  lemma LetWithoutValue(s: PState)
    requires ValidP(s) && s.cur.kind == TokenLet && s.peek.kind == TokenIdent && At(s.ts, s.pos).kind == TokenEqual
    requires At(s.ts, s.pos + 1).kind == TokenSemicolon
    ensures var r := ParseStatement(s);
      r.0 == LetStatement(s.peek.literal, None) && r.1.errors == s.errors + [NoPrefixMessage(TokenSemicolon)]
  {
    var s3 := NextToken(NextToken(NextToken(s)));
    assert s3.cur.kind == TokenSemicolon && !HasPrefixFn(TokenSemicolon);
    NoPrefixError(s3, LOWEST);
    LetStatementShape(s);
  }

  /** Any other first token starts an expression statement holding `parseExpression(LOWEST)`'s result. */
  lemma ExpressionStatementShape(s: PState)
    requires ValidP(s) && s.cur.kind != TokenLet && s.cur.kind != TokenReturn
    ensures var e := ParseExpression(s, LOWEST); var r := ParseStatement(s);
      && r.0 == ExpressionStatement(e.0)
      && r.1.errors == e.1.errors
      && r.1.pos == e.1.pos + (if e.1.peek.kind == TokenSemicolon then 1 else 0)
  {
  }

  /** A statement opening with a token that has no prefix production (`(`, `true`, `while`, …): a nil expression, after one error. */
  lemma NoPrefixStatement(s: PState)
    requires ValidP(s) && !HasPrefixFn(s.cur.kind) && s.cur.kind != TokenLet && s.cur.kind != TokenReturn
    ensures var r := ParseStatement(s);
      r.0 == ExpressionStatement(None) && r.1.errors == s.errors + [NoPrefixMessage(s.cur.kind)]
  {
    NoPrefixError(s, LOWEST);
    ExpressionStatementShape(s);
  }

  // ---------------------------------------------------------------------------
  // `if`
  // ---------------------------------------------------------------------------

  /** `if` not followed by `(`: no expression, after one error, and the window stays. */
  lemma IfMissingLParen(s: PState)
    requires ValidP(s) && s.peek.kind != TokenLParen
    ensures ParseIfExpression(s) == (None, s.(errors := s.errors + [PeekErrorMessage(TokenLParen, s.peek.kind)]))
  {
  }

  /** `if (`: the condition is parsed at `LOWEST` right after the `(`, and the rest is `IfConsequence`. */
  lemma IfCondition(s: PState)
    requires ValidP(s) && s.peek.kind == TokenLParen
    ensures var c := ParseExpression(NextToken(NextToken(s)), LOWEST);
      ParseIfExpression(s) == IfConsequence(c.1, c.0)
  {
  }

  /** The condition not closed by `)`: no expression, after one error. */
  lemma IfMissingRParen(s: PState, condition: Option<Expression>)
    requires ValidP(s) && s.peek.kind != TokenRParen
    ensures IfConsequence(s, condition) == (None, s.(errors := s.errors + [PeekErrorMessage(TokenRParen, s.peek.kind)]))
  {
  }

  /** `)` not followed by `{`: no expression, after one error, with the window on the `)`. */
  lemma IfMissingLBrace(s: PState, condition: Option<Expression>)
    requires ValidP(s) && s.peek.kind == TokenRParen && At(s.ts, s.pos).kind != TokenLBrace
    ensures var s1 := NextToken(s);
      IfConsequence(s, condition) == (None, s1.(errors := s.errors + [PeekErrorMessage(TokenLBrace, s1.peek.kind)]))
  {
  }

  /** `) {`: the consequence is the block after the `{`, and the rest is `IfAlternative`. */
  lemma IfConsequenceBlock(s: PState, condition: Option<Expression>)
    requires ValidP(s) && s.peek.kind == TokenRParen && At(s.ts, s.pos).kind == TokenLBrace
    ensures var b := ParseBlockStatement(NextToken(NextToken(s)));
      IfConsequence(s, condition) == IfAlternative(b.1, condition, b.0)
  {
  }

  /** No `else`: the node has no alternative, and nothing moves. */
  lemma IfWithoutElse(s: PState, condition: Option<Expression>, consequence: BlockStatement)
    requires ValidP(s) && s.peek.kind != TokenElse
    ensures IfAlternative(s, condition, consequence) == (Some(IfExpression(condition, consequence, None)), s)
  {
  }

  /** `else {`: the alternative is the block after the `{`. */
  lemma IfWithElse(s: PState, condition: Option<Expression>, consequence: BlockStatement)
    requires ValidP(s) && s.peek.kind == TokenElse && At(s.ts, s.pos).kind == TokenLBrace
    ensures var b := ParseBlockStatement(NextToken(NextToken(s)));
      IfAlternative(s, condition, consequence) == (Some(IfExpression(condition, consequence, Some(b.0))), b.1)
  {
  }

  /** `else` not followed by `{`: the whole `if` is lost, after one error. */
  lemma ElseMissingLBrace(s: PState, condition: Option<Expression>, consequence: BlockStatement)
    requires ValidP(s) && s.peek.kind == TokenElse && At(s.ts, s.pos).kind != TokenLBrace
    ensures var s1 := NextToken(s);
      IfAlternative(s, condition, consequence) == (None, s1.(errors := s.errors + [PeekErrorMessage(TokenLBrace, s1.peek.kind)]))
  {
  }

  /** After the consequence: an `IfExpression` on the condition, or nothing after a missing `{` of the `else`. */
  lemma IfAlternativeResult(s: PState, condition: Option<Expression>, consequence: BlockStatement)
    requires ValidP(s)
    ensures var r := IfAlternative(s, condition, consequence);
      && (r.0.Some? ==> r.0.value.IfExpression? && r.0.value.condition == condition)
      && (r.0.None? ==> |r.1.errors| > |s.errors|
                        && r.1.errors[|r.1.errors| - 1] == PeekErrorMessage(TokenLBrace, r.1.peek.kind))
  {
    if s.peek.kind != TokenElse {
      IfWithoutElse(s, condition, consequence);
    } else if At(s.ts, s.pos).kind == TokenLBrace {
      IfWithElse(s, condition, consequence);
    } else {
      ElseMissingLBrace(s, condition, consequence);
    }
  }

  /**
   * After the condition: an `IfExpression` on it, or nothing after at least one
   * error (`IfMissingRParen`, `IfMissingLBrace` and `ElseMissingLBrace` say which).
   */
  lemma IfConsequenceResult(s: PState, condition: Option<Expression>)
    requires ValidP(s)
    ensures var r := IfConsequence(s, condition);
      && (r.0.Some? ==> r.0.value.IfExpression? && r.0.value.condition == condition)
      && (r.0.None? ==> |r.1.errors| > |s.errors|)
  {
    if s.peek.kind != TokenRParen {
      IfMissingRParen(s, condition);
    } else if At(s.ts, s.pos).kind != TokenLBrace {
      IfMissingLBrace(s, condition);
    } else {
      var b := ParseBlockStatement(NextToken(NextToken(s)));
      IfConsequenceBlock(s, condition);
      IfAlternativeResult(b.1, condition, b.0);
    }
  }

  /**
   * Every `if`: either an `IfExpression` whose condition is the expression after
   * `(`, or nothing after at least one error (`IfMissingLParen` and the lemmas
   * of `IfConsequenceResult` say which).
   */
  lemma IfResult(s: PState)
    requires ValidP(s)
    ensures var r := ParseIfExpression(s);
      && (r.0.Some? ==> r.0.value.IfExpression? && r.0.value.condition == ParseExpression(NextToken(NextToken(s)), LOWEST).0)
      && (r.0.None? ==> |r.1.errors| > |s.errors|)
  {
    if s.peek.kind == TokenLParen {
      var c := ParseExpression(NextToken(NextToken(s)), LOWEST);
      IfCondition(s);
      IfConsequenceResult(c.1, c.0);
    } else {
      IfMissingLParen(s);
    }
  }

  // ---------------------------------------------------------------------------
  // `fn` and calls
  // ---------------------------------------------------------------------------

  /** `fn` not followed by `(`: no expression, after one error. */
  lemma FunctionMissingLParen(s: PState)
    requires ValidP(s) && s.peek.kind != TokenLParen
    ensures ParseFunctionLiteral(s) == (None, s.(errors := s.errors + [PeekErrorMessage(TokenLParen, s.peek.kind)]))
  {
  }

  /**
   * `fn (`: the parameters, then `{` and the body. A failed parameter list does
   * not stop the production: if a `{` follows, the node is built with nil parameters.
   */
  lemma FunctionLiteralShape(s: PState)
    requires ValidP(s) && s.peek.kind == TokenLParen
    ensures var p := ParseFunctionParameters(NextToken(s)); var r := ParseFunctionLiteral(s);
      && (p.1.peek.kind == TokenLBrace ==>
            var b := ParseBlockStatement(NextToken(p.1)); r == (Some(FunctionLiteral(p.0, b.0)), b.1))
      && (p.1.peek.kind != TokenLBrace ==>
            r == (None, p.1.(errors := p.1.errors + [PeekErrorMessage(TokenLBrace, p.1.peek.kind)])))
  {
  }

  /** `(` after an operand binds tightest: the loop turns the left side into the callee of a call. */
  lemma CallStep(s: PState, precedence: int, left: Option<Expression>)
    requires ValidP(s) && s.peek.kind == TokenLParen && LOWEST <= precedence < CALL
    ensures var c := ParseCallExpression(NextToken(s), left);
      InfixLoop(s, precedence, left) == InfixLoop(c.1, precedence, c.0)
  {
    var s1 := NextToken(s);
    assert Precedence(s.peek.kind) == CALL && HasInfixFn(s.peek.kind);
    assert s1.cur.kind == TokenLParen;
    var c := ParseCallExpression(s1, left);
    assert InfixParse(s1, left) == c;
  }

  /**
   * `parseCallExpression` always builds a call on its callee. A missing `)`
   * leaves the nil argument slice, with the last error saying so; otherwise the
   * window is on the `)` and the first argument is the expression after `(`.
   */
  lemma CallShape(s: PState, callee: Option<Expression>)
    requires ValidP(s)
    ensures var r := ParseCallExpression(s, callee);
      && r.0.Some? && r.0.value.CallExpression? && r.0.value.callee == callee
      && (s.peek.kind == TokenRParen ==> r.0.value.arguments == ArgumentList([]))
      && (r.0.value.arguments.NilArguments? ==>
            r.1.errors[|r.1.errors| - 1] == PeekErrorMessage(TokenRParen, r.1.peek.kind))
      && (r.0.value.arguments.ArgumentList? ==> r.1.cur.kind == TokenRParen)
      && (s.peek.kind != TokenRParen && r.0.value.arguments.ArgumentList? ==>
            r.0.value.arguments.items[0] == ParseExpression(NextToken(s), LOWEST).0)
  {
  }

  /** `010` is octal 8. */
  lemma OctalIntegerLiteral(s: PState)
    requires ValidP(s) && s.cur.literal == "010"
    ensures ParseIntegerLiteral(s) == (Some(IntegerLiteral(8)), s)
  {
    OctalExamples();
  }

  /** A digit run that does not convert: one error quoting it unchanged, and no node. */
  lemma IntegerError(s: PState)
    requires ValidP(s) && AllDecimal(s.cur.literal) && ParseInt(s.cur.literal).None?
    ensures ParseIntegerLiteral(s) == (None, s.(errors := s.errors + ["could not parse \"" + s.cur.literal + "\" as integer"]))
  {
    var lit := s.cur.literal;
    QuoteDigits(lit);
    assert IntegerErrorMessage(lit) == "could not parse " + ("\"" + lit + "\"") + " as integer";
    assert "could not parse " + ("\"" + lit + "\"") == "could not parse \"" + lit + "\"";
    assert "could not parse \"" + lit + "\"" + " as integer" == "could not parse \"" + lit + "\" as integer";
  }

  /** `08` is not a numeral in base 0: a leading `0` selects octal. */
  lemma BadOctalIntegerLiteral(s: PState)
    requires ValidP(s) && s.cur.literal == "08"
    ensures ParseIntegerLiteral(s) == (None, s.(errors := s.errors + ["could not parse \"" + s.cur.literal + "\" as integer"]))
  {
    OctalRejectsEightAndNine();
    assert AllDecimal(s.cur.literal);
    IntegerError(s);
  }
}
