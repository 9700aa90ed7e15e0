/**
 * The Pratt parser of compiler/src/parser.go, as functions on `PState`, the
 * value of all the parser's fields. The parser reads its lexer only through
 * `nextToken`, so here the lexer is the stream of tokens it will return
 * (TokenStream): `pos` counts the tokens taken from it so far. The class in
 * Parser is proved against these functions.
 *
 * The parser only ever sees tokens its lexer produced, so `ValidP` carries the
 * fact that no token of the stream or the window has a kind from `NeverLexed`;
 * the four prefix productions registered for such kinds (float, string,
 * `TokenTrue`, `TokenFalse`) are therefore never dispatched to.
 *
 * Termination follows `Measure`: every production that recurses has consumed a
 * token first.
 */
module ParserSpec {
  import opened Wrappers
  import opened Tokens
  import opened GoStrconv
  import opened Lexer
  import opened TokenStream
  import opened Ast

  datatype PState = PState(ts: Stream, pos: nat, cur: Token, peek: Token, errors: seq<string>)

  ghost predicate ValidP(s: PState) {
    ValidStream(s.ts) && !NeverLexed(s.cur.kind) && !NeverLexed(s.peek.kind)
  }

  /** Tokens the window can still move past: unread stream tokens count three, a pending non-EOF token two or one. */
  function Measure(s: PState): nat {
    3 * (if s.pos < |s.ts.tokens| then |s.ts.tokens| - s.pos else 0)
    + (if s.peek.kind == TokenEOF then 0 else 2) + (if s.cur.kind == TokenEOF then 0 else 1)
  }

  /** What every production keeps: validity, the stream, progress, and errors only appended to. */
  ghost predicate Follows(s: PState, r: PState) {
    ValidP(r) && r.ts == s.ts && Measure(r) <= Measure(s) && s.errors <= r.errors
  }

  // ---------------------------------------------------------------------------
  // Tables
  // ---------------------------------------------------------------------------

  const LOWEST: int := 1
  const EQUALS: int := 2
  const LESSGREATER: int := 3
  const SUM: int := 4
  const PRODUCT: int := 5
  const PREFIX: int := 6
  const CALL: int := 7

  /** The kinds `NewParser` registers a prefix production for. */
  predicate HasPrefixFn(t: TokenType) {
    || t.TokenIdent? || t.TokenInt? || t.TokenFloat? || t.TokenString? || t.TokenTrue?
    || t.TokenFalse? || t.TokenMinus? || t.TokenIf? || t.TokenFn?
  }

  /** The kinds `NewParser` registers an infix production for. */
  predicate HasInfixFn(t: TokenType) {
    || t.TokenPlus? || t.TokenMinus? || t.TokenSlash? || t.TokenStar? || t.TokenEqualEqual?
    || t.TokenNotEqual? || t.TokenLess? || t.TokenGreater? || t.TokenLParen?
  }

  /** The `precedences` map, `None` where it has no entry. */
  function PrecedenceEntry(t: TokenType): Option<int> {
    match t
    case TokenEqualEqual => Some(EQUALS)
    case TokenNotEqual => Some(EQUALS)
    case TokenLess => Some(LESSGREATER)
    case TokenGreater => Some(LESSGREATER)
    case TokenPlus => Some(SUM)
    case TokenMinus => Some(SUM)
    case TokenSlash => Some(PRODUCT)
    case TokenStar => Some(PRODUCT)
    case TokenLParen => Some(CALL)
    case _ => None
  }

  /** `peekPrecedence` and `curPrecedence`: the entry, or `LOWEST` without one. */
  function Precedence(t: TokenType): (p: int)
    ensures LOWEST <= p <= CALL
    ensures p > LOWEST ==> HasInfixFn(t)
  {
    match PrecedenceEntry(t)
    case Some(p) => p
    case None => LOWEST
  }

  // ---------------------------------------------------------------------------
  // Messages
  // ---------------------------------------------------------------------------

  /** `peekError`: both kinds printed with `%d`, as ordinals. */
  function PeekErrorMessage(expected: TokenType, got: TokenType): string {
    "expected next token to be " + Itoa(Ordinal(expected)) + ", got " + Itoa(Ordinal(got)) + " instead"
  }

  function NoPrefixMessage(t: TokenType): string {
    "no prefix parse function for " + Itoa(Ordinal(t)) + " found"
  }

  function IntegerErrorMessage(literal: string): string {
    "could not parse " + Quote(literal) + " as integer"
  }

  // ---------------------------------------------------------------------------
  // The token window
  // ---------------------------------------------------------------------------

  /** The state `NewParser` returns on a lexer whose stream is `ts`: a zero `Token` in both slots, then two `nextToken`s. */
  function Initial(ts: Stream): (r: PState)
    requires ValidStream(ts)
    ensures ValidP(r) && r.ts == ts && r.pos == 2 && r.errors == []
    ensures r.cur == At(ts, 0) && r.peek == At(ts, 1)
  {
    var zero := Token(TokenLet, "", 0, 0);
    NextToken(NextToken(PState(ts, 0, zero, zero, [])))
  }

  /** `NewParser(NewLexer(input))`. */
  function Init(input: string): (r: PState)
    ensures ValidP(r) && r.ts == StreamFrom(Start(input))
  {
    Initial(StreamFrom(Start(input)))
  }

  /** `nextToken`: shift the window by one token, the next one of the stream. */
  function NextToken(s: PState): (r: PState)
    requires ValidP(s)
    ensures Follows(s, r) && r.errors == s.errors && r.cur == s.peek
    ensures Measure(s) > 0 ==> Measure(r) < Measure(s)
  {
    PState(s.ts, s.pos + 1, s.peek, At(s.ts, s.pos), s.errors)
  }

  /** `expectPeek`: advance on a match, otherwise record one error and stay put. */
  function ExpectPeek(s: PState, t: TokenType): (r: (bool, PState))
    requires ValidP(s)
    ensures Follows(s, r.1)
    ensures r.0 <==> s.peek.kind == t
    ensures r.0 ==> r.1 == NextToken(s) && r.1.cur.kind == t && r.1.errors == s.errors
    ensures r.0 && t != TokenEOF ==> Measure(r.1) < Measure(s)
    ensures !r.0 ==> r.1 == s.(errors := s.errors + [PeekErrorMessage(t, s.peek.kind)])
  {
    if s.peek.kind == t then (true, NextToken(s))
    else (false, s.(errors := s.errors + [PeekErrorMessage(t, s.peek.kind)]))
  }

  /** The optional `;` after a statement. */
  function SkipSemicolon(s: PState): (r: PState)
    requires ValidP(s)
    ensures Follows(s, r) && r.errors == s.errors
  {
    if s.peek.kind == TokenSemicolon then NextToken(s) else s
  }

  // ---------------------------------------------------------------------------
  // Statements
  // ---------------------------------------------------------------------------

  /** `ParseProgram`. */
  function ParseProgram(s: PState): (r: (Program, PState))
    requires ValidP(s)
    ensures Follows(s, r.1) && r.1.cur.kind == TokenEOF
    decreases Measure(s), 22
  {
    ProgramLoop(s, [])
  }

  /** The loop of `ParseProgram`: one statement appended per turn, until `cur` is EOF. */
  function ProgramLoop(s: PState, acc: seq<Statement>): (r: (Program, PState))
    requires ValidP(s)
    ensures Follows(s, r.1) && r.1.cur.kind == TokenEOF
    ensures acc <= r.0.statements
    ensures s.cur.kind != TokenEOF ==> |r.0.statements| > |acc| && r.0.statements[|acc|] == ParseStatement(s).0
    decreases Measure(s), 21
  {
    if s.cur.kind == TokenEOF then (Program(acc), s)
    else
      var (stmt, s1) := ParseStatement(s);
      ProgramLoop(NextToken(s1), acc + [stmt])
  }

  /** `parseStatement`. */
  function ParseStatement(s: PState): (r: (Statement, PState))
    requires ValidP(s)
    ensures Follows(s, r.1)
    decreases Measure(s), 18
  {
    if s.cur.kind == TokenLet then ParseLetStatement(s)
    else if s.cur.kind == TokenReturn then ParseReturnStatement(s)
    else ParseExpressionStatement(s)
  }

  /** `parseLetStatement`; its `return nil` is the typed nil, kept as `NilLetStatement`. */
  function ParseLetStatement(s: PState): (r: (Statement, PState))
    requires ValidP(s)
    ensures Follows(s, r.1)
    decreases Measure(s), 17
  {
    var (ok, s1) := ExpectPeek(s, TokenIdent);
    if !ok then (NilLetStatement, s1)
    else
      var name := s1.cur.literal;
      var (ok2, s2) := ExpectPeek(s1, TokenEqual);
      if !ok2 then (NilLetStatement, s2)
      else
        var (value, s3) := ParseExpression(NextToken(s2), LOWEST);
        (LetStatement(name, value), SkipSemicolon(s3))
  }

  /** `parseReturnStatement`. */
  function ParseReturnStatement(s: PState): (r: (Statement, PState))
    requires ValidP(s) && s.cur.kind == TokenReturn
    ensures Follows(s, r.1)
    decreases Measure(s), 17
  {
    var (value, s1) := ParseExpression(NextToken(s), LOWEST);
    (ReturnStatement(value), SkipSemicolon(s1))
  }

  /** `parseExpressionStatement`. */
  function ParseExpressionStatement(s: PState): (r: (Statement, PState))
    requires ValidP(s)
    ensures Follows(s, r.1)
    decreases Measure(s), 17
  {
    var (e, s1) := ParseExpression(s, LOWEST);
    (ExpressionStatement(e), SkipSemicolon(s1))
  }

  // ---------------------------------------------------------------------------
  // Expressions
  // ---------------------------------------------------------------------------

  /** `parseExpression`: a prefix production, then infix productions while `peek` binds tighter. */
  function ParseExpression(s: PState, precedence: int): (r: (Option<Expression>, PState))
    requires ValidP(s)
    ensures Follows(s, r.1)
    decreases Measure(s), 10
  {
    if !HasPrefixFn(s.cur.kind) then
      (None, s.(errors := s.errors + [NoPrefixMessage(s.cur.kind)]))
    else
      var (left, s1) := PrefixParse(s);
      InfixLoop(s1, precedence, left)
  }

  /** The loop of `parseExpression`. */
  function InfixLoop(s: PState, precedence: int, left: Option<Expression>): (r: (Option<Expression>, PState))
    requires ValidP(s)
    ensures Follows(s, r.1)
    ensures r.1.peek.kind == TokenSemicolon || Precedence(r.1.peek.kind) <= precedence || !HasInfixFn(r.1.peek.kind)
    decreases Measure(s), 8
  {
    if s.peek.kind == TokenSemicolon || !(precedence < Precedence(s.peek.kind)) then (left, s)
    else if !HasInfixFn(s.peek.kind) then (left, s)
    else
      var (e, s1) := InfixParse(NextToken(s), left);
      InfixLoop(s1, precedence, e)
  }

  /** `prefixParseFns[cur]()`, for a kind the lexer can produce. */
  function PrefixParse(s: PState): (r: (Option<Expression>, PState))
    requires ValidP(s) && HasPrefixFn(s.cur.kind)
    ensures Follows(s, r.1)
    decreases Measure(s), 9
  {
    match s.cur.kind
    case TokenIdent => (Some(Identifier(s.cur.literal)), s)
    case TokenInt => ParseIntegerLiteral(s)
    case TokenMinus => ParsePrefixExpression(s)
    case TokenIf => ParseIfExpression(s)
    case TokenFn => ParseFunctionLiteral(s)
  }

  /** `parseIntegerLiteral`: `strconv.ParseInt(literal, 0, 64)`. */
  function ParseIntegerLiteral(s: PState): (r: (Option<Expression>, PState))
    requires ValidP(s)
    ensures Follows(s, r.1) && r.1.pos == s.pos && r.1.cur == s.cur && r.1.peek == s.peek
    ensures ParseInt(s.cur.literal).Some? <==> r.0.Some?
    ensures r.0.Some? ==> r.0 == Some(IntegerLiteral(ParseInt(s.cur.literal).value)) && r.1.errors == s.errors
    ensures r.0.None? ==> r.1.errors == s.errors + [IntegerErrorMessage(s.cur.literal)]
  {
    match ParseInt(s.cur.literal)
    case Some(v) => (Some(IntegerLiteral(v)), s)
    case None => (None, s.(errors := s.errors + [IntegerErrorMessage(s.cur.literal)]))
  }

  /** `parsePrefixExpression`: the operand is parsed at `PREFIX`. */
  function ParsePrefixExpression(s: PState): (r: (Option<Expression>, PState))
    requires ValidP(s) && s.cur.kind == TokenMinus
    ensures Follows(s, r.1)
    decreases Measure(s), 8
  {
    var (right, s1) := ParseExpression(NextToken(s), PREFIX);
    (Some(PrefixExpression(s.cur.literal, right)), s1)
  }

  /** `infixParseFns[cur](left)`. */
  function InfixParse(s: PState, left: Option<Expression>): (r: (Option<Expression>, PState))
    requires ValidP(s) && HasInfixFn(s.cur.kind)
    ensures Follows(s, r.1)
    decreases Measure(s), 14
  {
    if s.cur.kind == TokenLParen then ParseCallExpression(s, left) else ParseInfixExpression(s, left)
  }

  /** `parseInfixExpression`: the right operand is parsed at the operator's own precedence. */
  function ParseInfixExpression(s: PState, left: Option<Expression>): (r: (Option<Expression>, PState))
    requires ValidP(s)
    ensures Follows(s, r.1)
    decreases Measure(s), 13
  {
    var (right, s1) := ParseExpression(NextToken(s), Precedence(s.cur.kind));
    (Some(InfixExpression(left, s.cur.literal, right)), s1)
  }

  /** `parseIfExpression`, up to its condition. */
  function ParseIfExpression(s: PState): (r: (Option<Expression>, PState))
    requires ValidP(s)
    ensures Follows(s, r.1)
    decreases Measure(s), 8
  {
    var (ok, s1) := ExpectPeek(s, TokenLParen);
    if !ok then (None, s1)
    else
      var (condition, s2) := ParseExpression(NextToken(s1), LOWEST);
      IfConsequence(s2, condition)
  }

  /** `parseIfExpression` after its condition: `)`, `{`, the consequence block. */
  function IfConsequence(s: PState, condition: Option<Expression>): (r: (Option<Expression>, PState))
    requires ValidP(s)
    ensures Follows(s, r.1)
    decreases Measure(s), 24
  {
    var (ok, s1) := ExpectPeek(s, TokenRParen);
    if !ok then (None, s1)
    else
      var (ok2, s2) := ExpectPeek(s1, TokenLBrace);
      if !ok2 then (None, s2)
      else
        var (consequence, s3) := ParseBlockStatement(s2);
        IfAlternative(s3, condition, consequence)
  }

  /** `parseIfExpression` after its consequence: the optional `else` block. */
  function IfAlternative(s: PState, condition: Option<Expression>, consequence: BlockStatement): (r: (Option<Expression>, PState))
    requires ValidP(s)
    ensures Follows(s, r.1)
    decreases Measure(s), 23
  {
    if s.peek.kind != TokenElse then (Some(IfExpression(condition, consequence, None)), s)
    else
      var (ok, s1) := ExpectPeek(NextToken(s), TokenLBrace);
      if !ok then (None, s1)
      else
        var (alternative, s2) := ParseBlockStatement(s1);
        (Some(IfExpression(condition, consequence, Some(alternative))), s2)
  }

  /** `parseBlockStatement`. */
  function ParseBlockStatement(s: PState): (r: (BlockStatement, PState))
    requires ValidP(s)
    ensures Follows(s, r.1) && (r.1.cur.kind == TokenRBrace || r.1.cur.kind == TokenEOF)
    decreases Measure(s), 20
  {
    BlockLoop(NextToken(s), [])
  }

  /** The loop of `parseBlockStatement`: one statement appended per turn, until `}` or EOF. */
  function BlockLoop(s: PState, acc: seq<Statement>): (r: (BlockStatement, PState))
    requires ValidP(s)
    ensures Follows(s, r.1) && (r.1.cur.kind == TokenRBrace || r.1.cur.kind == TokenEOF)
    ensures acc <= r.0.statements
    ensures s.cur.kind != TokenRBrace && s.cur.kind != TokenEOF ==>
      |r.0.statements| > |acc| && r.0.statements[|acc|] == ParseStatement(s).0
    decreases Measure(s), 19
  {
    if s.cur.kind == TokenRBrace || s.cur.kind == TokenEOF then (BlockStatement(acc), s)
    else
      var (stmt, s1) := ParseStatement(s);
      BlockLoop(NextToken(s1), acc + [stmt])
  }

  /** `parseFunctionLiteral`. */
  function ParseFunctionLiteral(s: PState): (r: (Option<Expression>, PState))
    requires ValidP(s)
    ensures Follows(s, r.1)
    decreases Measure(s), 8
  {
    var (ok, s1) := ExpectPeek(s, TokenLParen);
    if !ok then (None, s1)
    else
      var (parameters, s2) := ParseFunctionParameters(s1);
      var (ok2, s3) := ExpectPeek(s2, TokenLBrace);
      if !ok2 then (None, s3)
      else
        var (body, s4) := ParseBlockStatement(s3);
        (Some(FunctionLiteral(parameters, body)), s4)
  }

  /** `parseFunctionParameters`: each name is `cur`'s literal, whatever its kind. */
  function ParseFunctionParameters(s: PState): (r: (Option<seq<string>>, PState))
    requires ValidP(s)
    ensures Follows(s, r.1)
    ensures r.0.Some? ==> r.1.cur.kind == TokenRParen && r.1.errors == s.errors
    ensures r.0.None? ==>
      |r.1.errors| == |s.errors| + 1 && r.1.errors[|s.errors|] == PeekErrorMessage(TokenRParen, r.1.peek.kind)
  {
    if s.peek.kind == TokenRParen then (Some([]), NextToken(s))
    else
      var s1 := NextToken(s);
      var (names, s2) := ParameterLoop(s1, [s1.cur.literal]);
      var (ok, s3) := ExpectPeek(s2, TokenRParen);
      if ok then (Some(names), s3) else (None, s3)
  }

  /** The `for p.peekTokenIs(TokenComma)` loop of `parseFunctionParameters`. */
  function ParameterLoop(s: PState, acc: seq<string>): (r: (seq<string>, PState))
    requires ValidP(s)
    ensures Follows(s, r.1) && r.1.errors == s.errors
    ensures acc <= r.0 && r.1.peek.kind != TokenComma
    ensures s.peek.kind == TokenComma ==> |r.0| > |acc| && r.0[|acc|] == NextToken(NextToken(s)).cur.literal
    decreases Measure(s)
  {
    if s.peek.kind == TokenComma then
      var s1 := NextToken(NextToken(s));
      ParameterLoop(s1, acc + [s1.cur.literal])
    else (acc, s)
  }

  /** `parseCallExpression`. */
  function ParseCallExpression(s: PState, callee: Option<Expression>): (r: (Option<Expression>, PState))
    requires ValidP(s)
    ensures Follows(s, r.1)
    decreases Measure(s), 13
  {
    var (arguments, s1) := ParseExpressionList(s, TokenRParen);
    (Some(CallExpression(callee, arguments)), s1)
  }

  /** `parseExpressionList`. */
  function ParseExpressionList(s: PState, end: TokenType): (r: (Arguments, PState))
    requires ValidP(s)
    ensures Follows(s, r.1)
    ensures r.0.ArgumentList? ==> r.1.cur.kind == end
    ensures r.0.NilArguments? ==>
      r.1.peek.kind != end && |r.1.errors| > |s.errors| && r.1.errors[|r.1.errors| - 1] == PeekErrorMessage(end, r.1.peek.kind)
    ensures s.peek.kind == end ==> r.0 == ArgumentList([])
    ensures s.peek.kind != end && r.0.ArgumentList? ==>
      |r.0.items| >= 1 && r.0.items[0] == ParseExpression(NextToken(s), LOWEST).0
    decreases Measure(s), 12
  {
    var s0 := NextToken(s);
    if s.peek.kind == end then (ArgumentList([]), s0)
    else
      var (first, s1) := ParseExpression(s0, LOWEST);
      assert Measure(s1) <= Measure(s);
      var (items, s2) := ListLoop(s1, [first]);
      var (ok, s3) := ExpectPeek(s2, end);
      if ok then (ArgumentList(items), s3) else (NilArguments, s3)
  }

  /** The `for p.peekTokenIs(TokenComma)` loop of `parseExpressionList`. */
  function ListLoop(s: PState, acc: seq<Option<Expression>>): (r: (seq<Option<Expression>>, PState))
    requires ValidP(s)
    ensures Follows(s, r.1)
    ensures acc <= r.0 && r.1.peek.kind != TokenComma
    ensures s.peek.kind == TokenComma ==>
      |r.0| > |acc| && r.0[|acc|] == ParseExpression(NextToken(NextToken(s)), LOWEST).0
    decreases Measure(s), 11
  {
    if s.peek.kind == TokenComma then
      var (item, s1) := ParseExpression(NextToken(NextToken(s)), LOWEST);
      ListLoop(s1, acc + [item])
    else (acc, s)
  }
}
