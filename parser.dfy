/**
 * The parser object of compiler/src/parser.go: a two-token window over a
 * `Lexer`, and an `errors` list appended in place. Each method's result and new
 * state are exactly those of the ParserSpec function of the same name.
 */
module Parser {
  import opened Wrappers
  import opened Tokens
  import opened Lexer
  import opened Ast
  import opened LexerLemmas
  import opened TokenStream
  import Spec = ParserSpec

  class Parser {
    const lexer: Lexer
    var errors: seq<string>
    var cur: Token
    var peek: Token
    /** The lexer's state when the parser was made, and every token it returns from there. */
    ghost const start: LexState
    ghost const stream: Stream
    /** How many tokens the parser has taken from its lexer. */
    ghost var pos: nat

    ghost function State(): Spec.PState
      reads this
    {
      Spec.PState(stream, pos, cur, peek, errors)
    }

    /** The lexer has returned exactly the first `pos` tokens of `stream`. */
    ghost predicate Valid()
      reads this, lexer
    {
      && ValidLex(start) && start.peek == NUL && stream == StreamFrom(start)
      && lexer.State() == After(start, pos)
      && Spec.ValidP(State())
    }

    /** `NewParser`: zero tokens in the window, then two `nextToken`s. */
    constructor (l: Lexer)
      requires l.Valid() && l.peek == NUL
      modifies l
      ensures lexer == l && start == old(l.State()) && Valid()
      ensures State() == Spec.Initial(StreamFrom(old(l.State())))
    {
      lexer := l;
      errors := [];
      cur := Token(TokenLet, "", 0, 0);
      peek := Token(TokenLet, "", 0, 0);
      start := l.State();
      stream := StreamFrom(l.State());
      pos := 0;
      new;
      NextToken();
      NextToken();
    }

    predicate CurTokenIs(t: TokenType)
      reads this
    {
      cur.kind == t
    }

    predicate PeekTokenIs(t: TokenType)
      reads this
    {
      peek.kind == t
    }

    function PeekPrecedence(): int
      reads this
    {
      Spec.Precedence(peek.kind)
    }

    function CurPrecedence(): int
      reads this
    {
      Spec.Precedence(cur.kind)
    }

    method NextToken()
      requires Valid()
      modifies this, lexer
      ensures Valid() && State() == Spec.NextToken(old(State()))
    {
      StepMatches(start, pos);
      cur := peek;
      peek := lexer.NextToken();
      pos := pos + 1;
    }

    method PeekError(t: TokenType)
      modifies this`errors
      ensures errors == old(errors) + [Spec.PeekErrorMessage(t, peek.kind)]
    {
      errors := errors + [Spec.PeekErrorMessage(t, peek.kind)];
    }

    method NoPrefixParseFnError(t: TokenType)
      modifies this`errors
      ensures errors == old(errors) + [Spec.NoPrefixMessage(t)]
    {
      errors := errors + [Spec.NoPrefixMessage(t)];
    }

    method ExpectPeek(t: TokenType) returns (ok: bool)
      requires Valid()
      modifies this, lexer
      ensures Valid()
      ensures (ok, State()) == Spec.ExpectPeek(old(State()), t)
    {
      if PeekTokenIs(t) {
        NextToken();
        return true;
      } else {
        PeekError(t);
        return false;
      }
    }

    method ParseProgram() returns (program: Program)
      requires Valid()
      modifies this, lexer
      ensures Valid()
      ensures (program, State()) == Spec.ParseProgram(old(State()))
      decreases Spec.Measure(State()), 22
    {
      var statements := [];
      while cur.kind != TokenEOF
        invariant Valid() && Spec.Measure(State()) <= Spec.Measure(old(State()))
        invariant Spec.ProgramLoop(State(), statements) == Spec.ProgramLoop(old(State()), [])
        decreases Spec.Measure(State())
      {
        var stmt := ParseStatement();
        statements := statements + [stmt];
        NextToken();
      }
      program := Program(statements);
    }

    method ParseStatement() returns (stmt: Statement)
      requires Valid()
      modifies this, lexer
      ensures Valid()
      ensures (stmt, State()) == Spec.ParseStatement(old(State()))
      decreases Spec.Measure(State()), 18
    {
      if cur.kind == TokenLet {
        stmt := ParseLetStatement();
      } else if cur.kind == TokenReturn {
        stmt := ParseReturnStatement();
      } else {
        stmt := ParseExpressionStatement();
      }
    }

    method ParseLetStatement() returns (stmt: Statement)
      requires Valid()
      modifies this, lexer
      ensures Valid()
      ensures (stmt, State()) == Spec.ParseLetStatement(old(State()))
      decreases Spec.Measure(State()), 17
    {
      var ok := ExpectPeek(TokenIdent);
      if !ok {
        return NilLetStatement;
      }
      var name := cur.literal;
      ok := ExpectPeek(TokenEqual);
      if !ok {
        return NilLetStatement;
      }
      NextToken();
      var value := ParseExpression(Spec.LOWEST);
      if PeekTokenIs(TokenSemicolon) {
        NextToken();
      }
      stmt := LetStatement(name, value);
    }

    method ParseReturnStatement() returns (stmt: Statement)
      requires Valid() && cur.kind == TokenReturn
      modifies this, lexer
      ensures Valid()
      ensures (stmt, State()) == Spec.ParseReturnStatement(old(State()))
      decreases Spec.Measure(State()), 17
    {
      NextToken();
      var value := ParseExpression(Spec.LOWEST);
      if PeekTokenIs(TokenSemicolon) {
        NextToken();
      }
      stmt := ReturnStatement(value);
    }

    method ParseExpressionStatement() returns (stmt: Statement)
      requires Valid()
      modifies this, lexer
      ensures Valid()
      ensures (stmt, State()) == Spec.ParseExpressionStatement(old(State()))
      decreases Spec.Measure(State()), 17
    {
      var e := ParseExpression(Spec.LOWEST);
      stmt := ExpressionStatement(e);
      if PeekTokenIs(TokenSemicolon) {
        NextToken();
      }
    }

    method ParseExpression(precedence: int) returns (leftExp: Option<Expression>)
      requires Valid()
      modifies this, lexer
      ensures Valid()
      ensures (leftExp, State()) == Spec.ParseExpression(old(State()), precedence)
      decreases Spec.Measure(State()), 10
    {
      if !Spec.HasPrefixFn(cur.kind) {
        NoPrefixParseFnError(cur.kind);
        return None;
      }
      leftExp := ParsePrefix();
      leftExp := InfixLoop(precedence, leftExp);
    }

    /** The loop of `parseExpression`: infix productions while `peek` binds tighter than `precedence`. */
    method InfixLoop(precedence: int, left: Option<Expression>) returns (leftExp: Option<Expression>)
      requires Valid()
      modifies this, lexer
      ensures Valid()
      ensures (leftExp, State()) == Spec.InfixLoop(old(State()), precedence, left)
      decreases Spec.Measure(State()), 8
    {
      leftExp := left;
      while !PeekTokenIs(TokenSemicolon) && precedence < PeekPrecedence()
        invariant Valid() && Spec.Measure(State()) <= Spec.Measure(old(State()))
        invariant Spec.InfixLoop(State(), precedence, leftExp) == Spec.InfixLoop(old(State()), precedence, left)
        decreases Spec.Measure(State())
      {
        if !Spec.HasInfixFn(peek.kind) {
          return leftExp;
        }
        ghost var before := State();
        ghost var previous := leftExp;
        assert Spec.Measure(before) > 0;
        NextToken();
        ghost var shifted := State();
        assert Spec.Measure(shifted) < Spec.Measure(before);
        leftExp := ParseInfix(leftExp);
        assert Spec.Measure(State()) <= Spec.Measure(shifted);
        assert Spec.InfixLoop(State(), precedence, leftExp) == Spec.InfixLoop(before, precedence, previous);
      }
    }

    /** `prefixParseFns[cur]()`: the production registered for `cur`'s kind. */
    method ParsePrefix() returns (e: Option<Expression>)
      requires Valid() && Spec.HasPrefixFn(cur.kind)
      modifies this, lexer
      ensures Valid()
      ensures (e, State()) == Spec.PrefixParse(old(State()))
      decreases Spec.Measure(State()), 9
    {
      match cur.kind {
        case TokenIdent => e := ParseIdentifier();
        case TokenInt => e := ParseIntegerLiteral();
        case TokenMinus => e := ParsePrefixExpression();
        case TokenIf => e := ParseIfExpression();
        case TokenFn => e := ParseFunctionLiteral();
      }
    }

    /** `infixParseFns[cur](left)`: a call on `(`, a binary operator otherwise. */
    method ParseInfix(left: Option<Expression>) returns (e: Option<Expression>)
      requires Valid() && Spec.HasInfixFn(cur.kind)
      modifies this, lexer
      ensures Valid()
      ensures (e, State()) == Spec.InfixParse(old(State()), left)
      decreases Spec.Measure(State()), 14
    {
      if cur.kind == TokenLParen {
        e := ParseCallExpression(left);
      } else {
        e := ParseInfixExpression(left);
      }
    }

    method ParseIdentifier() returns (e: Option<Expression>)
      ensures e == Some(Identifier(cur.literal))
    {
      e := Some(Identifier(cur.literal));
    }

    method ParseIntegerLiteral() returns (e: Option<Expression>)
      requires Valid()
      modifies this`errors
      ensures Valid()
      ensures (e, State()) == Spec.ParseIntegerLiteral(old(State()))
    {
      var value := GoStrconv.ParseInt(cur.literal);
      if value.None? {
        errors := errors + [Spec.IntegerErrorMessage(cur.literal)];
        return None;
      }
      e := Some(IntegerLiteral(value.value));
    }

    method ParsePrefixExpression() returns (e: Option<Expression>)
      requires Valid() && cur.kind == TokenMinus
      modifies this, lexer
      ensures Valid()
      ensures (e, State()) == Spec.ParsePrefixExpression(old(State()))
      decreases Spec.Measure(State()), 8
    {
      var operator := cur.literal;
      NextToken();
      var right := ParseExpression(Spec.PREFIX);
      e := Some(PrefixExpression(operator, right));
    }

    method ParseInfixExpression(left: Option<Expression>) returns (e: Option<Expression>)
      requires Valid()
      modifies this, lexer
      ensures Valid()
      ensures (e, State()) == Spec.ParseInfixExpression(old(State()), left)
      decreases Spec.Measure(State()), 13
    {
      var operator := cur.literal;
      var precedence := CurPrecedence();
      NextToken();
      var right := ParseExpression(precedence);
      e := Some(InfixExpression(left, operator, right));
    }

    method ParseIfExpression() returns (e: Option<Expression>)
      requires Valid()
      modifies this, lexer
      ensures Valid()
      ensures (e, State()) == Spec.ParseIfExpression(old(State()))
      decreases Spec.Measure(State()), 8
    {
      var ok := ExpectPeek(TokenLParen);
      if !ok {
        return None;
      }
      NextToken();
      var condition := ParseExpression(Spec.LOWEST);
      ghost var afterCondition := State();
      ok := ExpectPeek(TokenRParen);
      if !ok {
        return None;
      }
      ok := ExpectPeek(TokenLBrace);
      if !ok {
        return None;
      }
      var consequence := ParseBlockStatement();
      ghost var afterConsequence := State();
      assert Spec.IfConsequence(afterCondition, condition) == Spec.IfAlternative(afterConsequence, condition, consequence);
      if PeekTokenIs(TokenElse) {
        NextToken();
        ok := ExpectPeek(TokenLBrace);
        if !ok {
          return None;
        }
        var alternative := ParseBlockStatement();
        e := Some(IfExpression(condition, consequence, Some(alternative)));
      } else {
        e := Some(IfExpression(condition, consequence, None));
      }
    }

    method ParseBlockStatement() returns (block: BlockStatement)
      requires Valid()
      modifies this, lexer
      ensures Valid()
      ensures (block, State()) == Spec.ParseBlockStatement(old(State()))
      decreases Spec.Measure(State()), 20
    {
      var statements := [];
      NextToken();
      while !CurTokenIs(TokenRBrace) && !CurTokenIs(TokenEOF)
        invariant Valid() && Spec.Measure(State()) <= Spec.Measure(old(State()))
        invariant Spec.BlockLoop(State(), statements) == Spec.ParseBlockStatement(old(State()))
        decreases Spec.Measure(State())
      {
        var stmt := ParseStatement();
        statements := statements + [stmt];
        NextToken();
      }
      block := BlockStatement(statements);
    }

    method ParseFunctionLiteral() returns (e: Option<Expression>)
      requires Valid()
      modifies this, lexer
      ensures Valid()
      ensures (e, State()) == Spec.ParseFunctionLiteral(old(State()))
      decreases Spec.Measure(State()), 8
    {
      var ok := ExpectPeek(TokenLParen);
      if !ok {
        return None;
      }
      var parameters := ParseFunctionParameters();
      ok := ExpectPeek(TokenLBrace);
      if !ok {
        return None;
      }
      var body := ParseBlockStatement();
      e := Some(FunctionLiteral(parameters, body));
    }

    method ParseFunctionParameters() returns (identifiers: Option<seq<string>>)
      requires Valid()
      modifies this, lexer
      ensures Valid()
      ensures (identifiers, State()) == Spec.ParseFunctionParameters(old(State()))
    {
      if PeekTokenIs(TokenRParen) {
        NextToken();
        return Some([]);
      }
      NextToken();
      var names := ParameterLoop([cur.literal]);
      var ok := ExpectPeek(TokenRParen);
      if !ok {
        return None;
      }
      identifiers := Some(names);
    }

    /** The `for p.peekTokenIs(TokenComma)` loop of `parseFunctionParameters`. */
    method ParameterLoop(acc: seq<string>) returns (names: seq<string>)
      requires Valid()
      modifies this, lexer
      ensures Valid()
      ensures (names, State()) == Spec.ParameterLoop(old(State()), acc)
    {
      names := acc;
      while PeekTokenIs(TokenComma)
        invariant Valid()
        invariant Spec.ParameterLoop(State(), names) == Spec.ParameterLoop(old(State()), acc)
        decreases Spec.Measure(State())
      {
        ghost var before := State();
        assert Spec.Measure(before) > 0;
        NextToken();
        assert Spec.Measure(State()) < Spec.Measure(before);
        NextToken();
        names := names + [cur.literal];
      }
    }

    method ParseCallExpression(callee: Option<Expression>) returns (e: Option<Expression>)
      requires Valid()
      modifies this, lexer
      ensures Valid()
      ensures (e, State()) == Spec.ParseCallExpression(old(State()), callee)
      decreases Spec.Measure(State()), 13
    {
      var arguments := ParseExpressionList(TokenRParen);
      e := Some(CallExpression(callee, arguments));
    }

    method ParseExpressionList(end: TokenType) returns (list: Arguments)
      requires Valid()
      modifies this, lexer
      ensures Valid()
      ensures (list, State()) == Spec.ParseExpressionList(old(State()), end)
      decreases Spec.Measure(State()), 12
    {
      if PeekTokenIs(end) {
        NextToken();
        return ArgumentList([]);
      }
      NextToken();
      var first := ParseExpression(Spec.LOWEST);
      var items := ListLoop([first]);
      var ok := ExpectPeek(end);
      if !ok {
        return NilArguments;
      }
      list := ArgumentList(items);
    }

    /** The `for p.peekTokenIs(TokenComma)` loop of `parseExpressionList`. */
    method ListLoop(acc: seq<Option<Expression>>) returns (items: seq<Option<Expression>>)
      requires Valid()
      modifies this, lexer
      ensures Valid()
      ensures (items, State()) == Spec.ListLoop(old(State()), acc)
      decreases Spec.Measure(State()), 11
    {
      items := acc;
      while PeekTokenIs(TokenComma)
        invariant Valid() && Spec.Measure(State()) <= Spec.Measure(old(State()))
        invariant Spec.ListLoop(State(), items) == Spec.ListLoop(old(State()), acc)
        decreases Spec.Measure(State())
      {
        ghost var before := State();
        assert Spec.Measure(before) > 0;
        NextToken();
        assert Spec.Measure(State()) < Spec.Measure(before);
        NextToken();
        ghost var shifted := State();
        assert Spec.Measure(shifted) < Spec.Measure(before);
        var item := ParseExpression(Spec.LOWEST);
        assert Spec.Measure(State()) <= Spec.Measure(shifted);
        items := items + [item];
      }
    }
  }
}
