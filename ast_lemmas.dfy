/** What the canonical rendering of ast.go guarantees. */
module AstLemmas {
  import opened Wrappers
  import opened GoStrconv
  import GoStrconvLemmas
  import opened Ast

  // ---------------------------------------------------------------------------
  // Lists: `strings.Join` and the statement fold
  // ---------------------------------------------------------------------------

  /** Joining two non-empty lists is joining each and putting one separator between them. */
  lemma {:induction false} JoinConcat(a: seq<string>, b: seq<string>, sep: string)
    requires |a| >= 1 && |b| >= 1
    ensures Join(a + b, sep) == Join(a, sep) + sep + Join(b, sep)
    decreases |b|
  {
    var ab := a + b;
    if |b| == 1 {
      assert ab[..|ab| - 1] == a;
    } else {
      var b' := b[..|b| - 1];
      assert ab[..|ab| - 1] == a + b';
      JoinConcat(a, b', sep);
    }
  }

  /** Each rendered parameter appears in `FunctionLiteral.String`, in order, separated by `", "`. */
  lemma FunctionParameterOrder(names: seq<string>, body: BlockStatement)
    requires RenderableBlock(body) && |names| >= 2
    ensures var e := FunctionLiteral(Some(names), body);
      Renderable(e) &&
      ExpressionString(e) == "fn(" + Join(names[..|names| - 1], ", ") + ", " + names[|names| - 1] + ") " + BlockString(body)
  {
  }

  /** The fold does not depend on which block is named as the ghost parent. */
  lemma {:induction false} StatementsParentIrrelevant(ss: seq<Statement>, p: BlockStatement, q: BlockStatement)
    requires forall i :: 0 <= i < |ss| ==> RenderableStatement(ss[i]) && ss[i] < p && ss[i] < q
    ensures StatementsString(ss, p) == StatementsString(ss, q)
    decreases |ss|
  {
    if |ss| > 0 {
      StatementsParentIrrelevant(ss[..|ss| - 1], p, q);
    }
  }

  /** Rendering a statement list is a homomorphism from `+` on lists to `+` on strings. */
  lemma {:induction false} StatementsConcat(a: seq<Statement>, b: seq<Statement>, p: BlockStatement, pa: BlockStatement, pb: BlockStatement)
    requires forall i :: 0 <= i < |a| ==> RenderableStatement(a[i]) && a[i] < pa
    requires forall i :: 0 <= i < |b| ==> RenderableStatement(b[i]) && b[i] < pb
    requires forall i :: 0 <= i < |a + b| ==> RenderableStatement((a + b)[i]) && (a + b)[i] < p
    ensures StatementsString(a + b, p) == StatementsString(a, pa) + StatementsString(b, pb)
    decreases |b|
  {
    if |b| == 0 {
      assert a + b == a;
      StatementsParentIrrelevant(a, p, pa);
    } else {
      var b' := b[..|b| - 1];
      assert (a + b)[..|a + b| - 1] == a + b';
      assert (a + b)[|a + b| - 1] == b[|b| - 1];
      StatementsConcat(a, b', p, pa, pb);
    }
  }

  /** A program renders as its statements' renderings with no separators. */
  lemma ProgramConcat(a: seq<Statement>, b: seq<Statement>)
    requires RenderableProgram(Program(a)) && RenderableProgram(Program(b))
    ensures RenderableProgram(Program(a + b))
    ensures ProgramString(Program(a + b)) == ProgramString(Program(a)) + ProgramString(Program(b))
  {
    var ab := a + b;
    assert forall i :: 0 <= i < |ab| ==> RenderableStatement(ab[i]) by {
      forall i | 0 <= i < |ab| ensures RenderableStatement(ab[i]) {
        if i < |a| { assert ab[i] == a[i]; } else { assert ab[i] == b[i - |a|]; }
      }
    }
    StatementsConcat(a, b, BlockStatement(ab), BlockStatement(a), BlockStatement(b));
  }

  /** Appending one statement to a program appends its rendering. */
  lemma ProgramAppend(ss: seq<Statement>, s: Statement)
    requires RenderableProgram(Program(ss)) && RenderableStatement(s)
    ensures RenderableProgram(Program(ss + [s]))
    ensures ProgramString(Program(ss + [s])) == ProgramString(Program(ss)) + StatementString(s)
  {
    ProgramConcat(ss, [s]);
    assert [s][..0] == [];
    assert StatementsString([s], BlockStatement([s])) == StatementsString([], BlockStatement([s])) + StatementString(s);
  }

  /** A program and a block with the same statements render alike. */
  lemma ProgramRendersLikeBlock(ss: seq<Statement>)
    requires RenderableProgram(Program(ss))
    ensures RenderableBlock(BlockStatement(ss))
    ensures ProgramString(Program(ss)) == BlockString(BlockStatement(ss))
  {
  }

  // ---------------------------------------------------------------------------
  // Statements
  // ---------------------------------------------------------------------------

  /**
   * A `let` or `return` with a value renders as the nil-valued form with the value's
   * rendering put in front of the final `;`, and a nil-valued one keeps only the frame.
   */
  lemma ValueSitsBeforeSemicolon(name: string, e: Expression)
    requires Renderable(e)
    ensures var bare := StatementString(LetStatement(name, None));
      bare == "let " + name + " = ;" &&
      StatementString(LetStatement(name, Some(e))) == bare[..|bare| - 1] + ExpressionString(e) + ";"
    ensures var bare := StatementString(ReturnStatement(None));
      bare == "return ;" &&
      StatementString(ReturnStatement(Some(e))) == bare[..|bare| - 1] + ExpressionString(e) + ";"
    ensures StatementString(ExpressionStatement(None)) == ""
  {
    var bare := StatementString(LetStatement(name, None));
    assert bare[..|bare| - 1] == "let " + name + " = ";
    var ret := StatementString(ReturnStatement(None));
    assert ret[..|ret| - 1] == "return ";
  }

  // ---------------------------------------------------------------------------
  // Literals
  // ---------------------------------------------------------------------------

  /** An integer literal renders as decimal text that base-0 `ParseInt` reads back. */
  lemma IntegerLiteralRoundTrip(v: Int64)
    ensures ParseInt(ExpressionString(IntegerLiteral(v))) == Some(v)
    ensures ExpressionTokenLiteral(IntegerLiteral(v)) == ExpressionString(IntegerLiteral(v))
  {
    GoStrconvLemmas.ParseIntOfItoa(v);
  }

  /**
   * A string literal is wrapped in quotes without escaping: its rendering is Go's `%q`
   * of the value exactly when no rune of the value needs an escape.
   */
  lemma StringLiteralIsUnescaped(v: string)
    ensures ExpressionString(StringLiteral(v)) == Quote(v) <==> forall i :: 0 <= i < |v| ==> QuoteChar(v[i]) == [v[i]]
  {
    QuoteBodyIdentity(v);
    var r := ExpressionString(StringLiteral(v));
    var q := Quote(v);
    if r == q {
      assert r[1..|r| - 1] == v;
      assert q[1..|q| - 1] == QuoteBody(v);
    }
  }

  lemma {:induction false} QuoteCharLength(c: char)
    ensures |QuoteChar(c)| >= 1
    ensures QuoteChar(c) != [c] ==> |QuoteChar(c)| >= 2
  {
  }

  lemma {:induction false} QuoteBodyLength(s: string)
    ensures |QuoteBody(s)| >= |s|
    ensures (exists i :: 0 <= i < |s| && QuoteChar(s[i]) != [s[i]]) ==> |QuoteBody(s)| > |s|
    decreases |s|
  {
    if s != [] {
      QuoteCharLength(s[0]);
      QuoteBodyLength(s[1..]);
      if exists i :: 0 <= i < |s| && QuoteChar(s[i]) != [s[i]] {
        var i :| 0 <= i < |s| && QuoteChar(s[i]) != [s[i]];
        if i > 0 {
          assert s[1..][i - 1] == s[i];
        }
      }
    }
  }

  lemma {:induction false} QuoteBodyIdentity(s: string)
    ensures QuoteBody(s) == s <==> forall i :: 0 <= i < |s| ==> QuoteChar(s[i]) == [s[i]]
    decreases |s|
  {
    QuoteBodyLength(s);
    if s != [] {
      QuoteBodyIdentity(s[1..]);
      if forall i :: 0 <= i < |s| ==> QuoteChar(s[i]) == [s[i]] {
        assert forall i :: 0 <= i < |s[1..]| ==> QuoteChar(s[1..][i]) == [s[1..][i]] by {
          forall i | 0 <= i < |s[1..]| ensures QuoteChar(s[1..][i]) == [s[1..][i]] {
            assert s[1..][i] == s[i + 1];
          }
        }
        assert QuoteBody(s) == [s[0]] + s[1..];
      }
    }
  }

  // ---------------------------------------------------------------------------
  // Fully parenthesised rendering
  // ---------------------------------------------------------------------------

  function Delta(c: char): int {
    if c == '(' then 1 else if c == ')' then -1 else 0
  }

  /** Opening minus closing parentheses. */
  function Depth(s: string): int
    decreases |s|
  {
    if s == [] then 0 else Depth(s[..|s| - 1]) + Delta(s[|s| - 1])
  }

  /** Every `)` closes an earlier `(`, and all are closed. */
  predicate Balanced(s: string) {
    Depth(s) == 0 && forall k :: 0 <= k <= |s| ==> Depth(s[..k]) >= 0
  }

  predicate ParenFree(s: string) {
    forall i :: 0 <= i < |s| ==> s[i] != '(' && s[i] != ')'
  }

  lemma {:induction false} DepthConcat(a: string, b: string)
    ensures Depth(a + b) == Depth(a) + Depth(b)
    decreases |b|
  {
    if b == [] {
      assert a + b == a;
    } else {
      assert (a + b)[..|a + b| - 1] == a + b[..|b| - 1];
      DepthConcat(a, b[..|b| - 1]);
    }
  }

  lemma {:induction false} ParenFreeDepth(s: string)
    requires ParenFree(s)
    ensures Depth(s) == 0
    decreases |s|
  {
    if s != [] {
      ParenFreeDepth(s[..|s| - 1]);
    }
  }

  lemma ParenFreeBalanced(s: string)
    requires ParenFree(s)
    ensures Balanced(s)
  {
    ParenFreeDepth(s);
    forall k | 0 <= k <= |s| ensures Depth(s[..k]) >= 0 {
      ParenFreeDepth(s[..k]);
    }
  }

  lemma BalancedConcat(a: string, b: string)
    requires Balanced(a) && Balanced(b)
    ensures Balanced(a + b)
  {
    DepthConcat(a, b);
    forall k | 0 <= k <= |a + b| ensures Depth((a + b)[..k]) >= 0 {
      if k <= |a| {
        assert (a + b)[..k] == a[..k];
      } else {
        assert (a + b)[..k] == a + b[..k - |a|];
        DepthConcat(a, b[..k - |a|]);
      }
    }
  }

  lemma BalancedWrap(s: string)
    requires Balanced(s)
    ensures Balanced("(" + s + ")")
  {
    var w := "(" + s + ")";
    DepthConcat("(" + s, ")");
    DepthConcat("(", s);
    forall k | 0 <= k <= |w| ensures Depth(w[..k]) >= 0 {
      if k == |w| {
        assert w[..k] == w;
      } else if k >= 1 {
        assert w[..k] == "(" + s[..k - 1];
        DepthConcat("(", s[..k - 1]);
      }
    }
  }

  /** Balanced pieces with a paren-free glue string between them. */
  lemma BalancedGlue(a: string, glue: string, b: string)
    requires Balanced(a) && ParenFree(glue) && Balanced(b)
    ensures Balanced(a + glue + b)
  {
    ParenFreeBalanced(glue);
    BalancedConcat(a, glue);
    BalancedConcat(a + glue, b);
  }

  lemma ItoaParenFree(n: int)
    ensures ParenFree(Itoa(n))
  {
  }

  /** Identifiers, operators, names and string values hold no parenthesis. */
  predicate PlainLeaves(e: Expression) {
    match e
    case Identifier(value) => ParenFree(value)
    case StringLiteral(value) => ParenFree(value)
    case PrefixExpression(operator, right) => ParenFree(operator) && (right.Some? ==> PlainLeaves(right.value))
    case InfixExpression(left, operator, right) =>
      ParenFree(operator) && (left.Some? ==> PlainLeaves(left.value)) && (right.Some? ==> PlainLeaves(right.value))
    case IfExpression(condition, consequence, alternative) =>
      && (condition.Some? ==> PlainLeaves(condition.value))
      && PlainBlock(consequence)
      && (alternative.Some? ==> PlainBlock(alternative.value))
    case FunctionLiteral(parameters, body) =>
      (forall i :: 0 <= i < |ParameterNames(parameters)| ==> ParenFree(ParameterNames(parameters)[i]))
      && PlainBlock(body)
    case CallExpression(callee, arguments) =>
      && (callee.Some? ==> PlainLeaves(callee.value))
      && (arguments.ArgumentList? ==>
            forall i :: 0 <= i < |arguments.items| ==>
              arguments.items[i].Some? ==> PlainLeaves(arguments.items[i].value))
    case _ => true
  }

  predicate PlainBlock(b: BlockStatement) {
    forall i :: 0 <= i < |b.statements| ==> PlainStatement(b.statements[i])
  }

  predicate PlainStatement(s: Statement) {
    match s
    case LetStatement(name, value) => ParenFree(name) && (value.Some? ==> PlainLeaves(value.value))
    case NilLetStatement => true
    case ReturnStatement(value) => value.Some? ==> PlainLeaves(value.value)
    case ExpressionStatement(expression) => expression.Some? ==> PlainLeaves(expression.value)
  }

  lemma {:induction false} BalancedJoin(parts: seq<string>, sep: string)
    requires ParenFree(sep) && forall i :: 0 <= i < |parts| ==> Balanced(parts[i])
    ensures Balanced(Join(parts, sep))
    decreases |parts|
  {
    if |parts| == 0 {
      ParenFreeBalanced("");
    } else if |parts| > 1 {
      BalancedJoin(parts[..|parts| - 1], sep);
      BalancedGlue(Join(parts[..|parts| - 1], sep), sep, parts[|parts| - 1]);
    }
  }

  lemma BalancedQuoted(value: string)
    requires ParenFree(value)
    ensures Balanced("\"" + value + "\"")
  {
    var q := "\"" + value + "\"";
    forall i | 0 <= i < |q| ensures q[i] != '(' && q[i] != ')' {
      if 0 < i < |q| - 1 { assert q[i] == value[i - 1]; }
    }
    ParenFreeBalanced(q);
  }

  lemma BalancedPrefix(operator: string, r: string)
    requires ParenFree(operator) && Balanced(r)
    ensures Balanced("(" + operator + r + ")")
  {
    ParenFreeBalanced(operator);
    BalancedConcat(operator, r);
    BalancedWrap(operator + r);
    assert "(" + operator + r + ")" == "(" + (operator + r) + ")";
  }

  lemma BalancedInfix(l: string, operator: string, r: string)
    requires Balanced(l) && ParenFree(operator) && Balanced(r)
    ensures var s := "(" + l + " " + operator + " " + r + ")";
      Balanced(s) && |s| >= 2 && s[0] == '(' && s[|s| - 1] == ')' && Balanced(s[1..|s| - 1])
  {
    var glue := " " + operator + " ";
    assert ParenFree(glue);
    BalancedGlue(l, glue, r);
    var inner := l + glue + r;
    BalancedWrap(inner);
    var s := "(" + l + " " + operator + " " + r + ")";
    assert s == "(" + inner + ")";
    assert s[1..|s| - 1] == inner;
  }

  lemma BalancedIf(c: string, b: string, tail: string)
    requires Balanced(c) && Balanced(b) && Balanced(tail)
    ensures Balanced("if" + c + " " + b + tail)
  {
    ParenFreeBalanced("if");
    BalancedConcat("if", c);
    BalancedGlue("if" + c, " ", b);
    BalancedConcat("if" + c + " " + b, tail);
  }

  lemma BalancedElse(b: string)
    requires Balanced(b)
    ensures Balanced("else " + b)
  {
    ParenFreeBalanced("else ");
    BalancedConcat("else ", b);
  }

  lemma BalancedFunction(j: string, body: string)
    requires Balanced(j) && Balanced(body)
    ensures Balanced("fn" + "(" + j + ") " + body)
  {
    BalancedWrap(j);
    ParenFreeBalanced("fn");
    BalancedConcat("fn", "(" + j + ")");
    BalancedGlue("fn" + ("(" + j + ")"), " ", body);
    assert "fn" + "(" + j + ") " + body == "fn" + ("(" + j + ")") + " " + body;
  }

  lemma BalancedCall(f: string, j: string)
    requires Balanced(f) && Balanced(j)
    ensures Balanced(f + "(" + j + ")")
  {
    BalancedWrap(j);
    BalancedConcat(f, "(" + j + ")");
    assert f + "(" + j + ")" == f + ("(" + j + ")");
  }

  /**
   * With paren-free leaves, every rendering is balanced: each `(` that an
   * infix, prefix, call or parameter list opens is closed by its own `)`.
   */
  lemma {:induction false} BalancedExpression(e: Expression)
    requires Renderable(e) && PlainLeaves(e)
    ensures Balanced(ExpressionString(e))
    decreases e, 1
  {
    match e
    case Identifier(value) =>
      ParenFreeBalanced(value);
    case IntegerLiteral(value) =>
      ItoaParenFree(value);
      ParenFreeBalanced(Itoa(value));
    case StringLiteral(value) =>
      BalancedQuoted(value);
    case BooleanLiteral(value) =>
      ParenFreeBalanced(ExpressionString(e));
    case PrefixExpression(operator, right) =>
      BalancedExpression(right.value);
      BalancedPrefix(operator, ExpressionString(right.value));
    case InfixExpression(left, operator, right) =>
      BalancedExpression(left.value);
      BalancedExpression(right.value);
      BalancedInfix(ExpressionString(left.value), operator, ExpressionString(right.value));
    case IfExpression(condition, consequence, alternative) =>
      BalancedExpression(condition.value);
      BalancedBlock(consequence);
      if alternative.Some? {
        BalancedBlock(alternative.value);
        BalancedElse(BlockString(alternative.value));
      } else {
        ParenFreeBalanced("");
      }
      BalancedIf(ExpressionString(condition.value), BlockString(consequence),
        if alternative.Some? then "else " + BlockString(alternative.value) else "");
    case FunctionLiteral(parameters, body) =>
      var names := ParameterNames(parameters);
      forall i | 0 <= i < |names| ensures Balanced(names[i]) {
        ParenFreeBalanced(names[i]);
      }
      BalancedJoin(names, ", ");
      BalancedBlock(body);
      BalancedFunction(Join(names, ", "), BlockString(body));
    case CallExpression(callee, arguments) =>
      var items := ArgumentItems(arguments);
      var args := ArgumentStrings(items, e);
      forall i | 0 <= i < |items| ensures Balanced(args[i]) {
        BalancedExpression(items[i].value);
      }
      BalancedJoin(args, ", ");
      BalancedExpression(callee.value);
      BalancedCall(ExpressionString(callee.value), Join(args, ", "));
  }

  lemma {:induction false} BalancedBlock(b: BlockStatement)
    requires RenderableBlock(b) && PlainBlock(b)
    ensures Balanced(BlockString(b))
    decreases b, 1
  {
    BalancedStatements(b.statements, b);
  }

  lemma {:induction false} BalancedStatements(ss: seq<Statement>, parent: BlockStatement)
    requires forall i :: 0 <= i < |ss| ==> RenderableStatement(ss[i]) && PlainStatement(ss[i]) && ss[i] < parent
    ensures Balanced(StatementsString(ss, parent))
    decreases parent, 0, |ss|
  {
    if |ss| == 0 {
      ParenFreeBalanced("");
    } else {
      BalancedStatements(ss[..|ss| - 1], parent);
      BalancedStatement(ss[|ss| - 1]);
      BalancedConcat(StatementsString(ss[..|ss| - 1], parent), StatementString(ss[|ss| - 1]));
    }
  }

  lemma {:induction false} BalancedStatement(s: Statement)
    requires RenderableStatement(s) && PlainStatement(s)
    ensures Balanced(StatementString(s))
    decreases s, 1
  {
    match s
    case LetStatement(name, value) =>
      BalancedOperand(value);
      LetPrefixParenFree(name);
      BalancedTerminated("let " + name + " = ", OperandString(value));
      assert StatementString(s) == "let " + name + " = " + OperandString(value) + ";";
    case ReturnStatement(value) =>
      BalancedOperand(value);
      BalancedTerminated("return ", OperandString(value));
      assert StatementString(s) == "return " + OperandString(value) + ";";
    case ExpressionStatement(expression) =>
      BalancedOperand(expression);
  }

  /** A statement's optional expression, rendered as `Statement.String` does: nothing when absent. */
  function OperandString(value: Option<Expression>): string
    requires value.Some? ==> Renderable(value.value)
  {
    if value.Some? then ExpressionString(value.value) else ""
  }

  lemma {:induction false} BalancedOperand(value: Option<Expression>)
    requires value.Some? ==> Renderable(value.value) && PlainLeaves(value.value)
    ensures Balanced(OperandString(value))
    decreases value, 0
  {
    if value.Some? {
      BalancedExpression(value.value);
    } else {
      ParenFreeBalanced("");
    }
  }

  lemma LetPrefixParenFree(name: string)
    requires ParenFree(name)
    ensures ParenFree("let " + name + " = ")
  {
    var p := "let " + name + " = ";
    forall i | 0 <= i < |p| ensures p[i] != '(' && p[i] != ')' {
      if 4 <= i < 4 + |name| {
        assert p[i] == name[i - 4];
      }
    }
  }

  /** A paren-free lead, a balanced body and the closing `;`. */
  lemma BalancedTerminated(lead: string, body: string)
    requires ParenFree(lead) && Balanced(body)
    ensures Balanced(lead + body + ";")
  {
    ParenFreeBalanced(lead);
    BalancedConcat(lead, body);
    ParenFreeBalanced(";");
    BalancedConcat(lead + body, ";");
  }

  /** Under paren-free leaves, an infix expression's rendering is wrapped in one matching pair. */
  lemma InfixIsParenthesised(e: Expression)
    requires e.InfixExpression? && Renderable(e) && PlainLeaves(e)
    ensures var s := ExpressionString(e);
      |s| >= 2 && s[0] == '(' && s[|s| - 1] == ')' && Balanced(s[1..|s| - 1])
  {
    BalancedExpression(e.left.value);
    BalancedExpression(e.right.value);
    BalancedInfix(ExpressionString(e.left.value), e.operator, ExpressionString(e.right.value));
  }
}
