/**
 * The Lumen syntax tree and its canonical rendering (compiler/src/ast.go).
 *
 * A Go field of interface or `*T` type that may be nil is an `Option`; a nil
 * slice of arguments is `NilArguments`, and a nil parameter slice is `None`.
 * `NilLetStatement` is the typed nil `*LetStatement` that `parseLetStatement`
 * returns on failure: it is a non-nil `Statement` whose `TokenLiteral` is "let"
 * and whose `String` dereferences nil.
 */
module Ast {
  import opened Wrappers
  import opened GoStrconv

  datatype Expression =
    | Identifier(value: string)
    | IntegerLiteral(intValue: Int64)
    | StringLiteral(value: string)
    | BooleanLiteral(boolValue: bool)
    | PrefixExpression(operator: string, right: Option<Expression>)
    | InfixExpression(left: Option<Expression>, operator: string, right: Option<Expression>)
    | IfExpression(condition: Option<Expression>, consequence: BlockStatement, alternative: Option<BlockStatement>)
    | FunctionLiteral(parameters: Option<seq<string>>, body: BlockStatement)
    | CallExpression(callee: Option<Expression>, arguments: Arguments)

  /** `CallExpression.Arguments`: the nil slice, or a slice whose entries may be nil. */
  datatype Arguments = NilArguments | ArgumentList(items: seq<Option<Expression>>)

  datatype BlockStatement = BlockStatement(statements: seq<Statement>)

  datatype Statement =
    | LetStatement(name: string, value: Option<Expression>)
    | NilLetStatement
    | ReturnStatement(returnValue: Option<Expression>)
    | ExpressionStatement(expression: Option<Expression>)

  datatype Program = Program(statements: seq<Statement>)

  /** The items of an argument list; the nil slice ranges over nothing. */
  function ArgumentItems(args: Arguments): seq<Option<Expression>> {
    if args.NilArguments? then [] else args.items
  }

  /** The parameter names; the nil slice ranges over nothing. */
  function ParameterNames(ps: Option<seq<string>>): seq<string> {
    if ps.None? then [] else ps.value
  }

  /** `String` reaches no nil: the subtrees it dereferences without a check are present. */
  predicate Renderable(e: Expression) {
    match e
    case PrefixExpression(_, right) => right.Some? && Renderable(right.value)
    case InfixExpression(left, _, right) =>
      left.Some? && Renderable(left.value) && right.Some? && Renderable(right.value)
    case IfExpression(condition, consequence, alternative) =>
      && condition.Some? && Renderable(condition.value)
      && RenderableBlock(consequence)
      && (alternative.Some? ==> RenderableBlock(alternative.value))
    case FunctionLiteral(_, body) => RenderableBlock(body)
    case CallExpression(callee, arguments) =>
      && callee.Some? && Renderable(callee.value)
      && (arguments.ArgumentList? ==>
            forall i :: 0 <= i < |arguments.items| ==>
              arguments.items[i].Some? && Renderable(arguments.items[i].value))
    case _ => true
  }

  predicate RenderableBlock(b: BlockStatement) {
    forall i :: 0 <= i < |b.statements| ==> RenderableStatement(b.statements[i])
  }

  predicate RenderableStatement(s: Statement) {
    match s
    case LetStatement(_, value) => value.Some? ==> Renderable(value.value)
    case NilLetStatement => false
    case ReturnStatement(value) => value.Some? ==> Renderable(value.value)
    case ExpressionStatement(expression) => expression.Some? ==> Renderable(expression.value)
  }

  predicate RenderableProgram(p: Program) {
    forall i :: 0 <= i < |p.statements| ==> RenderableStatement(p.statements[i])
  }

  /** `strings.Join`. */
  function Join(parts: seq<string>, sep: string): string
    decreases |parts|
  {
    if |parts| == 0 then ""
    else if |parts| == 1 then parts[0]
    else Join(parts[..|parts| - 1], sep) + sep + parts[|parts| - 1]
  }

  /** `String` of each node kind. */
  function ExpressionString(e: Expression): string
    requires Renderable(e)
    decreases e, 1
  {
    match e
    case Identifier(value) => value
    case IntegerLiteral(value) => Itoa(value)
    case StringLiteral(value) => "\"" + value + "\""
    case BooleanLiteral(value) => if value then "true" else "false"
    case PrefixExpression(operator, right) => "(" + operator + ExpressionString(right.value) + ")"
    case InfixExpression(left, operator, right) =>
      "(" + ExpressionString(left.value) + " " + operator + " " + ExpressionString(right.value) + ")"
    case IfExpression(condition, consequence, alternative) =>
      "if" + ExpressionString(condition.value) + " " + BlockString(consequence)
      + (if alternative.Some? then "else " + BlockString(alternative.value) else "")
    case FunctionLiteral(parameters, body) =>
      "fn" + "(" + Join(ParameterNames(parameters), ", ") + ") " + BlockString(body)
    case CallExpression(callee, arguments) =>
      ExpressionString(callee.value) + "(" + Join(ArgumentStrings(ArgumentItems(arguments), e), ", ") + ")"
  }

  /** The `args` slice `CallExpression.String` builds: one rendering per argument, in order. */
  function ArgumentStrings(items: seq<Option<Expression>>, ghost parent: Expression): (r: seq<string>)
    requires forall i :: 0 <= i < |items| ==> items[i].Some? && Renderable(items[i].value) && items[i].value < parent
    ensures |r| == |items|
    ensures forall i :: 0 <= i < |items| ==> r[i] == ExpressionString(items[i].value)
    decreases parent, 0, |items|
  {
    if |items| == 0 then []
    else ArgumentStrings(items[..|items| - 1], parent) + [ExpressionString(items[|items| - 1].value)]
  }

  function BlockString(b: BlockStatement): string
    requires RenderableBlock(b)
    decreases b, 1
  {
    StatementsString(b.statements, b)
  }

  /** The `for … range` loop of `Program.String` and `BlockStatement.String`. */
  function StatementsString(ss: seq<Statement>, ghost parent: BlockStatement): string
    requires forall i :: 0 <= i < |ss| ==> RenderableStatement(ss[i]) && ss[i] < parent
    decreases parent, 0, |ss|
  {
    if |ss| == 0 then "" else StatementsString(ss[..|ss| - 1], parent) + StatementString(ss[|ss| - 1])
  }

  function StatementString(s: Statement): string
    requires RenderableStatement(s)
    decreases s, 1
  {
    match s
    case LetStatement(name, value) =>
      "let " + name + " = " + (if value.Some? then ExpressionString(value.value) else "") + ";"
    case ReturnStatement(value) =>
      "return " + (if value.Some? then ExpressionString(value.value) else "") + ";"
    case ExpressionStatement(expression) =>
      if expression.Some? then ExpressionString(expression.value) else ""
  }

  function ProgramString(p: Program): string
    requires RenderableProgram(p)
  {
    StatementsString(p.statements, BlockStatement(p.statements))
  }

  /** `TokenLiteral` of each expression kind. */
  function ExpressionTokenLiteral(e: Expression): string {
    match e
    case Identifier(value) => value
    case IntegerLiteral(value) => Itoa(value)
    case StringLiteral(value) => value
    case BooleanLiteral(value) => if value then "true" else "false"
    case PrefixExpression(operator, _) => operator
    case InfixExpression(_, operator, _) => operator
    case IfExpression(_, _, _) => "if"
    case FunctionLiteral(_, _) => "fn"
    case CallExpression(_, _) => "("
  }

  /** `TokenLiteral` reaches no nil: only `ExpressionStatement` dereferences its child unchecked. */
  predicate HasTokenLiteral(s: Statement) {
    s.ExpressionStatement? ==> s.expression.Some?
  }

  function StatementTokenLiteral(s: Statement): string
    requires HasTokenLiteral(s)
  {
    match s
    case LetStatement(_, _) => "let"
    case NilLetStatement => "let"
    case ReturnStatement(_) => "return"
    case ExpressionStatement(expression) => ExpressionTokenLiteral(expression.value)
  }

  function BlockTokenLiteral(b: BlockStatement): string {
    "{"
  }

  function ProgramTokenLiteral(p: Program): string
    requires |p.statements| > 0 ==> HasTokenLiteral(p.statements[0])
  {
    if |p.statements| > 0 then StatementTokenLiteral(p.statements[0]) else ""
  }
}
