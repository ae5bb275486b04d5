/**
 * The part of the Tact abstract syntax tree that the analyses and detectors read.
 * Statements and expressions are closed sum types; every statement carries the
 * AST node id the compiler gives it and its source text (`loc.contents`), which
 * the assignment-name heuristics slice.
 *
 * The Tact compiler and the Misti traversal library are not part of this model:
 * `Identifiers` stands for the `foldExpressions` call that collects `id`
 * expressions, and `ExpressionsIn` for `forEachExpression`.
 */
module Ast {

  datatype Option<T> = None | Some(value: T)

  type NodeId = nat

  datatype Expr =
    | Id(name: string)
    | Boolean(boolValue: bool)
    | Number(numValue: int)
    | StringLiteral(strValue: string)
    | Null
    | OpBinary(op: string, left: Expr, right: Expr)
    | OpUnary(op: string, operand: Expr)
    | FieldAccess(aggregate: Expr, field: string)
    | MethodCall(receiver: Expr, methodName: string, args: seq<Expr>)
    | StaticCall(functionName: string, args: seq<Expr>)
    | StructInstance(typeName: string, args: seq<Expr>)
    | Conditional(condition: Expr, thenBranch: Expr, elseBranch: Expr)

  datatype Stmt =
    | Let(id: NodeId, contents: string, name: string, init: Option<Expr>)
    | Return(id: NodeId, contents: string, value: Option<Expr>)
    | ExpressionStmt(id: NodeId, contents: string, expression: Expr)
    | Assign(id: NodeId, contents: string, path: Expr, expression: Expr)
    | AugmentedAssign(id: NodeId, contents: string, op: string, path: Expr, expression: Expr)
    | Condition(cond: If)
    | While(id: NodeId, contents: string, condition: Expr, statements: seq<Stmt>)
    | Until(id: NodeId, contents: string, condition: Expr, statements: seq<Stmt>)
    | Repeat(id: NodeId, contents: string, iterations: Expr, statements: seq<Stmt>)
    | Foreach(id: NodeId, contents: string, keyName: string, valueName: string, mapExpr: Expr, statements: seq<Stmt>)
    | Try(id: NodeId, contents: string, statements: seq<Stmt>)
    | TryCatch(id: NodeId, contents: string, statements: seq<Stmt>, catchName: string, catchStatements: seq<Stmt>)
  {
    /** The AST node id (`stmt.id`). */
    function NodeIdOf(): NodeId
    {
      if Condition? then cond.id else id
    }
  }

  /** `statement_condition`: `elseif` is the next link of an `else if` chain. */
  datatype If = If(id: NodeId, contents: string, condition: Expr, trueStatements: seq<Stmt>,
                   falseStatements: ElseBranch, elseif: Option<If>)

  /** `falseStatements`, which is `null` when the statement has no `else`. */
  datatype ElseBranch = NoElse | Else(statements: seq<Stmt>)

  /** Every expression node of `e`, `e` first (a pre-order walk). */
  function Subexpressions(e: Expr): (r: seq<Expr>)
    ensures |r| > 0 && r[0] == e
  {
    [e] + match e
      case OpBinary(_, l, r) => Subexpressions(l) + Subexpressions(r)
      case OpUnary(_, x) => Subexpressions(x)
      case FieldAccess(a, _) => Subexpressions(a)
      case MethodCall(rcv, _, args) => Subexpressions(rcv) + SubexpressionsOfAll(args)
      case StaticCall(_, args) => SubexpressionsOfAll(args)
      case StructInstance(_, args) => SubexpressionsOfAll(args)
      case Conditional(c, t, f) => Subexpressions(c) + Subexpressions(t) + Subexpressions(f)
      case _ => []
  }

  function SubexpressionsOfAll(es: seq<Expr>): seq<Expr>
  {
    if es == [] then [] else Subexpressions(es[0]) + SubexpressionsOfAll(es[1..])
  }

  /**
   * The names of the `id` expressions of `e`: the fold the analyses run to
   * collect the text of every identifier node.
   */
  function Identifiers(e: Expr): set<string>
  {
    match e
    case Id(x) => {x}
    case OpBinary(_, l, r) => Identifiers(l) + Identifiers(r)
    case OpUnary(_, x) => Identifiers(x)
    case FieldAccess(a, _) => Identifiers(a)
    case MethodCall(rcv, _, args) => Identifiers(rcv) + IdentifiersOfAll(args)
    case StaticCall(_, args) => IdentifiersOfAll(args)
    case StructInstance(_, args) => IdentifiersOfAll(args)
    case Conditional(c, t, f) => Identifiers(c) + Identifiers(t) + Identifiers(f)
    case _ => {}
  }

  function IdentifiersOfAll(es: seq<Expr>): set<string>
  {
    if es == [] then {} else Identifiers(es[0]) + IdentifiersOfAll(es[1..])
  }

  /** The fold collects exactly the names of the `id` nodes the expression walk visits. */
  lemma {:induction false} IdentifiersAreIdNodes(e: Expr, x: string)
    ensures x in Identifiers(e) <==> Id(x) in Subexpressions(e)
  {
    match e
    case Id(y) =>
    case Boolean(_) =>
    case Number(_) =>
    case StringLiteral(_) =>
    case Null =>
    case OpBinary(_, l, r) =>
      IdentifiersAreIdNodes(l, x);
      IdentifiersAreIdNodes(r, x);
    case OpUnary(_, y) =>
      IdentifiersAreIdNodes(y, x);
    case FieldAccess(a, _) =>
      IdentifiersAreIdNodes(a, x);
    case MethodCall(rcv, _, args) =>
      IdentifiersAreIdNodes(rcv, x);
      IdentifiersOfAllAreIdNodes(args, x);
    case StaticCall(_, args) =>
      IdentifiersOfAllAreIdNodes(args, x);
    case StructInstance(_, args) =>
      IdentifiersOfAllAreIdNodes(args, x);
    case Conditional(c, t, f) =>
      IdentifiersAreIdNodes(c, x);
      IdentifiersAreIdNodes(t, x);
      IdentifiersAreIdNodes(f, x);
  }

  lemma {:induction false} IdentifiersOfAllAreIdNodes(es: seq<Expr>, x: string)
    ensures x in IdentifiersOfAll(es) <==> Id(x) in SubexpressionsOfAll(es)
  {
    if es != [] {
      IdentifiersAreIdNodes(es[0], x);
      IdentifiersOfAllAreIdNodes(es[1..], x);
    }
  }

  /** The expressions a statement holds itself, outside its nested statements. */
  function OwnExpressions(s: Stmt): seq<Expr>
  {
    match s
    case Let(_, _, _, init) => if init.Some? then [init.value] else []
    case Return(_, _, value) => if value.Some? then [value.value] else []
    case ExpressionStmt(_, _, e) => [e]
    case Assign(_, _, path, e) => [path, e]
    case AugmentedAssign(_, _, _, path, e) => [path, e]
    case Condition(c) => [c.condition]
    case While(_, _, c, _) => [c]
    case Until(_, _, c, _) => [c]
    case Repeat(_, _, n, _) => [n]
    case Foreach(_, _, _, _, m, _) => [m]
    case Try(_, _, _) => []
    case TryCatch(_, _, _, _, _) => []
  }

  /** Every expression node inside `s`, nested statements included (`forEachExpression`). */
  function ExpressionsIn(s: Stmt): seq<Expr>
  {
    match s
    case Condition(c) => ExpressionsInIf(c)
    case While(_, _, c, body) => Subexpressions(c) + ExpressionsInAll(body)
    case Until(_, _, c, body) => Subexpressions(c) + ExpressionsInAll(body)
    case Repeat(_, _, n, body) => Subexpressions(n) + ExpressionsInAll(body)
    case Foreach(_, _, _, _, m, body) => Subexpressions(m) + ExpressionsInAll(body)
    case Try(_, _, body) => ExpressionsInAll(body)
    case TryCatch(_, _, body, _, handler) => ExpressionsInAll(body) + ExpressionsInAll(handler)
    case _ => SubexpressionsOfAll(OwnExpressions(s))
  }

  function ExpressionsInAll(ss: seq<Stmt>): seq<Expr>
  {
    if ss == [] then [] else ExpressionsIn(ss[0]) + ExpressionsInAll(ss[1..])
  }

  function ExpressionsInIf(c: If): seq<Expr>
  {
    Subexpressions(c.condition) + ExpressionsInAll(c.trueStatements)
    + (if c.falseStatements.Else? then ExpressionsInAll(c.falseStatements.statements) else [])
    + (if c.elseif.Some? then ExpressionsInIf(c.elseif.value) else [])
  }

  /**
   * Every statement of `s`, `s` first and then the nested ones in order (the
   * walk `forEachStatement` makes, parent before children). Each link of an
   * `else if` chain is a statement of its own.
   */
  function StatementsIn(s: Stmt): (r: seq<Stmt>)
    ensures |r| > 0 && r[0] == s
  {
    match s
    case Condition(c) => StatementsInIf(c)
    case While(_, _, _, body) => [s] + StatementsInAll(body)
    case Until(_, _, _, body) => [s] + StatementsInAll(body)
    case Repeat(_, _, _, body) => [s] + StatementsInAll(body)
    case Foreach(_, _, _, _, _, body) => [s] + StatementsInAll(body)
    case Try(_, _, body) => [s] + StatementsInAll(body)
    case TryCatch(_, _, body, _, handler) => [s] + StatementsInAll(body) + StatementsInAll(handler)
    case _ => [s]
  }

  function StatementsInAll(ss: seq<Stmt>): seq<Stmt>
  {
    if ss == [] then [] else StatementsIn(ss[0]) + StatementsInAll(ss[1..])
  }

  function StatementsInIf(c: If): (r: seq<Stmt>)
    ensures |r| > 0 && r[0] == Condition(c)
  {
    [Condition(c)] + (StatementsInAll(c.trueStatements)
    + ((if c.falseStatements.Else? then StatementsInAll(c.falseStatements.statements) else [])
       + (if c.elseif.Some? then StatementsInIf(c.elseif.value) else [])))
  }
}
