/**
 * The syntax tree (Expr.js and Stmt.js).
 *
 * Each node class becomes a constructor whose fields are the class's
 * constructor arguments, in order; `accept` and the visitor methods become
 * `match` over the variant. Field renames: `object` is `obj` (a reserved
 * word here), a Literal's `value` is `literal`, and a While's `body` is
 * `loopBody` (`body` is already a field of Fn with another type).
 */
module Ast {
  import opened Wrappers
  import opened Tokens

  datatype Expr =
    | Assign(name: Token, value: Expr)
    | Binary(left: Expr, operator: Token, right: Expr)
    | Call(callee: Expr, paren: Token, args: seq<Expr>)
    | Get(obj: Expr, name: Token)
    | Grouping(expression: Expr)
    | Literal(literal: LiteralValue)
    | Logical(left: Expr, operator: Token, right: Expr)
    | Set(obj: Expr, name: Token, value: Expr)
    | This(keyword: Token)
    | Unary(operator: Token, right: Expr)
    | Variable(name: Token)

  /** A statement; a missing else-branch, return value or initializer is `None` (the source's null). */
  datatype Stmt =
    | Block(statements: seq<Stmt>)
    | Class(name: Token, methods: seq<Stmt>)
    | Expression(expression: Expr)
    | Fn(name: Token, params: seq<Token>, body: seq<Stmt>)
    | If(condition: Expr, thenBranch: Stmt, elseBranch: Option<Stmt>)
    | Print(expression: Expr)
    | Return(keyword: Token, value: Option<Expr>)
    | Var(name: Token, initializer: Option<Expr>)
    | While(condition: Expr, loopBody: Stmt)

  /** A function declaration, the only statement a runtime function is built from. */
  type FnStmt = s: Stmt | s.Fn? witness Stmt.Fn(Token(Eof, "", NilLit, 0), [], [])

  /** The number of expression nodes in a tree. */
  function ExprSize(e: Expr): (n: nat)
    ensures n >= 1
    decreases e
  {
    match e
    case Assign(_, value) => 1 + ExprSize(value)
    case Binary(left, _, right) => 1 + ExprSize(left) + ExprSize(right)
    case Call(callee, _, args) => 1 + ExprSize(callee) + ExprsSize(args)
    case Get(obj, _) => 1 + ExprSize(obj)
    case Grouping(inner) => 1 + ExprSize(inner)
    case Literal(_) => 1
    case Logical(left, _, right) => 1 + ExprSize(left) + ExprSize(right)
    case Set(obj, _, value) => 1 + ExprSize(obj) + ExprSize(value)
    case This(_) => 1
    case Unary(_, right) => 1 + ExprSize(right)
    case Variable(_) => 1
  }

  function ExprsSize(es: seq<Expr>): (n: nat)
    ensures n >= |es|
    ensures |es| == 1 ==> n == ExprSize(es[0])
    ensures |es| == 2 ==> n == ExprSize(es[0]) + ExprSize(es[1])
    ensures forall i | 0 <= i < |es| :: ExprSize(es[i]) <= n
    decreases es
  {
    if |es| == 0 then 0 else ExprSize(es[0]) + ExprsSize(es[1..])
  }

  function OptionExprSize(e: Option<Expr>): (n: nat)
    ensures e.Some? ==> n == ExprSize(e.value)
  {
    if e.Some? then ExprSize(e.value) else 0
  }

  /** The number of nodes in a statement, counting the expressions it holds. */
  function StmtSize(s: Stmt): (n: nat)
    ensures n >= 1
    decreases s
  {
    match s
    case Block(statements) => 1 + StmtsSize(statements)
    case Class(_, methods) => 1 + StmtsSize(methods)
    case Expression(e) => 1 + ExprSize(e)
    case Fn(_, _, body) => 1 + StmtsSize(body)
    case If(condition, thenBranch, elseBranch) =>
      1 + ExprSize(condition) + StmtSize(thenBranch) + (if elseBranch.Some? then StmtSize(elseBranch.value) else 0)
    case Print(e) => 1 + ExprSize(e)
    case Return(_, value) => 1 + OptionExprSize(value)
    case Var(_, initializer) => 1 + OptionExprSize(initializer)
    case While(condition, loopBody) => 1 + ExprSize(condition) + StmtSize(loopBody)
  }

  function StmtsSize(ss: seq<Stmt>): (n: nat)
    ensures n >= |ss|
    decreases ss
  {
    if |ss| == 0 then 0 else StmtSize(ss[0]) + StmtsSize(ss[1..])
  }

  /** Each statement is no larger than the whole list. */
  lemma {:induction false} StmtsSizeElement(ss: seq<Stmt>, i: nat)
    requires i < |ss|
    ensures StmtSize(ss[i]) <= StmtsSize(ss)
    decreases ss
  {
    if i > 0 {
      StmtsSizeElement(ss[1..], i - 1);
    }
  }
}
