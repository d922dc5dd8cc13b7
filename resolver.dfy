/**
 * The resolver (Resolver.js): a stack of scopes, each mapping a name to
 * whether its declaration is complete.
 *
 * The resolver has visitor methods only for block and var statements and
 * none for expressions, so any other statement and every expression make
 * `accept` fail with a host type error; that is the `Crashed` outcome here,
 * and it aborts the whole resolution. As written, `declare` and `define`
 * write `scopes[0]`, the oldest scope, while `endScope` pops the newest.
 * `endScope` is modelled as the pop of `scopes` it evidently means (the
 * source names a missing `scope` field).
 */
module Resolution {
  import opened Wrappers
  import opened Tokens
  import opened Ast

  datatype Status = Resolved | Crashed(message: string)

  type Scope = map<string, bool>

  /** The statements the resolver gets through: var statements without initializer, and blocks of such. */
  predicate StmtResolvable(s: Stmt)
    decreases s
  {
    match s
    case Var(_, initializer) => initializer.None?
    case Block(statements) => Resolvable(statements)
    case _ => false
  }

  predicate Resolvable(stmts: seq<Stmt>)
    decreases stmts
  {
    forall i | 0 <= i < |stmts| :: StmtResolvable(stmts[i])
  }

  /** The names a statement declares, at any block depth. */
  function StmtNames(s: Stmt): set<string>
  {
    match s
    case Var(name, _) => {name.lexeme}
    case Block(statements) => Names(statements)
    case _ => {}
  }

  function Names(stmts: seq<Stmt>): set<string>
  {
    if |stmts| == 0 then {} else StmtNames(stmts[0]) + Names(stmts[1..])
  }

  /** Every name of `names`, ready. */
  function Ready(names: set<string>): (m: Scope)
    ensures m.Keys == names && forall n | n in m :: m[n]
  {
    map n | n in names :: true
  }

  /** `scopes` with every name of `names` marked ready in `scopes[0]`; no scope at all when the stack is empty. */
  function Marked(scopes: seq<Scope>, names: set<string>): (r: seq<Scope>)
    ensures |r| == |scopes|
    ensures |r| > 0 ==> r[1..] == scopes[1..] && r[0].Keys == scopes[0].Keys + names
  {
    if |scopes| == 0 then [] else [scopes[0] + Ready(names)] + scopes[1..]
  }

  /** `scopes` with `name` set to `ready` in `scopes[0]`, unchanged when the stack is empty. */
  function SetInFirst(scopes: seq<Scope>, name: string, ready: bool): (r: seq<Scope>)
    ensures |r| == |scopes|
    ensures |r| > 0 ==> r[0] == scopes[0][name := ready] && r[1..] == scopes[1..]
  {
    if |scopes| == 0 then [] else [scopes[0][name := ready]] + scopes[1..]
  }

  class Resolver {
    var scopes: seq<Scope>

    /** A new resolver has an empty scope stack. */
    constructor()
      ensures scopes == []
    {
      scopes := [];
    }

    /** Pushes exactly one new empty scope. */
    method BeginScope()
      modifies this
      ensures scopes == old(scopes) + [map[]]
    {
      scopes := scopes + [map[]];
    }

    /** Pops the newest scope; a pop of an empty stack changes nothing. */
    method EndScope()
      modifies this
      ensures |old(scopes)| > 0 ==> scopes == old(scopes)[..|old(scopes)| - 1]
      ensures |old(scopes)| == 0 ==> scopes == []
    {
      if |scopes| > 0 {
        scopes := scopes[..|scopes| - 1];
      }
    }

    /** Marks the name not ready in `scopes[0]`; a no-op on an empty stack. */
    method Declare(name: Token)
      modifies this
      ensures scopes == SetInFirst(old(scopes), name.lexeme, false)
    {
      if |scopes| == 0 {
        return;
      }
      scopes := [scopes[0][name.lexeme := false]] + scopes[1..];
    }

    /** Marks the name ready in `scopes[0]`; a no-op on an empty stack. */
    method Define(name: Token)
      modifies this
      ensures scopes == SetInFirst(old(scopes), name.lexeme, true)
    {
      if |scopes| == 0 {
        return;
      }
      scopes := [scopes[0][name.lexeme := true]] + scopes[1..];
    }

    /** Every expression lacks a visitor method here, so resolving one fails. */
    method ResolveExpr(e: Expr) returns (r: Status)
      ensures r.Crashed?
    {
      return Crashed("visitor.visit" + ExprKind(e) + "Expr is not a function");
    }

    /** Resolves the statements in list order, stopping at the first failure. */
    method Resolve(stmts: seq<Stmt>) returns (r: Status)
      modifies this
      ensures r.Resolved? <==> Resolvable(stmts)
      ensures r.Resolved? ==> scopes == Marked(old(scopes), Names(stmts))
      decreases StmtsSize(stmts), 3
    {
      var i := 0;
      MarkedNothing(scopes);
      while i < |stmts|
        invariant 0 <= i <= |stmts|
        invariant Resolvable(stmts[..i])
        invariant scopes == Marked(old(scopes), Names(stmts[..i]))
      {
        StmtsSizeElement(stmts, i);
        r := ResolveStmt(stmts[i]);
        if r.Crashed? {
          assert !Resolvable(stmts) by { assert !StmtResolvable(stmts[i]); }
          return;
        }
        NamesSnoc(stmts, i);
        MarkedTwice(old(scopes), Names(stmts[..i]), StmtNames(stmts[i]));
        assert stmts[..i + 1] == stmts[..i] + [stmts[i]];
        i := i + 1;
      }
      assert stmts[..i] == stmts;
      return Resolved;
    }

    /** One statement: blocks and var statements have visitors, nothing else does. */
    method ResolveStmt(s: Stmt) returns (r: Status)
      modifies this
      ensures r.Resolved? <==> StmtResolvable(s)
      ensures r.Resolved? ==> scopes == Marked(old(scopes), StmtNames(s))
      decreases StmtSize(s), 2
    {
      match s
      case Block(_) =>
        r := VisitBlock(s);
      case Var(name, _) =>
        r := VisitVar(s);
        DefineMarks(old(scopes), name.lexeme);
      case _ =>
        r := Crashed("visitor.visit" + StmtKind(s) + "Stmt is not a function");
    }

    /** A block brackets its statements with a scope; the depth after equals the depth before. */
    method VisitBlock(s: Stmt) returns (r: Status)
      requires s.Block?
      modifies this
      ensures r.Resolved? <==> Resolvable(s.statements)
      ensures r.Resolved? ==> scopes == Marked(old(scopes), Names(s.statements))
      decreases StmtSize(s), 1
    {
      BeginScope();
      r := Resolve(s.statements);
      if r.Crashed? {
        return;
      }
      EndScope();
      MarkedThenPop(old(scopes), Names(s.statements));
    }

    /**
     * Declares the name, resolves the initializer if there is one (the name
     * is not ready meanwhile), then defines it.
     */
    method VisitVar(s: Stmt) returns (r: Status)
      requires s.Var?
      modifies this
      ensures r.Resolved? <==> s.initializer.None?
      ensures r.Resolved? ==> scopes == SetInFirst(old(scopes), s.name.lexeme, true)
      ensures r.Crashed? ==> scopes == SetInFirst(old(scopes), s.name.lexeme, false)
    {
      Declare(s.name);
      if s.initializer.Some? {
        r := ResolveExpr(s.initializer.value);
        return;
      }
      Define(s.name);
      DeclareThenDefine(old(scopes), s.name.lexeme);
      return Resolved;
    }
  }

  /** The name of a node class, as used in its visitor method's name. */
  function ExprKind(e: Expr): string
  {
    match e
    case Assign(_, _) => "Assign"
    case Binary(_, _, _) => "Binary"
    case Call(_, _, _) => "Call"
    case Get(_, _) => "Get"
    case Grouping(_) => "Grouping"
    case Literal(_) => "Literal"
    case Logical(_, _, _) => "Logical"
    case Set(_, _, _) => "Set"
    case This(_) => "This"
    case Unary(_, _) => "Unary"
    case Variable(_) => "Variable"
  }

  function StmtKind(s: Stmt): string
  {
    match s
    case Block(_) => "Block"
    case Class(_, _) => "Class"
    case Expression(_) => "Expression"
    case Fn(_, _, _) => "Fn"
    case If(_, _, _) => "If"
    case Print(_) => "Print"
    case Return(_, _) => "Return"
    case Var(_, _) => "Var"
    case While(_, _) => "While"
  }

  /** A var statement that resolves leaves exactly its name marked ready. */
  lemma DefineMarks(scopes: seq<Scope>, name: string)
    ensures SetInFirst(scopes, name, true) == Marked(scopes, {name})
  {
    if |scopes| > 0 {
      assert scopes[0][name := true] == scopes[0] + Ready({name});
    }
  }

  /** The names of a prefix grow by the names of the next statement. */
  lemma {:induction false} NamesSnoc(stmts: seq<Stmt>, i: nat)
    requires i < |stmts|
    ensures Names(stmts[..i + 1]) == Names(stmts[..i]) + StmtNames(stmts[i])
  {
    if i == 0 {
      assert stmts[..1][1..] == [];
      assert stmts[..1][0] == stmts[0];
    } else {
      NamesSnoc(stmts[1..], i - 1);
      assert stmts[..i + 1][1..] == stmts[1..][..i];
      assert stmts[..i][1..] == stmts[1..][..i - 1];
      assert stmts[..i + 1][0] == stmts[..i][0];
    }
  }

  /** Marking two sets in turn is marking their union. */
  lemma MarkedTwice(scopes: seq<Scope>, a: set<string>, b: set<string>)
    ensures Marked(Marked(scopes, a), b) == Marked(scopes, a + b)
  {
    if |scopes| > 0 {
      assert scopes[0] + Ready(a) + Ready(b) == scopes[0] + Ready(a + b);
    }
  }

  /** Marking under a pushed scope and then popping it is marking the stack below. */
  lemma MarkedThenPop(scopes: seq<Scope>, names: set<string>)
    ensures var m := Marked(scopes + [map[]], names);
      m[..|m| - 1] == Marked(scopes, names)
  {
  }

  /** Marking no name changes nothing. */
  lemma MarkedNothing(scopes: seq<Scope>)
    ensures Marked(scopes, {}) == scopes
  {
    if |scopes| > 0 {
      assert scopes[0] + Ready({}) == scopes[0];
      assert [scopes[0]] + scopes[1..] == scopes;
    }
  }

  /** A define after a declare of the same name is the define alone. */
  lemma DeclareThenDefine(scopes: seq<Scope>, name: string)
    ensures SetInFirst(SetInFirst(scopes, name, false), name, true) == SetInFirst(scopes, name, true)
  {
    if |scopes| > 0 {
      assert scopes[0][name := false][name := true] == scopes[0][name := true];
    }
  }
}
