/**
 * The tree printer (AstPrinter.js): a fully parenthesized prefix rendering
 * of the four expression kinds it has visitors for.
 *
 * A node of any other kind has no visitor method, so `accept` fails with a
 * host type error; the printer then yields `None`, and so does every tree
 * containing such a node. Numbers are rendered by the host function
 * `showNumber` (the language's number-to-text conversion).
 */
module AstPrinting {
  import opened Wrappers
  import opened Tokens
  import opened Ast
  import Lexer

  /** The rendering of `e`, or `None` when it holds a node the printer has no visitor for. */
  function Print(e: Expr, showNumber: real -> string): (r: Option<string>)
    ensures r.Some? && (e.Binary? || e.Grouping? || e.Unary?) ==> |r.value| >= 2 && r.value[0] == '(' && r.value[|r.value| - 1] == ')'
    ensures e.Literal? ==> r == Some(if e.literal == NilLit then "nil" else LiteralText(e.literal, showNumber))
    decreases ExprSize(e), 0
  {
    match e
    case Binary(left, operator, right) => Parenthesized(operator.lexeme, [left, right], showNumber)
    case Grouping(inner) => Parenthesized("group", [inner], showNumber)
    case Literal(l) => Some(if l == NilLit then "nil" else LiteralText(l, showNumber))
    case Unary(operator, right) => Parenthesized(operator.lexeme, [right], showNumber)
    case _ => None
  }

  /** `(name part part ...)`, each part preceded by one space, in argument order. */
  function Parenthesized(name: string, es: seq<Expr>, showNumber: real -> string): (r: Option<string>)
    ensures r.Some? <==> forall i | 0 <= i < |es| :: Print(es[i], showNumber).Some?
    ensures r.Some? ==> |r.value| >= |name| + 2 && r.value[..1 + |name|] == "(" + name && r.value[|r.value| - 1] == ')'
    decreases ExprsSize(es), 2
  {
    match PrintAll(es, showNumber)
    case None => None
    case Some(parts) => Some("(" + name + Spaced(parts) + ")")
  }

  /** The renderings of `es` in order, or `None` as soon as one fails. */
  function PrintAll(es: seq<Expr>, showNumber: real -> string): (r: Option<seq<string>>)
    ensures r.Some? <==> forall i | 0 <= i < |es| :: Print(es[i], showNumber).Some?
    ensures r.Some? ==> |r.value| == |es| && forall i | 0 <= i < |es| :: r.value[i] == Print(es[i], showNumber).value
    decreases ExprsSize(es), 1
  {
    if |es| == 0 then Some([])
    else
      match Print(es[0], showNumber)
      case None => None
      case Some(head) =>
        match PrintAll(es[1..], showNumber)
        case None => None
        case Some(tail) => Some([head] + tail)
  }

  /** Rendering a single part. */
  lemma PrintOne(e: Expr, showNumber: real -> string)
    ensures PrintAll([e], showNumber) == if Print(e, showNumber).Some? then Some([Print(e, showNumber).value]) else None
  {
    assert [e][0] == e && [e][1..] == [];
    assert PrintAll([], showNumber) == Some([]);
    if Print(e, showNumber).Some? {
      var h := Print(e, showNumber).value;
      assert [h] + [] == [h];
    }
  }

  /** Rendering two parts: both in order, or none. */
  lemma PrintTwo(a: Expr, b: Expr, showNumber: real -> string)
    ensures PrintAll([a, b], showNumber)
         == if Print(a, showNumber).Some? && Print(b, showNumber).Some?
            then Some([Print(a, showNumber).value, Print(b, showNumber).value]) else None
  {
    assert [a, b][0] == a && [a, b][1..] == [b];
    PrintOne(b, showNumber);
    if Print(a, showNumber).Some? && Print(b, showNumber).Some? {
      var x, y := Print(a, showNumber).value, Print(b, showNumber).value;
      assert [x] + [y] == [x, y];
    }
  }

  /** The parts, each preceded by one space. */
  function Spaced(parts: seq<string>): string
  {
    if |parts| == 0 then "" else " " + parts[0] + Spaced(parts[1..])
  }

  /** Where part `i` begins in `Spaced(parts)`: after each earlier part and its space. */
  function SpacedOffset(parts: seq<string>, i: nat): nat
    requires i <= |parts|
  {
    if i == 0 then 0 else SpacedOffset(parts, i - 1) + 1 + |parts[i - 1]|
  }

  /** Spacing one more part appends a space and that part. */
  lemma {:induction false} SpacedAppend(parts: seq<string>, x: string)
    ensures Spaced(parts + [x]) == Spaced(parts) + " " + x
  {
    if |parts| == 0 {
      assert [x][1..] == [];
      assert parts + [x] == [x];
    } else {
      assert (parts + [x])[1..] == parts[1..] + [x];
      SpacedAppend(parts[1..], x);
    }
  }

  /** Offsets of a prefix are offsets of the whole. */
  lemma {:induction false} SpacedOffsetPrefix(parts: seq<string>, x: string, i: nat)
    requires i <= |parts|
    ensures SpacedOffset(parts + [x], i) == SpacedOffset(parts, i)
  {
    if i > 0 {
      SpacedOffsetPrefix(parts, x, i - 1);
      assert (parts + [x])[i - 1] == parts[i - 1];
    }
  }

  /** Part `i` sits in `text` at its offset, right after one space. */
  predicate PartAt(text: string, parts: seq<string>, i: nat)
    requires i < |parts|
  {
    SpacedOffset(parts, i + 1) <= |text| &&
    text[SpacedOffset(parts, i)] == ' ' &&
    text[SpacedOffset(parts, i) + 1..SpacedOffset(parts, i + 1)] == parts[i]
  }

  /**
   * The spaced text is one space and part `i` at each offset, in order,
   * and nothing else.
   */
  lemma {:induction false} SpacedLayout(parts: seq<string>)
    ensures |Spaced(parts)| == SpacedOffset(parts, |parts|)
    ensures forall i | 0 <= i < |parts| :: PartAt(Spaced(parts), parts, i)
    decreases |parts|
  {
    if |parts| > 0 {
      var init, x := parts[..|parts| - 1], parts[|parts| - 1];
      assert parts == init + [x];
      SpacedLayout(init);
      SpacedAppend(init, x);
      SpacedOffsetPrefix(init, x, |init|);
      forall i | 0 <= i < |parts|
        ensures PartAt(Spaced(parts), parts, i)
      {
        if i < |init| {
          EarlierPart(init, x, i, Spaced(init));
        } else {
          LastPart(init, x, Spaced(init));
        }
      }
    }
  }

  /** Appending a part keeps every earlier part where it was. */
  lemma EarlierPart(init: seq<string>, x: string, i: nat, t: string)
    requires i < |init| && PartAt(t, init, i)
    ensures PartAt(t + " " + x, init + [x], i)
  {
    SpacedOffsetPrefix(init, x, i);
    SpacedOffsetPrefix(init, x, i + 1);
    var o1, o2 := SpacedOffset(init, i), SpacedOffset(init, i + 1);
    assert (init + [x])[i] == init[i];
    PrefixSlice(t, " " + x, o1, o1 + 1);
    PrefixSlice(t, " " + x, o1 + 1, o2);
    assert t + " " + x == t + (" " + x);
  }

  /** Slicing within the first of two joined texts. */
  lemma PrefixSlice(t: string, w: string, a: nat, b: nat)
    requires a <= b <= |t|
    ensures (t + w)[a..b] == t[a..b]
  {
  }

  /** The appended part sits right after the spaced prefix and one space. */
  lemma LastPart(init: seq<string>, x: string, t: string)
    requires |t| == SpacedOffset(init, |init|)
    ensures PartAt(t + " " + x, init + [x], |init|)
  {
    SpacedOffsetPrefix(init, x, |init|);
    var u := t + " " + x;
    assert (init + [x])[|init|] == x;
    assert u[|t| + 1..] == x;
  }

  /**
   * Given each sub-expression's text, the rendering is `(`, the name, each
   * text after one space at its offset in order, and `)`.
   */
  lemma ParenthesizedLayout(name: string, es: seq<Expr>, showNumber: real -> string, parts: seq<string>)
    requires |parts| == |es|
    requires forall i | 0 <= i < |es| :: Print(es[i], showNumber) == Some(parts[i])
    ensures Parenthesized(name, es, showNumber).Some?
    ensures var t := Parenthesized(name, es, showNumber).value;
      |t| == |name| + 2 + SpacedOffset(parts, |parts|) &&
      t[..1 + |name|] == "(" + name && t[|t| - 1] == ')' &&
      var inner := t[1 + |name|..|t| - 1];
      forall i | 0 <= i < |parts| :: PartAt(inner, parts, i)
  {
    assert PrintAll(es, showNumber).value == parts;
    SpacedLayout(parts);
    var t := Parenthesized(name, es, showNumber).value;
    assert t == "(" + name + Spaced(parts) + ")";
    assert t[1 + |name|..|t| - 1] == Spaced(parts);
  }

  /** The trees the printer renders: built from Binary, Grouping, Literal and Unary only. */
  predicate Printable(e: Expr)
  {
    match e
    case Binary(left, _, right) => Printable(left) && Printable(right)
    case Grouping(inner) => Printable(inner)
    case Literal(_) => true
    case Unary(_, right) => Printable(right)
    case _ => false
  }

  /** The printer succeeds exactly on printable trees. */
  lemma {:induction false} PrintDefinedIff(e: Expr, showNumber: real -> string)
    ensures Print(e, showNumber).Some? <==> Printable(e)
  {
    match e
    case Binary(left, _, right) =>
      PrintDefinedIff(left, showNumber);
      PrintDefinedIff(right, showNumber);
      PrintTwo(left, right, showNumber);
    case Grouping(inner) =>
      PrintDefinedIff(inner, showNumber);
      PrintOne(inner, showNumber);
    case Literal(_) =>
    case Unary(_, right) =>
      PrintDefinedIff(right, showNumber);
      PrintOne(right, showNumber);
    case _ =>
  }

  /** The number of nodes that print a pair of parentheses. */
  function Pairs(e: Expr): nat
  {
    match e
    case Binary(left, _, right) => 1 + Pairs(left) + Pairs(right)
    case Grouping(inner) => 1 + Pairs(inner)
    case Unary(_, right) => 1 + Pairs(right)
    case _ => 0
  }

  predicate NoParens(s: string)
  {
    '(' !in s && ')' !in s
  }

  /** No operator lexeme and no literal text of the tree contains a parenthesis. */
  predicate ParenFree(e: Expr, showNumber: real -> string)
  {
    match e
    case Binary(left, operator, right) => NoParens(operator.lexeme) && ParenFree(left, showNumber) && ParenFree(right, showNumber)
    case Grouping(inner) => ParenFree(inner, showNumber)
    case Literal(l) => NoParens(LiteralText(l, showNumber))
    case Unary(operator, right) => NoParens(operator.lexeme) && ParenFree(right, showNumber)
    case _ => true
  }

  /**
   * When no lexeme or literal text contains a parenthesis, the rendering has
   * exactly one `(` and one `)` per Binary, Grouping and Unary node.
   */
  lemma {:induction false} ParensBalanced(e: Expr, showNumber: real -> string, c: char)
    requires ParenFree(e, showNumber) && Print(e, showNumber).Some? && (c == '(' || c == ')')
    ensures Lexer.CountChar(Print(e, showNumber).value, c) == Pairs(e)
  {
    match e
    case Binary(left, operator, right) =>
      PrintTwo(left, right, showNumber);
      ParensBalanced(left, showNumber, c);
      ParensBalanced(right, showNumber, c);
      PairCount(operator.lexeme, left, right, showNumber, c);
    case Grouping(inner) =>
      PrintOne(inner, showNumber);
      ParensBalanced(inner, showNumber, c);
      SingleCount("group", inner, showNumber, c);
    case Literal(l) =>
      Lexer.CountCharAbsent(Print(e, showNumber).value, c);
    case Unary(operator, right) =>
      PrintOne(right, showNumber);
      ParensBalanced(right, showNumber, c);
      SingleCount(operator.lexeme, right, showNumber, c);
  }

  /** The count of `c` in a two-part rendering. */
  lemma PairCount(name: string, left: Expr, right: Expr, showNumber: real -> string, c: char)
    requires NoParens(name) && (c == '(' || c == ')')
    requires Print(left, showNumber).Some? && Print(right, showNumber).Some?
    ensures Parenthesized(name, [left, right], showNumber).Some?
    ensures Lexer.CountChar(Parenthesized(name, [left, right], showNumber).value, c)
         == 1 + Lexer.CountChar(Print(left, showNumber).value, c) + Lexer.CountChar(Print(right, showNumber).value, c)
  {
    var l, r := Print(left, showNumber).value, Print(right, showNumber).value;
    var parts := [l, r];
    PrintTwo(left, right, showNumber);
    WrappedCount(name, parts, c);
    assert parts[1..] == [r] && [r][1..] == [];
    assert CountAll([], c) == 0;
    assert CountAll([r], c) == Lexer.CountChar(r, c);
    assert CountAll(parts, c) == Lexer.CountChar(l, c) + Lexer.CountChar(r, c);
  }

  /** The count of `c` in a one-part rendering. */
  lemma SingleCount(name: string, inner: Expr, showNumber: real -> string, c: char)
    requires NoParens(name) && (c == '(' || c == ')')
    requires Print(inner, showNumber).Some?
    ensures Parenthesized(name, [inner], showNumber).Some?
    ensures Lexer.CountChar(Parenthesized(name, [inner], showNumber).value, c)
         == 1 + Lexer.CountChar(Print(inner, showNumber).value, c)
  {
    var i := Print(inner, showNumber).value;
    PrintOne(inner, showNumber);
    WrappedCount(name, [i], c);
    assert [i][1..] == [];
    assert CountAll([], c) == 0;
    assert CountAll([i], c) == Lexer.CountChar(i, c);
  }

  /** The total count of `c` over the parts. */
  function CountAll(parts: seq<string>, c: char): nat
  {
    if |parts| == 0 then 0 else Lexer.CountChar(parts[0], c) + CountAll(parts[1..], c)
  }

  /** The spaces add no parentheses. */
  lemma {:induction false} SpacedCount(parts: seq<string>, c: char)
    requires c == '(' || c == ')'
    ensures Lexer.CountChar(Spaced(parts), c) == CountAll(parts, c)
  {
    if |parts| > 0 {
      SpacedCount(parts[1..], c);
      Lexer.CountCharConcat(" " + parts[0], Spaced(parts[1..]), c);
      Lexer.CountCharConcat(" ", parts[0], c);
      Lexer.CountCharAbsent(" ", c);
    }
  }

  /** `(name parts)` has one more `(` and one more `)` than its parts, when `name` has none. */
  lemma WrappedCount(name: string, parts: seq<string>, c: char)
    requires NoParens(name) && (c == '(' || c == ')')
    ensures Lexer.CountChar("(" + name + Spaced(parts) + ")", c) == 1 + CountAll(parts, c)
  {
    SpacedCount(parts, c);
    Lexer.CountCharConcat("(" + name + Spaced(parts), ")", c);
    Lexer.CountCharConcat("(" + name, Spaced(parts), c);
    Lexer.CountCharConcat("(", name, c);
    Lexer.CountCharAbsent(name, c);
    assert Lexer.CountChar("(", c) + Lexer.CountChar(")", c) == 1;
  }

  /** A Binary renders as `(op left right)`, each operand preceded by one space. */
  lemma BinaryShape(left: Expr, operator: Token, right: Expr, showNumber: real -> string)
    ensures Print(Binary(left, operator, right), showNumber)
         == if Print(left, showNumber).Some? && Print(right, showNumber).Some?
            then Some("(" + operator.lexeme + " " + Print(left, showNumber).value + " " + Print(right, showNumber).value + ")")
            else None
  {
    PrintTwo(left, right, showNumber);
    if Print(left, showNumber).Some? && Print(right, showNumber).Some? {
      var l, r := Print(left, showNumber).value, Print(right, showNumber).value;
      BinaryText(operator.lexeme, l, r);
    }
  }

  /** A Grouping renders as `(group inner)`. */
  lemma GroupingShape(inner: Expr, showNumber: real -> string)
    ensures Print(Grouping(inner), showNumber)
         == if Print(inner, showNumber).Some? then Some("(group " + Print(inner, showNumber).value + ")") else None
  {
    PrintOne(inner, showNumber);
    if Print(inner, showNumber).Some? {
      var x := Print(inner, showNumber).value;
      SpacedOne(x);
      assert "(" + "group" + " " == "(group ";
      Wrap("(" + "group", " ", x, ")");
    }
  }

  /** A Unary renders as `(op operand)`. */
  lemma UnaryShape(operator: Token, right: Expr, showNumber: real -> string)
    ensures Print(Unary(operator, right), showNumber)
         == if Print(right, showNumber).Some? then Some("(" + operator.lexeme + " " + Print(right, showNumber).value + ")") else None
  {
    PrintOne(right, showNumber);
    if Print(right, showNumber).Some? {
      var x := Print(right, showNumber).value;
      SpacedOne(x);
      Wrap("(" + operator.lexeme, " ", x, ")");
    }
  }

  lemma SpacedOne(x: string)
    ensures Spaced([x]) == " " + x
  {
    assert [x][1..] == [];
    assert " " + x + "" == " " + x;
  }

  lemma SpacedTwo(x: string, y: string)
    ensures Spaced([x, y]) == " " + x + (" " + y)
  {
    assert [x, y][1..] == [y];
    SpacedOne(y);
  }

  lemma BinaryText(name: string, l: string, r: string)
    ensures "(" + name + Spaced([l, r]) + ")" == "(" + name + " " + l + " " + r + ")"
  {
    SpacedTwo(l, r);
    calc {
      "(" + name + (" " + l + (" " + r)) + ")";
      { Wrap("(" + name, " " + l, " " + r, ")"); }
      "(" + name + (" " + l) + (" " + r) + ")";
      { assert "(" + name + (" " + l) == "(" + name + " " + l; }
      "(" + name + " " + l + (" " + r) + ")";
      { assert "(" + name + " " + l + (" " + r) == "(" + name + " " + l + " " + r; }
      "(" + name + " " + l + " " + r + ")";
    }
  }

  lemma Wrap(a: string, b: string, c: string, d: string)
    ensures a + (b + c) + d == a + b + c + d
  {
  }

  /** The printer's own example tree, -123 * (45.67). */
  lemma SelfTest(e: Expr, showNumber: real -> string)
    requires e == Binary(Unary(Token(Minus, "-", NilLit, 1), Literal(NumLit(123.0))),
                         Token(Star, "*", NilLit, 1),
                         Grouping(Literal(NumLit(45.67))))
    requires showNumber(123.0) == "123" && showNumber(45.67) == "45.67"
    ensures Print(e, showNumber) == Some("(* (- 123) (group 45.67))")
  {
    NegatedLiteral(e.left, showNumber);
    GroupedLiteral(e.right, showNumber);
    BinaryShape(e.left, e.operator, e.right, showNumber);
    var l, r := "(- 123)", "(group 45.67)";
    assert Print(e, showNumber) == Some("(" + "*" + " " + l + " " + r + ")");
    Concatenated(l, r);
  }

  lemma Concatenated(l: string, r: string)
    requires l == "(- 123)" && r == "(group 45.67)"
    ensures "(" + "*" + " " + l + " " + r + ")" == "(* (- 123) (group 45.67))"
  {
  }

  lemma NegatedLiteral(u: Expr, showNumber: real -> string)
    requires u == Unary(Token(Minus, "-", NilLit, 1), Literal(NumLit(123.0)))
    requires showNumber(123.0) == "123"
    ensures Print(u, showNumber) == Some("(- 123)")
  {
    UnaryShape(u.operator, u.right, showNumber);
    assert "(" + "-" + " " + "123" + ")" == "(- 123)";
  }

  lemma GroupedLiteral(g: Expr, showNumber: real -> string)
    requires g == Grouping(Literal(NumLit(45.67)))
    requires showNumber(45.67) == "45.67"
    ensures Print(g, showNumber) == Some("(group 45.67)")
  {
    GroupingShape(g.expression, showNumber);
    assert "(group " + "45.67" + ")" == "(group 45.67)";
  }
}
