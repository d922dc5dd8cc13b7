/**
 * The evaluator (Interpreter.js) and runtime functions (LoxFunction.js).
 *
 * The source signals errors and `return` by throwing; here every evaluation
 * and execution yields a `Completion`:
 *   - `Normal(v)`: the node finished with value `v` (statements yield nil);
 *   - `Return(v)`: a `return` statement's signal, carrying its value;
 *   - `Error(token, message)`: a RuntimeError the source throws;
 *   - `Fault(message)`: a host TypeError the source raises by reading a
 *     property of null or calling a method an object does not have;
 *   - `OutOfFuel`: the evaluation ran past its step budget (the source
 *     would loop or recurse on without end).
 *
 * Function calls and while loops spend `fuel`, so every evaluation ends.
 * Numbers are exact reals; the host's number text is the parameter
 * `showNumber`, and the result of dividing by zero (an infinity or NaN in
 * the source) is the parameter `byZero`.
 *
 * Type tests that the source makes by searching a constructor's source text
 * are tag checks on `Value` here.
 */
module Runtime {
  import opened Wrappers
  import opened Tokens
  import opened Ast
  import opened Environments
  import opened Objects
  import Lexer

  /** A runtime value; `Native` is the host's clock function, the one built-in. */
  datatype Value =
    | Nil
    | Bool(b: bool)
    | Num(x: real)
    | Str(s: string)
    | Fn(f: LoxFunction)
    | Class(c: LoxClass)
    | Instance(i: LoxInstance)
    | Native

  datatype Completion =
    | Normal(value: Value)
    | Return(value: Value)
    | Error(token: Token, message: string)
    | Fault(message: string)
    | OutOfFuel

  /** The host error for a property read on null. */
  const NullConstructor := "Cannot read properties of null (reading 'constructor')"

  /** The value a Literal node holds. */
  function LiteralToValue(l: LiteralValue): (v: Value)
    ensures v.Nil? <==> l.NilLit?
    ensures l.NumLit? ==> v == Num(l.n)
    ensures l.StrLit? ==> v == Str(l.s)
    ensures l.BoolLit? ==> v == Bool(l.b)
  {
    match l
    case NilLit => Value.Nil
    case BoolLit(b) => Bool(b)
    case NumLit(n) => Num(n)
    case StrLit(s) => Str(s)
  }

  // ---------------------------------------------------------------------
  // Value rules
  // ---------------------------------------------------------------------

  /** Nil and false are falsey; everything else, 0 and "" included, is truthy. */
  function IsTruthy(v: Value): (t: bool)
    ensures t <==> v != Value.Nil && v != Bool(false)
  {
    match v
    case Nil => false
    case Bool(b) => b
    case _ => true
  }

  /** Nil equals only nil; any other pair is strict equality, with no coercion. */
  function IsEqual(a: Value, b: Value): (r: bool)
    ensures r <==> a == b
    ensures a.Nil? ==> (r <==> b.Nil?)
    ensures a.Num? && b.Str? ==> !r
  {
    if a.Nil? && b.Nil? then true
    else if a.Nil? then false
    else a == b
  }

  /** Whether a logical operator returns its left operand without evaluating the right one. */
  function ShortCircuits(op: Token, left: Value): (r: bool)
    ensures op.tokenType == Or ==> (r <==> IsTruthy(left))
    ensures op.tokenType != Or ==> (r <==> !IsTruthy(left))
  {
    if op.tokenType == Or then IsTruthy(left) else !IsTruthy(left)
  }

  /** The value of `left op right` for a logical operator, given both operand values. */
  function LogicalValue(op: Token, left: Value, right: Value): (v: Value)
    ensures v == left || v == right
    ensures op.tokenType == Or ==> (IsTruthy(left) ==> v == left) && (!IsTruthy(left) ==> v == right)
    ensures op.tokenType != Or ==> (!IsTruthy(left) ==> v == left) && (IsTruthy(left) ==> v == right)
  {
    if ShortCircuits(op, left) then left else right
  }

  /** `or` is truthy when either side is, and `and` when both are. */
  lemma LogicalTruth(op: Token, left: Value, right: Value)
    ensures op.tokenType == Or ==>
      (IsTruthy(LogicalValue(op, left, right)) <==> IsTruthy(left) || IsTruthy(right))
    ensures op.tokenType != Or ==>
      (IsTruthy(LogicalValue(op, left, right)) <==> IsTruthy(left) && IsTruthy(right))
  {
    if ShortCircuits(op, left) {
      assert LogicalValue(op, left, right) == left;
    } else {
      assert LogicalValue(op, left, right) == right;
    }
  }

  /** The operators that demand two numbers. */
  const NumericOperators: set<TokenType> :=
    {Greater, GreaterEqual, Less, LessEqual, Minus, Slash, Star, Modulo}

  /** Rounding toward zero. */
  function Truncate(x: real): (n: int)
    ensures 0.0 <= x ==> 0 <= n && n as real <= x < n as real + 1.0
    ensures x < 0.0 ==> n <= 0 && n as real - 1.0 < x <= n as real
  {
    if 0.0 <= x then x.Floor else -((-x).Floor)
  }

  /** The `%` of the source: the remainder of a division truncated toward zero. */
  function Remainder(l: real, r: real): (m: real)
    requires r != 0.0
    ensures m == l - (Truncate(l / r) as real) * r
  {
    l - (Truncate(l / r) as real) * r
  }

  /** The size of a number. */
  function Magnitude(x: real): (m: real)
    ensures 0.0 <= m && (m == x || m == -x)
  {
    if x < 0.0 then -x else x
  }

  /** The remainder takes the sign of the dividend and is smaller in size than the divisor, whatever its sign. */
  lemma RemainderBounds(l: real, r: real)
    requires r != 0.0
    ensures 0.0 <= l ==> 0.0 <= Remainder(l, r) < Magnitude(r)
    ensures l < 0.0 ==> -Magnitude(r) < Remainder(l, r) <= 0.0
  {
    if r < 0.0 {
      NegatedDivisor(l, r);
      PositiveDivisorBounds(l, -r);
    } else {
      PositiveDivisorBounds(l, r);
    }
  }

  /** The remainder for a positive divisor. */
  lemma PositiveDivisorBounds(l: real, r: real)
    requires r > 0.0
    ensures 0.0 <= l ==> 0.0 <= Remainder(l, r) < r
    ensures l < 0.0 ==> -r < Remainder(l, r) <= 0.0
  {
    QuotientSign(l, r);
    FractionScaled(l, r, l / r, Truncate(l / r) as real);
  }

  /** The sign of the divisor does not matter: `7 % -2` is `7 % 2`. */
  lemma NegatedDivisor(l: real, r: real)
    requires r < 0.0
    ensures Remainder(l, r) == Remainder(l, -r)
  {
    var d := l / -r;
    NegatedQuotient(l, r, d);
    TruncateOdd(d);
    Negated(Truncate(d) as real, r);
  }

  /** Dividing by the negated divisor negates the quotient. */
  lemma NegatedQuotient(l: real, r: real, d: real)
    requires r < 0.0 && d == l / -r
    ensures l / r == -d
  {
  }

  /** Rounding toward zero commutes with negation. */
  lemma TruncateOdd(x: real)
    ensures Truncate(-x) == -Truncate(x)
  {
  }

  /** `l - q * r` where `q` is `l / r` with its fractional part dropped toward zero. */
  lemma FractionScaled(l: real, r: real, d: real, q: real)
    requires r > 0.0 && d == l / r
    requires 0.0 <= d ==> 0.0 <= d - q < 1.0
    requires d < 0.0 ==> -1.0 < d - q <= 0.0
    requires 0.0 <= l <==> 0.0 <= d
    ensures 0.0 <= l ==> 0.0 <= l - q * r < r
    ensures l < 0.0 ==> -r < l - q * r <= 0.0
  {
    QuotientScales(l, r);
    Distribute(d, q, r);
    if 0.0 <= l {
      ScaleFraction(d - q, r, l - q * r);
    } else {
      ScaleNegativeFraction(d - q, r, l - q * r);
    }
  }

  /** Dividing and multiplying back by the same divisor is the identity. */
  lemma QuotientScales(l: real, r: real)
    requires r != 0.0
    ensures (l / r) * r == l
  {
  }

  /** A positive divisor keeps the sign of the dividend. */
  lemma QuotientSign(l: real, r: real)
    requires r > 0.0
    ensures 0.0 <= l <==> 0.0 <= l / r
  {
    QuotientScales(l, r);
    if l / r < 0.0 {
      ProductPositive(-(l / r), r);
      Distribute(0.0, l / r, r);
    } else if 0.0 < l / r {
      ProductPositive(l / r, r);
    }
  }

  lemma Distribute(a: real, b: real, r: real)
    ensures (a - b) * r == a * r - b * r
  {
  }

  /** Scaling a fraction in [0, 1) by a positive number keeps it in [0, that number). */
  lemma ScaleFraction(a: real, r: real, m: real)
    requires r > 0.0 && m == a * r && 0.0 <= a < 1.0
    ensures 0.0 <= m < r
  {
    if 0.0 < a {
      ProductPositive(a, r);
    } else {
      ZeroScaled(r);
    }
    ProductPositive(1.0 - a, r);
    OneMinus(a, r);
  }

  /** Scaling a fraction in (-1, 0] by a positive number keeps it in (-that number, 0]. */
  lemma ScaleNegativeFraction(a: real, r: real, m: real)
    requires r > 0.0 && m == a * r && -1.0 < a <= 0.0
    ensures -r < m <= 0.0
  {
    if a < 0.0 {
      ProductPositive(-a, r);
      Negated(a, r);
    } else {
      ZeroScaled(r);
    }
    ProductPositive(1.0 + a, r);
    OnePlus(a, r);
  }

  lemma OneMinus(a: real, r: real)
    ensures (1.0 - a) * r == r - a * r
  {
  }

  lemma OnePlus(a: real, r: real)
    ensures (1.0 + a) * r == r + a * r
  {
  }

  lemma ZeroScaled(r: real)
    ensures 0.0 * r == 0.0
  {
  }

  lemma Negated(a: real, r: real)
    ensures (-a) * r == -(a * r)
  {
  }

  lemma ProductPositive(x: real, r: real)
    requires 0.0 < x && 0.0 < r
    ensures 0.0 < x * r
  {
  }

  /** A numeric operator on two numbers. */
  function Arithmetic(op: TokenType, l: real, r: real, byZero: (TokenType, real) -> real): (v: Value)
    ensures op in {Greater, GreaterEqual, Less, LessEqual} ==> v.Bool?
    ensures op in {Minus, Slash, Star, Modulo} ==> v.Num?
    ensures op !in NumericOperators ==> v == Value.Nil
    ensures op in {Slash, Modulo} && r == 0.0 ==> v == Num(byZero(op, l))
  {
    match op
    case Greater => Bool(l > r)
    case GreaterEqual => Bool(l >= r)
    case Less => Bool(l < r)
    case LessEqual => Bool(l <= r)
    case Minus => Num(l - r)
    case Star => Num(l * r)
    case Slash => Num(if r != 0.0 then l / r else byZero(op, l))
    case Modulo => Num(if r != 0.0 then Remainder(l, r) else byZero(op, l))
    case _ => Value.Nil
  }

  /**
   * The numeric operators as the caller sees them: `>` and `<` are mirror
   * images, `>=` is the negation of `<`, `-` and `/` undo `+` and `*`, and
   * `%` obeys the bounds of RemainderBounds.
   */
  lemma ArithmeticLaws(l: real, r: real, byZero: (TokenType, real) -> real)
    ensures Arithmetic(Greater, l, r, byZero) == Arithmetic(Less, r, l, byZero)
    ensures Arithmetic(GreaterEqual, l, r, byZero) == Arithmetic(LessEqual, r, l, byZero)
    ensures Arithmetic(GreaterEqual, l, r, byZero).b == !Arithmetic(Less, l, r, byZero).b
    ensures Arithmetic(Minus, l, r, byZero).x + r == l
    ensures r != 0.0 ==> Arithmetic(Slash, l, r, byZero).x * r == l
    ensures r != 0.0 && 0.0 <= l ==> 0.0 <= Arithmetic(Modulo, l, r, byZero).x < Magnitude(r)
    ensures r != 0.0 && l < 0.0 ==> -Magnitude(r) < Arithmetic(Modulo, l, r, byZero).x <= 0.0
  {
    if r != 0.0 {
      RemainderBounds(l, r);
      assert Arithmetic(Modulo, l, r, byZero).x == Remainder(l, r);
      assert Arithmetic(Slash, l, r, byZero).x == l / r;
    }
  }

  /** `+`: numbers add, and a string with a string or a number concatenates. */
  function Addition(op: Token, l: Value, r: Value, showNumber: real -> string): (c: Completion)
    ensures c.Normal? <==> (l.Num? || l.Str?) && (r.Num? || r.Str?)
    ensures !c.Normal? ==> c == Error(op, "Operands must be number or string.")
    ensures c.Normal? && (l.Str? || r.Str?) ==>
      c.value.Str? && (l.Str? ==> l.s <= c.value.s) && (r.Str? ==> |r.s| <= |c.value.s| && c.value.s[|c.value.s| - |r.s|..] == r.s)
    ensures c.Normal? && l.Num? && r.Num? ==> c.value.Num? && c.value.x - r.x == l.x
  {
    if l.Num? && r.Num? then Normal(Num(l.x + r.x))
    else if l.Str? && r.Str? then Normal(Str(l.s + r.s))
    else if l.Str? && r.Num? then Normal(Str(l.s + showNumber(r.x)))
    else if l.Num? && r.Str? then Normal(Str(showNumber(l.x) + r.s))
    else Error(op, "Operands must be number or string.")
  }

  /**
   * A binary operator applied to two evaluated operands. The case the source
   * labels `BANG` is the not-equal test; `!=` itself is scanned as
   * BANG_EQUAL, which no case names, so it yields nil.
   */
  function BinaryOperation(op: Token, l: Value, r: Value, showNumber: real -> string,
                           byZero: (TokenType, real) -> real): (c: Completion)
    ensures c.Normal? || c.Error?
    ensures c.Error? ==> c.token == op
    ensures op.tokenType == EqualEqual ==> c == Normal(Bool(l == r))
    ensures op.tokenType == Bang ==> c == Normal(Bool(l != r))
    ensures op.tokenType in NumericOperators ==>
      (c.Error? <==> !(l.Num? && r.Num?)) && (c.Error? ==> c.message == "Operands must be numbers.")
    ensures op.tokenType in {Greater, GreaterEqual, Less, LessEqual} && c.Normal? ==> c.value.Bool?
    ensures op.tokenType in {Minus, Slash, Star, Modulo} && c.Normal? ==> c.value.Num?
    ensures op.tokenType == Plus ==>
      (c.Error? <==> !((l.Num? || l.Str?) && (r.Num? || r.Str?))) &&
      (c.Error? ==> c.message == "Operands must be number or string.")
    ensures op.tokenType == Plus && l.Num? && r.Num? ==> c == Normal(Num(l.x + r.x))
    ensures op.tokenType == Plus && l.Str? && r.Str? ==> c == Normal(Str(l.s + r.s))
    ensures op.tokenType == Plus && l.Str? && r.Num? ==> c == Normal(Str(l.s + showNumber(r.x)))
    ensures op.tokenType == Plus && l.Num? && r.Str? ==> c == Normal(Str(showNumber(l.x) + r.s))
    ensures op.tokenType !in NumericOperators + {Bang, EqualEqual, Plus} ==> c == Normal(Value.Nil)
  {
    match op.tokenType
    case Bang => Normal(Bool(!IsEqual(l, r)))
    case EqualEqual => Normal(Bool(IsEqual(l, r)))
    case Plus => Addition(op, l, r, showNumber)
    case _ =>
      if op.tokenType in NumericOperators then
        if l.Num? && r.Num? then Normal(Arithmetic(op.tokenType, l.x, r.x, byZero))
        else Error(op, "Operands must be numbers.")
      else Normal(Value.Nil)
  }

  /** `a != b` evaluates to nil whatever the operands are. */
  lemma NotEqualIsNil(op: Token, l: Value, r: Value, showNumber: real -> string, byZero: (TokenType, real) -> real)
    requires op.tokenType == BangEqual
    ensures BinaryOperation(op, l, r, showNumber, byZero) == Normal(Value.Nil)
  {
    assert BangEqual !in NumericOperators + {Bang, EqualEqual, Plus};
  }

  /** The host text of a number, without a trailing ".0". */
  function StripPointZero(t: string): (u: string)
    ensures |t| >= 2 && t[|t| - 2..] == ".0" ==> u + ".0" == t
    ensures !(|t| >= 2 && t[|t| - 2..] == ".0") ==> u == t
  {
    if |t| >= 2 && t[|t| - 2..] == ".0" then t[..|t| - 2] else t
  }

  /** The text `print` shows for a value. */
  function Stringify(v: Value, showNumber: real -> string): (s: string)
    ensures v.Nil? ==> s == "nil"
    ensures v.Bool? ==> s == (if v.b then "true" else "false")
    ensures v.Num? ==> s == StripPointZero(showNumber(v.x))
    ensures v.Str? ==> s == v.s
    ensures v.Class? ==> s == v.c.name
    ensures v.Instance? ==> s == v.i.klass.name + " instance"
    ensures v.Fn? ==> s == "<fn " + v.f.declaration.name.lexeme + ">"
  {
    match v
    case Nil => "nil"
    case Bool(b) => if b then "true" else "false"
    case Num(x) => StripPointZero(showNumber(x))
    case Str(s) => s
    case Fn(f) => f.ToString()
    case Class(c) => c.ToString()
    case Instance(i) => i.ToString()
    case Native => "[object Object]"
  }

  // ---------------------------------------------------------------------
  // Calls, property access
  // ---------------------------------------------------------------------

  /** Functions, classes and the native clock can be called. */
  predicate IsCallable(v: Value)
  {
    v.Fn? || v.Class? || v.Native?
  }

  /** The values a call rejects as not callable: nil, booleans, numbers, strings and instances. */
  lemma NotCallable(v: Value)
    ensures !IsCallable(v) <==> v.Nil? || v.Bool? || v.Num? || v.Str? || v.Instance?
  {
  }

  /** The number of arguments a callable takes. */
  function Arity(v: Value): (n: nat)
    requires IsCallable(v)
    ensures v.Fn? ==> n == |v.f.declaration.params|
    ensures !v.Fn? ==> n == 0
  {
    match v
    case Fn(f) => f.Arity()
    case Class(c) => c.Arity()
    case Native => 0
  }

  function Digit(d: nat): (c: char)
    requires d < 10
    ensures Lexer.IsDigit(c) && c as int - '0' as int == d
  {
    ('0' as int + d) as char
  }

  /** The decimal text of a count. */
  function NatText(n: nat): (s: string)
    ensures |s| > 0 && forall i | 0 <= i < |s| :: Lexer.IsDigit(s[i])
    ensures Lexer.DigitsValue(s) == n
    ensures s[0] == '0' <==> n == 0
    ensures s[0] == '0' ==> s == "0"
    decreases n
  {
    if n < 10 then [Digit(n)]
    else
      var t := NatText(n / 10);
      var s := t + [Digit(n % 10)];
      assert s[..|s| - 1] == t;
      s
  }

  function ArityMessage(expected: nat, got: nat): string
  {
    "Expect " + NatText(expected) + " arguments but got " + NatText(got) + "."
  }

  /** The error a call raises before it runs its callee, if any. */
  function CallCheck(callee: Value, argCount: nat, paren: Token): (r: Option<Completion>)
    ensures r.None? <==> IsCallable(callee) && argCount == Arity(callee)
    ensures callee.Nil? ==> r == Some(Fault(NullConstructor))
    ensures !callee.Nil? && !IsCallable(callee) ==>
      r == Some(Error(paren, "Can only call functions and classes."))
    ensures IsCallable(callee) && argCount != Arity(callee) ==>
      r == Some(Error(paren, ArityMessage(Arity(callee), argCount)))
  {
    if callee.Nil? then Some(Fault(NullConstructor))
    else if !IsCallable(callee) then Some(Error(paren, "Can only call functions and classes."))
    else if argCount != Arity(callee) then Some(Error(paren, ArityMessage(Arity(callee), argCount)))
    else None
  }

  /**
   * A property read. An instance passes the test but has no `get` method,
   * so no property read ever succeeds.
   */
  function GetProperty(obj: Value, name: Token): (r: Completion)
    ensures !r.Normal?
    ensures r.Error? <==> !obj.Nil? && !obj.Instance?
    ensures r.Error? ==> r == Error(name, "Only instances have properties.")
  {
    if obj.Nil? then Fault(NullConstructor)
    else if obj.Instance? then Fault("object.get is not a function")
    else Error(name, "Only instances have properties.")
  }

  /** The test a property write makes before it evaluates the value: `None` lets it go on. */
  function SetGuard(obj: Value, name: Token): (r: Option<Completion>)
    ensures r.None? <==> obj.Instance?
    ensures !obj.Nil? && !obj.Instance? ==> r == Some(Error(name, "Only instances have fields."))
  {
    if obj.Nil? then Some(Fault(NullConstructor))
    else if obj.Instance? then None
    else Some(Error(name, "Only instances have fields."))
  }

  /** The host error of a write to an instance, which has no `set` method. */
  const NoSetMethod := "object.set is not a function"

  /**
   * What a call returns for the completion of the function body: nil for
   * a normal end, the signal's value for a return. The catch takes every
   * exception, and any other one has no `value` field; that undefined
   * result is taken to be nil.
   */
  function CatchReturn(body: Completion): (r: Completion)
    ensures r.Normal? || r.OutOfFuel?
    ensures body.Return? ==> r == Normal(body.value)
    ensures body.Normal? || body.Error? || body.Fault? ==> r == Normal(Value.Nil)
    ensures body.OutOfFuel? <==> r.OutOfFuel?
  {
    match body
    case Normal(_) => Normal(Value.Nil)
    case Return(v) => Normal(v)
    case Error(_, _) => Normal(Value.Nil)
    case Fault(_) => Normal(Value.Nil)
    case OutOfFuel => OutOfFuel
  }

  /**
   * How running `count` statements in order ends, given the completions
   * `outcomes` of those that ran: all but the last completed normally; a
   * last one that did not is passed on unchanged, and when all `count`
   * completed normally the result is nil.
   */
  predicate RanInOrder(count: nat, outcomes: seq<Completion>, r: Completion)
  {
    |outcomes| <= count &&
    (forall i | 0 <= i < |outcomes| - 1 :: outcomes[i].Normal?) &&
    if 0 < |outcomes| && !outcomes[|outcomes| - 1].Normal? then r == outcomes[|outcomes| - 1]
    else |outcomes| == count && r == Normal(Value.Nil)
  }

  /** The i-th argument; a missing one reads as undefined, taken to be nil. */
  function ArgAt(args: seq<Value>, i: nat): Value
  {
    if i < |args| then args[i] else Value.Nil
  }

  /** The bindings a call makes: each parameter in turn is defined to its argument. */
  function Bindings(params: seq<Token>, args: seq<Value>): (m: map<string, Value>)
    decreases |params|
  {
    if |params| == 0 then map[]
    else Bindings(params[..|params| - 1], args)[params[|params| - 1].lexeme := ArgAt(args, |params| - 1)]
  }

  /** The names bound are exactly the parameter names. */
  lemma {:induction false} BindingsNames(params: seq<Token>, args: seq<Value>, name: string)
    ensures name in Bindings(params, args) <==> exists i | 0 <= i < |params| :: params[i].lexeme == name
    decreases |params|
  {
    if |params| > 0 {
      var init := params[..|params| - 1];
      BindingsNames(init, args, name);
      if name in Bindings(init, args) {
        var i :| 0 <= i < |init| && init[i].lexeme == name;
        assert params[i].lexeme == name;
      }
      if exists i | 0 <= i < |params| :: params[i].lexeme == name {
        var i :| 0 <= i < |params| && params[i].lexeme == name;
        if i < |init| {
          assert init[i].lexeme == name;
        }
      }
    }
  }

  /**
   * Parameter i is bound to argument i, unless a later parameter has the
   * same name, in which case the later one wins.
   */
  lemma {:induction false} BindingOfParameter(params: seq<Token>, args: seq<Value>, i: nat)
    requires i < |params|
    requires forall j | i < j < |params| :: params[j].lexeme != params[i].lexeme
    ensures params[i].lexeme in Bindings(params, args)
    ensures Bindings(params, args)[params[i].lexeme] == ArgAt(args, i)
    decreases |params|
  {
    if i < |params| - 1 {
      var init := params[..|params| - 1];
      assert init[i] == params[i];
      forall j | i < j < |init|
        ensures init[j].lexeme != init[i].lexeme
      {
        assert init[j] == params[j];
      }
      BindingOfParameter(init, args, i);
    }
  }

  // ---------------------------------------------------------------------
  // The class statement as written (see the findings in the README)
  // ---------------------------------------------------------------------

  /** What a property read of a syntax node yields in the host. */
  datatype HostValue = Undefined | Null | Node(expr: Expr)

  /** `stmt.superclass`: class nodes have no such field, so the read yields undefined. */
  function SuperclassField(s: Stmt): (v: HostValue)
    requires s.Class?
    ensures v.Undefined?
  {
    Undefined
  }

  /**
   * The start of the class visitor as written: the superclass is evaluated
   * whenever the field is not null, and evaluating undefined is a host
   * error. `None` means the visitor would go on.
   */
  function ClassPrologueAsWritten(s: Stmt): Option<Completion>
    requires s.Class?
  {
    var superclass := SuperclassField(s);
    if superclass != Null then
      match superclass
      case Node(_) => None
      case _ => Some(Fault("Cannot read properties of undefined (reading 'accept')"))
    else None
  }

  /** As written, every class statement fails before it binds its name. */
  lemma ClassStatementAlwaysFaultsAsWritten(s: Stmt)
    requires s.Class?
    ensures ClassPrologueAsWritten(s).Some? && ClassPrologueAsWritten(s).value.Fault?
  {
  }

  // ---------------------------------------------------------------------
  // Runtime functions
  // ---------------------------------------------------------------------

  class LoxFunction {
    const declaration: FnStmt

    constructor(declaration: FnStmt)
      ensures this.declaration == declaration
    {
      this.declaration := declaration;
    }

    /** The number of declared parameters. */
    function Arity(): (n: nat)
      ensures n == |declaration.params|
    {
      |declaration.params|
    }

    /** `<fn name>`. */
    function ToString(): (s: string)
      ensures |s| == |declaration.name.lexeme| + 5
      ensures s[..4] == "<fn " && s[4..|s| - 1] == declaration.name.lexeme && s[|s| - 1] == '>'
    {
      "<fn " + declaration.name.lexeme + ">"
    }

    /** A fresh environment holding each parameter bound to its argument, in order. */
    method BindParameters(args: seq<Value>) returns (env: Environment<Value>)
      ensures fresh(env) && env.values == Bindings(declaration.params, args)
    {
      env := new Environment<Value>();
      var params := declaration.params;
      var i := 0;
      while i < |params|
        invariant 0 <= i <= |params|
        invariant env.values == Bindings(params[..i], args)
      {
        assert params[..i + 1][..i] == params[..i];
        env.Define(params[i].lexeme, ArgAt(args, i));
        i := i + 1;
      }
      assert params[..i] == params;
    }

    /**
     * Runs the body in a fresh environment holding only the parameter
     * bindings and returns what the catch around it makes of the body's
     * completion `body`; `parts` are the steps of the body's run and
     * `after` the bindings it left. A call spends one unit of fuel.
     */
    method Call(interpreter: Interpreter, args: seq<Value>, fuel: nat)
      returns (r: Completion, ghost body: Completion, ghost parts: seq<Part>, ghost after: map<string, Value>)
      modifies interpreter
      ensures interpreter.environment == old(interpreter.environment)
      ensures old(interpreter.output) <= interpreter.output
      ensures r == CatchReturn(body)
      ensures r.Normal? || r.OutOfFuel?
      ensures fuel == 0 ==> body == OutOfFuel && parts == [] && interpreter.output == old(interpreter.output)
      ensures fuel > 0 ==>
        Runs(interpreter.Setup(), declaration.body, fuel - 1,
             State(Bindings(declaration.params, args), old(interpreter.output)), body,
             State(after, interpreter.output), parts)
      decreases fuel, 0, 0
    {
      if fuel == 0 {
        return OutOfFuel, OutOfFuel, [], map[];
      }
      var env := BindParameters(args);
      var completion;
      completion, parts := interpreter.ExecuteBlock(declaration.body, env, fuel - 1);
      after := env.values;
      body := completion;
      r := CatchReturn(completion);
    }
  }

  /** The completion a lookup makes. */
  function FromResult(res: Result<Value>): (c: Completion)
    ensures res.Ok? ==> c == Normal(res.value)
    ensures res.Err? ==> c == Error(res.token, res.message)
  {
    match res
    case Ok(v) => Normal(v)
    case Err(t, m) => Error(t, m)
  }

  // ---------------------------------------------------------------------
  // The reference semantics
  // ---------------------------------------------------------------------

  /** The host's part in evaluation: number text, division by zero, the clock's reading. */
  datatype Host = Host(showNumber: real -> string, byZero: (TokenType, real) -> real, clockReading: real)

  /** What evaluation reads and changes: the current environment's bindings and the lines printed. */
  datatype State = State(vars: map<string, Value>, output: seq<string>)

  /**
   * One step of a derivation: a sub-evaluation or sub-execution that ran,
   * with the steps it ran in turn (`parts`), its completion and the state
   * it left.
   */
  datatype Part = Part(parts: seq<Part>, r: Completion, t: State)

  /** The value of each part that completed normally (nil for one that did not). */
  function Values(ps: seq<Part>): (vs: seq<Value>)
    ensures |vs| == |ps|
  {
    seq(|ps|, i requires 0 <= i < |ps| => if ps[i].r.Normal? then ps[i].r.value else Value.Nil)
  }

  /** The completions of the parts, in order. */
  function Completions(ps: seq<Part>): (cs: seq<Completion>)
    ensures |cs| == |ps|
  {
    seq(|ps|, i requires 0 <= i < |ps| => ps[i].r)
  }

  /** Whether the last part did not complete normally. */
  predicate Failed(ps: seq<Part>)
  {
    0 < |ps| && !ps[|ps| - 1].r.Normal?
  }

  /**
   * Evaluating `e` from state `s` completes with `r` in state `t`, by the
   * derivation `ps`: one part per sub-expression the visitor evaluates, in
   * that order, each from the state the previous one left. Only which new
   * object a class call makes is left open. Each compound expression has
   * its own predicate below.
   */
  ghost predicate Evals(h: Host, e: Expr, fuel: nat, s: State, r: Completion, t: State, ps: seq<Part>)
    decreases fuel, ExprSize(e), 3
  {
    match e
    case Literal(l) => ps == [] && r == Normal(LiteralToValue(l)) && t == s
    case Grouping(inner) => Evals(h, inner, fuel, s, r, t, ps)
    case Variable(name) => ps == [] && r == FromResult(Lookup(s.vars, name)) && t == s
    case This(keyword) => ps == [] && r == FromResult(Lookup(s.vars, keyword)) && t == s
    case Assign(_, _) => EvalsAssign(h, e, fuel, s, r, t, ps)
    case Binary(_, _, _) => EvalsBinary(h, e, fuel, s, r, t, ps)
    case Logical(_, _, _) => EvalsLogical(h, e, fuel, s, r, t, ps)
    case Unary(_, _) => EvalsUnary(h, e, fuel, s, r, t, ps)
    case Call(_, _, _) => EvalsCall(h, e, fuel, s, r, t, ps)
    case Get(_, _) => EvalsGet(h, e, fuel, s, r, t, ps)
    case Set(_, _, _) => EvalsSet(h, e, fuel, s, r, t, ps)
  }

  /** The value first; then an existing binding takes it, or the "Undefined variable" error. */
  ghost predicate EvalsAssign(h: Host, e: Expr, fuel: nat, s: State, r: Completion, t: State, ps: seq<Part>)
    requires e.Assign?
    decreases fuel, ExprSize(e), 2
  {
    |ps| == 1 && Evals(h, e.value, fuel, s, ps[0].r, ps[0].t, ps[0].parts) &&
    var c, m, name := ps[0].r, ps[0].t, e.name.lexeme;
    if !c.Normal? then r == c && t == m
    else if name in m.vars then r == c && t == m.(vars := m.vars[name := c.value])
    else r == Error(e.name, UndefinedMessage(name)) && t == m
  }

  /** Both operands, left first; the operator applies only when both complete normally. */
  ghost predicate EvalsBinary(h: Host, e: Expr, fuel: nat, s: State, r: Completion, t: State, ps: seq<Part>)
    requires e.Binary?
    decreases fuel, ExprSize(e), 2
  {
    0 < |ps| && Evals(h, e.left, fuel, s, ps[0].r, ps[0].t, ps[0].parts) &&
    if !ps[0].r.Normal? then |ps| == 1 && r == ps[0].r && t == ps[0].t
    else
      |ps| == 2 && Evals(h, e.right, fuel, ps[0].t, ps[1].r, t, ps[1].parts) && ps[1].t == t &&
      r == if ps[1].r.Normal? then BinaryOperation(e.operator, ps[0].r.value, ps[1].r.value, h.showNumber, h.byZero)
           else ps[1].r
  }

  /** The right operand is evaluated only when the left one does not decide the result. */
  ghost predicate EvalsLogical(h: Host, e: Expr, fuel: nat, s: State, r: Completion, t: State, ps: seq<Part>)
    requires e.Logical?
    decreases fuel, ExprSize(e), 2
  {
    0 < |ps| && Evals(h, e.left, fuel, s, ps[0].r, ps[0].t, ps[0].parts) &&
    if !ps[0].r.Normal? || ShortCircuits(e.operator, ps[0].r.value) then |ps| == 1 && r == ps[0].r && t == ps[0].t
    else |ps| == 2 && Evals(h, e.right, fuel, ps[0].t, r, t, ps[1].parts) && ps[1].r == r && ps[1].t == t
  }

  /** The operand, then nil. */
  ghost predicate EvalsUnary(h: Host, e: Expr, fuel: nat, s: State, r: Completion, t: State, ps: seq<Part>)
    requires e.Unary?
    decreases fuel, ExprSize(e), 2
  {
    |ps| == 1 && Evals(h, e.right, fuel, s, ps[0].r, t, ps[0].parts) && ps[0].t == t &&
    r == if ps[0].r.Normal? then Normal(Value.Nil) else ps[0].r
  }

  /**
   * The callee, then the arguments (the second part's steps), then the
   * call (the third part's steps); a failure at either of the first two
   * ends the evaluation.
   */
  ghost predicate EvalsCall(h: Host, e: Expr, fuel: nat, s: State, r: Completion, t: State, ps: seq<Part>)
    requires e.Call?
    decreases fuel, ExprSize(e), 2
  {
    0 < |ps| && Evals(h, e.callee, fuel, s, ps[0].r, ps[0].t, ps[0].parts) &&
    if !ps[0].r.Normal? then |ps| == 1 && r == ps[0].r && t == ps[0].t
    else
      1 < |ps| && EvalsArgs(h, e.args, fuel, ps[0].t, ps[1].t, ps[1].parts) &&
      var a := ps[1].parts;
      if Failed(a) then |ps| == 2 && r == a[|a| - 1].r && t == ps[1].t
      else |ps| == 3 && Calls(h, ps[0].r.value, Values(a), e.paren, fuel, ps[1].t, r, t, ps[2].parts)
  }

  /** A call whose callee and arguments completed normally ends as the callee's own call does. */
  lemma CallCompletes(h: Host, e: Expr, fuel: nat, s: State, callee: Part, args: Part, call: Part)
    requires e.Call?
    requires Evals(h, e.callee, fuel, s, callee.r, callee.t, callee.parts) && callee.r.Normal?
    requires EvalsArgs(h, e.args, fuel, callee.t, args.t, args.parts) && !Failed(args.parts)
    requires Calls(h, callee.r.value, Values(args.parts), e.paren, fuel, args.t, call.r, call.t, call.parts)
    ensures Evals(h, e, fuel, s, call.r, call.t, [callee, args, call])
  {
  }

  /** The object, then the property read. */
  ghost predicate EvalsGet(h: Host, e: Expr, fuel: nat, s: State, r: Completion, t: State, ps: seq<Part>)
    requires e.Get?
    decreases fuel, ExprSize(e), 2
  {
    |ps| == 1 && Evals(h, e.obj, fuel, s, ps[0].r, t, ps[0].parts) && ps[0].t == t &&
    r == if ps[0].r.Normal? then GetProperty(ps[0].r.value, e.name) else ps[0].r
  }

  /** The object, its test, and only then the value. */
  ghost predicate EvalsSet(h: Host, e: Expr, fuel: nat, s: State, r: Completion, t: State, ps: seq<Part>)
    requires e.Set?
    decreases fuel, ExprSize(e), 2
  {
    0 < |ps| && Evals(h, e.obj, fuel, s, ps[0].r, ps[0].t, ps[0].parts) &&
    if !ps[0].r.Normal? then |ps| == 1 && r == ps[0].r && t == ps[0].t
    else if SetGuard(ps[0].r.value, e.name).Some? then
      |ps| == 1 && r == SetGuard(ps[0].r.value, e.name).value && t == ps[0].t
    else
      |ps| == 2 && Evals(h, e.value, fuel, ps[0].t, ps[1].r, t, ps[1].parts) && ps[1].t == t &&
      r == if ps[1].r.Normal? then Fault(NoSetMethod) else ps[1].r
  }

  /**
   * Evaluating the arguments left to right from `s`, one part per argument
   * evaluated: the first one that does not complete normally is the last
   * one evaluated.
   */
  ghost predicate EvalsArgs(h: Host, args: seq<Expr>, fuel: nat, s: State, t: State, ps: seq<Part>)
    decreases fuel, ExprsSize(args), 4
  {
    if |args| == 0 then ps == [] && t == s
    else
      0 < |ps| && Evals(h, args[0], fuel, s, ps[0].r, ps[0].t, ps[0].parts) &&
      if !ps[0].r.Normal? then |ps| == 1 && t == ps[0].t
      else EvalsArgs(h, args[1..], fuel, ps[0].t, t, ps[1..])
  }

  /**
   * Calling the value `callee` with the evaluated arguments from `s`. A
   * function spends one unit of fuel and runs its body in a new environment
   * holding only the parameter bindings; the caller's bindings are as they
   * were, and only the output carries over.
   */
  ghost predicate Calls(h: Host, callee: Value, args: seq<Value>, paren: Token, fuel: nat, s: State,
                        r: Completion, t: State, ps: seq<Part>)
    decreases fuel, 1
  {
    if CallCheck(callee, |args|, paren).Some? then ps == [] && r == CallCheck(callee, |args|, paren).value && t == s
    else match callee
      case Fn(f) => CallsFunction(h, f, args, fuel, s, r, t, ps)
      case Class(k) => ps == [] && r.Normal? && r.value.Instance? && r.value.i.klass == k && t == s
      case _ => ps == [] && r == Normal(Num(h.clockReading)) && t == s
  }

  /** A call of the function `f`, its checks passed. */
  ghost predicate CallsFunction(h: Host, f: LoxFunction, args: seq<Value>, fuel: nat, s: State,
                                r: Completion, t: State, ps: seq<Part>)
    decreases fuel, 0
  {
    if fuel == 0 then ps == [] && r == OutOfFuel && t == s
    else
      |ps| == 1 &&
      Runs(h, f.declaration.body, fuel - 1, State(Bindings(f.declaration.params, args), s.output),
           ps[0].r, ps[0].t, ps[0].parts) &&
      r == CatchReturn(ps[0].r) && t == State(s.vars, ps[0].t.output)
  }

  /**
   * Executing `s` from state `st` completes with `r` in state `t`, by the
   * derivation `ps`. Each statement kind has its own predicate below.
   */
  ghost predicate Execs(h: Host, s: Stmt, fuel: nat, st: State, r: Completion, t: State, ps: seq<Part>)
    decreases fuel, StmtSize(s), 3
  {
    match s
    case Block(_) => ExecsBlock(h, s, fuel, st, r, t, ps)
    case Class(_, _) => ExecsClass(s, st, r, t, ps)
    case Expression(_) => ExecsExpression(h, s, fuel, st, r, t, ps)
    case Fn(_, _, _) => ExecsFn(s, st, r, t, ps)
    case If(_, _, _) => ExecsIf(h, s, fuel, st, r, t, ps)
    case Print(_) => ExecsPrint(h, s, fuel, st, r, t, ps)
    case Return(_, _) => ExecsReturn(h, s, fuel, st, r, t, ps)
    case Var(_, _) => ExecsVar(h, s, fuel, st, r, t, ps)
    case While(_, _) => Loops(h, s, fuel, fuel, st, r, t, ps)
  }

  /** A block runs in a new, empty environment; only the output carries over. */
  ghost predicate ExecsBlock(h: Host, s: Stmt, fuel: nat, st: State, r: Completion, t: State, ps: seq<Part>)
    requires s.Block?
    decreases fuel, StmtSize(s), 2
  {
    |ps| == 1 && Runs(h, s.statements, fuel, State(map[], st.output), r, ps[0].t, ps[0].parts) &&
    ps[0].r == r && t == State(st.vars, ps[0].t.output)
  }

  /** The class name is bound to a new class of that name; nothing else changes. */
  ghost predicate ExecsClass(s: Stmt, st: State, r: Completion, t: State, ps: seq<Part>)
    requires s.Class?
  {
    var name := s.name.lexeme;
    ps == [] && r == Normal(Value.Nil) && t.output == st.output && name in t.vars &&
    t.vars[name].Class? && t.vars[name].c.name == name && t.vars == st.vars[name := t.vars[name]]
  }

  /** The expression, whose value is dropped. */
  ghost predicate ExecsExpression(h: Host, s: Stmt, fuel: nat, st: State, r: Completion, t: State, ps: seq<Part>)
    requires s.Expression?
    decreases fuel, StmtSize(s), 2
  {
    |ps| == 1 && Evals(h, s.expression, fuel, st, ps[0].r, t, ps[0].parts) && ps[0].t == t &&
    r == if ps[0].r.Normal? then Normal(Value.Nil) else ps[0].r
  }

  /** The function's name is bound to a new function made from this declaration; nothing else changes. */
  ghost predicate ExecsFn(s: Stmt, st: State, r: Completion, t: State, ps: seq<Part>)
    requires s.Fn?
  {
    var name := s.name.lexeme;
    ps == [] && r == Normal(Value.Nil) && t.output == st.output && name in t.vars &&
    t.vars[name].Fn? && t.vars[name].f.declaration == s && t.vars == st.vars[name := t.vars[name]]
  }

  /** The condition, then the branch it selects, if any. */
  ghost predicate ExecsIf(h: Host, s: Stmt, fuel: nat, st: State, r: Completion, t: State, ps: seq<Part>)
    requires s.If?
    decreases fuel, StmtSize(s), 2
  {
    0 < |ps| && Evals(h, s.condition, fuel, st, ps[0].r, ps[0].t, ps[0].parts) &&
    if !ps[0].r.Normal? then |ps| == 1 && r == ps[0].r && t == ps[0].t
    else if IsTruthy(ps[0].r.value) then
      |ps| == 2 && Execs(h, s.thenBranch, fuel, ps[0].t, r, t, ps[1].parts) && ps[1].r == r && ps[1].t == t
    else if s.elseBranch.Some? then
      |ps| == 2 && Execs(h, s.elseBranch.value, fuel, ps[0].t, r, t, ps[1].parts) && ps[1].r == r && ps[1].t == t
    else |ps| == 1 && r == Normal(Value.Nil) && t == ps[0].t
  }

  /** The expression, then one more line of output: its value's text. */
  ghost predicate ExecsPrint(h: Host, s: Stmt, fuel: nat, st: State, r: Completion, t: State, ps: seq<Part>)
    requires s.Print?
    decreases fuel, StmtSize(s), 2
  {
    |ps| == 1 && Evals(h, s.expression, fuel, st, ps[0].r, ps[0].t, ps[0].parts) &&
    var c, m := ps[0].r, ps[0].t;
    if c.Normal? then r == Normal(Value.Nil) && t == m.(output := m.output + [Stringify(c.value, h.showNumber)])
    else r == c && t == m
  }

  /** The value, if any, then the return signal carrying it. */
  ghost predicate ExecsReturn(h: Host, s: Stmt, fuel: nat, st: State, r: Completion, t: State, ps: seq<Part>)
    requires s.Return?
    decreases fuel, StmtSize(s), 2
  {
    if s.value.None? then ps == [] && r == Completion.Return(Value.Nil) && t == st
    else
      |ps| == 1 && Evals(h, s.value.value, fuel, st, ps[0].r, t, ps[0].parts) && ps[0].t == t &&
      r == if ps[0].r.Normal? then Completion.Return(ps[0].r.value) else ps[0].r
  }

  /** The initializer, if any, then the name bound to its value (nil without one). */
  ghost predicate ExecsVar(h: Host, s: Stmt, fuel: nat, st: State, r: Completion, t: State, ps: seq<Part>)
    requires s.Var?
    decreases fuel, StmtSize(s), 2
  {
    var name := s.name.lexeme;
    if s.initializer.None? then
      ps == [] && r == Normal(Value.Nil) && t == st.(vars := st.vars[name := Value.Nil])
    else
      |ps| == 1 && Evals(h, s.initializer.value, fuel, st, ps[0].r, ps[0].t, ps[0].parts) &&
      var c, m := ps[0].r, ps[0].t;
      if c.Normal? then r == Normal(Value.Nil) && t == m.(vars := m.vars[name := c.value])
      else r == c && t == m
  }

  /**
   * Running the statements in order from `st`, one part per statement that
   * ran: the first one that does not complete normally ends the run with
   * its completion, and a run whose statements all complete normally
   * yields nil.
   */
  ghost predicate Runs(h: Host, stmts: seq<Stmt>, fuel: nat, st: State, r: Completion, t: State, ps: seq<Part>)
    decreases fuel, StmtsSize(stmts), 4
  {
    if |stmts| == 0 then ps == [] && r == Normal(Value.Nil) && t == st
    else
      0 < |ps| && Execs(h, stmts[0], fuel, st, ps[0].r, ps[0].t, ps[0].parts) &&
      if !ps[0].r.Normal? then |ps| == 1 && r == ps[0].r && t == ps[0].t
      else Runs(h, stmts[1..], fuel, ps[0].t, r, t, ps[1..])
  }

  /**
   * A while loop from `st` with `budget` turns left, two parts per turn:
   * the condition is evaluated first, a truthy one runs the body, and a
   * body that does not complete normally ends the loop with its completion.
   */
  ghost predicate Loops(h: Host, s: Stmt, fuel: nat, budget: nat, st: State, r: Completion, t: State, ps: seq<Part>)
    requires s.While?
    decreases fuel, StmtSize(s), 1, budget
  {
    0 < |ps| && Evals(h, s.condition, fuel, st, ps[0].r, ps[0].t, ps[0].parts) &&
    if !ps[0].r.Normal? then |ps| == 1 && r == ps[0].r && t == ps[0].t
    else if !IsTruthy(ps[0].r.value) then |ps| == 1 && r == Normal(Value.Nil) && t == ps[0].t
    else if budget == 0 then |ps| == 1 && r == OutOfFuel && t == ps[0].t
    else
      1 < |ps| && Execs(h, s.loopBody, fuel, ps[0].t, ps[1].r, ps[1].t, ps[1].parts) &&
      if !ps[1].r.Normal? then |ps| == 2 && r == ps[1].r && t == ps[1].t
      else Loops(h, s, fuel, budget - 1, ps[1].t, r, t, ps[2..])
  }

  /**
   * Whole turns of a loop from `st` with `budget` turns left, each a truthy
   * condition and a body that completed normally, leaving `rest` turns and
   * state `m`.
   */
  ghost predicate Turns(h: Host, s: Stmt, fuel: nat, budget: nat, st: State, rest: nat, m: State, ps: seq<Part>)
    requires s.While?
    decreases |ps|
  {
    if |ps| < 2 then ps == [] && rest == budget && m == st
    else
      0 < budget && Evals(h, s.condition, fuel, st, ps[0].r, ps[0].t, ps[0].parts) &&
      ps[0].r.Normal? && IsTruthy(ps[0].r.value) &&
      Execs(h, s.loopBody, fuel, ps[0].t, ps[1].r, ps[1].t, ps[1].parts) && ps[1].r.Normal? &&
      Turns(h, s, fuel, budget - 1, ps[1].t, rest, m, ps[2..])
  }

  /** A statement that completes normally, run on its own. */
  lemma RunsOne(h: Host, x: Stmt, fuel: nat, s: State, c: Completion, t: State, ps: seq<Part>)
    requires Execs(h, x, fuel, s, c, t, ps) && (c.Normal? ==> c == Normal(Value.Nil))
    ensures Runs(h, [x], fuel, s, c, t, [Part(ps, c, t)])
  {
    assert [x][0] == x && [x][1..] == [];
    assert [Part(ps, c, t)][1..] == [];
  }

  /** A run that ends normally, followed by a second run, is one run of both. */
  lemma {:induction false} RunsAppend(h: Host, a: seq<Stmt>, b: seq<Stmt>, fuel: nat, s: State, m: State,
                                      r: Completion, t: State, ps: seq<Part>, qs: seq<Part>)
    requires Runs(h, a, fuel, s, Normal(Value.Nil), m, ps) && Runs(h, b, fuel, m, r, t, qs)
    ensures Runs(h, a + b, fuel, s, r, t, ps + qs)
    decreases |a|
  {
    if |a| == 0 {
      assert a + b == b && ps + qs == qs;
    } else {
      RunsAppend(h, a[1..], b, fuel, ps[0].t, m, r, t, ps[1..], qs);
      assert (a + b)[0] == a[0] && (a + b)[1..] == a[1..] + b;
      assert (ps + qs)[0] == ps[0] && (ps + qs)[1..] == ps[1..] + qs;
    }
  }

  /**
   * A return signal, an error or a fault ends a run: whatever statements
   * follow, none of them runs and the run's completion is that one.
   */
  lemma {:induction false} AbruptPassesThrough(h: Host, a: seq<Stmt>, b: seq<Stmt>, fuel: nat, s: State,
                                               c: Completion, t: State, ps: seq<Part>)
    requires Runs(h, a, fuel, s, c, t, ps) && !c.Normal?
    ensures Runs(h, a + b, fuel, s, c, t, ps)
    decreases |a|
  {
    if |a| > 0 {
      assert (a + b)[0] == a[0] && (a + b)[1..] == a[1..] + b;
      if ps[0].r.Normal? {
        AbruptPassesThrough(h, a[1..], b, fuel, ps[0].t, c, t, ps[1..]);
      }
    }
  }

  /**
   * A run of two parts is a run of the first, then, only if that one ended
   * normally, a run of the second: `k` is the number of steps the first
   * part took.
   */
  lemma {:induction false} RunsSplit(h: Host, a: seq<Stmt>, b: seq<Stmt>, fuel: nat, s: State,
                                     r: Completion, t: State, ps: seq<Part>)
    returns (k: nat, c: Completion, m: State)
    requires Runs(h, a + b, fuel, s, r, t, ps)
    ensures k <= |ps| && Runs(h, a, fuel, s, c, m, ps[..k])
    ensures !c.Normal? ==> k == |ps| && r == c && t == m
    ensures c.Normal? ==> Runs(h, b, fuel, m, r, t, ps[k..])
    decreases |a|
  {
    if |a| == 0 {
      assert a + b == b && ps[..0] == [] && ps[0..] == ps;
      return 0, Normal(Value.Nil), s;
    }
    assert (a + b)[0] == a[0] && (a + b)[1..] == a[1..] + b;
    if !ps[0].r.Normal? {
      assert ps[..1] == ps;
      return 1, ps[0].r, ps[0].t;
    }
    var k', c', m' := RunsSplit(h, a[1..], b, fuel, ps[0].t, r, t, ps[1..]);
    k, c, m := k' + 1, c', m';
    assert ps[..k][0] == ps[0] && ps[..k][1..] == ps[1..][..k'];
    assert ps[k..] == ps[1..][k'..];
  }

  /** A run that completes normally yields nil. */
  lemma {:induction false} RunsNormalIsNil(h: Host, stmts: seq<Stmt>, fuel: nat, s: State, r: Completion,
                                           t: State, ps: seq<Part>)
    requires Runs(h, stmts, fuel, s, r, t, ps) && r.Normal?
    ensures r == Normal(Value.Nil)
    decreases |stmts|
  {
    if |stmts| > 0 && ps[0].r.Normal? {
      RunsNormalIsNil(h, stmts[1..], fuel, ps[0].t, r, t, ps[1..]);
    }
  }

  /**
   * The completions of a run's steps are in order: all but the last are
   * normal, and the last, if it is not, is the run's completion.
   */
  lemma {:induction false} RunsInOrder(h: Host, stmts: seq<Stmt>, fuel: nat, s: State, r: Completion,
                                       t: State, ps: seq<Part>)
    requires Runs(h, stmts, fuel, s, r, t, ps)
    ensures RanInOrder(|stmts|, Completions(ps), r)
    decreases |stmts|
  {
    if |stmts| > 0 && ps[0].r.Normal? {
      RunsInOrder(h, stmts[1..], fuel, ps[0].t, r, t, ps[1..]);
      var rest := Completions(ps[1..]);
      assert Completions(ps) == [ps[0].r] + rest;
      if 0 < |rest| {
        assert Completions(ps)[|ps| - 1] == rest[|rest| - 1];
      }
    }
  }

  /**
   * A return signal from statement `i` of a function's body, after the
   * statements before it completed normally, makes the call return the
   * signal's value, whatever statements follow it.
   */
  lemma CallReturnsSignalValue(h: Host, f: LoxFunction, args: seq<Value>, paren: Token, fuel: nat, s: State,
                               i: nat, m: State, ps: seq<Part>, v: Value, u: State, qs: seq<Part>)
    requires fuel > 0 && CallCheck(Value.Fn(f), |args|, paren).None? && i < |f.declaration.body|
    requires Runs(h, f.declaration.body[..i], fuel - 1, State(Bindings(f.declaration.params, args), s.output),
                  Normal(Value.Nil), m, ps)
    requires Execs(h, f.declaration.body[i], fuel - 1, m, Completion.Return(v), u, qs)
    ensures Calls(h, Value.Fn(f), args, paren, fuel, s, Normal(v), State(s.vars, u.output),
                  [Part(ps + [Part(qs, Completion.Return(v), u)], Completion.Return(v), u)])
  {
    var body := f.declaration.body;
    var start := State(Bindings(f.declaration.params, args), s.output);
    var signal := Completion.Return(v);
    RunsOne(h, body[i], fuel - 1, m, signal, u, qs);
    AbruptPassesThrough(h, [body[i]], body[i + 1..], fuel - 1, m, signal, u, [Part(qs, signal, u)]);
    RunsAppend(h, body[..i], [body[i]] + body[i + 1..], fuel - 1, start, m, signal, u, ps, [Part(qs, signal, u)]);
    assert body[..i] + ([body[i]] + body[i + 1..]) == body;
  }

  /** A function body that runs to its end without a return signal makes the call return nil. */
  lemma CallFallsOffEnd(h: Host, f: LoxFunction, args: seq<Value>, paren: Token, fuel: nat, s: State,
                        c: Completion, u: State, ps: seq<Part>)
    requires fuel > 0 && CallCheck(Value.Fn(f), |args|, paren).None?
    requires Runs(h, f.declaration.body, fuel - 1, State(Bindings(f.declaration.params, args), s.output), c, u, ps)
    requires c.Normal?
    ensures c == Normal(Value.Nil)
    ensures Calls(h, Value.Fn(f), args, paren, fuel, s, Normal(Value.Nil), State(s.vars, u.output), [Part(ps, c, u)])
  {
    RunsNormalIsNil(h, f.declaration.body, fuel - 1, State(Bindings(f.declaration.params, args), s.output), c, u, ps);
  }

  /** A return signal from a nested block's statements is the block's own completion. */
  lemma ReturnLeavesBlock(h: Host, inner: seq<Stmt>, fuel: nat, st: State, v: Value, u: State, ps: seq<Part>)
    requires Runs(h, inner, fuel, State(map[], st.output), Completion.Return(v), u, ps)
    ensures Execs(h, Block(inner), fuel, st, Completion.Return(v), State(st.vars, u.output),
                  [Part(ps, Completion.Return(v), u)])
  {
  }

  /**
   * What argument evaluation reports agrees with its steps: it fails
   * exactly when the last step did, with that step's completion, and
   * otherwise its values are the steps' values.
   */
  lemma ArgumentsAgree(ps: seq<Part>, values: seq<Value>, failure: Option<Completion>)
    requires forall i | 0 <= i < |values| :: i < |ps| && ps[i].r == Normal(values[i])
    requires failure.None? ==> |values| == |ps|
    requires failure.Some? ==> |ps| == |values| + 1 && failure.value == ps[|values|].r && !failure.value.Normal?
    ensures failure.Some? <==> Failed(ps)
    ensures failure.Some? ==> failure.value == ps[|ps| - 1].r
    ensures failure.None? ==> values == Values(ps)
  {
  }

  /** One argument evaluated on its own. */
  lemma ArgsOne(h: Host, a: Expr, fuel: nat, s: State, c: Completion, t: State, ps: seq<Part>)
    requires Evals(h, a, fuel, s, c, t, ps)
    ensures EvalsArgs(h, [a], fuel, s, t, [Part(ps, c, t)])
  {
    assert [a][0] == a && [a][1..] == [];
    assert [Part(ps, c, t)][1..] == [];
  }

  /** Arguments that all completed normally, followed by more arguments, are one evaluation of all. */
  lemma {:induction false} ArgsAppend(h: Host, a: seq<Expr>, b: seq<Expr>, fuel: nat, s: State, m: State,
                                      t: State, ps: seq<Part>, qs: seq<Part>)
    requires EvalsArgs(h, a, fuel, s, m, ps) && (forall i | 0 <= i < |ps| :: ps[i].r.Normal?)
    requires EvalsArgs(h, b, fuel, m, t, qs)
    ensures EvalsArgs(h, a + b, fuel, s, t, ps + qs)
    decreases |a|
  {
    if |a| == 0 {
      assert a + b == b && ps + qs == qs;
    } else {
      assert ps[0].r.Normal?;
      ArgsAppend(h, a[1..], b, fuel, ps[0].t, m, t, ps[1..], qs);
      assert (a + b)[0] == a[0] && (a + b)[1..] == a[1..] + b;
      assert (ps + qs)[0] == ps[0] && (ps + qs)[1..] == ps[1..] + qs;
    }
  }

  /** An argument that fails ends the evaluation: no later argument is evaluated. */
  lemma {:induction false} ArgsAbrupt(h: Host, a: seq<Expr>, b: seq<Expr>, fuel: nat, s: State, t: State,
                                      ps: seq<Part>)
    requires EvalsArgs(h, a, fuel, s, t, ps) && Failed(ps)
    ensures EvalsArgs(h, a + b, fuel, s, t, ps)
    decreases |a|
  {
    if |a| > 0 {
      assert (a + b)[0] == a[0] && (a + b)[1..] == a[1..] + b;
      if ps[0].r.Normal? {
        ArgsAbrupt(h, a[1..], b, fuel, ps[0].t, t, ps[1..]);
      }
    }
  }

  /**
   * How a loop ends. Its steps alternate condition, body, condition, ...;
   * every step but the last completes normally, and there are at most
   * `budget` turns. Ending on a condition, the loop yields that condition's
   * failure, nil for a falsey one, or, for a truthy one, out of fuel after
   * exactly `budget` turns; ending on a body, it yields that body's
   * completion, which is not normal.
   */
  lemma {:induction false} LoopOutcome(h: Host, s: Stmt, fuel: nat, budget: nat, st: State, r: Completion, t: State,
                                       ps: seq<Part>)
    requires s.While? && Loops(h, s, fuel, budget, st, r, t, ps)
    ensures 0 < |ps| <= 2 * budget + 1
    ensures forall i | 0 <= i < |ps| - 1 :: ps[i].r.Normal?
    ensures var c := ps[|ps| - 1].r;
      if |ps| % 2 == 1 then
        (!c.Normal? ==> r == c) &&
        (c.Normal? && !IsTruthy(c.value) ==> r == Normal(Value.Nil)) &&
        (c.Normal? && IsTruthy(c.value) ==> r == OutOfFuel && |ps| == 2 * budget + 1)
      else !c.Normal? && r == c
    decreases budget
  {
    if 1 < |ps| && ps[1].r.Normal? {
      LoopOutcome(h, s, fuel, budget - 1, ps[1].t, r, t, ps[2..]);
      assert ps[|ps| - 1] == ps[2..][|ps| - 3];
      forall i | 2 <= i < |ps| - 1
        ensures ps[i].r.Normal?
      {
        assert ps[i] == ps[2..][i - 2];
      }
    }
  }

  /** Whole turns followed by the rest of the loop are the whole loop. */
  lemma {:induction false} LoopsAfterTurns(h: Host, s: Stmt, fuel: nat, budget: nat, st: State, rest: nat, m: State,
                                           done: seq<Part>, r: Completion, t: State, qs: seq<Part>)
    requires s.While?
    requires Turns(h, s, fuel, budget, st, rest, m, done) && Loops(h, s, fuel, rest, m, r, t, qs)
    ensures Loops(h, s, fuel, budget, st, r, t, done + qs)
    decreases |done|
  {
    if |done| < 2 {
      assert done + qs == qs;
    } else {
      LoopsAfterTurns(h, s, fuel, budget - 1, done[1].t, rest, m, done[2..], r, t, qs);
      assert (done + qs)[0] == done[0] && (done + qs)[1] == done[1] && (done + qs)[2..] == done[2..] + qs;
    }
  }

  /**
   * After whole turns, a condition that fails, is falsey, or is truthy with
   * no turn left ends the loop: with the condition's completion, nil, or
   * out of fuel.
   */
  lemma LoopStops(h: Host, s: Stmt, fuel: nat, st: State, rest: nat, m: State, done: seq<Part>, pc: Part, r: Completion)
    requires s.While? && Turns(h, s, fuel, fuel, st, rest, m, done)
    requires Evals(h, s.condition, fuel, m, pc.r, pc.t, pc.parts)
    requires r == if !pc.r.Normal? then pc.r else if !IsTruthy(pc.r.value) then Normal(Value.Nil) else OutOfFuel
    requires pc.r.Normal? && IsTruthy(pc.r.value) ==> rest == 0
    ensures Execs(h, s, fuel, st, r, pc.t, done + [pc])
  {
    LoopsAfterTurns(h, s, fuel, fuel, st, rest, m, done, r, pc.t, [pc]);
  }

  /** After whole turns, a body that does not complete normally ends the loop with its completion. */
  lemma LoopBodyStops(h: Host, s: Stmt, fuel: nat, st: State, rest: nat, m: State, done: seq<Part>, pc: Part, pb: Part)
    requires s.While? && Turns(h, s, fuel, fuel, st, rest, m, done) && 0 < rest
    requires Evals(h, s.condition, fuel, m, pc.r, pc.t, pc.parts) && pc.r.Normal? && IsTruthy(pc.r.value)
    requires Execs(h, s.loopBody, fuel, pc.t, pb.r, pb.t, pb.parts) && !pb.r.Normal?
    ensures Execs(h, s, fuel, st, pb.r, pb.t, done + [pc, pb])
  {
    LoopsAfterTurns(h, s, fuel, fuel, st, rest, m, done, pb.r, pb.t, [pc, pb]);
  }

  /** One more turn whose condition is truthy and whose body completes normally. */
  lemma {:induction false} TurnsExtend(h: Host, s: Stmt, fuel: nat, budget: nat, st: State, rest: nat, m: State,
                                       done: seq<Part>, pc: Part, pb: Part)
    requires s.While?
    requires Turns(h, s, fuel, budget, st, rest, m, done) && 0 < rest
    requires Evals(h, s.condition, fuel, m, pc.r, pc.t, pc.parts) && pc.r.Normal? && IsTruthy(pc.r.value)
    requires Execs(h, s.loopBody, fuel, pc.t, pb.r, pb.t, pb.parts) && pb.r.Normal?
    ensures Turns(h, s, fuel, budget, st, rest - 1, pb.t, done + [pc, pb])
    decreases |done|
  {
    if |done| < 2 {
      assert done + [pc, pb] == [pc, pb] && [pc, pb][2..] == [];
    } else {
      TurnsExtend(h, s, fuel, budget - 1, done[1].t, rest, m, done[2..], pc, pb);
      assert (done + [pc, pb])[2..] == done[2..] + [pc, pb];
    }
  }

  // ---------------------------------------------------------------------
  // The interpreter
  // ---------------------------------------------------------------------

  class Interpreter {
    const globals: Environment<Value>
    var environment: Environment<Value>
    var locals: map<Expr, nat>
    /** The lines `print` has written, oldest first. */
    var output: seq<string>
    /** The reading the native clock returns. */
    const clockReading: real
    const showNumber: real -> string
    const byZero: (TokenType, real) -> real

    /** The globals hold the native clock, and they are the current environment. */
    constructor(clockReading: real, showNumber: real -> string, byZero: (TokenType, real) -> real)
      ensures fresh(globals) && environment == globals
      ensures globals.values == map["clock" := Native]
      ensures locals == map[] && output == []
      ensures this.clockReading == clockReading && this.showNumber == showNumber && this.byZero == byZero
    {
      var g := new Environment<Value>();
      g.Define("clock", Native);
      globals := g;
      environment := g;
      locals := map[];
      output := [];
      this.clockReading := clockReading;
      this.showNumber := showNumber;
      this.byZero := byZero;
    }

    /** The host parts this interpreter was made with. */
    ghost function Setup(): Host
    {
      Host(showNumber, byZero, clockReading)
    }

    /** The current environment's bindings and the output so far. */
    ghost function Current(): State
      reads this, environment
    {
      State(environment.values, output)
    }

    /** Records the scope depth of an expression; nothing reads it back. */
    method Resolve(expr: Expr, depth: nat)
      modifies this
      ensures locals == old(locals)[expr := depth]
      ensures environment == old(environment) && output == old(output)
    {
      locals := locals[expr := depth];
    }

    /**
     * Runs the statements in order in the current environment and stops at
     * the first one that does not complete normally; `parts` are the steps
     * of the run.
     */
    method Interpret(stmts: seq<Stmt>, fuel: nat) returns (r: Completion, ghost parts: seq<Part>)
      modifies this, environment
      ensures environment == old(environment) && old(output) <= output
      ensures Runs(Setup(), stmts, fuel, old(Current()), r, Current(), parts)
    {
      r := Normal(Value.Nil);
      parts := [];
      var i := 0;
      while i < |stmts|
        invariant i <= |stmts|
        invariant r == Normal(Value.Nil)
        invariant environment == old(environment) && old(output) <= output
        invariant Runs(Setup(), stmts[..i], fuel, old(Current()), r, Current(), parts)
      {
        ghost var here := Current();
        ghost var p;
        r, p := Execute(stmts[i], fuel);
        ghost var step := Part(p, r, Current());
        RunsOne(Setup(), stmts[i], fuel, here, r, Current(), p);
        assert stmts[..i] + [stmts[i]] == stmts[..i + 1];
        if !r.Normal? {
          AbruptPassesThrough(Setup(), [stmts[i]], stmts[i + 1..], fuel, here, r, Current(), [step]);
          assert [stmts[i]] + stmts[i + 1..] == stmts[i..];
          RunsAppend(Setup(), stmts[..i], stmts[i..], fuel, old(Current()), here, r, Current(), parts, [step]);
          assert stmts[..i] + stmts[i..] == stmts;
          parts := parts + [step];
          return;
        }
        RunsAppend(Setup(), stmts[..i], [stmts[i]], fuel, old(Current()), here, r, Current(), parts, [step]);
        parts := parts + [step];
        i := i + 1;
      }
      assert stmts[..i] == stmts;
    }

    /** A variable read (and `this`): the binding in the current environment, or the "Undefined variable" error. */
    method LookUp(name: Token) returns (r: Completion)
      ensures r == FromResult(Lookup(environment.values, name))
      ensures r.Normal? <==> name.lexeme in environment.values
    {
      var res := environment.Get(name);
      r := FromResult(res);
    }

    /** Evaluates an expression by its visitor; `parts` are the steps it took. */
    method Evaluate(e: Expr, fuel: nat) returns (r: Completion, ghost parts: seq<Part>)
      modifies this, environment
      ensures environment == old(environment) && old(output) <= output
      ensures !r.Return?
      ensures e.Literal? ==> r == Normal(LiteralToValue(e.literal))
      ensures e.Variable? ==> r == FromResult(Lookup(old(environment.values), e.name))
      ensures e.This? ==> r == FromResult(Lookup(old(environment.values), e.keyword))
      ensures Evals(Setup(), e, fuel, old(Current()), r, Current(), parts)
      decreases fuel, ExprSize(e), 2
    {
      match e
      case Literal(l) =>
        r, parts := Normal(LiteralToValue(l)), [];
      case Grouping(inner) =>
        r, parts := Evaluate(inner, fuel);
      case Variable(name) =>
        r := LookUp(name);
        parts := [];
      case This(keyword) =>
        r := LookUp(keyword);
        parts := [];
      case Assign(_, _) =>
        ghost var value, before;
        r, value, before, parts := VisitAssign(e, fuel);
      case Binary(_, _, _) =>
        ghost var left, right;
        r, left, right, parts := VisitBinary(e, fuel);
      case Logical(_, _, _) =>
        ghost var left, right;
        r, left, right, parts := VisitLogical(e, fuel);
      case Unary(_, _) =>
        ghost var right;
        r, right, parts := VisitUnary(e, fuel);
      case Call(_, _, _) =>
        ghost var callee, values, failure, body;
        r, callee, values, failure, body, parts := VisitCall(e, fuel);
      case Get(_, _) =>
        ghost var obj;
        r, obj, parts := VisitGet(e, fuel);
      case Set(_, _, _) =>
        ghost var obj, value;
        r, obj, value, parts := VisitSet(e, fuel);
    }

    /**
     * Evaluates the value, then assigns it to an existing binding; `before`
     * is the environment's bindings between the two steps.
     */
    method VisitAssign(e: Expr, fuel: nat)
      returns (r: Completion, ghost value: Completion, ghost before: map<string, Value>, ghost parts: seq<Part>)
      requires e.Assign?
      modifies this, environment
      ensures environment == old(environment) && old(output) <= output
      ensures !r.Return? && !value.Return?
      ensures !value.Normal? ==> r == value
      ensures value.Normal? && e.name.lexeme in before ==>
        r == value && environment.values == before[e.name.lexeme := value.value]
      ensures value.Normal? && e.name.lexeme !in before ==>
        r == Error(e.name, UndefinedMessage(e.name.lexeme)) && environment.values == before
      ensures Evals(Setup(), e, fuel, old(Current()), r, Current(), parts)
      decreases fuel, ExprSize(e), 1
    {
      var v;
      ghost var p;
      v, p := Evaluate(e.value, fuel);
      value := v;
      before := environment.values;
      parts := [Part(p, v, Current())];
      if !v.Normal? {
        return v, value, before, parts;
      }
      var res := environment.Assign(e.name, v.value);
      if res.Err? {
        return Error(res.token, res.message), value, before, parts;
      }
      r := v;
    }

    /** Evaluates both operands, left first, then applies the operator. */
    method VisitBinary(e: Expr, fuel: nat)
      returns (r: Completion, ghost left: Completion, ghost right: Option<Completion>, ghost parts: seq<Part>)
      requires e.Binary?
      modifies this, environment
      ensures environment == old(environment) && old(output) <= output
      ensures !r.Return?
      ensures !left.Normal? ==> r == left && right.None?
      ensures left.Normal? ==>
        right.Some? &&
        r == (if right.value.Normal?
              then BinaryOperation(e.operator, left.value, right.value.value, showNumber, byZero)
              else right.value)
      ensures Evals(Setup(), e, fuel, old(Current()), r, Current(), parts)
      decreases fuel, ExprSize(e), 1
    {
      var l;
      ghost var lp;
      l, lp := Evaluate(e.left, fuel);
      left := l;
      right := None;
      ghost var middle := Current();
      parts := [Part(lp, l, middle)];
      if !l.Normal? {
        return l, left, right, parts;
      }
      var rightResult;
      ghost var rp;
      rightResult, rp := Evaluate(e.right, fuel);
      right := Some(rightResult);
      parts := [Part(lp, l, middle), Part(rp, rightResult, Current())];
      if !rightResult.Normal? {
        return rightResult, left, right, parts;
      }
      r := BinaryOperation(e.operator, l.value, rightResult.value, showNumber, byZero);
    }

    /** Evaluates the right operand only when the left one does not decide the result. */
    method VisitLogical(e: Expr, fuel: nat)
      returns (r: Completion, ghost left: Completion, ghost right: Option<Completion>, ghost parts: seq<Part>)
      requires e.Logical?
      modifies this, environment
      ensures environment == old(environment) && old(output) <= output
      ensures !r.Return?
      ensures !left.Normal? ==> r == left && right.None?
      ensures left.Normal? && ShortCircuits(e.operator, left.value) ==> r == left && right.None?
      ensures left.Normal? && !ShortCircuits(e.operator, left.value) ==> right.Some? && r == right.value
      ensures left.Normal? && right.Some? && right.value.Normal? ==>
        r == Normal(LogicalValue(e.operator, left.value, right.value.value))
      ensures Evals(Setup(), e, fuel, old(Current()), r, Current(), parts)
      decreases fuel, ExprSize(e), 1
    {
      var l;
      ghost var lp;
      l, lp := Evaluate(e.left, fuel);
      left := l;
      right := None;
      ghost var middle := Current();
      parts := [Part(lp, l, middle)];
      if !l.Normal? || ShortCircuits(e.operator, l.value) {
        return l, left, right, parts;
      }
      ghost var rp;
      r, rp := Evaluate(e.right, fuel);
      right := Some(r);
      parts := [Part(lp, l, middle), Part(rp, r, Current())];
    }

    /**
     * Evaluates the operand, then yields nil: the source switches on the
     * operator token's `left` field, which tokens do not have, so neither
     * case is taken.
     */
    method VisitUnary(e: Expr, fuel: nat) returns (r: Completion, ghost right: Completion, ghost parts: seq<Part>)
      requires e.Unary?
      modifies this, environment
      ensures environment == old(environment) && old(output) <= output
      ensures !r.Return?
      ensures r == if right.Normal? then Normal(Value.Nil) else right
      ensures Evals(Setup(), e, fuel, old(Current()), r, Current(), parts)
      decreases fuel, ExprSize(e), 1
    {
      var v;
      ghost var p;
      v, p := Evaluate(e.right, fuel);
      right := v;
      parts := [Part(p, v, Current())];
      r := if v.Normal? then Normal(Value.Nil) else v;
    }

    /**
     * Evaluates the arguments left to right and stops at the first one that
     * fails; `parts` are the steps, one per argument evaluated.
     */
    method EvaluateArguments(args: seq<Expr>, fuel: nat)
      returns (values: seq<Value>, failure: Option<Completion>, ghost parts: seq<Part>)
      modifies this, environment
      ensures environment == old(environment) && old(output) <= output
      ensures forall i | 0 <= i < |parts| :: !parts[i].r.Return?
      ensures forall i | 0 <= i < |values| :: i < |parts| && parts[i].r == Normal(values[i])
      ensures failure.None? ==> |values| == |parts| == |args|
      ensures failure.Some? ==>
        |values| < |args| && |parts| == |values| + 1 &&
        failure.value == parts[|values|].r && !failure.value.Normal?
      ensures EvalsArgs(Setup(), args, fuel, old(Current()), Current(), parts)
      decreases fuel, ExprsSize(args), 3
    {
      values, parts := [], [];
      var i := 0;
      while i < |args|
        invariant 0 <= i <= |args| && |values| == |parts| == i
        invariant forall k | 0 <= k < i :: parts[k].r == Normal(values[k])
        invariant environment == old(environment) && old(output) <= output
        invariant EvalsArgs(Setup(), args[..i], fuel, old(Current()), Current(), parts)
      {
        ghost var here := Current();
        var v;
        ghost var p;
        v, p := Evaluate(args[i], fuel);
        ghost var step := Part(p, v, Current());
        ArgsOne(Setup(), args[i], fuel, here, v, Current(), p);
        ArgsAppend(Setup(), args[..i], [args[i]], fuel, old(Current()), here, Current(), parts, [step]);
        assert args[..i] + [args[i]] == args[..i + 1];
        parts := parts + [step];
        if !v.Normal? {
          ArgsAbrupt(Setup(), args[..i + 1], args[i + 1..], fuel, old(Current()), Current(), parts);
          assert args[..i + 1] + args[i + 1..] == args;
          return values, Some(v), parts;
        }
        values := values + [v.value];
        i := i + 1;
      }
      assert args[..i] == args;
      failure := None;
    }

    /**
     * Evaluates the callee, then the arguments, checks the callee and the
     * argument count, then calls it. For a function, `body` is the
     * completion of its body.
     */
    method VisitCall(e: Expr, fuel: nat)
      returns (r: Completion, ghost callee: Completion, ghost values: seq<Value>, ghost failure: Option<Completion>,
               ghost body: Completion, ghost parts: seq<Part>)
      requires e.Call?
      modifies this, environment
      ensures environment == old(environment) && old(output) <= output
      ensures !r.Return?
      ensures !callee.Normal? ==> r == callee
      ensures callee.Normal? && failure.Some? ==> r == failure.value
      ensures callee.Normal? && failure.None? ==> |values| == |e.args|
      ensures callee.Normal? && failure.None? && CallCheck(callee.value, |values|, e.paren).Some? ==>
        r == CallCheck(callee.value, |values|, e.paren).value
      ensures callee.Normal? && failure.None? && CallCheck(callee.value, |values|, e.paren).None? ==>
        (callee.value.Class? ==>
           r.Normal? && r.value.Instance? && fresh(r.value.i) && r.value.i.klass == callee.value.c) &&
        (callee.value.Native? ==> r == Normal(Num(clockReading))) &&
        (callee.value.Fn? ==> r == CatchReturn(body) && (fuel == 0 ==> body == OutOfFuel))
      ensures Evals(Setup(), e, fuel, old(Current()), r, Current(), parts)
      decreases fuel, ExprSize(e), 1
    {
      values := [];
      failure := None;
      body := OutOfFuel;
      var c;
      ghost var cp;
      c, cp := Evaluate(e.callee, fuel);
      callee := c;
      ghost var first := Part(cp, c, Current());
      parts := [first];
      if !c.Normal? {
        return c, callee, values, failure, body, parts;
      }
      ghost var argParts;
      var args, argFailure;
      args, argFailure, argParts := EvaluateArguments(e.args, fuel);
      values, failure := args, argFailure;
      ghost var here := Current();
      ghost var second := Part(argParts, Normal(Value.Nil), here);
      ArgumentsAgree(argParts, args, argFailure);
      if argFailure.Some? {
        return argFailure.value, callee, values, failure, body, [first, second];
      }
      ghost var callParts;
      r, body, callParts := CallValue(c.value, args, e.paren, fuel);
      parts := [first, second, Part(callParts, r, Current())];
      CallCompletes(Setup(), e, fuel, old(Current()), first, second, parts[2]);
    }

    /**
     * The checks on the evaluated callee and arguments, then the callee's
     * own `call`: a function runs its body, a class makes a new instance,
     * and the native clock returns its reading. For a function, `body` is
     * the completion of its body.
     */
    method CallValue(callee: Value, args: seq<Value>, paren: Token, fuel: nat)
      returns (r: Completion, ghost body: Completion, ghost parts: seq<Part>)
      modifies this
      ensures environment == old(environment) && old(output) <= output
      ensures !r.Return?
      ensures CallCheck(callee, |args|, paren).Some? ==> r == CallCheck(callee, |args|, paren).value
      ensures CallCheck(callee, |args|, paren).None? ==>
        (callee.Class? ==> r.Normal? && r.value.Instance? && fresh(r.value.i) && r.value.i.klass == callee.c) &&
        (callee.Native? ==> r == Normal(Num(clockReading))) &&
        (callee.Fn? ==> r == CatchReturn(body) && (fuel == 0 ==> body == OutOfFuel))
      ensures Calls(Setup(), callee, args, paren, fuel, old(Current()), r, Current(), parts)
      decreases fuel, 0, 1
    {
      body, parts := OutOfFuel, [];
      var check := CallCheck(callee, |args|, paren);
      if check.Some? {
        return check.value, body, parts;
      }
      if callee.Fn? {
        ghost var after, run;
        r, body, run, after := callee.f.Call(this, args, fuel);
        if fuel > 0 {
          parts := [Part(run, body, State(after, output))];
        }
      } else if callee.Class? {
        var instance := callee.c.Call(args);
        r := Normal(Instance(instance));
      } else {
        r := Normal(Num(clockReading));
      }
    }

    /** Evaluates the object, then reads the property. */
    method VisitGet(e: Expr, fuel: nat) returns (r: Completion, ghost obj: Completion, ghost parts: seq<Part>)
      requires e.Get?
      modifies this, environment
      ensures environment == old(environment) && old(output) <= output
      ensures !r.Return? && !r.Normal?
      ensures r == if obj.Normal? then GetProperty(obj.value, e.name) else obj
      ensures Evals(Setup(), e, fuel, old(Current()), r, Current(), parts)
      decreases fuel, ExprSize(e), 1
    {
      var o;
      ghost var p;
      o, p := Evaluate(e.obj, fuel);
      obj := o;
      parts := [Part(p, o, Current())];
      r := if o.Normal? then GetProperty(o.value, e.name) else o;
    }

    /** Evaluates the object, tests it, and only then evaluates the value. */
    method VisitSet(e: Expr, fuel: nat)
      returns (r: Completion, ghost obj: Completion, ghost value: Option<Completion>, ghost parts: seq<Part>)
      requires e.Set?
      modifies this, environment
      ensures environment == old(environment) && old(output) <= output
      ensures !r.Return? && !r.Normal?
      ensures !obj.Normal? ==> r == obj && value.None?
      ensures obj.Normal? && SetGuard(obj.value, e.name).Some? ==>
        r == SetGuard(obj.value, e.name).value && value.None?
      ensures obj.Normal? && SetGuard(obj.value, e.name).None? ==>
        value.Some? && r == (if value.value.Normal? then Fault(NoSetMethod) else value.value)
      ensures Evals(Setup(), e, fuel, old(Current()), r, Current(), parts)
      decreases fuel, ExprSize(e), 1
    {
      value := None;
      var o;
      ghost var op;
      o, op := Evaluate(e.obj, fuel);
      obj := o;
      ghost var first := Part(op, o, Current());
      parts := [first];
      if !o.Normal? {
        return o, obj, value, parts;
      }
      var guard := SetGuard(o.value, e.name);
      if guard.Some? {
        return guard.value, obj, value, parts;
      }
      var v;
      ghost var vp;
      v, vp := Evaluate(e.value, fuel);
      value := Some(v);
      parts := [first, Part(vp, v, Current())];
      if !v.Normal? {
        return v, obj, value, parts;
      }
      r := Fault(NoSetMethod);
    }

    /** Executes a statement by its visitor; `parts` are the steps it took. */
    method Execute(s: Stmt, fuel: nat) returns (r: Completion, ghost parts: seq<Part>)
      modifies this, environment
      ensures environment == old(environment) && old(output) <= output
      ensures r.Normal? ==> r == Normal(Value.Nil)
      ensures Execs(Setup(), s, fuel, old(Current()), r, Current(), parts)
      decreases fuel, StmtSize(s), 2
    {
      match s
      case Block(_) =>
        r, parts := VisitBlock(s, fuel);
      case Class(_, _) =>
        r := VisitClass(s);
        parts := [];
      case Expression(_) =>
        ghost var value;
        r, value, parts := VisitExpression(s, fuel);
      case Fn(_, _, _) =>
        r := VisitFn(s);
        parts := [];
      case If(_, _, _) =>
        ghost var cond, taken, branch;
        r, cond, taken, branch, parts := VisitIf(s, fuel);
      case Print(_) =>
        ghost var value, before;
        r, value, before, parts := VisitPrint(s, fuel);
      case Return(_, _) =>
        ghost var value;
        r, value, parts := VisitReturn(s, fuel);
      case Var(_, _) =>
        ghost var init, before;
        r, init, before, parts := VisitVar(s, fuel);
      case While(_, _) =>
        r, parts := VisitWhile(s, fuel);
    }

    /**
     * Makes `env` the current environment, runs the statements in order
     * until one does not complete normally, and puts the previous
     * environment back on every exit; `parts` are the steps of the run.
     */
    method ExecuteBlock(stmts: seq<Stmt>, env: Environment<Value>, fuel: nat)
      returns (r: Completion, ghost parts: seq<Part>)
      modifies this, env
      ensures environment == old(environment) && old(output) <= output
      ensures r.Normal? ==> r == Normal(Value.Nil)
      ensures Runs(Setup(), stmts, fuel, State(old(env.values), old(output)), r, State(env.values, output), parts)
      decreases fuel, StmtsSize(stmts), 3
    {
      var previous := environment;
      environment := env;
      ghost var start := Current();
      r := Normal(Value.Nil);
      parts := [];
      var i := 0;
      while i < |stmts|
        invariant 0 <= i <= |stmts|
        invariant environment == env && r == Normal(Value.Nil)
        invariant old(output) <= output
        invariant Runs(Setup(), stmts[..i], fuel, start, r, Current(), parts)
      {
        StmtsSizeElement(stmts, i);
        ghost var here := Current();
        ghost var p;
        r, p := Execute(stmts[i], fuel);
        ghost var step := Part(p, r, Current());
        RunsOne(Setup(), stmts[i], fuel, here, r, Current(), p);
        assert stmts[..i] + [stmts[i]] == stmts[..i + 1];
        if !r.Normal? {
          AbruptPassesThrough(Setup(), [stmts[i]], stmts[i + 1..], fuel, here, r, Current(), [step]);
          assert [stmts[i]] + stmts[i + 1..] == stmts[i..];
          RunsAppend(Setup(), stmts[..i], stmts[i..], fuel, start, here, r, Current(), parts, [step]);
          assert stmts[..i] + stmts[i..] == stmts;
          parts := parts + [step];
          break;
        }
        RunsAppend(Setup(), stmts[..i], [stmts[i]], fuel, start, here, r, Current(), parts, [step]);
        parts := parts + [step];
        i := i + 1;
      }
      if r.Normal? {
        assert stmts[..i] == stmts;
      }
      environment := previous;
    }

    /** A block runs in a new, empty environment and leaves the current one's bindings as they were. */
    method VisitBlock(s: Stmt, fuel: nat) returns (r: Completion, ghost parts: seq<Part>)
      requires s.Block?
      modifies this, environment
      ensures environment == old(environment) && old(output) <= output
      ensures environment.values == old(environment.values)
      ensures r.Normal? ==> r == Normal(Value.Nil)
      ensures Execs(Setup(), s, fuel, old(Current()), r, Current(), parts)
      decreases fuel, StmtSize(s), 1
    {
      var env := new Environment<Value>();
      ghost var run;
      r, run := ExecuteBlock(s.statements, env, fuel);
      parts := [Part(run, r, State(env.values, output))];
    }

    /** Binds the class name to nil, then assigns it a new class of that name. */
    method VisitClass(s: Stmt) returns (r: Completion)
      requires s.Class?
      modifies environment
      ensures r == Normal(Value.Nil)
      ensures s.name.lexeme in environment.values
      ensures var v := environment.values[s.name.lexeme];
        v.Class? && fresh(v.c) && v.c.name == s.name.lexeme &&
        environment.values == old(environment.values)[s.name.lexeme := v]
    {
      environment.Define(s.name.lexeme, Value.Nil);
      var klass := new LoxClass(s.name.lexeme);
      var res := environment.Assign(s.name, Value.Class(klass));
      r := Normal(Value.Nil);
    }

    /** Evaluates the expression and drops its value. */
    method VisitExpression(s: Stmt, fuel: nat) returns (r: Completion, ghost value: Completion, ghost parts: seq<Part>)
      requires s.Expression?
      modifies this, environment
      ensures environment == old(environment) && old(output) <= output
      ensures r == if value.Normal? then Normal(Value.Nil) else value
      ensures !r.Return?
      ensures Execs(Setup(), s, fuel, old(Current()), r, Current(), parts)
      decreases fuel, StmtSize(s), 1
    {
      var v;
      ghost var p;
      v, p := Evaluate(s.expression, fuel);
      value := v;
      parts := [Part(p, v, Current())];
      r := if v.Normal? then Normal(Value.Nil) else v;
    }

    /** Binds the declared name to a new function made from this declaration. */
    method VisitFn(s: Stmt) returns (r: Completion)
      requires s.Fn?
      modifies environment
      ensures r == Normal(Value.Nil)
      ensures s.name.lexeme in environment.values
      ensures var v := environment.values[s.name.lexeme];
        v.Fn? && fresh(v.f) && v.f.declaration == s &&
        environment.values == old(environment.values)[s.name.lexeme := v]
    {
      var f := new LoxFunction(s);
      environment.Define(s.name.lexeme, Value.Fn(f));
      r := Normal(Value.Nil);
    }

    /**
     * Runs the then-branch for a truthy condition, else the else-branch if
     * there is one; `taken` is the branch run and `branch` its completion.
     */
    method VisitIf(s: Stmt, fuel: nat)
      returns (r: Completion, ghost cond: Completion, ghost taken: Option<Stmt>, ghost branch: Option<Completion>,
               ghost parts: seq<Part>)
      requires s.If?
      modifies this, environment
      ensures environment == old(environment) && old(output) <= output
      ensures r.Normal? ==> r == Normal(Value.Nil)
      ensures !cond.Normal? ==> r == cond && taken.None? && branch.None?
      ensures cond.Normal? ==> taken == if IsTruthy(cond.value) then Some(s.thenBranch) else s.elseBranch
      ensures taken.Some? <==> branch.Some?
      ensures branch.Some? ==> r == branch.value
      ensures cond.Normal? && taken.None? ==> r == Normal(Value.Nil)
      ensures Execs(Setup(), s, fuel, old(Current()), r, Current(), parts)
      decreases fuel, StmtSize(s), 1
    {
      taken, branch := None, None;
      var c;
      ghost var cp;
      c, cp := Evaluate(s.condition, fuel);
      cond := c;
      ghost var first := Part(cp, c, Current());
      parts := [first];
      if !c.Normal? {
        return c, cond, taken, branch, parts;
      }
      ghost var bp;
      if IsTruthy(c.value) {
        taken := Some(s.thenBranch);
        r, bp := Execute(s.thenBranch, fuel);
        branch := Some(r);
        parts := [first, Part(bp, r, Current())];
      } else if s.elseBranch.Some? {
        taken := s.elseBranch;
        r, bp := Execute(s.elseBranch.value, fuel);
        branch := Some(r);
        parts := [first, Part(bp, r, Current())];
      } else {
        r := Normal(Value.Nil);
      }
    }

    /** Appends the value's text to the output; `before` is the output after the evaluation. */
    method VisitPrint(s: Stmt, fuel: nat)
      returns (r: Completion, ghost value: Completion, ghost before: seq<string>, ghost parts: seq<Part>)
      requires s.Print?
      modifies this, environment
      ensures environment == old(environment) && old(output) <= before
      ensures value.Normal? ==> r == Normal(Value.Nil) && output == before + [Stringify(value.value, showNumber)]
      ensures !value.Normal? ==> r == value && output == before
      ensures Execs(Setup(), s, fuel, old(Current()), r, Current(), parts)
      decreases fuel, StmtSize(s), 1
    {
      var v;
      ghost var p;
      v, p := Evaluate(s.expression, fuel);
      value := v;
      before := output;
      parts := [Part(p, v, Current())];
      if !v.Normal? {
        return v, value, before, parts;
      }
      output := output + [Stringify(v.value, showNumber)];
      r := Normal(Value.Nil);
    }

    /** The return signal, carrying the value (nil when there is none). */
    method VisitReturn(s: Stmt, fuel: nat) returns (r: Completion, ghost value: Option<Completion>, ghost parts: seq<Part>)
      requires s.Return?
      modifies this, environment
      ensures environment == old(environment) && old(output) <= output
      ensures s.value.None? ==> value.None? && r == Completion.Return(Value.Nil)
      ensures s.value.Some? ==>
        value.Some? &&
        r == (if value.value.Normal? then Completion.Return(value.value.value) else value.value)
      ensures Execs(Setup(), s, fuel, old(Current()), r, Current(), parts)
      decreases fuel, StmtSize(s), 1
    {
      value := None;
      if s.value.None? {
        return Completion.Return(Value.Nil), value, [];
      }
      var v;
      ghost var p;
      v, p := Evaluate(s.value.value, fuel);
      value := Some(v);
      parts := [Part(p, v, Current())];
      r := if v.Normal? then Completion.Return(v.value) else v;
    }

    /**
     * Defines the name to the initializer's value, or to nil without one;
     * `before` is the bindings after the initializer ran.
     */
    method VisitVar(s: Stmt, fuel: nat)
      returns (r: Completion, ghost init: Option<Completion>, ghost before: map<string, Value>, ghost parts: seq<Part>)
      requires s.Var?
      modifies this, environment
      ensures environment == old(environment) && old(output) <= output
      ensures s.initializer.None? ==>
        init.None? && r == Normal(Value.Nil) && environment.values == old(environment.values)[s.name.lexeme := Value.Nil]
      ensures s.initializer.Some? ==> init.Some? && !init.value.Return?
      ensures s.initializer.Some? && init.value.Normal? ==>
        r == Normal(Value.Nil) && environment.values == before[s.name.lexeme := init.value.value]
      ensures s.initializer.Some? && !init.value.Normal? ==> r == init.value
      ensures Execs(Setup(), s, fuel, old(Current()), r, Current(), parts)
      decreases fuel, StmtSize(s), 1
    {
      init := None;
      parts := [];
      var value := Value.Nil;
      if s.initializer.Some? {
        var c;
        ghost var p;
        c, p := Evaluate(s.initializer.value, fuel);
        init := Some(c);
        parts := [Part(p, c, Current())];
        if !c.Normal? {
          return c, init, environment.values, parts;
        }
        value := c.value;
      }
      before := environment.values;
      environment.Define(s.name.lexeme, value);
      r := Normal(Value.Nil);
    }

    /**
     * Runs the body while the condition is truthy; each turn spends one unit
     * of a budget of `fuel` turns. `parts` are the steps: each condition,
     * then each body run.
     */
    method VisitWhile(s: Stmt, fuel: nat) returns (r: Completion, ghost parts: seq<Part>)
      requires s.While?
      modifies this, environment
      ensures environment == old(environment) && old(output) <= output
      ensures r.Normal? ==> r == Normal(Value.Nil)
      ensures Execs(Setup(), s, fuel, old(Current()), r, Current(), parts)
      decreases fuel, StmtSize(s), 1
    {
      var budget: nat := fuel;
      parts := [];
      while true
        invariant environment == old(environment) && old(output) <= output
        invariant budget <= fuel
        invariant Turns(Setup(), s, fuel, fuel, old(Current()), budget, Current(), parts)
        decreases budget
      {
        ghost var here := Current();
        var c;
        ghost var cp;
        c, cp := Evaluate(s.condition, fuel);
        ghost var pc := Part(cp, c, Current());
        if !c.Normal? {
          LoopStops(Setup(), s, fuel, old(Current()), budget, here, parts, pc, c);
          return c, parts + [pc];
        }
        if !IsTruthy(c.value) {
          LoopStops(Setup(), s, fuel, old(Current()), budget, here, parts, pc, Normal(Value.Nil));
          return Normal(Value.Nil), parts + [pc];
        }
        if budget == 0 {
          LoopStops(Setup(), s, fuel, old(Current()), budget, here, parts, pc, OutOfFuel);
          return OutOfFuel, parts + [pc];
        }
        budget := budget - 1;
        var b;
        ghost var bp;
        b, bp := Execute(s.loopBody, fuel);
        ghost var pb := Part(bp, b, Current());
        if !b.Normal? {
          LoopBodyStops(Setup(), s, fuel, old(Current()), budget + 1, here, parts, pc, pb);
          return b, parts + [pc, pb];
        }
        TurnsExtend(Setup(), s, fuel, fuel, old(Current()), budget + 1, here, parts, pc, pb);
        parts := parts + [pc, pb];
      }
    }
  }
}
