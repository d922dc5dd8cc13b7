# A verified model of the nlox interpreter core

nlox is an unfinished JavaScript port of the Lox tree-walking interpreter.
This project models its core in Dafny and proves properties of the model:

- the lexer (`Scanner`): the cursor fields, the token list and the scan loop;
- the token record and its display text;
- the syntax tree (`Expr`, `Stmt`) and the s-expression printer (`AstPrinter`);
- the single-frame variable store (`Environment`);
- the resolver's scope stack (`Resolver`);
- the runtime values, the evaluator (`Interpreter`) and the runtime function,
  class and instance objects (`LoxFunction`, `LoxClass`, `LoxInstance`).

Files and modules:

| file | module | models |
|---|---|---|
| wrappers.dfy | Wrappers | an `Option` type |
| tokens.dfy | Tokens | Token.js and the token kinds |
| scanner.dfy | Lexer | Scanner.js |
| ast.dfy | Ast | Expr.js, Stmt.js |
| astprinter.dfy | AstPrinting | AstPrinter.js |
| environment.dfy | Environments | Environment.js |
| resolver.dfy | Resolution | Resolver.js |
| objects.dfy | Objects | LoxClass.js, LoxInstance.js |
| interpreter.dfy | Runtime | Interpreter.js, LoxFunction.js |

The source's stateful objects are Dafny classes that have the same fields:

- `Scanner` has `tokens`, `start`, `current` and `line`.
- `Environment` has `values`.
- `Resolver` has `scopes`.
- `Interpreter` has `globals`, `environment` and `locals`, plus `output` for
  the printed lines.

The scanner's and the resolver's methods are proved against pure reference
definitions, and the environment's against map updates:

- `Lexer.Step` says what one `scanToken` call does.
- `Lexer.ScanFrom` says what the whole scan loop does.
- `Resolution.Marked` says what resolving a statement list does to the scopes.

The interpreter has no pure reference evaluator, because evaluation allocates
function, class and instance objects. Its reference is instead a relational
big-step semantics in `Runtime`, made of ghost predicates over a `State` (the
current environment's bindings and the printed lines) and a `Host` (number
text, division by zero, the clock's reading):

- `Evals(h, e, fuel, s, r, t, ps)`: evaluating `e` from state `s` completes
  with `r` in state `t`.
- `Execs(h, s, fuel, st, r, t, ps)`: the same for executing a statement.
- `Runs(h, stmts, fuel, st, r, t, ps)`: the same for running a statement list.
  The first statement that does not complete normally ends the run with its
  completion. A run whose statements all complete normally yields nil.
- `EvalsArgs`, `Calls`, `CallsFunction`, `Loops` and `Turns` cover argument
  lists, calls, function bodies and loop turns.

The derivation `ps` is a list of `Part`s, one per sub-evaluation or
sub-execution that ran, in order. Each part holds its own derivation, its
completion and the state it left, so every sub-result must come from an actual
derivation of that sub-term. Only which new object a class call or a
declaration makes is left open. Each interpreter method ensures the predicate
for its node, from the state before the call to the state after it. The value
rules are plain functions:

- `Runtime.BinaryOperation`, `Runtime.CallCheck`, `Runtime.GetProperty`,
  `Runtime.SetGuard` and `Runtime.CatchReturn` give the value rules.
- `Runtime.RanInOrder` summarises how a run of statements ends, and the lemma
  `Runtime.RunsInOrder` proves that every `Runs` derivation satisfies it.

The lemmas then state the source's promises about those definitions.

Statement and expression results are a `Completion`. The source throws for
errors and for `return`, and the model returns a value instead:

- `Normal(v)` is an ordinary result.
- `Return(v)` is the signal a `return` statement throws.
- `Error(token, message)` is a `RuntimeError`.
- `Fault(message)` is a host `TypeError`. The source raises one when it reads a
  property of null or calls a method that an object lacks.
- `OutOfFuel` means the step budget ran out.

Function calls and loop turns spend fuel, so every evaluation ends.

The source has several bugs that only make it crash. The model implements what
the code evidently means instead:

- The brace kinds are used at Scanner.js:108-109 but never imported. They are
  part of the token-kind enum here.
- `endScope` pops `this.scope` (Resolver.js:45). Here it pops `scopes`.
- Token.js:15 assigns `modul.exports`. The model ignores this.
- TokenType.js and the `Return` signal are not part of this model. The kinds are
  the scanner's imports plus the braces, and the signal is the `Return`
  completion.

Other code runs but behaves oddly. The model keeps that behaviour, and the
comments at each definition say so:

- The line counter starts at 0.
- A bare newline is reported as an unexpected character, because the `'\n'`
  case compares a character code with a string. Only newlines inside strings
  advance the line counter.
- The `o` case emits OR for `or` and otherwise drops the `o`.
- `addToken` turns a falsy literal (0, "") into null.
- Unary expressions always yield nil.
- `!=` (BANG_EQUAL) yields nil, because the not-equal case is labelled `BANG`.
- Variable reads and assignments ignore resolver distances.
- Environments are flat: `new Environment(parent)` ignores the parent. A block
  or a function body therefore sees none of the enclosing bindings.
- `declare`/`define` write `scopes[0]`, the oldest scope.
- The catch in `LoxFunction.call` swallows every exception, not only the
  return signal.

The lexer's keyword lookup follows the code's evident intent rather than what
it does. This is listed under Findings.

## Model

| member | source | states |
|---|---|---|
| Tokens.TokenToString | Token.js:11-13 | the text is the kind's name, a space, the lexeme, a space and the literal's text, each at its stated position and nothing after the literal's text |
| Tokens.ToStringIgnoresLine | Token.js:11-13 | two tokens that differ only in their line have the same text |
| Lexer.IsDigit | Scanner.js:204-206 | a character whose code lies between those of `0` and `9`; Lexer.CharClasses proves these are exactly the ten decimal digits |
| Lexer.IsAlpha | Scanner.js:235-239 | a character whose code lies between those of `a` and `z` or of `A` and `Z`, or `_`; Lexer.CharClasses proves these are exactly the 52 ASCII letters and `_` |
| Lexer.IsAlphaNumeric | Scanner.js:241-243 | a letter, `_` or a digit, as isAlpha or isDigit |
| Lexer.CharClasses | Scanner.js:204-243 | the code-range tests of isDigit, isAlpha and isAlphaNumeric accept exactly the digits `0`-`9`, the letters `a`-`z` and `A`-`Z` with `_`, and the union of the two |
| Lexer.DigitIsNotAlpha | Scanner.js:149-157 | no character is both a digit and a word start, so the default case's tests never overlap |
| Lexer.IdentifierKind | Scanner.js:229-231 | a word gets its keyword kind when it is one of the 16 table entries, and IDENTIFIER exactly when it is not |
| Lexer.IdentifierKindAsWritten | Scanner.js:230 | the lookup as written yields an inherited object member exactly for the inherited member names |
| Lexer.AsWrittenAgreesOffInheritedNames | Scanner.js:44-61 | the lookup as written agrees with the intended one if and only if the word is not an inherited member name |
| Lexer.ToStringIsNotAnIdentifierAsWritten | Scanner.js:230 | the word `toString` should be IDENTIFIER, but the lookup as written gives the inherited member |
| Lexer.NullIfFalsy | Scanner.js:165-167 | the literal becomes null if and only if it is null, 0, "" or false; otherwise it is kept |
| Lexer.Find | Scanner.js:131 | the comment skip stops at the first newline at or after the start, or at the end |
| Lexer.SpanEnd | Scanner.js:209 | the end of the maximal run of digits or word characters: every character before it is in the class, and the one at it is not |
| Lexer.NumberEnd | Scanner.js:208-215 | a number literal's end lies between its first digit and the end of the source |
| Lexer.Step | Scanner.js:103-159 | one scanToken call consumes at least one character and never moves the line back; an emitted token has no report, its lexeme is the consumed slice, it is never EOF, and it carries the current line |
| Lexer.StepOther | Scanner.js:149-157 | the default case consumes at least one character and keeps the line |
| Lexer.LexString | Scanner.js:187-202 | a string consumes at least the quote and never moves the line back |
| Lexer.LexNumber | Scanner.js:208-219 | a number consumes at least one character and keeps the line |
| Lexer.LexWord | Scanner.js:226-233 | a word consumes at least one character and keeps the line |
| Lexer.ScanFromStep | Scanner.js:89-92 | the scan loop is one scanToken step followed by the loop from where the step ended |
| Lexer.LoopTurn | Scanner.js:89-92 | what is emitted so far, plus what the rest of the loop emits, is unchanged by one turn |
| Lexer.Scan | Scanner.js:88-97 | the token list ends with exactly one EOF token (empty lexeme, null literal), and no earlier token is EOF |
| Lexer.NoEofBeforeEnd | Scanner.js:88-97 | the loop itself never emits an EOF token |
| Lexer.LexemesAreSlices | Scanner.js:169-172 | every token's lexeme is a slice of the source |
| Lexer.LineNeverDecreases | Scanner.js:187-191 | the line counter only grows during a scan |
| Lexer.OperatorLookahead | Scanner.js:117-128 | `!`, `=`, `<` and `>` give the two-character kind exactly when `=` follows, and then consume two characters |
| Lexer.CommentOrSlash | Scanner.js:129-135 | `//` skips up to, not including, the next newline or the end, and emits nothing; a lone `/` emits SLASH |
| Lexer.StringToken | Scanner.js:187-202 | a closed string is one STRING token whose literal is the text strictly between the quotes (null when that text is empty), holding no quote; the newlines inside are counted and the cursor ends just past the closing quote |
| Lexer.UnterminatedString | Scanner.js:187-197 | a string with no closing quote runs to the end of the source, counts the newlines it passes, emits no token and reports "Unterminated string." on the line reached |
| Lexer.CountBetweenSlice | Scanner.js:188-190 | the newlines counted position by position over a range are exactly the newlines in that slice of the source |
| Lexer.NumberToken | Scanner.js:208-219 | a number is the maximal digit run, extended by `.` and digits only when a digit follows the `.` |
| Lexer.SpanFrom | Scanner.js:209 | starting one character later inside a run does not move the run's end |
| Lexer.WordToken | Scanner.js:226-233 | a word not starting with `o` is the maximal run of word characters; it is IDENTIFIER if and only if it is not in the keyword table |
| Lexer.DroppedO | Scanner.js:144-148 | an `o` not followed by `r` is dropped with no token and no report |
| Lexer.BareNewline | Scanner.js:140-142 | a bare newline is reported as "Unexpected character." and does not advance the line |
| Lexer.Scanner.constructor | Scanner.js:64-69 | a new scanner has no tokens, the cursor at 0 and the line at 0 |
| Lexer.Scanner.ScanTokens | Scanner.js:88-97 | the loop ends with the cursor at the end; the tokens are the old ones, then the loop's tokens per ScanFrom, then one EOF; the reports are the loop's reports; the result is the token list |
| Lexer.Scanner.ScanToken | Scanner.js:103-159 | one call has exactly the effect Step prescribes on the cursor, the line, the tokens and the reports |
| Lexer.Scanner.ScanOperator | Scanner.js:117-128 | `!`, `=`, `<` or `>` appends the two-character kind when `=` follows and the one-character kind otherwise, exactly as Step prescribes |
| Lexer.Scanner.ScanSlash | Scanner.js:129-135 | `/` either skips a `//` comment without emitting or appends SLASH, exactly as Step prescribes |
| Lexer.Scanner.ScanOr | Scanner.js:144-148 | `o` appends OR when `r` follows and otherwise drops the character, exactly as Step prescribes |
| Lexer.Scanner.ScanOther | Scanner.js:149-157 | any other character starts a number or a word, or is reported as "Unexpected character.", exactly as Step prescribes |
| Lexer.Scanner.SkipComment | Scanner.js:131 | the cursor stops at the first newline at or after it, or at the end of the source |
| Lexer.Scanner.SkipDigits | Scanner.js:209 | the cursor stops at the end of the maximal digit run starting at it |
| Lexer.Scanner.Advance | Scanner.js:161-163 | returns the character at the cursor and moves the cursor by one |
| Lexer.Scanner.Match | Scanner.js:174-180 | consumes the expected character if and only if it is next; it is false at the end of input |
| Lexer.Scanner.Peek | Scanner.js:182-185 | the next character, or NUL at the end |
| Lexer.Scanner.PeekNext | Scanner.js:221-224 | the character after the next one, or NUL when there is none |
| Lexer.Scanner.AddToken | Scanner.js:165-172 | appends one token whose lexeme is source[start..current), with a falsy literal turned into null |
| Lexer.Scanner.StringLiteral | Scanner.js:187-202 | has exactly the effect LexString prescribes |
| Lexer.Scanner.NumberLiteral | Scanner.js:208-219 | has exactly the effect LexNumber prescribes |
| Lexer.Scanner.IdentifierLiteral | Scanner.js:226-233 | has exactly the effect LexWord prescribes |
| AstPrinting.Print | AstPrinter.js:12-32 | a Binary, Grouping or Unary prints inside one pair of parentheses; a nil Literal prints "nil", any other Literal prints its value's text |
| AstPrinting.Parenthesized | AstPrinter.js:34-46 | the rendering fails if and only if some sub-expression's rendering fails; otherwise it opens with `(` and the name and closes with `)` |
| AstPrinting.ParenthesizedLayout | AstPrinter.js:34-46 | given the texts of the sub-expressions, the rendering is `(`, the name, each sub-expression's text right after one space at its offset in argument order, and `)`, and nothing else |
| AstPrinting.PrintAll | AstPrinter.js:39-42 | succeeds if and only if every sub-expression prints, and then holds one text per sub-expression, the i-th being that sub-expression's rendering |
| AstPrinting.SpacedLayout | AstPrinter.js:39-42 | the spaced text holds, for each part in order, one space followed by that part, and nothing else |
| AstPrinting.SpacedAppend | AstPrinter.js:39-42 | the loop appends, for each further part, one space and that part |
| AstPrinting.PrintDefinedIff | AstPrinter.js:11-32 | printing succeeds if and only if the tree holds only Binary, Grouping, Literal and Unary nodes |
| AstPrinting.ParensBalanced | AstPrinter.js:34-46 | the output holds one `(` and one `)` per Binary, Grouping and Unary node, given literal texts without parentheses |
| AstPrinting.BinaryShape | AstPrinter.js:16-19 | a Binary prints as "(" + operator + " " + left + " " + right + ")" |
| AstPrinting.GroupingShape | AstPrinter.js:21-23 | a Grouping prints as "(group " + inner + ")" |
| AstPrinting.UnaryShape | AstPrinter.js:30-32 | a Unary prints as "(" + operator + " " + operand + ")" |
| AstPrinting.SelfTest | AstPrinter.js:50-61 | the tree -123 * (45.67) prints "(* (- 123) (group 45.67))" |
| Environments.UndefinedMessage | Environment.js:21-22 | the message is "Undefined variable '<name>'." |
| Environments.Lookup | Environment.js:16-23 | a lookup succeeds if and only if the name is bound, with its value; otherwise it is the error carrying the token |
| Environments.Environment.constructor | Environment.js:4-5 | a new environment has no bindings |
| Environments.Environment.Define | Environment.js:12-14 | inserts or overwrites the name's binding; every other binding is unchanged |
| Environments.Environment.Get | Environment.js:16-23 | yields what Lookup prescribes and changes nothing |
| Environments.Environment.Assign | Environment.js:25-33 | replaces only the binding of a bound name; for an absent name it is the same error, and no binding is created |
| Environments.GetAfterDefine | Environment.js:12-19 | after define(t.lexeme, v), get(t) yields v |
| Environments.DefineLeavesOthers | Environment.js:12-14 | a define leaves the lookup of every other name unchanged |
| Environments.AssignPresentKeepsNames | Environment.js:25-29 | assigning a bound name adds no name |
| Resolution.Ready | Resolver.js:57 | marks exactly the given names, all ready |
| Resolution.Marked | Resolver.js:50-57 | marking changes only scopes[0], which gains the names; the depth is unchanged |
| Resolution.SetInFirst | Resolver.js:50-52 | only scopes[0] changes, and only at the name; the depth is unchanged |
| Resolution.Resolver.constructor | Resolver.js:2-5 | a new resolver has an empty scope stack |
| Resolution.Resolver.BeginScope | Resolver.js:40-42 | pushes exactly one empty scope |
| Resolution.Resolver.EndScope | Resolver.js:44-46 | pops the newest scope |
| Resolution.Resolver.Declare | Resolver.js:48-53 | maps the name to false in scopes[0]; does nothing on an empty stack |
| Resolution.Resolver.Define | Resolver.js:55-58 | maps the name to true in scopes[0]; does nothing on an empty stack |
| Resolution.Resolver.ResolveExpr | Resolver.js:64-66 | resolving an expression always fails, because there is no expression visitor |
| Resolution.Resolver.Resolve | Resolver.js:34-38 | visits the statements in order; succeeds if and only if every statement is resolvable, and then marks all their names in scopes[0] |
| Resolution.Resolver.ResolveStmt | Resolver.js:60-62 | succeeds if and only if the statement has a visitor and resolves |
| Resolution.Resolver.VisitBlock | Resolver.js:18-23 | brackets the statements with a push and a pop, so the depth after equals the depth before |
| Resolution.Resolver.VisitVar | Resolver.js:25-32 | declares, resolves the initializer if there is one (failing while the name is not ready), then defines |
| Resolution.DefineMarks | Resolver.js:55-58 | a define is a marking of that one name |
| Resolution.MarkedThenPop | Resolver.js:18-23 | marking under a pushed scope and then popping it is marking the stack below |
| Resolution.DeclareThenDefine | Resolver.js:25-32 | a declare followed by a define is the define alone |
| Objects.LoxClass.constructor | LoxClass.js:4-5 | stores the class name |
| Objects.LoxClass.Call | LoxClass.js:12-15 | ignores the arguments and returns a new instance of this class, which prints as "<name> instance" |
| Objects.LoxClass.Arity | LoxClass.js:17-19 | always 0 |
| Objects.LoxClass.ToString | LoxClass.js:21-23 | the class name |
| Objects.LoxInstance.constructor | LoxInstance.js:2-3 | stores the class reference unchanged |
| Objects.LoxInstance.ToString | LoxInstance.js:8-10 | the class name followed by " instance" |
| Objects.TwoInstances | LoxClass.js:13 | two calls of a class return two distinct instances of it |
| Runtime.LiteralToValue | Interpreter.js:83-85 | a Literal node evaluates to the value it holds |
| Runtime.IsTruthy | Interpreter.js:173-177 | a value is truthy if and only if it is neither nil nor false, so 0 and "" are truthy |
| Runtime.IsEqual | Interpreter.js:179-184 | nil equals only nil; other pairs are equal if and only if they are the same value, with no coercion between numbers and strings |
| Runtime.ShortCircuits | Interpreter.js:87-97 | `or` stops at a truthy left operand and `and` at a falsey one |
| Runtime.LogicalValue | Interpreter.js:87-97 | the result is one of the two operands: `or` gives a truthy left operand and otherwise the right; `and` gives a falsey left operand and otherwise the right |
| Runtime.LogicalTruth | Interpreter.js:87-97 | an `or` result is truthy if and only if either operand is; an `and` result if and only if both are |
| Runtime.Truncate | Interpreter.js:407-409 | rounding toward zero stays within one of the argument, on its side of zero |
| Runtime.Remainder | Interpreter.js:407-409 | `%` is the remainder of the division truncated toward zero |
| Runtime.RemainderBounds | Interpreter.js:407-409 | for every non-zero divisor, of either sign, the remainder takes the sign of the dividend and is smaller in size than the divisor |
| Runtime.NegatedDivisor | Interpreter.js:407-409 | the divisor's sign does not change the remainder |
| Runtime.Arithmetic | Interpreter.js:363-409 | the comparisons give booleans and `-`, `/`, `*`, `%` give numbers; a division or remainder by zero gives the host's value; any other operator gives nil |
| Runtime.ArithmeticLaws | Interpreter.js:363-409 | `>` is `<` with the operands swapped, `>=` is `<=` swapped and the negation of `<`; `-` undoes `+`, `/` by a non-zero divisor undoes `*`, and `%` has the dividend's sign and is smaller in size than the divisor |
| Runtime.Addition | Interpreter.js:378-400 | `+` succeeds if and only if each operand is a number or a string, and otherwise is "Operands must be number or string." at the operator; two numbers give a number that `-` turns back into the left one; with a string operand the result is a string that starts with a left string operand and ends with a right one |
| Runtime.BinaryOperation | Interpreter.js:354-413 | `==` is IsEqual and `BANG` its negation; the numeric operators fail with "Operands must be numbers." if and only if an operand is not a number; `+` fails with "Operands must be number or string." if and only if an operand is neither, adds two numbers, joins two strings, and joins a string with a number's host text in operand order; every other operator yields nil |
| Runtime.NotEqualIsNil | Interpreter.js:358-412 | `a != b` yields nil for every pair of operands |
| Runtime.StripPointZero | Interpreter.js:190-193 | a trailing ".0" is removed and nothing else changes |
| Runtime.Stringify | Interpreter.js:186-202 | nil prints "nil"; booleans print "true"/"false"; strings print as themselves; numbers print as the host text without a trailing ".0"; functions, classes and instances print their toString text |
| Runtime.IsCallable | Interpreter.js:427-442 | functions, classes and the clock are callable |
| Runtime.NotCallable | Interpreter.js:427-442 | the values a call rejects as not callable are exactly nil, booleans, numbers, strings and instances |
| Runtime.Arity | Interpreter.js:445-448 | a function takes as many arguments as it has parameters; a class and the clock take none |
| Runtime.NatText | Interpreter.js:446-448 | the count's text is a non-empty run of digits that the lexer reads back as the same count, with no leading zero: it starts with 0 only for the count 0, and is then "0" |
| Runtime.CallCheck | Interpreter.js:423-449 | a call proceeds if and only if the callee is callable and the argument count equals its arity; otherwise it is the null fault, "Can only call functions and classes." or "Expect N arguments but got M." |
| Runtime.GetProperty | Interpreter.js:453-461 | no property read succeeds; a nil object gives the host null fault, and a non-nil non-instance gives "Only instances have properties." |
| Runtime.SetGuard | Interpreter.js:99-105 | a write goes on to evaluate its value if and only if the object is an instance; a nil object gives the host null fault, and a non-nil non-instance gives "Only instances have fields." |
| Runtime.CatchReturn | LoxFunction.js:18-23 | a call returns the return signal's value, or nil when the body ends normally or throws anything else |
| Runtime.CallReturnsSignalValue | LoxFunction.js:18-23 | when statement i of a function's body throws a return signal after the statements before it completed normally, the call (per Calls) returns that signal's value, whatever statements follow |
| Runtime.CallFallsOffEnd | LoxFunction.js:18-23 | when a function's body runs to its end normally, its completion is nil and the call (per Calls) returns nil |
| Runtime.AbruptPassesThrough | Interpreter.js:234-245 | a run that ends with a return signal, error or fault still ends that way, with the same steps, whatever statements follow: none of them runs |
| Runtime.RunsAppend | Interpreter.js:239-241 | a run that ends normally, followed by a run of more statements from the state it left, is one run of both |
| Runtime.RunsSplit | Interpreter.js:239-241 | a run of two statement lists is a run of the first, then, only if that ended normally, a run of the second from where it stopped |
| Runtime.RunsNormalIsNil | Interpreter.js:239-241 | a run that completes normally yields nil |
| Runtime.RunsInOrder | Interpreter.js:239-241 | the completions of a run's steps satisfy RanInOrder: all but the last are normal, a last one that is not is the run's completion, and if all are normal every statement ran |
| Runtime.ReturnLeavesBlock | Interpreter.js:247-250 | a return signal from a block's statements is the block's completion; the enclosing bindings are unchanged |
| Runtime.CallCompletes | Interpreter.js:444-450 | once the callee and the arguments completed normally, the call expression ends as the callee's call does |
| Runtime.ArgumentsAgree | Interpreter.js:418-421 | argument evaluation fails exactly when its last step did, with that step's completion, and otherwise its values are the steps' values |
| Runtime.ArgsAppend | Interpreter.js:419-421 | arguments that all completed normally, followed by more arguments from the state they left, are one evaluation of all |
| Runtime.ArgsAbrupt | Interpreter.js:419-421 | an argument evaluation that failed is unchanged by further arguments: none of them is evaluated |
| Runtime.LoopOutcome | Interpreter.js:332-337 | a loop's steps alternate condition and body, at most `budget` turns, all but the last normal; ending on a condition it yields that condition's failure, nil for a falsey one, or out of fuel after exactly `budget` turns for a truthy one; ending on a body it yields that body's completion, which is not normal |
| Runtime.LoopsAfterTurns | Interpreter.js:332-337 | whole turns followed by the rest of the loop from the state they left are the whole loop |
| Runtime.TurnsExtend | Interpreter.js:333-334 | one more turn, a truthy condition and a body that completes normally, extends the turns so far |
| Runtime.LoopStops | Interpreter.js:333 | after whole turns, a condition that fails, is falsey, or is truthy with no turn left ends the loop with the condition's completion, nil, or out of fuel |
| Runtime.LoopBodyStops | Interpreter.js:333-334 | after whole turns, a body that does not complete normally ends the loop with its completion |
| Runtime.BindingsNames | LoxFunction.js:12-16 | a call binds exactly the parameter names |
| Runtime.BindingOfParameter | LoxFunction.js:12-16 | the i-th parameter is bound to the i-th argument unless a later parameter has the same name |
| Runtime.SuperclassField | Interpreter.js:253-254 | reading `superclass` from a class node yields undefined |
| Runtime.ClassStatementAlwaysFaultsAsWritten | Interpreter.js:253-255 | as written, every class statement fails with a host error before it binds its name |
| Runtime.LoxFunction.constructor | LoxFunction.js:4-5 | stores the declaration |
| Runtime.LoxFunction.Arity | LoxFunction.js:26-28 | the number of declared parameters |
| Runtime.LoxFunction.ToString | LoxFunction.js:30-32 | "<fn ", the declared name, then ">" |
| Runtime.LoxFunction.BindParameters | LoxFunction.js:12-16 | a fresh environment in which each parameter in turn is defined to its argument |
| Runtime.LoxFunction.Call | LoxFunction.js:11-24 | with no fuel the body does not run; otherwise the body's completion is a Runs derivation of the body's statements from bindings of exactly the parameters to the arguments; the result is CatchReturn of that completion, never an error, and the caller's environment is restored |
| Runtime.Interpreter.constructor | Interpreter.js:32-37 | the globals hold only the native clock, and they are the current environment |
| Runtime.Interpreter.Resolve | Interpreter.js:216-218 | records the depth for the expression and changes nothing else |
| Runtime.Interpreter.Interpret | Interpreter.js:73-81 | the result and the new state are a Runs derivation of the statements from the state before |
| Runtime.Interpreter.LookUp | Interpreter.js:148-151 | a variable (or `this`) reads the current environment, or gives the "Undefined variable" error |
| Runtime.Interpreter.Evaluate | Interpreter.js:208-210 | the result and the new state are an Evals derivation of the expression; a literal gives its value and a variable or `this` reads the current bindings; never a return signal; the current environment is kept and the output only grows |
| Runtime.Interpreter.VisitAssign | Interpreter.js:339-352 | an Evals derivation: the value is evaluated first, then an existing binding takes it and it is the result; an unbound name is the "Undefined variable" error and binds nothing |
| Runtime.Interpreter.VisitBinary | Interpreter.js:354-413 | an Evals derivation: the left operand, then the right from the state the left left, then BinaryOperation of the two; the first failure stops it |
| Runtime.Interpreter.VisitLogical | Interpreter.js:87-97 | an Evals derivation: the right operand is evaluated only when ShortCircuits is false, and is then the result; otherwise the left is |
| Runtime.Interpreter.VisitUnary | Interpreter.js:134-146 | an Evals derivation: the operand, then nil unless the operand failed |
| Runtime.Interpreter.EvaluateArguments | Interpreter.js:418-421 | an EvalsArgs derivation of the arguments left to right; the values are the normal completions of its steps in order; the first failing step stops it and is the failure, never a return signal |
| Runtime.Interpreter.VisitCall | Interpreter.js:415-451 | an Evals derivation: the callee, then the arguments, then CallCheck's error or the callee's call per Calls; a class gives a fresh instance of itself, the clock its reading, and a function CatchReturn of its body's run |
| Runtime.Interpreter.CallValue | Interpreter.js:423-450 | per Calls: CallCheck's error when the callee is not callable or the argument count is not its arity; otherwise a function runs its body and gives CatchReturn of its completion, a class gives a fresh instance of itself, and the clock gives its reading |
| Runtime.Interpreter.VisitGet | Interpreter.js:453-461 | an Evals derivation: the object, then GetProperty, which never succeeds |
| Runtime.Interpreter.VisitSet | Interpreter.js:99-110 | an Evals derivation: the object, then SetGuard, and only for an instance the value; writing to an instance is a host error |
| Runtime.Interpreter.Execute | Interpreter.js:212-214 | the result and the new state are an Execs derivation of the statement; a normal completion is nil; the current environment is kept |
| Runtime.Interpreter.ExecuteBlock | Interpreter.js:234-245 | a Runs derivation of the statements from the given environment's bindings; a normal end is nil; the previous environment is current again on every exit |
| Runtime.Interpreter.VisitBlock | Interpreter.js:247-250 | an Execs derivation: the statements run in a new empty environment, and the enclosing bindings are unchanged |
| Runtime.Interpreter.VisitClass | Interpreter.js:252-287 | binds the class name to a new class of that name and changes no other binding |
| Runtime.Interpreter.VisitExpression | Interpreter.js:289-292 | an Execs derivation: the expression, then nil unless it failed |
| Runtime.Interpreter.VisitFn | Interpreter.js:294-298 | binds the declared name to a new function made from the declaration and changes no other binding |
| Runtime.Interpreter.VisitIf | Interpreter.js:300-307 | an Execs derivation: the condition, then the then-branch for a truthy one, otherwise the else-branch if there is one, otherwise nothing; the branch's completion is the statement's, and a failing condition is passed on |
| Runtime.Interpreter.VisitPrint | Interpreter.js:309-313 | an Execs derivation: the expression, then its value's Stringify text appended to the output as one line |
| Runtime.Interpreter.VisitReturn | Interpreter.js:315-320 | an Execs derivation: the value, if any, then the return signal carrying it, or nil without one |
| Runtime.Interpreter.VisitVar | Interpreter.js:322-330 | an Execs derivation: the initializer, if any, then the name defined to its value, or to nil without one |
| Runtime.Interpreter.VisitWhile | Interpreter.js:332-337 | an Execs derivation of the loop (per Loops, with `fuel` turns): a condition before each turn, the body for a truthy one; a normal end is nil |

The syntax-tree datatypes `Ast.Expr` and `Ast.Stmt` (Expr.js:5-157,
Stmt.js:5-128) have one constructor per node class, with the class's fields in
order. Each `accept` is a `match` that covers every variant. `Ast.FnStmt` is
the statement a runtime function is built from.

## Left out

- lox.js (the command line, file reading, the prompt and error reporting), tool/GenerateAst.js and Parser.js are not part of this model. Parser.js holds only a constructor, and there is no grammar to model.
- Console output: `print` appends the line to `output`. The error collaborator `Lox.error` appends to the scanner's `errors`. `repl` (Interpreter.js:220-232) is console plumbing and is not modelled.
- The clock (Interpreter.js:14-29) and LoxCallable.js are the opaque value `Native`, with arity 0. Its reading is the interpreter's constant `clockReading`.
- Floating point: numbers are exact reals. Number-to-text conversion is the parameter `showNumber`. A division or remainder by zero gives the parameter `byZero`. `parseFloat` gives an exact decimal value (`Lexer.DecimalValue`), without rounding to a double.
- Characters are `char`, not the UTF-16 code units the source reads with `charCodeAt`.
- Runtime.BinaryOperation: the source's type tests search a constructor's source text. These are tag checks here. The class texts of LoxFunction, LoxClass and LoxInstance contain "String" (in `toString`), so as written `+` passes its string test for a function, class or instance. It therefore concatenates the host texts of any two operands drawn from strings, functions, classes and instances (`f + g`, `instance + klass`, `f + "a"`, `"a" + instance`). It also concatenates any one of those with a number on either side (`f + 1`, `1 + klass`). The model reports "Operands must be number or string." for every pair that holds a function, class or instance.
- Tokens.TypeName: TokenType.js is not part of this model. Each kind's text is taken to be its constant's name (`LEFT_PAREN`, `BANG_EQUAL`, ...). This also assumes every kind value is truthy, so that `keywords[text] || null` (Scanner.js:230) keeps each keyword's kind. A falsy kind value such as 0 would turn that keyword into an IDENTIFIER.
- Runtime.GetProperty: the class text of LoxClass contains "LoxInstance", so as written a property read of a class passes the test and then faults. The model reports "Only instances have properties." for a class.
- Runtime.SetGuard: for the same reason, as written a write to a class passes the test, evaluates the value and then faults. The model reports "Only instances have fields." for a class.
- Runtime.Stringify: `JSON.stringify` (Interpreter.js:197-199) is a host call and is not modelled. No Lox value's constructor text contains "Object", so that branch is never taken. The clock prints as the host's default object text.
- Runtime.CatchReturn: JS `undefined` is taken to be nil. The catch in a call makes `undefined` from an error that is not a return signal. As written, `undefined` then prints "nil" but makes `isTruthy` and the operand checks fault. The model treats it as nil everywhere.
- Runtime.LoxFunction.Call: a call spends one unit of fuel, and `Runtime.Interpreter.VisitWhile` allows `fuel` turns per loop; running out gives `OutOfFuel`, which every enclosing call passes on unchanged (CatchReturn keeps it). In the source, recursion that does not end exhausts the host stack; the catch in `LoxFunction.call` (LoxFunction.js:18-22) then swallows the RangeError like any other exception, and that call returns `undefined`. The model does not capture this: it neither models the stack limit nor turns a deep recursion into nil. A loop that does not end has no counterpart beyond the fuel bound either.
- Object identity: the semantics (`Runtime.Evals`, `Runtime.Execs`) does not say which object a class call, a class declaration or a function declaration makes, only its class, name or declaration. That the object is new is stated by the methods (`fresh`) and not by the predicates. The predicates are ghost, so they state which derivations exist but do not compute a result.
- Runtime.Interpreter.Resolve: the source's `locals` is a `Map` keyed by node identity. Here it is keyed by the node's value, so two equal nodes share an entry.
- `lookUpVariable` (Interpreter.js:153-160) is never called. `visitSuperExpr` (Interpreter.js:112-128) belongs to no expression node. Neither is modelled.
- `getAt`, `assignAt` and `enclosing` have no counterpart: the environment holds one flat map (Environment.js:4-5).
- Runtime.Interpreter.VisitClass: the method table `visitClassStmt` builds is not modelled. `LoxClass`'s one-argument constructor drops it, and nothing reads it.
- `.bind` lines and the global token-kind injection are boilerplate and are not modelled.

## Findings

| source | as written | input that shows it | evidently intended | confidence | as-written member | corrected member |
|---|---|---|---|---|---|---|
| Scanner.js:230 | `keywords[text] \|\| null` looks the word up in a plain object literal, so words naming inherited members find those members | the source `toString` scans as a token whose type is the inherited function, not IDENTIFIER | only the 16 keywords get a keyword kind; every other word is IDENTIFIER | high, not executed | Lexer.ToStringIsNotAnIdentifierAsWritten | Lexer.IdentifierKind |
| Interpreter.js:253-255 | `stmt.superclass !== null` tests a field that class nodes lack, so `undefined` passes and is evaluated | any class declaration, e.g. `class A {}`, fails with a host error before `A` is bound | a class without a superclass binds its name to a new class | high, not executed | Runtime.ClassStatementAlwaysFaultsAsWritten | Runtime.Interpreter.VisitClass |
