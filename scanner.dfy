/**
 * The lexer (Scanner.js).
 *
 * `Step` is the reference definition of one `scanToken` call: what it emits,
 * what it reports and where the cursor and the line counter end up. The
 * class `Scanner` is the source's imperative scanner, with its cursor fields
 * and while loops, and each of its methods is proved to have exactly the
 * effect `Step` (or `ScanFrom`, for the whole loop) prescribes.
 *
 * Characters are modelled as `char`; the source works on UTF-16 code units
 * through `charCodeAt`.
 */
module Lexer {
  import opened Wrappers
  import opened Tokens

  /** The decimal digits. */
  const DigitChars := "0123456789"

  /** The ASCII letters. */
  const LowerChars := "abcdefghijklmnopqrstuvwxyz"
  const UpperChars := "ABCDEFGHIJKLMNOPQRSTUVWXYZ"

  /** A character code between those of `0` and `9`. */
  predicate IsDigit(c: char)
  {
    '0' <= c <= '9'
  }

  /** A character code between those of `a` and `z` or of `A` and `Z`, or `_`. */
  predicate IsAlpha(c: char)
  {
    ('a' <= c <= 'z') || ('A' <= c <= 'Z') || c == '_'
  }

  /** A character that can continue a word. */
  predicate IsAlphaNumeric(c: char)
  {
    IsAlpha(c) || IsDigit(c)
  }

  /**
   * The three character classes as sets of characters: the code-range
   * tests pick exactly the ten digits, the 52 ASCII letters and `_`, and
   * their union.
   */
  lemma CharClasses(c: char)
    ensures IsDigit(c) <==> c in DigitChars
    ensures IsAlpha(c) <==> c in LowerChars || c in UpperChars || c == '_'
    ensures IsAlphaNumeric(c) <==> c in LowerChars || c in UpperChars || c == '_' || c in DigitChars
  {
    LowerRange(c);
    UpperRange(c);
  }

  /** The code range from `a` to `z` holds exactly the lower-case letters. */
  lemma LowerRange(c: char)
    ensures 'a' <= c <= 'z' <==> c in LowerChars
  {
  }

  /** The code range from `A` to `Z` holds exactly the upper-case letters. */
  lemma UpperRange(c: char)
    ensures 'A' <= c <= 'Z' <==> c in UpperChars
  {
  }

  /** No character both starts a number and starts a word, so the default case's order does not matter. */
  lemma DigitIsNotAlpha(c: char)
    ensures !(IsDigit(c) && IsAlpha(c))
  {
  }

  /** The `keywords` table (Scanner.js:44-61). */
  const Keywords: map<string, TokenType> := map[
    "and" := And, "class" := Class, "else" := Else, "false" := False,
    "for" := For, "fun" := Fun, "if" := If, "nil" := Nil,
    "or" := Or, "print" := Print, "return" := Return, "super" := Super,
    "this" := This, "true" := True, "var" := Var, "while" := While]

  /** The kind of a scanned word: its keyword kind, or IDENTIFIER. */
  function IdentifierKind(text: string): (k: TokenType)
    ensures text in Keywords ==> k == Keywords[text]
    ensures k == Identifier <==> text !in Keywords
  {
    if text in Keywords then Keywords[text] else Identifier
  }

  /**
   * What the source's `keywords[text] || null` actually finds. The table is
   * a plain object literal, so a word naming a member every object inherits
   * (`toString`, `constructor`, ...) finds that member, which is truthy, and
   * the token's type becomes that member instead of IDENTIFIER.
   */
  datatype LookedUp = Kind(kind: TokenType) | InheritedMember(member: string)

  /** The members a plain object inherits that a Lox word can name (none starts with `o`). */
  const InheritedNames: set<string> := {
    "constructor", "toString", "toLocaleString", "valueOf", "hasOwnProperty",
    "isPrototypeOf", "propertyIsEnumerable", "__proto__", "__defineGetter__",
    "__defineSetter__", "__lookupGetter__", "__lookupSetter__"}

  /** The word lookup as written. */
  function IdentifierKindAsWritten(text: string): (r: LookedUp)
    ensures r.InheritedMember? <==> text in InheritedNames
  {
    if text in Keywords then Kind(Keywords[text])
    else if text in InheritedNames then InheritedMember(text)
    else Kind(IdentifierKind(text))
  }

  /** The lookup as written agrees with the intended one exactly off the inherited names. */
  lemma AsWrittenAgreesOffInheritedNames(text: string)
    ensures IdentifierKindAsWritten(text) == Kind(IdentifierKind(text)) <==> text !in InheritedNames
  {
  }

  /** The identifier `toString` is not scanned as IDENTIFIER by the lookup as written. */
  lemma ToStringIsNotAnIdentifierAsWritten()
    ensures IdentifierKind("toString") == Identifier
    ensures IdentifierKindAsWritten("toString") == InheritedMember("toString")
  {
    assert "toString" !in Keywords;
  }

  /** A report made to the error collaborator: the current line and the message. */
  datatype ScanError = ScanError(line: int, message: string)

  /** `literal || null` in addToken: a falsy literal (0, "", false) becomes null. */
  function NullIfFalsy(l: LiteralValue): (r: LiteralValue)
    ensures r == NilLit <==> l == NilLit || l == NumLit(0.0) || l == StrLit("") || l == BoolLit(false)
    ensures r != NilLit ==> r == l
  {
    match l
    case NilLit => NilLit
    case BoolLit(b) => if b then l else NilLit
    case NumLit(n) => if n == 0.0 then NilLit else l
    case StrLit(s) => if s == "" then NilLit else l
  }

  /** The first index at or after `i` holding `c`, or the end of `src`. */
  function Find(src: string, i: nat, c: char): (j: nat)
    requires i <= |src|
    ensures i <= j <= |src|
    ensures forall k :: i <= k < j ==> src[k] != c
    ensures j < |src| ==> src[j] == c
    decreases |src| - i
  {
    if i == |src| || src[i] == c then i else Find(src, i + 1, c)
  }

  datatype CharClass = Digits | Word

  predicate InClass(c: char, cls: CharClass)
  {
    match cls
    case Digits => IsDigit(c)
    case Word => IsAlphaNumeric(c)
  }

  /** The end of the maximal run of `cls` characters that starts at `i`. */
  function SpanEnd(src: string, i: nat, cls: CharClass): (j: nat)
    requires i <= |src|
    ensures i <= j <= |src|
    ensures forall k :: i <= k < j ==> InClass(src[k], cls)
    ensures j < |src| ==> !InClass(src[j], cls)
    decreases |src| - i
  {
    if i < |src| && InClass(src[i], cls) then SpanEnd(src, i + 1, cls) else i
  }

  /**
   * The end of a number literal whose first digit ends at `i`: the digit run,
   * then `.` and a second digit run only when a digit follows the `.`.
   */
  function NumberEnd(src: string, i: nat): (j: nat)
    requires i <= |src|
    ensures i <= j <= |src|
  {
    var k := SpanEnd(src, i, Digits);
    if k + 1 < |src| && src[k] == '.' && IsDigit(src[k + 1]) then SpanEnd(src, k + 1, Digits) else k
  }

  /** How many times `c` occurs in `s`. */
  function CountChar(s: string, c: char): (n: nat)
    ensures n <= |s|
  {
    if |s| == 0 then 0 else CountChar(s[..|s| - 1], c) + (if s[|s| - 1] == c then 1 else 0)
  }

  /** How many times `c` occurs in `src[i..j]`, counted without slicing. */
  function CountBetween(src: string, i: nat, j: nat, c: char): (n: nat)
    requires i <= j <= |src|
    ensures n <= j - i
    decreases j - i
  {
    if j == i then 0 else CountBetween(src, i, j - 1, c) + (if src[j - 1] == c then 1 else 0)
  }

  /** The range count is the count of the slice. */
  lemma {:induction false} CountBetweenSlice(src: string, i: nat, j: nat, c: char)
    requires i <= j <= |src|
    ensures CountBetween(src, i, j, c) == CountChar(src[i..j], c)
    decreases j - i
  {
    if j > i {
      CountBetweenSlice(src, i, j - 1, c);
      assert src[i..j][..j - i - 1] == src[i..j - 1];
    }
  }

  /** Counting distributes over concatenation. */
  lemma {:induction false} CountCharConcat(a: string, b: string, c: char)
    ensures CountChar(a + b, c) == CountChar(a, c) + CountChar(b, c)
    decreases |b|
  {
    if |b| == 0 {
      assert a + b == a;
    } else {
      assert (a + b)[..|a + b| - 1] == a + b[..|b| - 1];
      CountCharConcat(a, b[..|b| - 1], c);
    }
  }

  /** A character that does not occur is counted zero times. */
  lemma {:induction false} CountCharAbsent(s: string, c: char)
    requires c !in s
    ensures CountChar(s, c) == 0
    decreases |s|
  {
    if |s| > 0 {
      assert s[..|s| - 1] <= s;
      CountCharAbsent(s[..|s| - 1], c);
    }
  }

  /** The value of a run of decimal digits. */
  function DigitsValue(s: string): nat
  {
    if |s| == 0 then 0
    else 10 * DigitsValue(s[..|s| - 1]) + DigitValue(s[|s| - 1])
  }

  /**
   * What `parseFloat` yields for a scanned number literal, as an exact
   * decimal (the rounding to a double is not modelled).
   */
  function DecimalValue(text: string): real
  {
    WholeThenFraction(text, 0)
  }

  /** Reads `text` left to right, `whole` being the value of the digits read before it. */
  function WholeThenFraction(text: string, whole: nat): real
  {
    if |text| == 0 then whole as real
    else if text[0] == '.' then whole as real + FractionValue(text[1..])
    else WholeThenFraction(text[1..], 10 * whole + DigitValue(text[0]))
  }

  function DigitValue(c: char): nat
  {
    if IsDigit(c) then c as int - '0' as int else 0
  }

  /** The value of the digits after a decimal point: `d1 d2 ...` is (d1 + 0.d2...) / 10. */
  function FractionValue(s: string): real
  {
    if |s| == 0 then 0.0
    else (DigitValue(s[0]) as real + FractionValue(s[1..])) / 10.0
  }

  /** The effect of one `scanToken` call. */
  datatype Lexed = Lexed(token: Option<Token>, error: Option<ScanError>, next: nat, line: int)

  function Emit(src: string, start: nat, next: nat, kind: TokenType, literal: LiteralValue, line: int): Lexed
    requires start < next <= |src|
  {
    Lexed(Some(Token(kind, src[start..next], NullIfFalsy(literal), line)), None, next, line)
  }

  /** The kind of a token that is one character long: the eleven punctuators and the bare operators. */
  function SingleKind(c: char): TokenType
  {
    match c
    case '(' => LeftParen
    case ')' => RightParen
    case '{' => LeftBrace
    case '}' => RightBrace
    case ',' => Comma
    case '.' => Dot
    case '-' => Minus
    case '+' => Plus
    case ';' => Semicolon
    case '*' => Star
    case '%' => Modulo
    case '!' => Bang
    case '=' => Equal
    case '<' => Less
    case _ => Greater
  }

  /** The kind of `!=`, `==`, `<=` and `>=`, from their first character. */
  function WithEqualKind(c: char): TokenType
  {
    match c
    case '!' => BangEqual
    case '=' => EqualEqual
    case '<' => LessEqual
    case _ => GreaterEqual
  }

  /**
   * One `scanToken` call whose `start` is `p`, with the line counter at `line`.
   *
   * As in the source: a newline has no case of its own (the source's `'\n'`
   * case compares a character code with a string and never fires), so a bare
   * newline is an unexpected character and only newlines inside strings
   * advance the line counter; the `o` case emits OR for `or` and otherwise
   * drops the `o`.
   */
  function Step(src: string, p: nat, line: int): (r: Lexed)
    requires p < |src|
    ensures p < r.next <= |src|
    ensures r.line >= line
    ensures r.token.Some? ==> r.error.None?
    ensures r.token.Some? ==> r.token.value.lexeme == src[p..r.next]
    ensures r.token.Some? ==> r.token.value.tokenType != Eof && r.token.value.line == r.line
  {
    match src[p]
    case '(' | ')' | '{' | '}' | ',' | '.' | '-' | '+' | ';' | '*' | '%' =>
      Emit(src, p, p + 1, SingleKind(src[p]), NilLit, line)
    case '!' | '=' | '<' | '>' =>
      if p + 1 < |src| && src[p + 1] == '=' then Emit(src, p, p + 2, WithEqualKind(src[p]), NilLit, line)
      else Emit(src, p, p + 1, SingleKind(src[p]), NilLit, line)
    case '/' =>
      if p + 1 < |src| && src[p + 1] == '/' then Lexed(None, None, Find(src, p + 2, '\n'), line)
      else Emit(src, p, p + 1, Slash, NilLit, line)
    case ' ' | '\r' | '\t' => Lexed(None, None, p + 1, line)
    case '"' => LexString(src, p, line)
    case 'o' =>
      if p + 1 < |src| && src[p + 1] == 'r' then Emit(src, p, p + 2, Or, NilLit, line)
      else Lexed(None, None, p + 1, line)
    case _ => StepOther(src, p, line)
  }

  /** The default case of `scanToken`: a number, a word, or an unexpected character. */
  function StepOther(src: string, p: nat, line: int): (r: Lexed)
    requires p < |src|
    ensures p < r.next <= |src| && r.line == line
  {
    if IsDigit(src[p]) then LexNumber(src, p, line)
    else if IsAlpha(src[p]) then LexWord(src, p, line)
    else Lexed(None, Some(ScanError(line, "Unexpected character.")), p + 1, line)
  }

  /**
   * A string opened by the quote at `p`: up to the next quote, with the
   * newlines inside it counted; unterminated when the source ends first.
   */
  function LexString(src: string, p: nat, line: int): (r: Lexed)
    requires p < |src|
    ensures p < r.next <= |src| && r.line >= line
  {
    var close := Find(src, p + 1, '"');
    var line' := line + CountBetween(src, p + 1, close, '\n');
    if close == |src| then Lexed(None, Some(ScanError(line', "Unterminated string.")), close, line')
    else Emit(src, p, close + 1, String, StrLit(src[p + 1..close]), line')
  }

  /** A number whose first digit is at `p`, with its value. */
  function LexNumber(src: string, p: nat, line: int): (r: Lexed)
    requires p < |src|
    ensures p < r.next <= |src| && r.line == line
  {
    var e := NumberEnd(src, p + 1);
    Emit(src, p, e, Number, NumLit(DecimalValue(src[p..e])), line)
  }

  /** A word whose first letter is at `p`: a keyword or an identifier. */
  function LexWord(src: string, p: nat, line: int): (r: Lexed)
    requires p < |src|
    ensures p < r.next <= |src| && r.line == line
  {
    var e := SpanEnd(src, p + 1, Word);
    Emit(src, p, e, IdentifierKind(src[p..e]), NilLit, line)
  }

  /** One turn of the scan loop. */
  lemma ScanFromStep(src: string, pos: nat, line: int)
    requires pos < |src|
    ensures var s := Step(src, pos, line);
      var rest := ScanFrom(src, s.next, s.line);
      ScanFrom(src, pos, line) == Scanned(OptionToSeq(s.token) + rest.tokens, OptionToSeq(s.error) + rest.errors, rest.line)
  {
  }

  /** The tokens and reports of the scan loop from `pos` to the end, and the final line. */
  datatype Scanned = Scanned(tokens: seq<Token>, errors: seq<ScanError>, line: int)

  function OptionToSeq<T>(o: Option<T>): (s: seq<T>)
    ensures |s| <= 1 && (o.Some? ==> s == [o.value])
  {
    if o.Some? then [o.value] else []
  }

  function ScanFrom(src: string, pos: nat, line: int): Scanned
    requires pos <= |src|
    decreases |src| - pos
  {
    if pos == |src| then Scanned([], [], line)
    else
      var s := Step(src, pos, line);
      var rest := ScanFrom(src, s.next, s.line);
      Scanned(OptionToSeq(s.token) + rest.tokens, OptionToSeq(s.error) + rest.errors, rest.line)
  }

  /** The end-of-input token scanTokens appends after the loop. */
  function EofToken(line: int): Token
  {
    Token(Eof, "", NilLit, line)
  }

  /** The whole token list of a fresh scanner: the loop's tokens, then exactly one EOF. */
  function Scan(src: string): (tokens: seq<Token>)
    ensures |tokens| >= 1 && tokens[|tokens| - 1] == EofToken(ScanFrom(src, 0, 0).line)
    ensures forall i :: 0 <= i < |tokens| - 1 ==> tokens[i].tokenType != Eof
  {
    NoEofBeforeEnd(src, 0, 0);
    ScanFrom(src, 0, 0).tokens + [EofToken(ScanFrom(src, 0, 0).line)]
  }

  /** The scan loop never emits an EOF token. */
  lemma {:induction false} NoEofBeforeEnd(src: string, pos: nat, line: int)
    requires pos <= |src|
    ensures forall t :: t in ScanFrom(src, pos, line).tokens ==> t.tokenType != Eof
    decreases |src| - pos
  {
    if pos < |src| {
      var s := Step(src, pos, line);
      NoEofBeforeEnd(src, s.next, s.line);
    }
  }

  /** Every token of the scan loop is a slice of the source at or after `pos`. */
  lemma {:induction false} LexemesAreSlices(src: string, pos: nat, line: int, t: Token)
    requires pos <= |src|
    requires t in ScanFrom(src, pos, line).tokens
    ensures exists i, j :: pos <= i <= j <= |src| && t.lexeme == src[i..j]
    decreases |src| - pos
  {
    var s := Step(src, pos, line);
    if s.token.Some? && t == s.token.value {
      assert t.lexeme == src[pos..s.next];
    } else {
      LexemesAreSlices(src, s.next, s.line, t);
    }
  }

  /** The line counter only moves forward, by the newlines inside strings. */
  lemma {:induction false} LineNeverDecreases(src: string, pos: nat, line: int)
    requires pos <= |src|
    ensures ScanFrom(src, pos, line).line >= line
    decreases |src| - pos
  {
    if pos < |src| {
      var s := Step(src, pos, line);
      LineNeverDecreases(src, s.next, s.line);
    }
  }

  /** What one turn of the scan loop leaves still to be scanned. */
  lemma LoopTurn(src: string, pos: nat, line: int, tokens: seq<Token>, errors: seq<ScanError>)
    requires pos < |src|
    ensures var s := Step(src, pos, line);
      var rest := ScanFrom(src, s.next, s.line);
      && tokens + ScanFrom(src, pos, line).tokens == (tokens + OptionToSeq(s.token)) + rest.tokens
      && errors + ScanFrom(src, pos, line).errors == (errors + OptionToSeq(s.error)) + rest.errors
      && ScanFrom(src, pos, line).line == rest.line
  {
    var s := Step(src, pos, line);
    var rest := ScanFrom(src, s.next, s.line);
    var whole := ScanFrom(src, pos, line);
    ScanFromStep(src, pos, line);
    AppendAssociates(tokens, OptionToSeq(s.token), rest.tokens);
    AppendAssociates(errors, OptionToSeq(s.error), rest.errors);
  }

  lemma AppendAssociates<T>(a: seq<T>, b: seq<T>, c: seq<T>)
    ensures a + (b + c) == (a + b) + c
  {
  }

  /** `!`, `=`, `<` and `>` give the two-character kind exactly when `=` follows. */
  lemma OperatorLookahead(src: string, p: nat, line: int)
    requires p < |src| && src[p] in "!=<>"
    ensures var r := Step(src, p, line);
      && r.token.Some? && r.error.None?
      && r.next == (if p + 1 < |src| && src[p + 1] == '=' then p + 2 else p + 1)
      && r.token.value.tokenType == (if r.next == p + 2 then WithEqualKind(src[p]) else SingleKind(src[p]))
  {
  }

  /** `//` skips up to, not including, the next newline or the end, and emits nothing; a lone `/` is SLASH. */
  lemma CommentOrSlash(src: string, p: nat, line: int)
    requires p < |src| && src[p] == '/'
    ensures var r := Step(src, p, line);
      if p + 1 < |src| && src[p + 1] == '/' then
        && r.token.None? && r.error.None? && r.line == line
        && '\n' !in src[p..r.next]
        && (r.next < |src| ==> src[r.next] == '\n')
      else
        r.token == Some(Token(Slash, "/", NilLit, line)) && r.next == p + 1
  {
    var r := Step(src, p, line);
    if p + 1 < |src| && src[p + 1] == '/' {
      var skipped := src[p..r.next];
      forall k | 0 <= k < |skipped| ensures skipped[k] != '\n' {
        assert skipped[k] == src[p + k];
      }
    } else {
      assert src[p..p + 1] == "/";
    }
  }

  /**
   * A closed string is one STRING token whose literal is the text strictly
   * between the quotes (null when that text is empty), with the newlines
   * inside it counted; the text holds no quote.
   */
  lemma StringToken(src: string, p: nat, line: int)
    requires p < |src| && src[p] == '"' && Find(src, p + 1, '"') < |src|
    ensures var r := LexString(src, p, line);
      var close := Find(src, p + 1, '"');
      && '"' !in src[p + 1..close]
      && r.error.None? && r.next == close + 1 && r.line == line + CountBetween(src, p + 1, close, '\n')
      && r.token == Some(Token(String, src[p..close + 1],
                               if close == p + 1 then NilLit else StrLit(src[p + 1..close]), r.line))
  {
    var close := Find(src, p + 1, '"');
    AbsentFromSlice(src, p + 1, close, '"');
    var text := src[p + 1..close];
    assert |text| == 0 <==> close == p + 1;
  }

  /** A string that the source ends before closing is the report "Unterminated string." and no token. */
  lemma UnterminatedString(src: string, p: nat, line: int)
    requires p < |src| && src[p] == '"' && Find(src, p + 1, '"') == |src|
    ensures var r := LexString(src, p, line);
      && r.token.None? && r.next == |src|
      && r.line == line + CountBetween(src, p + 1, |src|, '\n')
      && r.error == Some(ScanError(r.line, "Unterminated string."))
  {
  }

  /** A character that occurs at no index of a range does not occur in that slice. */
  lemma AbsentFromSlice(src: string, i: nat, j: nat, c: char)
    requires i <= j <= |src| && forall k :: i <= k < j ==> src[k] != c
    ensures c !in src[i..j]
  {
    forall k | 0 <= k < j - i ensures src[i..j][k] != c {
      assert src[i..j][k] == src[i + k];
    }
  }

  /**
   * A number is the maximal digit run, extended by `.` and a second maximal
   * digit run only when a digit follows the `.`.
   */
  lemma NumberToken(src: string, p: nat, line: int)
    requires p < |src| && IsDigit(src[p])
    ensures var r := Step(src, p, line);
      var k := SpanEnd(src, p, Digits);
      && r.token.Some? && r.token.value.tokenType == Number
      && (forall i :: p <= i < k ==> IsDigit(src[i]))
      && (if k + 1 < |src| && src[k] == '.' && IsDigit(src[k + 1]) then
            r.next == SpanEnd(src, k + 1, Digits) && r.next > k + 1
          else r.next == k)
  {
    SpanFrom(src, p, Digits);
  }

  /** Starting one character later inside a run does not change where the run ends. */
  lemma {:induction false} SpanFrom(src: string, p: nat, cls: CharClass)
    requires p < |src| && InClass(src[p], cls)
    ensures SpanEnd(src, p, cls) == SpanEnd(src, p + 1, cls)
  {
  }

  /**
   * A word is the maximal run of letters, digits and `_` that starts with a
   * letter or `_` other than `o`; it is a keyword exactly when its text is in
   * the table, and IDENTIFIER otherwise.
   */
  lemma WordToken(src: string, p: nat, line: int)
    requires p < |src| && IsAlpha(src[p]) && src[p] != 'o'
    ensures var r := Step(src, p, line);
      && r.next == SpanEnd(src, p, Word)
      && r.token == Some(Token(IdentifierKind(src[p..r.next]), src[p..r.next], NilLit, line))
      && (r.token.value.tokenType == Identifier <==> src[p..r.next] !in Keywords)
  {
    SpanFrom(src, p, Word);
  }

  /** An `o` that does not start `or` is dropped without a token or a report. */
  lemma DroppedO(src: string, p: nat, line: int)
    requires p < |src| && src[p] == 'o' && !(p + 1 < |src| && src[p + 1] == 'r')
    ensures Step(src, p, line) == Lexed(None, None, p + 1, line)
  {
  }

  /** A bare newline is reported as an unexpected character and does not advance the line. */
  lemma BareNewline(src: string, p: nat, line: int)
    requires p < |src| && src[p] == '\n'
    ensures Step(src, p, line) == Lexed(None, Some(ScanError(line, "Unexpected character.")), p + 1, line)
  {
  }

  class Scanner {
    const source: string
    var tokens: seq<Token>
    /** The reports made to the error collaborator (Lox.error), in order. */
    var errors: seq<ScanError>
    var start: nat
    var current: nat
    var line: int

    ghost predicate Valid()
      reads this
    {
      start <= current <= |source|
    }

    /** A new scanner; as written the line counter starts at 0. */
    constructor(source: string)
      ensures this.source == source && Valid()
      ensures tokens == [] && errors == [] && start == 0 && current == 0 && line == 0
    {
      this.source := source;
      tokens := [];
      errors := [];
      start := 0;
      current := 0;
      line := 0;
    }

    /**
     * The scan loop, then one EOF token with an empty lexeme and a null
     * literal; returns the token list.
     */
    method ScanTokens() returns (result: seq<Token>)
      requires Valid()
      modifies this
      ensures Valid() && current == |source|
      ensures var s := ScanFrom(source, old(current), old(line));
        && tokens == old(tokens) + s.tokens + [EofToken(s.line)]
        && errors == old(errors) + s.errors
        && line == s.line
      ensures result == tokens
    {
      while !IsAtEnd()
        invariant Valid()
        invariant tokens + ScanFrom(source, current, line).tokens
               == old(tokens) + ScanFrom(source, old(current), old(line)).tokens
        invariant errors + ScanFrom(source, current, line).errors
               == old(errors) + ScanFrom(source, old(current), old(line)).errors
        invariant ScanFrom(source, current, line).line == ScanFrom(source, old(current), old(line)).line
        decreases |source| - current
      {
        LoopTurn(source, current, line, tokens, errors);
        start := current;
        ScanToken();
      }
      tokens := tokens + [EofToken(line)];
      result := tokens;
    }

    predicate IsAtEnd()
      reads this
    {
      current >= |source|
    }

    /** The fields hold what one `Step` from `p` makes of the given line, tokens and reports. */
    ghost predicate Stepped(p: nat, line0: int, tokens0: seq<Token>, errors0: seq<ScanError>)
      requires p < |source|
      reads this
    {
      var s := Step(source, p, line0);
      && current == s.next && line == s.line
      && tokens == tokens0 + OptionToSeq(s.token)
      && errors == errors0 + OptionToSeq(s.error)
    }

    /** One token (or none, or one report), exactly as `Step` prescribes. */
    method ScanToken()
      requires Valid() && start == current && current < |source|
      modifies this
      ensures Valid() && start == old(start)
      ensures Stepped(old(current), old(line), old(tokens), old(errors))
    {
      var c := Advance();
      match c
      case '(' | ')' | '{' | '}' | ',' | '.' | '-' | '+' | ';' | '*' | '%' =>
        AddToken(SingleKind(c), NilLit);
      case '!' | '=' | '<' | '>' => ScanOperator(c);
      case '/' => ScanSlash();
      case ' ' | '\r' | '\t' =>
      case '"' => StringLiteral();
      case 'o' => ScanOr();
      case _ => ScanOther(c);
    }

    /** The `!`, `=`, `<` and `>` cases: the two-character kind when `=` follows. */
    method ScanOperator(c: char)
      requires Valid() && current == start + 1 && current <= |source| && source[start] == c && c in "!=<>"
      modifies this`current, this`tokens
      ensures Valid() && Stepped(old(start), old(line), old(tokens), old(errors))
    {
      var two := Match('=');
      AddToken(if two then WithEqualKind(c) else SingleKind(c), NilLit);
    }

    /** The `/` case: a comment runs to the end of the line; otherwise SLASH. */
    method ScanSlash()
      requires Valid() && current == start + 1 && current <= |source| && source[start] == '/'
      modifies this`current, this`tokens
      ensures Valid() && Stepped(old(start), old(line), old(tokens), old(errors))
    {
      var comment := Match('/');
      if comment {
        SkipComment();
      } else {
        AddToken(Slash, NilLit);
      }
    }

    /** The `o` case: OR when `r` follows, and otherwise nothing, so the `o` is dropped. */
    method ScanOr()
      requires Valid() && current == start + 1 && current <= |source| && source[start] == 'o'
      modifies this`current, this`tokens
      ensures Valid() && Stepped(old(start), old(line), old(tokens), old(errors))
    {
      var or := Match('r');
      if or {
        AddToken(Or, NilLit);
      }
    }

    /** The default case: a number, a word, or the report "Unexpected character.". */
    method ScanOther(c: char)
      requires Valid() && current == start + 1 && current <= |source| && source[start] == c
      requires c !in "(){},.-+;*%!=<>/ \r\t\"o"
      modifies this`current, this`tokens, this`errors
      ensures Valid() && Stepped(old(start), old(line), old(tokens), old(errors))
    {
      if IsDigit(c) {
        NumberLiteral();
      } else if IsAlpha(c) {
        IdentifierLiteral();
      } else {
        errors := errors + [ScanError(line, "Unexpected character.")];
      }
    }

    /** The body of the `//` case: consume up to, not including, the next newline. */
    method SkipComment()
      requires Valid() && current <= |source|
      modifies this`current
      ensures Valid() && current == Find(source, old(current), '\n')
    {
      while Peek() != '\n' && !IsAtEnd()
        invariant Valid() && old(current) <= current <= Find(source, old(current), '\n')
        decreases |source| - current
      {
        var _ := Advance();
      }
    }

    method Advance() returns (c: char)
      requires Valid() && current < |source|
      modifies this`current
      ensures Valid() && c == source[old(current)] && current == old(current) + 1
    {
      c := source[current];
      current := current + 1;
    }

    /** Consumes `expected` only when it is the next character; false at the end. */
    method Match(expected: char) returns (matched: bool)
      requires Valid()
      modifies this`current
      ensures Valid()
      ensures matched <==> old(current) < |source| && source[old(current)] == expected
      ensures current == if matched then old(current) + 1 else old(current)
    {
      if IsAtEnd() {
        return false;
      }
      if source[current] != expected {
        return false;
      }
      current := current + 1;
      return true;
    }

    /** The next character, or NUL at the end. */
    function Peek(): (c: char)
      reads this
      ensures current < |source| ==> c == source[current]
      ensures current >= |source| ==> c == '\0'
    {
      if current >= |source| then '\0' else source[current]
    }

    /** The character after the next one, or NUL when there is none. */
    function PeekNext(): (c: char)
      reads this
      ensures current + 1 < |source| ==> c == source[current + 1]
      ensures current + 1 >= |source| ==> c == '\0'
    {
      if current + 1 >= |source| then '\0' else source[current + 1]
    }

    /** Appends a token whose lexeme is the consumed slice source[start..current). */
    method AddToken(kind: TokenType, literal: LiteralValue)
      requires Valid()
      modifies this`tokens
      ensures tokens == old(tokens) + [Token(kind, source[start..current], NullIfFalsy(literal), line)]
    {
      tokens := tokens + [Token(kind, source[start..current], NullIfFalsy(literal), line)];
    }

    /** The `string` method: consume up to the closing quote, counting newlines. */
    method StringLiteral()
      requires Valid() && current == start + 1 && source[start] == '"'
      modifies this`current, this`line, this`tokens, this`errors
      ensures Valid()
      ensures var s := LexString(source, start, old(line));
        && current == s.next && line == s.line
        && tokens == old(tokens) + OptionToSeq(s.token)
        && errors == old(errors) + OptionToSeq(s.error)
    {
      ghost var close := Find(source, start + 1, '"');
      while Peek() != '"' && !IsAtEnd()
        invariant Valid() && start + 1 <= current <= close
        invariant line == old(line) + CountBetween(source, start + 1, current, '\n')
        invariant tokens == old(tokens) && errors == old(errors)
        decreases |source| - current
      {
        if Peek() == '\n' {
          line := line + 1;
        }
        var _ := Advance();
      }
      assert current == close;
      if IsAtEnd() {
        errors := errors + [ScanError(line, "Unterminated string.")];
        return;
      }
      var _ := Advance();
      var value := source[start + 1..current - 1];
      assert value == source[start + 1..close];
      AddToken(String, StrLit(value));
    }

    /** The `number` method: a digit run, then `.` and digits only when a digit follows the `.`. */
    method NumberLiteral()
      requires Valid() && current == start + 1 && IsDigit(source[start])
      modifies this`current, this`tokens
      ensures Valid()
      ensures var s := LexNumber(source, start, line);
        && current == s.next && tokens == old(tokens) + OptionToSeq(s.token)
    {
      SkipDigits();
      if Peek() == '.' && IsDigit(PeekNext()) {
        var _ := Advance();
        SkipDigits();
      }
      AddToken(Number, NumLit(DecimalValue(source[start..current])));
    }

    /** Consumes the maximal run of digits at the cursor. */
    method SkipDigits()
      requires Valid()
      modifies this`current
      ensures Valid() && current == SpanEnd(source, old(current), Digits)
    {
      while IsDigit(Peek())
        invariant Valid() && old(current) <= current <= SpanEnd(source, old(current), Digits)
        decreases |source| - current
      {
        var _ := Advance();
      }
    }

    /** The `identifier` method: a maximal word, then keyword lookup. */
    method IdentifierLiteral()
      requires Valid() && current == start + 1 && IsAlpha(source[start]) && source[start] != 'o'
      modifies this`current, this`tokens
      ensures Valid()
      ensures var s := LexWord(source, start, line);
        && current == s.next && tokens == old(tokens) + OptionToSeq(s.token)
    {
      ghost var e := SpanEnd(source, start + 1, Word);
      while IsAlphaNumeric(Peek())
        invariant Valid() && start + 1 <= current <= e && tokens == old(tokens)
        decreases |source| - current
      {
        var _ := Advance();
      }
      var text := source[start..current];
      AddToken(IdentifierKind(text), NilLit);
    }
  }
}
