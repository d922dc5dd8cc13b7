/**
 * Tokens (Token.js and the token kinds it is built from).
 *
 * TokenType.js is not part of this model: the kinds below are the names the
 * scanner imports (Scanner.js:1-40) plus the two brace kinds it uses at
 * Scanner.js:108-109 without importing them.
 */
module Tokens {

  datatype TokenType =
    | Eof | LeftParen | RightParen | LeftBrace | RightBrace | Comma | Dot
    | Minus | Plus | Semicolon | Star | BangEqual | Bang | EqualEqual | Equal
    | LessEqual | Less | GreaterEqual | Greater | Slash | String | Number | Or
    | Identifier | And | Class | Else | False | For | Fun | If | Nil | Print
    | Return | Super | This | True | Var | While | Modulo

  /** The literal a token or a Literal node carries; `NilLit` is the source's `null`. */
  datatype LiteralValue = NilLit | BoolLit(b: bool) | NumLit(n: real) | StrLit(s: string)

  /**
   * One token. The source's field `type` is spelled `tokenType`, since `type`
   * is a reserved word here.
   */
  datatype Token = Token(tokenType: TokenType, lexeme: string, literal: LiteralValue, line: int)

  /** The text of a token kind, taken to be its constant's name. */
  function TypeName(t: TokenType): string
  {
    match t
    case Eof => "EOF"
    case LeftParen => "LEFT_PAREN"
    case RightParen => "RIGHT_PAREN"
    case LeftBrace => "LEFT_BRACE"
    case RightBrace => "RIGHT_BRACE"
    case Comma => "COMMA"
    case Dot => "DOT"
    case Minus => "MINUS"
    case Plus => "PLUS"
    case Semicolon => "SEMICOLON"
    case Star => "STAR"
    case BangEqual => "BANG_EQUAL"
    case Bang => "BANG"
    case EqualEqual => "EQUAL_EQUAL"
    case Equal => "EQUAL"
    case LessEqual => "LESS_EQUAL"
    case Less => "LESS"
    case GreaterEqual => "GREATER_EQUAL"
    case Greater => "GREATER"
    case Slash => "SLASH"
    case String => "STRING"
    case Number => "NUMBER"
    case Or => "OR"
    case Identifier => "IDENTIFIER"
    case And => "AND"
    case Class => "CLASS"
    case Else => "ELSE"
    case False => "FALSE"
    case For => "FOR"
    case Fun => "FUN"
    case If => "IF"
    case Nil => "NIL"
    case Print => "PRINT"
    case Return => "RETURN"
    case Super => "SUPER"
    case This => "THIS"
    case True => "TRUE"
    case Var => "VAR"
    case While => "WHILE"
    case Modulo => "MODULO"
  }

  /**
   * How a template literal renders a literal: `null` for the absent literal,
   * the host's number formatting (`showNumber`) for a number.
   */
  function LiteralText(l: LiteralValue, showNumber: real -> string): string
  {
    match l
    case NilLit => "null"
    case BoolLit(b) => if b then "true" else "false"
    case NumLit(n) => showNumber(n)
    case StrLit(s) => s
  }

  /** Token.toString: kind, lexeme and literal separated by single spaces. */
  function TokenToString(t: Token, showNumber: real -> string): (r: string)
    ensures |r| == |TypeName(t.tokenType)| + 1 + |t.lexeme| + 1 + |LiteralText(t.literal, showNumber)|
    ensures r[..|TypeName(t.tokenType)|] == TypeName(t.tokenType)
    ensures r[|TypeName(t.tokenType)|] == ' '
    ensures r[|TypeName(t.tokenType)| + 1 + |t.lexeme|] == ' '
    ensures r[|TypeName(t.tokenType)| + 1..|TypeName(t.tokenType)| + 1 + |t.lexeme|] == t.lexeme
    ensures r[|TypeName(t.tokenType)| + 1 + |t.lexeme| + 1..] == LiteralText(t.literal, showNumber)
  {
    TypeName(t.tokenType) + " " + t.lexeme + " " + LiteralText(t.literal, showNumber)
  }

  /** The line is not part of a token's text: tokens that differ only in line print alike. */
  lemma ToStringIgnoresLine(t: Token, line: int, showNumber: real -> string)
    ensures TokenToString(t.(line := line), showNumber) == TokenToString(t, showNumber)
  {
  }
}
