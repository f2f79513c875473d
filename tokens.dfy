/** Tokens as the lexer hands them to the parser. The lexer itself is not
    part of this model; its output is any sequence of these values. */
module Tokens {

  /** Every kind of token the lexer can produce. */
  datatype TokenType =
    // single-character tokens
    | LeftParen | RightParen | LeftBrace | RightBrace
    | Comma | Dot | Minus | Plus | Semicolon | Slash | Star
    // one- or two-character tokens
    | Bang | BangEqual | Equal | EqualEqual
    | Greater | GreaterEqual | Less | LessEqual
    // literals
    | Identifier | String | Number
    // keywords
    | And | Class | Else | False | Fun | For | If | Nil | Or
    | Print | Return | Super | This | True | Var | While
    // end of input
    | Eof

  /** A literal payload: the absent value (`null`), a boolean, a number or a
      string. Numbers are carried as opaque values; no arithmetic is done. */
  datatype Value = Null | Boolean(b: bool) | Num(n: real) | Text(s: string)

  /** A token: its kind, its source text, its literal payload and the line
      it was read from (used only in diagnostics). */
  datatype Token = Token(kind: TokenType, lexeme: string, literal: Value, line: int)

  /** The input contract of the parser: a non-empty list whose last token is
      the end-of-input marker. */
  predicate WellTerminated(ts: seq<Token>) {
    |ts| > 0 && ts[|ts| - 1].kind == Eof
  }
}
