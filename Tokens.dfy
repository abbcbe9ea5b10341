/** The token kinds and the token record shared by the lexer and the parser. */
module Tokens {
  datatype TokenType =
    | None | Identifier | Type | Number | String | Operator | Keyword
    | LeftParen | RightParen | LeftBracket | RightBracket | LeftBrace | RightBrace
    | Comma | Semicolon | Colon | Pipe | Dot

  /** A token: its kind, its text, and the line and column it came from. */
  datatype Token = Token(kind: TokenType, value: string, line: int, column: int)

  /** The sentinel the parser's cursor returns past the end of a line or of the file. */
  const NoToken: Token := Token(None, "", -1, -1)

  /** The printable name of each kind. */
  function TokenTypeToString(t: TokenType): (s: string)
  {
    match t
    case None => "None"
    case Identifier => "Identifier"
    case Number => "Number"
    case String => "String"
    case Operator => "Operator"
    case LeftParen => "LeftParen"
    case RightParen => "RightParen"
    case LeftBracket => "LeftBracket"
    case RightBracket => "RightBracket"
    case Comma => "Comma"
    case Semicolon => "Semicolon"
    case Colon => "Colon"
    case Keyword => "Keyword"
    case Pipe => "Pipe"
    case Type => "Type"
    case Dot => "Dot"
    case LeftBrace => "LeftBrace"
    case RightBrace => "RightBrace"
  }

  /** Distinct kinds have distinct names, and no kind is printed as "Unknown". */
  lemma TokenTypeToStringInjective(a: TokenType, b: TokenType)
    ensures TokenTypeToString(a) == TokenTypeToString(b) <==> a == b
    ensures TokenTypeToString(a) != "Unknown"
  {
  }
}
