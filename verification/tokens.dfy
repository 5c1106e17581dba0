/** The token record the scanner produces. */
module Tokens {

  /** The lexeme classes a token can carry. */
  datatype TokenKind =
    | End
    | Integer
    | Percentage
    | Real
    | TimeSpan
    | Key
    | EnumerationValue
    | PlainText
    | Operator

  /** The parsed value of a token: the source boxes it as an untyped object. */
  datatype Payload =
    | NoContent
    | Int(value: int)
    | Text(text: string)

  /** One classified lexeme: its kind, the source characters it covers,
      the offset of its first character, its parsed value and whether an
      enumeration-trie walk ended on a complete node. */
  datatype Token = Token(
    kind: TokenKind,
    segment: string,
    start: int,
    content: Payload,
    isCompleteEnum: bool)
}
