/** The token datatypes of the lexer and the parser (src/token.rs). */
module Tokens {
  import opened Outcomes

  /** The lexical categories, in the order of the source enum. */
  datatype TokenType =
    | Assign | Equals | NotEqual | Plus | Minus | Mult | Div | Mod | Not | And | Or | Is
    | GreaterThan | LessThan | Gte | Lte | Literal | Bool | Function | Quote | If | Else
    | While | For | Loop | Each | In | Period | Colon | Comma | Object | OpenBrace
    | CloseBrace | OpenBracket | CloseBracet | OpenParen | CloseParen | NewLine | TokenError

  /** The payload of a token: the text of a literal, if any. */
  datatype TokenValue = TokenValue(sVal: Option<string>)

  datatype Token = Token(tokType: TokenType, tokValue: Option<TokenValue>)

  /** The text a token carries, if any (`tok_value` and `s_val` both present). */
  function Text(t: Token): Option<string> {
    if t.tokValue.Some? then t.tokValue.value.sVal else None
  }

  /** The shape the lexer gives every token: a `Literal` carries text, any other
      kind carries no payload at all. */
  predicate WellFormed(t: Token) {
    if t.tokType == Literal then t.tokValue.Some? && t.tokValue.value.sVal.Some?
    else t.tokValue.None?
  }
}
