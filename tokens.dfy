/**
 * The token vocabulary of the Lumen front end (compiler/src/tokens.go).
 *
 * `TokenType` is a Go `int` enumeration built with `iota`; here it is a closed
 * datatype, and `Ordinal` gives back the integer that the parser's diagnostics print.
 */
module Tokens {

  datatype TokenType =
    // Keywords
    | TokenLet | TokenFn | TokenIf | TokenElse | TokenWhile | TokenReturn
    | TokenStruct | TokenImpl | TokenTrue | TokenFalse
    // Literals
    | TokenInt | TokenFloat | TokenString | TokenBool | TokenIdent
    // Operators
    | TokenPlus | TokenMinus | TokenStar | TokenSlash | TokenEqual | TokenEqualEqual
    | TokenNotEqual | TokenLess | TokenLessEqual | TokenGreater | TokenGreaterEqual
    // Delimiters
    | TokenLParen | TokenRParen | TokenLBrace | TokenRBrace | TokenComma
    | TokenSemicolon | TokenDot | TokenArrow
    // Special
    | TokenEOF | TokenError

  /** The number of token kinds. */
  const KindCount: nat := 36

  /** The value `iota` gives each kind: its position in the declaration. */
  function Ordinal(t: TokenType): (n: nat)
    ensures n < KindCount
  {
    match t
    case TokenLet => 0
    case TokenFn => 1
    case TokenIf => 2
    case TokenElse => 3
    case TokenWhile => 4
    case TokenReturn => 5
    case TokenStruct => 6
    case TokenImpl => 7
    case TokenTrue => 8
    case TokenFalse => 9
    case TokenInt => 10
    case TokenFloat => 11
    case TokenString => 12
    case TokenBool => 13
    case TokenIdent => 14
    case TokenPlus => 15
    case TokenMinus => 16
    case TokenStar => 17
    case TokenSlash => 18
    case TokenEqual => 19
    case TokenEqualEqual => 20
    case TokenNotEqual => 21
    case TokenLess => 22
    case TokenLessEqual => 23
    case TokenGreater => 24
    case TokenGreaterEqual => 25
    case TokenLParen => 26
    case TokenRParen => 27
    case TokenLBrace => 28
    case TokenRBrace => 29
    case TokenComma => 30
    case TokenSemicolon => 31
    case TokenDot => 32
    case TokenArrow => 33
    case TokenEOF => 34
    case TokenError => 35
  }

  /** The kind whose ordinal is `n`: the inverse of `Ordinal` (see TokensLemmas). */
  function FromOrdinal(n: nat): TokenType
    requires n < KindCount
  {
    if n == 0 then TokenLet
    else if n == 1 then TokenFn
    else if n == 2 then TokenIf
    else if n == 3 then TokenElse
    else if n == 4 then TokenWhile
    else if n == 5 then TokenReturn
    else if n == 6 then TokenStruct
    else if n == 7 then TokenImpl
    else if n == 8 then TokenTrue
    else if n == 9 then TokenFalse
    else if n == 10 then TokenInt
    else if n == 11 then TokenFloat
    else if n == 12 then TokenString
    else if n == 13 then TokenBool
    else if n == 14 then TokenIdent
    else if n == 15 then TokenPlus
    else if n == 16 then TokenMinus
    else if n == 17 then TokenStar
    else if n == 18 then TokenSlash
    else if n == 19 then TokenEqual
    else if n == 20 then TokenEqualEqual
    else if n == 21 then TokenNotEqual
    else if n == 22 then TokenLess
    else if n == 23 then TokenLessEqual
    else if n == 24 then TokenGreater
    else if n == 25 then TokenGreaterEqual
    else if n == 26 then TokenLParen
    else if n == 27 then TokenRParen
    else if n == 28 then TokenLBrace
    else if n == 29 then TokenRBrace
    else if n == 30 then TokenComma
    else if n == 31 then TokenSemicolon
    else if n == 32 then TokenDot
    else if n == 33 then TokenArrow
    else if n == 34 then TokenEOF
    else TokenError
  }

  /** A lexical unit: its kind, its text and where the lexer was when it made it. */
  datatype Token = Token(kind: TokenType, literal: string, line: int, column: int)

  /** The two sentinel kinds. */
  predicate IsSentinel(t: TokenType) {
    t == TokenEOF || t == TokenError
  }
}
