/** Facts about the token enumeration of compiler/src/tokens.go. */
module TokensLemmas {
  import opened Tokens

  /** `FromOrdinal` undoes `Ordinal`: every kind sits at its own ordinal. */
  lemma OrdinalRoundTrip(t: TokenType)
    ensures FromOrdinal(Ordinal(t)) == t
  {
  }

  /** Distinct kinds have distinct ordinals, so a printed ordinal names exactly one kind. */
  lemma {:induction false} OrdinalInjective(a: TokenType, b: TokenType)
    ensures Ordinal(a) == Ordinal(b) <==> a == b
  {
    OrdinalRoundTrip(a);
    OrdinalRoundTrip(b);
  }

  /** The first kind, and the two sentinels declared after every other kind. */
  lemma SentinelsComeLast(t: TokenType)
    ensures Ordinal(TokenLet) == 0 && Ordinal(TokenEOF) == 34 && Ordinal(TokenError) == 35
    ensures !IsSentinel(t) ==> Ordinal(t) < Ordinal(TokenEOF)
  {
  }

  /** The keyword kinds for `true` and `false` are not the literal kind `bool`. */
  lemma BooleanKindsAreDistinct()
    ensures Ordinal(TokenTrue) == 8 && Ordinal(TokenFalse) == 9 && Ordinal(TokenBool) == 13
    ensures TokenTrue != TokenBool && TokenFalse != TokenBool && TokenTrue != TokenFalse
  {
  }
}
