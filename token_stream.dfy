/**
 * The token stream a lexer hands its parser: every token `NextToken` will ever
 * return from a given lexer state, written as the finite run up to the end of
 * input followed by the `TokenEOF` tokens it then repeats (same line, one
 * column further each call).
 */
module TokenStream {
  import opened Tokens
  import opened Lexer
  import opened LexerLemmas

  datatype Stream = Stream(tokens: seq<Token>, line: int, column: int)

  /** No token of the stream has a kind the lexer never produces. */
  predicate ValidStream(ts: Stream) {
    forall i :: 0 <= i < |ts.tokens| ==> !NeverLexed(ts.tokens[i].kind)
  }

  /** The `k`-th token of the stream, counting from 0. */
  function At(ts: Stream, k: nat): (t: Token)
    ensures k >= |ts.tokens| ==> t.kind == TokenEOF
    ensures ValidStream(ts) ==> !NeverLexed(t.kind)
  {
    if k < |ts.tokens| then ts.tokens[k] else Token(TokenEOF, "", ts.line, ts.column + (k - |ts.tokens|))
  }

  /**
   * The stream of the lexer state `s`: the tokens of the `Remaining(s)` calls
   * that reach the end of input, and the position the last of them leaves.
   */
  function StreamFrom(s: LexState): (ts: Stream)
    requires ValidLex(s) && s.peek == NUL
    ensures |ts.tokens| == Remaining(s)
    ensures ValidStream(ts)
  {
    var n := Remaining(s);
    var e := After(s, n);
    var tokens := seq(n, k requires 0 <= k => Scan(After(s, k)).0);
    NeverLexedNowhere(s, tokens);
    Stream(tokens, e.line, e.column)
  }

  /** Every token of a run of calls has a kind the lexer produces. */
  lemma NeverLexedNowhere(s: LexState, tokens: seq<Token>)
    requires ValidLex(s) && s.peek == NUL
    requires forall k :: 0 <= k < |tokens| ==> tokens[k] == Scan(After(s, k)).0
    ensures forall k :: 0 <= k < |tokens| ==> !NeverLexed(tokens[k].kind)
  {
    forall k | 0 <= k < |tokens|
      ensures !NeverLexed(tokens[k].kind)
    {
      ScanNeverLexes(After(s, k));
    }
  }

  /** The stream ends where the last of its calls leaves the lexer. */
  lemma StreamEnd(s: LexState)
    requires ValidLex(s) && s.peek == NUL
    ensures var e := After(s, Remaining(s)); StreamFrom(s).line == e.line && StreamFrom(s).column == e.column
  {
  }

  /** Past the end of input each call leaves the lexer at the end, one column further on. */
  lemma {:induction false} PastEnd(s: LexState, k: nat)
    requires ValidLex(s) && s.peek == NUL && k >= Remaining(s)
    ensures var a := After(s, k); var ts := StreamFrom(s);
      a.eof && a.line == ts.line && a.column == ts.column + (k - |ts.tokens|)
    decreases k
  {
    if k == Remaining(s) {
      ReachesEndOfInput(s, k);
      StreamEnd(s);
    } else {
      PastEnd(s, k - 1);
      EofScan(After(s, k - 1));
    }
  }

  /** So there the stream's `TokenEOF` is what a call returns. */
  lemma StepPastEnd(s: LexState, k: nat)
    requires ValidLex(s) && s.peek == NUL && k >= Remaining(s)
    ensures Scan(After(s, k)).0 == At(StreamFrom(s), k)
  {
    PastEnd(s, k);
    EofScan(After(s, k));
  }

  /**
   * The lexer's calls walk the stream: a call made after `k` calls returns
   * the stream's `k`-th token and leaves the state of `k + 1` calls.
   */
  lemma StepMatches(s: LexState, k: nat)
    requires ValidLex(s) && s.peek == NUL
    ensures Scan(After(s, k)).0 == At(StreamFrom(s), k)
    ensures Scan(After(s, k)).1 == After(s, k + 1)
  {
    if k >= Remaining(s) {
      StepPastEnd(s, k);
    }
  }
}
