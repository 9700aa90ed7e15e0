/** What the lexer's scanning functions guarantee over whole token streams. */
module LexerLemmas {
  import opened Tokens
  import opened Lexer

  /** The state after `n` calls of `NextToken`. */
  function After(s: LexState, n: nat): (r: LexState)
    requires ValidLex(s)
    ensures ValidLex(r) && r.buffer == s.buffer && r.peek == s.peek
    decreases n, 0
  {
    if n == 0 then s else Advance(s, n - 1)
  }

  /** The state the call made after `k` earlier calls leaves. */
  function Advance(s: LexState, k: nat): (r: LexState)
    requires ValidLex(s)
    ensures ValidLex(r) && r.buffer == s.buffer && r.peek == s.peek
    decreases k, 1
  {
    Scan(After(s, k)).1
  }

  /** `-` always scans as `TokenMinus` and `=` as `TokenEqual`, since `peek` is 0. */
  lemma {:induction false} MinusAndEqualAreSingle(s: LexState)
    requires ValidLex(s) && s.peek == NUL
    ensures var w := AfterSkipWhitespace(s);
      (w.current == '-' ==> Scan(s).0 == Token(TokenMinus, "-", w.line, w.column))
      && (w.current == '=' ==> Scan(s).0 == Token(TokenEqual, "=", w.line, w.column))
  {
  }

  /** One scan never yields a kind in `NeverLexed`. */
  lemma {:induction false} ScanNeverLexes(s: LexState)
    requires ValidLex(s) && s.peek == NUL
    ensures !NeverLexed(Scan(s).0.kind)
  {
    var w := AfterSkipWhitespace(s);
    var c := w.current;
    if IsPunctuation(c) {
      assert Scan(s).0.kind == PunctuationKind(c);
    } else if c != NUL && IsLetter(c) {
      var t := LookupIdent(LexIdentifier(w).0);
      assert Scan(s).0.kind == t;
    }
  }

  /** At the end of input a call returns `TokenEOF` and moves one column on. */
  lemma {:induction false} EofScan(l: LexState)
    requires ValidLex(l) && l.eof
    ensures Scan(l) == (Token(TokenEOF, "", l.line, l.column), l.(column := l.column + 1))
  {
  }

  /** A call consumes a rune unless the reader has failed, which it then stays. */
  lemma {:induction false} ScanConsumes(s: LexState)
    requires ValidLex(s)
    ensures var s' := Scan(s).1; if s.eof then s'.eof else Remaining(s') < Remaining(s)
  {
    if s.eof {
      EofScan(s);
    }
  }

  /** Each of `k` calls consumes a rune until the reader fails. */
  lemma {:induction false} Consumed(s: LexState, k: nat)
    requires ValidLex(s)
    ensures After(s, k).eof || Remaining(After(s, k)) + k <= Remaining(s)
    decreases k
  {
    if k > 0 {
      Consumed(s, k - 1);
      ScanConsumes(After(s, k - 1));
    }
  }

  /** So `Remaining(s)` calls, or more, reach the end of input. */
  lemma ReachesEndOfInput(s: LexState, n: nat)
    requires ValidLex(s) && n >= Remaining(s)
    ensures After(s, n).eof
  {
    Consumed(s, n);
  }

  /**
   * `TokenError` comes exactly from a rune that is not punctuation, 0, a letter or a
   * digit; its literal is that rune and exactly that rune is consumed.
   */
  lemma {:induction false} ErrorTokenIff(s: LexState)
    requires ValidLex(s)
    ensures var w := AfterSkipWhitespace(s); var c := w.current;
      (Scan(s).0.kind == TokenError <==> !IsPunctuation(c) && c != NUL && !IsLetter(c) && !IsDigit(c))
      && (Scan(s).0.kind == TokenError ==>
            Scan(s).0 == Token(TokenError, [c], w.line, w.column) && Remaining(Scan(s).1) == Remaining(w) - 1)
  {
  }

  /** `TokenEOF` comes exactly from `current == 0`: at the end of input, or at a 0 rune inside it. */
  lemma {:induction false} EofTokenIff(s: LexState)
    requires ValidLex(s)
    ensures Scan(s).0.kind == TokenEOF <==> AfterSkipWhitespace(s).current == NUL
    ensures Scan(s).0.kind == TokenEOF ==> Scan(s).0.literal == ""
  {
  }

  /**
   * An identifier run is maximal: `L` runes from `current` on are letters or digits,
   * the rune after them is not, and `column` has moved by `L`.
   */
  lemma {:induction false} IdentifierRunIsMaximal(s: LexState)
    requires ValidLex(s) && !s.eof
    ensures var e := AfterIdentifierRun(s); var L := e.column - s.column; var p := s.offset - 1;
      && p + L <= |s.buffer.runes|
      && (forall i :: p <= i < p + L ==> IsIdentifierRune(s.buffer.runes[i]))
      && (p + L < |s.buffer.runes| ==> !IsIdentifierRune(s.buffer.runes[p + L]))
      && (e.eof <==> p + L == |s.buffer.runes|)
    decreases Remaining(s)
  {
    if IsIdentifierRune(s.current) {
      var s' := AfterReadChar(s);
      if !s'.eof {
        IdentifierRunIsMaximal(s');
      }
    }
  }

  /** A number run is maximal in the same way, over digits only. */
  lemma {:induction false} NumberRunIsMaximal(s: LexState)
    requires ValidLex(s) && !s.eof
    ensures var e := AfterNumberRun(s); var L := e.column - s.column; var p := s.offset - 1;
      && p + L <= |s.buffer.runes|
      && (forall i :: p <= i < p + L ==> IsDigit(s.buffer.runes[i]))
      && (p + L < |s.buffer.runes| ==> !IsDigit(s.buffer.runes[p + L]))
      && (e.eof <==> p + L == |s.buffer.runes|)
    decreases Remaining(s)
  {
    if IsDigit(s.current) {
      var s' := AfterReadChar(s);
      if !s'.eof {
        NumberRunIsMaximal(s');
      }
    }
  }

  /**
   * On line 1 the identifier's literal is exactly the run it scanned: the runes from
   * `offset - 1`, where the run starts, for the run's length `e.column - s.column`.
   */
  lemma {:induction false} IdentifierLiteralOnLineOne(s: LexState)
    requires ValidLex(s) && IsLetter(s.current) && s.line == 1
    ensures var e := AfterIdentifierRun(s); LexIdentifier(s).0 == s.buffer.runes[s.offset - 1 .. e.column - 1]
    ensures var e := AfterIdentifierRun(s);
      && (s.offset - 1) + (e.column - s.column) == e.column - 1
      && |LexIdentifier(s).0| == e.column - s.column >= 1
  {
    var e := AfterIdentifierRun(s);
    assert s.column == s.offset;
    assert LexIdentifier(s).0 == RunText(s.buffer.runes, s.column, e.column);
  }

  /**
   * On line 1 the number's literal is exactly the run it scanned: the runes from
   * `offset - 1`, where the run starts, for the run's length `e.column - s.column`.
   */
  lemma {:induction false} NumberLiteralOnLineOne(s: LexState)
    requires ValidLex(s) && IsDigit(s.current) && s.line == 1
    ensures var e := AfterNumberRun(s); LexNumber(s).0 == s.buffer.runes[s.offset - 1 .. e.column - 1]
    ensures var e := AfterNumberRun(s);
      && (s.offset - 1) + (e.column - s.column) == e.column - 1
      && |LexNumber(s).0| == e.column - s.column >= 1
  {
    var e := AfterNumberRun(s);
    assert s.column == s.offset;
    assert LexNumber(s).0 == RunText(s.buffer.runes, s.column, e.column);
  }

  /** A call first skips the whitespace, so it returns what a call from there would. */
  lemma {:induction false} ScanAfterSpaces(s: LexState)
    requires ValidLex(s)
    ensures Scan(s) == Scan(AfterSkipWhitespace(s))
  {
  }

  /** A call that starts on a letter returns the identifier or keyword it reads. */
  lemma {:induction false} ScanIdentifier(s: LexState)
    requires ValidLex(s) && IsLetter(s.current)
    ensures var (literal, e) := LexIdentifier(s);
      Scan(s) == (Token(LookupIdent(literal), literal, e.line, e.column), e)
  {
  }

  /** A call that starts on a digit returns the number it reads. */
  lemma {:induction false} ScanNumber(s: LexState)
    requires ValidLex(s) && IsDigit(s.current)
    ensures var (literal, e) := LexNumber(s);
      Scan(s) == (Token(TokenInt, literal, e.line, e.column), e)
  {
  }

  /** While `peek` is 0, a call that starts on punctuation returns that one rune and reads past it. */
  lemma {:induction false} ScanPunctuation(s: LexState)
    requires ValidLex(s) && IsPunctuation(s.current) && s.peek == NUL
    ensures Scan(s) == (Token(PunctuationKind(s.current), [s.current], s.line, s.column), AfterReadChar(s))
  {
  }

  /** The first five calls on `let x = 5;`; the sixth and every later call is end of input. */
  lemma LetStatementTokens()
    ensures var (t0, s1) := Scan(Start("let x = 5;")); var (t1, s2) := Scan(s1); var (t2, s3) := Scan(s2);
      var (t3, s4) := Scan(s3); var (t4, s5) := Scan(s4);
      && [t0, t1, t2, t3, t4] == [
           Token(TokenLet, "let", 1, 4), Token(TokenIdent, "x", 1, 6), Token(TokenEqual, "=", 1, 7),
           Token(TokenInt, "5", 1, 10), Token(TokenSemicolon, ";", 1, 10)]
      && s5.eof && s5.column == 11
  {
    LetStep0();
    LetStep1();
    LetStep2();
    LetStep3();
    LetStep4();
  }

  lemma LetStep0()
    ensures Scan(Start("let x = 5;")) == (Token(TokenLet, "let", 1, 4), LexState(Input("let x = 5;"), 4, false, 1, 4, ' ', NUL))
  {
    var w := LexState(Input("let x = 5;"), 1, false, 1, 1, 'l', NUL);
    LetStart();
    ScanIdentifier(w);
    LetRun();
    assert LookupIdent("let") == TokenLet;
  }

  lemma LetStart()
    ensures Start("let x = 5;") == LexState(Input("let x = 5;"), 1, false, 1, 1, 'l', NUL)
  {
  }

  lemma LetRun()
    ensures LexIdentifier(LexState(Input("let x = 5;"), 1, false, 1, 1, 'l', NUL)) == ("let", LexState(Input("let x = 5;"), 4, false, 1, 4, ' ', NUL))
  {
    var b := "let x = 5;";
    var s1 := LexState(Input(b), 4, false, 1, 4, ' ', NUL);
    assert AfterIdentifierRun(LexState(Input(b), 3, false, 1, 3, 't', NUL)) == s1;
    assert AfterIdentifierRun(LexState(Input(b), 1, false, 1, 1, 'l', NUL)) == s1;
    assert b[0 .. 3] == "let";
  }

  lemma LetStep1()
    ensures Scan(LexState(Input("let x = 5;"), 4, false, 1, 4, ' ', NUL))
      == (Token(TokenIdent, "x", 1, 6), LexState(Input("let x = 5;"), 6, false, 1, 6, ' ', NUL))
  {
    var b := "let x = 5;";
    var w := LexState(Input(b), 5, false, 1, 5, 'x', NUL);
    LetSkip(4, 'x');
    ScanAfterSpaces(LexState(Input(b), 4, false, 1, 4, ' ', NUL));
    ScanIdentifier(w);
    LetRunX();
    assert LookupIdent("x") == TokenIdent;
  }

  /** The single spaces of `let x = 5;`, each followed by the rune `c`. */
  lemma LetSkip(k: nat, c: char)
    requires (k == 4 && c == 'x') || (k == 6 && c == '=') || (k == 8 && c == '5')
    ensures AfterSkipWhitespace(LexState(Input("let x = 5;"), k, false, 1, k, ' ', NUL)) == LexState(Input("let x = 5;"), k + 1, false, 1, k + 1, c, NUL)
  {
    var b := "let x = 5;";
    assert b[k] == c;
  }

  lemma LetRunX()
    ensures LexIdentifier(LexState(Input("let x = 5;"), 5, false, 1, 5, 'x', NUL)) == ("x", LexState(Input("let x = 5;"), 6, false, 1, 6, ' ', NUL))
  {
    var b := "let x = 5;";
    assert AfterIdentifierRun(LexState(Input(b), 5, false, 1, 5, 'x', NUL)) == LexState(Input(b), 6, false, 1, 6, ' ', NUL);
    assert b[4 .. 5] == "x";
  }

  lemma LetStep2()
    ensures Scan(LexState(Input("let x = 5;"), 6, false, 1, 6, ' ', NUL))
      == (Token(TokenEqual, "=", 1, 7), LexState(Input("let x = 5;"), 8, false, 1, 8, ' ', NUL))
  {
    var b := "let x = 5;";
    LetSkip(6, '=');
    ScanAfterSpaces(LexState(Input(b), 6, false, 1, 6, ' ', NUL));
    ScanPunctuation(LexState(Input(b), 7, false, 1, 7, '=', NUL));
  }

  lemma LetStep3()
    ensures Scan(LexState(Input("let x = 5;"), 8, false, 1, 8, ' ', NUL))
      == (Token(TokenInt, "5", 1, 10), LexState(Input("let x = 5;"), 10, false, 1, 10, ';', NUL))
  {
    var b := "let x = 5;";
    LetSkip(8, '5');
    ScanAfterSpaces(LexState(Input(b), 8, false, 1, 8, ' ', NUL));
    ScanNumber(LexState(Input(b), 9, false, 1, 9, '5', NUL));
    LetRun5();
  }

  lemma LetRun5()
    ensures LexNumber(LexState(Input("let x = 5;"), 9, false, 1, 9, '5', NUL)) == ("5", LexState(Input("let x = 5;"), 10, false, 1, 10, ';', NUL))
  {
    var b := "let x = 5;";
    assert AfterNumberRun(LexState(Input(b), 9, false, 1, 9, '5', NUL)) == LexState(Input(b), 10, false, 1, 10, ';', NUL);
    assert b[8 .. 9] == "5";
  }

  lemma LetStep4()
    ensures Scan(LexState(Input("let x = 5;"), 10, false, 1, 10, ';', NUL))
      == (Token(TokenSemicolon, ";", 1, 10), LexState(Input("let x = 5;"), 10, true, 1, 11, NUL, NUL))
  {
    ScanPunctuation(LexState(Input("let x = 5;"), 10, false, 1, 10, ';', NUL));
  }

  /** On line 2 the slice uses line-relative columns: `bc` comes out with the literal `a\n`. */
  lemma LiteralPastLineOne()
    ensures var (t0, s1) := Scan(Start("a\nbc")); var (t1, s2) := Scan(s1);
      t0 == Token(TokenIdent, "a", 1, 2) && t1 == Token(TokenIdent, "a\n", 2, 3) && s2.eof
  {
    SecondLineStep0();
    SecondLineStep1();
  }

  lemma SecondLineStep0()
    ensures Scan(Start("a\nbc")) == (Token(TokenIdent, "a", 1, 2), LexState(Input("a\nbc"), 2, false, 1, 2, '\n', NUL))
  {
    SecondLineStart();
    ScanIdentifier(LexState(Input("a\nbc"), 1, false, 1, 1, 'a', NUL));
    SecondLineRunA();
    assert LookupIdent("a") == TokenIdent;
  }

  lemma SecondLineStart()
    ensures Start("a\nbc") == LexState(Input("a\nbc"), 1, false, 1, 1, 'a', NUL)
  {
  }

  lemma SecondLineRunA()
    ensures LexIdentifier(LexState(Input("a\nbc"), 1, false, 1, 1, 'a', NUL)) == ("a", LexState(Input("a\nbc"), 2, false, 1, 2, '\n', NUL))
  {
    var b := "a\nbc";
    assert AfterIdentifierRun(LexState(Input(b), 1, false, 1, 1, 'a', NUL)) == LexState(Input(b), 2, false, 1, 2, '\n', NUL);
    assert b[0 .. 1] == "a";
  }

  lemma SecondLineStep1()
    ensures Scan(LexState(Input("a\nbc"), 2, false, 1, 2, '\n', NUL))
      == (Token(TokenIdent, "a\n", 2, 3), LexState(Input("a\nbc"), 4, true, 2, 3, NUL, NUL))
  {
    var s := LexState(Input("a\nbc"), 2, false, 1, 2, '\n', NUL);
    var w := LexState(Input("a\nbc"), 3, false, 2, 1, 'b', NUL);
    SecondLineSkip();
    ScanAfterSpaces(s);
    ScanIdentifier(w);
    SecondLineRunBc();
    assert LookupIdent("a\n") == TokenIdent;
  }

  lemma SecondLineSkip()
    ensures AfterSkipWhitespace(LexState(Input("a\nbc"), 2, false, 1, 2, '\n', NUL)) == LexState(Input("a\nbc"), 3, false, 2, 1, 'b', NUL)
  {
    var b := "a\nbc";
    assert SkipStep(LexState(Input(b), 2, false, 1, 2, '\n', NUL)) == LexState(Input(b), 3, false, 2, 1, 'b', NUL);
  }

  lemma SecondLineRunBc()
    ensures LexIdentifier(LexState(Input("a\nbc"), 3, false, 2, 1, 'b', NUL)) == ("a\n", LexState(Input("a\nbc"), 4, true, 2, 3, NUL, NUL))
  {
    var b := "a\nbc";
    var e := LexState(Input(b), 4, true, 2, 3, NUL, NUL);
    assert AfterIdentifierRun(LexState(Input(b), 4, false, 2, 2, 'c', NUL)) == e;
    assert AfterIdentifierRun(LexState(Input(b), 3, false, 2, 1, 'b', NUL)) == e;
    assert b[0 .. 2] == "a\n";
  }
}
