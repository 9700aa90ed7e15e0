/**
 * The Lumen lexer (compiler/src/lexer.go).
 *
 * The Go lexer keeps a `bufio.Reader` over the source and, beside it, the raw
 * `buffer` it slices literal text from. The model reads runes from the same
 * sequence it slices, one unit per rune: that is the Go program exactly when the
 * source is ASCII. `offset` is how many runes the reader has handed out; the
 * ghost field `eof` records that a read has failed, which the Go code only sees
 * as `current == 0`.
 *
 * Each method is proved against a function on `LexState`, the value of all the
 * lexer's fields; LexerLemmas states what those functions guarantee.
 */
module Lexer {
  import opened Tokens

  /** Go's rune 0, which `readChar` stores at end of input. */
  const NUL: char := 0 as char

  /** `unicode.IsLetter(ch) || ch == '_'`, on ASCII. */
  predicate IsLetter(c: char) {
    'a' <= c <= 'z' || 'A' <= c <= 'Z' || c == '_'
  }

  /** `unicode.IsDigit`, on ASCII. */
  predicate IsDigit(c: char) {
    '0' <= c <= '9'
  }

  /** `unicode.IsSpace`: the Latin-1 spaces and the other White_Space code points. */
  predicate IsSpace(c: char) {
    var n := c as int;
    (9 <= n <= 13) || n == 32 || n == 0x85 || n == 0xA0 || n == 0x1680
    || (0x2000 <= n <= 0x200A) || n == 0x2028 || n == 0x2029 || n == 0x202F
    || n == 0x205F || n == 0x3000
  }

  /** The ten words `lookupIdent` knows. */
  const Keywords: set<string> := {"let", "fn", "if", "else", "while", "return", "struct", "impl", "true", "false"}

  /** `lookupIdent`: the ten keywords, matched exactly; both booleans map to `TokenBool`. */
  function LookupIdent(ident: string): (t: TokenType)
    ensures t == TokenIdent <==> ident !in Keywords
    ensures t == TokenBool <==> ident == "true" || ident == "false"
    ensures t.TokenLet? || t.TokenFn? || t.TokenIf? || t.TokenElse? || t.TokenWhile? || t.TokenReturn?
         || t.TokenStruct? || t.TokenImpl? || t.TokenBool? || t.TokenIdent?
  {
    if ident == "let" then TokenLet
    else if ident == "fn" then TokenFn
    else if ident == "if" then TokenIf
    else if ident == "else" then TokenElse
    else if ident == "while" then TokenWhile
    else if ident == "return" then TokenReturn
    else if ident == "struct" then TokenStruct
    else if ident == "impl" then TokenImpl
    else if ident == "true" then TokenBool
    else if ident == "false" then TokenBool
    else TokenIdent
  }

  /**
   * The input as the runes the reader decodes. Go's buffer holds the UTF-8
   * bytes instead; both agree, unit for unit, on ASCII input.
   */
  datatype Input = Input(runes: seq<char>)

  /** The value of every field of a `Lexer`. */
  datatype LexState = LexState(
    buffer: Input,
    offset: nat,
    eof: bool,
    line: int,
    column: int,
    current: char,
    peek: char)

  /**
   * What holds between calls: `current` is the last rune read, or NUL once the
   * reader has failed; `column` counts reads since the last newline, so it is at
   * most `offset`, and equal to it while still on line 1.
   */
  ghost predicate ValidLex(s: LexState) {
    && s.offset <= |s.buffer.runes|
    && s.line >= 1 && s.column >= 1
    && (s.eof ==> s.offset == |s.buffer.runes| && s.current == NUL)
    && (!s.eof ==> 1 <= s.offset && s.current == s.buffer.runes[s.offset - 1] && s.column <= s.offset)
    && (!s.eof && s.line == 1 ==> s.column == s.offset)
  }

  /** Runes not yet consumed: those the reader still holds, plus `current` unless the reader has failed. */
  function Remaining(s: LexState): nat {
    (if s.offset <= |s.buffer.runes| then |s.buffer.runes| - s.offset else 0) + (if s.eof then 0 else 1)
  }

  /** `readChar`: take the next rune, or NUL at end of input, and count a column either way. */
  function AfterReadChar(s: LexState): (r: LexState)
    ensures r.buffer == s.buffer && r.line == s.line && r.peek == s.peek
    ensures r.column == s.column + 1
  {
    if s.offset < |s.buffer.runes| then
      s.(offset := s.offset + 1, current := s.buffer.runes[s.offset], column := s.column + 1)
    else
      s.(eof := true, current := NUL, column := s.column + 1)
  }

  /** The state `NewLexer` returns: line 1, column 0, then one `readChar`. */
  function Start(input: string): (r: LexState)
    ensures ValidLex(r) && r.buffer == Input(input) && r.peek == NUL && r.line == 1
  {
    AfterReadChar(LexState(Input(input), 0, false, 1, 0, NUL, NUL))
  }

  /** One turn of the `skipWhitespace` loop: a newline bumps `line` and resets `column` before the read. */
  function SkipStep(s: LexState): (r: LexState)
    requires ValidLex(s) && IsSpace(s.current)
    ensures ValidLex(r) && r.buffer == s.buffer && r.peek == s.peek
    ensures r.line == if s.current == '\n' then s.line + 1 else s.line
    ensures r.column == if s.current == '\n' then 1 else s.column + 1
    ensures Remaining(r) < Remaining(s)
  {
    AfterReadChar(if s.current == '\n' then s.(line := s.line + 1, column := 0) else s)
  }

  /** `skipWhitespace`: step while `current` is a space. */
  function AfterSkipWhitespace(s: LexState): (r: LexState)
    requires ValidLex(s)
    ensures ValidLex(r) && !IsSpace(r.current)
    ensures r.buffer == s.buffer && r.peek == s.peek && r.line >= s.line
    ensures Remaining(r) <= Remaining(s) && (s.eof ==> r == s)
    decreases Remaining(s)
  {
    if IsSpace(s.current) then
      AfterSkipWhitespace(SkipStep(s))
    else s
  }

  predicate IsIdentifierRune(c: char) {
    IsLetter(c) || IsDigit(c)
  }

  /** The loop of `readIdentifier`: read while `current` is a letter or a digit. */
  function AfterIdentifierRun(s: LexState): (r: LexState)
    requires ValidLex(s)
    ensures ValidLex(r) && !IsIdentifierRune(r.current)
    ensures r.buffer == s.buffer && r.peek == s.peek && r.line == s.line
    ensures r.column >= s.column && Remaining(r) <= Remaining(s)
    ensures IsIdentifierRune(s.current) ==> Remaining(r) < Remaining(s) && r.column > s.column
    ensures !IsIdentifierRune(s.current) ==> r == s
    ensures !s.eof ==> r.column <= |s.buffer.runes| + 1
    decreases Remaining(s)
  {
    if IsIdentifierRune(s.current) then AfterIdentifierRun(AfterReadChar(s)) else s
  }

  /** The loop of `readNumber`: read while `current` is a digit. */
  function AfterNumberRun(s: LexState): (r: LexState)
    requires ValidLex(s)
    ensures ValidLex(r) && !IsDigit(r.current)
    ensures r.buffer == s.buffer && r.peek == s.peek && r.line == s.line
    ensures r.column >= s.column && Remaining(r) <= Remaining(s)
    ensures IsDigit(s.current) ==> Remaining(r) < Remaining(s) && r.column > s.column
    ensures !IsDigit(s.current) ==> r == s
    ensures !s.eof ==> r.column <= |s.buffer.runes| + 1
    decreases Remaining(s)
  {
    if IsDigit(s.current) then AfterNumberRun(AfterReadChar(s)) else s
  }

  /**
   * The text `readIdentifier` and `readNumber` return: `buffer[position-1 : column-1]`,
   * with `position` the column where the run started. Columns are line-relative and
   * the buffer is not, so past line 1 this is not the text of the run.
   */
  function RunText(buffer: seq<char>, startColumn: int, endColumn: int): string
    requires 1 <= startColumn <= endColumn <= |buffer| + 1
  {
    buffer[startColumn - 1 .. endColumn - 1]
  }

  /** `readIdentifier`, called when `current` is a letter. */
  function LexIdentifier(s: LexState): (r: (string, LexState))
    requires ValidLex(s) && IsLetter(s.current)
  {
    var e := AfterIdentifierRun(s);
    (RunText(s.buffer.runes, s.column, e.column), e)
  }

  /** `readNumber`, called when `current` is a digit. */
  function LexNumber(s: LexState): (r: (string, LexState))
    requires ValidLex(s) && IsDigit(s.current)
  {
    var e := AfterNumberRun(s);
    (RunText(s.buffer.runes, s.column, e.column), e)
  }

  /** Kinds `NextToken` has no path to while `peek` holds its initial 0. */
  predicate NeverLexed(t: TokenType) {
    || t.TokenTrue? || t.TokenFalse? || t.TokenFloat? || t.TokenString? || t.TokenNotEqual?
    || t.TokenLess? || t.TokenLessEqual? || t.TokenGreater? || t.TokenGreaterEqual?
    || t.TokenArrow? || t.TokenEqualEqual?
  }

  /** The characters `NextToken` dispatches on before its `default` case. */
  predicate IsPunctuation(c: char) {
    || c == '+' || c == '-' || c == '*' || c == '/' || c == '=' || c == '('
    || c == ')' || c == '{' || c == '}' || c == ',' || c == ';' || c == '.'
  }

  /** The kind of the one-rune token for each punctuation case of `NextToken`. */
  function PunctuationKind(c: char): (t: TokenType)
    requires IsPunctuation(c)
    ensures !NeverLexed(t) && t != TokenEOF && t != TokenError
  {
    match c
    case '+' => TokenPlus
    case '-' => TokenMinus
    case '*' => TokenStar
    case '/' => TokenSlash
    case '=' => TokenEqual
    case '(' => TokenLParen
    case ')' => TokenRParen
    case '{' => TokenLBrace
    case '}' => TokenRBrace
    case ',' => TokenComma
    case ';' => TokenSemicolon
    case '.' => TokenDot
  }

  /** One `NextToken` call: the token it returns and the state it leaves. */
  function Scan(s: LexState): (r: (Token, LexState))
    requires ValidLex(s)
    ensures ValidLex(r.1) && r.1.buffer == s.buffer && r.1.peek == s.peek && r.1.line >= s.line
    ensures Remaining(r.1) <= Remaining(s) && (!s.eof ==> Remaining(r.1) < Remaining(s))
  {
    ScanAt(AfterSkipWhitespace(s))
  }

  /** The `switch` of `NextToken`, on the state `skipWhitespace` left. */
  function ScanAt(w: LexState): (r: (Token, LexState))
    requires ValidLex(w) && !IsSpace(w.current)
    ensures ValidLex(r.1) && r.1.buffer == w.buffer && r.1.peek == w.peek && r.1.line == w.line
    ensures Remaining(r.1) <= Remaining(w) && (!w.eof ==> Remaining(r.1) < Remaining(w))
  {
    var c := w.current;
    if c == '-' && w.peek == '>' then
      var w' := AfterReadChar(w);
      (Token(TokenArrow, "->", w'.line, w'.column), AfterReadChar(w'))
    else if c == '=' && w.peek == '=' then
      var w' := AfterReadChar(w);
      (Token(TokenEqualEqual, "==", w'.line, w'.column), AfterReadChar(w'))
    else if IsPunctuation(c) then (Token(PunctuationKind(c), [c], w.line, w.column), AfterReadChar(w))
    else if c == NUL then (Token(TokenEOF, "", w.line, w.column), AfterReadChar(w))
    else if IsLetter(c) then
      var (literal, e) := LexIdentifier(w);
      (Token(LookupIdent(literal), literal, e.line, e.column), e)
    else if IsDigit(c) then
      var (literal, e) := LexNumber(w);
      (Token(TokenInt, literal, e.line, e.column), e)
    else (Token(TokenError, [c], w.line, w.column), AfterReadChar(w))
  }

  /** The lexer object. */
  class Lexer {
    const buffer: seq<char>
    var offset: nat
    ghost var eof: bool
    var line: int
    var column: int
    var current: char
    var peek: char

    ghost function State(): LexState
      reads this
    {
      LexState(Input(buffer), offset, eof, line, column, current, peek)
    }

    ghost predicate Valid()
      reads this
    {
      ValidLex(State())
    }

    /** `NewLexer`. */
    constructor (input: string)
      ensures Valid() && State() == Start(input)
    {
      buffer := input;
      offset := 0;
      eof := false;
      line := 1;
      column := 0;
      current := NUL;
      peek := NUL;
      new;
      ReadChar();
    }

    method ReadChar()
      modifies this`offset, this`eof, this`current, this`column
      ensures State() == AfterReadChar(old(State()))
    {
      if offset < |buffer| {
        current := buffer[offset];
        offset := offset + 1;
      } else {
        eof := true;
        current := NUL;
      }
      column := column + 1;
    }

    method SkipWhitespace()
      requires Valid()
      modifies this`offset, this`eof, this`current, this`column, this`line
      ensures State() == AfterSkipWhitespace(old(State()))
    {
      while IsSpace(current)
        invariant Valid()
        invariant AfterSkipWhitespace(State()) == AfterSkipWhitespace(old(State()))
        decreases Remaining(State())
      {
        ghost var before := State();
        if current == '\n' {
          line := line + 1;
          column := 0;
        }
        ReadChar();
        assert State() == SkipStep(before);
      }
    }

    method ReadIdentifier() returns (literal: string)
      requires Valid() && IsLetter(current)
      modifies this`offset, this`eof, this`current, this`column
      ensures (literal, State()) == LexIdentifier(old(State()))
    {
      var position := column;
      while IsLetter(current) || IsDigit(current)
        invariant Valid() && line == old(line) && position <= column
        invariant AfterIdentifierRun(State()) == AfterIdentifierRun(old(State()))
        decreases Remaining(State())
      {
        ReadChar();
      }
      literal := buffer[position - 1 .. column - 1];
    }

    method ReadNumber() returns (literal: string)
      requires Valid() && IsDigit(current)
      modifies this`offset, this`eof, this`current, this`column
      ensures (literal, State()) == LexNumber(old(State()))
    {
      var position := column;
      while IsDigit(current)
        invariant Valid() && line == old(line) && position <= column
        invariant AfterNumberRun(State()) == AfterNumberRun(old(State()))
        decreases Remaining(State())
      {
        ReadChar();
      }
      literal := buffer[position - 1 .. column - 1];
    }

    method NextToken() returns (tok: Token)
      requires Valid()
      modifies this`offset, this`eof, this`current, this`column, this`line
      ensures Valid() && (tok, State()) == Scan(old(State()))
    {
      ghost var start := State();
      SkipWhitespace();
      assert Scan(start) == ScanAt(State());
      if current == '+' {
        tok := Token(TokenPlus, "+", line, column);
      } else if current == '-' {
        if peek == '>' {
          ReadChar();
          tok := Token(TokenArrow, "->", line, column);
        } else {
          tok := Token(TokenMinus, "-", line, column);
        }
      } else if current == '*' {
        tok := Token(TokenStar, "*", line, column);
      } else if current == '/' {
        tok := Token(TokenSlash, "/", line, column);
      } else if current == '=' {
        if peek == '=' {
          ReadChar();
          tok := Token(TokenEqualEqual, "==", line, column);
        } else {
          tok := Token(TokenEqual, "=", line, column);
        }
      } else if current == '(' {
        tok := Token(TokenLParen, "(", line, column);
      } else if current == ')' {
        tok := Token(TokenRParen, ")", line, column);
      } else if current == '{' {
        tok := Token(TokenLBrace, "{", line, column);
      } else if current == '}' {
        tok := Token(TokenRBrace, "}", line, column);
      } else if current == ',' {
        tok := Token(TokenComma, ",", line, column);
      } else if current == ';' {
        tok := Token(TokenSemicolon, ";", line, column);
      } else if current == '.' {
        tok := Token(TokenDot, ".", line, column);
      } else if current == NUL {
        tok := Token(TokenEOF, "", line, column);
      } else if IsLetter(current) {
        var literal := ReadIdentifier();
        tok := Token(LookupIdent(literal), literal, line, column);
        return;
      } else if IsDigit(current) {
        var literal := ReadNumber();
        tok := Token(TokenInt, literal, line, column);
        return;
      } else {
        tok := Token(TokenError, [current], line, column);
      }
      ReadChar();
    }
  }
}
