/**
 * The three Go standard-library routines the front end relies on, on the
 * character-sequence model of strings: `fmt`'s `%d` (Itoa), `%q` (Quote) and
 * `strconv.ParseInt(s, 0, 64)` (ParseInt), which compiler/src/parser.go uses
 * to convert integer literals and to write its diagnostics.
 */
module GoStrconv {
  import opened Wrappers

  const MaxInt64: int := 0x7FFF_FFFF_FFFF_FFFF
  const MinInt64: int := -0x8000_0000_0000_0000
  const MaxUint64: int := 0xFFFF_FFFF_FFFF_FFFF

  /** Go's `int64`. */
  type Int64 = x: int | MinInt64 <= x <= MaxInt64

  predicate IsDecimalDigit(c: char) {
    '0' <= c <= '9'
  }

  predicate AllDecimal(s: string) {
    forall i :: 0 <= i < |s| ==> IsDecimalDigit(s[i])
  }

  function DigitChar(d: nat): (c: char)
    requires d < 10
    ensures IsDecimalDigit(c) && c as int - '0' as int == d
  {
    ('0' as int + d) as char
  }

  // ---------------------------------------------------------------------------
  // %d

  /** The decimal numeral of `n`, without leading zeros. */
  function NatToDecimal(n: nat): (s: string)
    ensures |s| >= 1 && AllDecimal(s)
    ensures s[0] == '0' <==> n == 0
    decreases n
  {
    if n < 10 then [DigitChar(n)] else NatToDecimal(n / 10) + [DigitChar(n % 10)]
  }

  /** `fmt.Sprintf("%d", n)`. */
  function Itoa(n: int): string {
    if n < 0 then "-" + NatToDecimal(-n) else NatToDecimal(n)
  }

  // ---------------------------------------------------------------------------
  // %q

  function HexDigit(d: nat): char
    requires d < 16
  {
    if d < 10 then ('0' as int + d) as char else ('a' as int + d - 10) as char
  }

  /** The `width` lower-case hex digits of `n`, most significant first, as `strconv` writes escapes. */
  function HexDigits(n: nat, width: nat): (s: string)
    ensures |s| == width
    decreases width
  {
    if width == 0 then "" else HexDigits(n / 16, width - 1) + [HexDigit(n % 16)]
  }

  /**
   * The runes from U+0080 up that `strconv.IsPrint` rejects and this model
   * knows of: the C1 controls, the non-ASCII space separators, the line and
   * paragraph separators, the soft hyphen, the zero-width, joiner, bidi and
   * invisible-operator format characters, the byte order mark, the interlinear
   * annotation characters, the noncharacters U+FFFE and U+FFFF, the private-use
   * areas and the tag block.
   */
  predicate KnownUnprintable(c: char) {
    var n := c as int;
    || 0x80 <= n <= 0xA0 || n == 0xAD || n == 0x1680
    || 0x2000 <= n <= 0x200F || 0x2028 <= n <= 0x202F || 0x205F <= n <= 0x206F
    || n == 0x3000 || 0xE000 <= n <= 0xF8FF || n == 0xFEFF
    || 0xFFF9 <= n <= 0xFFFB || n == 0xFFFE || n == 0xFFFF
    || 0xE0000 <= n <= 0xE007F || n >= 0xF0000
  }

  /**
   * How `strconv.Quote` writes one character: quote and backslash escaped, printable
   * ASCII as is, the named control escapes, other ASCII controls as \xHH, and an
   * unprintable rune from U+0080 up as \uHHHH, or \UHHHHHHHH above U+FFFF.
   */
  function QuoteChar(c: char): string {
    if c == '"' then "\\\""
    else if c == '\\' then "\\\\"
    else if ' ' <= c <= '~' then [c]
    else if c == 7 as char then "\\a"
    else if c == 8 as char then "\\b"
    else if c == 12 as char then "\\f"
    else if c == '\n' then "\\n"
    else if c == '\r' then "\\r"
    else if c == '\t' then "\\t"
    else if c == 11 as char then "\\v"
    else if c as int < 0x80 then "\\x" + HexDigits(c as int, 2)
    else if !KnownUnprintable(c) then [c]
    else if c as int < 0x1_0000 then "\\u" + HexDigits(c as int, 4)
    else "\\U" + HexDigits(c as int, 8)
  }

  function QuoteBody(s: string): string {
    if s == [] then "" else QuoteChar(s[0]) + QuoteBody(s[1..])
  }

  /** `fmt.Sprintf("%q", s)`. */
  function Quote(s: string): string {
    "\"" + QuoteBody(s) + "\""
  }

  // ---------------------------------------------------------------------------
  // strconv.ParseInt(s, 0, 64)

  /** Go's `lower`, on the characters where it matters (ASCII letters). */
  function Lower(c: char): char {
    if 'A' <= c <= 'Z' then (c as int + 32) as char else c
  }

  datatype DigitScan = Invalid | Digits(value: nat, underscores: bool)

  /**
   * The digits of `s[..n]` in `base`, read left to right as `ParseUint`'s loop does;
   * with base prefix detection on (`base` 0), underscores are skipped and noted.
   * Go stops at the first overflow with a range error; the model computes the
   * exact value and compares it with the bound afterwards, which decides
   * success and failure the same way.
   */
  function ScanDigits(s: string, n: nat, base: nat): (r: DigitScan)
    requires n <= |s| && 2 <= base <= 36
    decreases n
  {
    if n == 0 then Digits(0, false)
    else
      match ScanDigits(s, n - 1, base)
      case Invalid => Invalid
      case Digits(v, u) =>
        var c := s[n - 1];
        if c == '_' then Digits(v, true)
        else
          var d := DigitValue(c);
          if d >= base then Invalid
          else
            var scaled: nat := Scale(v, base);
            Digits(scaled + d, u)
  }

  /** The value of a digit rune in any base up to 36; 36 for every other rune. */
  function DigitValue(c: char): (d: nat)
    ensures d <= 36
  {
    if '0' <= c <= '9' then c as int - '0' as int
    else if 'a' <= Lower(c) <= 'z' then Lower(c) as int - 'a' as int + 10
    else 36
  }

  /** One turn of the digit loop shifts the value so far by the base. */
  function Scale(v: nat, base: nat): nat {
    v * base
  }

  /** Go's `underscoreOK`: every underscore sits between digits or after a base prefix. */
  function UnderscoreOK(s: string): bool {
    var t := if |s| >= 1 && (s[0] == '-' || s[0] == '+') then s[1..] else s;
    var prefixed := |t| >= 2 && t[0] == '0' && (Lower(t[1]) == 'b' || Lower(t[1]) == 'o' || Lower(t[1]) == 'x');
    var hex := prefixed && Lower(t[1]) == 'x';
    if prefixed then UnderscoreScan(t, 2, '0', hex) else UnderscoreScan(t, 0, '^', hex)
  }

  /** The loop of `underscoreOK`; `saw` is '^' (start), '0' (digit), '_' or '!' (other). */
  function UnderscoreScan(t: string, i: nat, saw: char, hex: bool): bool
    requires i <= |t|
    decreases |t| - i
  {
    if i == |t| then saw != '_'
    else if IsDecimalDigit(t[i]) || (hex && 'a' <= Lower(t[i]) <= 'f') then UnderscoreScan(t, i + 1, '0', hex)
    else if t[i] == '_' then saw == '0' && UnderscoreScan(t, i + 1, '_', hex)
    else if saw == '_' then false
    else UnderscoreScan(t, i + 1, '!', hex)
  }

  /** The base prefix rule of base 0: 0b, 0o, 0x (followed by something), a bare leading 0 for octal. */
  function BaseAndDigits(s: string): (r: (nat, string))
    requires s != []
    ensures 2 <= r.0 <= 36
  {
    if s[0] != '0' then (10, s)
    else if |s| >= 3 && Lower(s[1]) == 'b' then (2, s[2..])
    else if |s| >= 3 && Lower(s[1]) == 'o' then (8, s[2..])
    else if |s| >= 3 && Lower(s[1]) == 'x' then (16, s[2..])
    else (8, s[1..])
  }

  /** `strconv.ParseUint(s, 0, 64)`, reduced to success (the value) or failure. */
  function ParseUint(s: string): (r: Option<nat>)
    ensures r.Some? ==> r.value <= MaxUint64
  {
    if s == [] then None
    else
      var (base, digits) := BaseAndDigits(s);
      match ScanDigits(digits, |digits|, base)
      case Invalid => None
      case Digits(v, underscores) =>
        if v > MaxUint64 then None
        else if underscores && !UnderscoreOK(s) then None
        else Some(v)
  }

  /** `strconv.ParseInt(s, 0, 64)`, reduced to success (the value) or failure. */
  function ParseInt(s: string): (r: Option<Int64>)
  {
    if s == [] then None
    else
      var neg := s[0] == '-';
      var body := if s[0] == '+' || s[0] == '-' then s[1..] else s;
      match ParseUint(body)
      case None => None
      case Some(u) =>
        if !neg && u > MaxInt64 then None
        else if neg && u > -MinInt64 then None
        else
          var magnitude: int := u;
          Some(if neg then -magnitude else magnitude)
  }
}
