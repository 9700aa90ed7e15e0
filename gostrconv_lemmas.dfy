/** What the integer conversion and the formatting routines guarantee. */
module GoStrconvLemmas {
  import opened Wrappers
  import opened GoStrconv

  /** Scanning the first `k` characters does not look past them. */
  lemma {:induction false} ScanDigitsPrefix(p: string, q: string, k: nat, base: nat)
    requires k <= |p| && 2 <= base <= 36
    ensures ScanDigits(p + q, k, base) == ScanDigits(p, k, base)
  {
    if k > 0 {
      ScanDigitsPrefix(p, q, k - 1, base);
      assert (p + q)[k - 1] == p[k - 1];
    }
  }

  /** Reading back a decimal numeral gives its number, with no underscores. */
  lemma {:induction false} ScanDecimal(n: nat)
    ensures ScanDigits(NatToDecimal(n), |NatToDecimal(n)|, 10) == Digits(n, false)
    decreases n
  {
    var s := NatToDecimal(n);
    if n >= 10 {
      var p := NatToDecimal(n / 10);
      ScanDecimal(n / 10);
      ScanDigitsPrefix(p, [DigitChar(n % 10)], |p|, 10);
      assert s == p + [DigitChar(n % 10)];
      assert s[|s| - 1] == DigitChar(n % 10);
    }
  }

  /** `ParseInt` reads back what `%d` writes, for every int64. */
  lemma {:induction false} ParseIntOfItoa(n: Int64)
    ensures ParseInt(Itoa(n)) == Some(n)
  {
    var m: nat := if n < 0 then -(n as int) else n as int;
    var d := NatToDecimal(m);
    ScanDecimal(m);
    assert ParseUint(d) == Some(m) by {
      if m == 0 {
        assert d == "0";
      } else {
        assert BaseAndDigits(d) == (10, d);
      }
    }
    if n < 0 {
      assert Itoa(n)[1..] == d;
    }
  }

  /** A leading zero selects octal. */
  lemma OctalExamples()
    ensures ParseInt("010") == Some(8)
    ensures ParseInt("0") == Some(0)
  {
  }

  /** In octal, 8 and 9 are not digits. */
  lemma OctalRejectsEightAndNine()
    ensures ParseInt("08") == None && ParseInt("09") == None
  {
  }

  /** The int64 bound: a decimal numeral converts exactly when its value is at most 2^63 - 1. */
  lemma {:induction false} DecimalRange(m: nat)
    ensures ParseInt(NatToDecimal(m)) == if m <= MaxInt64 then Some(m) else None
  {
    var d := NatToDecimal(m);
    ScanDecimal(m);
    if m == 0 {
      assert d == "0";
    } else {
      assert BaseAndDigits(d) == (10, d);
    }
  }

  /** `%q` leaves a digit string as it is between the quotes. */
  lemma {:induction false} QuoteDigits(s: string)
    requires AllDecimal(s)
    ensures Quote(s) == "\"" + s + "\""
  {
    QuoteBodyDigits(s);
  }

  lemma {:induction false} QuoteBodyDigits(s: string)
    requires AllDecimal(s)
    ensures QuoteBody(s) == s
  {
    if s != [] {
      QuoteBodyDigits(s[1..]);
    }
  }

  /** `%q` keeps a character as it is exactly when it is printable ASCII other than quote and backslash, or a printable rune from U+0080 up. */
  lemma QuoteCharKeeps(c: char)
    ensures QuoteChar(c) == [c] <==>
      || (' ' <= c <= '~' && c != '"' && c != '\\')
      || (c as int >= 0x80 && !KnownUnprintable(c))
  {
  }

  /** The value of a string of lower-case hex digits, most significant first. */
  function HexValue(s: string): nat {
    if s == [] then 0
    else
      var c := s[|s| - 1];
      var d := if '0' <= c <= '9' then c as int - '0' as int
               else if 'a' <= c <= 'f' then c as int - 'a' as int + 10
               else 0;
      16 * HexValue(s[..|s| - 1]) + d
  }

  function Pow16(k: nat): (p: nat)
    ensures p >= 1
  {
    if k == 0 then 1 else 16 * Pow16(k - 1)
  }

  /** The `width` hex digits of a number below `16^width` read back as that number. */
  lemma {:induction false} HexDigitsRoundTrip(n: nat, width: nat)
    requires n < Pow16(width)
    ensures HexValue(HexDigits(n, width)) == n
    decreases width
  {
    if width > 0 {
      assert n / 16 < Pow16(width - 1);
      HexDigitsRoundTrip(n / 16, width - 1);
      var s := HexDigits(n, width);
      assert s[..|s| - 1] == HexDigits(n / 16, width - 1);
      assert s[|s| - 1] == HexDigit(n % 16);
    }
  }

  /** An ASCII control without a named escape, and DEL, are written \xHH… */
  lemma QuoteControlShape(c: char)
    requires (c as int < 0x20 && !(7 <= c as int <= 13)) || c as int == 0x7F
    ensures QuoteChar(c) == "\\x" + HexDigits(c as int, 2)
  {
  }

  /** …and the digits of that escape are its code. */
  lemma QuoteControlEscape(c: char)
    requires (c as int < 0x20 && !(7 <= c as int <= 13)) || c as int == 0x7F
    ensures HexValue(QuoteChar(c)[2..]) == c as int
  {
    QuoteControlShape(c);
    HexDigitsRoundTrip(c as int, 2);
    EscapeDigits(QuoteChar(c)[..2], HexDigits(c as int, 2));
  }

  /** An unprintable rune from U+0080 up is written \uHHHH, or \UHHHHHHHH above U+FFFF. */
  lemma QuoteUnicodeShape(c: char)
    requires KnownUnprintable(c)
    ensures QuoteChar(c) == if c as int < 0x1_0000 then "\\u" + HexDigits(c as int, 4) else "\\U" + HexDigits(c as int, 8)
  {
  }

  /** …and the digits of that escape are its code point. */
  lemma QuoteUnicodeEscape(c: char)
    requires KnownUnprintable(c)
    ensures HexValue(QuoteChar(c)[2..]) == c as int
  {
    QuoteUnicodeShape(c);
    var width := if c as int < 0x1_0000 then 4 else 8;
    assert Pow16(4) == 0x1_0000 && Pow16(8) == 0x1_0000_0000;
    HexDigitsRoundTrip(c as int, width);
    EscapeDigits(QuoteChar(c)[..2], HexDigits(c as int, width));
  }

  /** Example: the no-break space is written \u00a0. */
  lemma QuoteNoBreakSpace()
    ensures QuoteChar(0xA0 as char) == "\\u00a0"
  {
  }

  /** Example: a plane-15 private-use rune is written \U000f0000. */
  lemma QuotePrivateUse()
    ensures QuoteChar(0xF0000 as char) == "\\U000f0000"
  {
  }

  /** Example: a printable rune such as e-acute is written as it is. */
  lemma QuoteEAcute()
    ensures QuoteChar(0xE9 as char) == [0xE9 as char]
  {
  }

  lemma EscapeDigits(escape: string, digits: string)
    requires |escape| == 2
    ensures (escape + digits)[2..] == digits
  {
  }
}
