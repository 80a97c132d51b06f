/**
 * String formatting used throughout the source: Python's `str(int)` and
 * `f"{n:02x}"`, and `sep.join(...)`, together with the parsers that show
 * the formatted strings can be read back.
 */
module Text {

  predicate IsDigit(c: char) { '0' <= c <= '9' }

  predicate AllDigits(s: string) { forall i :: 0 <= i < |s| ==> IsDigit(s[i]) }

  function DigitChar(d: nat): (c: char)
    requires d < 10
    ensures IsDigit(c) && c as int - '0' as int == d
  {
    ['0', '1', '2', '3', '4', '5', '6', '7', '8', '9'][d]
  }

  /** Python's `str(n)` for a non-negative integer. */
  function Dec(n: nat): (s: string)
    decreases n
  {
    if n < 10 then [DigitChar(n)] else Dec(n / 10) + [DigitChar(n % 10)]
  }

  /** The value of a string of decimal digits (the inverse of `Dec`). */
  function ParseDec(s: string): nat
    requires AllDigits(s)
  {
    if s == [] then 0 else 10 * ParseDec(s[..|s| - 1]) + (s[|s| - 1] as int - '0' as int)
  }

  lemma {:induction false} DecDigits(n: nat)
    ensures |Dec(n)| >= 1 && AllDigits(Dec(n))
    decreases n
  {
    if n >= 10 {
      DecDigits(n / 10);
    }
  }

  /** Reading back a formatted number gives the number. */
  lemma {:induction false} DecRoundTrip(n: nat)
    ensures AllDigits(Dec(n)) && ParseDec(Dec(n)) == n
    decreases n
  {
    DecDigits(n);
    if n >= 10 {
      DecRoundTrip(n / 10);
      var s := Dec(n);
      assert s[..|s| - 1] == Dec(n / 10);
    }
  }

  lemma DecInjective(m: nat, n: nat)
    ensures Dec(m) == Dec(n) ==> m == n
  {
    DecRoundTrip(m);
    DecRoundTrip(n);
  }

  /** Length of the longest prefix of `s` made of decimal digits. */
  function DigitRun(s: string): (n: nat)
    ensures n <= |s|
  {
    if s == [] || !IsDigit(s[0]) then 0 else 1 + DigitRun(s[1..])
  }

  lemma {:induction false} DigitRunOf(x: string, rest: string)
    requires AllDigits(x) && rest != [] && !IsDigit(rest[0])
    ensures DigitRun(x + rest) == |x|
  {
    if x != [] {
      assert (x + rest)[1..] == x[1..] + rest;
      DigitRunOf(x[1..], rest);
    } else {
      assert x + rest == rest;
    }
  }

  /** Two digit strings that are each followed by the same separator split at the same place. */
  lemma SplitAtSeparator(x: string, y: string, x': string, y': string, sep: char)
    requires AllDigits(x) && AllDigits(x') && !IsDigit(sep)
    requires x + [sep] + y == x' + [sep] + y'
    ensures x == x' && y == y'
  {
    assert x + [sep] + y == x + ([sep] + y);
    assert x' + [sep] + y' == x' + ([sep] + y');
    DigitRunOf(x, [sep] + y);
    DigitRunOf(x', [sep] + y');
    assert x == (x + [sep] + y)[..|x|];
    assert x' == (x' + [sep] + y')[..|x|];
    assert y == (x + [sep] + y)[|x| + 1..];
    assert y' == (x' + [sep] + y')[|x| + 1..];
  }

  predicate IsHexDigit(c: char) { '0' <= c <= '9' || 'a' <= c <= 'f' }

  function HexDigit(d: nat): (c: char)
    requires d < 16
    ensures IsHexDigit(c)
  {
    "0123456789abcdef"[d]
  }

  function HexValue(c: char): (d: nat)
    requires IsHexDigit(c)
    ensures d < 16
  {
    if c <= '9' then c as int - '0' as int else c as int - 'a' as int + 10
  }

  lemma HexDigitRoundTrip(d: nat)
    requires d < 16
    ensures HexValue(HexDigit(d)) == d
  {
  }

  /** Lower-case hexadecimal digits of `n`, without leading zeros. */
  function Hex(n: nat): string
    decreases n
  {
    if n < 16 then [HexDigit(n)] else Hex(n / 16) + [HexDigit(n % 16)]
  }

  lemma {:induction false} HexLength(n: nat)
    ensures |Hex(n)| >= 1
    ensures n >= 256 ==> |Hex(n)| >= 3
    decreases n
  {
    if n >= 16 {
      HexLength(n / 16);
    }
  }

  /** Python's `f"{n:02x}"`: lower-case hexadecimal padded to at least two digits. */
  function Hex02(n: nat): (s: string)
    ensures n < 256 ==> s == [HexDigit(n / 16), HexDigit(n % 16)]
    ensures n >= 256 ==> |s| >= 3
  {
    HexLength(n);
    if n < 16 then ['0'] + Hex(n) else Hex(n)
  }

  /** The value of a two-digit hexadecimal group. */
  function ParseHex2(s: string): nat
    requires |s| == 2 && IsHexDigit(s[0]) && IsHexDigit(s[1])
  {
    16 * HexValue(s[0]) + HexValue(s[1])
  }

  lemma Hex02RoundTrip(n: nat)
    requires n < 256
    ensures |Hex02(n)| == 2 && IsHexDigit(Hex02(n)[0]) && IsHexDigit(Hex02(n)[1])
    ensures ParseHex2(Hex02(n)) == n
  {
    HexDigitRoundTrip(n / 16);
    HexDigitRoundTrip(n % 16);
  }

  /** Python's `sep.join(parts)`. */
  function Join(parts: seq<string>, sep: string): (r: string)
    ensures parts == [] ==> r == ""
    ensures |parts| == 1 ==> r == parts[0]
  {
    if parts == [] then "" else if |parts| == 1 then parts[0] else parts[0] + sep + Join(parts[1..], sep)
  }

  predicate OccursAt(needle: string, hay: string, i: int)
  {
    0 <= i <= |hay| - |needle| && hay[i..i + |needle|] == needle
  }

  /** Python's `needle in hay` on strings. */
  predicate IsSubstring(needle: string, hay: string)
  {
    exists i | 0 <= i <= |hay| :: OccursAt(needle, hay, i)
  }
}
