/** Text as the .NET runtime holds it, and the text of a 32-bit integer under
    the invariant culture. A .NET string is a sequence of UTF-16 code units:
    its length and its substrings count code units, so a character outside
    the Basic Multilingual Plane takes two positions (a surrogate pair), and
    a substring may end between the two. */
module InvariantText {

  newtype int32 = x: int | -0x8000_0000 <= x < 0x8000_0000

  /** One UTF-16 code unit (a .NET `char`). */
  newtype CodeUnit = x: int | 0 <= x < 0x1_0000

  /** A .NET string. */
  type NetString = seq<CodeUnit>

  predicate IsHighSurrogate(u: CodeUnit) {
    0xD800 <= u < 0xDC00
  }

  predicate IsLowSurrogate(u: CodeUnit) {
    0xDC00 <= u < 0xE000
  }

  /** The UTF-16 encoding of one Unicode scalar value. */
  function Utf16(c: char): (r: NetString)
    ensures |r| == (if c as int < 0x1_0000 then 1 else 2)
    ensures |r| == 2 ==> IsHighSurrogate(r[0]) && IsLowSurrogate(r[1])
    ensures c as int < 0x1_0000 ==> r == [c as int as CodeUnit]
    ensures |r| == 2 ==> 0x1_0000 + (r[0] as int - 0xD800) * 0x400 + (r[1] as int - 0xDC00) == c as int
  {
    var v := c as int;
    if v < 0x1_0000 then [v as CodeUnit]
    else [(0xD800 + (v - 0x1_0000) / 0x400) as CodeUnit, (0xDC00 + (v - 0x1_0000) % 0x400) as CodeUnit]
  }

  /** Every character lies in the Basic Multilingual Plane. */
  predicate InBmp(s: string) {
    forall i :: 0 <= i < |s| ==> s[i] as int < 0x1_0000
  }

  /** The .NET string holding the given text. */
  function Utf16Encode(s: string): (r: NetString)
    ensures |r| >= |s|
  {
    if s == [] then [] else Utf16(s[0]) + Utf16Encode(s[1..])
  }

  /** Text inside the Basic Multilingual Plane is stored one code unit per
      character, each holding that character's value. */
  lemma {:induction false} Utf16EncodeInBmp(s: string)
    requires InBmp(s)
    ensures |Utf16Encode(s)| == |s|
    ensures forall i :: 0 <= i < |s| ==> Utf16Encode(s)[i] as int == s[i] as int
  {
    if s != [] {
      Utf16EncodeInBmp(s[1..]);
      assert Utf16Encode(s) == [s[0] as int as CodeUnit] + Utf16Encode(s[1..]);
    }
  }

  predicate IsDigit(c: char) {
    '0' <= c <= '9'
  }

  predicate AllDigits(s: string) {
    forall i :: 0 <= i < |s| ==> IsDigit(s[i])
  }

  function DigitChar(d: nat): (c: char)
    requires d < 10
    ensures IsDigit(c) && c as int - '0' as int == d
  {
    (d + '0' as int) as char
  }

  function DigitValue(c: char): (d: nat)
    requires IsDigit(c)
    ensures d < 10 && DigitChar(d) == c
  {
    c as int - '0' as int
  }

  /** Decimal digits of `n`, most significant first. */
  function NatText(n: nat): (r: string)
    ensures |r| >= 1 && AllDigits(r)
    ensures |r| > 1 ==> r[0] != '0'
    decreases n
  {
    if n < 10 then [DigitChar(n)] else NatText(n / 10) + [DigitChar(n % 10)]
  }

  function IntText(n: int32): (r: string)
    ensures |r| >= 1
    ensures n >= 0 ==> AllDigits(r)
    ensures n < 0 ==> r[0] == '-' && AllDigits(r[1..]) && r[1..] != "0"
    ensures var d := if n < 0 then r[1..] else r; |d| > 1 ==> d[0] != '0'
  {
    if n < 0 then "-" + NatText(-(n as int)) else NatText(n as int)
  }

  /** Reads back a string of decimal digits. */
  function ParseNat(s: string): nat
    requires AllDigits(s)
  {
    if s == [] then 0 else ParseNat(s[..|s| - 1]) * 10 + DigitValue(s[|s| - 1])
  }

  function ParseInt(s: string): int
    requires |s| >= 1
    requires if s[0] == '-' then AllDigits(s[1..]) else AllDigits(s)
  {
    if s[0] == '-' then -(ParseNat(s[1..]) as int) else ParseNat(s)
  }

  lemma {:induction false} NatTextRoundTrip(n: nat)
    ensures ParseNat(NatText(n)) == n
    decreases n
  {
    if n >= 10 {
      var t := NatText(n);
      assert t[..|t| - 1] == NatText(n / 10);
      NatTextRoundTrip(n / 10);
    }
  }

  /** The text of a thread identifier reads back as that identifier. */
  lemma IntTextRoundTrip(n: int32)
    ensures ParseInt(IntText(n)) == n as int
  {
    var t := IntText(n);
    if n < 0 {
      assert t[1..] == NatText(-(n as int));
      NatTextRoundTrip(-(n as int));
    } else {
      NatTextRoundTrip(n as int);
    }
  }

  /** Distinct identifiers have distinct texts. */
  lemma IntTextInjective(a: int32, b: int32)
    ensures IntText(a) == IntText(b) ==> a == b
  {
    IntTextRoundTrip(a);
    IntTextRoundTrip(b);
  }
}
