/** The string operations the report text relies on: rendering an integer in
    decimal as a template literal does, lowercasing, joining, and finding a
    piece of text inside another. */
module Text {

  function DigitChar(d: int): (c: char)
    requires 0 <= d <= 9
    ensures '0' <= c <= '9' && c as int - '0' as int == d
  {
    ('0' as int + d) as char
  }

  predicate IsDigits(s: string) {
    forall i :: 0 <= i < |s| ==> '0' <= s[i] <= '9'
  }

  /** Decimal digits of `n`, most significant first, without leading zeros. */
  function Digits(n: nat): (s: string)
    ensures |s| >= 1 && IsDigits(s)
    ensures s[0] == '0' ==> n == 0
  {
    if n < 10 then [DigitChar(n)] else Digits(n / 10) + [DigitChar(n % 10)]
  }

  /** `${n}` for an integral number of magnitude below 10^21 (larger ones are
      written in exponent notation): an optional minus sign, then the digits. */
  function IntToString(n: int): (s: string)
    ensures |s| >= 1
  {
    if n < 0 then "-" + Digits(-n) else Digits(n)
  }

  /** The value of a string of decimal digits. */
  function DigitsValue(s: string): int
    requires IsDigits(s)
  {
    if s == [] then 0 else DigitsValue(s[..|s| - 1]) * 10 + (s[|s| - 1] as int - '0' as int)
  }

  /** Reads back an optionally signed decimal, the inverse of `IntToString`. */
  function ParseInt(s: string): int
    requires |s| >= 1 && (if s[0] == '-' then IsDigits(s[1..]) else IsDigits(s))
  {
    if s[0] == '-' then -DigitsValue(s[1..]) else DigitsValue(s)
  }

  lemma {:induction false} DigitsRoundTrip(n: nat)
    ensures DigitsValue(Digits(n)) == n
  {
    if n >= 10 {
      DigitsRoundTrip(n / 10);
      var s := Digits(n);
      assert s[..|s| - 1] == Digits(n / 10);
    }
  }

  /** Rendering an integer in decimal loses nothing. */
  lemma IntToStringRoundTrip(n: int)
    ensures var s := IntToString(n); |s| >= 1 && (if s[0] == '-' then IsDigits(s[1..]) else IsDigits(s))
    ensures ParseInt(IntToString(n)) == n
  {
    if n < 0 {
      DigitsRoundTrip(-n);
      assert IntToString(n)[1..] == Digits(-n);
    } else {
      DigitsRoundTrip(n);
    }
  }

  /** Lowercase of one character, for the letters of ASCII and Latin-1. */
  function LowerChar(c: char): char {
    if 'A' <= c <= 'Z' || ('À' <= c <= 'Þ' && c != '×') then (c as int + 32) as char else c
  }

  /** `toLowerCase` on the letters of ASCII and Latin-1; every other character
      is kept. */
  function Lower(s: string): (r: string)
    ensures |r| == |s|
    ensures forall i :: 0 <= i < |s| ==> r[i] == LowerChar(s[i])
  {
    if s == [] then [] else [LowerChar(s[0])] + Lower(s[1..])
  }

  /** `parts.join(sep)`. */
  function Join(parts: seq<string>, sep: string): string {
    if |parts| == 0 then ""
    else if |parts| == 1 then parts[0]
    else parts[0] + sep + Join(parts[1..], sep)
  }

  lemma JoinSmall(parts: seq<string>, sep: string)
    ensures |parts| == 1 ==> Join(parts, sep) == parts[0]
    ensures |parts| == 2 ==> Join(parts, sep) == parts[0] + sep + parts[1]
  {
  }

  /** `sub` stands in `text` starting at position `i`. */
  predicate OccursAt(sub: string, text: string, i: int) {
    0 <= i && i + |sub| <= |text| && text[i..i + |sub|] == sub
  }

  /** `text.includes(sub)`. */
  predicate Contains(text: string, sub: string) {
    exists i :: 0 <= i <= |text| && OccursAt(sub, text, i)
  }

  lemma OccursAtEnd(before: string, sub: string)
    ensures OccursAt(sub, before + sub, |before|)
  {
    assert (before + sub)[|before|..|before| + |sub|] == sub;
  }

  lemma OccursPairAtEnd(before: string, sub1: string, sub2: string)
    ensures OccursAt(sub1 + sub2, before + sub1 + sub2, |before|)
  {
    var text := before + sub1 + sub2;
    assert text[|before|..|before| + |sub1 + sub2|] == sub1 + sub2;
  }

  /** An occurrence survives appending more text. */
  lemma OccursExtend(sub: string, text: string, more: string, i: int)
    requires OccursAt(sub, text, i)
    ensures OccursAt(sub, text + more, i)
  {
    assert (text + more)[i..i + |sub|] == text[i..i + |sub|];
  }

  lemma OccursContains(sub: string, text: string, i: int)
    requires OccursAt(sub, text, i)
    ensures Contains(text, sub)
  {
  }

  /** The last piece of a concatenation is its suffix. */
  lemma SuffixOfConcat(before: string, sub: string)
    ensures |sub| <= |before + sub| && (before + sub)[|before + sub| - |sub|..] == sub
  {
    assert (before + sub)[|before|..] == sub;
  }
}
