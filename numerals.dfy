/** Numerals: the digit-string reading that stream extraction with setbase
    performs for as_numeral, and the rendering of non-negative values that
    setbase gives DOT. Bases are 8, 10 or 16; digits above 9 are the letters
    a..f in either case when read and lower case when written. */
module Numerals {

  /** isdigit in the classic locale. */
  predicate IsDecimalDigit(c: char) {
    '0' <= c <= '9'
  }

  /** The weight of a character as a digit; 16 stands for "no digit in any base". */
  function DigitValue(c: char): (d: nat)
    ensures d <= 16
    ensures d < 10 <==> IsDecimalDigit(c)
  {
    if '0' <= c <= '9' then c as int - '0' as int
    else if 'a' <= c <= 'f' then c as int - 'a' as int + 10
    else if 'A' <= c <= 'F' then c as int - 'A' as int + 10
    else 16
  }

  predicate IsDigitIn(c: char, base: int) {
    DigitValue(c) < base
  }

  predicate AllDigitsIn(s: string, base: int) {
    forall i :: 0 <= i < |s| ==> IsDigitIn(s[i], base)
  }

  /** The length of the longest prefix of s made of digits valid in base:
      extraction stops at the first character that is not one. */
  function ValidPrefix(s: string, base: int): (n: nat)
    ensures n <= |s|
    ensures AllDigitsIn(s[..n], base)
    ensures n < |s| ==> !IsDigitIn(s[n], base)
    ensures AllDigitsIn(s, base) ==> n == |s|
  {
    if s == [] || !IsDigitIn(s[0], base) then 0
    else
      var k := ValidPrefix(s[1..], base);
      assert s[..1 + k] == [s[0]] + s[1..][..k];
      1 + k
  }

  /** The positional value of a digit string, accumulated left to right. */
  function Value(d: string, base: int): int {
    if d == [] then 0 else Value(d[..|d| - 1], base) * base + DigitValue(d[|d| - 1])
  }

  /** What `iss >> setbase(base) >> n` stores: the value of the longest valid
      prefix, and 0 when there is none (a failed extraction stores 0). */
  function Numeral(s: string, base: int): (n: int)
    ensures AllDigitsIn(s, base) ==> n == Value(s, base)
    ensures (s == [] || !IsDigitIn(s[0], base)) ==> n == 0
  {
    assert s[..|s|] == s;
    Value(s[..ValidPrefix(s, base)], base)
  }

  /** The character written for a digit value. */
  function Glyph(d: nat): (c: char)
    requires d < 16
    ensures DigitValue(c) == d
  {
    if d < 10 then ('0' as int + d) as char else ('a' as int + d - 10) as char
  }

  /** Appending a digit multiplies the value so far by the base and adds the digit. */
  lemma AppendDigit(d: string, c: char, base: int)
    requires AllDigitsIn(d, base) && IsDigitIn(c, base)
    ensures AllDigitsIn(d + [c], base)
    ensures Value(d + [c], base) == Value(d, base) * base + DigitValue(c)
  {
    assert (d + [c])[..|d|] == d;
  }

  lemma DivMod(n: nat, d: nat)
    requires d > 0
    ensures (n / d) * d + n % d == n
    ensures n >= d ==> n / d > 0
  {
  }

  /** `setbase(base) << n` for non-negative n: most significant digit first. */
  function Show(n: nat, base: nat): string
    requires 2 <= base <= 16
    decreases n
  {
    if n < base then [Glyph(n)] else Show(n / base, base) + [Glyph(n % base)]
  }

  /** A value of at least the base is written as its quotient followed by one
      last digit, and the quotient is positive. */
  lemma ShowStep(n: nat, base: nat)
    requires 2 <= base <= 16 && n >= base
    ensures 0 < n / base < n && n % base < base
    ensures Show(n, base) == Show(n / base, base) + [Glyph(n % base)]
  {
    DivMod(n, base);
  }

  /** Every character written is a digit of the base, and there is no
      leading zero except in "0". */
  lemma {:induction false} ShowDigits(n: nat, base: nat)
    requires 2 <= base <= 16
    ensures |Show(n, base)| > 0 && AllDigitsIn(Show(n, base), base)
    ensures n == 0 ==> Show(n, base) == "0"
    ensures n > 0 ==> Show(n, base)[0] != '0'
    decreases n
  {
    if n >= base {
      ShowStep(n, base);
      var high := Show(n / base, base);
      var low := Glyph(n % base);
      ShowDigits(n / base, base);
      AppendDigit(high, low, base);
      assert (high + [low])[0] == high[0];
    }
  }

  /** Rendering then reading gives the value back. */
  lemma {:induction false} ShowValue(n: nat, base: nat)
    requires 2 <= base <= 16
    ensures Value(Show(n, base), base) == n
    decreases n
  {
    if n >= base {
      var q, r := n / base, n % base;
      DivMod(n, base);
      ShowValue(q, base);
      ShowDigits(q, base);
      var high := Show(q, base);
      var low := Glyph(r);
      AppendDigit(high, low, base);
      calc {
        Value(Show(n, base), base);
        Value(high + [low], base);
        Value(high, base) * base + DigitValue(low);
        q * base + r;
        n;
      }
    }
  }

  /** Rendering then extracting gives the value back. */
  lemma ShowRoundTrip(n: nat, base: nat)
    requires 2 <= base <= 16
    ensures Numeral(Show(n, base), base) == n
  {
    ShowDigits(n, base);
    ShowValue(n, base);
  }
}
