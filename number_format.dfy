/**
 * How a std::stringstream renders a non-negative integer under std::hex or
 * std::dec with the default flags: lower-case digits, no base prefix, no
 * leading zeros, "0" for zero. FromDigits reads such a rendering back.
 */
module NumberFormat {

  /** True when c is a digit of the given radix (2 .. 16, lower-case letters). */
  predicate IsDigit(c: char, radix: nat) {
    || ('0' <= c <= '9' && (c as int) - ('0' as int) < radix)
    || ('a' <= c <= 'f' && (c as int) - ('a' as int) + 10 < radix)
  }

  /** The value of a digit character (0 for a character that is none). */
  function DigitValue(c: char, radix: nat): (v: nat)
    ensures IsDigit(c, radix) ==> v < radix
  {
    if '0' <= c <= '9' then (c as int) - ('0' as int)
    else if 'a' <= c <= 'f' then (c as int) - ('a' as int) + 10
    else 0
  }

  /** The character of a digit value. */
  function DigitChar(d: nat, radix: nat): (c: char)
    requires d < radix <= 16
    ensures IsDigit(c, radix) && DigitValue(c, radix) == d
  {
    if d < 10 then ((('0' as int) + d) as char) else ((('a' as int) + d - 10) as char)
  }

  predicate AllDigits(s: string, radix: nat) {
    forall i :: 0 <= i < |s| ==> IsDigit(s[i], radix)
  }

  /** The rendering of n in the given radix, most significant digit first. */
  function ToDigits(n: nat, radix: nat): (s: string)
    requires 2 <= radix <= 16
    ensures |s| >= 1 && AllDigits(s, radix)
    ensures (n == 0) == (s[0] == '0')
    decreases n
  {
    if n < radix then [DigitChar(n, radix)]
    else ToDigits(n / radix, radix) + [DigitChar(n % radix, radix)]
  }

  /** The value of a string of digits, most significant digit first. */
  function FromDigits(s: string, radix: nat): nat
  {
    if s == [] then 0
    else FromDigits(s[..|s| - 1], radix) * radix + DigitValue(s[|s| - 1], radix)
  }

  /** Reading a hexadecimal rendering back gives the number rendered. */
  lemma {:induction false} FromToHexDigits(n: nat)
    ensures FromDigits(ToDigits(n, 16), 16) == n
    decreases n
  {
    if n < 16 {
      assert ToDigits(n, 16)[..0] == [];
    } else {
      var q, d := n / 16, n % 16;
      calc {
        FromDigits(ToDigits(n, 16), 16);
        FromDigits(ToDigits(q, 16) + [DigitChar(d, 16)], 16);
        { FromDigitsAppend(ToDigits(q, 16), DigitChar(d, 16), 16); }
        FromDigits(ToDigits(q, 16), 16) * 16 + d;
        { FromToHexDigits(q); }
        q * 16 + d;
        { DivMod(n, 16); }
        n;
      }
    }
  }

  /** Reading a decimal rendering back gives the number rendered. */
  lemma {:induction false} FromToDecDigits(n: nat)
    ensures FromDigits(ToDigits(n, 10), 10) == n
    decreases n
  {
    if n < 10 {
      assert ToDigits(n, 10)[..0] == [];
    } else {
      var q, d := n / 10, n % 10;
      calc {
        FromDigits(ToDigits(n, 10), 10);
        FromDigits(ToDigits(q, 10) + [DigitChar(d, 10)], 10);
        { FromDigitsAppend(ToDigits(q, 10), DigitChar(d, 10), 10); }
        FromDigits(ToDigits(q, 10), 10) * 10 + d;
        { FromToDecDigits(q); }
        q * 10 + d;
        { DivMod(n, 10); }
        n;
      }
    }
  }

  /** Appending a digit multiplies by the radix and adds the digit. */
  lemma FromDigitsAppend(s: string, c: char, radix: nat)
    ensures FromDigits(s + [c], radix) == FromDigits(s, radix) * radix + DigitValue(c, radix)
  {
    assert (s + [c])[..|s|] == s;
  }

  lemma DivMod(n: nat, radix: nat)
    requires 2 <= radix
    ensures (n / radix) * radix + n % radix == n
  {
  }

  /** The longest prefix of s made of digits of the radix. */
  function LeadingDigits(s: string, radix: nat): (d: string)
    ensures AllDigits(d, radix) && d <= s
    ensures |d| < |s| ==> !IsDigit(s[|d|], radix)
  {
    if s != [] && IsDigit(s[0], radix) then [s[0]] + LeadingDigits(s[1..], radix) else []
  }

  /** The digits are cut exactly where a non-digit follows them. */
  lemma {:induction false} LeadingDigitsOfConcat(d: string, rest: string, radix: nat)
    requires AllDigits(d, radix)
    requires rest != [] && !IsDigit(rest[0], radix)
    ensures LeadingDigits(d + rest, radix) == d
  {
    if d != [] {
      assert (d + rest)[1..] == d[1..] + rest;
      LeadingDigitsOfConcat(d[1..], rest, radix);
    }
  }
}
