/**
 * The string helpers the message templates use: the short order id
 * (`substring(0, 8)`), the two-decimal amount (`toFixed(2)`) and `trim()`.
 */
module Text {
  import opened Wrappers

  /** `id.substring(0, 8)`: the first eight characters, or all of a shorter id. */
  function ShortId(id: string): (r: string)
    ensures |r| == if |id| < 8 then |id| else 8
    ensures r <= id
  {
    if |id| < 8 then id else id[..8]
  }

  // ---------------------------------------------------------------------
  // Amounts. `totalAmount` is modelled in integer cents, so `toFixed(2)`
  // is exact: an optional minus sign, the whole units, a point and two
  // digits of cents.

  predicate IsDigit(c: char)
  {
    '0' <= c <= '9'
  }

  function DigitChar(d: int): (c: char)
    requires 0 <= d < 10
    ensures IsDigit(c) && c as int - '0' as int == d
  {
    (d + '0' as int) as char
  }

  function DigitValue(c: char): (d: int)
    requires IsDigit(c)
    ensures 0 <= d < 10
  {
    c as int - '0' as int
  }

  /** The decimal digits of `n`, without leading zeros. */
  function NatToString(n: nat): (s: string)
    ensures |s| > 0
    ensures forall i :: 0 <= i < |s| ==> IsDigit(s[i])
  {
    if n < 10 then [DigitChar(n)] else NatToString(n / 10) + [DigitChar(n % 10)]
  }

  /** The value of a string of decimal digits. */
  function ParseDigits(s: string): nat
    requires forall i :: 0 <= i < |s| ==> IsDigit(s[i])
  {
    if s == [] then 0 else ParseDigits(s[..|s| - 1]) * 10 + DigitValue(s[|s| - 1])
  }

  lemma {:induction false} ParseNatToString(n: nat)
    ensures ParseDigits(NatToString(n)) == n
  {
    var s := NatToString(n);
    if n >= 10 {
      assert s[..|s| - 1] == NatToString(n / 10);
      ParseNatToString(n / 10);
    }
  }

  /** `(cents / 100).toFixed(2)` for an amount held in whole cents. */
  function Fixed2(cents: int): (r: string)
    ensures |r| >= 4 && r[|r| - 3] == '.'
    ensures (r[0] == '-') <==> cents < 0
  {
    var m: nat := if cents < 0 then -cents else cents;
    var t := NatToString(m / 100) + "." + [DigitChar(m % 100 / 10), DigitChar(m % 10)];
    if cents < 0 then "-" + t else t
  }

  predicate AllDigits(s: string)
  {
    forall i :: 0 <= i < |s| ==> IsDigit(s[i])
  }

  /** Reads back an amount written as by `Fixed2`; `None` for any other text. */
  function ParseFixed2(s: string): Option<int>
  {
    var neg := |s| > 0 && s[0] == '-';
    var t := if neg then s[1..] else s;
    if |t| < 4 || t[|t| - 3] != '.' || !AllDigits(t[..|t| - 3]) || !AllDigits(t[|t| - 2..]) then None
    else
      var v := ParseDigits(t[..|t| - 3]) * 100 + ParseDigits(t[|t| - 2..]);
      Some(if neg then -v else v)
  }

  lemma TwoDigits(a: nat, b: nat)
    requires a < 10 && b < 10
    ensures ParseDigits([DigitChar(a), DigitChar(b)]) == 10 * a + b
  {
    var frac := [DigitChar(a), DigitChar(b)];
    assert frac[..1] == [frac[0]];
    assert [frac[0]][..0] == [];
    assert ParseDigits([frac[0]]) == DigitValue(frac[0]);
    assert ParseDigits(frac) == ParseDigits(frac[..1]) * 10 + DigitValue(frac[1]);
  }

  lemma {:induction false} ParseUnsigned(m: nat)
    ensures var t := NatToString(m / 100) + "." + [DigitChar(m % 100 / 10), DigitChar(m % 10)];
      |t| >= 4 && t[|t| - 3] == '.' && t[0] != '-' &&
      AllDigits(t[..|t| - 3]) && AllDigits(t[|t| - 2..]) &&
      ParseDigits(t[..|t| - 3]) * 100 + ParseDigits(t[|t| - 2..]) == m
  {
    var w := NatToString(m / 100);
    var frac := [DigitChar(m % 100 / 10), DigitChar(m % 10)];
    var t := w + "." + frac;
    assert t[..|t| - 3] == w;
    assert t[|t| - 2..] == frac;
    ParseNatToString(m / 100);
    TwoDigits(m % 100 / 10, m % 10);
    assert m % 100 == 10 * (m % 100 / 10) + m % 10;
  }

  /** An unsigned amount text reads back as its value, and with a leading '-' as its negation. */
  lemma ParseSigned(t: string, v: int)
    requires |t| >= 4 && t[|t| - 3] == '.' && t[0] != '-'
    requires AllDigits(t[..|t| - 3]) && AllDigits(t[|t| - 2..])
    requires ParseDigits(t[..|t| - 3]) * 100 + ParseDigits(t[|t| - 2..]) == v
    ensures ParseFixed2(t) == Some(v)
    ensures ParseFixed2("-" + t) == Some(-v)
  {
    assert ("-" + t)[1..] == t;
  }

  /** The amount text determines the amount: `Fixed2` loses nothing. */
  lemma {:induction false} Fixed2RoundTrip(cents: int)
    ensures ParseFixed2(Fixed2(cents)) == Some(cents)
  {
    var m: nat := if cents < 0 then -cents else cents;
    var t := NatToString(m / 100) + "." + [DigitChar(m % 100 / 10), DigitChar(m % 10)];
    ParseUnsigned(m);
    ParseSigned(t, m);
    assert Fixed2(cents) == if cents < 0 then "-" + t else t;
  }

  /** `t` is a final part of `s`. */
  predicate EndsWith(s: string, t: string)
  {
    |t| <= |s| && s[|s| - |t|..] == t
  }

  /** The three parts of `a + b + c` can be read back by position. */
  lemma Concat3(a: string, b: string, c: string)
    ensures var s := a + b + c;
      |s| == |a| + |b| + |c| && a <= s && s[|a|..|a| + |b|] == b && EndsWith(s, c)
  {
    var s := a + b + c;
    assert s[|a|..|a| + |b|] == b;
    assert s[|s| - |c|..] == c;
  }

  // ---------------------------------------------------------------------
  // `String.prototype.trim`: removes white space and line terminators at
  // both ends.

  predicate IsJsSpace(c: char)
  {
    var n := c as int;
    (0x09 <= n <= 0x0D) || n == 0x20 || n == 0xA0 || n == 0x1680 ||
    (0x2000 <= n <= 0x200A) || n == 0x2028 || n == 0x2029 || n == 0x202F ||
    n == 0x205F || n == 0x3000 || n == 0xFEFF
  }

  /** Drops the leading white space: what is left is a suffix that starts with none. */
  function TrimStart(s: string): (r: string)
    ensures |r| <= |s| && r == s[|s| - |r|..]
    ensures r != [] ==> !IsJsSpace(r[0])
    ensures forall i :: 0 <= i < |s| - |r| ==> IsJsSpace(s[i])
  {
    if s != [] && IsJsSpace(s[0]) then TrimStart(s[1..]) else s
  }

  /** Drops the trailing white space: what is left is a prefix that ends with none. */
  function TrimEnd(s: string): (r: string)
    ensures |r| <= |s| && r == s[..|r|]
    ensures r != [] ==> !IsJsSpace(r[|r| - 1])
    ensures forall i :: |r| <= i < |s| ==> IsJsSpace(s[i])
  {
    if s != [] && IsJsSpace(s[|s| - 1]) then TrimEnd(s[..|s| - 1]) else s
  }

  /** How many white-space characters `s` starts with. */
  function LeadingSpaces(s: string): (n: nat)
    ensures n <= |s|
  {
    |s| - |TrimStart(s)|
  }

  /** `s.trim()`: the middle part of `s`, with only white space cut from either end. */
  function Trim(s: string): (r: string)
    ensures r != [] ==> !IsJsSpace(r[0]) && !IsJsSpace(r[|r| - 1])
    ensures LeadingSpaces(s) + |r| <= |s| && r == s[LeadingSpaces(s)..LeadingSpaces(s) + |r|]
    ensures forall k :: 0 <= k < LeadingSpaces(s) ==> IsJsSpace(s[k])
    ensures forall k :: LeadingSpaces(s) + |r| <= k < |s| ==> IsJsSpace(s[k])
  {
    TrimEnd(TrimStart(s))
  }
}
