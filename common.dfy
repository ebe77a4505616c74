/** Values shared by the whole model: an Option type, bytes, and the decimal
    rendering of integers that QString::number and QString::arg produce. */
module Common {

  datatype Option<+T> = None | Some(value: T)

  newtype byte = x: int | 0 <= x < 256

  /** The character of one decimal digit. */
  function DigitChar(d: nat): (c: char)
    requires d < 10
    ensures '0' <= c <= '9' && c as int - '0' as int == d
  {
    ('0' as int + d) as char
  }

  predicate IsDigit(c: char) {
    '0' <= c <= '9'
  }

  /** Decimal digits of n, most significant first, without leading zeros. */
  function NatToString(n: nat): (s: string)
    ensures |s| > 0
    ensures forall i :: 0 <= i < |s| ==> IsDigit(s[i])
    ensures n < 10 <==> |s| == 1
  {
    if n < 10 then [DigitChar(n)] else NatToString(n / 10) + [DigitChar(n % 10)]
  }

  /** Decimal rendering of an int: a '-' in front of negative numbers. */
  function IntToString(n: int): (s: string)
    ensures |s| > 0
    ensures forall i :: 0 <= i < |s| ==> IsDigit(s[i]) || s[i] == '-'
    ensures (n < 0) <==> s[0] == '-'
  {
    if n < 0 then "-" + NatToString(-n) else NatToString(n)
  }

  function DigitValue(c: char): (d: nat)
    requires IsDigit(c)
    ensures d < 10 && DigitChar(d) == c
  {
    c as int - '0' as int
  }

  /** Reads a string of decimal digits back as a number (the partner of NatToString). */
  function ParseNat(s: string): nat
    requires forall i :: 0 <= i < |s| ==> IsDigit(s[i])
  {
    if |s| == 0 then 0
    else ParseNat(s[..|s| - 1]) * 10 + DigitValue(s[|s| - 1])
  }

  lemma {:induction false} ParseNatOfNatToString(n: nat)
    ensures ParseNat(NatToString(n)) == n
  {
    if n >= 10 {
      var s := NatToString(n);
      var prefix := NatToString(n / 10);
      assert s == prefix + [DigitChar(n % 10)];
      assert s[..|s| - 1] == prefix;
      ParseNatOfNatToString(n / 10);
    }
  }

  /** A negative number prints as a '-' followed by the digits of its magnitude. */
  lemma NegativeDigits(n: int)
    requires n < 0
    ensures IntToString(n)[1..] == NatToString(-n)
  {
    var d := NatToString(-n);
    assert ("-" + d)[1..] == d;
  }

  /** Different numbers never print the same. */
  lemma IntToStringInjective(a: int, b: int)
    requires IntToString(a) == IntToString(b)
    ensures a == b
  {
    if a < 0 {
      assert b < 0;
      NegativeDigits(a);
      NegativeDigits(b);
      ParseNatOfNatToString(-a);
      ParseNatOfNatToString(-b);
    } else {
      assert b >= 0;
      ParseNatOfNatToString(a);
      ParseNatOfNatToString(b);
    }
  }

  /** Equal strings with the same prefix agree after it. */
  lemma PrefixCancel(p: string, x: string, y: string)
    requires p + x == p + y
    ensures x == y
  {
    assert x == (p + x)[|p|..];
    assert y == (p + y)[|p|..];
  }

  /** In h + ([sep] + t) with no sep in h, the first sep sits at |h|. */
  lemma SeparatorPosition(h: string, t: string, sep: char)
    ensures (h + ([sep] + t))[|h|] == sep
    ensures forall i :: 0 <= i < |h| ==> (h + ([sep] + t))[i] == h[i]
  {
  }

  /** A separator that occurs in neither head splits a string in one place only. */
  lemma SplitAtSeparator(a: string, b: string, c: string, d: string, sep: char)
    requires sep !in a && sep !in c
    requires a + ([sep] + b) == c + ([sep] + d)
    ensures a == c && b == d
  {
    var s := a + ([sep] + b);
    SeparatorPosition(a, b, sep);
    SeparatorPosition(c, d, sep);
    if |a| != |c| {
      assert false;
    }
    assert a == s[..|a|];
    assert c == s[..|c|];
    assert b == s[|a| + 1..];
    assert d == s[|c| + 1..];
  }

  lemma NoSeparatorInNumber(n: int, sep: char)
    requires sep != '-' && !IsDigit(sep)
    ensures sep !in IntToString(n)
  {
  }
}
