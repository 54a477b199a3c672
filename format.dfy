/** Decimal rendering of integers, as Python's f-strings do for `int`
    (used by the indicator display names `SMA_20`, `RSI_14`, ...), and the
    parser that inverts it. */
module Format {

  predicate IsDigit(c: char) { '0' <= c <= '9' }

  function DigitChar(d: int): (c: char)
    requires 0 <= d < 10
    ensures IsDigit(c) && c as int - '0' as int == d
  {
    ('0' as int + d) as char
  }

  /** `str(n)` for a natural number: most significant digit first, no leading zeros. */
  function NatToString(n: nat): (s: string)
    ensures |s| > 0 && forall i :: 0 <= i < |s| ==> IsDigit(s[i])
  {
    if n < 10 then [DigitChar(n)] else NatToString(n / 10) + [DigitChar(n % 10)]
  }

  /** `str(n)` for any Python int: a leading '-' for negative numbers. */
  function IntToString(n: int): (s: string)
    ensures |s| > 0
    ensures (s[0] == '-') <==> n < 0
  {
    if n < 0 then "-" + NatToString(-n) else NatToString(n)
  }

  /** The value of a non-empty string of decimal digits. */
  function ParseNat(s: string): nat
    requires |s| > 0 && forall i :: 0 <= i < |s| ==> IsDigit(s[i])
  {
    assert IsDigit(s[|s| - 1]);
    var d := s[|s| - 1] as int - '0' as int;
    if |s| == 1 then d else 10 * ParseNat(s[..|s| - 1]) + d
  }

  /** `int(s)` restricted to the strings IntToString produces. */
  function ParseInt(s: string): int
    requires |s| > 0
    requires s[0] == '-' ==> |s| > 1 && forall i :: 1 <= i < |s| ==> IsDigit(s[i])
    requires s[0] != '-' ==> forall i :: 0 <= i < |s| ==> IsDigit(s[i])
  {
    if s[0] == '-' then -(ParseNat(s[1..]) as int) else ParseNat(s)
  }

  lemma {:induction false} ParseNatToString(n: nat)
    ensures ParseNat(NatToString(n)) == n
  {
    if n >= 10 {
      var s := NatToString(n);
      assert s[..|s| - 1] == NatToString(n / 10);
      ParseNatToString(n / 10);
    }
  }

  /** Text `ParseInt` accepts: an optional '-' followed by one or more
      digits. */
  predicate IntText(s: string) {
    && |s| > 0
    && (s[0] == '-' ==> |s| > 1 && forall i :: 1 <= i < |s| ==> IsDigit(s[i]))
    && (s[0] != '-' ==> forall i :: 0 <= i < |s| ==> IsDigit(s[i]))
  }

  /** Rendering then parsing gives back the number. */
  lemma ParseIntToString(n: int)
    ensures var s := IntToString(n);
      (s[0] == '-' ==> |s| > 1 && forall i :: 1 <= i < |s| ==> IsDigit(s[i])) &&
      (s[0] != '-' ==> forall i :: 0 <= i < |s| ==> IsDigit(s[i])) &&
      ParseInt(s) == n
  {
    if n < 0 {
      var s := IntToString(n);
      assert s[1..] == NatToString(-n);
      ParseNatToString(-n);
    } else {
      ParseNatToString(n);
    }
  }

  /** Distinct numbers render differently. */
  lemma IntToStringInjective(a: int, b: int)
    requires IntToString(a) == IntToString(b)
    ensures a == b
  {
    ParseIntToString(a);
    ParseIntToString(b);
  }

  /** Distinct numbers give distinct names under one prefix (`SMA_20` vs `SMA_50`). */
  lemma PrefixedNameInjective(prefix: string, a: int, b: int)
    requires prefix + IntToString(a) == prefix + IntToString(b)
    ensures a == b
  {
    assert (prefix + IntToString(a))[|prefix|..] == IntToString(a);
    assert (prefix + IntToString(b))[|prefix|..] == IntToString(b);
    IntToStringInjective(a, b);
  }
}
