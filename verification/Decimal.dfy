/** Integers as Python's `str` writes them, and back. */
module Decimal {
  import opened Common

  function Digit(d: nat): char
    requires d < 10
  {
    '0' + d as char
  }

  predicate IsDigit(c: char) { '0' <= c <= '9' }

  /** The decimal digits of a natural number, without leading zeros. */
  function Digits(n: nat): (s: string)
    ensures s != [] && forall i :: 0 <= i < |s| ==> IsDigit(s[i])
  {
    if n < 10 then [Digit(n)] else Digits(n / 10) + [Digit(n % 10)]
  }

  function Str(n: int): (s: string)
    ensures s != []
    ensures if n < 0 then s[0] == '-' else IsDigit(s[0])
  {
    if n < 0 then "-" + Digits(-n) else Digits(n)
  }

  function Value(s: string): int
    requires forall i :: 0 <= i < |s| ==> IsDigit(s[i])
  {
    if s == [] then 0 else 10 * Value(s[..|s| - 1]) + (s[|s| - 1] as int - '0' as int)
  }

  function Parse(s: string): Option<int> {
    if s != [] && forall i :: 0 <= i < |s| ==> IsDigit(s[i]) then Some(Value(s))
    else if |s| > 1 && s[0] == '-' && forall i :: 1 <= i < |s| ==> IsDigit(s[i]) then Some(-Value(s[1..]))
    else None
  }

  lemma {:induction false} ValueOfDigits(n: nat)
    ensures Value(Digits(n)) == n
  {
    if n >= 10 {
      ValueOfDigits(n / 10);
      assert Digits(n)[..|Digits(n)| - 1] == Digits(n / 10);
    }
  }

  lemma ParseDigits(s: string)
    requires s != [] && forall i :: 0 <= i < |s| ==> IsDigit(s[i])
    ensures Parse(s) == Some(Value(s)) && Parse("-" + s) == Some(-Value(s))
  {
    var t := "-" + s;
    assert t[1..] == s && t[0] == '-' && !IsDigit(t[0]);
    assert forall i :: 1 <= i < |t| ==> t[i] == s[i - 1];
  }

  /** Reading back what was written gives the number back. */
  lemma ParseStr(n: int)
    ensures Parse(Str(n)) == Some(n)
  {
    var m := if n < 0 then -n else n;
    ValueOfDigits(m);
    ParseDigits(Digits(m));
  }

  /** Different numbers are written differently. */
  lemma StrInjective(m: int, n: int)
    requires Str(m) == Str(n)
    ensures m == n
  {
    ParseStr(m);
    ParseStr(n);
  }

  /** The writing in plain terms: one digit each, the last one last, a sign before a negative number. */
  lemma StrDigits(n: int, d: nat)
    requires n >= 0 && d < 10
    ensures Str(d) == ["0123456789"[d]]
    ensures n > 0 ==> Str(10 * n + d) == Str(n) + Str(d)
    ensures n > 0 ==> Str(-n) == "-" + Str(n)
  {
    assert (10 * n + d) / 10 == n && (10 * n + d) % 10 == d;
    assert "0123456789"[d] == '0' + d as char;
  }
}
