/** Decimal rendering of a number, as the formatting of ports and group numbers does it. */
module Decimals {
  function Digit(d: nat): char
    requires d < 10
  {
    '0' + d as char
  }

  function Decimal(n: nat): (s: string)
    ensures s != [] && forall i :: 0 <= i < |s| ==> '0' <= s[i] <= '9'
  {
    if n < 10 then [Digit(n)] else Decimal(n / 10) + [Digit(n % 10)]
  }

  /** The number a text of digits denotes. */
  function Value(s: string): nat
    requires forall i :: 0 <= i < |s| ==> '0' <= s[i] <= '9'
  {
    if s == [] then 0
    else 10 * Value(s[..|s| - 1]) + (s[|s| - 1] as int - '0' as int)
  }

  lemma {:induction false} ValueOfDecimal(n: nat)
    ensures Value(Decimal(n)) == n
  {
    if n >= 10 {
      ValueOfDecimal(n / 10);
      assert Decimal(n)[..|Decimal(n)| - 1] == Decimal(n / 10);
    }
  }

  lemma DecimalInjective(m: nat, n: nat)
    requires Decimal(m) == Decimal(n)
    ensures m == n
  {
    ValueOfDecimal(m);
    ValueOfDecimal(n);
  }

  /** A text is cut in one way only at its last separator. */
  lemma CutAtLast(a: string, b: string, c: char, d: string, e: string)
    requires c !in b && c !in e
    requires a + [c] + b == d + [c] + e
    ensures a == d && b == e
  {
    var whole := a + [c] + b;
    assert whole[|a|] == c && whole[|d|] == (d + [c] + e)[|d|] == c;
    assert |b| == |e|;
    assert a == whole[..|a|] && d == whole[..|d|];
    assert b == whole[|a| + 1..] && e == whole[|d| + 1..];
  }
}
