// Decimal notation, as Go's %d writes it.

module Decimal {

  function Digit(d: nat): char
    requires d < 10
  {
    ('0' as int + d) as char
  }

  predicate IsDigits(s: string) { forall i :: 0 <= i < |s| ==> '0' <= s[i] <= '9' }

  function Dec(n: nat): (s: string)
    ensures |s| >= 1 && IsDigits(s)
  {
    if n < 10 then [Digit(n)] else Dec(n / 10) + [Digit(n % 10)]
  }

  function Value(s: string): nat
    requires IsDigits(s)
  {
    if s == "" then 0
    else 10 * Value(s[..|s| - 1]) + (s[|s| - 1] as int - '0' as int)
  }

  /** Reading back the digits; no number but 0 starts with the digit 0. */
  lemma {:induction false} ValueOfDec(n: nat)
    ensures Value(Dec(n)) == n && (n > 0 ==> Dec(n)[0] != '0')
  {
    if n >= 10 {
      ValueOfDec(n / 10);
      assert Dec(n)[..|Dec(n)| - 1] == Dec(n / 10);
    } else {
      assert Value([]) == 0 && [Digit(n)][..0] == [];
    }
  }

  function IntText(i: int): (s: string)
    ensures forall c :: c in s ==> c == '-' || '0' <= c <= '9'
  {
    if i < 0 then "-" + Dec(-i) else Dec(i)
  }

  lemma {:induction false} Sign(i: int)
    ensures IntText(i)[0] == '-' <==> i < 0
  {
  }

  lemma {:induction false} IntTextInjective(i: int, j: int)
    requires IntText(i) == IntText(j)
    ensures i == j
  {
    Sign(i);
    Sign(j);
    ValueOfDec(if i < 0 then -i else i);
    ValueOfDec(if j < 0 then -j else j);
    assert i < 0 ==> IntText(i)[1..] == Dec(-i);
    assert j < 0 ==> IntText(j)[1..] == Dec(-j);
  }

  /** Two texts cut at their first x. */
  lemma {:induction false} Cut(a: string, b: string, x: char, r: string, s: string)
    requires a + [x] + r == b + [x] + s && x !in a && x !in b
    ensures a == b && r == s
  {
    var t := a + [x] + r;
    assert t[|a|] == x && t[|b|] == x;
    assert forall i :: 0 <= i < |a| ==> t[i] == a[i] && a[i] in a;
    assert forall i :: 0 <= i < |b| ==> t[i] == b[i] && b[i] in b;
    assert t[..|a|] == a && t[..|b|] == b;
    assert t[|a| + 1..] == r && t[|b| + 1..] == s;
  }
}
