// Value types and arithmetic shared by the models.

module Common {

  datatype Option<+T> = None | Some(value: T) {
    function GetOr(default: T): T { if Some? then value else default }
  }

  function Pow2(n: nat): (p: nat)
    ensures p >= 1
  {
    if n == 0 then 1 else 2 * Pow2(n - 1)
  }

  lemma {:induction false} Pow2Sum(m: nat, n: nat)
    ensures Pow2(m + n) == Pow2(m) * Pow2(n)
  {
    if n == 0 {
    } else {
      Pow2Sum(m, n - 1);
      MulAssoc(2, Pow2(m), Pow2(n - 1));
    }
  }

  lemma {:induction false} Pow2Table()
    ensures Pow2(4) == 16 && Pow2(28) == 0x1000_0000 && Pow2(29) == 0x2000_0000 && Pow2(30) == 0x4000_0000 && Pow2(32) == 0x1_0000_0000
  {
    assert Pow2(4) == 16;
    Pow2Sum(4, 4);
    Pow2Sum(8, 8);
    Pow2Sum(16, 8);
    Pow2Sum(24, 4);
    Pow2Sum(28, 4);
  }

  lemma {:induction false} InsertMultiset<T>(a: seq<T>, j: nat, x: T)
    requires j <= |a|
    ensures multiset(a[..j] + [x] + a[j..]) == multiset(a) + multiset{x}
  {
    assert a == a[..j] + a[j..];
  }

  lemma {:induction false} MulAssoc(a: int, b: int, c: int)
    ensures a * (b * c) == (a * b) * c == b * (a * c)
  {
  }

  lemma {:induction false} Pow2Monotone(m: nat, n: nat)
    requires m <= n
    ensures Pow2(m) <= Pow2(n)
    decreases n
  {
    if m < n { Pow2Monotone(m, n - 1); }
  }

  /** Equal quotients by p mean: inside the aligned window of p values that starts at b. */
  lemma {:induction false} AlignedWindow(a: nat, b: nat, p: nat)
    requires p >= 1 && b % p == 0
    ensures a / p == b / p <==> b <= a < b + p
  {
    var q, t := b / p, a / p;
    assert b == p * q;
    assert a == p * t + a % p;
    if t < q { MulGap(p, t, q); }
    if q < t { MulGap(p, q, t); }
  }

  lemma {:induction false} MulGap(p: nat, x: int, y: int)
    requires x < y
    ensures p * x + p <= p * y
    decreases y - x
  {
    assert p * y == p * (y - 1) + p;
    if x < y - 1 { MulGap(p, x, y - 1); }
  }

  lemma {:induction false} DivDiv(v: nat, p: nat, q: nat)
    requires p >= 1 && q >= 1
    ensures p * q >= 1 && (v / p) / q == v / (p * q)
  {
    var a, r := v / p, v % p;
    var b, s := a / q, a % q;
    assert v == p * a + r && a == q * b + s;
    MulAssoc(p, q, b);
    assert v == (p * q) * b + (p * s + r) by { assert p * (q * b + s) == p * (q * b) + p * s; }
    assert p * s + r < p * q by { MulGap(p, s, q); }
    assert p * s >= 0;
    DivUnique(v, p * q, b, p * s + r);
  }

  lemma {:induction false} DivUnique(v: int, d: int, q: int, r: int)
    requires d > 0 && 0 <= r < d && v == d * q + r
    ensures v / d == q && v % d == r
  {
    var q', r' := v / d, v % d;
    assert v == d * q' + r';
    if q' < q { MulGap(d, q', q); }
    if q < q' { MulGap(d, q, q'); }
  }

  // ---- Rearranged sequences ----

  lemma {:induction false} Twice<T>(s: seq<T>, x: T)
    requires multiset(s)[x] >= 2
    ensures exists i, j :: 0 <= i < j < |s| && s[i] == x && s[j] == x
  {
    var n := |s| - 1;
    assert s == s[..n] + [s[n]];
    if s[n] == x {
      assert x in multiset(s[..n]);
      assert x in s[..n];
      var i :| 0 <= i < n && s[i] == x;
      assert s[i] == x && s[n] == x;
    } else {
      Twice(s[..n], x);
      var i, j :| 0 <= i < j < n && s[..n][i] == x && s[..n][j] == x;
      assert s[i] == x && s[j] == x;
    }
  }

  lemma {:induction false} CountTwo<T>(s: seq<T>, a: nat, b: nat)
    requires a < b < |s| && s[a] == s[b]
    ensures multiset(s)[s[a]] >= 2
  {
    assert s == s[..b] + [s[b]] + s[b + 1..];
    assert s[a] in s[..b];
    assert s[a] in multiset(s[..b]);
  }

  /** Two places of a rearranged sequence hold what any two places of the first held. */
  lemma {:induction false} PairKept<T>(all: seq<T>, out: seq<T>, a: nat, b: nat) returns (i: nat, j: nat)
    requires multiset(out) == multiset(all) && a < b < |all|
    ensures i < j < |out| && ((out[i] == all[a] && out[j] == all[b]) || (out[i] == all[b] && out[j] == all[a]))
  {
    if all[a] == all[b] {
      CountTwo(all, a, b);
      Twice(out, all[a]);
      i, j :| 0 <= i < j < |out| && out[i] == all[a] && out[j] == all[a];
    } else {
      assert all[a] in multiset(out) && all[b] in multiset(out);
      var p :| 0 <= p < |out| && out[p] == all[a];
      var q :| 0 <= q < |out| && out[q] == all[b];
      i, j := if p < q then p else q, if p < q then q else p;
    }
  }
}
