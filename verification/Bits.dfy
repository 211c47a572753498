// tools/socgen/emit/databus.go: the bit strings that device prefixes are cut from.

module BitStrings {
  import opened Common

  /** The low n bits of v, most significant first. */
  function Bits(v: nat, n: nat): (s: string)
    ensures |s| == n
    ensures forall i :: 0 <= i < n ==> s[i] == '0' || s[i] == '1'
  {
    if n == 0 then "" else Bits(v / 2, n - 1) + [if v % 2 == 1 then '1' else '0']
  }

  lemma {:induction false} BitsAt(v: nat, n: nat, i: nat)
    requires i < n
    ensures Bits(v, n)[i] == if (v / Pow2(n - 1 - i)) % 2 == 1 then '1' else '0'
  {
    if i == n - 1 {
    } else {
      BitsAt(v / 2, n - 1, i);
      DivDiv(v, 2, Pow2(n - 2 - i));
    }
  }

  /** Dropping the last k bits of the string is dividing the number by 2^k. */
  lemma {:induction false} BitsTake(v: nat, n: nat, k: nat)
    requires k <= n
    ensures Bits(v, n)[..n - k] == Bits(v / Pow2(k), n - k)
  {
    if k == 0 {
      assert Bits(v, n)[..n] == Bits(v, n);
    } else {
      BitsTake(v / 2, n - 1, k - 1);
      DivDiv(v, 2, Pow2(k - 1));
      assert Bits(v, n)[..n - k] == Bits(v / 2, n - 1)[..n - k];
    }
  }

  lemma {:induction false} BitsInjective(x: nat, y: nat, n: nat)
    requires x < Pow2(n) && y < Pow2(n)
    requires Bits(x, n) == Bits(y, n)
    ensures x == y
  {
    if n == 0 {
    } else {
      var a, b := Bits(x / 2, n - 1), Bits(y / 2, n - 1);
      assert Bits(x, n)[..n - 1] == a && Bits(y, n)[..n - 1] == b;
      assert Bits(x, n)[n - 1] == Bits(y, n)[n - 1];
      BitsInjective(x / 2, y / 2, n - 1);
    }
  }

  /** Multiples of 2^m do not show in the low n bits. */
  lemma {:induction false} BitsIgnoreHigh(low: nat, q: nat, n: nat, m: nat)
    requires n <= m
    ensures Bits(low + Pow2(m) * q, n) == Bits(low, n)
  {
    if n > 0 {
      var h := Pow2(m - 1) * q;
      assert Pow2(m) * q == 2 * h by { MulAssoc(2, Pow2(m - 1), q); }
      assert (low + 2 * h) / 2 == low / 2 + h && (low + 2 * h) % 2 == low % 2;
      BitsIgnoreHigh(low / 2, q, n - 1, m - 1);
    }
  }

  /** bin32: the source fills a 32-byte buffer bit by bit. */
  method Bin32(v: nat) returns (s: string)
    ensures s == Bits(v, 32)
  {
    var b := new char[32];
    for i := 0 to 32
      invariant b[..i] == Bits(v, 32)[..i]
    {
      BitsAt(v, 32, i);
      if (v / Pow2(31 - i)) % 2 != 0 {
        b[i] := '1';
      } else {
        b[i] := '0';
      }
      assert b[..i + 1] == b[..i] + [b[i]];
    }
    assert b[..] == b[..32];
    s := b[..];
  }
}
