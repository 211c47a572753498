// targets/boards/icesugar/rom/uart_io.c and coremark/uart_report.c: the record the board writes.

module UartReport {
  import opened Common
  import opened Decimal

  const WORD: nat := 0x1_0000_0000

  /** 10^n, and 16^n below. */
  function Pow10(n: nat): (p: nat)
    ensures p >= 1
  {
    if n == 0 then 1 else 10 * Pow10(n - 1)
  }

  function HexDigit(d: nat): char
    requires d < 16
  {
    if d < 10 then ('0' as int + d) as char else ('a' as int + d - 10) as char
  }

  /** The low n hex digits of v. */
  function Hex(v: nat, n: nat): (s: string)
    ensures |s| == n && forall i :: 0 <= i < n ==> '0' <= s[i] <= '9' || 'a' <= s[i] <= 'f'
  {
    if n == 0 then "" else Hex(v / 16, n - 1) + [HexDigit(v % 16)]
  }

  function Pow16(n: nat): (p: nat)
    ensures p >= 1
  {
    if n == 0 then 1 else 16 * Pow16(n - 1)
  }

  lemma {:induction false} HexFront(v: nat, n: nat)
    requires n >= 1
    ensures Hex(v, n) == [HexDigit(v / Pow16(n - 1) % 16)] + Hex(v, n - 1)
  {
    if n == 1 {
      assert Pow16(0) == 1 && Hex(v / 16, 0) == "";
    } else {
      HexFront(v / 16, n - 1);
      DivStep(v, n - 2);
    }
  }

  lemma {:induction false} DivStep(v: nat, n: nat)
    ensures (v / 16) / Pow16(n) == v / Pow16(n + 1)
  {
    DivDiv(v, 16, Pow16(n));
  }

  datatype Record = Record(magic: nat, gitRev: nat, crc: nat, iterations: nat, cycles: nat, clkHz: nat) {
    predicate Fits() { magic < WORD && gitRev < WORD && crc < 0x1_0000 && iterations < WORD && cycles < WORD && clkHz < WORD }
  }

  function FieldLine(key: string, value: string): string { "CMK " + key + "=" + value }

  function HexText(v: nat): string { "0x" + Hex(v, 8) }

  function RecordLines(r: Record): seq<string> {
    [FieldLine("MAGIC", HexText(r.magic)), FieldLine("GITREV", HexText(r.gitRev)), FieldLine("CRC", HexText(r.crc)),
     FieldLine("ITERATIONS", Dec(r.iterations)), FieldLine("CYCLES", Dec(r.cycles)), FieldLine("CLKHZ", Dec(r.clkHz))]
  }

  /** Lines, each with its terminator. */
  function Text(lines: seq<string>): string { if lines == [] then "" else lines[0] + "\r\n" + Text(lines[1..]) }

  lemma {:induction false} TextAppend(a: seq<string>, b: seq<string>)
    ensures Text(a + b) == Text(a) + Text(b)
  {
    if a == [] {
      assert a + b == b;
    } else {
      TextAppend(a[1..], b);
      assert (a + b)[1..] == a[1..] + b;
    }
  }

  lemma {:induction false} TextOne(l: string)
    ensures Text([l]) == l + "\r\n"
  {
    assert Text([]) == "";
  }

  lemma {:induction false} NextDigit(t: string, base: string, high: nat, d: nat)
    requires d < 10 && t == base + if high > 0 then Dec(high) else ""
    ensures t + [Digit(d)] == base + Dec(10 * high + d)
  {
    if high > 0 { DecStep(high, d); }
  }

  /** A leading digit before the digits of the rest. */
  lemma {:induction false} DecStep(high: nat, d: nat)
    requires d < 10 && high > 0
    ensures Dec(10 * high + d) == Dec(high) + [Digit(d)]
  {
  }

  class Uart {
    var tx: string

    constructor ()
      ensures tx == ""
    {
      tx := "";
    }

    method PutC(c: char)
      modifies this
      ensures tx == old(tx) + [c]
    {
      tx := tx + [c];
    }

    method PutS(s: string)
      modifies this
      ensures tx == old(tx) + s
    {
      for i := 0 to |s|
        invariant tx == old(tx) + s[..i]
      {
        PutC(s[i]);
        assert s[..i + 1] == s[..i] + [s[i]];
      }
      assert s[..|s|] == s;
    }

    /** uart_put_hex32: eight digits, from the highest. */
    method PutHex32(v: nat)
      requires v < WORD
      modifies this
      ensures tx == old(tx) + HexText(v)
    {
      PutS("0x");
      var n := 8;
      while n > 0
        invariant 0 <= n <= 8
        invariant tx + Hex(v, n) == old(tx) + HexText(v)
      {
        HexFront(v, n);
        n := n - 1;
        PutC(HexDigit(v / Pow16(n) % 16));
      }
    }

    /** uart_put_dec32: the shortest decimal notation, by at most nine subtractions a digit. */
    method PutDec32(v: nat)
      requires v < WORD
      modifies this
      ensures tx == old(tx) + Dec(v)
    {
      var rest, started := v, false;
      ghost var high: nat := 0;
      PowersOfTen();
      for i := 0 to 10
        invariant Split(v, high, rest, Pow10(10 - i))
        invariant i < 10 ==> started == (high > 0)
        invariant tx == old(tx) + if high > 0 || i == 10 then Dec(high) else ""
      {
        var digit;
        ghost var before := rest;
        digit, rest := Subtract(rest, Pow10(9 - i));
        Shifted(v, high, before, digit, rest, Pow10(9 - i));
        NextDigit(tx, old(tx), high, digit);
        if digit != 0 || started || i == 9 {
          PutC(Digit(digit));
          started := true;
        }
        high := 10 * high + digit;
      }
      assert high == v;
    }

    /** The inner loop, at one power of ten. */
    method Subtract(v: nat, power: nat) returns (digit: nat, rest: nat)
      requires power >= 1 && v < 10 * power
      ensures v == digit * power + rest && rest < power && digit <= 9
    {
      digit, rest := 0, v;
      while rest >= power
        invariant digit * power + rest == v && digit <= 9
      {
        assert (digit + 1) * power == digit * power + power;
        assert digit == 9 ==> v >= 10 * power;
        rest := rest - power;
        digit := digit + 1;
      }
    }

    /** report_result. */
    method Report(r: Record)
      requires r.Fits()
      modifies this
      ensures tx == old(tx) + Text(RecordLines(r) + ["CMK DONE"])
    {
      hide HexText, Dec, Text, FieldLine, Head, Before;
      ghost var ls := RecordLines(r);
      Heads();
      PutS("CMK MAGIC=");
      PutHex32(r.magic);
      First(old(tx), ls, "MAGIC", HexText(r.magic));
      PutS("\r\nCMK GITREV=");
      PutHex32(r.gitRev);
      Seam(old(tx), ls, 1, "GITREV", HexText(r.gitRev));
      PutS("\r\nCMK CRC=");
      PutHex32(r.crc);
      Seam(old(tx), ls, 2, "CRC", HexText(r.crc));
      PutS("\r\nCMK ITERATIONS=");
      PutDec32(r.iterations);
      Seam(old(tx), ls, 3, "ITERATIONS", Dec(r.iterations));
      PutS("\r\nCMK CYCLES=");
      PutDec32(r.cycles);
      Seam(old(tx), ls, 4, "CYCLES", Dec(r.cycles));
      PutS("\r\nCMK CLKHZ=");
      PutDec32(r.clkHz);
      Seam(old(tx), ls, 5, "CLKHZ", Dec(r.clkHz));
      PutS("\r\nCMK DONE\r\n");
      LastLine(old(tx), ls, "CMK DONE");
    }
  }

  /** What the board writes before a value that is not the first. */
  function Head(key: string): string { "\r\nCMK " + key + "=" }

  lemma {:induction false} Heads()
    ensures "\r\nCMK GITREV=" == Head("GITREV") && "\r\nCMK CRC=" == Head("CRC") && "\r\nCMK ITERATIONS=" == Head("ITERATIONS")
    ensures "\r\nCMK CYCLES=" == Head("CYCLES") && "\r\nCMK CLKHZ=" == Head("CLKHZ")
    ensures "\r\nCMK DONE\r\n" == "\r\n" + ("CMK DONE" + "\r\n")
  {
  }

  /** The text up to line k, which has no terminator yet. */
  ghost function Before(base: string, ls: seq<string>, k: nat): string
    requires k < |ls|
  {
    base + Text(ls[..k]) + ls[k]
  }

  lemma {:induction false} First(base: string, ls: seq<string>, key: string, value: string)
    requires |ls| > 0 && ls[0] == FieldLine(key, value) && key == "MAGIC"
    ensures base + "CMK MAGIC=" + value == Before(base, ls, 0)
  {
    assert "CMK " + "MAGIC" + "=" == "CMK MAGIC=";
    assert ls[..0] == [] && Text([]) == "";
    assert base + "CMK MAGIC=" + value == base + ("CMK MAGIC=" + value);
  }

  lemma {:induction false} Seam(base: string, ls: seq<string>, k: nat, key: string, value: string)
    requires 0 < k < |ls| && ls[k] == FieldLine(key, value)
    ensures Before(base, ls, k - 1) + Head(key) + value == Before(base, ls, k)
  {
    hide Text;
    TextAppend(ls[..k - 1], [ls[k - 1]]);
    TextOne(ls[k - 1]);
    assert ls[..k] == ls[..k - 1] + [ls[k - 1]];
    assert Head(key) + value == "\r\n" + ls[k];
    Regroup(base, Text(ls[..k - 1]), ls[k - 1], Head(key), value, ls[k]);
  }

  lemma {:induction false} Regroup(a: string, b: string, c: string, d: string, e: string, f: string)
    requires d + e == "\r\n" + f
    ensures a + b + c + d + e == a + (b + (c + "\r\n")) + f
  {
    assert a + b + c + d + e == a + b + c + (d + e);
    assert a + b + c + ("\r\n" + f) == a + (b + (c + "\r\n")) + f;
  }

  lemma {:induction false} LastLine(base: string, ls: seq<string>, end: string)
    requires |ls| > 0
    ensures Before(base, ls, |ls| - 1) + ("\r\n" + (end + "\r\n")) == base + Text(ls + [end])
  {
    hide Text;
    var n := |ls| - 1;
    TextAppend(ls[..n], [ls[n]]);
    assert ls == ls[..n] + [ls[n]];
    TextAppend(ls, [end]);
    TextOne(ls[n]);
    TextOne(end);
    LastRegroup(base, Text(ls[..n]), ls[n], "\r\n", end + "\r\n");
  }

  lemma {:induction false} LastRegroup(a: string, b: string, c: string, d: string, e: string)
    ensures a + b + c + (d + e) == a + ((b + (c + d)) + e)
  {
  }

  predicate Split(v: nat, high: nat, rest: nat, power: nat) { v == high * power + rest && rest < power }

  lemma {:induction false} Shifted(v: nat, high: nat, before: nat, digit: nat, rest: nat, power: nat)
    requires Split(v, high, before, 10 * power) && before == digit * power + rest && rest < power
    ensures Split(v, 10 * high + digit, rest, power)
  {
  }

  lemma {:induction false} PowersOfTen()
    ensures Pow10(0) == 1 && Pow10(10) == 10000000000
  {
    assert Pow10(3) == 1000;
    assert Pow10(6) == 1000000;
    assert Pow10(9) == 1000000000;
  }
}
