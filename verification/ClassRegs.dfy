// tools/socgen/elaborate/class.go: placing a class's registers and sizing its address window.

module ClassRegs {
  import opened Common

  datatype RegSpec = RegSpec(name: string, addr: Option<int>, width: Option<int>)

  datatype Reg = Reg(name: string, addr: int, width: int)

  datatype RegError = RegisterOverlap(a: string, b: string) | LeftAddrBitTooSmall(got: int, required: int)

  /** Go's / and % truncate toward zero. */
  function GoDiv(a: int, b: int): int
    requires b > 0
  {
    if a >= 0 then a / b else -((-a) / b)
  }

  function GoMod(a: int, b: int): int
    requires b > 0
  {
    a - b * GoDiv(a, b)
  }

  /** A register without an address follows the one before it; without a width it has four bytes. */
  function Placed(specs: seq<RegSpec>, addr: int): (regs: seq<Reg>)
    ensures |regs| == |specs|
  {
    if specs == [] then []
    else
      var s := specs[0];
      var r := Reg(s.name, s.addr.GetOr(addr), s.width.GetOr(4));
      [r] + Placed(specs[1..], r.addr + r.width)
  }

  /** Every register keeps its name; an address of its own, or the end of the register before it, or 0 for the first; and its own
      width, or four. */
  lemma {:induction false} PlacedExactly(specs: seq<RegSpec>, addr: int, i: nat)
    requires i < |specs|
    ensures var regs, s := Placed(specs, addr), specs[i];
            && regs[i].name == s.name
            && (s.addr.Some? ==> regs[i].addr == s.addr.value)
            && (s.addr.None? ==> regs[i].addr == if i == 0 then addr else regs[i - 1].addr + regs[i - 1].width)
            && (s.width.Some? ==> regs[i].width == s.width.value) && (s.width.None? ==> regs[i].width == 4)
  {
    if i > 0 {
      var first := Placed(specs, addr)[0];
      PlacedExactly(specs[1..], first.addr + first.width, i - 1);
      assert Placed(specs, addr) == [first] + Placed(specs[1..], first.addr + first.width);
    }
  }

  /** overlaps on the inclusive byte ranges. */
  predicate Overlaps(a: Reg, b: Reg) { a.addr <= b.addr + b.width - 1 && b.addr <= a.addr + a.width - 1 }

  ghost predicate NoOverlap(regs: seq<Reg>) { forall i, j :: 0 <= i < j < |regs| ==> !Overlaps(regs[i], regs[j]) }

  /** The least k with 2^k >= n. The source computes it as ceil(log2(n)) in floating point. */
  function CeilLog2(n: nat): (k: nat)
    requires n >= 1
    ensures Pow2(k) >= n && (k > 0 ==> Pow2(k - 1) < n)
  {
    if n == 1 then 0 else CeilLog2Step(n); 1 + CeilLog2((n + 1) / 2)
  }

  lemma {:induction false} CeilLog2Step(n: nat)
    requires n >= 2
    ensures 1 <= (n + 1) / 2 < n
  {
  }

  ghost predicate IsEnd(regs: seq<Reg>, m: int) {
    m >= 1 && (forall r :: r in regs ==> r.addr + r.width <= m) && (m == 1 || exists r :: r in regs && m == r.addr + r.width)
  }

  ghost predicate IsBounds(regs: seq<Reg>, low: int, high: int) {
    && (forall r :: r in regs ==> low <= r.addr && r.addr + r.width - 1 <= high)
    && (exists r :: r in regs && low == r.addr)
    && (exists r :: r in regs && high == r.addr + r.width - 1)
  }

  /** The registers placed so far and the placing of the others. */
  ghost predicate PlacedUpTo(specs: seq<RegSpec>, i: nat, regs: seq<Reg>, addr: int) {
    i <= |specs| && Placed(specs, 0) == regs + Placed(specs[i..], addr)
  }

  lemma {:induction false} PlacedNext(specs: seq<RegSpec>, i: nat, regs: seq<Reg>, addr: int, r: Reg)
    requires i < |specs| && PlacedUpTo(specs, i, regs, addr)
    requires r == Reg(specs[i].name, specs[i].addr.GetOr(addr), specs[i].width.GetOr(4))
    ensures PlacedUpTo(specs, i + 1, regs + [r], r.addr + r.width)
  {
    assert specs[i..][1..] == specs[i + 1..];
    assert regs + ([r] + Placed(specs[i + 1..], r.addr + r.width)) == regs + [r] + Placed(specs[i + 1..], r.addr + r.width);
  }

  method PlaceRegs(specs: seq<RegSpec>) returns (regs: seq<Reg>)
    ensures regs == Placed(specs, 0)
  {
    hide PlacedUpTo;
    var addr := 0;
    regs := [];
    PlacedNone(specs);
    for i := 0 to |specs|
      invariant PlacedUpTo(specs, i, regs, addr)
    {
      var s := specs[i];
      var width := 4;
      if s.width.Some? { width := s.width.value; }
      ghost var next := Reg(s.name, s.addr.GetOr(addr), width);
      PlacedNext(specs, i, regs, addr, next);
      if s.addr.Some? { addr := s.addr.value; }
      regs := regs + [Reg(s.name, addr, width)];
      addr := addr + width;
    }
    PlacedAll(specs, regs, addr);
  }

  lemma {:induction false} PlacedNone(specs: seq<RegSpec>)
    ensures PlacedUpTo(specs, 0, [], 0)
  {
    assert specs[0..] == specs;
  }

  lemma {:induction false} PlacedAll(specs: seq<RegSpec>, regs: seq<Reg>, addr: int)
    requires PlacedUpTo(specs, |specs|, regs, addr)
    ensures regs == Placed(specs, 0)
  {
  }

  /** The least power-of-two window that holds all registers, as the number of address bits inside a device minus one. */
  function RequiredBit(end: int): int
    requires end >= 1
  {
    CeilLog2(end) - 1
  }

  /** leftBit sizes the window for registers that end at end: the required bit, or a larger override. */
  ghost predicate Sized(regs: seq<Reg>, override: int, leftBit: int, end: int) {
    IsEnd(regs, end) && leftBit == if override > 0 && override > RequiredBit(end) then override else RequiredBit(end)
  }

  /** e names two overlapping registers, the first of them among the first n and, if it is the last of these, the other below m. */
  ghost predicate IsOverlap(regs: seq<Reg>, n: nat, m: int, e: RegError) {
    exists a, b :: 0 <= a < b < |regs| && (a < n || (a == n && b < m)) && Overlaps(regs[a], regs[b]) && e == RegisterOverlap(regs[a].name, regs[b].name)
  }

  predicate HasByte(r: Reg, byte: int) { r.addr <= byte < r.addr + r.width }

  /** Registers of one byte or more overlap exactly when they share a byte. */
  lemma {:induction false} OverlapsIsShared(a: Reg, b: Reg)
    requires a.width >= 1 && b.width >= 1
    ensures Overlaps(a, b) <==> exists byte :: HasByte(a, byte) && HasByte(b, byte)
  {
    if Overlaps(a, b) {
      var byte := if a.addr < b.addr then b.addr else a.addr;
      assert HasByte(a, byte) && HasByte(b, byte);
    }
  }

  /** The nested loops over the registers. */
  method ReportOverlaps(regs: seq<Reg>) returns (errs: seq<RegError>)
    ensures forall e :: e in errs <==> IsOverlap(regs, |regs|, 0, e)
    ensures |errs| == 0 <==> NoOverlap(regs)
  {
    hide Overlaps;
    errs := [];
    for i := 0 to |regs|
      invariant forall e :: e in errs <==> IsOverlap(regs, i, 0, e)
    {
      for j := i + 1 to |regs|
        invariant forall e :: e in errs <==> IsOverlap(regs, i, j, e)
      {
        if Overlaps(regs[i], regs[j]) {
          assert IsOverlap(regs, i, j + 1, RegisterOverlap(regs[i].name, regs[j].name));
          errs := errs + [RegisterOverlap(regs[i].name, regs[j].name)];
        }
        assert forall e :: IsOverlap(regs, i, j + 1, e) <==> IsOverlap(regs, i, j, e) || (Overlaps(regs[i], regs[j]) && e == RegisterOverlap(regs[i].name, regs[j].name));
      }
      assert forall e :: IsOverlap(regs, i, |regs|, e) <==> IsOverlap(regs, i + 1, 0, e);
    }
    if |errs| > 0 { assert IsOverlap(regs, |regs|, 0, errs[0]); }
    if a, b :| 0 <= a < b < |regs| && Overlaps(regs[a], regs[b]) { assert IsOverlap(regs, |regs|, 0, RegisterOverlap(regs[a].name, regs[b].name)); }
  }

  /** An error for each overlapping pair and for an override that is too small, and no other. */
  ghost predicate ErrorsAre(regs: seq<Reg>, override: int, end: int, errs: seq<RegError>)
    requires end >= 1
  {
    && (|errs| == 0 <==> NoOverlap(regs) && !(0 < override < RequiredBit(end)))
    && forall e :: e in errs <==> IsOverlap(regs, |regs|, 0, e) || (0 < override < RequiredBit(end) && e == LeftAddrBitTooSmall(override, RequiredBit(end)))
  }

  /** resolveRegs. */
  method ResolveRegs(specs: seq<RegSpec>, override: int)
    returns (regs: seq<Reg>, leftBit: int, low: int, high: int, errs: seq<RegError>)
    ensures regs == Placed(specs, 0)
    ensures specs == [] ==> leftBit == 0 && (low, high) == (0, 0) && errs == []
    ensures specs != [] ==> exists end :: Sized(regs, override, leftBit, end) && ErrorsAre(regs, override, end, errs)
    ensures specs != [] ==> exists lo, hi :: IsBounds(regs, lo, hi) && low == lo - GoMod(lo, 4) && high == (GoDiv(hi, 4) + 1) * 4
  {
    regs := PlaceRegs(specs);
    if |regs| == 0 {
      return regs, 0, 0, 0, [];
    }
    errs := ReportOverlaps(regs);
    var maxAddr, lo, hi := Extent(regs);
    var required := RequiredBit(maxAddr);
    leftBit := required;
    if override > 0 {
      if override < required { errs := errs + [LeftAddrBitTooSmall(override, required)]; }
      if override > required { leftBit := override; }
    }
    low, high := lo - GoMod(lo, 4), (GoDiv(hi, 4) + 1) * 4;
    assert Sized(regs, override, leftBit, maxAddr);
  }

  /** The loop that finds the end of the last register and the first and last byte. */
  method Extent(regs: seq<Reg>) returns (maxAddr: int, lo: int, hi: int)
    requires |regs| > 0
    ensures IsEnd(regs, maxAddr) && IsBounds(regs, lo, hi)
  {
    maxAddr := 0;
    lo, hi := regs[0].addr, regs[0].addr + regs[0].width - 1;
    ghost var li, hi', mi := 0, 0, 0;
    for i := 0 to |regs|
      invariant 0 <= li < |regs| && 0 <= hi' < |regs| && 0 <= mi < |regs|
      invariant lo == regs[li].addr && hi == regs[hi'].addr + regs[hi'].width - 1
      invariant maxAddr >= 0 && (maxAddr == 0 || maxAddr == regs[mi].addr + regs[mi].width)
      invariant forall k :: 0 <= k < i ==> regs[k].addr + regs[k].width <= maxAddr && lo <= regs[k].addr && regs[k].addr + regs[k].width - 1 <= hi
    {
      var r := regs[i];
      if r.addr + r.width > maxAddr { maxAddr := r.addr + r.width; mi := i; }
      if r.addr < lo { lo := r.addr; li := i; }
      if r.addr + r.width - 1 > hi { hi := r.addr + r.width - 1; hi' := i; }
    }
    if maxAddr < 1 { maxAddr := 1; }
  }

  ghost predicate IsWindow(regs: seq<Reg>, override: int, leftBit: int) { exists end :: Sized(regs, override, leftBit, end) }

  ghost predicate Holds(leftBit: int, r: Reg)
    requires leftBit >= -1
  {
    0 <= r.addr && r.addr + r.width <= Pow2(leftBit + 1)
  }

  /** Whatever the override says, the window of 2^(leftBit+1) bytes ends after every register; it also starts before
      each of them exactly when no register has a negative address, which nothing checks. */
  lemma {:induction false} WindowHoldsRegisters(regs: seq<Reg>, override: int, leftBit: int)
    requires IsWindow(regs, override, leftBit)
    ensures leftBit >= -1
    ensures (forall r :: r in regs ==> Holds(leftBit, r)) <==> forall r :: r in regs ==> r.addr >= 0
  {
    var end :| Sized(regs, override, leftBit, end);
    Pow2Monotone(CeilLog2(end), leftBit + 1);
  }

  /** Without an override no smaller power of two would do. */
  lemma {:induction false} WindowIsLeast(regs: seq<Reg>, leftBit: int, smaller: nat)
    requires IsWindow(regs, 0, leftBit) && forall r :: r in regs ==> r.addr >= 0
    requires smaller < leftBit + 1
    ensures exists r :: r in regs && r.addr + r.width > Pow2(smaller)
  {
    var end :| Sized(regs, 0, leftBit, end);
    Pow2Monotone(smaller, leftBit);
    assert end != 1;
  }

  /** The word-aligned byte range reported with the registers contains them all exactly when the first byte is not a
      negative address inside a word: the remainder of a negative number is negative, so such a bound moves up. */
  lemma {:induction false} RangeCovers(regs: seq<Reg>, lo: int, hi: int)
    requires IsBounds(regs, lo, hi)
    ensures (forall r :: r in regs ==> lo - GoMod(lo, 4) <= r.addr && r.addr + r.width - 1 < (GoDiv(hi, 4) + 1) * 4)
            <==> lo >= 0 || lo % 4 == 0
  {
    assert hi < (GoDiv(hi, 4) + 1) * 4;
    assert lo - GoMod(lo, 4) == 4 * GoDiv(lo, 4);
    var r :| r in regs && lo == r.addr;
    assert 4 * GoDiv(lo, 4) <= lo <==> lo >= 0 || lo % 4 == 0;
  }
}
