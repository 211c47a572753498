// tools/socgen/cheader/regstruct.go: the fields of the C struct that overlays a class's registers, and where they lie.

module RegStruct {
  import opened Common
  import opened ClassRegs

  /** A field of the struct; gap fields have no register's name. */
  datatype Field = Field(name: Option<string>, lo: int, hi: int, width: int)

  function Lo(r: Reg): int { r.addr }

  function Hi(r: Reg): int { r.addr + r.width - 1 }

  const NO_NEIGHBOUR := 0xffffffff

  /** A register of less than four bytes grows to the word boundaries on its left, and on its right, where there is room. */
  function Expand(regs: seq<Reg>, i: nat): Field
    requires i < |regs|
  {
    var r := regs[i];
    var left, right := Lo(r), Hi(r);
    var leftSpace, rightSpace := GoMod(left, 4), 3 - GoMod(right, 4);
    var leftBoundary := if i > 0 then Hi(regs[i - 1]) else -1;
    var rightBoundary := if i < |regs| - 1 then Lo(regs[i + 1]) else NO_NEIGHBOUR;
    var growLeft := r.width < 4 && 0 < leftSpace <= left - leftBoundary - 1;
    var width := if growLeft then r.width + leftSpace else r.width;
    var growRight := r.width < 4 && width < 4 && 0 < rightSpace <= rightBoundary - right - 1;
    Field(Some(r.name), if growLeft then left - leftSpace else left, if growRight then right + rightSpace else right,
          if growRight then width + rightSpace else width)
  }

  function Expanded(regs: seq<Reg>, n: nat): (fs: seq<Field>)
    requires n <= |regs|
    ensures |fs| == n && forall i :: 0 <= i < n ==> fs[i] == Expand(regs, i)
  {
    if n == 0 then [] else Expanded(regs, n - 1) + [Expand(regs, n - 1)]
  }

  function Gap(lo: int, hi: int): seq<Field> { if lo <= hi then [Field(None, lo, hi, hi - lo + 1)] else [] }

  /** The gaps between neighbours in the given order. */
  function Gaps(ex: seq<Field>, n: nat): seq<Field>
    requires n < |ex| || n == 0
  {
    if n == 0 then [] else Gaps(ex, n - 1) + Gap(ex[n - 1].hi + 1, ex[n].lo - 1)
  }

  /** All fields, before sorting. */
  function Fields(regs: seq<Reg>): seq<Field>
    requires regs != []
  {
    var ex := Expanded(regs, |regs|);
    Gap(0, ex[0].lo - 1) + ex + Gaps(ex, |ex| - 1)
  }

  predicate Sorted(fs: seq<Field>) { forall i, j :: 0 <= i < j < |fs| ==> fs[i].lo <= fs[j].lo }

  predicate IsAligned(f: Field) { GoMod(f.lo, 4) == 0 && GoMod(f.hi, 4) == 3 }

  method InsertSorted(fs: seq<Field>, f: Field) returns (r: seq<Field>)
    requires Sorted(fs)
    ensures Sorted(r) && multiset(r) == multiset(fs) + multiset{f}
  {
    var i := 0;
    while i < |fs| && fs[i].lo <= f.lo
      invariant i <= |fs| && forall j :: 0 <= j < i ==> fs[j].lo <= f.lo
    {
      i := i + 1;
    }
    InsertMultiset(fs, i, f);
    r := fs[..i] + [f] + fs[i..];
  }

  method SortFields(all: seq<Field>) returns (fs: seq<Field>)
    ensures Sorted(fs) && multiset(fs) == multiset(all)
  {
    hide Sorted;
    fs := [];
    NoneSorted();
    for n := 0 to |all|
      invariant Sorted(fs) && multiset(fs) == multiset(all[..n])
    {
      assert all[..n + 1] == all[..n] + [all[n]];
      fs := InsertSorted(fs, all[n]);
    }
    assert all[..|all|] == all;
  }

  lemma {:induction false} NoneSorted()
    ensures Sorted([])
  {
  }

  method ExpandOne(regs: seq<Reg>, i: nat) returns (f: Field)
    requires i < |regs|
    ensures f == Expand(regs, i)
  {
    hide GoMod;
    var r := regs[i];
    var lo, hi, width := Lo(r), Hi(r), r.width;
    if r.width < 4 {
      var leftBoundary := -1;
      if i > 0 { leftBoundary := Hi(regs[i - 1]); }
      var rightBoundary := NO_NEIGHBOUR;
      if i < |regs| - 1 { rightBoundary := Lo(regs[i + 1]); }
      var leftSpace, rightSpace := GoMod(lo, 4), 3 - GoMod(hi, 4);
      if leftSpace > 0 && leftSpace <= lo - leftBoundary - 1 {
        lo, width := lo - leftSpace, width + leftSpace;
      }
      if width < 4 && rightSpace > 0 && rightSpace <= rightBoundary - hi - 1 {
        hi, width := hi + rightSpace, width + rightSpace;
      }
    }
    f := Field(Some(r.name), lo, hi, width);
  }

  /** The expanded registers and the gaps, not yet sorted. */
  method CollectFields(regs: seq<Reg>) returns (all: seq<Field>)
    requires regs != []
    ensures all == Fields(regs)
  {
    hide Expand;
    var ex: seq<Field> := [];
    for i := 0 to |regs|
      invariant ex == Expanded(regs, i)
    {
      var f := ExpandOne(regs, i);
      ex := ex + [f];
    }
    all := [];
    if ex[0].lo > 0 { all := all + [Field(None, 0, ex[0].lo - 1, ex[0].lo)]; }
    all := all + ex;
    ghost var before := all;
    for i := 0 to |ex| - 1
      invariant all == before + Gaps(ex, i)
    {
      var a, b := ex[i].hi + 1, ex[i + 1].lo - 1;
      if a <= b { all := all + [Field(None, a, b, b - a + 1)]; }
    }
  }

  method AllAligned(fs: seq<Field>) returns (ok: bool)
    ensures ok <==> forall f :: f in fs ==> IsAligned(f)
  {
    hide IsAligned;
    for i := 0 to |fs|
      invariant forall j :: 0 <= j < i ==> IsAligned(fs[j])
    {
      if !IsAligned(fs[i]) {
        assert fs[i] in fs;
        return false;
      }
    }
    ok := true;
  }

  /** classRegStruct; None when there are no registers or a field is not made of whole words. */
  method ClassRegStruct(regs: seq<Reg>) returns (r: Option<seq<Field>>)
    ensures r.Some? ==> regs != [] && IsLayout(regs, r.value)
    ensures r.None? <==> regs == [] || exists f :: f in Fields(regs) && !IsAligned(f)
  {
    hide IsAligned, Sorted, Fields;
    if |regs| == 0 { return None; }
    var all := CollectFields(regs);
    var fs := SortFields(all);
    SameElements(fs, all);
    var ok := AllAligned(fs);
    r := if ok then Some(fs) else None;
  }

  /** The fields in the order of the struct. */
  ghost predicate IsLayout(regs: seq<Reg>, fs: seq<Field>)
    requires regs != []
  {
    Sorted(fs) && multiset(fs) == multiset(Fields(regs)) && forall f :: f in fs ==> IsAligned(f)
  }

  lemma {:induction false} SameElements(a: seq<Field>, b: seq<Field>)
    requires multiset(a) == multiset(b)
    ensures forall f :: f in a <==> f in b
  {
    forall f ensures f in a <==> f in b {
      assert f in a <==> f in multiset(a);
      assert f in b <==> f in multiset(b);
    }
  }

  // ---- What the struct means in C ----

  /** uint32_t f; or uint32_t f[n]; */
  function Size(f: Field): int { if GoDiv(f.width, 4) > 1 then 4 * GoDiv(f.width, 4) else 4 }

  function Offset(fs: seq<Field>, i: nat): int
    requires i <= |fs|
  {
    if i == 0 then 0 else Offset(fs, i - 1) + Size(fs[i - 1])
  }

  /** Every field lies in C where its bytes are in the hardware. */
  ghost predicate InPlace(fs: seq<Field>) {
    forall i :: 0 <= i < |fs| ==> Offset(fs, i) == fs[i].lo && Offset(fs, i + 1) == fs[i].hi + 1
  }

  /** From address 0 on, and its last byte is in no lower word than its first. A register of no bytes at the start of a word is not. */
  predicate Solid(r: Reg) { Lo(r) >= 0 && GoDiv(Lo(r), 4) <= GoDiv(Hi(r), 4) }

  predicate AllSolid(regs: seq<Reg>) { forall i :: 0 <= i < |regs| ==> Solid(regs[i]) }

  predicate Ascending(regs: seq<Reg>) { forall i, j :: 0 <= i < j < |regs| ==> Hi(regs[i]) < Lo(regs[j]) }

  // ==== tools/socgen/cheader/regstruct.go: when the fields of the C struct lie where the registers are.

  // ---- Expanded registers ----

  /** A field of whole words is the words of its register's first and last byte, and all between. */
  lemma {:induction false} ExpandWords(regs: seq<Reg>, i: nat)
    requires i < |regs| && IsAligned(Expand(regs, i))
    ensures var f := Expand(regs, i);
            && f.lo == 4 * GoDiv(Lo(regs[i]), 4) && f.hi == 4 * GoDiv(Hi(regs[i]), 4) + 3
            && f.width == f.hi - f.lo + 1 && (f.lo >= 0 <==> Lo(regs[i]) >= 0) && Hi(regs[i]) <= f.hi
  {
    GoParts(Lo(regs[i]));
    GoParts(Hi(regs[i]));
    hide GoMod, GoDiv;
  }

  lemma {:induction false} GoParts(a: int)
    ensures a == 4 * GoDiv(a, 4) + GoMod(a, 4) && -4 < GoMod(a, 4) < 4
    ensures if a >= 0 then GoMod(a, 4) >= 0 && GoDiv(a, 4) >= 0 else GoMod(a, 4) <= 0 && GoDiv(a, 4) <= 0
  {
  }

  /** A field of whole words holds the bytes of a solid register. */
  lemma {:induction false} ExpandHolds(regs: seq<Reg>, i: nat)
    requires i < |regs| && Solid(regs[i]) && IsAligned(Expand(regs, i))
    ensures var f := Expand(regs, i); 0 <= f.lo <= Lo(regs[i]) && Hi(regs[i]) <= f.hi && f.lo < f.hi && f.width == f.hi - f.lo + 1
  {
    ExpandWords(regs, i);
    GoParts(Lo(regs[i]));
    hide Expand, GoMod, GoDiv, IsAligned;
  }

  /** The field of a register: of its name, and grown by less than a word on either side. */
  predicate IsFieldOf(f: Field, r: Reg) {
    f.name == Some(r.name) && f.lo <= Lo(r) && (Lo(r) >= 0 ==> Lo(r) - 4 < f.lo) && Hi(r) <= f.hi && (Hi(r) >= 0 ==> f.hi < Hi(r) + 4)
    && f.width == r.width + (Lo(r) - f.lo) + (f.hi - Hi(r))
  }

  lemma {:induction false} ExpandNamed(regs: seq<Reg>, i: nat)
    requires i < |regs|
    ensures IsFieldOf(Expand(regs, i), regs[i])
  {
  }

  lemma {:induction false} GapsUnnamed(ex: seq<Field>, n: nat)
    requires n < |ex| || n == 0
    ensures forall g :: g in Gaps(ex, n) ==> g.name == None
    ensures forall lo, hi :: forall g :: g in Gap(lo, hi) ==> g.name == None
  {
    if n > 0 { GapsUnnamed(ex, n - 1); }
  }

  /** A struct has one field for each register, and otherwise only fields without a register's name. */
  lemma {:induction false} OneFieldEach(regs: seq<Reg>, fs: seq<Field>) returns (named: seq<Field>, gaps: seq<Field>)
    requires regs != [] && IsLayout(regs, fs)
    ensures |named| == |regs| && forall i :: 0 <= i < |regs| ==> IsFieldOf(named[i], regs[i])
    ensures forall g :: g in gaps ==> g.name == None
    ensures multiset(fs) == multiset(named) + multiset(gaps)
  {
    hide Expand, Gap, Gaps, IsFieldOf, IsAligned, Sorted;
    named := Expanded(regs, |regs|);
    gaps := Gap(0, named[0].lo - 1) + Gaps(named, |named| - 1);
    forall i | 0 <= i < |regs| ensures IsFieldOf(named[i], regs[i]) { ExpandNamed(regs, i); }
    GapsUnnamed(named, |named| - 1);
    Between(Gap(0, named[0].lo - 1), named, Gaps(named, |named| - 1));
  }

  lemma {:induction false} Between(a: seq<Field>, b: seq<Field>, c: seq<Field>)
    ensures multiset(a + b + c) == multiset(b) + multiset(a + c)
  {
  }

  /** Neighbours stay apart when both grow: they grow to the boundaries of different words. */
  lemma {:induction false} NeighboursApart(regs: seq<Reg>, i: nat)
    requires i + 1 < |regs| && Hi(regs[i]) < Lo(regs[i + 1]) && Lo(regs[i + 1]) >= 0
    requires IsAligned(Expand(regs, i)) && IsAligned(Expand(regs, i + 1))
    ensures Expand(regs, i).hi < Expand(regs, i + 1).lo
  {
    GrowsBelow(regs, i);
    ExpandWords(regs, i);
    ExpandWords(regs, i + 1);
    GoParts(Lo(regs[i + 1]));
    hide Expand, GoMod, GoDiv, IsAligned;
  }

  lemma {:induction false} GrowsBelow(regs: seq<Reg>, i: nat)
    requires i + 1 < |regs| && Hi(regs[i]) < Lo(regs[i + 1])
    ensures Expand(regs, i).hi < Lo(regs[i + 1])
  {
    hide GoMod;
  }

  /** Every register's field is made of whole words. */
  predicate AllWords(regs: seq<Reg>) { forall i :: 0 <= i < |regs| ==> IsAligned(Expand(regs, i)) }

  lemma {:induction false} LayoutWords(regs: seq<Reg>, fs: seq<Field>)
    requires regs != [] && IsLayout(regs, fs)
    ensures AllWords(regs)
  {
    hide Expand, IsAligned, Gaps, Sorted;
    SameElements(fs, Fields(regs));
    forall i | 0 <= i < |regs| ensures IsAligned(Expand(regs, i)) { FieldOf(regs, i); }
  }

  lemma {:induction false} FieldOf(regs: seq<Reg>, i: nat)
    requires i < |regs|
    ensures Expand(regs, i) in Fields(regs)
  {
    hide Expand, Gaps;
    var n := |Gap(0, Expanded(regs, |regs|)[0].lo - 1)|;
    assert Fields(regs)[n + i] == Expand(regs, i);
  }

  // ---- In address order ----

  /** The first n registers in order, each led by the gap in front of it. */
  function Lay(ex: seq<Field>, n: nat): seq<Field>
    requires 1 <= n <= |ex|
  {
    if n == 1 then Gap(0, ex[0].lo - 1) + [ex[0]] else Lay(ex, n - 1) + Gap(ex[n - 2].hi + 1, ex[n - 1].lo - 1) + [ex[n - 1]]
  }

  lemma {:induction false} LayIsAll(ex: seq<Field>, n: nat)
    requires 1 <= n <= |ex|
    ensures multiset(Lay(ex, n)) == multiset(Gap(0, ex[0].lo - 1) + ex[..n] + Gaps(ex, n - 1))
    decreases n
  {
    hide Gap, Lay, Gaps;
    LayStep(ex, n);
    if n > 1 {
      LayIsAll(ex, n - 1);
      Rearranged(Lay(ex, n - 1), Gap(0, ex[0].lo - 1), ex[..n - 1], Gaps(ex, n - 2), Gap(ex[n - 2].hi + 1, ex[n - 1].lo - 1), ex[n - 1]);
    }
  }

  lemma {:induction false} LayStep(ex: seq<Field>, n: nat)
    requires 1 <= n <= |ex|
    ensures n == 1 ==> Lay(ex, n) == Gap(0, ex[0].lo - 1) + ex[..n] + Gaps(ex, n - 1)
    ensures n > 1 ==> Lay(ex, n) == Lay(ex, n - 1) + Gap(ex[n - 2].hi + 1, ex[n - 1].lo - 1) + [ex[n - 1]]
    ensures n > 1 ==> ex[..n] == ex[..n - 1] + [ex[n - 1]] && Gaps(ex, n - 1) == Gaps(ex, n - 2) + Gap(ex[n - 2].hi + 1, ex[n - 1].lo - 1)
  {
    hide Gap;
    if n == 1 {
      assert ex[..1] == [ex[0]] && Gaps(ex, 0) == [];
      assert Gap(0, ex[0].lo - 1) + ex[..1] + [] == Gap(0, ex[0].lo - 1) + [ex[0]];
    }
  }

  lemma {:induction false} Rearranged(l: seq<Field>, a: seq<Field>, e: seq<Field>, gs: seq<Field>, g: seq<Field>, x: Field)
    requires multiset(l) == multiset(a + e + gs)
    ensures multiset(l + g + [x]) == multiset(a + (e + [x]) + (gs + g))
  {
  }

  /** Fields that follow each other without gap or overlap, from byte 0. */
  predicate Tiles(fs: seq<Field>) {
    && fs != [] && fs[0].lo == 0
    && (forall i :: 0 <= i < |fs| ==> fs[i].lo <= fs[i].hi && fs[i].width == fs[i].hi - fs[i].lo + 1)
    && (forall i :: 0 <= i < |fs| - 1 ==> fs[i + 1].lo == fs[i].hi + 1)
  }

  /** The last field of a tiling can be followed by what starts behind it. */
  lemma {:induction false} TilesOn(fs: seq<Field>, f: Field)
    requires Tiles(fs) && f.lo == fs[|fs| - 1].hi + 1 && f.lo <= f.hi && f.width == f.hi - f.lo + 1
    ensures Tiles(fs + [f])
  {
    var t := fs + [f];
    assert forall i :: 0 <= i < |fs| ==> t[i] == fs[i];
  }

  lemma {:induction false} LayTiles(regs: seq<Reg>, n: nat)
    requires AllSolid(regs) && AllWords(regs) && Ascending(regs) && 1 <= n <= |regs|
    ensures var ex := Expanded(regs, |regs|); var l := Lay(ex, n); Tiles(l) && l[|l| - 1] == ex[n - 1]
    decreases n
  {
    hide Expand, Tiles, IsAligned, GoDiv;
    var ex := Expanded(regs, |regs|);
    ExpandHolds(regs, n - 1);
    if n == 1 {
      FirstTiles(ex[0]);
    } else {
      LayTiles(regs, n - 1);
      NeighboursApart(regs, n - 2);
      var l := Lay(ex, n - 1);
      var g := Gap(ex[n - 2].hi + 1, ex[n - 1].lo - 1);
      GapTiles(l, ex[n - 1]);
      TilesOn(l + g, ex[n - 1]);
    }
  }

  /** A tiling up to the next register. */
  lemma {:induction false} GapTiles(l: seq<Field>, f: Field)
    requires l != [] && Tiles(l) && l[|l| - 1].hi < f.lo
    ensures var t := l + Gap(l[|l| - 1].hi + 1, f.lo - 1); Tiles(t) && t[|t| - 1].hi + 1 == f.lo
  {
    hide Tiles;
    var g := Gap(l[|l| - 1].hi + 1, f.lo - 1);
    if g == [] {
      assert l + g == l;
    } else {
      assert l + g == l + [g[0]];
      TilesOn(l, g[0]);
    }
  }

  lemma {:induction false} FirstTiles(f: Field)
    requires 0 <= f.lo <= f.hi && f.width == f.hi - f.lo + 1
    ensures Tiles(Gap(0, f.lo - 1) + [f])
  {
  }

  // ---- Sorting gives the same order ----

  predicate Strict(fs: seq<Field>) { forall i, j :: 0 <= i < j < |fs| ==> fs[i].lo < fs[j].lo }

  lemma {:induction false} TilesStrict(fs: seq<Field>, i: nat, j: nat)
    requires Tiles(fs) && i < j < |fs|
    ensures fs[i].hi < fs[j].lo
    decreases j
  {
    if i < j - 1 { TilesStrict(fs, i, j - 1); }
  }

  lemma {:induction false} SortedUnique(a: seq<Field>, b: seq<Field>)
    requires Sorted(a) && Strict(b) && multiset(a) == multiset(b)
    ensures a == b
    decreases a
  {
    assert |multiset(a)| == |a| && |multiset(b)| == |b|;
    if a != [] {
      SameFirst(a, b);
      TailMultiset(a);
      TailMultiset(b);
      SortedUnique(a[1..], b[1..]);
    }
  }

  lemma {:induction false} SameFirst(a: seq<Field>, b: seq<Field>)
    requires Sorted(a) && Strict(b) && multiset(a) == multiset(b) && a != [] && b != []
    ensures a[0] == b[0]
  {
    SameElements(a, b);
    assert a[0] in b && b[0] in a;
    var i :| 0 <= i < |b| && b[i] == a[0];
    var j :| 0 <= j < |a| && a[j] == b[0];
  }

  lemma {:induction false} TailMultiset(a: seq<Field>)
    requires a != []
    ensures multiset(a[1..]) == multiset(a) - multiset{a[0]}
  {
    assert a == [a[0]] + a[1..];
  }

  // ---- Offsets ----

  lemma {:induction false} AlignedSize(f: Field)
    requires IsAligned(f) && 0 <= f.lo <= f.hi && f.width == f.hi - f.lo + 1
    ensures Size(f) == f.width
  {
    var a, b := f.lo / 4, f.hi / 4;
    assert f.lo == 4 * a && f.hi == 4 * b + 3;
  }

  lemma {:induction false} OffsetIs(fs: seq<Field>, i: nat)
    requires Tiles(fs) && (forall f :: f in fs ==> IsAligned(f)) && i < |fs|
    ensures Offset(fs, i) == fs[i].lo && Offset(fs, i + 1) == fs[i].hi + 1 && fs[i].lo >= 0
    decreases i
  {
    hide Size, IsAligned;
    if i > 0 { OffsetIs(fs, i - 1); }
    assert fs[i] in fs;
    AlignedSize(fs[i]);
  }

  /** For ascending registers every field lies in its place. */
  lemma {:induction false} AscendingInPlace(regs: seq<Reg>, fs: seq<Field>)
    requires regs != [] && AllSolid(regs) && Ascending(regs) && IsLayout(regs, fs)
    ensures InPlace(fs)
  {
    hide Expand, Sorted, Tiles, Strict, IsAligned, Lay, Fields, Ascending, InPlace;
    var l := Lay(Expanded(regs, |regs|), |regs|);
    LayoutWords(regs, fs);
    LayTiles(regs, |regs|);
    LayFields(regs);
    LayStrict(l);
    SortedUnique(fs, l);
    TilesInPlace(l);
  }

  lemma {:induction false} LayFields(regs: seq<Reg>)
    requires regs != []
    ensures multiset(Lay(Expanded(regs, |regs|), |regs|)) == multiset(Fields(regs))
  {
    hide Expand, Lay, Gaps, Gap;
    var ex := Expanded(regs, |regs|);
    LayIsAll(ex, |regs|);
    assert ex[..|regs|] == ex;
  }

  lemma {:induction false} TilesInPlace(fs: seq<Field>)
    requires Tiles(fs) && forall f :: f in fs ==> IsAligned(f)
    ensures InPlace(fs)
  {
    hide Tiles, IsAligned, Offset;
    forall i | 0 <= i < |fs| ensures Offset(fs, i) == fs[i].lo && Offset(fs, i + 1) == fs[i].hi + 1 { OffsetIs(fs, i); }
  }

  lemma {:induction false} LayStrict(fs: seq<Field>)
    requires Tiles(fs)
    ensures Strict(fs)
  {
    forall i, j | 0 <= i < j < |fs| ensures fs[i].lo < fs[j].lo { TilesStrict(fs, i, j); }
  }

  // ---- In any other order the struct is wrong ----

  lemma {:induction false} OffsetGrows(fs: seq<Field>, i: nat, j: nat)
    requires i <= j <= |fs|
    ensures Offset(fs, i) <= Offset(fs, j)
    decreases j
  {
    hide GoDiv;
    if i < j { OffsetGrows(fs, i, j - 1); }
  }

  predicate Apart(f: Field, g: Field) { f.hi < g.lo || g.hi < f.lo }

  /** In place, any two of the fields share no byte. */
  lemma {:induction false} FieldsApart(all: seq<Field>, fs: seq<Field>, a: nat, b: nat)
    requires multiset(fs) == multiset(all) && InPlace(fs) && a < b < |all|
    ensures Apart(all[a], all[b])
  {
    hide Offset, Apart;
    var i, j := PairKept(all, fs, a, b);
    PlacesApart(fs, i, j);
    ApartSymmetric(all[a], all[b]);
  }

  lemma {:induction false} ApartSymmetric(f: Field, g: Field)
    ensures Apart(f, g) <==> Apart(g, f)
  {
  }

  lemma {:induction false} PlacesApart(fs: seq<Field>, i: nat, j: nat)
    requires InPlace(fs) && i < j < |fs|
    ensures Apart(fs[i], fs[j])
  {
    OffsetGrows(fs, i + 1, j);
  }

  /** Where the fields stand before sorting. */
  lemma {:induction false} GapAt(ex: seq<Field>, n: nat, i: nat)
    requires i < n < |ex| && ex[i].hi + 1 <= ex[i + 1].lo - 1
    ensures exists b :: 0 <= b < |Gaps(ex, n)| && Gaps(ex, n)[b] == Gap(ex[i].hi + 1, ex[i + 1].lo - 1)[0]
    decreases n
  {
    if i == n - 1 {
      assert Gaps(ex, n)[|Gaps(ex, n - 1)|] == Gap(ex[i].hi + 1, ex[i + 1].lo - 1)[0];
    } else {
      GapAt(ex, n - 1, i);
      var b :| 0 <= b < |Gaps(ex, n - 1)| && Gaps(ex, n - 1)[b] == Gap(ex[i].hi + 1, ex[i + 1].lo - 1)[0];
      assert Gaps(ex, n)[b] == Gaps(ex, n - 1)[b];
    }
  }

  lemma {:induction false} RegsApart(regs: seq<Reg>, fs: seq<Field>, i: nat, j: nat)
    requires regs != [] && multiset(fs) == multiset(Fields(regs)) && InPlace(fs) && i < j < |regs|
    ensures Apart(Expand(regs, i), Expand(regs, j))
  {
    hide Expand, Gaps, InPlace, Apart;
    var n := |Gap(0, Expanded(regs, |regs|)[0].lo - 1)|;
    assert Fields(regs)[n + i] == Expand(regs, i) && Fields(regs)[n + j] == Expand(regs, j);
    FieldsApart(Fields(regs), fs, n + i, n + j);
  }

  lemma {:induction false} FirstGapApart(regs: seq<Reg>, fs: seq<Field>, j: nat)
    requires regs != [] && multiset(fs) == multiset(Fields(regs)) && InPlace(fs) && j < |regs| && Expand(regs, 0).lo > 0
    ensures Apart(Gap(0, Expand(regs, 0).lo - 1)[0], Expand(regs, j))
  {
    hide Expand, Gaps, InPlace, Apart;
    assert Fields(regs)[0] == Gap(0, Expand(regs, 0).lo - 1)[0] && Fields(regs)[1 + j] == Expand(regs, j);
    FieldsApart(Fields(regs), fs, 0, 1 + j);
  }

  lemma {:induction false} GapApart(regs: seq<Reg>, fs: seq<Field>, i: nat, j: nat)
    requires regs != [] && multiset(fs) == multiset(Fields(regs)) && InPlace(fs) && j < |regs| && i + 1 < |regs|
    requires Expand(regs, i).hi + 1 <= Expand(regs, i + 1).lo - 1
    ensures Apart(Expand(regs, j), Gap(Expand(regs, i).hi + 1, Expand(regs, i + 1).lo - 1)[0])
  {
    hide Expand, Gaps, InPlace, Apart;
    var ex := Expanded(regs, |regs|);
    var n := |Gap(0, ex[0].lo - 1)|;
    GapAt(ex, |ex| - 1, i);
    var b :| 0 <= b < |Gaps(ex, |ex| - 1)| && Gaps(ex, |ex| - 1)[b] == Gap(ex[i].hi + 1, ex[i + 1].lo - 1)[0];
    assert Fields(regs)[n + j] == ex[j] && Fields(regs)[n + |ex| + b] == Gaps(ex, |ex| - 1)[b];
    FieldsApart(Fields(regs), fs, n + j, n + |ex| + b);
  }

  /** In place, a field starts at 0 or later and has at least one word. */
  lemma {:induction false} PlacedWords(regs: seq<Reg>, fs: seq<Field>, i: nat)
    requires regs != [] && multiset(fs) == multiset(Fields(regs)) && InPlace(fs) && i < |regs|
    ensures 0 <= Expand(regs, i).lo < Expand(regs, i).hi
  {
    hide Expand, Gaps, Gap, GoDiv;
    FieldOf(regs, i);
    SameElements(fs, Fields(regs));
    var j :| 0 <= j < |fs| && fs[j] == Expand(regs, i);
    OffsetGrows(fs, 0, j);
    assert Offset(fs, j + 1) == Offset(fs, j) + Size(fs[j]);
  }

  /** The field of register i lies below those of all later ones. */
  lemma {:induction false} Below(regs: seq<Reg>, fs: seq<Field>, i: nat, j: nat)
    requires regs != [] && multiset(fs) == multiset(Fields(regs)) && InPlace(fs) && i < j < |regs|
    ensures Expand(regs, i).hi < Expand(regs, j).lo
    decreases i
  {
    hide Expand, Fields, InPlace;
    PlacedWords(regs, fs, i);
    PlacedWords(regs, fs, j);
    RegsApart(regs, fs, i, j);
    if i == 0 {
      if Expand(regs, 0).lo > 0 { FirstGapApart(regs, fs, j); }
    } else {
      PlacedWords(regs, fs, i - 1);
      Below(regs, fs, i - 1, j);
      Below(regs, fs, i - 1, i);
      if Expand(regs, i - 1).hi + 1 <= Expand(regs, i).lo - 1 { GapApart(regs, fs, i - 1, j); }
    }
  }

  /**
   * The struct is right exactly when the registers are listed in ascending order, start at address 0 or later, and each
   * reaches into the word it starts in or a later one. The source neither sorts nor rejects the others.
   */
  lemma {:induction false} LayoutExact(regs: seq<Reg>, fs: seq<Field>)
    requires regs != [] && IsLayout(regs, fs)
    ensures InPlace(fs) <==> Ascending(regs) && AllSolid(regs)
  {
    hide InPlace, IsLayout, Expand, IsAligned, GoDiv;
    LayoutWords(regs, fs);
    if Ascending(regs) && AllSolid(regs) { AscendingInPlace(regs, fs); }
    if InPlace(fs) {
      LayoutFields(regs, fs);
      forall i | 0 <= i < |regs| ensures Solid(regs[i]) {
        PlacedWords(regs, fs, i);
        ExpandWords(regs, i);
      }
      forall i, j | 0 <= i < j < |regs| ensures Hi(regs[i]) < Lo(regs[j]) {
        Below(regs, fs, i, j);
        ExpandHolds(regs, i);
        ExpandHolds(regs, j);
      }
    }
  }

  lemma {:induction false} LayoutFields(regs: seq<Reg>, fs: seq<Field>)
    requires regs != [] && IsLayout(regs, fs)
    ensures multiset(fs) == multiset(Fields(regs))
  {
  }

  // ---- Registers outside the assumptions ----

  lemma {:induction false} WholeWord(regs: seq<Reg>, i: nat)
    requires i < |regs| && (regs[i].width >= 4 || (GoMod(Lo(regs[i]), 4) == 0 && GoMod(Hi(regs[i]), 4) == 3))
    ensures Expand(regs, i) == Field(Some(regs[i].name), Lo(regs[i]), Hi(regs[i]), regs[i].width)
  {
    hide GoMod;
  }

  /** A register without bytes takes four in the struct. */
  lemma {:induction false} EmptyRegisterShifts(a: Reg, b: Reg, c: Reg)
    requires a.addr == 0 && a.width == 4 && b.addr == 4 && b.width == 0 && c.addr == 4 && c.width == 4
    ensures var regs := [a, b, c];
            var fs := [Field(Some(a.name), 0, 3, 4), Field(Some(b.name), 4, 3, 0), Field(Some(c.name), 4, 7, 4)];
            IsLayout(regs, fs) && NoOverlap(regs) && Ascending(regs) && !Solid(b) && Offset(fs, 2) == 8 && fs[2].lo == 4
  {
    hide Expand, Fields, IsAligned, Offset, Size, Sorted, NoOverlap, GoMod;
    var regs := [a, b, c];
    var fs := [Field(Some(a.name), 0, 3, 4), Field(Some(b.name), 4, 3, 0), Field(Some(c.name), 4, 7, 4)];
    Words();
    WholeWord(regs, 0);
    WholeWord(regs, 1);
    WholeWord(regs, 2);
    NoGaps(regs, fs);
    TwoWords(fs);
    SortedThree(fs);
    NoOverlapThree(a, b, c);
    assert forall f :: f in fs ==> IsAligned(f);
  }

  lemma {:induction false} SortedThree(fs: seq<Field>)
    requires |fs| == 3 && fs[0].lo <= fs[1].lo <= fs[2].lo
    ensures Sorted(fs)
  {
  }

  lemma {:induction false} NoOverlapThree(a: Reg, b: Reg, c: Reg)
    requires !Overlaps(a, b) && !Overlaps(a, c) && !Overlaps(b, c)
    ensures NoOverlap([a, b, c])
  {
  }

  lemma {:induction false} Words()
    ensures GoMod(0, 4) == 0 && GoMod(3, 4) == 3 && GoMod(4, 4) == 0 && GoMod(7, 4) == 3
    ensures forall f: Field :: (f.lo == 0 || f.lo == 4) && (f.hi == 3 || f.hi == 7) ==> IsAligned(f)
    ensures forall f: Field :: f.width == 0 || f.width == 4 ==> Size(f) == 4
  {
  }

  lemma {:induction false} TwoWords(fs: seq<Field>)
    requires |fs| >= 2 && Size(fs[0]) == 4 && Size(fs[1]) == 4
    ensures Offset(fs, 2) == 8
  {
    assert Offset(fs, 1) == 4;
  }

  lemma {:induction false} NoGaps(regs: seq<Reg>, fs: seq<Field>)
    requires |regs| == |fs| == 3 && Expand(regs, 0) == fs[0] && Expand(regs, 1) == fs[1] && Expand(regs, 2) == fs[2]
    requires fs[0].lo == 0 && fs[1].lo == fs[0].hi + 1 && fs[2].lo == fs[1].hi + 1
    ensures Fields(regs) == fs
  {
    hide Expand;
    var ex := Expanded(regs, 3);
    assert ex == fs;
    assert Gaps(ex, 1) == [] && Gaps(ex, 2) == [];
    assert [] + ex + [] == fs;
  }

  /** A register below address 0 is not where the struct starts. */
  lemma {:induction false} NegativeRegisterShifts(a: Reg)
    requires a.addr == -4 && a.width == 8
    ensures var fs := [Field(Some(a.name), -4, 3, 8)]; IsLayout([a], fs) && !Solid(a) && Offset(fs, 0) == 0
  {
    var fs := [Field(Some(a.name), -4, 3, 8)];
    WholeWord([a], 0);
    assert Expanded([a], 1) == fs;
    assert Gap(0, -5) == [] && Gaps(fs, 0) == [];
    assert [] + fs + [] == fs;
    assert Fields([a]) == fs;
  }
}
