// tools/socgen/elaborate/addr_validate.go: the address checks that decode_address relies on.

module AddrValidate {
  import opened Common

  const U64: nat := 0x1_0000_0000_0000_0000
  const MAX_LEFT_ADDR_BIT: int := 62

  /** One entry of res.Devices; cls is the class name after lc(). */
  datatype Device = Device(name: string, cls: string, base: Option<nat>, dataBus: bool) {
    predicate Valid() { base.Some? ==> base.value < U64 }
  }

  datatype Range = Range(name: string, lo: nat, hi: nat)

  datatype AddrError =
    | BadRegion(device: string, base: nat)
    | BadLeftAddrBit(device: string, leftBit: int)
    | OverSpec(device: string, base: nat, bits: int)
    | Overlap(a: Range, b: Range)

  type Classes = map<string, int>    // LeftAddrBit of each resolved class

  const RESERVED: seq<Range> := [
    Range("sram", 0x00000000, 0x0FFFFFFF),
    Range("dram", 0x10000000, 0x1FFFFFFF),
    Range("cpumreg", 0xabcd0600, 0xabcd06FF)]

  /** deviceSpan, in 64-bit arithmetic: the upper bound saturates. */
  function Span(d: Device, classes: Classes): (r: Option<Range>)
    requires d.Valid()
    ensures r.Some? ==> r.value.lo <= r.value.hi < U64
  {
    if d.base.None? || d.cls !in classes || classes[d.cls] < 0 || classes[d.cls] > MAX_LEFT_ADDR_BIT then None
    else
      var lo := d.base.value;
      var hi := (lo + Pow2(classes[d.cls] + 1) - 1) % U64;
      Some(Range(d.name, lo, if hi < lo then U64 - 1 else hi))
  }

  predicate Overlapping(a: Range, b: Range) { a.lo <= b.hi && b.lo <= a.hi }

  // ---- What "no error" means ----

  /** The per-device checks. */
  predicate DeviceOk(d: Device, classes: Classes) {
    d.base.Some? && d.cls in classes ==>
      (d.base.value / 0x1000_0000) % 16 == 10 &&
      0 <= classes[d.cls] <= MAX_LEFT_ADDR_BIT &&
      d.base.value % Pow2(classes[d.cls] + 1) == 0
  }

  function Spans(devs: seq<Device>, classes: Classes): seq<Range>
    requires forall d :: d in devs ==> d.Valid()
  {
    if devs == [] then []
    else
      var n := |devs| - 1;
      Spans(devs[..n], classes) + (if Span(devs[n], classes).Some? then [Span(devs[n], classes).value] else [])
  }

  predicate Disjoint(rs: seq<Range>) {
    forall i, j :: 0 <= i < j < |rs| ==> !Overlapping(rs[i], rs[j])
  }

  ghost predicate AddressesOk(devs: seq<Device>, classes: Classes)
    requires forall d :: d in devs ==> d.Valid()
  {
    (forall d :: d in devs ==> DeviceOk(d, classes)) && Disjoint(Spans(devs, classes) + RESERVED)
  }

  // ---- Disjointness does not depend on the order of the ranges ----

  /** Putting a range between the ranges a and b adds only its own overlaps. */
  lemma {:induction false} DisjointInsert(a: seq<Range>, x: Range, b: seq<Range>)
    ensures Disjoint(a + [x] + b) <==> Disjoint(a + b) && forall r :: r in a + b ==> !Overlapping(r, x)
  {
    var s, t := a + [x] + b, a + b;
    assert forall i :: 0 <= i < |t| ==> t[i] == s[if i < |a| then i else i + 1];
    assert s[|a|] == x;
    if Disjoint(s) {
      forall r | r in t ensures !Overlapping(r, x) {
        var i :| 0 <= i < |t| && t[i] == r;
        assert s[if i < |a| then i else i + 1] == r;
      }
    }
    if Disjoint(t) && forall r :: r in t ==> !Overlapping(r, x) {
      forall i, j | 0 <= i < j < |s| ensures !Overlapping(s[i], s[j]) {
        if i != |a| { assert s[i] == t[if i < |a| then i else i - 1] && s[i] in t; }
        if j != |a| { assert s[j] == t[if j < |a| then j else j - 1] && s[j] in t; }
      }
    }
  }

  /** Go's < on strings. */
  predicate Less(a: string, b: string) {
    if b == "" then false
    else if a == "" then true
    else a[0] < b[0] || (a[0] == b[0] && Less(a[1..], b[1..]))
  }

  predicate RangeLess(a: Range, b: Range) { if a.lo != b.lo then a.lo < b.lo else Less(a.name, b.name) }

  lemma {:induction false} SortStep(out: seq<Range>, rs: seq<Range>, x: Range, j: nat)
    requires j <= |out| && multiset(out) == multiset(rs)
    requires Disjoint(out) <==> Disjoint(rs)
    ensures multiset(out[..j] + [x] + out[j..]) == multiset(rs + [x])
    ensures Disjoint(out[..j] + [x] + out[j..]) <==> Disjoint(rs + [x])
  {
    assert out == out[..j] + out[j..];
    assert rs + [x] == rs + [x] + [] && rs + [] == rs;
    DisjointInsert(out[..j], x, out[j..]);
    DisjointInsert(rs, x, []);
    forall r ensures r in out <==> r in rs {
      assert r in out <==> r in multiset(out);
      assert r in rs <==> r in multiset(rs);
    }
  }

  lemma {:induction false} LessOrder(a: string, b: string, c: string)
    ensures !(Less(a, b) && Less(b, a)) && (!Less(b, a) && !Less(c, b) ==> !Less(c, a))
  {
    if a != "" && b != "" && c != "" { LessOrder(a[1..], b[1..], c[1..]); }
    if a != "" && b != "" && c == "" { LessOrder(a[1..], b[1..], ""); }
  }

  /** By lower bound, then by name. */
  ghost predicate Sorted(rs: seq<Range>) { forall i, j :: 0 <= i < j < |rs| ==> !RangeLess(rs[j], rs[i]) }

  lemma {:induction false} RangeOrder(a: Range, b: Range, c: Range)
    ensures !(RangeLess(a, b) && RangeLess(b, a)) && (!RangeLess(b, a) && !RangeLess(c, b) ==> !RangeLess(c, a))
  {
    LessOrder(a.name, b.name, c.name);
  }

  lemma {:induction false} SortedInsert(out: seq<Range>, x: Range, j: nat)
    requires Sorted(out) && j <= |out| && (j > 0 ==> !RangeLess(x, out[j - 1])) && forall k :: j <= k < |out| ==> RangeLess(x, out[k])
    ensures Sorted(out[..j] + [x] + out[j..])
  {
    hide RangeLess;
    var s := out[..j] + [x] + out[j..];
    forall a | 0 <= a < j ensures !RangeLess(x, out[a]) { RangeOrder(out[a], out[j - 1], x); }
    forall a | j <= a < |out| ensures !RangeLess(out[a], x) { RangeOrder(out[a], x, x); }
    forall a, b | 0 <= a < b < |s| ensures !RangeLess(s[b], s[a]) {
      assert a != j ==> s[a] == out[if a < j then a else a - 1];
      assert b != j ==> s[b] == out[if b < j then b else b - 1];
    }
  }

  /** Stands for sort.Slice. */
  method SortRanges(rs: seq<Range>) returns (out: seq<Range>)
    ensures multiset(out) == multiset(rs) && Sorted(out)
    ensures Disjoint(out) <==> Disjoint(rs)
  {
    hide Sorted, RangeLess, Disjoint;
    out := [];
    assert Sorted(out) by { NoneSorted(); }
    assert rs[..0] == [];
    for i := 0 to |rs|
      invariant multiset(out) == multiset(rs[..i]) && Sorted(out)
      invariant Disjoint(out) <==> Disjoint(rs[..i])
    {
      var j := |out|;
      while j > 0 && RangeLess(rs[i], out[j - 1])
        invariant 0 <= j <= |out| && forall k :: j <= k < |out| ==> RangeLess(rs[i], out[k])
      {
        j := j - 1;
      }
      assert rs[..i + 1] == rs[..i] + [rs[i]];
      SortStep(out, rs[..i], rs[i], j);
      SortedInsert(out, rs[i], j);
      out := out[..j] + [rs[i]] + out[j..];
    }
    assert rs[..|rs|] == rs;
  }

  lemma {:induction false} NoneSorted()
    ensures Sorted([])
  {
  }

  /** Every overlapping pair is reported, in one order. */
  ghost predicate AllReported(errs: seq<AddrError>, rs: seq<Range>) {
    forall i, j :: 0 <= i < j < |rs| && Overlapping(rs[i], rs[j]) ==> Overlap(rs[i], rs[j]) in errs || Overlap(rs[j], rs[i]) in errs
  }

  /** checkAddrOverlap reports every overlapping pair of device and reserved ranges, the lower first, and nothing else. */
  method CheckAddrOverlap(devs: seq<Device>, classes: Classes) returns (errs: seq<AddrError>)
    requires forall d :: d in devs ==> d.Valid()
    ensures AllReported(errs, Spans(devs, classes) + RESERVED)
    ensures forall e :: e in errs ==> IsOverlap(e, Spans(devs, classes) + RESERVED) && !RangeLess(e.b, e.a)
    ensures |errs| == 0 <==> Disjoint(Spans(devs, classes) + RESERVED)
  {
    hide Disjoint, RangeLess, Overlapping;
    var ranges := CollectSpans(devs, classes);
    ghost var all := ranges + RESERVED;
    ranges := SortRanges(ranges + RESERVED);
    errs := ReportOverlaps(ranges);
    SameRanges(ranges, all);
    forall i, j | 0 <= i < j < |all| && Overlapping(all[i], all[j]) ensures Overlap(all[i], all[j]) in errs || Overlap(all[j], all[i]) in errs {
      var a, b := PairKept(all, ranges, i, j);
      OverlapSymmetric(all[i], all[j]);
    }
  }

  lemma {:induction false} OverlapSymmetric(a: Range, b: Range)
    ensures Overlapping(a, b) <==> Overlapping(b, a)
  {
  }

  lemma {:induction false} SameRanges(a: seq<Range>, b: seq<Range>)
    requires multiset(a) == multiset(b)
    ensures forall r :: r in a <==> r in b
  {
    forall r ensures r in a <==> r in b {
      assert r in a <==> r in multiset(a);
      assert r in b <==> r in multiset(b);
    }
  }

  method CollectSpans(devs: seq<Device>, classes: Classes) returns (ranges: seq<Range>)
    requires forall d :: d in devs ==> d.Valid()
    ensures ranges == Spans(devs, classes)
  {
    ranges := [];
    for i := 0 to |devs|
      invariant ranges == Spans(devs[..i], classes)
    {
      assert devs[..i + 1][..i] == devs[..i];
      var s := Span(devs[i], classes);
      if s.Some? { ranges := ranges + [s.value]; }
    }
    assert devs[..|devs|] == devs;
  }

  ghost predicate IsOverlap(e: AddrError, rs: seq<Range>) {
    e.Overlap? && Overlapping(e.a, e.b) && e.a in rs && e.b in rs
  }

  /** The overlaps of range i with the ranges from i + 1 up to j, in order. */
  function OverlapsOf(rs: seq<Range>, i: nat, j: nat): seq<AddrError>
    requires i < j <= |rs|
    decreases j
  {
    if j == i + 1 then [] else OverlapsOf(rs, i, j - 1) + if Overlapping(rs[i], rs[j - 1]) then [Overlap(rs[i], rs[j - 1])] else []
  }

  function OverlapsUpTo(rs: seq<Range>, i: nat): seq<AddrError>
    requires i <= |rs|
  {
    if i == 0 then [] else OverlapsUpTo(rs, i - 1) + OverlapsOf(rs, i - 1, |rs|)
  }

  lemma {:induction false} OverlapsOfAre(rs: seq<Range>, i: nat, j: nat)
    requires i < j <= |rs|
    ensures forall e :: e in OverlapsOf(rs, i, j) <==> exists k :: i < k < j && Overlapping(rs[i], rs[k]) && e == Overlap(rs[i], rs[k])
    decreases j
  {
    hide Overlapping;
    if j > i + 1 { OverlapsOfAre(rs, i, j - 1); }
  }

  lemma {:induction false} OverlapsAre(rs: seq<Range>, i: nat)
    requires i <= |rs|
    ensures forall e :: e in OverlapsUpTo(rs, i) <==> exists a, b :: 0 <= a < i && a < b < |rs| && Overlapping(rs[a], rs[b]) && e == Overlap(rs[a], rs[b])
    decreases i
  {
    hide Overlapping, OverlapsOf;
    if i > 0 {
      OverlapsAre(rs, i - 1);
      OverlapsOfAre(rs, i - 1, |rs|);
    }
  }

  /** The nested loops over the sorted ranges. */
  method ReportOverlaps(ranges: seq<Range>) returns (errs: seq<AddrError>)
    ensures errs == OverlapsUpTo(ranges, |ranges|)
    ensures |errs| == 0 <==> Disjoint(ranges)
    ensures forall e :: e in errs <==> exists a, b :: 0 <= a < b < |ranges| && Overlapping(ranges[a], ranges[b]) && e == Overlap(ranges[a], ranges[b])
  {
    errs := [];
    for i := 0 to |ranges|
      invariant errs == OverlapsUpTo(ranges, i)
    {
      for j := i + 1 to |ranges|
        invariant errs == OverlapsUpTo(ranges, i) + OverlapsOf(ranges, i, j)
      {
        if ranges[i].lo <= ranges[j].hi && ranges[j].lo <= ranges[i].hi {
          errs := errs + [Overlap(ranges[i], ranges[j])];
        }
      }
    }
    OverlapsAre(ranges, |ranges|);
    if |errs| > 0 { assert errs[0] in errs; }
    if !Disjoint(ranges) {
      var a, b :| 0 <= a < b < |ranges| && Overlapping(ranges[a], ranges[b]);
      assert Overlap(ranges[a], ranges[b]) in errs;
    }
  }

  /** The checks that d fails: bits 31 to 28 of the base, the left address bit, and set bits inside the device's own address space. */
  ghost predicate Faulty(d: Device, classes: Classes, e: AddrError) {
    d.base.Some? && d.cls in classes && match e
    case BadRegion(n, b) => n == d.name && b == d.base.value && !(0xA000_0000 <= b % 0x1_0000_0000 <= 0xAFFF_FFFF)
    case BadLeftAddrBit(n, l) => n == d.name && l == classes[d.cls] && !(0 <= l <= 62)
    case OverSpec(n, b, k) => n == d.name && b == d.base.value && 0 <= classes[d.cls] <= 62 && k == classes[d.cls] + 1 && b % Pow2(k) != 0
    case Overlap(_, _) => false
  }

  lemma {:induction false} RegionIs(b: nat)
    ensures (b / 0x1000_0000) % 16 == 0xA <==> 0xA000_0000 <= b % 0x1_0000_0000 <= 0xAFFF_FFFF
  {
    var q := b / 0x1000_0000;
    assert b % 0x1_0000_0000 == 0x1000_0000 * (q % 16) + b % 0x1000_0000;
  }

  /** validateAddresses returns no error exactly when AddressesOk. */
  method ValidateAddresses(devs: seq<Device>, classes: Classes) returns (errs: seq<AddrError>)
    requires forall d :: d in devs ==> d.Valid()
    ensures |errs| == 0 <==> AddressesOk(devs, classes)
    ensures forall e :: e in errs && !e.Overlap? <==> exists d :: d in devs && Faulty(d, classes, e)
    ensures forall e :: e in errs && e.Overlap? ==> IsOverlap(e, Spans(devs, classes) + RESERVED)
    ensures AllReported(errs, Spans(devs, classes) + RESERVED)
  {
    hide Faulty, DeviceOk;
    errs := [];
    for i := 0 to |devs|
      invariant |errs| == 0 <==> forall k :: 0 <= k < i ==> DeviceOk(devs[k], classes)
      invariant forall e :: e in errs <==> exists k :: 0 <= k < i && Faulty(devs[k], classes, e)
      invariant forall e :: e in errs ==> !e.Overlap?
    {
      var d := devs[i];
      var e := CheckDevice(d, classes);
      errs := errs + e;
    }
    assert (forall d :: d in devs ==> DeviceOk(d, classes)) <==> forall k :: 0 <= k < |devs| ==> DeviceOk(devs[k], classes);
    var overlaps := CheckAddrOverlap(devs, classes);
    errs := errs + overlaps;
  }

  /** The body of the loop over the devices. */
  method CheckDevice(d: Device, classes: Classes) returns (errs: seq<AddrError>)
    requires d.Valid()
    ensures |errs| == 0 <==> DeviceOk(d, classes)
    ensures forall e :: e in errs <==> Faulty(d, classes, e)
    ensures forall e :: e in errs ==> !e.Overlap?
  {
    errs := [];
    if d.base.Some? { RegionIs(d.base.value); }
    if d.base.None? || d.cls !in classes { return; }
    var base, left := d.base.value, classes[d.cls];
    if (base / 0x1000_0000) % 16 != 0xA {
      errs := errs + [BadRegion(d.name, base)];
    }
    if left < 0 || left > MAX_LEFT_ADDR_BIT {
      errs := errs + [BadLeftAddrBit(d.name, left)];
      assert forall e :: Faulty(d, classes, e) ==> e == BadLeftAddrBit(d.name, left) || e == BadRegion(d.name, base);
      return;
    }
    if base % Pow2(left + 1) != 0 {
      errs := errs + [OverSpec(d.name, base, left + 1)];
    }
  }
}
