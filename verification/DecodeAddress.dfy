// From validated device addresses to what decode_address returns for every bus address: tools/socgen/elaborate/addr_validate.go together
// with tools/socgen/emit/databus.go.

module DecodeAddress {
  import opened Common
  import opened BitStrings
  import opened Decoder
  import V = AddrValidate
  import C = ClassRegs

  // ---- From resolved devices to bus devices ----

  function Project(d: V.Device, classes: V.Classes): BusDevice
    requires d.base.Some?
  {
    BusDevice(d.name, d.base.value, if d.cls in classes then classes[d.cls] else 0)
  }

  predicate OnBus(d: V.Device) { d.dataBus && d.base.Some? }

  function BusDevices(devs: seq<V.Device>, classes: V.Classes): seq<BusDevice> {
    if devs == [] then []
    else
      var n := |devs| - 1;
      BusDevices(devs[..n], classes) + (if OnBus(devs[n]) then [Project(devs[n], classes)] else [])
  }

  ghost predicate ByName(bus: seq<BusDevice>) { forall i, j :: 0 <= i < j < |bus| ==> !V.Less(bus[j].name, bus[i].name) }

  lemma {:induction false} PlacedByName(bus: seq<BusDevice>, j: nat, b: BusDevice)
    requires ByName(bus) && j <= |bus| && (j > 0 ==> !V.Less(b.name, bus[j - 1].name)) && forall k :: j <= k < |bus| ==> V.Less(b.name, bus[k].name)
    ensures ByName(bus[..j] + [b] + bus[j..])
  {
    hide V.Less;
    forall k | 0 <= k < j ensures !V.Less(b.name, bus[k].name) { V.LessOrder(bus[k].name, bus[j - 1].name, b.name); }
    forall k | j <= k < |bus| ensures !V.Less(bus[k].name, b.name) { V.LessOrder(bus[k].name, b.name, b.name); }
    var s := bus[..j] + [b] + bus[j..];
    forall x, y | 0 <= x < y < |s| ensures !V.Less(s[y].name, s[x].name) {
      assert forall k :: 0 <= k < |s| ==> s[k] == if k < j then bus[k] else if k == j then b else bus[k - 1];
    }
  }

  lemma {:induction false} NoneByName()
    ensures ByName([])
  {
  }

  method PlaceByName(bus: seq<BusDevice>, b: BusDevice) returns (next: seq<BusDevice>)
    requires ByName(bus)
    ensures ByName(next) && multiset(next) == multiset(bus) + multiset{b}
  {
    hide V.Less, ByName;
    var j := |bus|;
    while j > 0 && V.Less(b.name, bus[j - 1].name)
      invariant 0 <= j <= |bus| && forall k :: j <= k < |bus| ==> V.Less(b.name, bus[k].name)
    {
      j := j - 1;
    }
    InsertMultiset(bus, j, b);
    PlacedByName(bus, j, b);
    next := bus[..j] + [b] + bus[j..];
  }

  /** busDevicesOf: the data-bus devices, sorted by name. */
  method BusDevicesOf(devs: seq<V.Device>, classes: V.Classes) returns (bus: seq<BusDevice>)
    ensures multiset(bus) == multiset(BusDevices(devs, classes))
    ensures ByName(bus)
  {
    hide V.Less, ByName;
    NoneByName();
    bus := [];
    for i := 0 to |devs|
      invariant multiset(bus) == multiset(BusDevices(devs[..i], classes)) && ByName(bus)
    {
      assert devs[..i + 1][..i] == devs[..i];
      if OnBus(devs[i]) {
        bus := PlaceByName(bus, Project(devs[i], classes));
      }
    }
    assert devs[..|devs|] == devs;
  }

  // ---- Literals ----

  /** Stands for strings.ToUpper. */
  type Case = string -> string

  function DevLit(up: Case, name: string): string { "DEV_" + up(name) }

  function BusLits(up: Case, bus: seq<BusDevice>): map<string, string> {
    if bus == [] then map["none" := "NONE"]
    else BusLits(up, bus[..|bus| - 1])[bus[|bus| - 1].name := DevLit(up, bus[|bus| - 1].name)]
  }

  lemma {:induction false} BusLitsAt(up: Case, bus: seq<BusDevice>, name: string)
    ensures At(BusLits(up, bus), name) ==
            if exists b :: b in bus && b.name == name then DevLit(up, name) else if name == "none" then "NONE" else ""
  {
    if bus != [] {
      var n := |bus| - 1;
      BusLitsAt(up, bus[..n], name);
      assert bus == bus[..n] + [bus[n]];
      if bus[n].name == name { assert bus[n] in bus; }
    }
  }

  // ---- What validation gives the decoder ----

  ghost predicate InRange(b: BusDevice, addr: int) {
    b.leftBit >= -1 && b.base <= addr < b.base + Pow2(b.leftBit + 1)
  }

  ghost predicate Ranged(b: BusDevice) {
    0 <= b.leftBit <= 28 && b.base < 0x1_0000_0000 && (b.base / 0x1000_0000) % 16 == 10 && b.base % Pow2(b.leftBit + 1) == 0
  }

  ghost predicate Apart(b: BusDevice, c: BusDevice) { forall addr :: !(InRange(b, addr) && InRange(c, addr)) }

  /** What the decoder needs of its devices. */
  ghost predicate BusOk(bus: seq<BusDevice>) {
    && (forall b :: b in bus ==> Ranged(b))
    && DistinctNames(bus)
    && (forall i, j :: 0 <= i < j < |bus| ==> Apart(bus[i], bus[j]))
    && (forall b :: b in bus ==> !InRange(b, 0xabcd0600))
  }

  /** The assumptions of the decoder that validateAddresses does not check itself. */
  ghost predicate Assumed(devs: seq<V.Device>, classes: V.Classes) {
    && (forall d :: d in devs ==> d.Valid())
    && (forall i, j :: 0 <= i < j < |devs| ==> devs[i].name != devs[j].name)
    && (forall d :: d in devs && OnBus(d) ==> d.cls in classes && d.base.value < 0x1_0000_0000)
  }

  lemma {:induction false} GigabyteAligned(base: nat, z: int)
    requires base == 0x4000_0000 * z
    ensures (base / 0x1000_0000) % 16 != 10
  {
    assert base / 0x1000_0000 == 4 * z;
  }

  lemma {:induction false} RegionBoundsWidth(base: nat, left: nat)
    requires (base / 0x1000_0000) % 16 == 10 && base % Pow2(left + 1) == 0
    ensures left <= 28
  {
    if left > 28 {
      var m, q := Pow2(left + 1 - 30), base / Pow2(left + 1);
      Pow2Sum(30, left + 1 - 30);
      Pow2Table();
      MulAssoc(0x4000_0000, m, q);
      GigabyteAligned(base, m * q);
    }
  }

  lemma {:induction false} SpanIsRange(d: V.Device, classes: V.Classes, addr: int)
    requires d.Valid() && OnBus(d) && d.cls in classes && V.DeviceOk(d, classes) && d.base.value < 0x1_0000_0000
    ensures Ranged(Project(d, classes))
    ensures V.Span(d, classes) == Some(V.Range(d.name, d.base.value, d.base.value + Pow2(classes[d.cls] + 1) - 1))
    ensures InRange(Project(d, classes), addr) <==> V.Span(d, classes).value.lo <= addr <= V.Span(d, classes).value.hi
  {
    RegionBoundsWidth(d.base.value, classes[d.cls]);
    Pow2Monotone(classes[d.cls] + 1, 29);
    Pow2Table();
    var p := Pow2(classes[d.cls] + 1);
    assert (d.base.value + p - 1) % V.U64 == d.base.value + p - 1;
  }

  lemma {:induction false} SpanListed(devs: seq<V.Device>, classes: V.Classes, i: nat)
    requires (forall d :: d in devs ==> d.Valid()) && i < |devs| && V.Span(devs[i], classes).Some?
    ensures V.Span(devs[i], classes).value in V.Spans(devs, classes)
  {
    var n := |devs| - 1;
    if i < n { SpanListed(devs[..n], classes, i); }
  }

  lemma {:induction false} SpansApart(devs: seq<V.Device>, classes: V.Classes, i: nat, j: nat)
    requires (forall d :: d in devs ==> d.Valid()) && V.Disjoint(V.Spans(devs, classes)) && i < j < |devs|
    requires V.Span(devs[i], classes).Some? && V.Span(devs[j], classes).Some?
    ensures !V.Overlapping(V.Span(devs[i], classes).value, V.Span(devs[j], classes).value)
  {
    var n := |devs| - 1;
    var front, all := V.Spans(devs[..n], classes), V.Spans(devs, classes);
    assert forall a :: 0 <= a < |front| ==> all[a] == front[a];
    if j < n {
      SpansApart(devs[..n], classes, i, j);
    } else {
      SpanListed(devs[..n], classes, i);
      var a :| 0 <= a < |front| && front[a] == V.Span(devs[i], classes).value;
      assert all[|front|] == V.Span(devs[j], classes).value;
    }
  }

  /** Each bus device comes from one resolved device, in order. */
  lemma {:induction false} Origin(devs: seq<V.Device>, classes: V.Classes, k: nat) returns (i: nat)
    requires k < |BusDevices(devs, classes)|
    ensures i < |devs| && OnBus(devs[i]) && BusDevices(devs, classes)[k] == Project(devs[i], classes)
  {
    var n := |devs| - 1;
    if k < |BusDevices(devs[..n], classes)| { i := Origin(devs[..n], classes, k); } else { i := n; }
  }

  lemma {:induction false} Projected(devs: seq<V.Device>, classes: V.Classes, i: nat)
    requires i < |devs| && OnBus(devs[i])
    ensures Project(devs[i], classes) in BusDevices(devs, classes)
  {
    var n := |devs| - 1;
    if i < n { Projected(devs[..n], classes, i); }
  }

  lemma {:induction false} BusNamesDistinct(devs: seq<V.Device>, classes: V.Classes)
    requires forall i, j :: 0 <= i < j < |devs| ==> devs[i].name != devs[j].name
    ensures DistinctNames(BusDevices(devs, classes))
  {
    if devs != [] {
      var n := |devs| - 1;
      BusNamesDistinct(devs[..n], classes);
      forall k | 0 <= k < |BusDevices(devs[..n], classes)|
        ensures BusDevices(devs[..n], classes)[k].name != devs[n].name
      {
        var i := Origin(devs[..n], classes, k);
      }
    }
  }

  lemma {:induction false} TwoPlaces<T>(s: seq<T>, i: nat, j: nat)
    requires i < j < |s| && s[i] == s[j]
    ensures multiset(s)[s[i]] >= 2
  {
    assert s == s[..i] + [s[i]] + s[i + 1..j] + [s[j]] + s[j + 1..];
  }

  lemma {:induction false} OnePlace(s: seq<BusDevice>, x: BusDevice)
    requires DistinctNames(s)
    ensures multiset(s)[x] <= 1
  {
    if s != [] {
      var n := |s| - 1;
      assert s == s[..n] + [s[n]];
      OnePlace(s[..n], x);
      assert s[n] !in s[..n];
    }
  }

  lemma {:induction false} Reorder(a: seq<BusDevice>, b: seq<BusDevice>)
    requires multiset(a) == multiset(b) && DistinctNames(a)
    ensures DistinctNames(b)
  {
    forall i, j | 0 <= i < j < |b| ensures b[i].name != b[j].name {
      assert b[i] in multiset(a) && b[j] in multiset(a);
      OnePlace(a, b[i]);
      if b[i] == b[j] { TwoPlaces(b, i, j); }
    }
  }

  /** A design that validates cleanly, under the stated assumptions, is fit for the decoder in whatever order its devices come. */
  lemma {:induction false} ValidatedBus(devs: seq<V.Device>, classes: V.Classes, bus: seq<BusDevice>)
    requires Assumed(devs, classes) && V.AddressesOk(devs, classes)
    requires multiset(bus) == multiset(BusDevices(devs, classes))
    ensures BusOk(bus)
  {
    var spans := V.Spans(devs, classes);
    var listed := spans + V.RESERVED;
    assert forall a, b :: 0 <= a < b < |spans| ==> listed[a] == spans[a] && listed[b] == spans[b];
    BusNamesDistinct(devs, classes);
    Reorder(BusDevices(devs, classes), bus);
    forall b | b in bus
      ensures Ranged(b) && !InRange(b, 0xabcd0600)
    {
      var i := DeviceOf(devs, classes, bus, b);
      SpanIsRange(devs[i], classes, 0xabcd0600);
      SpanListed(devs, classes, i);
      var a :| 0 <= a < |spans| && spans[a] == V.Span(devs[i], classes).value;
      assert listed[a] == spans[a] && listed[|spans| + 2] == V.RESERVED[2];
      assert !V.Overlapping(listed[a], listed[|spans| + 2]);
    }
    forall i, j | 0 <= i < j < |bus|
      ensures Apart(bus[i], bus[j])
    {
      var x := DeviceOf(devs, classes, bus, bus[i]);
      var y := DeviceOf(devs, classes, bus, bus[j]);
      assert x != y;
      SpanIsRange(devs[x], classes, 0);
      SpanIsRange(devs[y], classes, 0);
      SpansApart(devs, classes, if x < y then x else y, if x < y then y else x);
    }
  }

  lemma {:induction false} DeviceOf(devs: seq<V.Device>, classes: V.Classes, bus: seq<BusDevice>, b: BusDevice) returns (i: nat)
    requires multiset(bus) == multiset(BusDevices(devs, classes)) && b in bus
    ensures i < |devs| && OnBus(devs[i]) && Project(devs[i], classes) == b
  {
    assert b in multiset(bus);
    assert b in BusDevices(devs, classes);
    var k :| 0 <= k < |BusDevices(devs, classes)| && BusDevices(devs, classes)[k] == b;
    i := Origin(devs, classes, k);
  }

  // ---- Prefixes are ranges ----

  /** A device's exact prefix begins an address exactly when the address is in the device's range. */
  lemma {:induction false} PrefixIsRange(b: BusDevice, addr: nat)
    requires Ranged(b) && addr < 0x1_0000_0000
    ensures DevicePrefix(b) <= Bits(addr, 32) <==> InRange(b, addr)
  {
    var k := b.leftBit + 1;
    var p, q := Pow2(k), Pow2(32 - k);
    assert p * q == 0x1_0000_0000 by { Pow2Sum(k, 32 - k); Pow2Table(); }
    QuotientBound(addr, p, q);
    QuotientBound(b.base, p, q);
    AlignedWindow(addr, b.base, p);
    SameLeadingBits(b.base, addr, k);
  }

  lemma {:induction false} SameLeadingBits(x: nat, y: nat, k: nat)
    requires k <= 32 && x / Pow2(k) < Pow2(32 - k) && y / Pow2(k) < Pow2(32 - k)
    ensures Bits(x, 32)[..32 - k] <= Bits(y, 32) <==> x / Pow2(k) == y / Pow2(k)
  {
    hide Bits, Pow2;
    BitsTake(x, 32, k);
    BitsTake(y, 32, k);
    assert Bits(x, 32)[..32 - k] <= Bits(y, 32) <==> Bits(x, 32)[..32 - k] == Bits(y, 32)[..32 - k];
    if Bits(x / Pow2(k), 32 - k) == Bits(y / Pow2(k), 32 - k) { BitsInjective(x / Pow2(k), y / Pow2(k), 32 - k); }
  }

  lemma {:induction false} QuotientBound(x: nat, p: nat, q: nat)
    requires p >= 1 && x < p * q
    ensures x / p < q
  {
    var t := x / p;
    assert x == p * t + x % p;
    if t > q { MulGap(p, q, t); }
  }

  /** The leading four bits of an address are its top hexadecimal digit. */
  lemma {:induction false} TopDigit(addr: nat)
    requires addr < 0x1_0000_0000 && addr / 0x1000_0000 == 10
    ensures Bits(addr, 32)[..4] == "1010"
  {
    BitsTake(addr, 32, 28);
    Pow2Table();
    TenInBits();
  }

  lemma {:induction false} TenInBits()
    ensures Bits(10, 4) == "1010"
  {
    assert Bits(1, 1) == Bits(0, 0) + "1" == "1";
    assert Bits(2, 2) == Bits(1, 1) + "0" == "10";
    assert Bits(5, 3) == Bits(2, 2) + "1" == "101";
    assert Bits(10, 4) == Bits(5, 3) + "0" == "1010";
  }

  lemma {:induction false} BusFamily(bus: seq<BusDevice>)
    requires BusOk(bus)
    ensures InWidth(bus) && Family(bus, ExactPrefixes(bus)) && Family(bus, SimplePrefixes(bus))
  {
    var exact := ExactPrefixes(bus);
    forall i | 0 <= i < |bus|
      ensures At(exact, bus[i].name) == DevicePrefix(bus[i]) && OnOnePath(DevicePrefix(bus[i]), "1010")
      ensures DevicePrefix(bus[i]) <= Bits(bus[i].base, 32)
    {
      ExactPrefixesAt(bus, i);
      assert bus[i] in bus;
      TopDigit(bus[i].base);
      assert "1010" <= Bits(bus[i].base, 32);
    }
    forall i, j | 0 <= i < |bus| && 0 <= j < |bus| && i != j
      ensures !(At(exact, bus[i].name) <= At(exact, bus[j].name))
    {
      assert bus[i] in bus && bus[j] in bus;
      PrefixIsRange(bus[i], bus[j].base);
      assert InRange(bus[j], bus[j].base);
      assert Apart(bus[if i < j then i else j], bus[if i < j then j else i]);
    }
    forall b | b in bus
      ensures Binary(At(exact, b.name)) && |At(exact, b.name)| <= 32 && OnOnePath(At(exact, b.name), "1010")
    {
      var i :| 0 <= i < |bus| && bus[i] == b;
    }
    assert Family(bus, exact);
    SimpleFamily(bus);
  }

  lemma {:induction false} SimpleFamily(bus: seq<BusDevice>)
    requires InWidth(bus) && DistinctNames(bus) && Family(bus, ExactPrefixes(bus))
    ensures Family(bus, SimplePrefixes(bus))
  {
    var simple := SimplePrefixes(bus);
    forall i | 0 <= i < |bus|
      ensures var s := At(simple, bus[i].name); s <= DevicePrefix(bus[i]) && Binary(s) && |s| <= 32 && OnOnePath(s, "1010")
    {
      assert bus[i] in bus;
      SimplePrefixBegins(bus, i);
      ExactPrefixesAt(bus, i);
    }
    forall i, j | 0 <= i < |bus| && 0 <= j < |bus| && i != j
      ensures !(At(simple, bus[i].name) <= At(simple, bus[j].name))
    {
      SimplePrefixesSeparate(bus, i, j);
    }
    forall b | b in bus
      ensures Binary(At(simple, b.name)) && |At(simple, b.name)| <= 32 && OnOnePath(At(simple, b.name), "1010")
    {
      var i :| 0 <= i < |bus| && bus[i] == b;
    }
  }

  lemma {:induction false} SimplePrefixBegins(bus: seq<BusDevice>, i: nat)
    requires InWidth(bus) && DistinctNames(bus) && PrefixFree(bus, ExactPrefixes(bus)) && i < |bus|
    ensures At(SimplePrefixes(bus), bus[i].name) <= DevicePrefix(bus[i])
  {
    var k := SimplePrefixAt(bus, i);
    assert "" + "" == "";
    TrimBegins(BuildTrie(bus, ExactPrefixes(bus)), "", "", k);
  }

  // ---- The theorems ----

  /** Bus addresses reach this decoder with top digit a. */
  ghost predicate Reaches(addr: int) { 0xA000_0000 <= addr <= 0xAFFF_FFFF }

  ghost function Decode(bus: seq<BusDevice>, lits: map<string, string>, simple: bool, addr: nat): Option<string>
    requires InWidth(bus)
  {
    Exec(DecodeBody(bus, if simple then SimplePrefixes(bus) else ExactPrefixes(bus), lits), Bits(addr, 32))
  }

  /** Exact mode returns the literal of the device whose range holds the address, and that of "none" when there is none. */
  lemma {:induction false} ExactDecode(bus: seq<BusDevice>, lits: map<string, string>, addr: nat)
    requires BusOk(bus) && Reaches(addr)
    ensures InWidth(bus)
    ensures forall b :: b in bus && InRange(b, addr) ==> Decode(bus, lits, false, addr) == Some(At(lits, b.name))
    ensures (forall b :: b in bus ==> !InRange(b, addr)) ==> Decode(bus, lits, false, addr) == Some(At(lits, "none"))
  {
    BusFamily(bus);
    TopDigit(addr);
    DecodeBodyCorrect(bus, ExactPrefixes(bus), lits, Bits(addr, 32));
    forall i | 0 <= i < |bus|
      ensures At(ExactPrefixes(bus), bus[i].name) <= Bits(addr, 32) <==> InRange(bus[i], addr)
    {
      assert bus[i] in bus;
      ExactPrefixesAt(bus, i);
      PrefixIsRange(bus[i], addr);
    }
  }

  /** The end-to-end statement on the resolved devices themselves: if validation finds nothing, decode_address finds the
      data-bus device whose span holds the address. */
  lemma {:induction false} ValidatedExactDecode(devs: seq<V.Device>, classes: V.Classes, bus: seq<BusDevice>, lits: map<string, string>, addr: nat)
    requires Assumed(devs, classes) && V.AddressesOk(devs, classes) && Reaches(addr)
    requires multiset(bus) == multiset(BusDevices(devs, classes))
    ensures InWidth(bus)
    ensures forall d :: d in devs && OnBus(d) && V.Span(d, classes).value.lo <= addr <= V.Span(d, classes).value.hi ==>
              Decode(bus, lits, false, addr) == Some(At(lits, d.name))
    ensures (forall d :: d in devs && OnBus(d) ==> !(V.Span(d, classes).value.lo <= addr <= V.Span(d, classes).value.hi)) ==>
              Decode(bus, lits, false, addr) == Some(At(lits, "none"))
  {
    ValidatedBus(devs, classes, bus);
    ExactDecode(bus, lits, addr);
    forall d | d in devs && OnBus(d)
      ensures Project(d, classes) in bus
      ensures InRange(Project(d, classes), addr) <==> V.Span(d, classes).value.lo <= addr <= V.Span(d, classes).value.hi
    {
      var i :| 0 <= i < |devs| && devs[i] == d;
      Projected(devs, classes, i);
      assert Project(d, classes) in multiset(bus);
      SpanIsRange(d, classes, addr);
    }
    forall b | b in bus
      ensures exists d :: d in devs && OnBus(d) && Project(d, classes) == b
    {
      var i := DeviceOf(devs, classes, bus, b);
    }
  }

  /** Simple mode agrees with exact mode on every mapped address. On any other it returns the device whose trimmed
      prefix begins the address, or the literal of "none" when there is no such device. */
  lemma {:induction false} SimpleRefinesExact(bus: seq<BusDevice>, lits: map<string, string>, addr: nat)
    requires BusOk(bus) && Reaches(addr)
    ensures InWidth(bus)
    ensures forall b :: b in bus && InRange(b, addr) ==> Decode(bus, lits, true, addr) == Decode(bus, lits, false, addr)
    ensures forall b :: b in bus && At(SimplePrefixes(bus), b.name) <= Bits(addr, 32) ==> Decode(bus, lits, true, addr) == Some(At(lits, b.name))
    ensures (forall b :: b in bus ==> !(At(SimplePrefixes(bus), b.name) <= Bits(addr, 32))) ==>
              Decode(bus, lits, true, addr) == Some(At(lits, "none"))
  {
    BusFamily(bus);
    TopDigit(addr);
    ExactDecode(bus, lits, addr);
    DecodeBodyCorrect(bus, SimplePrefixes(bus), lits, Bits(addr, 32));
    forall b | b in bus && InRange(b, addr)
      ensures Decode(bus, lits, true, addr) == Decode(bus, lits, false, addr)
    {
      var i :| 0 <= i < |bus| && bus[i] == b;
      SimplePrefixBegins(bus, i);
      PrefixIsRange(b, addr);
    }
  }

  // ---- decode_address as emitted ----

  /** The devices whose range holds the address, and those whose trimmed prefix begins it. */
  ghost function Mapped(bus: seq<BusDevice>, addr: nat): set<BusDevice> { set b | b in bus && InRange(b, addr) }

  ghost function Trimmed(bus: seq<BusDevice>, addr: nat): set<BusDevice>
    requires InWidth(bus)
  {
    set b | b in bus && At(SimplePrefixes(bus), b.name) <= Bits(addr, 32)
  }

  /** r is the literal of the one device that is hit, or that of "none". */
  ghost predicate Picks(bus: seq<BusDevice>, lits: map<string, string>, r: Option<string>, hit: set<BusDevice>) {
    && (forall b :: b in hit ==> b in bus && r == Some(At(lits, b.name)))
    && (forall b, c :: b in hit && c in hit ==> b == c)
    && (hit == {} ==> r == Some(At(lits, "none")))
  }

  /** Each device answers with its own enumeration literal exactly when it is hit, and NONE is returned exactly when none is. */
  ghost predicate Answers(up: Case, bus: seq<BusDevice>, r: Option<string>, hit: set<BusDevice>) {
    && (forall b :: b in bus ==> (r == Some("DEV_" + up(b.name)) <==> b in hit))
    && (r == Some("NONE") <==> hit == {})
  }

  ghost predicate UpperDiffer(up: Case, bus: seq<BusDevice>) {
    forall i, j :: 0 <= i < j < |bus| ==> up(bus[i].name) != up(bus[j].name)
  }

  ghost predicate NoNone(bus: seq<BusDevice>) { forall b :: b in bus ==> b.name != "none" }

  lemma {:induction false} SameLiteral(up: Case, a: string, b: string)
    ensures DevLit(up, a) == DevLit(up, b) <==> up(a) == up(b)
    ensures DevLit(up, a) != "NONE"
  {
    assert DevLit(up, a)[4..] == up(a) && DevLit(up, b)[4..] == up(b) && DevLit(up, a)[0] == 'D';
  }

  lemma {:induction false} LiteralIs(up: Case)
    ensures forall name :: DevLit(up, name) == "DEV_" + up(name)
  {
  }

  /** The emitted literals tell the answers apart exactly when no other device has the literal of the one that is hit, and
      no device is called "none" when none is hit. */
  lemma {:induction false} LiteralsAnswer(up: Case, bus: seq<BusDevice>, r: Option<string>, hit: set<BusDevice>)
    requires Picks(bus, BusLits(up, bus), r, hit)
    ensures Answers(up, bus, r, hit) <==>
            (forall b, c :: b in hit && c in bus && c !in hit ==> up(b.name) != up(c.name)) && (hit == {} ==> NoNone(bus))
  {
    hide DevLit;
    BusLitsAt(up, bus, "none");
    forall b | b in bus
      ensures At(BusLits(up, bus), b.name) == DevLit(up, b.name) && DevLit(up, b.name) != "NONE"
    {
      BusLitsAt(up, bus, b.name);
      SameLiteral(up, b.name, b.name);
    }
    assert forall b :: b in bus ==> DevLit(up, b.name) == "DEV_" + up(b.name) by { LiteralIs(up); }
    forall b, c | b in hit && c in bus
      ensures r == Some(DevLit(up, c.name)) <==> up(b.name) == up(c.name)
    {
      SameLiteral(up, b.name, c.name);
    }
  }

  lemma {:induction false} ExactPicks(up: Case, bus: seq<BusDevice>, addr: nat)
    requires BusOk(bus) && Reaches(addr)
    ensures InWidth(bus) && Picks(bus, BusLits(up, bus), Decode(bus, BusLits(up, bus), false, addr), Mapped(bus, addr))
  {
    hide Decode, BusLits, InRange;
    ExactDecode(bus, BusLits(up, bus), addr);
    OneMapped(bus, addr);
    if Mapped(bus, addr) == {} {
      forall b | b in bus ensures !InRange(b, addr) { assert b !in Mapped(bus, addr); }
    }
  }

  lemma {:induction false} OneMapped(bus: seq<BusDevice>, addr: nat)
    requires BusOk(bus)
    ensures forall b, c :: b in Mapped(bus, addr) && c in Mapped(bus, addr) ==> b == c
  {
    forall b, c | b in Mapped(bus, addr) && c in Mapped(bus, addr) ensures b == c {
      var i :| 0 <= i < |bus| && bus[i] == b;
      var j :| 0 <= j < |bus| && bus[j] == c;
      assert i != j ==> Apart(bus[if i < j then i else j], bus[if i < j then j else i]);
    }
  }

  lemma {:induction false} SimplePicks(up: Case, bus: seq<BusDevice>, addr: nat)
    requires BusOk(bus) && Reaches(addr)
    ensures InWidth(bus) && Picks(bus, BusLits(up, bus), Decode(bus, BusLits(up, bus), true, addr), Trimmed(bus, addr))
  {
    hide Decode, BusLits, BusOk, SimplePrefixes, Bits;
    SimpleRefinesExact(bus, BusLits(up, bus), addr);
    OneTrimmed(bus, addr);
    if Trimmed(bus, addr) == {} {
      forall b | b in bus ensures !(At(SimplePrefixes(bus), b.name) <= Bits(addr, 32)) { assert b !in Trimmed(bus, addr); }
    }
  }

  lemma {:induction false} OneTrimmed(bus: seq<BusDevice>, addr: nat)
    requires BusOk(bus)
    ensures InWidth(bus) && forall b, c :: b in Trimmed(bus, addr) && c in Trimmed(bus, addr) ==> b == c
  {
    BusFamily(bus);
    hide BusOk, SimplePrefixes, Regional, Bits;
    forall b, c | b in Trimmed(bus, addr) && c in Trimmed(bus, addr) ensures b == c {
      var i :| 0 <= i < |bus| && bus[i] == b;
      var j :| 0 <= j < |bus| && bus[j] == c;
      assert OnOnePath(At(SimplePrefixes(bus), b.name), At(SimplePrefixes(bus), c.name));
    }
  }

  lemma {:induction false} MappedIsTrimmed(bus: seq<BusDevice>, addr: nat)
    requires BusOk(bus) && addr < 0x1_0000_0000
    ensures InWidth(bus) && Mapped(bus, addr) <= Trimmed(bus, addr)
  {
    BusFamily(bus);
    forall b | b in Mapped(bus, addr) ensures b in Trimmed(bus, addr) {
      var i :| 0 <= i < |bus| && bus[i] == b;
      SimplePrefixBegins(bus, i);
      PrefixIsRange(b, addr);
    }
  }

  ghost predicate AnswersByRange(up: Case, bus: seq<BusDevice>, simple: bool, addr: nat)
    requires InWidth(bus)
  {
    Answers(up, bus, Decode(bus, BusLits(up, bus), simple, addr), Mapped(bus, addr))
  }

  ghost predicate AnswersByPrefix(up: Case, bus: seq<BusDevice>, addr: nat)
    requires InWidth(bus)
  {
    Answers(up, bus, Decode(bus, BusLits(up, bus), true, addr), Trimmed(bus, addr))
  }

  /** The literals are upper-cased names and the map entry "none" is shared with a device of that name, so the emitted
      function is right exactly when no two names differ only by case and no device is called "none". */
  lemma {:induction false} EmittedDecodeExact(up: Case, bus: seq<BusDevice>)
    requires BusOk(bus)
    ensures InWidth(bus)
    ensures (forall addr: nat :: Reaches(addr) ==> AnswersByRange(up, bus, false, addr)) <==> UpperDiffer(up, bus) && NoNone(bus)
  {
    hide Decode, Picks, Answers;
    if UpperDiffer(up, bus) && NoNone(bus) {
      forall addr: nat | Reaches(addr) ensures AnswersByRange(up, bus, false, addr) {
        ExactPicks(up, bus, addr);
        LiteralsAnswer(up, bus, Decode(bus, BusLits(up, bus), false, addr), Mapped(bus, addr));
      }
    } else if b :| b in bus && b.name == "none" {
      NoneNamed(up, bus, b);
    } else {
      var i, j :| 0 <= i < j < |bus| && up(bus[i].name) == up(bus[j].name);
      SharedLiteral(up, bus, i, j);
    }
  }

  /** A device called "none" answers for the unmapped addresses too. */
  lemma {:induction false} NoneNamed(up: Case, bus: seq<BusDevice>, b: BusDevice)
    requires BusOk(bus) && InWidth(bus) && b in bus && b.name == "none"
    ensures Reaches(0xabcd0600) && !AnswersByRange(up, bus, false, 0xabcd0600)
  {
    hide Decode, Picks, Answers;
    ExactPicks(up, bus, 0xabcd0600);
    LiteralsAnswer(up, bus, Decode(bus, BusLits(up, bus), false, 0xabcd0600), Mapped(bus, 0xabcd0600));
  }

  /** Two names that differ only by case answer with one literal. */
  lemma {:induction false} SharedLiteral(up: Case, bus: seq<BusDevice>, i: nat, j: nat)
    requires BusOk(bus) && InWidth(bus) && i < j < |bus| && up(bus[i].name) == up(bus[j].name)
    ensures Reaches(bus[i].base) && !AnswersByRange(up, bus, false, bus[i].base)
  {
    hide Decode, Picks, Answers;
    var addr := bus[i].base;
    assert bus[i] in bus && bus[j] in bus;
    assert InRange(bus[i], addr) && Apart(bus[i], bus[j]);
    ExactPicks(up, bus, addr);
    LiteralsAnswer(up, bus, Decode(bus, BusLits(up, bus), false, addr), Mapped(bus, addr));
  }

  ghost predicate EveryAddressTrimmed(bus: seq<BusDevice>)
    requires InWidth(bus)
  {
    forall addr: nat :: Reaches(addr) ==> Trimmed(bus, addr) != {}
  }

  /** Simple mode, on the mapped addresses: right exactly when no two names differ only by case. */
  lemma {:induction false} EmittedSimpleExact(up: Case, bus: seq<BusDevice>)
    requires BusOk(bus)
    ensures InWidth(bus)
    ensures (forall addr: nat :: Reaches(addr) && Mapped(bus, addr) != {} ==> AnswersByRange(up, bus, true, addr)) <==> UpperDiffer(up, bus)
  {
    hide Decode, Picks, Answers;
    if UpperDiffer(up, bus) {
      forall addr: nat | Reaches(addr) && Mapped(bus, addr) != {} ensures AnswersByRange(up, bus, true, addr) {
        SimplePicks(up, bus, addr);
        OneHit(bus, addr);
        LiteralsAnswer(up, bus, Decode(bus, BusLits(up, bus), true, addr), Mapped(bus, addr));
      }
    } else {
      var i, j :| 0 <= i < j < |bus| && up(bus[i].name) == up(bus[j].name);
      SharedSimply(up, bus, i, j);
    }
  }

  /** A mapped address has the trimmed prefix of its own device alone. */
  lemma {:induction false} OneHit(bus: seq<BusDevice>, addr: nat)
    requires BusOk(bus) && Reaches(addr) && Mapped(bus, addr) != {}
    ensures InWidth(bus) && Trimmed(bus, addr) == Mapped(bus, addr)
  {
    hide BusOk, Mapped, Trimmed;
    MappedIsTrimmed(bus, addr);
    OneTrimmed(bus, addr);
    var b :| b in Mapped(bus, addr);
    assert forall c :: c in Trimmed(bus, addr) ==> c == b;
  }

  lemma {:induction false} SharedSimply(up: Case, bus: seq<BusDevice>, i: nat, j: nat)
    requires BusOk(bus) && InWidth(bus) && i < j < |bus| && up(bus[i].name) == up(bus[j].name)
    ensures var addr := bus[i].base; Reaches(addr) && Mapped(bus, addr) == Trimmed(bus, addr) != {} && !AnswersByRange(up, bus, true, addr)
  {
    hide Decode, Picks, Answers;
    var addr := bus[i].base;
    assert bus[i] in bus && bus[j] in bus;
    assert InRange(bus[i], addr) && Apart(bus[i], bus[j]);
    assert bus[i] in Mapped(bus, addr) && bus[j] !in Mapped(bus, addr);
    SimplePicks(up, bus, addr);
    OneHit(bus, addr);
    LiteralsAnswer(up, bus, Decode(bus, BusLits(up, bus), true, addr), Mapped(bus, addr));
  }

  /** Simple mode, on all addresses: each device answers exactly for its trimmed prefix, and NONE exactly for none, when
      no two names differ only by case and, unless every address has a trimmed prefix, no device is called "none". */
  lemma {:induction false} EmittedPrefixExact(up: Case, bus: seq<BusDevice>)
    requires BusOk(bus)
    ensures InWidth(bus)
    ensures (forall addr: nat :: Reaches(addr) ==> AnswersByPrefix(up, bus, addr)) <==> UpperDiffer(up, bus) && (NoNone(bus) || EveryAddressTrimmed(bus))
  {
    hide Decode, Picks, Answers, Trimmed, BusLits;
    BusFamily(bus);
    if UpperDiffer(up, bus) && (NoNone(bus) || EveryAddressTrimmed(bus)) {
      forall addr: nat | Reaches(addr) ensures AnswersByPrefix(up, bus, addr) {
        SimplePicks(up, bus, addr);
        UpperTrimmed(up, bus, addr);
        LiteralsAnswer(up, bus, Decode(bus, BusLits(up, bus), true, addr), Trimmed(bus, addr));
      }
    } else if i, j :| 0 <= i < j < |bus| && up(bus[i].name) == up(bus[j].name) {
      SharedSimply(up, bus, i, j);
    } else {
      var addr: nat :| Reaches(addr) && Trimmed(bus, addr) == {};
      SimplePicks(up, bus, addr);
      LiteralsAnswer(up, bus, Decode(bus, BusLits(up, bus), true, addr), {});
    }
  }

  lemma {:induction false} UpperTrimmed(up: Case, bus: seq<BusDevice>, addr: nat)
    requires InWidth(bus) && UpperDiffer(up, bus)
    ensures forall b, c :: b in Trimmed(bus, addr) && c in bus && c !in Trimmed(bus, addr) ==> up(b.name) != up(c.name)
  {
    forall b, c | b in bus && c in bus && b != c ensures up(b.name) != up(c.name) {
      var i :| 0 <= i < |bus| && bus[i] == b;
      var j :| 0 <= j < |bus| && bus[j] == c;
      assert up(bus[if i < j then i else j].name) != up(bus[if i < j then j else i].name);
    }
  }

  /** validateAddresses looks only at bits 31 to 28 of a 64-bit base. A device it accepts above 4 GiB decodes at its base
      modulo 2^32, an address outside its span; below, it decodes right. */
  lemma {:induction false} HighBase(b: BusDevice, lits: map<string, string>)
    requires 0 <= b.leftBit && (b.base / 0x1000_0000) % 16 == 10 && b.base % Pow2(b.leftBit + 1) == 0
    requires At(lits, b.name) != At(lits, "none") && !InRange(b, 0xabcd0600)
    ensures InWidth([b])
    ensures SingleDecodes(b, lits) <==> b.base < 0x1_0000_0000
  {
    RegionBoundsWidth(b.base, b.leftBit);
    assert InWidth([b]);
    if b.base < 0x1_0000_0000 {
      assert BusOk([b]);
      forall addr: nat | Reaches(addr)
        ensures Decode([b], lits, false, addr) == Some(At(lits, if InRange(b, addr) then b.name else "none"))
      {
        ExactDecode([b], lits, addr);
      }
    } else {
      var addr := b.base % 0x1_0000_0000;
      HighBaseAnswers(b, lits);
      assert Reaches(addr) && !InRange(b, addr);
    }
  }

  ghost predicate SingleDecodes(b: BusDevice, lits: map<string, string>)
    requires InWidth([b])
  {
    forall addr: nat :: Reaches(addr) ==> Decode([b], lits, false, addr) == Some(At(lits, if InRange(b, addr) then b.name else "none"))
  }

  lemma {:induction false} HighBaseAnswers(b: BusDevice, lits: map<string, string>)
    requires 0 <= b.leftBit <= 28 && (b.base / 0x1000_0000) % 16 == 10 && b.base % Pow2(b.leftBit + 1) == 0
    ensures InWidth([b]) && Reaches(b.base % 0x1_0000_0000)
    ensures Decode([b], lits, false, b.base % 0x1_0000_0000) == Some(At(lits, b.name))
  {
    Pow2Table();
    LowWord(b.base, 32);
    RegionOfLowWord(b.base);
    TopDigit(b.base % 0x1_0000_0000);
    SinglePrefixDecodes(b, lits, Bits(b.base, 32));
  }

  lemma {:induction false} LowWord(base: nat, n: nat)
    requires Pow2(n) == 0x1_0000_0000
    ensures Bits(base, n) == Bits(base % 0x1_0000_0000, n)
  {
    BitsIgnoreHigh(base % 0x1_0000_0000, base / 0x1_0000_0000, n, n);
  }

  lemma {:induction false} RegionOfLowWord(base: nat)
    requires (base / 0x1000_0000) % 16 == 10
    ensures (base % 0x1_0000_0000) / 0x1000_0000 == 10
  {
  }

  lemma {:induction false} SinglePrefixDecodes(b: BusDevice, lits: map<string, string>, v: string)
    requires 0 <= b.leftBit <= 28 && v == Bits(b.base, 32) && v[..4] == "1010"
    ensures InWidth([b])
    ensures Exec(DecodeBody([b], ExactPrefixes([b]), lits), v) == Some(At(lits, b.name))
  {
    var pre := ExactPrefixes([b]);
    ExactPrefixesAt([b], 0);
    assert "1010" <= v && At(pre, b.name) <= v;
    DecodeBodyCorrect([b], pre, lits, v);
    assert [b][0] == b;
  }

  // ==== tools/socgen/elaborate/addr_validate.go with tools/socgen/emit/databus.go: buses with a base address of 4 GiB or more, which the
  // validation accepts when bits 31 to 28 are right.

  // ---- The trie without the assumption that no prefix begins another ----

  lemma {:induction false} FirstEntry(t: Trie, bits: string) returns (k: nat)
    requires Lookup(t, bits).Some?
    ensures k <= |bits| && Entry(t, bits[..k]) == Lookup(t, bits) && forall j :: 0 <= j < k ==> Entry(t, bits[..j]).None?
  {
    assert bits[..0] == "";
    if t.leaf.Some? {
      k := 0;
    } else {
      var u := Child(t, bits[0]);
      var m := FirstEntry(u, bits[1..]);
      k := m + 1;
      forall j | 1 <= j <= k ensures Entry(t, bits[..j]) == Entry(u, bits[1..][..j - 1]) { assert bits[..j][1..] == bits[1..][..j - 1]; }
    }
  }

  /** Of the devices with one prefix the last is in the trie. */
  ghost predicate LastWith(devs: seq<BusDevice>, pre: map<string, string>, q: string, i: int) {
    0 <= i < |devs| && At(pre, devs[i].name) == q && forall j :: i < j < |devs| ==> At(pre, devs[j].name) != q
  }

  ghost predicate NoneWith(devs: seq<BusDevice>, pre: map<string, string>, q: string) {
    forall j :: 0 <= j < |devs| ==> At(pre, devs[j].name) != q
  }

  lemma {:induction false} EntryIsLast(devs: seq<BusDevice>, pre: map<string, string>, q: string) returns (i: int)
    requires Binary(q) && forall d :: d in devs ==> Binary(At(pre, d.name))
    ensures var e := Entry(BuildTrie(devs, pre), q);
            if e.Some? then LastWith(devs, pre, q, i) && devs[i] == e.value else NoneWith(devs, pre, q)
  {
    hide At, Binary, LastWith, NoneWith;
    i := -1;
    if devs == [] {
      EmptyEntry(q);
      assert NoneWith(devs, pre, q) by { NoDevices(pre, q); }
    } else {
      var n := |devs| - 1;
      assert devs[n] in devs && forall d :: d in devs[..n] ==> d in devs;
      i := EntryIsLast(devs[..n], pre, q);
      EntryInsert(BuildTrie(devs[..n], pre), At(pre, devs[n].name), devs[n], q);
      LastNext(devs, pre, q, i);
      if At(pre, devs[n].name) == q { i := n; }
    }
  }

  lemma {:induction false} NoDevices(pre: map<string, string>, q: string)
    ensures NoneWith([], pre, q)
  {
  }

  lemma {:induction false} LastNext(devs: seq<BusDevice>, pre: map<string, string>, q: string, i: int)
    requires devs != []
    ensures var n := |devs| - 1;
            if At(pre, devs[n].name) == q then LastWith(devs, pre, q, n)
            else (LastWith(devs[..n], pre, q, i) ==> LastWith(devs, pre, q, i) && devs[..n][i] == devs[i]) && (NoneWith(devs[..n], pre, q) ==> NoneWith(devs, pre, q))
  {
    hide At;
    var n := |devs| - 1;
    assert forall j :: 0 <= j < n ==> devs[..n][j] == devs[j];
  }

  lemma {:induction false} EmptyEntry(q: string)
    ensures Entry(EMPTY, q) == None
  {
    if q != "" { assert Child(EMPTY, q[0]) == Absent; }
  }

  /** The device that answers: none of the others has a shorter prefix of the address, and none after it has the same. */
  ghost predicate Replies(devs: seq<BusDevice>, pre: map<string, string>, v: string, i: int) {
    && 0 <= i < |devs| && At(pre, devs[i].name) <= v
    && forall j :: 0 <= j < |devs| && At(pre, devs[j].name) <= v ==> Wins(At(pre, devs[i].name), i, At(pre, devs[j].name), j)
  }

  predicate Wins(p: string, i: int, q: string, j: int) { |p| < |q| || (|p| == |q| && j <= i) }

  ghost predicate NoneAnswers(devs: seq<BusDevice>, pre: map<string, string>, v: string) {
    forall j :: 0 <= j < |devs| ==> !(At(pre, devs[j].name) <= v)
  }

  /** A device whose prefix begins the address is an entry on its path. */
  lemma {:induction false} OnPath(devs: seq<BusDevice>, pre: map<string, string>, v: string, j: nat)
    requires Regional(devs, pre) && IsAddr(v) && j < |devs| && At(pre, devs[j].name) <= v
    ensures var n := |At(pre, devs[j].name)|; n <= |v| && v[..n] == At(pre, devs[j].name) && Entry(BuildTrie(devs, pre), v[..n]).Some?
  {
    hide At, Binary, OnOnePath, Entry, BuildTrie;
    var n := |At(pre, devs[j].name)|;
    assert devs[j] in devs && v[..n] == At(pre, devs[j].name);
    var i := EntryIsLast(devs, pre, v[..n]);
  }

  lemma {:induction false} LookupAnswers(devs: seq<BusDevice>, pre: map<string, string>, v: string) returns (i: int)
    requires Regional(devs, pre) && IsAddr(v)
    ensures var r := Lookup(BuildTrie(devs, pre), v);
            if r.Some? then Replies(devs, pre, v, i) && devs[i] == r.value else NoneAnswers(devs, pre, v)
  {
    hide At, OnOnePath, Entry, BuildTrie, Lookup;
    i := -1;
    var t := BuildTrie(devs, pre);
    if Lookup(t, v).Some? {
      var k := FirstEntry(t, v);
      BinarySlice(v, 0, k);
      i := EntryIsLast(devs, pre, v[..k]);
      forall j | 0 <= j < |devs| && At(pre, devs[j].name) <= v ensures Wins(At(pre, devs[i].name), i, At(pre, devs[j].name), j) {
        OnPath(devs, pre, v, j);
      }
    } else {
      LookupIsEntry(t, v);
      forall j | 0 <= j < |devs| ensures !(At(pre, devs[j].name) <= v) {
        if At(pre, devs[j].name) <= v { OnPath(devs, pre, v, j); }
      }
    }
  }

  // ---- The bus ----

  ghost predicate Checked(b: BusDevice) {
    0 <= b.leftBit <= 28 && (b.base / 0x1000_0000) % 16 == 10 && b.base % Pow2(b.leftBit + 1) == 0
  }

  predicate IsLow(b: BusDevice) { b.base < 0x1_0000_0000 }

  /** What validation gives when bases of 64 bits are allowed. */
  ghost predicate WideOk(bus: seq<BusDevice>) {
    && (forall b :: b in bus ==> Checked(b))
    && DistinctNames(bus)
    && (forall i, j :: 0 <= i < j < |bus| ==> Apart(bus[i], bus[j]))
  }

  /** The literals tell the devices from each other and from none. */
  ghost predicate LitsDiffer(bus: seq<BusDevice>, lits: map<string, string>) {
    && (forall i, j :: 0 <= i < j < |bus| ==> At(lits, bus[i].name) != At(lits, bus[j].name))
    && (forall i :: 0 <= i < |bus| ==> At(lits, bus[i].name) != At(lits, "none"))
  }

  ghost predicate DecodesAt(bus: seq<BusDevice>, lits: map<string, string>, addr: nat)
    requires InWidth(bus)
  {
    && (forall b :: b in bus && InRange(b, addr) ==> Decode(bus, lits, false, addr) == Some(At(lits, b.name)))
    && ((forall b :: b in bus ==> !InRange(b, addr)) ==> Decode(bus, lits, false, addr) == Some(At(lits, "none")))
  }

  /** Device i is below 4 GiB and answers wherever device j would. */
  ghost predicate Shadows(bus: seq<BusDevice>, i: int, j: int)
    requires InWidth(bus) && 0 <= j < |bus|
  {
    0 <= i < |bus| && IsLow(bus[i]) && DevicePrefix(bus[i]) <= DevicePrefix(bus[j]) && (DevicePrefix(bus[i]) == DevicePrefix(bus[j]) ==> i > j)
  }

  ghost predicate Shadowed(bus: seq<BusDevice>, j: int)
    requires InWidth(bus) && 0 <= j < |bus|
  {
    exists i :: Shadows(bus, i, j)
  }

  lemma {:induction false} WidePrefix(b: BusDevice)
    requires Checked(b)
    ensures OnOnePath(DevicePrefix(b), "1010") && DevicePrefix(b) <= Bits(b.base % 0x1_0000_0000, 32)
  {
    Pow2Table();
    LowWord(b.base, 32);
    RegionOfLowWord(b.base);
    TopDigit(b.base % 0x1_0000_0000);
    assert "1010" <= Bits(b.base, 32);
  }

  lemma {:induction false} WideRegional(bus: seq<BusDevice>)
    requires WideOk(bus)
    ensures InWidth(bus) && Regional(bus, ExactPrefixes(bus))
    ensures forall i :: 0 <= i < |bus| ==> At(ExactPrefixes(bus), bus[i].name) == DevicePrefix(bus[i])
  {
    hide OnOnePath, ExactPrefixes, DevicePrefix, At;
    forall i | 0 <= i < |bus| ensures At(ExactPrefixes(bus), bus[i].name) == DevicePrefix(bus[i]) && OnOnePath(DevicePrefix(bus[i]), "1010") {
      assert bus[i] in bus;
      ExactPrefixesAt(bus, i);
      WidePrefix(bus[i]);
    }
    forall d | d in bus ensures Binary(At(ExactPrefixes(bus), d.name)) && |At(ExactPrefixes(bus), d.name)| <= 32 && OnOnePath(At(ExactPrefixes(bus), d.name), "1010") {
      var i :| 0 <= i < |bus| && bus[i] == d;
    }
  }

  /** What the decoder returns for an address, by the prefixes. */
  lemma {:induction false} DecodeIs(bus: seq<BusDevice>, lits: map<string, string>, addr: nat) returns (i: int)
    requires WideOk(bus) && Reaches(addr)
    ensures InWidth(bus)
    ensures var v := Bits(addr, 32);
            || (Replies(bus, ExactPrefixes(bus), v, i) && Decode(bus, lits, false, addr) == Some(At(lits, bus[i].name)))
            || (NoneAnswers(bus, ExactPrefixes(bus), v) && Decode(bus, lits, false, addr) == Some(At(lits, "none")))
  {
    hide Replies, Regional, ExactPrefixes, At;
    i := -1;
    WideRegional(bus);
    TopDigit(addr);
    if bus == [] {
      ExecSingle(Return(At(lits, "none")), Bits(addr, 32));
    } else {
      DecodeBodyIsLookup(bus, ExactPrefixes(bus), lits, Bits(addr, 32));
      i := LookupAnswers(bus, ExactPrefixes(bus), Bits(addr, 32));
    }
  }

  lemma {:induction false} LowRange(bus: seq<BusDevice>, i: nat, addr: nat)
    requires WideOk(bus) && i < |bus| && addr < 0x1_0000_0000
    ensures InWidth(bus)
    ensures IsLow(bus[i]) ==> (At(ExactPrefixes(bus), bus[i].name) <= Bits(addr, 32) <==> InRange(bus[i], addr))
    ensures !IsLow(bus[i]) ==> !InRange(bus[i], addr)
  {
    WideRegional(bus);
    assert bus[i] in bus;
    if IsLow(bus[i]) { PrefixIsRange(bus[i], addr); }
  }

  lemma {:induction false} OneInRange(bus: seq<BusDevice>, i: nat, b: BusDevice, addr: nat)
    requires WideOk(bus) && i < |bus| && b in bus && InRange(b, addr) && InRange(bus[i], addr)
    ensures b == bus[i]
  {
    hide InRange;
    var k :| 0 <= k < |bus| && bus[k] == b;
    forall a, c | 0 <= a < c < |bus| ensures !(InRange(bus[a], addr) && InRange(bus[c], addr)) { assert Apart(bus[a], bus[c]); }
  }

  /** A device that answers is not shadowed. */
  lemma {:induction false} AnswersAbove(bus: seq<BusDevice>, v: string, i: int, c: int)
    requires WideOk(bus) && InWidth(bus) && Replies(bus, ExactPrefixes(bus), v, i)
    ensures !Shadows(bus, c, i)
  {
    hide ExactPrefixes, DevicePrefix, At, Regional, Checked, Apart;
    WideRegional(bus);
    if Shadows(bus, c, i) { assert Wins(At(ExactPrefixes(bus), bus[i].name), i, At(ExactPrefixes(bus), bus[c].name), c); }
  }

  lemma {:induction false} ShadowedDecodes(bus: seq<BusDevice>, lits: map<string, string>, addr: nat)
    requires WideOk(bus) && Reaches(addr) && InWidth(bus)
    requires forall j :: 0 <= j < |bus| && !IsLow(bus[j]) ==> Shadowed(bus, j)
    ensures DecodesAt(bus, lits, addr)
  {
    hide InRange, Decode, ExactPrefixes, At, Shadows, WideOk;
    var v, pre := Bits(addr, 32), ExactPrefixes(bus);
    var i := DecodeIs(bus, lits, addr);
    if Replies(bus, pre, v, i) && Decode(bus, lits, false, addr) == Some(At(lits, bus[i].name)) {
      if !IsLow(bus[i]) {
        assert Shadowed(bus, i);
        var c :| Shadows(bus, c, i);
        AnswersAbove(bus, v, i, c);
        assert false;
      }
      LowRange(bus, i, addr);
      forall b | b in bus && InRange(b, addr) ensures b == bus[i] { OneInRange(bus, i, b, addr); }
      assert InRange(bus[i], addr) && bus[i] in bus;
    } else {
      forall b | b in bus ensures !InRange(b, addr) {
        var k :| 0 <= k < |bus| && bus[k] == b;
        LowRange(bus, k, addr);
      }
    }
  }

  lemma {:induction false} UnshadowedFails(bus: seq<BusDevice>, lits: map<string, string>, j: nat)
    requires WideOk(bus) && LitsDiffer(bus, lits) && InWidth(bus) && j < |bus| && !IsLow(bus[j]) && !Shadowed(bus, j)
    ensures var addr := bus[j].base % 0x1_0000_0000; Reaches(addr) && !DecodesAt(bus, lits, addr)
  {
    hide InRange, Decode, ExactPrefixes, At, WideOk, DevicePrefix;
    var addr := bus[j].base % 0x1_0000_0000;
    var v, pre := Bits(addr, 32), ExactPrefixes(bus);
    LowReaches(bus, j);
    var i := DecodeIs(bus, lits, addr);
    assert Replies(bus, pre, v, i) && Decode(bus, lits, false, addr) == Some(At(lits, bus[i].name));
    assert Wins(At(pre, bus[i].name), i, At(pre, bus[j].name), j);
    if DecodesAt(bus, lits, addr) {
      LitDevice(bus, lits, i, addr);
      LowRange(bus, i, addr);
      AnswersShadows(bus, v, i, j);
    }
  }

  lemma {:induction false} LowReaches(bus: seq<BusDevice>, j: nat)
    requires WideOk(bus) && j < |bus|
    ensures InWidth(bus) && Reaches(bus[j].base % 0x1_0000_0000)
    ensures At(ExactPrefixes(bus), bus[j].name) <= Bits(bus[j].base % 0x1_0000_0000, 32)
  {
    hide ExactPrefixes, At, DevicePrefix, Regional;
    assert bus[j] in bus;
    RegionOfLowWord(bus[j].base);
    WideRegional(bus);
    WidePrefix(bus[j]);
  }

  /** With literals that differ, the device whose literal is returned is the one in range. */
  lemma {:induction false} LitDevice(bus: seq<BusDevice>, lits: map<string, string>, i: nat, addr: nat)
    requires LitsDiffer(bus, lits) && InWidth(bus) && i < |bus| && DecodesAt(bus, lits, addr) && Decode(bus, lits, false, addr) == Some(At(lits, bus[i].name))
    ensures InRange(bus[i], addr)
  {
    hide InRange, Decode, At, InWidth;
    if b :| b in bus && InRange(b, addr) {
      var k :| 0 <= k < |bus| && bus[k] == b;
      assert At(lits, bus[k].name) == At(lits, bus[i].name);
      assert k == i;
    }
  }

  lemma {:induction false} AnswersShadows(bus: seq<BusDevice>, v: string, i: int, j: int)
    requires WideOk(bus) && InWidth(bus) && 0 <= j < |bus| && !IsLow(bus[j]) && Replies(bus, ExactPrefixes(bus), v, i) && IsLow(bus[i])
    requires At(ExactPrefixes(bus), bus[j].name) <= v
    ensures Shadowed(bus, j)
  {
    hide ExactPrefixes, DevicePrefix, At, Regional, Checked, Apart;
    WideRegional(bus);
    assert Wins(At(ExactPrefixes(bus), bus[i].name), i, At(ExactPrefixes(bus), bus[j].name), j);
    Nested(DevicePrefix(bus[i]), DevicePrefix(bus[j]), v);
    assert Shadows(bus, i, j);
  }

  lemma {:induction false} Nested(p: string, q: string, v: string)
    requires p <= v && q <= v && |p| <= |q|
    ensures p <= q
  {
  }

  /**
   * For a whole bus that validates: every address decodes right exactly when each device at 4 GiB or above is shadowed by one
   * below. Otherwise such a device answers at its base modulo 2^32, an address outside its span.
   */
  lemma {:induction false} HighBases(bus: seq<BusDevice>, lits: map<string, string>)
    requires WideOk(bus) && LitsDiffer(bus, lits)
    ensures InWidth(bus)
    ensures (forall addr: nat :: Reaches(addr) ==> DecodesAt(bus, lits, addr)) <==> forall j :: 0 <= j < |bus| && !IsLow(bus[j]) ==> Shadowed(bus, j)
  {
    hide DecodesAt, Shadowed, Reaches, LitsDiffer;
    WideRegional(bus);
    if forall j :: 0 <= j < |bus| && !IsLow(bus[j]) ==> Shadowed(bus, j) {
      forall addr: nat | Reaches(addr) ensures DecodesAt(bus, lits, addr) { ShadowedDecodes(bus, lits, addr); }
    } else {
      var j :| 0 <= j < |bus| && !IsLow(bus[j]) && !Shadowed(bus, j);
      UnshadowedFails(bus, lits, j);
    }
  }

  // ---- What validation gives such a bus ----

  /** The assumptions that validateAddresses does not check, without the one on bases. */
  ghost predicate AssumedWide(devs: seq<V.Device>, classes: V.Classes) {
    && (forall d :: d in devs ==> d.Valid())
    && (forall i, j :: 0 <= i < j < |devs| ==> devs[i].name != devs[j].name)
    && (forall d :: d in devs && OnBus(d) ==> d.cls in classes)
  }

  function Capped(addr: int): int { if addr < V.U64 then addr else V.U64 - 1 }

  /** The span holds the addresses of the device, cut at the top of the 64-bit address space. */
  lemma {:induction false} WideSpan(d: V.Device, classes: V.Classes, addr: int)
    requires d.Valid() && OnBus(d) && d.cls in classes && V.DeviceOk(d, classes)
    ensures Checked(Project(d, classes)) && V.Span(d, classes).Some?
    ensures InRange(Project(d, classes), addr) ==> V.Span(d, classes).value.lo <= Capped(addr) <= V.Span(d, classes).value.hi
  {
    RegionBoundsWidth(d.base.value, classes[d.cls]);
    Pow2Monotone(classes[d.cls] + 1, 29);
    Pow2Table();
    var p := Pow2(classes[d.cls] + 1);
    if d.base.value + p - 1 < V.U64 {
      assert (d.base.value + p - 1) % V.U64 == d.base.value + p - 1;
    } else {
      assert (d.base.value + p - 1) % V.U64 == d.base.value + p - 1 - V.U64;
    }
  }

  lemma {:induction false} ValidatedWide(devs: seq<V.Device>, classes: V.Classes, bus: seq<BusDevice>)
    requires AssumedWide(devs, classes) && V.AddressesOk(devs, classes)
    requires multiset(bus) == multiset(BusDevices(devs, classes))
    ensures WideOk(bus)
  {
    hide InRange, Checked, V.DeviceOk;
    var spans := V.Spans(devs, classes);
    var listed := spans + V.RESERVED;
    assert forall a, b :: 0 <= a < b < |spans| ==> listed[a] == spans[a] && listed[b] == spans[b];
    BusNamesDistinct(devs, classes);
    Reorder(BusDevices(devs, classes), bus);
    forall b | b in bus ensures Checked(b) {
      var i := DeviceOf(devs, classes, bus, b);
      WideSpan(devs[i], classes, 0);
    }
    forall i, j | 0 <= i < j < |bus| ensures Apart(bus[i], bus[j]) {
      var x := DeviceOf(devs, classes, bus, bus[i]);
      var y := DeviceOf(devs, classes, bus, bus[j]);
      assert x != y;
      WideSpan(devs[x], classes, 0);
      WideSpan(devs[y], classes, 0);
      SpansApart(devs, classes, if x < y then x else y, if x < y then y else x);
      forall addr ensures !(InRange(bus[i], addr) && InRange(bus[j], addr)) {
        WideSpan(devs[x], classes, addr);
        WideSpan(devs[y], classes, addr);
      }
    }
  }

  // ==== A register of a validated device is reached at its own address: tools/socgen/elaborate/class.go,
  // tools/socgen/elaborate/addr_validate.go and tools/socgen/emit/databus.go together.

  lemma {:induction false} DeviceStaysInRegion(b: BusDevice, addr: int)
    requires Ranged(b) && InRange(b, addr) && !InRange(b, 0xabcd0600)
    ensures Reaches(addr)
  {
    var k := b.leftBit + 1;
    Pow2Table();
    if k <= 28 {
      AlignedWindow(addr, b.base, Pow2(k));
      Pow2Sum(k, 28 - k);
      DivDiv(addr, Pow2(k), Pow2(28 - k));
      DivDiv(b.base, Pow2(k), Pow2(28 - k));
    }
  }

  lemma {:induction false} RangeDecodes(bus: seq<BusDevice>, lits: map<string, string>, simple: bool, b: BusDevice, addr: int)
    requires BusOk(bus) && b in bus && InRange(b, addr)
    ensures InWidth(bus) && Decode(bus, lits, simple, addr) == Some(At(lits, b.name))
  {
    DeviceStaysInRegion(b, addr);
    ExactDecode(bus, lits, addr);
    SimpleRefinesExact(bus, lits, addr);
  }

  /** Every byte of every register, at base plus offset, decodes to its device in both modes. */
  lemma {:induction false} RegisterBytesDecode(bus: seq<BusDevice>, lits: map<string, string>, simple: bool, b: BusDevice, regs: seq<C.Reg>, override: int, r: C.Reg, offset: int)
    requires BusOk(bus) && b in bus && C.IsWindow(regs, override, b.leftBit)
    requires r in regs && (forall q :: q in regs ==> q.addr >= 0) && r.addr <= offset < r.addr + r.width
    ensures InWidth(bus)
    ensures Decode(bus, lits, simple, b.base + offset) == Some(At(lits, b.name))
  {
    C.WindowHoldsRegisters(regs, override, b.leftBit);
    assert C.Holds(b.leftBit, r);
    RangeDecodes(bus, lits, simple, b, b.base + offset);
  }
}
