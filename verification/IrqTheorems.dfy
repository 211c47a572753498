// tools/socgen/elaborate/irq.go: what the interrupt wiring means, when it is reported as faulty, and the names of its wires.

module IrqTheorems {
  import opened Common
  import opened Irq
  import opened Decimal

  // ---- Reading the model as wires: lv gives the level of every device port ----

  ghost predicate Drives(m: Model, p: Port, w: Wire) { p in m.overrides && m.overrides[p] == w }

  ghost predicate Direct(m: Model, w: Wire, lv: Port -> bool) { exists p :: Drives(m, p, w) && lv(p) }

  ghost predicate Assigned(m: Model, a: OrAssign, w: Wire) { a in m.orAssigns && a.target == w }

  ghost predicate Level(m: Model, w: Wire, lv: Port -> bool) {
    Direct(m, w, lv) || exists a, s :: Assigned(m, a, w) && s in a.sources && Direct(m, s, lv)
  }

  /** The device declares its port for line k. */
  predicate Declares(devs: seq<Device>, d: Device, port: string, k: Key) {
    match d.irq
    case NoIrq => false
    case Single(n) => port == PortOf(devs, d.name) && k == Key(CpuOf(d), n)
    case Named(lines) => Line(port, k.cpu, k.path) in lines
  }

  ghost predicate Declared(devs: seq<Device>, p: Port, k: Key) {
    exists d :: d in devs && d.name == p.dev && Declares(devs, d, p.port, k)
  }

  /** Device names differ, and so do the keys of a map. */
  ghost predicate WellNamed(devs: seq<Device>) {
    && (forall i, j :: 0 <= i < j < |devs| ==> devs[i].name != devs[j].name)
    && (forall d :: d in devs && d.irq.Named? ==> DistinctPorts(d.irq.lines))
  }

  predicate DistinctPorts(lines: seq<Line>) { forall i, j :: 0 <= i < j < |lines| ==> lines[i].port != lines[j].port }

  // ---- Tuples ----

  predicate Distinct(ts: seq<Tuple>) { forall i, j :: 0 <= i < j < |ts| ==> PortOfTuple(ts[i]) != PortOfTuple(ts[j]) }

  lemma {:induction false} LineTuplesFrom(d: Device, lines: seq<Line>)
    ensures forall t :: t in LineTuples(d, lines) ==> t.dev == d.name && t.vector == 0x11 + t.path && Line(t.port, t.cpu, t.path) in lines
    ensures LineErrors(d, lines) == [] ==> forall l :: l in lines ==> Tuple(d.name, l.port, l.cpu, l.path, 0x11 + l.path) in LineTuples(d, lines)
  {
    hide HasPort;
    if lines != [] {
      LineTuplesFrom(d, lines[..|lines| - 1]);
      assert forall l :: l in lines ==> l in lines[..|lines| - 1] || l == lines[|lines| - 1];
    }
  }

  lemma {:induction false} LineTuplesDistinct(d: Device, lines: seq<Line>)
    requires DistinctPorts(lines)
    ensures Distinct(LineTuples(d, lines))
  {
    hide HasPort;
    if lines != [] {
      var n := |lines| - 1;
      var before := LineTuples(d, lines[..n]);
      LineTuplesDistinct(d, lines[..n]);
      LineTuplesFrom(d, lines[..n]);
      forall i | 0 <= i < |before| ensures before[i].port != lines[n].port {
        assert before[i] in before;
        var j :| 0 <= j < n && lines[..n][j] == Line(before[i].port, before[i].cpu, before[i].path);
        assert lines[j].port != lines[n].port;
      }
    }
  }

  lemma {:induction false} DeviceTuplesFrom(all: seq<Device>, d: Device)
    requires d.irq.Named? ==> DistinctPorts(d.irq.lines)
    ensures forall t :: t in DeviceTuples(all, d) ==> t.dev == d.name && t.vector == 0x11 + t.path && Declares(all, d, t.port, KeyOf(t))
    ensures Distinct(DeviceTuples(all, d))
    ensures DeviceErrors(all, d) == [] ==>
              forall port, k :: Declares(all, d, port, k) ==> Tuple(d.name, port, k.cpu, k.path, 0x11 + k.path) in DeviceTuples(all, d)
  {
    match d.irq
    case NoIrq =>
    case Single(_) =>
    case Named(lines) =>
      LineTuplesFrom(d, lines);
      LineTuplesDistinct(d, lines);
  }

  ghost predicate DeclaredTuple(all: seq<Device>, devs: seq<Device>, t: Tuple) {
    t.vector == 0x11 + t.path && exists d :: d in devs && d.name == t.dev && Declares(all, d, t.port, KeyOf(t))
  }

  /** Every tuple is declared, its vector is that of its line, and no port has two tuples. */
  lemma {:induction false} TuplesDeclared(all: seq<Device>, devs: seq<Device>)
    requires WellNamed(devs)
    ensures forall t :: t in Tuples(all, devs) ==> DeclaredTuple(all, devs, t)
    ensures Distinct(Tuples(all, devs))
  {
    hide DeviceTuples, Declares;
    if devs != [] {
      var n := |devs| - 1;
      var before, last := Tuples(all, devs[..n]), DeviceTuples(all, devs[n]);
      TuplesDeclared(all, devs[..n]);
      DeviceTuplesFrom(all, devs[n]);
      forall i | 0 <= i < |before| ensures before[i].dev != devs[n].name {
        assert before[i] in before;
        var d :| d in devs[..n] && d.name == before[i].dev;
      }
      forall t | t in before + last ensures DeclaredTuple(all, devs, t) {
        if t in before {
          var d :| d in devs[..n] && d.name == t.dev && Declares(all, d, t.port, KeyOf(t));
          assert d in devs;
        } else {
          assert devs[n] in devs;
        }
      }
      forall i, j | 0 <= i < j < |before + last| ensures PortOfTuple((before + last)[i]) != PortOfTuple((before + last)[j]) {
        if j >= |before| && i < |before| { assert (before + last)[j] in last; }
      }
    }
  }

  lemma {:induction false} NamesBefore(devs: seq<Device>)
    requires WellNamed(devs) && devs != []
    ensures var n := |devs| - 1;
            WellNamed(devs[..n]) && (devs[n].irq.Named? ==> DistinctPorts(devs[n].irq.lines)) && forall d :: d in devs ==> d in devs[..n] || d == devs[n]
  {
    hide DistinctPorts;
  }

  /** Without an error every declared line has its tuple. */
  lemma {:induction false} TuplesComplete(all: seq<Device>, devs: seq<Device>, d: Device, port: string, k: Key)
    requires WellNamed(devs) && TupleErrors(all, devs) == [] && d in devs && Declares(all, d, port, k)
    ensures Tuple(d.name, port, k.cpu, k.path, 0x11 + k.path) in Tuples(all, devs)
    decreases devs
  {
    hide DeviceTuples, DeviceErrors, Declares, Distinct, WellNamed;
    var n := |devs| - 1;
    NamesBefore(devs);
    assert TupleErrors(all, devs[..n]) == [] && DeviceErrors(all, devs[n]) == [];
    if d == devs[n] {
      DeviceTuplesFrom(all, d);
    } else {
      TuplesComplete(all, devs[..n], d, port, k);
    }
  }

  // ---- Groups ----

  lemma {:induction false} GroupFrom(ts: seq<Tuple>, k: Key)
    ensures forall t :: t in Group(ts, k) <==> t in ts && KeyOf(t) == k
    ensures Distinct(ts) ==> Distinct(Group(ts, k))
  {
    if ts != [] {
      var n := |ts| - 1;
      GroupFrom(ts[..n], k);
      var before := Group(ts[..n], k);
      if Distinct(ts) {
        forall i | 0 <= i < |before| ensures PortOfTuple(before[i]) != PortOfTuple(ts[n]) {
          assert before[i] in before;
          var j :| 0 <= j < n && ts[..n][j] == before[i];
          assert PortOfTuple(ts[j]) != PortOfTuple(ts[n]);
        }
      }
    }
  }

  /** A tuple's key is its own, so a group never disagrees on its vector. */
  lemma {:induction false} NoMismatch(g: seq<Tuple>, n: nat)
    requires n <= |g| && forall i, j :: 0 <= i < j < |g| ==> g[i].vector == g[j].vector
    ensures Mismatches(g, n) == []
  {
    if n > 0 { NoMismatch(g, n - 1); }
  }

  lemma {:induction false} NeverMismatch(devs: seq<Device>, keys: seq<Key>)
    requires WellNamed(devs) && KeysOf(keys, Tuples(devs, devs))
    ensures forall e :: e in KeyErrors(keys, Tuples(devs, devs), Aics(devs)) ==> !e.VectorMismatch?
    decreases keys
  {
    hide Group, Tuples, Aics;
    if keys != [] {
      var ts := Tuples(devs, devs);
      var k := keys[|keys| - 1];
      var g := Group(ts, k);
      NeverMismatch(devs, keys[..|keys| - 1]);
      TuplesDeclared(devs, devs);
      GroupFrom(ts, k);
      forall i, j | 0 <= i < j < |g| ensures g[i].vector == g[j].vector { assert g[i] in g && g[j] in g; }
      NoMismatch(g, |g|);
    }
  }

  // ---- The overrides ----

  /** The actual of the port of tuple t. */
  ghost predicate IsActual(ts: seq<Tuple>, aics: map<nat, string>, t: Tuple, w: Wire) {
    var k := KeyOf(t);
    var g := Group(ts, k);
    exists i :: 0 <= i < |g| && g[i] == t && w == WireFor(k, |g|, k.cpu in aics, i)
  }

  lemma {:induction false} PlacedAt(ov: map<Port, Wire>, g: seq<Tuple>, k: Key, hasAic: bool, n: nat)
    requires n <= |g| && Distinct(g)
    ensures forall i :: 0 <= i < n ==> PortOfTuple(g[i]) in Placed(ov, g, k, hasAic, n) && Placed(ov, g, k, hasAic, n)[PortOfTuple(g[i])] == WireFor(k, |g|, hasAic, i)
    ensures forall p :: (forall i :: 0 <= i < n ==> PortOfTuple(g[i]) != p) ==>
              (p in Placed(ov, g, k, hasAic, n) <==> p in ov) && (p in ov ==> Placed(ov, g, k, hasAic, n)[p] == ov[p])
  {
    hide WireFor, PortOfTuple;
    if n > 0 { PlacedAt(ov, g, k, hasAic, n - 1); }
  }

  ghost predicate Settled(ov: map<Port, Wire>, ts: seq<Tuple>, aics: map<nat, string>, keys: seq<Key>) {
    && (forall t :: t in ts && KeyOf(t) in keys ==> PortOfTuple(t) in ov && IsActual(ts, aics, t, ov[PortOfTuple(t)]))
    && (forall p :: p in ov ==> HasTuple(ts, keys, p))
  }

  lemma {:induction false} TupleOfPort(ts: seq<Tuple>, a: Tuple, b: Tuple)
    requires Distinct(ts) && a in ts && b in ts && PortOfTuple(a) == PortOfTuple(b)
    ensures a == b
  {
    var i :| 0 <= i < |ts| && ts[i] == a;
    var j :| 0 <= j < |ts| && ts[j] == b;
  }

  lemma {:induction false} GroupSettled(ov: map<Port, Wire>, ts: seq<Tuple>, aics: map<nat, string>, keys: seq<Key>, k: Key)
    requires Distinct(ts) && Settled(ov, ts, aics, keys) && k !in keys
    ensures Settled(Placed(ov, Group(ts, k), k, k.cpu in aics, |Group(ts, k)|), ts, aics, keys + [k])
  {
    hide Group, Placed, IsActual, HasTuple;
    var next := Placed(ov, Group(ts, k), k, k.cpu in aics, |Group(ts, k)|);
    forall t | t in ts && KeyOf(t) in keys + [k] ensures PortOfTuple(t) in next && IsActual(ts, aics, t, next[PortOfTuple(t)]) {
      TupleSettled(ov, ts, aics, keys, k, t);
    }
    forall p | p in next ensures HasTuple(ts, keys + [k], p) { PortHasTuple(ov, ts, keys, k, p, k.cpu in aics); }
  }

  lemma {:induction false} TupleSettled(ov: map<Port, Wire>, ts: seq<Tuple>, aics: map<nat, string>, keys: seq<Key>, k: Key, t: Tuple)
    requires Distinct(ts) && Settled(ov, ts, aics, keys) && t in ts && (KeyOf(t) in keys || KeyOf(t) == k) && k !in keys
    ensures var next := Placed(ov, Group(ts, k), k, k.cpu in aics, |Group(ts, k)|);
            PortOfTuple(t) in next && IsActual(ts, aics, t, next[PortOfTuple(t)])
  {
    hide Group, Placed;
    var g := Group(ts, k);
    GroupFrom(ts, k);
    PlacedAt(ov, g, k, k.cpu in aics, |g|);
    if KeyOf(t) == k {
      var i :| 0 <= i < |g| && g[i] == t;
    } else {
      OtherPorts(ts, k, t);
    }
  }

  ghost predicate HasTuple(ts: seq<Tuple>, keys: seq<Key>, p: Port) { exists t :: t in ts && KeyOf(t) in keys && PortOfTuple(t) == p }

  lemma {:induction false} OtherPorts(ts: seq<Tuple>, k: Key, t: Tuple)
    requires Distinct(ts) && t in ts && KeyOf(t) != k
    ensures var g := Group(ts, k); forall i :: 0 <= i < |g| ==> PortOfTuple(g[i]) != PortOfTuple(t)
  {
    hide Group;
    var g := Group(ts, k);
    GroupFrom(ts, k);
    forall i | 0 <= i < |g| ensures PortOfTuple(g[i]) != PortOfTuple(t) {
      assert g[i] in g;
      if PortOfTuple(g[i]) == PortOfTuple(t) { TupleOfPort(ts, g[i], t); }
    }
  }

  lemma {:induction false} PortHasTuple(ov: map<Port, Wire>, ts: seq<Tuple>, keys: seq<Key>, k: Key, p: Port, hasAic: bool)
    requires Distinct(ts) && (p in ov ==> HasTuple(ts, keys, p)) && p in Placed(ov, Group(ts, k), k, hasAic, |Group(ts, k)|)
    ensures HasTuple(ts, keys + [k], p)
  {
    hide Group, Placed;
    var g := Group(ts, k);
    GroupFrom(ts, k);
    PlacedAt(ov, g, k, hasAic, |g|);
    if i :| 0 <= i < |g| && PortOfTuple(g[i]) == p {
      assert g[i] in g;
    } else {
      var t :| t in ts && KeyOf(t) in keys && PortOfTuple(t) == p;
    }
  }

  /** The or-assignments: one for every line with an aic and several ports. */
  ghost predicate OrsSettled(ors: seq<OrAssign>, ts: seq<Tuple>, aics: map<nat, string>, keys: seq<Key>) {
    && (forall k :: k in keys && k.cpu in aics && |Group(ts, k)| >= 2 ==> OrAssign(Bit(k), SourceWires(k, |Group(ts, k)|)) in ors)
    && (forall a :: a in ors ==> exists k :: k in keys && k.cpu in aics && |Group(ts, k)| >= 2 && a == OrAssign(Bit(k), SourceWires(k, |Group(ts, k)|)))
    && (forall i, j :: 0 <= i < j < |ors| ==> ors[i].target != ors[j].target)
  }

  lemma {:induction false} GroupsSettled(m: Model, keys: seq<Key>, ts: seq<Tuple>, aics: map<nat, string>)
    requires Distinct(ts) && KeysOf(keys, ts) && HasTables(m.vectors, aics) && SortedKeys(keys) && m.overrides == map[] && m.orAssigns == []
    ensures var r := WithGroups(m, keys, ts, aics); Settled(r.overrides, ts, aics, keys) && OrsSettled(r.orAssigns, ts, aics, keys)
    decreases keys
  {
    hide Group, Placed, SetVector, IsActual;
    if keys != [] {
      var n := |keys| - 1;
      var k := keys[n];
      GroupsSettled(m, keys[..n], ts, aics);
      assert forall i :: 0 <= i < n ==> KeyLess(keys[i], keys[n]);
      assert keys[..n] + [k] == keys;
      var before := WithGroups(m, keys[..n], ts, aics);
      GroupSettled(before.overrides, ts, aics, keys[..n], k);
      OrsStep(before.orAssigns, ts, aics, keys[..n], k);
    }
  }

  lemma {:induction false} OrsStep(ors: seq<OrAssign>, ts: seq<Tuple>, aics: map<nat, string>, keys: seq<Key>, k: Key)
    requires OrsSettled(ors, ts, aics, keys) && k !in keys && Group(ts, k) != []
    ensures OrsSettled(if k.cpu in aics && |Group(ts, k)| != 1 then ors + [OrAssign(Bit(k), SourceWires(k, |Group(ts, k)|))] else ors, ts, aics, keys + [k])
  {
    hide Group, SourceWires;
    forall i | 0 <= i < |ors| ensures ors[i].target != Bit(k) { assert ors[i] in ors; }
  }

  ghost predicate Auto(cpus: seq<nat>, aics: map<nat, string>, explicit: set<string>, p: Port) {
    exists i :: 0 <= i < |cpus| && cpus[i] in aics && aics[cpus[i]] !in explicit && p == Port(aics[cpus[i]], "irq_i")
  }

  /** The inputs of the aics are written last. */
  lemma {:induction false} InputsAt(ov: map<Port, Wire>, cpus: seq<nat>, aics: map<nat, string>, explicit: set<string>, p: Port)
    requires Within(cpus, aics)
    ensures var r := WithInputs(ov, cpus, aics, explicit);
            if Auto(cpus, aics, explicit, p) then p in r && r[p].Vector? else (p in r <==> p in ov) && (p in r ==> r[p] == ov[p])
    decreases cpus
  {
    if cpus != [] {
      var n := |cpus| - 1;
      InputsAt(ov, cpus[..n], aics, explicit, p);
      assert forall i :: 0 <= i < n ==> cpus[..n][i] == cpus[i];
    }
  }

  // ---- The meaning of the wiring ----

  /** What an error-free result of buildIRQ is. */
  ghost predicate ErrorFree(m: Model, devs: seq<Device>, cpus: seq<nat>, keys: seq<Key>) {
    IsBuilt(m, devs, cpus, keys) && Errors(devs, cpus, keys) == []
  }

  /** No line to an aic starts at the input that an aic is wired with automatically. */
  ghost predicate NoInputDeclared(devs: seq<Device>, cpus: seq<nat>) {
    forall t :: t in Tuples(devs, devs) && t.cpu in Aics(devs) ==> !Auto(cpus, Aics(devs), Explicit(devs), PortOfTuple(t))
  }

  lemma {:induction false} Actuals(m: Model, devs: seq<Device>, cpus: seq<nat>, keys: seq<Key>)
    requires WellNamed(devs) && IsBuilt(m, devs, cpus, keys) && NoInputDeclared(devs, cpus)
    ensures var ts, aics := Tuples(devs, devs), Aics(devs);
            && Distinct(ts)
            && (forall t :: t in ts && t.cpu in aics ==> PortOfTuple(t) in m.overrides && IsActual(ts, aics, t, m.overrides[PortOfTuple(t)]))
            && (forall p :: p in m.overrides && !m.overrides[p].Vector? ==> exists t :: t in ts && PortOfTuple(t) == p && IsActual(ts, aics, t, m.overrides[p]))
            && OrsSettled(m.orAssigns, ts, aics, keys)
  {
    hide Group, WithGroups, WithInputs, Tuples, Aics, Auto, IsActual, Explicit, OrsSettled;
    var ts, aics := Tuples(devs, devs), Aics(devs);
    TuplesDeclared(devs, devs);
    var e := Empty(cpus, aics);
    GroupsSettled(e, keys, ts, aics);
    var g := WithGroups(e, keys, ts, aics);
    forall p ensures Auto(cpus, aics, Explicit(devs), p) ==> p in m.overrides && m.overrides[p].Vector?
      ensures !Auto(cpus, aics, Explicit(devs), p) ==> (p in m.overrides <==> p in g.overrides) && (p in g.overrides ==> m.overrides[p] == g.overrides[p])
    {
      InputsAt(g.overrides, cpus, aics, Explicit(devs), p);
    }
    forall t | t in ts ensures KeyOf(t) in keys { GroupFrom(ts, KeyOf(t)); }
  }

  /** The ports that drive a bit directly: the only port of its line. */
  lemma {:induction false} BitDrivers(m: Model, devs: seq<Device>, cpus: seq<nat>, keys: seq<Key>, k: Key, p: Port)
    requires WellNamed(devs) && IsBuilt(m, devs, cpus, keys) && NoInputDeclared(devs, cpus) && k.cpu in Aics(devs)
    ensures var g := Group(Tuples(devs, devs), k); Drives(m, p, Bit(k)) <==> |g| == 1 && p == PortOfTuple(g[0])
  {
    hide Group, WithGroups, WithInputs, Tuples, Aics, NoInputDeclared, OrsSettled;
    var ts, aics := Tuples(devs, devs), Aics(devs);
    Actuals(m, devs, cpus, keys);
    var g := Group(ts, k);
    GroupFrom(ts, k);
    if |g| == 1 { assert g[0] in g; }
  }

  /** The i-th source of a line is driven by the i-th port of its group. */
  lemma {:induction false} SourceDrivers(m: Model, devs: seq<Device>, cpus: seq<nat>, keys: seq<Key>, k: Key, i: nat, p: Port)
    requires WellNamed(devs) && IsBuilt(m, devs, cpus, keys) && NoInputDeclared(devs, cpus) && k.cpu in Aics(devs)
    requires |Group(Tuples(devs, devs), k)| >= 2 && i < |Group(Tuples(devs, devs), k)|
    ensures Drives(m, p, Source(k, i)) <==> p == PortOfTuple(Group(Tuples(devs, devs), k)[i])
  {
    hide Group, WithGroups, WithInputs, Tuples, Aics, NoInputDeclared, OrsSettled;
    var ts, aics := Tuples(devs, devs), Aics(devs);
    Actuals(m, devs, cpus, keys);
    var g := Group(ts, k);
    GroupFrom(ts, k);
    assert g[i] in g;
  }

  ghost predicate AnyDeclared(devs: seq<Device>, k: Key, lv: Port -> bool) { exists p :: Declared(devs, p, k) && lv(p) }

  /** A tuple of the line is a declaration of the line. */
  lemma {:induction false} GroupDeclared(devs: seq<Device>, k: Key, p: Port)
    requires WellNamed(devs) && TupleErrors(devs, devs) == []
    ensures Declared(devs, p, k) <==> exists t :: t in Group(Tuples(devs, devs), k) && PortOfTuple(t) == p
  {
    hide Group, Tuples, Declares, TupleErrors;
    TuplesDeclared(devs, devs);
    GroupFrom(Tuples(devs, devs), k);
    if d :| d in devs && d.name == p.dev && Declares(devs, d, p.port, k) {
      TuplesComplete(devs, devs, d, p.port, k);
      assert PortOfTuple(Tuple(d.name, p.port, k.cpu, k.path, 0x11 + k.path)) == p;
    }
  }

  lemma {:induction false} SourcesAre(k: Key, n: nat, w: Wire)
    ensures w in SourceWires(k, n) <==> exists i :: 0 <= i < n && w == Source(k, i)
  {
    if n > 0 { SourcesAre(k, n - 1, w); }
  }

  lemma {:induction false} NoErrors(m: Model, devs: seq<Device>, cpus: seq<nat>, keys: seq<Key>)
    requires ErrorFree(m, devs, cpus, keys)
    ensures TupleErrors(devs, devs) == []
  {
    hide TupleErrors, KeyErrors, AicErrors;
  }

  /** A bit of an aic's vector is the or of exactly the ports declared for it. */
  lemma {:induction false} BitIsOr(m: Model, devs: seq<Device>, cpus: seq<nat>, keys: seq<Key>, k: Key, lv: Port -> bool)
    requires WellNamed(devs) && ErrorFree(m, devs, cpus, keys) && NoInputDeclared(devs, cpus) && k.cpu in Aics(devs)
    ensures Level(m, Bit(k), lv) <==> AnyDeclared(devs, k, lv)
  {
    hide IsBuilt, Tuples, Group, Aics, NoInputDeclared, Declared, Drives, Assigned, WellNamed, ErrorFree;
    var g := Group(Tuples(devs, devs), k);
    BuiltFree(m, devs, cpus, keys);
    if AnyDeclared(devs, k, lv) {
      var p :| Declared(devs, p, k) && lv(p);
      GroupDeclared(devs, k, p);
      var t :| t in g && PortOfTuple(t) == p;
      var i :| 0 <= i < |g| && g[i] == t;
      PortRaises(m, devs, cpus, keys, k, i, lv);
    }
    if Level(m, Bit(k), lv) {
      var i := LevelHasPort(m, devs, cpus, keys, k, lv);
      assert g[i] in g;
      GroupDeclared(devs, k, PortOfTuple(g[i]));
    }
  }

  lemma {:induction false} BuiltFree(m: Model, devs: seq<Device>, cpus: seq<nat>, keys: seq<Key>)
    requires ErrorFree(m, devs, cpus, keys)
    ensures IsBuilt(m, devs, cpus, keys) && TupleErrors(devs, devs) == []
  {
    hide IsBuilt, Errors, TupleErrors;
    NoErrors(m, devs, cpus, keys);
  }

  /** The or-assignments to a bit. */
  lemma {:induction false} BitAssigns(m: Model, devs: seq<Device>, cpus: seq<nat>, keys: seq<Key>, k: Key, a: OrAssign)
    requires WellNamed(devs) && IsBuilt(m, devs, cpus, keys) && NoInputDeclared(devs, cpus) && k.cpu in Aics(devs)
    ensures var g := Group(Tuples(devs, devs), k); Assigned(m, a, Bit(k)) <==> |g| >= 2 && a == OrAssign(Bit(k), SourceWires(k, |g|))
  {
    hide Group, WithGroups, WithInputs, Tuples, Aics, NoInputDeclared, SourceWires, IsActual;
    Actuals(m, devs, cpus, keys);
  }

  lemma {:induction false} PortRaises(m: Model, devs: seq<Device>, cpus: seq<nat>, keys: seq<Key>, k: Key, i: nat, lv: Port -> bool)
    requires WellNamed(devs) && IsBuilt(m, devs, cpus, keys) && NoInputDeclared(devs, cpus) && k.cpu in Aics(devs)
    requires i < |Group(Tuples(devs, devs), k)| && lv(PortOfTuple(Group(Tuples(devs, devs), k)[i]))
    ensures Level(m, Bit(k), lv)
  {
    hide IsBuilt, Tuples, Group, Aics, NoInputDeclared, Drives, Assigned, WellNamed;
    var g := Group(Tuples(devs, devs), k);
    var p := PortOfTuple(g[i]);
    if |g| == 1 {
      BitDrivers(m, devs, cpus, keys, k, p);
    } else {
      var a := OrAssign(Bit(k), SourceWires(k, |g|));
      BitAssigns(m, devs, cpus, keys, k, a);
      SourceDrivers(m, devs, cpus, keys, k, i, p);
      SourcesAre(k, |g|, Source(k, i));
      assert Assigned(m, a, Bit(k)) && Source(k, i) in a.sources && Direct(m, Source(k, i), lv);
    }
  }

  lemma {:induction false} LevelHasPort(m: Model, devs: seq<Device>, cpus: seq<nat>, keys: seq<Key>, k: Key, lv: Port -> bool) returns (i: nat)
    requires WellNamed(devs) && IsBuilt(m, devs, cpus, keys) && NoInputDeclared(devs, cpus) && k.cpu in Aics(devs)
    requires Level(m, Bit(k), lv)
    ensures i < |Group(Tuples(devs, devs), k)| && lv(PortOfTuple(Group(Tuples(devs, devs), k)[i]))
  {
    hide IsBuilt, Tuples, Group, Aics, NoInputDeclared, Drives, Assigned, WellNamed;
    var g := Group(Tuples(devs, devs), k);
    if Direct(m, Bit(k), lv) {
      var p :| Drives(m, p, Bit(k)) && lv(p);
      BitDrivers(m, devs, cpus, keys, k, p);
      i := 0;
    } else {
      var a, s :| Assigned(m, a, Bit(k)) && s in a.sources && Direct(m, s, lv);
      BitAssigns(m, devs, cpus, keys, k, a);
      SourcesAre(k, |g|, s);
      i :| 0 <= i < |g| && s == Source(k, i);
      var p :| Drives(m, p, s) && lv(p);
      SourceDrivers(m, devs, cpus, keys, k, i, p);
    }
  }

  /** The drivers of a wire: ports, and positions of or-assignments. */
  function PortDrivers(m: Model, w: Wire): set<Port> { set p | p in m.overrides && m.overrides[p] == w }

  function AssignDrivers(m: Model, w: Wire): set<nat> { set i: nat | i < |m.orAssigns| && m.orAssigns[i].target == w }

  /** A bit has one driver when a line is declared for it, and none otherwise. */
  lemma {:induction false} OneDriver(m: Model, devs: seq<Device>, cpus: seq<nat>, keys: seq<Key>, k: Key)
    requires WellNamed(devs) && ErrorFree(m, devs, cpus, keys) && NoInputDeclared(devs, cpus) && k.cpu in Aics(devs)
    ensures |PortDrivers(m, Bit(k))| + |AssignDrivers(m, Bit(k))| == if exists p :: Declared(devs, p, k) then 1 else 0
  {
    hide IsBuilt, Tuples, Group, Aics, NoInputDeclared, Declared, WellNamed, ErrorFree;
    var g := Group(Tuples(devs, devs), k);
    BuiltFree(m, devs, cpus, keys);
    forall p ensures p in PortDrivers(m, Bit(k)) <==> |g| == 1 && p == PortOfTuple(g[0]) { BitDrivers(m, devs, cpus, keys, k, p); }
    AssignCount(m, devs, cpus, keys, k);
    if |g| == 1 {
      assert PortDrivers(m, Bit(k)) == {PortOfTuple(g[0])};
    } else {
      assert PortDrivers(m, Bit(k)) == {};
    }
    if g != [] {
      assert g[0] in g;
      GroupDeclared(devs, k, PortOfTuple(g[0]));
    } else if p :| Declared(devs, p, k) {
      GroupDeclared(devs, k, p);
    }
  }

  lemma {:induction false} AssignCount(m: Model, devs: seq<Device>, cpus: seq<nat>, keys: seq<Key>, k: Key)
    requires WellNamed(devs) && IsBuilt(m, devs, cpus, keys) && NoInputDeclared(devs, cpus) && k.cpu in Aics(devs)
    ensures |AssignDrivers(m, Bit(k))| == if |Group(Tuples(devs, devs), k)| >= 2 then 1 else 0
  {
    hide WithGroups, WithInputs, Tuples, Group, Aics, NoInputDeclared, WellNamed, IsActual, SourceWires;
    var g := Group(Tuples(devs, devs), k);
    Actuals(m, devs, cpus, keys);
    var a := OrAssign(Bit(k), SourceWires(k, |g|));
    BitAssigns(m, devs, cpus, keys, k, a);
    if |g| >= 2 {
      var i :| 0 <= i < |m.orAssigns| && m.orAssigns[i] == a;
      assert AssignDrivers(m, Bit(k)) == {i};
    } else {
      forall i: nat | i < |m.orAssigns| ensures m.orAssigns[i].target != Bit(k) {
        BitAssigns(m, devs, cpus, keys, k, m.orAssigns[i]);
      }
      assert AssignDrivers(m, Bit(k)) == {};
    }
  }

  /** The condition is needed: a line from the input that its aic is wired with never reaches its bit. */
  lemma {:induction false} InputNeverArrives(m: Model, devs: seq<Device>, cpus: seq<nat>, keys: seq<Key>, t: Tuple)
    requires WellNamed(devs) && ErrorFree(m, devs, cpus, keys)
    requires t in Tuples(devs, devs) && Auto(cpus, Aics(devs), Explicit(devs), PortOfTuple(t))
    ensures var lv := (q: Port) => q == PortOfTuple(t); AnyDeclared(devs, KeyOf(t), lv) && !Level(m, Bit(KeyOf(t)), lv)
  {
    hide Tuples, Group, Aics, WellNamed, Declared, Auto, WithGroups, WithInputs, Errors, Explicit;
    var k := KeyOf(t);
    var p := PortOfTuple(t);
    BuiltFree(m, devs, cpus, keys);
    GroupFrom(Tuples(devs, devs), k);
    GroupDeclared(devs, k, p);
    var g := WithGroups(Empty(cpus, Aics(devs)), keys, Tuples(devs, devs), Aics(devs));
    InputsAt(g.overrides, cpus, Aics(devs), Explicit(devs), p);
    OrsOnlySources(m, devs, cpus, keys);
    var lv := (q: Port) => q == p;
    assert lv(p) && Declared(devs, p, k);
    assert m.overrides[p].Vector?;
    forall a, s | Assigned(m, a, Bit(k)) && s in a.sources ensures !Direct(m, s, lv) { assert s.Source?; }
  }

  lemma {:induction false} OrsOnlySources(m: Model, devs: seq<Device>, cpus: seq<nat>, keys: seq<Key>)
    requires WellNamed(devs) && IsBuilt(m, devs, cpus, keys)
    ensures forall a, s :: a in m.orAssigns && s in a.sources ==> s.Source?
  {
    hide Tuples, Group, Aics, WithGroups, WithInputs, SourceWires, Explicit;
    var ts, aics := Tuples(devs, devs), Aics(devs);
    TuplesDeclared(devs, devs);
    GroupsSettled(Empty(cpus, aics), keys, ts, aics);
    forall a, s | a in m.orAssigns && s in a.sources ensures s.Source? {
      var k :| k in keys && k.cpu in aics && |Group(ts, k)| >= 2 && a == OrAssign(Bit(k), SourceWires(k, |Group(ts, k)|));
      SourcesAre(k, |Group(ts, k)|, s);
    }
  }

  /** Every bit means the or of its declared ports, exactly when no line starts at an automatic input. */
  lemma {:induction false} WiringIsOr(m: Model, devs: seq<Device>, cpus: seq<nat>, keys: seq<Key>)
    requires WellNamed(devs) && ErrorFree(m, devs, cpus, keys)
    ensures (forall k: Key, lv: Port -> bool :: k.cpu in Aics(devs) ==> (Level(m, Bit(k), lv) <==> AnyDeclared(devs, k, lv))) <==> NoInputDeclared(devs, cpus)
  {
    hide Tuples, Aics, WellNamed, AnyDeclared, Level, Auto, ErrorFree, Explicit;
    if NoInputDeclared(devs, cpus) {
      forall k: Key, lv: Port -> bool | k.cpu in Aics(devs) ensures Level(m, Bit(k), lv) <==> AnyDeclared(devs, k, lv) { BitIsOr(m, devs, cpus, keys, k, lv); }
    } else {
      var t :| t in Tuples(devs, devs) && t.cpu in Aics(devs) && Auto(cpus, Aics(devs), Explicit(devs), PortOfTuple(t));
      InputNeverArrives(m, devs, cpus, keys, t);
      assert KeyOf(t).cpu in Aics(devs);
    }
  }

  // ---- Vectors ----

  ghost predicate OneAicEach(aics: map<nat, string>) { forall c, e :: c in aics && e in aics && aics[c] == aics[e] ==> c == e }

  lemma {:induction false} AicsDiffer(devs: seq<Device>)
    requires forall i, j :: 0 <= i < j < |devs| ==> devs[i].name != devs[j].name
    ensures OneAicEach(Aics(devs)) && forall c :: c in Aics(devs) ==> exists i :: 0 <= i < |devs| && devs[i].name == Aics(devs)[c]
  {
    if devs != [] {
      var n := |devs| - 1;
      AicsDiffer(devs[..n]);
      forall c | c in Aics(devs[..n]) ensures Aics(devs[..n])[c] != devs[n].name && exists i :: 0 <= i < |devs| && devs[i].name == Aics(devs[..n])[c] {
        var i :| 0 <= i < n && devs[..n][i].name == Aics(devs[..n])[c];
        assert devs[i].name == Aics(devs[..n])[c];
      }
    }
  }

  /** Line p of cpu c has vector 0x11 + p when it is used, and none otherwise. */
  ghost predicate VectorsSettled(v: map<string, seq<int>>, aics: map<nat, string>, keys: seq<Key>) {
    HasTables(v, aics) && forall c, p :: c in aics && 0 <= p < 8 ==> v[aics[c]][p] == if Key(c, p) in keys then 0x11 + p else 0
  }

  lemma {:induction false} VectorStep(v: map<string, seq<int>>, aics: map<nat, string>, keys: seq<Key>, k: Key, vector: int)
    requires OneAicEach(aics) && VectorsSettled(v, aics, keys) && (k.cpu in aics ==> vector == 0x11 + k.path)
    ensures VectorsSettled(if k.cpu in aics then SetVector(v, aics[k.cpu], k, vector) else v, aics, keys + [k])
  {
  }

  lemma {:induction false} GroupVectors(m: Model, keys: seq<Key>, ts: seq<Tuple>, aics: map<nat, string>)
    requires KeysOf(keys, ts) && OneAicEach(aics) && HasTables(m.vectors, aics) && VectorsSettled(m.vectors, aics, []) && forall t :: t in ts ==> t.vector == 0x11 + t.path
    ensures VectorsSettled(WithGroups(m, keys, ts, aics).vectors, aics, keys)
    decreases keys
  {
    hide Group, Placed, SetVector, VectorsSettled, SourceWires, OneAicEach;
    if keys != [] {
      var n := |keys| - 1;
      var k := keys[n];
      GroupVectors(m, keys[..n], ts, aics);
      GroupFrom(ts, k);
      assert Group(ts, k)[0] in Group(ts, k);
      VectorStep(WithGroups(m, keys[..n], ts, aics).vectors, aics, keys[..n], k, Group(ts, k)[0].vector);
      assert keys[..n] + [k] == keys;
    } else {
      assert keys == [];
    }
  }

  /** The vector numbers of an error-free result. */
  lemma {:induction false} VectorNumbers(m: Model, devs: seq<Device>, cpus: seq<nat>, keys: seq<Key>, c: nat, path: nat)
    requires WellNamed(devs) && ErrorFree(m, devs, cpus, keys) && c in Aics(devs) && path < 8
    ensures var a := Aics(devs)[c];
            a in m.vectors && |m.vectors[a]| == 8 && m.vectors[a][path] == if exists p :: Declared(devs, p, Key(c, path)) then 0x11 + path else 0
  {
    hide Group, WithGroups, WithInputs, Tuples, Aics, Errors, Declared, NoVectors;
    var ts, aics := Tuples(devs, devs), Aics(devs);
    BuiltFree(m, devs, cpus, keys);
    AicsDiffer(devs);
    TuplesDeclared(devs, devs);
    NoVectorsYet(cpus, aics);
    GroupVectors(Empty(cpus, aics), keys, ts, aics);
    var g := Group(ts, Key(c, path));
    if g != [] {
      assert g[0] in g;
      GroupDeclared(devs, Key(c, path), PortOfTuple(g[0]));
    } else if p :| Declared(devs, p, Key(c, path)) {
      GroupDeclared(devs, Key(c, path), p);
    }
  }

  lemma {:induction false} NoVectorsYet(cpus: seq<nat>, aics: map<nat, string>)
    requires AreCpus(cpus, aics)
    ensures VectorsSettled(NoVectors(cpus, aics), aics, [])
  {
    forall c, p | c in aics && 0 <= p < 8 ensures aics[c] in NoVectors(cpus, aics) && NoVectors(cpus, aics)[aics[c]][p] == 0 {
      assert c in cpus;
      var i :| 0 <= i < |cpus| && cpus[i] == c;
    }
    forall c | c in aics ensures aics[c] in NoVectors(cpus, aics) {
      assert c in cpus;
      var i :| 0 <= i < |cpus| && cpus[i] == c;
    }
  }

  // ==== tools/socgen/elaborate/irq.go: the theorems on the wiring, in the terms of the devices alone, and when buildIRQ reports an error.

  /** The device's cpu is c; it is 0 when none is given. */
  predicate OnCpu(d: Device, c: int) { d.cpu == Some(c) || (d.cpu == None && c == 0) }

  /** The device asks for line k with its port. */
  predicate Asks(d: Device, port: string, k: Key) {
    match d.irq
    case NoIrq => false
    case Single(n) => port == d.irqPort && OnCpu(d, k.cpu) && k.path == n
    case Named(lines) => Line(port, k.cpu, k.path) in lines
  }

  ghost predicate Asked(devs: seq<Device>, p: Port, k: Key) { exists d :: d in devs && d.name == p.dev && Asks(d, p.port, k) }

  ghost predicate HasAic(devs: seq<Device>, c: int) { c >= 0 && exists d :: d in devs && d.isAic && OnCpu(d, c) }

  /** Device i is the aic of cpu c: the last one there. */
  predicate Serves(devs: seq<Device>, i: int, c: int) {
    0 <= i < |devs| && c >= 0 && devs[i].isAic && OnCpu(devs[i], c) && forall j :: i < j < |devs| ==> !(devs[j].isAic && OnCpu(devs[j], c))
  }

  /** The input that an aic is wired with automatically. */
  ghost predicate AutoInput(devs: seq<Device>, p: Port) {
    p.port == "irq_i" && exists i, c :: Serves(devs, i, c) && devs[i].name == p.dev && !devs[i].mapsIrqI
  }

  ghost predicate NoInputAsked(devs: seq<Device>) { forall p, k :: Asked(devs, p, k) && HasAic(devs, k.cpu) ==> !AutoInput(devs, p) }

  // ---- The same as in the terms of the construction ----

  lemma {:induction false} OnCpuIs(d: Device, c: int)
    ensures OnCpu(d, c) <==> CpuOf(d) == c
  {
  }

  lemma {:induction false} PortOfIs(devs: seq<Device>, i: nat)
    requires i < |devs| && forall i, j :: 0 <= i < j < |devs| ==> devs[i].name != devs[j].name
    ensures PortOf(devs, devs[i].name) == devs[i].irqPort
  {
    if i < |devs| - 1 { PortOfIs(devs[..|devs| - 1], i); }
  }

  lemma {:induction false} AskedIs(devs: seq<Device>, p: Port, k: Key)
    requires WellNamed(devs)
    ensures Asked(devs, p, k) <==> Declared(devs, p, k)
  {
    hide PortOf, CpuOf, OnCpu;
    forall d | d in devs ensures Asks(d, p.port, k) <==> Declares(devs, d, p.port, k) {
      var i :| 0 <= i < |devs| && devs[i] == d;
      PortOfIs(devs, i);
      OnCpuIs(d, k.cpu);
    }
    hide Asks, Declares;
  }

  lemma {:induction false} AicsAre(devs: seq<Device>, c: nat)
    ensures c in Aics(devs) <==> exists i :: Serves(devs, i, c)
    ensures forall i :: Serves(devs, i, c) ==> Aics(devs)[c] == devs[i].name
  {
    if devs != [] {
      var n := |devs| - 1;
      AicsAre(devs[..n], c);
      OnCpuIs(devs[n], c);
      hide OnCpu;
      if devs[n].isAic && OnCpu(devs[n], c) {
        assert Serves(devs, n, c);
      } else {
        forall i ensures Serves(devs, i, c) <==> Serves(devs[..n], i, c) {
          assert forall j :: 0 <= j < n ==> devs[..n][j] == devs[j];
        }
      }
    }
  }

  lemma {:induction false} LastServes(devs: seq<Device>, c: int) returns (i: int)
    requires HasAic(devs, c)
    ensures Serves(devs, i, c)
  {
    hide OnCpu;
    var n := |devs| - 1;
    if devs[n].isAic && OnCpu(devs[n], c) {
      i := n;
    } else {
      assert devs == devs[..n] + [devs[n]];
      i := LastServes(devs[..n], c);
    }
  }

  lemma {:induction false} HasAicIs(devs: seq<Device>, c: int)
    ensures HasAic(devs, c) <==> c >= 0 && c in Aics(devs)
  {
    hide OnCpu, Aics;
    if c >= 0 { AicsAre(devs, c); }
    if HasAic(devs, c) { var i := LastServes(devs, c); }
  }

  lemma {:induction false} AutoIs(devs: seq<Device>, cpus: seq<nat>, p: Port)
    requires WellNamed(devs) && AreCpus(cpus, Aics(devs))
    ensures Auto(cpus, Aics(devs), Explicit(devs), p) <==> AutoInput(devs, p)
  {
    hide Aics, OnCpu, CpuOf, DistinctPorts, SortedCpus;
    forall i, c: nat | Serves(devs, i, c)
      ensures c in Aics(devs) && Aics(devs)[c] == devs[i].name && (devs[i].name in Explicit(devs) <==> devs[i].mapsIrqI) && c in cpus
    {
      AicsAre(devs, c);
      OnCpuIs(devs[i], c);
      assert devs[i] in devs;
    }
    if Auto(cpus, Aics(devs), Explicit(devs), p) {
      var i :| 0 <= i < |cpus| && cpus[i] in Aics(devs) && Aics(devs)[cpus[i]] !in Explicit(devs) && p == Port(Aics(devs)[cpus[i]], "irq_i");
      AicsAre(devs, cpus[i]);
      var j :| Serves(devs, j, cpus[i]);
    }
    if AutoInput(devs, p) {
      var j, c :| Serves(devs, j, c) && devs[j].name == p.dev && !devs[j].mapsIrqI;
      var i :| 0 <= i < |cpus| && cpus[i] == c;
    }
  }

  lemma {:induction false} NoInputIs(devs: seq<Device>, cpus: seq<nat>)
    requires WellNamed(devs) && AreCpus(cpus, Aics(devs)) && TupleErrors(devs, devs) == []
    ensures NoInputAsked(devs) <==> NoInputDeclared(devs, cpus)
  {
    hide Aics, OnCpu, CpuOf, WellNamed, Asked, Declared, AutoInput, Auto, HasAic, Explicit, Tuples, TupleErrors, Group;
    forall p ensures Auto(cpus, Aics(devs), Explicit(devs), p) <==> AutoInput(devs, p) { AutoIs(devs, cpus, p); }
    forall c ensures HasAic(devs, c) <==> c >= 0 && c in Aics(devs) { HasAicIs(devs, c); }
    forall p, k ensures Asked(devs, p, k) <==> exists t :: t in Tuples(devs, devs) && KeyOf(t) == k && PortOfTuple(t) == p {
      AskedIs(devs, p, k);
      GroupDeclared(devs, k, p);
      GroupFrom(Tuples(devs, devs), k);
    }
    if NoInputAsked(devs) {
      forall t | t in Tuples(devs, devs) && t.cpu in Aics(devs) ensures !Auto(cpus, Aics(devs), Explicit(devs), PortOfTuple(t)) {
        assert Asked(devs, PortOfTuple(t), KeyOf(t));
      }
    }
  }

  // ---- The wiring ----

  /** Every bit of every aic means the or of exactly the ports that ask for it, if and only if none of these is an input that an aic
      is wired with automatically. */
  lemma {:induction false} BitsAreOrs(m: Model, devs: seq<Device>, cpus: seq<nat>, keys: seq<Key>)
    requires WellNamed(devs) && ErrorFree(m, devs, cpus, keys)
    ensures (forall k: Key, lv: Port -> bool :: HasAic(devs, k.cpu) ==> (Level(m, Bit(k), lv) <==> exists p :: Asked(devs, p, k) && lv(p))) <==> NoInputAsked(devs)
  {
    hide Aics, WellNamed, Asked, Declared, Level, AutoInput, Auto, HasAic, Explicit, Tuples, TupleErrors, Errors, NoInputAsked, NoInputDeclared, WithGroups, WithInputs;
    BuiltFree(m, devs, cpus, keys);
    NoInputIs(devs, cpus);
    WiringIsOr(m, devs, cpus, keys);
    forall k: Key ensures HasAic(devs, k.cpu) <==> k.cpu in Aics(devs) { HasAicIs(devs, k.cpu); AicNumbers(devs, k.cpu); }
    forall p, k ensures Asked(devs, p, k) <==> Declared(devs, p, k) { AskedIs(devs, p, k); }
    forall k, lv: Port -> bool ensures AnyDeclared(devs, k, lv) <==> exists p :: Asked(devs, p, k) && lv(p) {}
  }

  lemma {:induction false} AicNumbers(devs: seq<Device>, c: int)
    ensures c in Aics(devs) ==> c >= 0
  {
  }

  /** A bit has one driver, a port or an or-assignment, exactly when a port asks for it. */
  lemma {:induction false} OneDriverEach(m: Model, devs: seq<Device>, cpus: seq<nat>, keys: seq<Key>, k: Key)
    requires WellNamed(devs) && ErrorFree(m, devs, cpus, keys) && NoInputAsked(devs) && HasAic(devs, k.cpu)
    ensures |PortDrivers(m, Bit(k))| + |AssignDrivers(m, Bit(k))| == if exists p :: Asked(devs, p, k) then 1 else 0
  {
    hide Aics, WellNamed, Asked, Declared, HasAic, Tuples, TupleErrors, Errors, NoInputAsked, NoInputDeclared, WithGroups, WithInputs;
    BuiltFree(m, devs, cpus, keys);
    NoInputIs(devs, cpus);
    HasAicIs(devs, k.cpu);
    forall p ensures Asked(devs, p, k) <==> Declared(devs, p, k) { AskedIs(devs, p, k); }
    OneDriver(m, devs, cpus, keys, k);
  }

  /** The table of the aic of a cpu holds 0x11 plus the path for the lines asked for, and 0 for the others. */
  lemma {:induction false} VectorTable(m: Model, devs: seq<Device>, cpus: seq<nat>, keys: seq<Key>, i: int, c: nat, path: nat)
    requires WellNamed(devs) && ErrorFree(m, devs, cpus, keys) && Serves(devs, i, c) && path < 8
    ensures var a := devs[i].name;
            a in m.vectors && |m.vectors[a]| == 8 && m.vectors[a][path] == if exists p :: Asked(devs, p, Key(c, path)) then 0x11 + path else 0
  {
    hide Aics, WellNamed, Asked, Declared, ErrorFree, Serves;
    AicsAre(devs, c);
    forall p ensures Asked(devs, p, Key(c, path)) <==> Declared(devs, p, Key(c, path)) { AskedIs(devs, p, Key(c, path)); }
    VectorNumbers(m, devs, cpus, keys, c, path);
  }

  // ---- When an error is reported ----

  predicate Wired(d: Device) {
    match d.irq
    case NoIrq => true
    case Single(_) => d.irqPort != ""
    case Named(lines) => forall l :: l in lines ==> d.entityPorts == None || l.port in d.entityPorts.value
  }

  /** The numbers of the aics' cpus start at 0 and have no gap, each device has the ports that it asks with, and each line is one of
      the eight of some cpu. */
  ghost predicate Faultless(devs: seq<Device>) {
    && (forall d, c :: d in devs && d.isAic && OnCpu(d, c) ==> c >= 0)
    && (forall b, c :: 0 <= b <= c && HasAic(devs, c) ==> HasAic(devs, b))
    && (forall d :: d in devs ==> Wired(d))
    && (forall p, k :: Asked(devs, p, k) ==> k.cpu >= 0 && 0 <= k.path <= 7)
  }

  lemma {:induction false} AicErrorsExactly(devs: seq<Device>)
    ensures AicErrors(devs) == [] <==> forall d, c :: d in devs && d.isAic && OnCpu(d, c) ==> c >= 0
  {
    if devs != [] {
      var n := |devs| - 1;
      AicErrorsExactly(devs[..n]);
      assert devs == devs[..n] + [devs[n]];
      OnCpuIs(devs[n], CpuOf(devs[n]));
      forall c ensures OnCpu(devs[n], c) <==> CpuOf(devs[n]) == c { OnCpuIs(devs[n], c); }
      hide OnCpu, CpuOf;
    }
  }

  lemma {:induction false} CoverageExactly(devs: seq<Device>, cpus: seq<nat>)
    requires AreCpus(cpus, Aics(devs))
    ensures CoverageErrors(cpus) == [] <==> forall b, c :: 0 <= b <= c && HasAic(devs, c) ==> HasAic(devs, b)
  {
    hide Aics, HasAic;
    forall c: int ensures HasAic(devs, c) <==> c >= 0 && c in cpus { HasAicIs(devs, c); }
    if CoverageErrors(cpus) == [] {
      assert forall c: nat :: c in cpus <==> c < |cpus| by { Numbered(cpus); }
    }
    if forall b, c :: 0 <= b <= c && HasAic(devs, c) ==> HasAic(devs, b) {
      forall i | 0 <= i < |cpus| ensures cpus[i] == i { Counts(cpus, i); }
    }
  }

  lemma {:induction false} Numbered(cpus: seq<nat>)
    requires forall i :: 0 <= i < |cpus| ==> cpus[i] == i
    ensures forall c: nat :: c in cpus <==> c < |cpus|
  {
    forall c: nat | c < |cpus| ensures c in cpus { assert cpus[c] == c; }
  }

  lemma {:induction false} Counts(cpus: seq<nat>, i: nat)
    requires SortedCpus(cpus) && i < |cpus| && forall b: nat, c: nat :: b <= c && c in cpus ==> b in cpus
    ensures cpus[i] == i
  {
    if i > 0 { Counts(cpus, i - 1); }
    var b: nat := if i == 0 then 0 else cpus[i - 1] + 1;
    assert cpus[i] in cpus && b <= cpus[i] && b in cpus;
    var l :| 0 <= l < |cpus| && cpus[l] == b;
  }

  lemma {:induction false} LineErrorsExactly(d: Device, lines: seq<Line>)
    ensures LineErrors(d, lines) == [] <==> forall l :: l in lines ==> d.entityPorts == None || l.port in d.entityPorts.value
  {
    if lines != [] {
      var n := |lines| - 1;
      LineErrorsExactly(d, lines[..n]);
      assert lines == lines[..n] + [lines[n]];
    }
  }

  lemma {:induction false} TupleErrorsExactly(all: seq<Device>, devs: seq<Device>)
    requires forall d :: d in devs ==> PortOf(all, d.name) == d.irqPort
    ensures TupleErrors(all, devs) == [] <==> forall d :: d in devs ==> Wired(d)
  {
    hide LineErrors, PortOf;
    if devs != [] {
      var n := |devs| - 1;
      TupleErrorsExactly(all, devs[..n]);
      assert devs == devs[..n] + [devs[n]];
      if devs[n].irq.Named? { LineErrorsExactly(devs[n], devs[n].irq.lines); }
      assert DeviceErrors(all, devs[n]) == [] <==> Wired(devs[n]);
      hide DeviceErrors, Wired;
    }
  }

  /** A group of one vector has an error exactly when its line is not one of the eight of a cpu. */
  lemma {:induction false} KeyErrorsExactly(devs: seq<Device>, keys: seq<Key>)
    requires WellNamed(devs) && KeysOf(keys, Tuples(devs, devs))
    ensures KeyErrors(keys, Tuples(devs, devs), Aics(devs)) == [] <==> forall k :: k in keys ==> k.cpu >= 0 && 0 <= k.path <= 7
  {
    hide Group, Tuples, Aics, WellNamed, Mismatches;
    if keys != [] {
      var n := |keys| - 1;
      var ts := Tuples(devs, devs);
      KeyErrorsExactly(devs, keys[..n]);
      assert keys == keys[..n] + [keys[n]];
      var g := Group(ts, keys[n]);
      TuplesDeclared(devs, devs);
      GroupFrom(ts, keys[n]);
      forall i, j | 0 <= i < j < |g| ensures g[i].vector == g[j].vector { assert g[i] in g && g[j] in g; }
      NoMismatch(g, |g|);
    }
  }

  /** buildIRQ reports no error exactly when the devices are without fault. */
  lemma {:induction false} ErrorsExactly(devs: seq<Device>, cpus: seq<nat>, keys: seq<Key>)
    requires WellNamed(devs) && AreCpus(cpus, Aics(devs)) && AreKeys(keys, Tuples(devs, devs))
    ensures Errors(devs, cpus, keys) == [] <==> Faultless(devs)
  {
    hide Aics, Tuples, Group, WellNamed, Wired, OnCpu, HasAic, Asked, AicErrors, TupleErrors, KeyErrors, CoverageErrors, SortedCpus, SortedKeys;
    AicErrorsExactly(devs);
    CoverageExactly(devs, cpus);
    forall d | d in devs ensures PortOf(devs, d.name) == d.irqPort { NamedDevice(devs, d); }
    TupleErrorsExactly(devs, devs);
    KeyErrorsExactly(devs, keys);
    if TupleErrors(devs, devs) == [] {
      forall k ensures k in keys <==> exists p :: Asked(devs, p, k) { KeyAsked(devs, keys, k); }
    }
  }

  lemma {:induction false} NamedDevice(devs: seq<Device>, d: Device)
    requires WellNamed(devs) && d in devs
    ensures PortOf(devs, d.name) == d.irqPort
  {
    var i :| 0 <= i < |devs| && devs[i] == d;
    PortOfIs(devs, i);
  }

  lemma {:induction false} KeyAsked(devs: seq<Device>, keys: seq<Key>, k: Key)
    requires WellNamed(devs) && AreKeys(keys, Tuples(devs, devs)) && TupleErrors(devs, devs) == []
    ensures k in keys <==> exists p :: Asked(devs, p, k)
  {
    hide Aics, Tuples, Group, WellNamed, Asked, Declared, TupleErrors, SortedKeys;
    var g := Group(Tuples(devs, devs), k);
    if g != [] {
      assert g[0] in g;
      AskedIs(devs, PortOfTuple(g[0]), k);
      GroupDeclared(devs, k, PortOfTuple(g[0]));
    } else if p :| Asked(devs, p, k) {
      AskedIs(devs, p, k);
      GroupDeclared(devs, k, p);
    }
  }

  // ==== tools/socgen/elaborate/irq.go: the names that stand for the wires.

  /** string(rune(n)): a surrogate or a number beyond Unicode becomes the replacement character. */
  function Rune(n: nat): char {
    if 0xD800 <= n <= 0xDFFF || n > 0x10FFFF then '\U{FFFD}' else n as char
  }

  function Text(w: Wire): string {
    match w
    case Open => "open"
    case Bit(k) => "irqs" + IntText(k.cpu) + "(" + IntText(k.path) + ")"
    case Source(k, i) => "irq_" + IntText(k.cpu) + "_" + IntText(k.path) + "_" + [Rune(97 + i)]
    case Vector(c) => "irqs" + IntText(c)
  }

  const SUFFIXES := 55199    // 0xD800 - 'a'

  lemma {:induction false} BitText(k: Key)
    ensures Text(Bit(k))[..4] == "irqs" && Text(Bit(k))[4..] == IntText(k.cpu) + ['('] + (IntText(k.path) + ")")
  {
    assert Text(Bit(k)) == "irqs" + (IntText(k.cpu) + ['('] + (IntText(k.path) + ")"));
  }

  lemma {:induction false} SourceText(k: Key, i: nat)
    ensures Text(Source(k, i))[..4] == "irq_"
    ensures Text(Source(k, i))[4..] == IntText(k.cpu) + ['_'] + (IntText(k.path) + ['_'] + [Rune(97 + i)])
  {
    assert Text(Source(k, i)) == "irq_" + (IntText(k.cpu) + ['_'] + (IntText(k.path) + ['_'] + [Rune(97 + i)]));
  }

  lemma {:induction false} SameBit(k: Key, l: Key)
    requires Text(Bit(k)) == Text(Bit(l))
    ensures k == l
  {
    BitText(k);
    BitText(l);
    Cut(IntText(k.cpu), IntText(l.cpu), '(', IntText(k.path) + ")", IntText(l.path) + ")");
    IntTextInjective(k.cpu, l.cpu);
    assert (IntText(k.path) + ")")[..|IntText(k.path)|] == IntText(k.path) && (IntText(l.path) + ")")[..|IntText(l.path)|] == IntText(l.path);
    IntTextInjective(k.path, l.path);
  }

  lemma {:induction false} SameSource(k: Key, i: nat, l: Key, j: nat)
    requires Text(Source(k, i)) == Text(Source(l, j)) && i <= SUFFIXES && j <= SUFFIXES
    ensures k == l && i == j
  {
    SourceText(k, i);
    SourceText(l, j);
    Cut(IntText(k.cpu), IntText(l.cpu), '_', IntText(k.path) + ['_'] + [Rune(97 + i)], IntText(l.path) + ['_'] + [Rune(97 + j)]);
    IntTextInjective(k.cpu, l.cpu);
    Cut(IntText(k.path), IntText(l.path), '_', [Rune(97 + i)], [Rune(97 + j)]);
    IntTextInjective(k.path, l.path);
    assert Rune(97 + i) == Rune(97 + j);
  }

  /** The names tell the wires apart up to the first source whose suffix is the replacement character. */
  lemma {:induction false} TextInjective(a: Wire, b: Wire)
    requires Text(a) == Text(b) && (a.Source? ==> a.i <= SUFFIXES) && (b.Source? ==> b.i <= SUFFIXES)
    ensures a == b
  {
    if a.Source? { SourceText(a.key, a.i); }
    if b.Source? { SourceText(b.key, b.i); }
    if a.Bit? && b.Bit? {
      SameBit(a.key, b.key);
    } else if a.Source? && b.Source? {
      SameSource(a.key, a.i, b.key, b.i);
    } else if a.Vector? && b.Vector? {
      assert Text(a)[4..] == IntText(a.cpu) && Text(b)[4..] == IntText(b.cpu);
      IntTextInjective(a.cpu, b.cpu);
    } else if a.Vector? && b.Bit? {
      VectorNoBit(a.cpu, b.key);
    } else if a.Bit? && b.Vector? {
      VectorNoBit(b.cpu, a.key);
    } else if !(a.Open? && b.Open?) {
      TextStarts(a);
      TextStarts(b);
    }
  }

  lemma {:induction false} VectorNoBit(c: nat, k: Key)
    ensures Text(Vector(c)) != Text(Bit(k))
  {
    BitText(k);
    var t := Text(Bit(k))[4..];
    assert t[|IntText(k.cpu)|] == '(';
    assert '(' in t;
    assert Text(Vector(c))[4..] == IntText(c);
  }

  lemma {:induction false} TextStarts(w: Wire)
    ensures |Text(w)| >= 4 && Text(w)[..4] == if w.Open? then "open" else if w.Source? then "irq_" else "irqs"
  {
    if w.Source? { SourceText(w.key, w.i); }
    if w.Bit? { BitText(w.key); }
  }

  /** And not beyond: the suffix after that one is the same character. */
  lemma {:induction false} SuffixesRunOut(k: Key)
    ensures Text(Source(k, SUFFIXES)) == Text(Source(k, SUFFIXES + 1)) && Source(k, SUFFIXES) != Source(k, SUFFIXES + 1)
  {
  }

  /** The first n sources of a line have different names exactly when n is at most one more than the suffixes. */
  lemma {:induction false} NamesDifferExactly(k: Key, n: nat)
    ensures (forall i, j :: 0 <= i < j < n ==> Text(Source(k, i)) != Text(Source(k, j))) <==> n <= SUFFIXES + 1
  {
    hide Text;
    if n <= SUFFIXES + 1 {
      forall i, j | 0 <= i < j < n ensures Text(Source(k, i)) != Text(Source(k, j)) {
        if Text(Source(k, i)) == Text(Source(k, j)) { SameSource(k, i, k, j); }
      }
    } else {
      SuffixesRunOut(k);
    }
  }

  // ---- The names of all declared signals ----

  /** The signals of the main loop. */
  function Sources(keys: seq<Key>, ts: seq<Tuple>, aics: map<nat, string>): seq<Wire> {
    if keys == [] then [] else Sources(keys[..|keys| - 1], ts, aics) + OfLine(keys[|keys| - 1], ts, aics)
  }

  function OfLine(k: Key, ts: seq<Tuple>, aics: map<nat, string>): seq<Wire> {
    if k.cpu in aics && |Group(ts, k)| >= 2 then SourceWires(k, |Group(ts, k)|) else []
  }

  lemma {:induction false} SignalsAre(m: Model, keys: seq<Key>, ts: seq<Tuple>, aics: map<nat, string>)
    requires KeysOf(keys, ts) && HasTables(m.vectors, aics)
    ensures WithGroups(m, keys, ts, aics).signals == m.signals + Sources(keys, ts, aics)
  {
    hide Group, SourceWires, Placed, SetVector;
    if keys != [] { SignalsAre(m, keys[..|keys| - 1], ts, aics); }
  }

  predicate Differ(ws: seq<Wire>) { forall i, j :: 0 <= i < j < |ws| ==> ws[i] != ws[j] }

  lemma {:induction false} SourceWiresAt(k: Key, n: nat)
    ensures |SourceWires(k, n)| == n && forall i :: 0 <= i < n ==> SourceWires(k, n)[i] == Source(k, i)
  {
    if n > 0 { SourceWiresAt(k, n - 1); }
  }

  ghost predicate IsSource(w: Wire, keys: seq<Key>, ts: seq<Tuple>, aics: map<nat, string>) {
    w.Source? && w.key in keys && w.key.cpu in aics && w.i < |Group(ts, w.key)| && |Group(ts, w.key)| >= 2
  }

  lemma {:induction false} SourcesDiffer(keys: seq<Key>, ts: seq<Tuple>, aics: map<nat, string>)
    requires SortedKeys(keys)
    ensures Differ(Sources(keys, ts, aics)) && forall w :: w in Sources(keys, ts, aics) <==> IsSource(w, keys, ts, aics)
  {
    hide Group, SourceWires;
    if keys != [] {
      var n := |keys| - 1;
      var k := keys[n];
      var before, line := Sources(keys[..n], ts, aics), OfLine(k, ts, aics);
      SourcesDiffer(keys[..n], ts, aics);
      SourceWiresAt(k, |Group(ts, k)|);
      assert k !in keys[..n] && forall l :: l in keys <==> l in keys[..n] || l == k;
      forall w ensures w in line <==> IsSource(w, [k], ts, aics) {
        if IsSource(w, [k], ts, aics) { assert line[w.i] == w; }
      }
      forall i, j | 0 <= i < j < |before + line| ensures (before + line)[i] != (before + line)[j] {
        if i < |before| <= j { assert before[i] in before && line[j - |before|] in line; }
      }
    }
  }

  lemma {:induction false} VectorWiresDiffer(cpus: seq<nat>)
    requires SortedCpus(cpus)
    ensures Differ(VectorWires(cpus)) && forall w :: w in VectorWires(cpus) ==> w.Vector? && w.cpu in cpus
  {
    if cpus != [] {
      var n := |cpus| - 1;
      VectorWiresDiffer(cpus[..n]);
      forall i | 0 <= i < |VectorWires(cpus[..n])| ensures VectorWires(cpus[..n])[i] != Vector(cpus[n]) {
        assert VectorWires(cpus[..n])[i] in VectorWires(cpus[..n]);
      }
    }
  }

  /** No wire is declared twice, and the sources among the declared ones are those of the lines with two ports or more. */
  lemma {:induction false} DeclaredSignals(m: Model, devs: seq<Device>, cpus: seq<nat>, keys: seq<Key>)
    requires IsBuilt(m, devs, cpus, keys)
    ensures Differ(m.signals) && forall w :: w in m.signals && w.Source? <==> IsSource(w, keys, Tuples(devs, devs), Aics(devs))
  {
    hide Group, Tuples, Aics, Sources, VectorWires, NoVectors, WithGroups;
    var ts, aics := Tuples(devs, devs), Aics(devs);
    SignalsAre(Empty(cpus, aics), keys, ts, aics);
    SourcesDiffer(keys, ts, aics);
    VectorWiresDiffer(cpus);
    var vs, ss := VectorWires(cpus), Sources(keys, ts, aics);
    forall i, j | 0 <= i < j < |vs + ss| ensures (vs + ss)[i] != (vs + ss)[j] {
      if i < |vs| <= j { assert vs[i] in vs && ss[j - |vs|] in ss; }
    }
  }

  ghost predicate NamesDiffer(m: Model) {
    forall i, j :: 0 <= i < j < |m.signals| ==> Text(m.signals[i]) != Text(m.signals[j])
  }

  /** The declared signals have different names exactly when no line of an aic has more ports than that. */
  lemma {:induction false} SignalNamesDiffer(m: Model, devs: seq<Device>, cpus: seq<nat>, keys: seq<Key>)
    requires IsBuilt(m, devs, cpus, keys)
    ensures NamesDiffer(m) <==> forall k: Key :: k.cpu in Aics(devs) ==> |Group(Tuples(devs, devs), k)| <= SUFFIXES + 1
  {
    hide Text, Group, Tuples, Aics, WithGroups, WithInputs, NoVectors, VectorWires;
    var ts, aics := Tuples(devs, devs), Aics(devs);
    DeclaredSignals(m, devs, cpus, keys);
    if forall k: Key :: k.cpu in aics ==> |Group(ts, k)| <= SUFFIXES + 1 {
      forall i, j | 0 <= i < j < |m.signals| ensures Text(m.signals[i]) != Text(m.signals[j]) {
        assert m.signals[i] in m.signals && m.signals[j] in m.signals;
        if Text(m.signals[i]) == Text(m.signals[j]) { TextInjective(m.signals[i], m.signals[j]); }
      }
    } else {
      var k: Key :| k.cpu in aics && |Group(ts, k)| > SUFFIXES + 1;
      var a, b := Source(k, SUFFIXES), Source(k, SUFFIXES + 1);
      assert k in keys && IsSource(a, keys, ts, aics) && IsSource(b, keys, ts, aics);
      var i :| 0 <= i < |m.signals| && m.signals[i] == a;
      var j :| 0 <= j < |m.signals| && m.signals[j] == b;
      SuffixesRunOut(k);
      assert Text(m.signals[if i < j then i else j]) == Text(m.signals[if i < j then j else i]);
    }
  }
}
