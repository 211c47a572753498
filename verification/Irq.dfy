// tools/socgen/elaborate/irq.go: interrupt wiring.

module Irq {
  import opened Common

  /** One line of a named irq map; a map is given as its entries in the order of their keys. */
  datatype Line = Line(port: string, cpu: int, path: int)

  datatype IrqRef = NoIrq | Single(path: int) | Named(lines: seq<Line>)

  /** A device with its effective name. irqPort is its first interrupt port, or empty; entityPorts is None when the entity or its
      port list is not known. */
  datatype Device = Device(name: string, isAic: bool, cpu: Option<int>, irq: IrqRef, irqPort: string, entityPorts: Option<set<string>>, mapsIrqI: bool)

  datatype Tuple = Tuple(dev: string, port: string, cpu: int, path: int, vector: int)

  datatype IrqError = NoPort(dev: string) | BadCpu(dev: string) | BadPath(dev: string) | NamedPort(dev: string, port: string) | VectorMismatch(dev: string) | AicCoverage

  datatype Key = Key(cpu: int, path: int)

  datatype Port = Port(dev: string, port: string)

  /** The actuals and signals, by their meaning; Text gives the names. */
  datatype Wire = Open | Bit(key: Key) | Source(key: Key, i: nat) | Vector(cpu: nat)

  datatype OrAssign = OrAssign(target: Wire, sources: seq<Wire>)

  datatype Model = Model(signals: seq<Wire>, orAssigns: seq<OrAssign>, overrides: map<Port, Wire>, vectors: map<string, seq<int>>)

  const NO_VECTORS: seq<int> := [0, 0, 0, 0, 0, 0, 0, 0]

  function CpuOf(d: Device): int { d.cpu.GetOr(0) }

  // ---- What the loops compute ----

  /** rdByName and irqPortName: the last device of a name wins. */
  function PortOf(devs: seq<Device>, name: string): string {
    if devs == [] then ""
    else if devs[|devs| - 1].name == name then devs[|devs| - 1].irqPort
    else PortOf(devs[..|devs| - 1], name)
  }

  /** The aic of each cpu; the last one wins. */
  function Aics(devs: seq<Device>): map<nat, string> {
    if devs == [] then map[]
    else
      var d := devs[|devs| - 1];
      var m := Aics(devs[..|devs| - 1]);
      if d.isAic && CpuOf(d) >= 0 then m[CpuOf(d) := d.name] else m
  }

  function Explicit(devs: seq<Device>): set<string> { set d | d in devs && d.isAic && CpuOf(d) >= 0 && d.mapsIrqI :: d.name }

  predicate HasPort(d: Device, port: string) { d.entityPorts.None? || port in d.entityPorts.value }

  function LineTuples(d: Device, lines: seq<Line>): seq<Tuple> {
    if lines == [] then []
    else
      var l := lines[|lines| - 1];
      LineTuples(d, lines[..|lines| - 1]) + if HasPort(d, l.port) then [Tuple(d.name, l.port, l.cpu, l.path, 0x11 + l.path)] else []
  }

  function DeviceTuples(all: seq<Device>, d: Device): seq<Tuple> {
    match d.irq
    case NoIrq => []
    case Single(n) => if PortOf(all, d.name) == "" then [] else [Tuple(d.name, PortOf(all, d.name), CpuOf(d), n, 0x11 + n)]
    case Named(lines) => LineTuples(d, lines)
  }

  function Tuples(all: seq<Device>, devs: seq<Device>): seq<Tuple> {
    if devs == [] then [] else Tuples(all, devs[..|devs| - 1]) + DeviceTuples(all, devs[|devs| - 1])
  }

  function KeyOf(t: Tuple): Key { Key(t.cpu, t.path) }

  function PortOfTuple(t: Tuple): Port { Port(t.dev, t.port) }

  /** The tuples of one line of one cpu, in order. */
  function Group(ts: seq<Tuple>, k: Key): seq<Tuple> {
    if ts == [] then []
    else Group(ts[..|ts| - 1], k) + if KeyOf(ts[|ts| - 1]) == k then [ts[|ts| - 1]] else []
  }

  /** The actual of the i-th port of a group. */
  function WireFor(k: Key, size: nat, hasAic: bool, i: nat): Wire {
    if !hasAic then Open else if size == 1 then Bit(k) else Source(k, i)
  }

  function SourceWires(k: Key, n: nat): seq<Wire> { if n == 0 then [] else SourceWires(k, n - 1) + [Source(k, n - 1)] }

  function Placed(ov: map<Port, Wire>, g: seq<Tuple>, k: Key, hasAic: bool, n: nat): map<Port, Wire>
    requires n <= |g|
  {
    if n == 0 then ov else Placed(ov, g, k, hasAic, n - 1)[PortOfTuple(g[n - 1]) := WireFor(k, |g|, hasAic, n - 1)]
  }

  function SetVector(vectors: map<string, seq<int>>, aic: string, k: Key, vector: int): map<string, seq<int>>
    requires aic in vectors && |vectors[aic]| == 8
  {
    if 0 <= k.path <= 7 then vectors[aic := vectors[aic][k.path := vector]] else vectors
  }

  predicate HasTables(vectors: map<string, seq<int>>, aics: map<nat, string>) {
    forall c :: c in aics ==> aics[c] in vectors && |vectors[aics[c]]| == 8
  }

  /** One turn of the main loop. */
  function WithGroup(m: Model, k: Key, g: seq<Tuple>, aics: map<nat, string>): (r: Model)
    requires g != [] && HasTables(m.vectors, aics)
    ensures HasTables(r.vectors, aics)
  {
    var ov := Placed(m.overrides, g, k, k.cpu in aics, |g|);
    if k.cpu !in aics then m.(overrides := ov)
    else
      var v := SetVector(m.vectors, aics[k.cpu], k, g[0].vector);
      if |g| == 1 then m.(overrides := ov, vectors := v)
      else Model(m.signals + SourceWires(k, |g|), m.orAssigns + [OrAssign(Bit(k), SourceWires(k, |g|))], ov, v)
  }

  predicate KeysOf(keys: seq<Key>, ts: seq<Tuple>) {
    forall k :: k in keys ==> Group(ts, k) != []
  }

  function WithGroups(m: Model, keys: seq<Key>, ts: seq<Tuple>, aics: map<nat, string>): (r: Model)
    requires KeysOf(keys, ts) && HasTables(m.vectors, aics)
    ensures HasTables(r.vectors, aics)
  {
    if keys == [] then m
    else
      var k := keys[|keys| - 1];
      WithGroup(WithGroups(m, keys[..|keys| - 1], ts, aics), k, Group(ts, k), aics)
  }

  predicate Within(cpus: seq<nat>, aics: map<nat, string>) { forall i :: 0 <= i < |cpus| ==> cpus[i] in aics }

  /** The irq_i inputs of the aics. */
  function WithInputs(ov: map<Port, Wire>, cpus: seq<nat>, aics: map<nat, string>, explicit: set<string>): map<Port, Wire>
    requires Within(cpus, aics)
  {
    if cpus == [] then ov
    else
      var c := cpus[|cpus| - 1];
      var m := WithInputs(ov, cpus[..|cpus| - 1], aics, explicit);
      if aics[c] in explicit then m else m[Port(aics[c], "irq_i") := Vector(c)]
  }

  function Empty(cpus: seq<nat>, aics: map<nat, string>): Model
    requires Within(cpus, aics)
  {
    Model(VectorWires(cpus), [], map[], NoVectors(cpus, aics))
  }

  function NoVectors(cpus: seq<nat>, aics: map<nat, string>): (m: map<string, seq<int>>)
    requires Within(cpus, aics)
    ensures forall a :: a in m ==> m[a] == NO_VECTORS
    ensures forall i :: 0 <= i < |cpus| ==> aics[cpus[i]] in m
  {
    if cpus == [] then map[]
    else
      NoVectors(cpus[..|cpus| - 1], aics)[aics[cpus[|cpus| - 1]] := NO_VECTORS]
  }

  /** The ports of a group whose vector is not the first one's. */
  function Mismatches(g: seq<Tuple>, n: nat): seq<IrqError>
    requires n <= |g|
  {
    if n == 0 then [] else Mismatches(g, n - 1) + if g[n - 1].vector == g[0].vector then [] else [VectorMismatch(g[n - 1].dev)]
  }

  function GroupErrors(k: Key, g: seq<Tuple>, hasAic: bool): seq<IrqError>
    requires g != []
  {
    (if k.cpu < 0 then [BadCpu(g[0].dev)] else []) + (if 0 <= k.path <= 7 then [] else [BadPath(g[0].dev)])
    + if hasAic then Mismatches(g, |g|) else []
  }

  function VectorWires(cpus: seq<nat>): seq<Wire> { if cpus == [] then [] else VectorWires(cpus[..|cpus| - 1]) + [Vector(cpus[|cpus| - 1])] }

  predicate KeyLess(a: Key, b: Key) { a.cpu < b.cpu || (a.cpu == b.cpu && a.path < b.path) }

  predicate SortedKeys(keys: seq<Key>) { forall i, j :: 0 <= i < j < |keys| ==> KeyLess(keys[i], keys[j]) }

  predicate SortedCpus(s: seq<nat>) { forall i, j :: 0 <= i < j < |s| ==> s[i] < s[j] }

  /** The keys with tuples, in order. */
  ghost predicate AreKeys(keys: seq<Key>, ts: seq<Tuple>) {
    SortedKeys(keys) && forall k :: k in keys <==> Group(ts, k) != []
  }

  ghost predicate AreCpus(cpus: seq<nat>, aics: map<nat, string>) {
    SortedCpus(cpus) && forall c :: c in cpus <==> c in aics
  }

  /** The whole model. */
  ghost predicate IsBuilt(m: Model, devs: seq<Device>, cpus: seq<nat>, keys: seq<Key>) {
    var aics, ts := Aics(devs), Tuples(devs, devs);
    && AreCpus(cpus, aics)
    && AreKeys(keys, ts)
    && (var g := WithGroups(Empty(cpus, aics), keys, ts, aics);
        m == g.(overrides := WithInputs(g.overrides, cpus, aics, Explicit(devs))))
  }

  // ---- The source's own form ----

  class IrqModel {
    var signals: seq<Wire>
    var orAssigns: seq<OrAssign>
    var overrides: map<Port, Wire>
    var vectors: map<string, seq<int>>

    function State(): Model
      reads this
    {
      Model(signals, orAssigns, overrides, vectors)
    }

    constructor (cpus: seq<nat>, aics: map<nat, string>)
      requires AreCpus(cpus, aics)
      ensures State() == Empty(cpus, aics)
    {
      signals, orAssigns, overrides, vectors := [], [], map[], map[];
      new;
      for i := 0 to |cpus|
        invariant signals == VectorWires(cpus[..i]) && orAssigns == [] && overrides == map[]
        invariant vectors == NoVectors(cpus[..i], aics)
      {
        assert cpus[..i + 1][..i] == cpus[..i];
        signals := signals + [Vector(cpus[i])];
        vectors := vectors[aics[cpus[i]] := NO_VECTORS];
      }
      assert cpus[..|cpus|] == cpus;
    }

    method SetOverride(dev: string, port: string, w: Wire)
      modifies this`overrides
      ensures overrides == old(overrides)[Port(dev, port) := w]
    {
      overrides := overrides[Port(dev, port) := w];
    }

    /** The ports of a group without an aic, or of a group of one. */
    method SetAll(k: Key, g: seq<Tuple>, hasAic: bool)
      modifies this`overrides
      ensures overrides == Placed(old(overrides), g, k, hasAic, |g|)
    {
      for i := 0 to |g|
        invariant overrides == Placed(old(overrides), g, k, hasAic, i)
      {
        SetOverride(g[i].dev, g[i].port, WireFor(k, |g|, hasAic, i));
      }
    }

    /** One turn of the main loop. */
    method AddGroup(k: Key, g: seq<Tuple>, aics: map<nat, string>) returns (errs: seq<IrqError>)
      requires g != [] && HasTables(vectors, aics)
      modifies this
      ensures State() == WithGroup(old(State()), k, g, aics)
      ensures errs == GroupErrors(k, g, k.cpu in aics)
    {
      errs := [];
      if k.cpu < 0 { errs := errs + [BadCpu(g[0].dev)]; }
      if k.path < 0 || k.path > 7 { errs := errs + [BadPath(g[0].dev)]; }
      if k.cpu !in aics {
        SetAll(k, g, false);
        return;
      }
      vectors := SetVector(vectors, aics[k.cpu], k, g[0].vector);
      if |g| == 1 {
        SetAll(k, g, true);
        assert Mismatches(g, 1) == Mismatches(g, 0);
        return;
      }
      var sources := [];
      ghost var before := errs;
      for i := 0 to |g|
        invariant sources == SourceWires(k, i) && signals == old(signals) + sources && errs == before + Mismatches(g, i)
        invariant overrides == Placed(old(overrides), g, k, true, i)
        invariant orAssigns == old(orAssigns) && vectors == SetVector(old(vectors), aics[k.cpu], k, g[0].vector)
      {
        if g[i].vector != g[0].vector { errs := errs + [VectorMismatch(g[i].dev)]; }
        signals := signals + [Source(k, i)];
        SetOverride(g[i].dev, g[i].port, Source(k, i));
        sources := sources + [Source(k, i)];
      }
      orAssigns := orAssigns + [OrAssign(Bit(k), sources)];
    }
  }

  // ---- Keys in order ----

  method SortCpus(aics: map<nat, string>) returns (cpus: seq<nat>)
    ensures AreCpus(cpus, aics)
  {
    cpus := [];
    var left := aics.Keys;
    while left != {}
      invariant SortedCpus(cpus) && left <= aics.Keys && forall c :: c in cpus <==> c in aics && c !in left
      decreases left
    {
      var c :| c in left;
      var i := 0;
      while i < |cpus| && cpus[i] < c
        invariant i <= |cpus| && forall j :: 0 <= j < i ==> cpus[j] < c
      {
        i := i + 1;
      }
      ghost var was := cpus;
      cpus := cpus[..i] + [c] + cpus[i..];
      assert forall x :: x in cpus <==> x == c || x in was by { assert was == was[..i] + was[i..]; }
      left := left - {c};
    }
  }

  method SortKeys(ks: set<Key>) returns (keys: seq<Key>)
    ensures SortedKeys(keys) && forall k :: k in keys <==> k in ks
  {
    keys := [];
    var left := ks;
    while left != {}
      invariant SortedKeys(keys) && left <= ks && forall k :: k in keys <==> k in ks && k !in left
      decreases left
    {
      var k :| k in left;
      var i := 0;
      while i < |keys| && KeyLess(keys[i], k)
        invariant i <= |keys| && forall j :: 0 <= j < i ==> KeyLess(keys[j], k)
      {
        i := i + 1;
      }
      ghost var was := keys;
      keys := keys[..i] + [k] + keys[i..];
      assert forall x :: x in keys <==> x == k || x in was by { assert was == was[..i] + was[i..]; }
      left := left - {k};
    }
  }

  // ---- buildIRQ ----

  /** The errors of gathering the tuples of one device. */
  function LineErrors(d: Device, lines: seq<Line>): seq<IrqError> {
    if lines == [] then []
    else
      var l := lines[|lines| - 1];
      LineErrors(d, lines[..|lines| - 1]) + if HasPort(d, l.port) then [] else [NamedPort(d.name, l.port)]
  }

  function DeviceErrors(all: seq<Device>, d: Device): seq<IrqError> {
    match d.irq
    case NoIrq => []
    case Single(_) => if PortOf(all, d.name) == "" then [NoPort(d.name)] else []
    case Named(lines) => LineErrors(d, lines)
  }

  function TupleErrors(all: seq<Device>, devs: seq<Device>): seq<IrqError> {
    if devs == [] then [] else TupleErrors(all, devs[..|devs| - 1]) + DeviceErrors(all, devs[|devs| - 1])
  }

  function AicErrors(devs: seq<Device>): seq<IrqError> {
    if devs == [] then []
    else
      var d := devs[|devs| - 1];
      AicErrors(devs[..|devs| - 1]) + if d.isAic && CpuOf(d) < 0 then [BadCpu(d.name)] else []
  }

  function KeyErrors(keys: seq<Key>, ts: seq<Tuple>, aics: map<nat, string>): seq<IrqError>
    requires KeysOf(keys, ts)
  {
    if keys == [] then []
    else
      var k := keys[|keys| - 1];
      KeyErrors(keys[..|keys| - 1], ts, aics) + GroupErrors(k, Group(ts, k), k.cpu in aics)
  }

  function CoverageErrors(cpus: seq<nat>): seq<IrqError> {
    if exists i :: 0 <= i < |cpus| && cpus[i] != i then [AicCoverage] else []
  }

  method GatherLines(d: Device, lines: seq<Line>) returns (ts: seq<Tuple>, errs: seq<IrqError>)
    ensures ts == LineTuples(d, lines) && errs == LineErrors(d, lines)
  {
    ts, errs := [], [];
    for i := 0 to |lines|
      invariant ts == LineTuples(d, lines[..i]) && errs == LineErrors(d, lines[..i])
    {
      assert lines[..i + 1][..i] == lines[..i];
      var l := lines[i];
      if HasPort(d, l.port) {
        ts := ts + [Tuple(d.name, l.port, l.cpu, l.path, 0x11 + l.path)];
      } else {
        errs := errs + [NamedPort(d.name, l.port)];
      }
    }
    assert lines[..|lines|] == lines;
  }

  /** rdByName. */
  method IndexPorts(devs: seq<Device>) returns (ports: map<string, string>)
    ensures forall n :: (if n in ports then ports[n] else "") == PortOf(devs, n)
  {
    ports := map[];
    for i := 0 to |devs|
      invariant forall n :: (if n in ports then ports[n] else "") == PortOf(devs[..i], n)
    {
      assert devs[..i + 1][..i] == devs[..i];
      ports := ports[devs[i].name := devs[i].irqPort];
    }
    assert devs[..|devs|] == devs;
  }

  method GatherDevice(all: seq<Device>, ports: map<string, string>, d: Device) returns (ts: seq<Tuple>, errs: seq<IrqError>)
    requires forall n :: (if n in ports then ports[n] else "") == PortOf(all, n)
    ensures ts == DeviceTuples(all, d) && errs == DeviceErrors(all, d)
  {
    hide LineTuples, LineErrors, PortOf;
    match d.irq
    case NoIrq =>
      ts, errs := [], [];
    case Single(n) =>
      var port := if d.name in ports then ports[d.name] else "";
      assert port == PortOf(all, d.name);
      if port == "" { ts, errs := [], [NoPort(d.name)]; } else { ts, errs := [Tuple(d.name, port, CpuOf(d), n, 0x11 + n)], []; }
    case Named(lines) =>
      ts, errs := GatherLines(d, lines);
  }

  method GatherTuples(devs: seq<Device>) returns (ts: seq<Tuple>, errs: seq<IrqError>)
    ensures ts == Tuples(devs, devs) && errs == TupleErrors(devs, devs)
  {
    hide DeviceTuples, DeviceErrors, PortOf;
    var ports := IndexPorts(devs);
    ts, errs := [], [];
    for i := 0 to |devs|
      invariant ts == Tuples(devs, devs[..i]) && errs == TupleErrors(devs, devs[..i])
    {
      assert devs[..i + 1][..i] == devs[..i];
      var t, e := GatherDevice(devs, ports, devs[i]);
      ts, errs := ts + t, errs + e;
    }
    assert devs[..|devs|] == devs;
  }

  method GroupTuples(ts: seq<Tuple>) returns (groups: map<Key, seq<Tuple>>)
    ensures forall k :: (if k in groups then groups[k] else []) == Group(ts, k)
    ensures forall k :: k in groups ==> groups[k] != []
  {
    groups := map[];
    for i := 0 to |ts|
      invariant forall k :: (if k in groups then groups[k] else []) == Group(ts[..i], k)
      invariant forall k :: k in groups ==> groups[k] != []
    {
      assert ts[..i + 1][..i] == ts[..i];
      var k := KeyOf(ts[i]);
      groups := groups[k := (if k in groups then groups[k] else []) + [ts[i]]];
    }
    assert ts[..|ts|] == ts;
  }

  method GatherAics(devs: seq<Device>) returns (aics: map<nat, string>, explicit: set<string>, errs: seq<IrqError>)
    ensures aics == Aics(devs) && explicit == Explicit(devs) && errs == AicErrors(devs)
  {
    aics, explicit, errs := map[], {}, [];
    for i := 0 to |devs|
      invariant aics == Aics(devs[..i]) && explicit == Explicit(devs[..i]) && errs == AicErrors(devs[..i])
    {
      var d := devs[i];
      assert devs[..i + 1] == devs[..i] + [d] && devs[..i + 1][..i] == devs[..i];
      if d.isAic {
        if CpuOf(d) < 0 {
          errs := errs + [BadCpu(d.name)];
        } else {
          aics := aics[CpuOf(d) := d.name];
          if d.mapsIrqI { explicit := explicit + {d.name}; }
        }
      }
    }
    assert devs[..|devs|] == devs;
  }

  method AddGroups(model: IrqModel, keys: seq<Key>, ts: seq<Tuple>, groups: map<Key, seq<Tuple>>, aics: map<nat, string>) returns (errs: seq<IrqError>)
    requires KeysOf(keys, ts) && HasTables(model.vectors, aics)
    requires forall k :: k in keys ==> k in groups && groups[k] == Group(ts, k)
    modifies model
    ensures model.State() == WithGroups(old(model.State()), keys, ts, aics) && errs == KeyErrors(keys, ts, aics)
  {
    hide Group, WithGroup, GroupErrors;
    errs := [];
    for n := 0 to |keys|
      invariant KeysOf(keys[..n], ts) && HasTables(model.vectors, aics)
      invariant model.State() == WithGroups(old(model.State()), keys[..n], ts, aics) && errs == KeyErrors(keys[..n], ts, aics)
    {
      assert keys[..n + 1][..n] == keys[..n] && keys[n] in keys;
      assert forall k :: k in keys[..n + 1] ==> k in keys;
      var e := model.AddGroup(keys[n], groups[keys[n]], aics);
      errs := errs + e;
    }
    assert keys[..|keys|] == keys;
  }

  method AddInputs(model: IrqModel, cpus: seq<nat>, aics: map<nat, string>, explicit: set<string>)
    requires Within(cpus, aics)
    modifies model
    ensures model.State() == old(model.State()).(overrides := WithInputs(old(model.overrides), cpus, aics, explicit))
  {
    for n := 0 to |cpus|
      invariant Within(cpus[..n], aics)
      invariant model.State() == old(model.State()).(overrides := WithInputs(old(model.overrides), cpus[..n], aics, explicit))
    {
      assert cpus[..n + 1][..n] == cpus[..n] && cpus[n] in cpus;
      if aics[cpus[n]] !in explicit { model.SetOverride(aics[cpus[n]], "irq_i", Vector(cpus[n])); }
    }
    assert cpus[..|cpus|] == cpus;
  }

  /** Without an aic there is no model. */
  method BuildIrq(devs: seq<Device>) returns (m: Option<Model>, errs: seq<IrqError>)
    ensures Aics(devs) == map[] ==> m == None && errs == AicErrors(devs)
    ensures Aics(devs) != map[] ==> m.Some? && exists cpus, keys :: IsBuilt(m.value, devs, cpus, keys) && errs == Errors(devs, cpus, keys)
  {
    hide Group, WithGroups, WithInputs, KeyErrors, TupleErrors, Tuples, AicErrors, Aics, NoVectors, VectorWires;
    var aics, explicit, aicErrs := GatherAics(devs);
    if aics == map[] { return None, aicErrs; }
    var cpus := SortCpus(aics);
    var coverage := if exists i :: 0 <= i < |cpus| && cpus[i] != i then [AicCoverage] else [];
    var ts, tupleErrs := GatherTuples(devs);
    var groups := GroupTuples(ts);
    var keys := SortKeys(groups.Keys);
    var model := new IrqModel(cpus, aics);
    assert forall k :: k in keys ==> k in groups && groups[k] == Group(ts, k);
    var keyErrs := AddGroups(model, keys, ts, groups, aics);
    AddInputs(model, cpus, aics, explicit);
    m, errs := Some(model.State()), aicErrs + coverage + tupleErrs + keyErrs;
    assert IsBuilt(m.value, devs, cpus, keys);
  }

  ghost function Errors(devs: seq<Device>, cpus: seq<nat>, keys: seq<Key>): seq<IrqError>
    requires AreKeys(keys, Tuples(devs, devs))
  {
    AicErrors(devs) + CoverageErrors(cpus) + TupleErrors(devs, devs) + KeyErrors(keys, Tuples(devs, devs), Aics(devs))
  }
}
