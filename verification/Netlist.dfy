// tools/socgen/elaborate/netlist.go, prune.go and the bus ports of categorize.go: gathering ports into global signals, zero drivers,
// and dropping what nothing reads.

module Netlists {
  import opened Common

  datatype Dir = In | Out | Inout | Buffer

  /** Where a port of a signal comes from. */
  datatype CtxKind = DeviceCtx | TopCtx | PadringCtx | PinCtx | ExposeCtx | ZeroCtx

  datatype Context = Context(kind: CtxKind, id: string)

  datatype PortRef = PortRef(ctx: Context, port: string, dir: Dir, element: string, diff: string)

  type Signals = map<string, seq<PortRef>>

  function At(s: Signals, n: string): seq<PortRef> { if n in s then s[n] else [] }

  datatype PortKind = SignalPort | IrqPort | OtherPort

  /** A resolved port of an entity; net is its global signal, or empty. */
  class ResolvedPort {
    const name: string
    const dir: Dir
    var kind: PortKind
    var net: string

    constructor (name: string, dir: Dir, kind: PortKind, net: string)
      ensures this.name == name && this.dir == dir && this.kind == kind && this.net == net
    {
      this.name, this.dir, this.kind, this.net := name, dir, kind, net;
    }
  }

  /** A device, top entity or padring entity with its ports; owners stand in the order in which they are gathered. */
  datatype Owner = Owner(ctx: Context, ports: seq<ResolvedPort>)

  ghost function PortsOf(owners: seq<Owner>): set<ResolvedPort> {
    set o, i | o in owners && 0 <= i < |o.ports| :: o.ports[i]
  }

  /** What the gathering reads of an owner and of a port. */
  datatype PortInfo = PortInfo(name: string, dir: Dir, kind: PortKind, net: string)

  datatype OwnerInfo = OwnerInfo(ctx: Context, ports: seq<PortInfo>)

  function Info(p: ResolvedPort): PortInfo
    reads p
  {
    PortInfo(p.name, p.dir, p.kind, p.net)
  }

  function Infos(ports: seq<ResolvedPort>): (r: seq<PortInfo>)
    reads ports
    ensures |r| == |ports| && forall i :: 0 <= i < |ports| ==> r[i] == Info(ports[i])
  {
    if ports == [] then [] else Infos(ports[..|ports| - 1]) + [Info(ports[|ports| - 1])]
  }

  ghost function View(owners: seq<Owner>): (r: seq<OwnerInfo>)
    reads PortsOf(owners)
    ensures |r| == |owners| && forall i :: 0 <= i < |owners| ==> r[i] == OwnerInfo(owners[i].ctx, Infos(owners[i].ports))
  {
    if owners == [] then []
    else
      assert PortsOf(owners[..|owners| - 1]) <= PortsOf(owners);
      assert owners[|owners| - 1] in owners;
      View(owners[..|owners| - 1]) + [OwnerInfo(owners[|owners| - 1].ctx, Infos(owners[|owners| - 1].ports))]
  }

  predicate Names(p: PortInfo, n: string) { p.kind == SignalPort && p.net == n && n != "" }

  function Ref(ctx: Context, p: PortInfo): PortRef { PortRef(ctx, p.name, p.dir, "", "") }

  /** The refs to n of some ports of an owner. */
  function PortRefs(ctx: Context, ports: seq<PortInfo>, n: string): seq<PortRef> {
    if ports == [] then []
    else
      var p := ports[|ports| - 1];
      PortRefs(ctx, ports[..|ports| - 1], n) + if Names(p, n) then [Ref(ctx, p)] else []
  }

  /** The refs to n, in order. */
  function OwnerRefs(owners: seq<OwnerInfo>, n: string): seq<PortRef> {
    if owners == [] then []
    else
      var o := owners[|owners| - 1];
      OwnerRefs(owners[..|owners| - 1], n) + PortRefs(o.ctx, o.ports, n)
  }

  predicate IsDriver(d: Dir) { d != In }

  predicate HasOut(ps: seq<PortRef>) { exists i :: 0 <= i < |ps| && ps[i].dir == Out }

  function ZeroRef(z: string): PortRef { PortRef(Context(ZeroCtx, "_zero"), z, Out, "", "") }

  lemma {:induction false} ZeroDrives(ps: seq<PortRef>, z: string)
    ensures HasOut(ps + [ZeroRef(z)]) && ps + [] == ps
  {
    assert (ps + [ZeroRef(z)])[|ps|].dir == Out;
  }

  lemma {:induction false} OwnerRefsNext(owners: seq<OwnerInfo>, i: nat)
    requires i < |owners|
    ensures forall n :: OwnerRefs(owners[..i + 1], n) == OwnerRefs(owners[..i], n) + PortRefs(owners[i].ctx, owners[i].ports, n)
  {
    hide PortRefs;
    assert owners[..i + 1][..i] == owners[..i];
  }

  lemma {:induction false} NoneGathered()
    ensures forall n :: At(map[], n) == OwnerRefs([], n)
  {
  }

  /** A signal has a port for each port of an owner that names it, with its owner, name and direction, and no other. */
  lemma {:induction false} GatheredExactly(owners: seq<OwnerInfo>, n: string, r: PortRef)
    ensures r in OwnerRefs(owners, n) <==>
            n != "" && exists o, p :: o in owners && p in o.ports && p.kind == SignalPort && p.net == n && r == PortRef(o.ctx, p.name, p.dir, "", "")
  {
    hide PortRefs;
    if owners != [] {
      var k := |owners| - 1;
      GatheredExactly(owners[..k], n, r);
      OwnerExactly(owners[k].ctx, owners[k].ports, n, r);
      assert owners == owners[..k] + [owners[k]];
    }
  }

  lemma {:induction false} OwnerExactly(ctx: Context, ports: seq<PortInfo>, n: string, r: PortRef)
    ensures r in PortRefs(ctx, ports, n) <==>
            n != "" && exists p :: p in ports && p.kind == SignalPort && p.net == n && r == PortRef(ctx, p.name, p.dir, "", "")
  {
    if ports != [] {
      var k := |ports| - 1;
      OwnerExactly(ctx, ports[..k], n, r);
      assert ports == ports[..k] + [ports[k]];
    }
  }

  // ---- The ports of the peripheral buses ----

  const INTERNAL := Context(DeviceCtx, "_internal")

  function InputName(bus: string): string { bus + "_periph_dbus_i" }

  function OutputName(bus: string): string { bus + "_periph_dbus_o" }

  /** Each peripheral bus reads data out of the devices and writes data into them. */
  function BusPair(b: string, n: string): seq<PortRef> {
    (if n == InputName(b) then [PortRef(INTERNAL, n, Out, "", "")] else []) + if n == OutputName(b) then [PortRef(INTERNAL, n, In, "", "")] else []
  }

  function BusRefs(buses: seq<string>, n: string): seq<PortRef> {
    if buses == [] then [] else BusRefs(buses[..|buses| - 1], n) + BusPair(buses[|buses| - 1], n)
  }

  predicate HasDeviceIn(ps: seq<PortRef>) { exists i :: 0 <= i < |ps| && ps[i].ctx.kind == DeviceCtx && ps[i].dir == In }

  /** The signal pi is driven by the pad ring when a device reads it and nothing drives it. */
  function PiRefs(ps: seq<PortRef>, n: string): seq<PortRef> {
    if n == "pi" && HasDeviceIn(ps) && !HasOut(ps) then [PortRef(Context(PadringCtx, "pi"), "pi", Out, "", "")] else []
  }

  /** The refs to n with those of the buses, when there is a data bus. */
  function Injected(buses: Option<seq<string>>, ps: seq<PortRef>, n: string): seq<PortRef> {
    if buses.None? then ps else ps + BusRefs(buses.value, n) + PiRefs(ps + BusRefs(buses.value, n), n)
  }

  /** With a data bus, each peripheral bus gives its input signal a driver and its output signal a reader among the devices, and pi has
      a driver in the pad ring exactly when a port of a device reads it and no port drives it. */
  lemma {:induction false} InjectedExactly(buses: seq<string>, ps: seq<PortRef>, n: string, r: PortRef)
    ensures r in Injected(Some(buses), ps, n) <==>
            || r in ps
            || (exists b :: b in buses && IsBusPort(b, n, r))
            || (n == "pi" && r == PortRef(Context(PadringCtx, "pi"), "pi", Out, "", "")
                && (exists p :: p in ps && p.ctx.kind == DeviceCtx && p.dir == In) && forall p :: p in ps ==> p.dir != Out)
    ensures Injected(None, ps, n) == ps
  {
    hide HasDeviceIn, HasOut;
    BusRefsExactly(buses, n, r);
    if n == "pi" { NoBusIsPi(buses); }
    assert ps + [] == ps;
    PiIsDriven(ps);
  }

  predicate IsBusPort(b: string, n: string, r: PortRef) {
    || (n == b + "_periph_dbus_i" && r == PortRef(Context(DeviceCtx, "_internal"), n, Out, "", ""))
    || (n == b + "_periph_dbus_o" && r == PortRef(Context(DeviceCtx, "_internal"), n, In, "", ""))
  }

  lemma {:induction false} BusPairExactly(b: string, n: string, r: PortRef)
    ensures r in BusPair(b, n) <==> IsBusPort(b, n, r)
  {
  }

  lemma {:induction false} BusRefsExactly(buses: seq<string>, n: string, r: PortRef)
    ensures r in BusRefs(buses, n) <==> exists b :: b in buses && IsBusPort(b, n, r)
  {
    hide BusPair, IsBusPort;
    if buses != [] {
      var k := |buses| - 1;
      BusRefsExactly(buses[..k], n, r);
      BusPairExactly(buses[k], n, r);
      assert buses == buses[..k] + [buses[k]];
    }
  }

  lemma {:induction false} NoBusIsPi(buses: seq<string>)
    ensures BusRefs(buses, "pi") == []
  {
    if buses != [] {
      var b := buses[|buses| - 1];
      NoBusIsPi(buses[..|buses| - 1]);
      assert |InputName(b)| > 2 && |OutputName(b)| > 2 && |"pi"| == 2;
    }
  }

  lemma {:induction false} PiIsDriven(ps: seq<PortRef>)
    ensures HasDeviceIn(ps) <==> exists p :: p in ps && p.ctx.kind == DeviceCtx && p.dir == In
    ensures HasOut(ps) <==> exists p :: p in ps && p.dir == Out
  {
    assert forall i :: 0 <= i < |ps| ==> ps[i] in ps;
    if p :| p in ps && p.ctx.kind == DeviceCtx && p.dir == In { var i :| 0 <= i < |ps| && ps[i] == p; }
    if p :| p in ps && p.dir == Out { var i :| 0 <= i < |ps| && ps[i] == p; }
  }

  /** What the prune keeps: what is listed, bound, read or touched by a pin. */
  predicate Kept(n: string, ps: seq<PortRef>, zero: set<string>, bound: set<string>) {
    n in zero || n in bound || IsRead(ps)
  }

  predicate IsRead(ps: seq<PortRef>) { exists i :: 0 <= i < |ps| && (ps[i].dir == In || ps[i].ctx.kind == PinCtx) }

  function Survivors(s: Signals, zero: set<string>, bound: set<string>): Signals {
    map n | n in s && Kept(n, s[n], zero, bound) :: s[n]
  }

  class Netlist {
    const owners: seq<Owner>
    var signals: Signals

    constructor (owners: seq<Owner>)
      ensures this.owners == owners && signals == map[]
    {
      this.owners := owners;
      signals := map[];
    }

    /** Every signal port names nothing or a signal that is there. */
    ghost predicate NoDangling()
      reads this, PortsOf(owners)
    {
      forall p :: p in PortsOf(owners) && p.kind == SignalPort && p.net != "" ==> p.net in signals
    }

    method AddPort(n: string, r: PortRef)
      modifies this`signals
      ensures forall k :: At(signals, k) == At(old(signals), k) + if k == n then [r] else []
      ensures signals.Keys == old(signals).Keys + {n} && signals[n] != []
      ensures forall k :: k in signals && k != n ==> signals[k] == old(signals)[k]
    {
      signals := signals[n := At(signals, n) + [r]];
    }

    method AddPortsToSignals(o: Owner)
      requires forall n :: n in signals ==> signals[n] != []
      modifies this`signals
      ensures forall n :: At(signals, n) == At(old(signals), n) + PortRefs(o.ctx, Infos(o.ports), n)
      ensures forall n :: n in signals ==> signals[n] != []
    {
      hide Ref, At;
      ghost var infos := Infos(o.ports);
      assert infos[..0] == [];
      for i := 0 to |o.ports|
        invariant forall n :: At(signals, n) == At(old(signals), n) + PortRefs(o.ctx, infos[..i], n)
        invariant forall n :: n in signals ==> signals[n] != []
      {
        var p := o.ports[i];
        assert infos[..i + 1][..i] == infos[..i];
        if p.kind == SignalPort && p.net != "" { AddPort(p.net, Ref(o.ctx, Info(p))); }
      }
      assert infos[..|o.ports|] == infos;
    }

    /** gatherSignals: a signal has exactly the ports that name it, in order. */
    method GatherSignals()
      modifies this`signals
      ensures forall n :: At(signals, n) == OwnerRefs(View(owners), n)
      ensures forall n :: n in signals ==> signals[n] != []
    {
      hide PortRefs, At, View, Infos, OwnerRefs;
      ghost var infos := View(owners);
      signals := map[];
      NoneGathered();
      assert infos[..0] == [];
      for i := 0 to |owners|
        invariant infos == View(owners)
        invariant forall n :: At(signals, n) == OwnerRefs(infos[..i], n)
        invariant forall n :: n in signals ==> signals[n] != []
      {
        OwnerRefsNext(infos, i);
        AddPortsToSignals(owners[i]);
      }
      assert infos[..|owners|] == infos;
    }

    /** applyZeroSignals. */
    method ApplyZeroSignals(zero: seq<string>)
      modifies this`signals
      ensures signals.Keys == old(signals).Keys
      ensures forall n :: n in signals ==> signals[n] == old(signals)[n] + if n in zero && !HasOut(old(signals)[n]) then [ZeroRef(n)] else []
    {
      for i := 0 to |zero|
        invariant signals.Keys == old(signals).Keys
        invariant forall n :: n in signals ==> signals[n] == old(signals)[n] + if n in zero[..i] && !HasOut(old(signals)[n]) then [ZeroRef(n)] else []
      {
        var z := zero[i];
        assert zero[..i + 1] == zero[..i] + [z];
        if z in signals { ZeroDrives(old(signals)[z], z); }
        if z in signals && !HasOut(signals[z]) { signals := signals[z := signals[z] + [ZeroRef(z)]]; }
      }
      assert zero[..|zero|] == zero;
    }

    /** injectInternalBusPorts. */
    method InjectInternalBusPorts(buses: Option<seq<string>>)
      requires forall n :: n in signals ==> signals[n] != []
      modifies this`signals
      ensures forall n :: At(signals, n) == Injected(buses, At(old(signals), n), n)
      ensures forall n :: n in signals ==> signals[n] != []
      ensures old(signals).Keys <= signals.Keys
    {
      if buses.None? { return; }
      InjectBuses(buses.value);
      if "pi" in signals && HasDeviceIn(signals["pi"]) && !HasOut(signals["pi"]) {
        AddPort("pi", PortRef(Context(PadringCtx, "pi"), "pi", Out, "", ""));
      }
    }

    method InjectBuses(bs: seq<string>)
      requires forall n :: n in signals ==> signals[n] != []
      modifies this`signals
      ensures forall n :: At(signals, n) == At(old(signals), n) + BusRefs(bs, n)
      ensures forall n :: n in signals ==> signals[n] != []
      ensures old(signals).Keys <= signals.Keys
    {
      hide At, BusPair;
      for i := 0 to |bs|
        invariant forall n :: At(signals, n) == At(old(signals), n) + BusRefs(bs[..i], n)
        invariant forall n :: n in signals ==> signals[n] != []
        invariant old(signals).Keys <= signals.Keys
      {
        assert bs[..i + 1][..i] == bs[..i];
        InjectBus(bs[i]);
      }
      assert bs[..|bs|] == bs;
    }

    method InjectBus(b: string)
      requires forall n :: n in signals ==> signals[n] != []
      modifies this`signals
      ensures forall n :: At(signals, n) == At(old(signals), n) + BusPair(b, n)
      ensures forall n :: n in signals ==> signals[n] != []
      ensures old(signals).Keys <= signals.Keys
    {
      hide At, InputName, OutputName;
      AddPort(InputName(b), PortRef(INTERNAL, InputName(b), Out, "", ""));
      AddPort(OutputName(b), PortRef(INTERNAL, OutputName(b), In, "", ""));
    }

    /** removeWriteOnlySignals. */
    method RemoveWriteOnlySignals(zero: set<string>, bound: set<string>)
      modifies this`signals, PortsOf(owners)
      ensures signals == Survivors(old(signals), zero, bound)
      ensures forall p :: p in PortsOf(owners) ==> p.kind == old(p.kind)
      ensures forall p :: p in PortsOf(owners) ==>
                p.net == if p.kind == SignalPort && old(p.net) in old(signals) && old(p.net) !in signals then "" else old(p.net)
      ensures old(NoDangling()) ==> NoDangling()
    {
      var pruned := set n | n in signals && !Kept(n, signals[n], zero, bound);
      signals := map n | n in signals && n !in pruned :: signals[n];
      if pruned == {} { return; }
      for i := 0 to |owners|
        invariant signals == old(Survivors(signals, zero, bound)) && forall p :: p in PortsOf(owners) ==> p.kind == old(p.kind)
        invariant forall p :: p in PortsOf(owners[..i]) ==> p.net == if p.kind == SignalPort && old(p.net) in pruned then "" else old(p.net)
        invariant forall p :: p in PortsOf(owners) && p !in PortsOf(owners[..i]) ==> p.net == old(p.net)
      {
        assert owners[..i + 1] == owners[..i] + [owners[i]];
        ClearPrunedRefs(owners[i].ports, pruned);
      }
      assert owners[..|owners|] == owners;
    }

    method ClearPrunedRefs(ports: seq<ResolvedPort>, pruned: set<string>)
      modifies ports
      ensures forall p :: p in ports ==> p.kind == old(p.kind) && p.net == if p.kind == SignalPort && old(p.net) in pruned then "" else old(p.net)
    {
      for i := 0 to |ports|
        invariant forall p :: p in ports ==> p.kind == old(p.kind)
        invariant forall p :: p in ports[..i] ==> p.net == if p.kind == SignalPort && old(p.net) in pruned then "" else old(p.net)
        invariant forall p :: p in ports && p !in ports[..i] ==> p.net == old(p.net)
      {
        assert ports[..i + 1] == ports[..i] + [ports[i]];
        if ports[i].kind == SignalPort && ports[i].net in pruned { ports[i].net := ""; }
      }
      assert ports[..|ports|] == ports;
    }
  }
}
