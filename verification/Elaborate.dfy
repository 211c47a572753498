// tools/socgen/elaborate/netlist.go: the passes over the net-list, in their order.

module Elaborate {
  import opened Common
  import opened Netlists
  import opened Pins

  // ---- Gathering leaves nothing dangling ----

  lemma {:induction false} PortCounted(ctx: Context, ports: seq<PortInfo>, i: nat, n: string)
    requires i < |ports| && Names(ports[i], n)
    ensures PortRefs(ctx, ports, n) != []
    decreases ports
  {
    if i < |ports| - 1 { PortCounted(ctx, ports[..|ports| - 1], i, n); }
  }

  lemma {:induction false} OwnerCounted(owners: seq<OwnerInfo>, i: nat, n: string)
    requires i < |owners| && PortRefs(owners[i].ctx, owners[i].ports, n) != []
    ensures OwnerRefs(owners, n) != []
    decreases owners
  {
    if i < |owners| - 1 { OwnerCounted(owners[..|owners| - 1], i, n); }
  }

  lemma {:induction false} GatheredIsThere(net: Netlist, p: ResolvedPort)
    requires p in PortsOf(net.owners) && p.kind == SignalPort && p.net != ""
    requires forall n :: At(net.signals, n) == OwnerRefs(View(net.owners), n)
    ensures p.net in net.signals
  {
    var o, i :| o in net.owners && 0 <= i < |o.ports| && p == o.ports[i];
    var k :| 0 <= k < |net.owners| && net.owners[k] == o;
    PortCounted(o.ctx, Infos(o.ports), i, p.net);
    OwnerCounted(View(net.owners), k, p.net);
  }

  // ---- The passes ----

  /** The refs to n of ports, pins and zero drivers. */
  function DrivenRefs(owners: seq<OwnerInfo>, legs: seq<Leg>, zero: seq<string>, n: string): seq<PortRef> {
    var ps := OwnerRefs(owners, n) + LegRefs(legs, n);
    ps + if ps != [] && n in zero && !HasOut(ps) then [ZeroRef(n)] else []
  }

  /** All refs to n before the prune. */
  function AllRefs(owners: seq<OwnerInfo>, legs: seq<Leg>, zero: seq<string>, buses: Option<seq<string>>, n: string): seq<PortRef> {
    Injected(buses, DrivenRefs(owners, legs, zero, n), n)
  }

  function Listed(zero: seq<string>): set<string> { set z | z in zero }

  /** Gather, pins, zero signals, bus ports and prune. Afterwards no port names a missing signal, and the signals are exactly the kept ones. */
  method RunPasses(net: Netlist, pins: seq<Pin>, rules: seq<Rule>, m: Match, zero: seq<string>, buses: Option<seq<string>>)
    returns (out: seq<ResolvedPin>, bound: set<string>)
    modifies net`signals, PortsOf(net.owners)
    ensures net.NoDangling() && Survivors(net.signals, Listed(zero), bound) == net.signals
    ensures exists s: Signals ::
              && (forall n :: At(s, n) == OwnerRefs(old(View(net.owners)), n))
              && var os := Outcomes(pins, rules, m, s, zero);
                 && out == AllPins(os) && bound == AllBound(os)
                 && forall n :: At(net.signals, n) ==
                                var ps := AllRefs(old(View(net.owners)), AllLegs(os), zero, buses, n); if Kept(n, ps, Listed(zero), bound) then ps else []
  {
    hide OwnerRefs, LegRefs, Outcomes, AllPins, AllBound, AllLegs, View, Kept, HasOut, Injected;
    net.GatherSignals();
    forall p | p in PortsOf(net.owners) && p.kind == SignalPort && p.net != "" ensures p.net in net.signals { GatheredIsThere(net, p); }
    ghost var owners, s := View(net.owners), net.signals;
    out, bound := ResolvePins(net, pins, rules, m, zero);
    ghost var os := Outcomes(pins, rules, m, s, zero);
    ghost var joined := net.signals;
    net.ApplyZeroSignals(zero);
    assert forall n :: At(joined, n) == OwnerRefs(owners, n) + LegRefs(AllLegs(os), n);
    forall n ensures At(net.signals, n) == DrivenRefs(owners, AllLegs(os), zero, n) { assert At(joined, n) == OwnerRefs(owners, n) + LegRefs(AllLegs(os), n); }
    net.InjectInternalBusPorts(buses);
    assert net.NoDangling();
    ghost var before := net.signals;
    net.RemoveWriteOnlySignals(Listed(zero), bound);
    forall n ensures At(net.signals, n) == var ps := AllRefs(owners, AllLegs(os), zero, buses, n); if Kept(n, ps, Listed(zero), bound) then ps else [] {
      SurvivorsAt(before, Listed(zero), bound, n);
    }
    PruneTwice(before, Listed(zero), bound);
  }

  lemma {:induction false} SurvivorsAt(s: Signals, zero: set<string>, bound: set<string>, n: string)
    ensures At(Survivors(s, zero, bound), n) == if Kept(n, At(s, n), zero, bound) then At(s, n) else []
  {
    hide Kept;
  }

  /** Pruning again changes nothing. */
  lemma {:induction false} PruneTwice(s: Signals, zero: set<string>, bound: set<string>)
    ensures Survivors(Survivors(s, zero, bound), zero, bound) == Survivors(s, zero, bound)
  {
  }

  // ---- Which signals survive ----

  ghost predicate Named(owners: seq<OwnerInfo>, n: string, d: Dir) {
    exists i, j :: 0 <= i < |owners| && 0 <= j < |owners[i].ports| && Names(owners[i].ports[j], n) && owners[i].ports[j].dir == d
  }

  ghost predicate Reached(legs: seq<Leg>, n: string) { exists i :: 0 <= i < |legs| && legs[i].base == n }

  ghost predicate FromEntities(owners: seq<OwnerInfo>) { forall o :: o in owners ==> o.ctx.kind != PinCtx }

  /** A bus writes into the signal. */
  predicate BusWrites(buses: Option<seq<string>>, n: string) { buses.Some? && exists b :: b in buses.value && n == OutputName(b) }

  lemma {:induction false} ReadConcat(a: seq<PortRef>, b: seq<PortRef>)
    ensures IsRead(a + b) <==> IsRead(a) || IsRead(b)
  {
    var s := a + b;
    assert forall i :: 0 <= i < |a| ==> s[i] == a[i];
    assert forall i :: 0 <= i < |b| ==> s[i + |a|] == b[i];
    if IsRead(s) {
      var i :| 0 <= i < |s| && (s[i].dir == In || s[i].ctx.kind == PinCtx);
      if i >= |a| { assert s[i] == b[i - |a|]; }
    }
  }

  lemma {:induction false} OneRead(r: PortRef)
    ensures IsRead([r]) <==> r.dir == In || r.ctx.kind == PinCtx
  {
    assert [r][0] == r;
  }

  lemma {:induction false} PortsRead(ctx: Context, ports: seq<PortInfo>, n: string)
    requires ctx.kind != PinCtx
    ensures IsRead(PortRefs(ctx, ports, n)) <==> exists j :: 0 <= j < |ports| && Names(ports[j], n) && ports[j].dir == In
    decreases ports
  {
    hide IsRead, Names;
    NothingRead();
    if ports != [] {
      var k := |ports| - 1;
      PortsRead(ctx, ports[..k], n);
      ReadConcat(PortRefs(ctx, ports[..k], n), if Names(ports[k], n) then [Ref(ctx, ports[k])] else []);
      OneRead(Ref(ctx, ports[k]));
      assert forall j :: 0 <= j < k ==> ports[..k][j] == ports[j];
    }
  }

  lemma {:induction false} NothingRead()
    ensures !IsRead([])
  {
  }

  lemma {:induction false} OwnersRead(owners: seq<OwnerInfo>, n: string)
    requires FromEntities(owners)
    ensures IsRead(OwnerRefs(owners, n)) <==> Named(owners, n, In)
    decreases owners
  {
    hide IsRead, Names, PortRefs;
    NothingRead();
    if owners != [] {
      var k := |owners| - 1;
      assert owners[k] in owners;
      OwnersRead(owners[..k], n);
      PortsRead(owners[k].ctx, owners[k].ports, n);
      ReadConcat(OwnerRefs(owners[..k], n), PortRefs(owners[k].ctx, owners[k].ports, n));
      NamedNext(owners, k, n);
    }
  }

  lemma {:induction false} NamedNext(owners: seq<OwnerInfo>, k: nat, n: string)
    requires |owners| == k + 1
    ensures Named(owners, n, In) <==> Named(owners[..k], n, In) || exists j :: 0 <= j < |owners[k].ports| && Names(owners[k].ports[j], n) && owners[k].ports[j].dir == In
  {
    hide Names;
    assert forall i :: 0 <= i < k ==> owners[..k][i] == owners[i];
    if Named(owners[..k], n, In) {
      var i, j :| 0 <= i < k && 0 <= j < |owners[..k][i].ports| && Names(owners[..k][i].ports[j], n) && owners[..k][i].ports[j].dir == In;
      assert Names(owners[i].ports[j], n) && owners[i].ports[j].dir == In;
    }
    if Named(owners, n, In) {
      var i, j :| 0 <= i < |owners| && 0 <= j < |owners[i].ports| && Names(owners[i].ports[j], n) && owners[i].ports[j].dir == In;
      if i < k { assert Names(owners[..k][i].ports[j], n) && owners[..k][i].ports[j].dir == In; }
    }
  }

  lemma {:induction false} LegsRead(legs: seq<Leg>, n: string)
    requires FromPins(legs)
    ensures IsRead(LegRefs(legs, n)) <==> Reached(legs, n)
    decreases legs
  {
    hide IsRead;
    NothingRead();
    if legs != [] {
      var k := |legs| - 1;
      LegsRead(legs[..k], n);
      assert legs[k] in legs;
      OneRead(legs[k].ref);
      ReadConcat(LegRefs(legs[..k], n), if legs[k].base == n then [legs[k].ref] else []);
      assert forall j :: 0 <= j < k ==> legs[..k][j] == legs[j];
    }
  }

  lemma {:induction false} BusesRead(bs: seq<string>, n: string)
    ensures IsRead(BusRefs(bs, n)) <==> exists b :: b in bs && n == OutputName(b)
    decreases bs
  {
    hide IsRead, InputName, OutputName;
    NothingRead();
    if bs != [] {
      var k := |bs| - 1;
      var a := if n == InputName(bs[k]) then [PortRef(INTERNAL, n, Out, "", "")] else [];
      var z := if n == OutputName(bs[k]) then [PortRef(INTERNAL, n, In, "", "")] else [];
      BusesRead(bs[..k], n);
      OneRead(PortRef(INTERNAL, n, Out, "", ""));
      OneRead(PortRef(INTERNAL, n, In, "", ""));
      ReadConcat(a, z);
      ReadConcat(BusRefs(bs[..k], n), a + z);
      assert forall b :: b in bs <==> b in bs[..k] || b == bs[k];
    }
  }

  /** The refs that count as a reader: input ports, pins, and what a bus writes. Zero drivers and the pi driver do not. */
  lemma {:induction false} RefsRead(owners: seq<OwnerInfo>, legs: seq<Leg>, zero: seq<string>, buses: Option<seq<string>>, n: string)
    requires FromEntities(owners) && FromPins(legs)
    ensures IsRead(AllRefs(owners, legs, zero, buses, n)) <==> Named(owners, n, In) || Reached(legs, n) || BusWrites(buses, n)
  {
    hide IsRead, OwnerRefs, LegRefs, BusRefs, HasOut, HasDeviceIn, Named, Reached, OutputName;
    var ps := OwnerRefs(owners, n) + LegRefs(legs, n);
    var qs := DrivenRefs(owners, legs, zero, n);
    OwnersRead(owners, n);
    LegsRead(legs, n);
    ReadConcat(OwnerRefs(owners, n), LegRefs(legs, n));
    NothingRead();
    OneRead(ZeroRef(n));
    ReadConcat(ps, if ps != [] && n in zero && !HasOut(ps) then [ZeroRef(n)] else []);
    if buses.Some? {
      BusesRead(buses.value, n);
      ReadConcat(qs, BusRefs(buses.value, n));
      OneRead(PortRef(Context(PadringCtx, "pi"), "pi", Out, "", ""));
      ReadConcat(qs + BusRefs(buses.value, n), PiRefs(qs + BusRefs(buses.value, n), n));
    }
  }

  /**
   * A signal survives the prune exactly when it is listed, bound, read by an input port or a bus, or reached by a pin. So an
   * inout port, which reads its signal too, does not keep it.
   */
  lemma {:induction false} InoutIsPruned(owners: seq<OwnerInfo>, legs: seq<Leg>, zero: seq<string>, buses: Option<seq<string>>, bound: set<string>, n: string)
    requires FromEntities(owners) && FromPins(legs)
    ensures Kept(n, AllRefs(owners, legs, zero, buses, n), Listed(zero), bound) <==>
            n in zero || n in bound || Named(owners, n, In) || Reached(legs, n) || BusWrites(buses, n)
    ensures Named(owners, n, Inout) && !Named(owners, n, In) && !Reached(legs, n) && !BusWrites(buses, n) && n !in zero && n !in bound ==>
              !Kept(n, AllRefs(owners, legs, zero, buses, n), Listed(zero), bound)
  {
    hide IsRead, AllRefs, Named, Reached, BusWrites;
    RefsRead(owners, legs, zero, buses, n);
  }

  /** An entity pad keeps its signal from being pruned exactly when it is bound to the whole signal, not to an element of it. */
  lemma {:induction false} ElementPadIsNoShelter(pin: Pin, f: Folded, s: Signals, zero: seq<string>)
    requires f.outConst.None? && f.entityPad == Some(true) && f.signalRef != ""
    ensures var o := Outcome1(pin, f, s, zero);
            o.Resolved? && o.legs == [] && (Base(f.signalRef) in o.bound <==> Element(f.signalRef) == "")
  {
    hide BufferOf, PadDirOf;
    var e := BaseEnd(f.signalRef);
    if e == |f.signalRef| { assert f.signalRef[..e] == f.signalRef; } else { assert |Base(f.signalRef)| < |f.signalRef|; }
  }
}
