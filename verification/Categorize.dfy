// tools/socgen/elaborate/categorize.go: sorting the signals by where their ports are.

module Categorize {
  import opened Common
  import opened Netlists

  /** A position of typeCombinations: the kinds that can be picked; None picks nothing. */
  type Position = seq<Option<CtxKind>>

  function Adding(c: set<CtxKind>, o: Option<CtxKind>): set<CtxKind> { if o.Some? then c + {o.value} else c }

  function Chosen(picks: seq<Option<CtxKind>>): set<CtxKind> {
    if picks == [] then {} else Adding(Chosen(picks[..|picks| - 1]), picks[|picks| - 1])
  }

  /** One pick for each position. */
  ghost predicate ArePicks(positions: seq<Position>, picks: seq<Option<CtxKind>>) {
    |picks| == |positions| && forall i :: 0 <= i < |picks| ==> picks[i] in positions[i]
  }

  ghost predicate Reachable(positions: seq<Position>, s: set<CtxKind>) {
    exists picks :: ArePicks(positions, picks) && Chosen(picks) == s
  }

  predicate NoRepeats<T(==)>(s: seq<T>) { forall i, j :: 0 <= i < j < |s| ==> s[i] != s[j] }

  lemma {:induction false} NoRepeatsConcat<T>(a: seq<T>, b: seq<T>)
    requires NoRepeats(a) && NoRepeats(b) && forall x :: x in b ==> x !in a
    ensures NoRepeats(a + b)
  {
    forall i, j | 0 <= i < j < |a + b| ensures (a + b)[i] != (a + b)[j] {
      if i < |a| <= j { assert (a + b)[j] in b && (a + b)[i] in a; }
    }
  }

  /** A set is reachable with one more position by adding one more pick. */
  lemma {:induction false} ReachableNext(positions: seq<Position>, p: Position, s: set<CtxKind>)
    ensures Reachable(positions + [p], s) <==> exists c, o :: Reachable(positions, c) && o in p && s == Adding(c, o)
  {
    var next := positions + [p];
    if picks: seq<Option<CtxKind>> :| ArePicks(next, picks) && Chosen(picks) == s {
      var front := picks[..|positions|];
      assert forall i :: 0 <= i < |front| ==> next[i] == positions[i];
      assert ArePicks(positions, front);
      assert picks[|positions|] in next[|positions|];
      assert Reachable(positions, Chosen(front)) && s == Adding(Chosen(front), picks[|positions|]);
    }
    if c, o :| Reachable(positions, c) && o in p && s == Adding(c, o) {
      var front :| ArePicks(positions, front) && Chosen(front) == c;
      var picks := front + [o];
      assert picks[..|front|] == front;
      assert ArePicks(next, picks) && Chosen(picks) == s;
    }
  }

  lemma {:induction false} ReachableNone(s: set<CtxKind>)
    ensures Reachable([], s) <==> s == {}
  {
    assert ArePicks([], []) && Chosen([]) == {};
    if picks: seq<Option<CtxKind>> :| ArePicks([], picks) && Chosen(picks) == s { assert picks == []; }
  }

  ghost predicate Exactly(combos: seq<set<CtxKind>>, positions: seq<Position>) { forall s :: s in combos <==> Reachable(positions, s) }

  method Extend(combos: seq<set<CtxKind>>, p: Position) returns (next: seq<set<CtxKind>>)
    ensures forall s :: s in next <==> exists c, o :: c in combos && o in p && s == Adding(c, o)
  {
    next := [];
    for i := 0 to |combos|
      invariant forall s :: s in next <==> exists c, o :: c in combos[..i] && o in p && s == Adding(c, o)
    {
      assert combos[..i + 1] == combos[..i] + [combos[i]];
      ghost var before := next;
      for j := 0 to |p|
        invariant forall s :: s in next <==> s in before || exists o :: o in p[..j] && s == Adding(combos[i], o)
      {
        assert p[..j + 1] == p[..j] + [p[j]];
        next := next + [Adding(combos[i], p[j])];
      }
      assert p[..|p|] == p;
    }
    assert combos[..|combos|] == combos;
  }

  method Dedupe(combos: seq<set<CtxKind>>) returns (out: seq<set<CtxKind>>)
    ensures NoRepeats(out) && forall s :: s in out <==> s in combos
  {
    out := [];
    for i := 0 to |combos|
      invariant NoRepeats(out) && forall s :: s in out <==> s in combos[..i]
    {
      assert combos[..i + 1] == combos[..i] + [combos[i]];
      if combos[i] !in out { out := out + [combos[i]]; }
    }
    assert combos[..|combos|] == combos;
  }

  /** typeCombinations: exactly the sets that one pick for each position reaches, each once. */
  method TypeCombinations(positions: seq<Position>) returns (out: seq<set<CtxKind>>)
    ensures NoRepeats(out) && Exactly(out, positions)
  {
    hide Reachable;
    var combos: seq<set<CtxKind>> := [{}];
    forall s ensures s in combos <==> Reachable(positions[..0], s) { ReachableNone(s); assert positions[..0] == []; }
    for i := 0 to |positions|
      invariant Exactly(combos, positions[..i])
    {
      ghost var before := combos;
      combos := Extend(combos, positions[i]);
      forall s ensures s in combos <==> Reachable(positions[..i + 1], s) {
        assert positions[..i + 1] == positions[..i] + [positions[i]];
        ReachableNext(positions[..i], positions[i], s);
      }
    }
    assert positions[..|positions|] == positions;
    out := Dedupe(combos);
  }

  // ---- Signals by their context set ----

  function ContextSet(ps: seq<PortRef>): set<CtxKind> { set p | p in ps :: p.ctx.kind }

  /** filterByContext: the signals whose context set is one of the combinations; names lists the signals in order. */
  method FilterByContext(s: Signals, names: seq<string>, positions: seq<Position>) returns (out: seq<string>)
    requires NoRepeats(names) && forall n :: n in names <==> n in s
    ensures NoRepeats(out) && forall n :: n in out <==> n in s && Reachable(positions, ContextSet(s[n]))
  {
    hide Reachable;
    var combos := TypeCombinations(positions);
    out := [];
    for i := 0 to |combos|
      invariant NoRepeats(out) && forall n :: n in out <==> n in s && ContextSet(s[n]) in combos[..i]
    {
      assert combos[..i + 1] == combos[..i] + [combos[i]];
      assert combos[i] !in combos[..i];
      var group := OfSet(s, names, combos[i]);
      NoRepeatsConcat(out, group);
      out := out + group;
    }
    assert combos[..|combos|] == combos;
  }

  /** contextSets, at one set. */
  method OfSet(s: Signals, names: seq<string>, c: set<CtxKind>) returns (out: seq<string>)
    requires NoRepeats(names) && forall n :: n in names <==> n in s
    ensures NoRepeats(out) && forall n :: n in out <==> n in s && ContextSet(s[n]) == c
  {
    out := [];
    for i := 0 to |names|
      invariant NoRepeats(out) && forall n :: n in out <==> n in names[..i] && n in s && ContextSet(s[n]) == c
    {
      assert names[..i + 1] == names[..i] + [names[i]];
      assert names[i] in names && names[i] !in names[..i];
      if ContextSet(s[names[i]]) == c { out := out + [names[i]]; }
    }
    assert names[..|names|] == names;
  }

  // ---- The categories ----

  const P: Position := [Some(PinCtx), Some(PadringCtx), Some(ExposeCtx)]
  const PT: Position := [Some(PinCtx), Some(PadringCtx), Some(ExposeCtx), Some(TopCtx)]
  const TD: Position := [Some(TopCtx), Some(DeviceCtx)]
  const TDX: Position := [Some(TopCtx), Some(DeviceCtx), None]

  const PADRING: seq<Position> := [P, P, P, TDX, TDX]
  const TOP: seq<Position> := [[Some(TopCtx)], [Some(DeviceCtx), None]]
  const DEVICES: seq<Position> := [[Some(DeviceCtx)]]
  const PADRING_TOP: seq<Position> := [P, P, P, TD, TD]
  const TOP_DEVICES: seq<Position> := [PT, PT, PT, PT, [Some(DeviceCtx)]]

  const OUTER: set<CtxKind> := {PinCtx, PadringCtx, ExposeCtx}

  function Of(o: Option<CtxKind>): set<CtxKind> { if o.Some? then {o.value} else {} }

  lemma {:induction false} ChosenOne(a: Option<CtxKind>)
    ensures Chosen([a]) == Of(a)
  {
    assert [a][..0] == [];
    assert Chosen([]) == {};
  }

  lemma {:induction false} ChosenMore(front: seq<Option<CtxKind>>, a: Option<CtxKind>)
    ensures Chosen(front + [a]) == Chosen(front) + Of(a)
  {
    assert (front + [a])[..|front|] == front;
  }

  lemma {:induction false} ChosenTwo(a: Option<CtxKind>, b: Option<CtxKind>)
    ensures Chosen([a, b]) == Of(a) + Of(b)
  {
    ChosenOne(a);
    ChosenMore([a], b);
    assert [a] + [b] == [a, b];
  }

  lemma {:induction false} ChosenFive(a: Option<CtxKind>, b: Option<CtxKind>, c: Option<CtxKind>, d: Option<CtxKind>, e: Option<CtxKind>)
    ensures Chosen([a, b, c, d, e]) == Of(a) + Of(b) + Of(c) + Of(d) + Of(e)
  {
    hide Chosen, Of;
    ChosenTwo(a, b);
    ChosenMore([a, b], c);
    ChosenMore([a, b, c], d);
    ChosenMore([a, b, c, d], e);
    assert [a, b] + [c] == [a, b, c] && [a, b, c] + [d] == [a, b, c, d] && [a, b, c, d] + [e] == [a, b, c, d, e];
  }

  /** The picks by which five positions reach a set. */
  lemma {:induction false} FivePicks(positions: seq<Position>, s: set<CtxKind>)
    returns (a: Option<CtxKind>, b: Option<CtxKind>, c: Option<CtxKind>, d: Option<CtxKind>, e: Option<CtxKind>)
    requires |positions| == 5 && Reachable(positions, s)
    ensures a in positions[0] && b in positions[1] && c in positions[2] && d in positions[3] && e in positions[4]
    ensures s == Of(a) + Of(b) + Of(c) + Of(d) + Of(e)
  {
    hide Chosen, Of;
    var picks: seq<Option<CtxKind>> :| ArePicks(positions, picks) && Chosen(picks) == s;
    a, b, c, d, e := picks[0], picks[1], picks[2], picks[3], picks[4];
    ChosenFive(a, b, c, d, e);
    assert picks == [a, b, c, d, e];
  }

  lemma {:induction false} FiveReach(positions: seq<Position>, a: Option<CtxKind>, b: Option<CtxKind>, c: Option<CtxKind>, d: Option<CtxKind>, e: Option<CtxKind>)
    requires |positions| == 5
    requires a in positions[0] && b in positions[1] && c in positions[2] && d in positions[3] && e in positions[4]
    ensures Reachable(positions, Of(a) + Of(b) + Of(c) + Of(d) + Of(e))
  {
    hide Chosen, Of;
    ChosenFive(a, b, c, d, e);
    assert ArePicks(positions, [a, b, c, d, e]);
  }

  /** A pick for s: k when s has it, and otherwise another pick. */
  function PickOr(s: set<CtxKind>, k: CtxKind, other: Option<CtxKind>): Option<CtxKind> { if k in s then Some(k) else other }

  lemma {:induction false} OfP(o: Option<CtxKind>)
    requires o in P
    ensures o.Some? && o.value in OUTER && Of(o) <= OUTER
  {
  }

  lemma {:induction false} OfPT(o: Option<CtxKind>)
    requires o in PT
    ensures o.Some? && o.value != DeviceCtx && o.value != ZeroCtx && Of(o) == {o.value}
  {
  }

  lemma {:induction false} AnyPT(k: CtxKind)
    requires k != DeviceCtx && k != ZeroCtx
    ensures forall s: set<CtxKind> :: PickOr(s, PinCtx, Some(k)) in PT && PickOr(s, PadringCtx, Some(k)) in PT
              && PickOr(s, ExposeCtx, Some(k)) in PT && PickOr(s, TopCtx, Some(k)) in PT
  {
    assert Some(k) in PT;
    assert Some(PinCtx) in PT && Some(PadringCtx) in PT && Some(ExposeCtx) in PT && Some(TopCtx) in PT;
  }

  /** Five picks from s, one for each kind, cover it. */
  lemma {:induction false} FiveCover(s: set<CtxKind>, a: Option<CtxKind>, b: Option<CtxKind>, c: Option<CtxKind>, d: Option<CtxKind>, e: Option<CtxKind>)
    requires ZeroCtx !in s && forall o :: o in {a, b, c, d, e} && o.Some? ==> o.value in s
    requires (PinCtx in s ==> a == Some(PinCtx)) && (PadringCtx in s ==> b == Some(PadringCtx)) && (ExposeCtx in s ==> c == Some(ExposeCtx))
    requires (TopCtx in s ==> d == Some(TopCtx)) && (DeviceCtx in s ==> e == Some(DeviceCtx))
    ensures s == Of(a) + Of(b) + Of(c) + Of(d) + Of(e)
  {
    forall k | k in s ensures k in Of(a) + Of(b) + Of(c) + Of(d) + Of(e) {
      assert k != ZeroCtx;
      assert k == PinCtx || k == PadringCtx || k == ExposeCtx || k == TopCtx || k == DeviceCtx;
    }
  }

  lemma {:induction false} PickPin(s: set<CtxKind>, any: CtxKind)
    requires any in OUTER
    ensures PickOr(s, PinCtx, Some(any)) in P && PickOr(s, PadringCtx, Some(any)) in P && PickOr(s, ExposeCtx, Some(any)) in P
  {
  }

  lemma {:induction false} PadringIs(s: set<CtxKind>)
    ensures Reachable(PADRING, s) <==> s * OUTER != {} && ZeroCtx !in s
  {
    hide Reachable;
    if Reachable(PADRING, s) {
      var a, b, c, d, e := FivePicks(PADRING, s);
      OfP(a); OfP(b); OfP(c);
      assert a.value in s * OUTER;
    }
    if s * OUTER != {} && ZeroCtx !in s {
      var any :| any in s * OUTER;
      PickPin(s, any);
      var a, b, c := PickOr(s, PinCtx, Some(any)), PickOr(s, PadringCtx, Some(any)), PickOr(s, ExposeCtx, Some(any));
      var d, e := PickOr(s, TopCtx, None), PickOr(s, DeviceCtx, None);
      FiveReach(PADRING, a, b, c, d, e);
      FiveCover(s, a, b, c, d, e);
    }
  }

  lemma {:induction false} TopIs(s: set<CtxKind>)
    ensures Reachable(TOP, s) <==> s == {TopCtx} || s == {TopCtx, DeviceCtx}
  {
    if picks: seq<Option<CtxKind>> :| ArePicks(TOP, picks) && Chosen(picks) == s {
      assert picks[0] in TOP[0] && picks[1] in TOP[1];
      ChosenTwo(picks[0], picks[1]);
      assert picks == [picks[0], picks[1]];
    }
    if s == {TopCtx} || s == {TopCtx, DeviceCtx} {
      var b := PickOr(s, DeviceCtx, None);
      ChosenTwo(Some(TopCtx), b);
      assert ArePicks(TOP, [Some(TopCtx), b]);
    }
  }

  lemma {:induction false} DevicesIs(s: set<CtxKind>)
    ensures Reachable(DEVICES, s) <==> s == {DeviceCtx}
  {
    ChosenOne(Some(DeviceCtx));
    assert ArePicks(DEVICES, [Some(DeviceCtx)]);
    if picks: seq<Option<CtxKind>> :| ArePicks(DEVICES, picks) && Chosen(picks) == s {
      assert picks[0] in DEVICES[0];
      assert picks == [Some(DeviceCtx)];
    }
  }

  lemma {:induction false} PadringTopIs(s: set<CtxKind>)
    ensures Reachable(PADRING_TOP, s) <==> s * OUTER != {} && s * {TopCtx, DeviceCtx} != {} && ZeroCtx !in s
  {
    hide Reachable;
    if Reachable(PADRING_TOP, s) {
      var a, b, c, d, e := FivePicks(PADRING_TOP, s);
      OfP(a); OfP(b); OfP(c);
      assert a.value in s * OUTER && d.value in s * {TopCtx, DeviceCtx};
    }
    if s * OUTER != {} && s * {TopCtx, DeviceCtx} != {} && ZeroCtx !in s {
      var any :| any in s * OUTER;
      var inner :| inner in s * {TopCtx, DeviceCtx};
      PickPin(s, any);
      var a, b, c := PickOr(s, PinCtx, Some(any)), PickOr(s, PadringCtx, Some(any)), PickOr(s, ExposeCtx, Some(any));
      var d, e := PickOr(s, TopCtx, Some(inner)), PickOr(s, DeviceCtx, Some(inner));
      FiveReach(PADRING_TOP, a, b, c, d, e);
      FiveCover(s, a, b, c, d, e);
    }
  }

  lemma {:induction false} TopDevicesIs(s: set<CtxKind>)
    ensures Reachable(TOP_DEVICES, s) <==> s - {DeviceCtx} != {} && DeviceCtx in s && ZeroCtx !in s
  {
    hide Reachable;
    if Reachable(TOP_DEVICES, s) {
      var a, b, c, d, e := FivePicks(TOP_DEVICES, s);
      OfPT(a); OfPT(b); OfPT(c); OfPT(d);
      assert a.value in s - {DeviceCtx};
    }
    if s - {DeviceCtx} != {} && DeviceCtx in s && ZeroCtx !in s {
      var any :| any in s - {DeviceCtx};
      var a, b := PickOr(s, PinCtx, Some(any)), PickOr(s, PadringCtx, Some(any));
      var c, d := PickOr(s, ExposeCtx, Some(any)), PickOr(s, TopCtx, Some(any));
      assert any in {PinCtx, PadringCtx, ExposeCtx, TopCtx} by { assert any != DeviceCtx && any != ZeroCtx; }
      AnyPT(any);
      FiveReach(TOP_DEVICES, a, b, c, d, Some(DeviceCtx));
      FiveCover(s, a, b, c, d, Some(DeviceCtx));
    }
  }

  /** A signal with a port and no zero driver is in exactly one of Padring, Top and Devices; the others are in none. */
  lemma {:induction false} Partition(ps: seq<PortRef>)
    ensures var s := ContextSet(ps);
            var a, b, c := Reachable(PADRING, s), Reachable(TOP, s), Reachable(DEVICES, s);
            (ps != [] && ZeroCtx !in s <==> a || b || c) && !(a && b) && !(a && c) && !(b && c)
  {
    hide Reachable;
    var s := ContextSet(ps);
    PadringIs(s);
    TopIs(s);
    DevicesIs(s);
    if ps != [] { assert ps[0].ctx.kind in s; }
    if s * OUTER == {} && ZeroCtx !in s && s != {} { InnerSets(s); }
  }

  lemma {:induction false} InnerSets(s: set<CtxKind>)
    requires s * OUTER == {} && ZeroCtx !in s && s != {}
    ensures s == {TopCtx} || s == {DeviceCtx} || s == {TopCtx, DeviceCtx}
  {
    forall k | k in s ensures k == TopCtx || k == DeviceCtx { assert k !in s * OUTER; }
    var any :| any in s;
    assert s <= {TopCtx, DeviceCtx};
    if TopCtx !in s { assert s == {DeviceCtx}; }
    if DeviceCtx !in s { assert s == {TopCtx}; }
    if TopCtx in s && DeviceCtx in s { assert s == {TopCtx, DeviceCtx}; }
  }

  // ---- Boundary ports ----

  /** srcContext: the kinds that drive the signal; a pin drives from the padring. */
  function Sources(ps: seq<PortRef>): set<CtxKind> {
    set p | p in ps && p.dir == Out :: if p.ctx.kind == PinCtx then PadringCtx else p.ctx.kind
  }

  datatype PortLoc = PortLoc(name: string, dir: Dir)

  function PadringTopDir(src: CtxKind): Dir { if src == DeviceCtx || src == TopCtx then Out else In }

  function TopDevicesDir(src: CtxKind): Dir { if src == DeviceCtx then Out else In }

  /** The boundary ports of some signals, and the signals without a single source. */
  method BoundaryPorts(s: Signals, names: seq<string>, dirOf: CtxKind -> Dir) returns (locs: seq<PortLoc>, errs: seq<string>)
    requires forall n :: n in names ==> n in s
    ensures forall l :: l in locs <==> l.name in names && exists k :: Sources(s[l.name]) == {k} && l.dir == dirOf(k)
    ensures forall n :: n in errs <==> n in names && |Sources(s[n])| != 1
    ensures NoRepeats(names) ==> forall i, j :: 0 <= i < j < |locs| ==> locs[i].name != locs[j].name
  {
    locs, errs := [], [];
    for i := 0 to |names|
      invariant NoRepeats(names) ==> forall a, b :: 0 <= a < b < |locs| ==> locs[a].name != locs[b].name
      invariant forall l :: l in locs <==> l.name in names[..i] && exists k :: Sources(s[l.name]) == {k} && l.dir == dirOf(k)
      invariant forall n :: n in errs <==> n in names[..i] && |Sources(s[n])| != 1
    {
      assert names[..i + 1] == names[..i] + [names[i]];
      var src := Sources(s[names[i]]);
      if |src| != 1 {
        errs := errs + [names[i]];
      } else {
        ghost var only := OneMember(src);
        var k :| k in src;
        locs := locs + [PortLoc(names[i], dirOf(k))];
      }
    }
    assert names[..|names|] == names;
  }

  datatype Locations = Locations(padring: seq<string>, top: seq<string>, devices: seq<string>, padringTop: seq<PortLoc>, topDevices: seq<PortLoc>)

  /** The signals that have a port inside and a port outside an entity whose inside is the given kinds. */
  predicate Crosses(ps: seq<PortRef>, inside: set<CtxKind>) {
    (exists p :: p in ps && p.ctx.kind in inside) && (exists p :: p in ps && p.ctx.kind !in inside) && forall p :: p in ps ==> p.ctx.kind != ZeroCtx
  }

  /** The ports that drive a signal are there and come from one side; a pin drives from the pad ring. */
  predicate OneSource(ps: seq<PortRef>) {
    && (exists p :: p in ps && p.dir == Out)
    && forall p, q :: p in ps && q in ps && p.dir == Out && q.dir == Out ==>
         p.ctx.kind == q.ctx.kind || (p.ctx.kind in {PinCtx, PadringCtx} && q.ctx.kind in {PinCtx, PadringCtx})
  }

  /** A boundary port is an output exactly when every port that drives its signal lies inside. */
  ghost predicate IsBoundary(locs: seq<PortLoc>, s: Signals, inside: set<CtxKind>) {
    && (forall l :: l in locs <==> l.name in s && Crosses(s[l.name], inside) && OneSource(s[l.name])
                                   && l.dir == if DrivenInside(s[l.name], inside) then Out else In)
    && (forall i, j :: 0 <= i < j < |locs| ==> locs[i].name != locs[j].name)
  }

  predicate DrivenInside(ps: seq<PortRef>, inside: set<CtxKind>) { forall p :: p in ps && p.dir == Out ==> p.ctx.kind in inside }

  function Side(p: PortRef): CtxKind { if p.ctx.kind == PinCtx then PadringCtx else p.ctx.kind }

  lemma {:induction false} SourcesHave(ps: seq<PortRef>, k: CtxKind)
    ensures k in Sources(ps) <==> exists p :: p in ps && p.dir == Out && Side(p) == k
  {
  }

  lemma {:induction false} SourcesExactly(ps: seq<PortRef>, inside: set<CtxKind>)
    requires PinCtx !in inside && PadringCtx !in inside
    ensures |Sources(ps)| == 1 <==> OneSource(ps)
    ensures OneSource(ps) ==> (Sources(ps) <= inside <==> DrivenInside(ps, inside))
  {
    hide Sources;
    var src := Sources(ps);
    forall k ensures k in src <==> exists p :: p in ps && p.dir == Out && Side(p) == k { SourcesHave(ps, k); }
    if |src| == 1 {
      var only := OneMember(src);
      assert only in src;
      forall p | p in ps && p.dir == Out ensures Side(p) == only { assert Side(p) in src; }
    }
    if OneSource(ps) {
      var p :| p in ps && p.dir == Out;
      assert forall k :: k in src <==> k == Side(p);
      assert src == {Side(p)};
    }
  }

  /** categorize: the three lists partition the signals that have a port and no zero driver. */
  method CategorizeSignals(s: Signals, names: seq<string>) returns (sl: Locations, errs: seq<string>)
    requires NoRepeats(names) && forall n :: n in names <==> n in s
    ensures forall n :: n in sl.padring + sl.top + sl.devices <==> n in s && s[n] != [] && forall p :: p in s[n] ==> p.ctx.kind != ZeroCtx
    ensures NoRepeats(sl.padring + sl.top + sl.devices)
    ensures forall n :: n in sl.padring <==> n in s && InCategory(s[n], {PinCtx, PadringCtx, ExposeCtx}, {TopCtx, DeviceCtx})
    ensures forall n :: n in sl.top <==> n in s && InCategory(s[n], {TopCtx}, {DeviceCtx})
    ensures forall n :: n in sl.devices <==> n in s && InCategory(s[n], {DeviceCtx}, {})
    ensures IsBoundary(sl.padringTop, s, {TopCtx, DeviceCtx}) && IsBoundary(sl.topDevices, s, {DeviceCtx})
    ensures forall n :: n in errs <==> n in s && (Crosses(s[n], {TopCtx, DeviceCtx}) || Crosses(s[n], {DeviceCtx})) && !OneSource(s[n])
  {
    hide Reachable, Crosses, NoRepeats, Sources, OneSource, DrivenInside, InCategory, PADRING, TOP, DEVICES, PADRING_TOP, TOP_DEVICES;
    var outer := FilterByContext(s, names, PADRING_TOP);
    var inner := FilterByContext(s, names, TOP_DEVICES);
    var padringTop, e1 := BoundaryPorts(s, outer, PadringTopDir);
    var topDevices, e2 := BoundaryPorts(s, inner, TopDevicesDir);
    var padring := FilterByContext(s, names, PADRING);
    var top := FilterByContext(s, names, TOP);
    var devices := FilterByContext(s, names, DEVICES);
    sl := Locations(padring, top, devices, padringTop, topDevices);
    errs := e1 + e2;
    forall n | n in s ensures n in outer <==> Crosses(s[n], {TopCtx, DeviceCtx}) { OuterCrosses(s[n]); }
    forall n | n in s ensures n in inner <==> Crosses(s[n], {DeviceCtx}) { InnerCrosses(s[n]); }
    forall n | n in s ensures |Sources(s[n])| == 1 <==> OneSource(s[n]) { SourcesExactly(s[n], {}); }
    forall n | n in s
      ensures n in padring <==> InCategory(s[n], {PinCtx, PadringCtx, ExposeCtx}, {TopCtx, DeviceCtx})
      ensures n in top <==> InCategory(s[n], {TopCtx}, {DeviceCtx})
      ensures n in devices <==> InCategory(s[n], {DeviceCtx}, {})
    {
      CategoriesAre(s[n]);
    }
    forall n | n in s ensures (n in padring || n in top || n in devices) <==> s[n] != [] && forall p :: p in s[n] ==> p.ctx.kind != ZeroCtx { Partition(s[n]); ZeroIn(s[n]); }
    forall n | n in s ensures !(n in padring && n in top) && !(n in padring && n in devices) && !(n in top && n in devices) { Partition(s[n]); }
    NoRepeatsConcat(padring, top);
    NoRepeatsConcat(padring + top, devices);
    BoundaryIs(padringTop, s, outer, PadringTopDir, {TopCtx, DeviceCtx});
    BoundaryIs(topDevices, s, inner, TopDevicesDir, {DeviceCtx});
  }

  /** Some port is of the own kinds, and all others are of the kinds further inside. */
  predicate InCategory(ps: seq<PortRef>, own: set<CtxKind>, below: set<CtxKind>) {
    (exists p :: p in ps && p.ctx.kind in own) && forall p :: p in ps ==> p.ctx.kind in own + below
  }

  lemma {:induction false} CategoryIs(ps: seq<PortRef>, own: set<CtxKind>, below: set<CtxKind>)
    ensures InCategory(ps, own, below) <==> ContextSet(ps) * own != {} && ContextSet(ps) <= own + below
  {
    var c := ContextSet(ps);
    forall p | p in ps ensures p.ctx.kind in c {}
    if k :| k in c * own { var p :| p in ps && p.ctx.kind == k; }
    if p :| p in ps && p.ctx.kind in own { assert p.ctx.kind in c * own; }
  }

  lemma {:induction false} CategoriesAre(ps: seq<PortRef>)
    ensures Reachable(PADRING, ContextSet(ps)) <==> InCategory(ps, {PinCtx, PadringCtx, ExposeCtx}, {TopCtx, DeviceCtx})
    ensures Reachable(TOP, ContextSet(ps)) <==> InCategory(ps, {TopCtx}, {DeviceCtx})
    ensures Reachable(DEVICES, ContextSet(ps)) <==> InCategory(ps, {DeviceCtx}, {})
  {
    hide Reachable, InCategory;
    var s := ContextSet(ps);
    PadringIs(s);
    TopIs(s);
    DevicesIs(s);
    CategoryIs(ps, {PinCtx, PadringCtx, ExposeCtx}, {TopCtx, DeviceCtx});
    CategoryIs(ps, {TopCtx}, {DeviceCtx});
    CategoryIs(ps, {DeviceCtx}, {});
    AllKinds(s);
    OnlyTop(s);
  }

  lemma {:induction false} AllKinds(s: set<CtxKind>)
    ensures s <= OUTER + {TopCtx, DeviceCtx} <==> ZeroCtx !in s
  {
    assert forall k: CtxKind :: k in OUTER + {TopCtx, DeviceCtx} <==> k != ZeroCtx;
  }

  lemma {:induction false} OnlyTop(s: set<CtxKind>)
    ensures s == {TopCtx} || s == {TopCtx, DeviceCtx} <==> s * {TopCtx} != {} && s <= {TopCtx} + {DeviceCtx}
    ensures s == {DeviceCtx} <==> s * {DeviceCtx} != {} && s <= {DeviceCtx} + {}
  {
    if s * {TopCtx} != {} { assert TopCtx in s * {TopCtx}; }
    if s * {DeviceCtx} != {} { assert DeviceCtx in s * {DeviceCtx}; }
    if s <= {TopCtx} + {DeviceCtx} && TopCtx in s { assert s == if DeviceCtx in s then {TopCtx, DeviceCtx} else {TopCtx}; }
    assert TopCtx in s ==> TopCtx in s * {TopCtx};
    assert DeviceCtx in s ==> DeviceCtx in s * {DeviceCtx};
  }

  lemma {:induction false} ZeroIn(ps: seq<PortRef>)
    ensures ZeroCtx !in ContextSet(ps) <==> forall p :: p in ps ==> p.ctx.kind != ZeroCtx
  {
    forall p | p in ps ensures p.ctx.kind in ContextSet(ps) {}
  }

  lemma {:induction false} SetCrosses(ps: seq<PortRef>, inside: set<CtxKind>)
    ensures Crosses(ps, inside) <==> ContextSet(ps) * inside != {} && ContextSet(ps) - inside != {} && ZeroCtx !in ContextSet(ps)
  {
    var c := ContextSet(ps);
    forall p | p in ps ensures p.ctx.kind in c {}
    if k :| k in c * inside { var p :| p in ps && p.ctx.kind == k; }
    if k :| k in c - inside { var p :| p in ps && p.ctx.kind == k; }
    if p :| p in ps && p.ctx.kind in inside { assert p.ctx.kind in c * inside; }
    if p :| p in ps && p.ctx.kind !in inside { assert p.ctx.kind in c - inside; }
    ZeroIn(ps);
  }

  lemma {:induction false} OuterCrosses(ps: seq<PortRef>)
    ensures Reachable(PADRING_TOP, ContextSet(ps)) <==> Crosses(ps, {TopCtx, DeviceCtx})
  {
    hide Reachable, Crosses;
    var s := ContextSet(ps);
    PadringTopIs(s);
    SetCrosses(ps, {TopCtx, DeviceCtx});
    if ZeroCtx !in s { OuterIs(s); }
  }

  lemma {:induction false} OuterIs(s: set<CtxKind>)
    requires ZeroCtx !in s
    ensures s - {TopCtx, DeviceCtx} == s * OUTER
  {
    forall k | k in s ensures k in {TopCtx, DeviceCtx} <==> k !in OUTER { assert k != ZeroCtx; }
  }

  lemma {:induction false} InnerCrosses(ps: seq<PortRef>)
    ensures Reachable(TOP_DEVICES, ContextSet(ps)) <==> Crosses(ps, {DeviceCtx})
  {
    hide Reachable, Crosses;
    var s := ContextSet(ps);
    TopDevicesIs(s);
    SetCrosses(ps, {DeviceCtx});
    if DeviceCtx in s { assert DeviceCtx in s * {DeviceCtx}; }
  }

  /** The direction of a boundary port by its one source. */
  lemma {:induction false} BoundaryIs(locs: seq<PortLoc>, s: Signals, names: seq<string>, dirOf: CtxKind -> Dir, inside: set<CtxKind>)
    requires forall n :: n in names <==> n in s && Crosses(s[n], inside)
    requires forall k :: dirOf(k) == if k in inside then Out else In
    requires forall l :: l in locs <==> l.name in names && exists k :: Sources(s[l.name]) == {k} && l.dir == dirOf(k)
    requires PinCtx !in inside && PadringCtx !in inside && forall i, j :: 0 <= i < j < |locs| ==> locs[i].name != locs[j].name
    ensures IsBoundary(locs, s, inside)
  {
    hide Crosses, Sources, OneSource, DrivenInside;
    forall l: PortLoc | l.name in names
      ensures (exists k :: Sources(s[l.name]) == {k} && l.dir == dirOf(k))
              <==> OneSource(s[l.name]) && l.dir == if DrivenInside(s[l.name], inside) then Out else In
    {
      SourcesExactly(s[l.name], inside);
      var src := Sources(s[l.name]);
      if |src| == 1 {
        var only := OneMember(src);
        assert src == {only} && only in src;
        assert forall k :: src == {k} ==> k in src && k == only;
      }
    }
  }

  lemma {:induction false} OneMember(s: set<CtxKind>) returns (k: CtxKind)
    requires |s| == 1
    ensures s == {k}
  {
    assert s != {};
    k :| k in s;
    assert |s - {k}| == 0;
    assert s == {k} + (s - {k});
  }
}
