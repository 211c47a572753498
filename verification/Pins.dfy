// tools/socgen/elaborate/pins.go: pin rules, and joining the pins to the net-list.

module Pins {
  import opened Common
  import opened Decimal
  import opened Netlists

  datatype SeqPart = Lit(text: string) | Sym(sym: string)

  datatype SigKind = TrueSig | ConstSig(value: int) | MapSig(name: string, diff: string) | TemplateSig(parts: seq<SeqPart>) | NameSig(name: string)

  datatype SigSpec = SigSpec(kind: SigKind, invert: bool)

  type Env = map<string, int>

  /** The legs and attributes of a rule; what a rule matches is given from outside, as match: Match. */
  datatype Rule = Rule(id: nat, signal: Option<SigSpec>, inp: Option<SigSpec>, out: Option<SigSpec>, outEn: Option<SigSpec>, attrs: map<string, string>,
    buff: Option<bool>, entityPad: Option<bool>)

  /** Whether a rule matches a net, and the numbers it captures. */
  type Match = (Rule, string) -> Option<Env>

  datatype Pin = Pin(net: string, pad: string)

  function ExpandParts(parts: seq<SeqPart>, env: Env): string {
    if parts == [] then ""
    else
      var p := parts[|parts| - 1];
      ExpandParts(parts[..|parts| - 1], env) + match p case Lit(t) => t case Sym(s) => IntText(if s in env then env[s] else 0)
  }

  /** expandSig: the reference and its differential side. */
  function ExpandSig(s: SigSpec, net: string, env: Env): (string, string) {
    match s.kind
    case TrueSig => (net, "")
    case ConstSig(_) => ("", "")
    case MapSig(name, diff) => (name, diff)
    case TemplateSig(parts) => (ExpandParts(parts, env), "")
    case NameSig(name) => (name, "")
  }

  /** A signal names itself, or the pin's net for true, or is put together from text and captured numbers; only a map has a second
      side, and a constant has no name. */
  lemma {:induction false} SignalExactly(s: SigSpec, net: string, env: Env)
    ensures var (ref, diff) := ExpandSig(s, net, env);
            && (s.kind.TrueSig? ==> ref == net) && (s.kind.NameSig? ==> ref == s.kind.name) && (s.kind.ConstSig? ==> ref == "")
            && (if s.kind.MapSig? then (ref, diff) == (s.kind.name, s.kind.diff) else diff == "")
            && (s.kind.TemplateSig? ==> ref == ExpandParts(s.kind.parts, env))
  {
  }

  /** Text as it is, and a captured number in decimal, or 0 when there is none. */
  lemma {:induction false} OnePart(p: SeqPart, env: Env)
    ensures ExpandParts([p], env) == if p.Lit? then p.text else IntText(if p.sym in env then env[p.sym] else 0)
  {
    hide IntText;
    assert [p][..0] == [] && ExpandParts([p][..0], env) == "";
  }

  lemma {:induction false} LastPart(parts: seq<SeqPart>, env: Env)
    requires parts != []
    ensures ExpandParts(parts, env) == ExpandParts(parts[..|parts| - 1], env) + ExpandParts([parts[|parts| - 1]], env)
  {
    hide IntText;
    OnePart(parts[|parts| - 1], env);
  }

  /** The parts of a template stand one behind the other. */
  lemma {:induction false} PartsInOrder(a: seq<SeqPart>, b: seq<SeqPart>, env: Env)
    ensures ExpandParts(a + b, env) == ExpandParts(a, env) + ExpandParts(b, env)
    decreases |b|
  {
    hide ExpandParts;
    if b == [] {
      assert a + b == a;
      NoParts(env);
    } else {
      var n := |b| - 1;
      PartsInOrder(a, b[..n], env);
      LastPart(b, env);
      LastPart(a + b, env);
      assert (a + b)[..|a + b| - 1] == a + b[..n];
      assert (a + b)[|a + b| - 1] == b[n];
      Associative(ExpandParts(a, env), ExpandParts(b[..n], env), ExpandParts([b[n]], env));
    }
  }

  lemma {:induction false} NoParts(env: Env)
    ensures ExpandParts([], env) == ""
  {
  }

  lemma {:induction false} Associative(x: string, y: string, z: string)
    ensures x + y + z == x + (y + z)
  {
  }

  datatype Folded = Folded(attrs: map<string, string>, buff: Option<bool>, entityPad: Option<bool>, signalRef: string, signalDiff: string, inRef: string, outRef: string,
    outEnRef: string, outConst: Option<int>, outInvert: bool)

  const UNFOLDED := Folded(map[], None, None, "", "", "", "", "", None, false)

  /** One matching rule. */
  function FoldOne(f: Folded, r: Rule, net: string, env: Env): Folded {
    var sig := if r.signal.Some? then ExpandSig(r.signal.value, net, env) else (f.signalRef, f.signalDiff);
    Folded(
      f.attrs + r.attrs,
      if r.buff.Some? then r.buff else f.buff,
      if r.entityPad.Some? then r.entityPad else f.entityPad,
      sig.0, sig.1,
      if r.inp.Some? then ExpandSig(r.inp.value, net, env).0 else f.inRef,
      if r.out.Some? then ExpandSig(r.out.value, net, env).0 else f.outRef,
      if r.outEn.Some? then ExpandSig(r.outEn.value, net, env).0 else f.outEnRef,
      if r.out.Some? then (if r.out.value.kind.ConstSig? then Some(r.out.value.kind.value) else None) else f.outConst,
      if r.out.Some? then r.out.value.invert else f.outInvert)
  }

  function Fold(rules: seq<Rule>, net: string, m: Match): Folded {
    if rules == [] then UNFOLDED
    else
      var r := rules[|rules| - 1];
      var f := Fold(rules[..|rules| - 1], net, m);
      if m(r, net).Some? then FoldOne(f, r, net, m(r, net).value) else f
  }

  /** foldRules. */
  method FoldRules(rules: seq<Rule>, net: string, m: Match) returns (f: Folded)
    ensures f == Fold(rules, net, m)
  {
    hide FoldOne;
    f := UNFOLDED;
    assert rules[..0] == [];
    for i := 0 to |rules|
      invariant f == Fold(rules[..i], net, m)
    {
      assert rules[..i + 1][..i] == rules[..i];
      var env := m(rules[i], net);
      if env.Some? { f := FoldOne(f, rules[i], net, env.value); }
    }
    assert rules[..|rules|] == rules;
  }

  /** The last matching rule that sets a leg decides it. */
  ghost predicate Decides(rules: seq<Rule>, net: string, m: Match, sets: Rule -> bool, i: nat) {
    i < |rules| && m(rules[i], net).Some? && sets(rules[i]) && forall j :: i < j < |rules| ==> m(rules[j], net).None? || !sets(rules[j])
  }

  lemma {:induction false} LastOutWins(rules: seq<Rule>, net: string, m: Match, i: nat)
    requires Decides(rules, net, m, (r: Rule) => r.out.Some?, i)
    ensures var f, spec := Fold(rules, net, m), rules[i].out.value;
            && f.outRef == ExpandSig(spec, net, m(rules[i], net).value).0 && f.outInvert == spec.invert
            && f.outConst == if spec.kind.ConstSig? then Some(spec.kind.value) else None
    decreases rules
  {
    hide ExpandSig;
    if i < |rules| - 1 {
      var front := rules[..|rules| - 1];
      assert Decides(front, net, m, (r: Rule) => r.out.Some?, i);
      LastOutWins(front, net, m, i);
    }
  }

  lemma {:induction false} LastSignalWins(rules: seq<Rule>, net: string, m: Match, i: nat)
    requires Decides(rules, net, m, (r: Rule) => r.signal.Some?, i)
    ensures var f := Fold(rules, net, m); (f.signalRef, f.signalDiff) == ExpandSig(rules[i].signal.value, net, m(rules[i], net).value)
    decreases rules
  {
    hide ExpandSig;
    if i < |rules| - 1 {
      var front := rules[..|rules| - 1];
      assert Decides(front, net, m, (r: Rule) => r.signal.Some?, i);
      LastSignalWins(front, net, m, i);
    }
  }

  /** The same for the other legs and marks, and for the attributes one by one. */
  lemma {:induction false} LastRuleWins(rules: seq<Rule>, net: string, m: Match, i: nat)
    requires i < |rules| && m(rules[i], net).Some?
    ensures var f, r, env := Fold(rules, net, m), rules[i], m(rules[i], net).value;
            && (Decides(rules, net, m, (r: Rule) => r.inp.Some?, i) ==> f.inRef == ExpandSig(r.inp.value, net, env).0)
            && (Decides(rules, net, m, (r: Rule) => r.outEn.Some?, i) ==> f.outEnRef == ExpandSig(r.outEn.value, net, env).0)
            && (Decides(rules, net, m, (r: Rule) => r.buff.Some?, i) ==> f.buff == r.buff)
            && (Decides(rules, net, m, (r: Rule) => r.entityPad.Some?, i) ==> f.entityPad == r.entityPad)
            && forall k :: Decides(rules, net, m, (r: Rule) => k in r.attrs, i) ==> k in f.attrs && f.attrs[k] == r.attrs[k]
    decreases rules
  {
    hide ExpandSig;
    if i < |rules| - 1 {
      var front := rules[..|rules| - 1];
      LastRuleWins(front, net, m, i);
      assert forall sets :: Decides(rules, net, m, sets, i) ==> Decides(front, net, m, sets, i);
    }
  }

  /** A leg that no matching rule sets is not there. */
  lemma {:induction false} UnsetLegs(rules: seq<Rule>, net: string, m: Match)
    ensures var f := Fold(rules, net, m);
            && ((forall r :: r in rules && m(r, net).Some? ==> r.signal.None?) ==> f.signalRef == f.signalDiff == "")
            && ((forall r :: r in rules && m(r, net).Some? ==> r.inp.None?) ==> f.inRef == "")
            && ((forall r :: r in rules && m(r, net).Some? ==> r.out.None?) ==> f.outRef == "" && f.outConst.None? && !f.outInvert)
            && ((forall r :: r in rules && m(r, net).Some? ==> r.outEn.None?) ==> f.outEnRef == "")
            && ((forall r :: r in rules && m(r, net).Some? ==> r.buff.None?) ==> f.buff.None?)
            && ((forall r :: r in rules && m(r, net).Some? ==> r.entityPad.None?) ==> f.entityPad.None?)
  {
    hide ExpandSig;
    if rules != [] {
      var n := |rules| - 1;
      UnsetLegs(rules[..n], net, m);
      assert rules[n] in rules && forall r :: r in rules[..n] ==> r in rules;
    }
  }

  // ---- Signals and their base names ----

  /** The first '.' or '(' of a reference, or its length. */
  function BaseEnd(r: string): (i: nat)
    ensures i <= |r| && (i < |r| ==> r[i] == '.' || r[i] == '(') && forall j :: 0 <= j < i ==> r[j] != '.' && r[j] != '('
  {
    if r == "" || r[0] == '.' || r[0] == '(' then 0 else 1 + BaseEnd(r[1..])
  }

  function Base(r: string): string { r[..BaseEnd(r)] }

  function Element(r: string): string { if BaseEnd(r) == |r| then "" else r }

  /** The ports of a signal that do not come from pins. */
  function NonPin(ps: seq<PortRef>): seq<PortRef> {
    if ps == [] then []
    else
      var p := ps[|ps| - 1];
      NonPin(ps[..|ps| - 1]) + if p.ctx.kind == PinCtx then [] else [p]
  }

  /** bareSignalDir. */
  function BareDir(s: Signals, base: string): Dir {
    if exists i :: 0 <= i < |At(s, base)| && At(s, base)[i].ctx.kind != PinCtx && IsDriver(At(s, base)[i].dir) then In else Out
  }

  /** signalIsReal. */
  predicate IsReal(s: Signals, zero: seq<string>, base: string) {
    (exists i :: 0 <= i < |At(s, base)| && At(s, base)[i].ctx.kind != PinCtx) || base in zero
  }

  // ---- One pin ----

  datatype BufferKind = IBUF | IBUFDS | OBUF | OBUFT | OBUFDS | IOBUF | DirectPad | EntityPad

  datatype ResolvedPin = ResolvedPin(net: string, pad: string, signal: string, inp: string, out: string, outEn: string, outConst: string, outInvert: bool, diff: string,
    buffer: BufferKind, padDir: Dir, attrs: map<string, string>)

  datatype Leg = Leg(base: string, ref: PortRef)

  datatype Outcome = Dropped | Resolved(pin: ResolvedPin, legs: seq<Leg>, bound: set<string>)

  function BufferOf(f: Folded, bareDir: Option<Dir>): BufferKind {
    var inp, out, outEn := f.inRef != "", f.outRef != "", f.outEnRef != "";
    if f.entityPad == Some(true) then EntityPad
    else if f.buff == Some(false) then DirectPad
    else if f.signalRef != "" && !inp && !out && !outEn then
      (if f.signalDiff != "" then (if bareDir == Some(Out) then IBUFDS else OBUFDS) else if bareDir == Some(Out) then IBUF else OBUF)
    else if inp && out && outEn then IOBUF
    else if out && outEn then OBUFT
    else if out then OBUF
    else IBUF
  }

  function PadDirOf(b: BufferKind, bareDir: Option<Dir>): Dir {
    match b
    case IBUF | IBUFDS => In
    case OBUF | OBUFT | OBUFDS => Out
    case IOBUF | EntityPad => Inout
    case DirectPad => if bareDir == Some(Out) then In else Out
  }

  /** One leg of a pin; a leg without a base name is not joined. */
  function LegOf(net: string, leg: string, ref: string, dir: Dir, diff: string): seq<Leg> {
    if ref == "" || Base(ref) == "" then []
    else [Leg(Base(ref), PortRef(Context(PinCtx, net), "pin." + net + "." + leg, dir, Element(ref), diff))]
  }

  function Legs(f: Folded, net: string, bareDir: Dir): seq<Leg> {
    LegOf(net, "signal", f.signalRef, bareDir, f.signalDiff) + LegOf(net, "in", f.inRef, Out, "") + LegOf(net, "out", f.outRef, In, "") +
    LegOf(net, "out-en", f.outEnRef, In, "")
  }

  predicate Missing(s: Signals, zero: seq<string>, ref: string) { ref != "" && !IsReal(s, zero, Base(ref)) }

  /** What becomes of a pin, given the net-list. */
  function Outcome1(pin: Pin, f: Folded, s: Signals, zero: seq<string>): Outcome {
    if f.outConst.Some? then
      if f.outConst.value != 0 && f.outConst.value != 1 then Dropped
      else Resolved(ResolvedPin(pin.net, pin.pad, "", "", "", "", if f.outConst.value == 1 then "'1'" else "'0'", false, "", OBUF, Out, f.attrs), [], {})
    else if f.entityPad == Some(true) && f.signalRef != "" then
      Resolved(ResolvedPin(pin.net, pin.pad, f.signalRef, "", "", "", "", false, "", EntityPad, Inout, f.attrs), [], {f.signalRef})
    else if f.signalRef == "" && f.inRef == "" && f.outRef == "" && f.outEnRef == "" then Dropped
    else if Missing(s, zero, f.signalRef) || Missing(s, zero, f.inRef) || Missing(s, zero, f.outRef) || Missing(s, zero, f.outEnRef) then Dropped
    else
      var bare := BareDir(s, Base(f.signalRef));
      var bareDir := if f.signalRef != "" then Some(bare) else None;
      var b := BufferOf(f, bareDir);
      Resolved(
        ResolvedPin(pin.net, pin.pad, f.signalRef, f.inRef, f.outRef, f.outEnRef, "", f.outRef != "" && f.outInvert, f.signalDiff, b, PadDirOf(b, bareDir), f.attrs),
        Legs(f, pin.net, bare), {})
  }

  // ---- Only ports that are not pins' are consulted ----

  ghost predicate SameNonPin(s: Signals, t: Signals) { forall n :: NonPin(At(s, n)) == NonPin(At(t, n)) }

  lemma {:induction false} NonPinHas(ps: seq<PortRef>)
    ensures forall p :: p in NonPin(ps) <==> p in ps && p.ctx.kind != PinCtx
  {
    if ps != [] { NonPinHas(ps[..|ps| - 1]); }
  }

  lemma {:induction false} BareDirIs(s: Signals, base: string)
    ensures BareDir(s, base) == if exists p :: p in NonPin(At(s, base)) && IsDriver(p.dir) then In else Out
  {
    hide IsDriver;
    var ps := At(s, base);
    NonPinHas(ps);
    if p :| p in NonPin(ps) && IsDriver(p.dir) {
      var i :| 0 <= i < |ps| && ps[i] == p;
    }
    forall i | 0 <= i < |ps| && ps[i].ctx.kind != PinCtx ensures ps[i] in NonPin(ps) { assert ps[i] in ps; }
  }

  lemma {:induction false} IsRealIs(s: Signals, zero: seq<string>, base: string)
    ensures IsReal(s, zero, base) <==> NonPin(At(s, base)) != [] || base in zero
  {
    var ps := At(s, base);
    NonPinHas(ps);
    if NonPin(ps) != [] {
      assert NonPin(ps)[0] in NonPin(ps);
      var i :| 0 <= i < |ps| && ps[i] == NonPin(ps)[0];
    }
    if i :| 0 <= i < |ps| && ps[i].ctx.kind != PinCtx { assert ps[i] in ps; }
  }

  /** A pin's direction, buffer and drop decision do not depend on other pins. */
  lemma {:induction false} OutcomeStable(pin: Pin, f: Folded, s: Signals, t: Signals, zero: seq<string>)
    requires SameNonPin(s, t)
    ensures Outcome1(pin, f, s, zero) == Outcome1(pin, f, t, zero)
  {
    hide BareDir, IsReal, NonPin, At, Legs, BufferOf, PadDirOf, Base;
    forall b ensures BareDir(s, b) == BareDir(t, b) && IsReal(s, zero, b) == IsReal(t, zero, b) {
      assert NonPin(At(s, b)) == NonPin(At(t, b));
      BareDirIs(s, b);
      BareDirIs(t, b);
      IsRealIs(s, zero, b);
      IsRealIs(t, zero, b);
    }
  }

  // ---- Buffers and pads, from the legs of the rules and the ports of the net-list ----

  /** A port that is no pin's drives the signal. */
  predicate Driven(s: Signals, base: string) {
    exists p :: p in At(s, base) && p.ctx.kind != PinCtx && p.dir in {Out, Inout, Buffer}
  }

  /** The signal has a port that is no pin's, or is a zero signal. */
  predicate Real(s: Signals, zero: seq<string>, base: string) { base in zero || exists p :: p in At(s, base) && p.ctx.kind != PinCtx }

  lemma {:induction false} DrivenIs(s: Signals, zero: seq<string>, base: string)
    ensures BareDir(s, base) == if Driven(s, base) then In else Out
    ensures IsReal(s, zero, base) <==> Real(s, zero, base)
  {
    var ps := At(s, base);
    assert forall i :: 0 <= i < |ps| ==> ps[i] in ps;
    if p :| p in ps && p.ctx.kind != PinCtx { var i :| 0 <= i < |ps| && ps[i] == p; }
    if p :| p in ps && p.ctx.kind != PinCtx && p.dir in {Out, Inout, Buffer} { var i :| 0 <= i < |ps| && ps[i] == p; }
  }

  /** A pin of rules without an entity pad or a constant. */
  predicate Plain(f: Folded) { f.outConst.None? && (f.entityPad != Some(true) || f.signalRef == "") }

  predicate Bare(f: Folded) { f.signalRef != "" && f.inRef == "" && f.outRef == "" && f.outEnRef == "" }

  /**
   * A plain pin is dropped exactly when it has no leg or a leg to a signal that only pins have. Otherwise, when it is
   * buffered: a bare signal has an input buffer and pad when nothing else drives its signal, and an output buffer and pad when
   * something does, differential when the rule gives a second side; explicit legs decide by which of them are set.
   */
  lemma {:induction false} BufferExactly(pin: Pin, f: Folded, s: Signals, zero: seq<string>)
    requires Plain(f)
    ensures var o, driven := Outcome1(pin, f, s, zero), Driven(s, Base(f.signalRef));
            && (o.Dropped? <==> (f.signalRef == f.inRef == f.outRef == f.outEnRef == "")
                                || exists r :: r in {f.signalRef, f.inRef, f.outRef, f.outEnRef} && r != "" && !Real(s, zero, Base(r)))
            && (o.Resolved? && f.entityPad != Some(true) && f.buff != Some(false) ==>
                 (o.pin.buffer, o.pin.padDir) ==
                   if Bare(f) && f.signalDiff == "" then (if driven then (OBUF, Out) else (IBUF, In))
                   else if Bare(f) then (if driven then (OBUFDS, Out) else (IBUFDS, In))
                   else if f.outRef == "" then (IBUF, In)
                   else if f.outEnRef == "" then (OBUF, Out)
                   else if f.inRef == "" then (OBUFT, Out)
                   else (IOBUF, Inout))
            && (o.Resolved? ==> (o.pin.net, o.pin.pad, o.pin.signal, o.pin.diff, o.pin.inp, o.pin.out, o.pin.outEn, o.pin.attrs) ==
                                (pin.net, pin.pad, f.signalRef, f.signalDiff, f.inRef, f.outRef, f.outEnRef, f.attrs))
            && (o.Resolved? ==> o.pin.outInvert == (f.outRef != "" && f.outInvert) && o.pin.outConst == "")
            && (o.Resolved? && f.entityPad != Some(true) && f.buff == Some(false) ==>
                 o.pin.buffer == DirectPad && o.pin.padDir == if f.signalRef != "" && !driven then In else Out)
  {
    hide BareDir, IsReal, Driven, Real, Base, Legs;
    DrivenIs(s, zero, Base(f.signalRef));
    DrivenIs(s, zero, Base(f.inRef));
    DrivenIs(s, zero, Base(f.outRef));
    DrivenIs(s, zero, Base(f.outEnRef));
  }

  /** A constant output drives its pad with that bit and joins no signal; an entity pad binds its signal and joins none either. */
  lemma {:induction false} UnjoinedPins(pin: Pin, f: Folded, s: Signals, zero: seq<string>)
    requires !Plain(f)
    ensures var o := Outcome1(pin, f, s, zero);
            && (o.Dropped? <==> f.outConst.Some? && f.outConst.value !in {0, 1})
            && (o.Resolved? ==> o.legs == [] && (o.pin.net, o.pin.pad, o.pin.attrs) == (pin.net, pin.pad, f.attrs) && if f.outConst.Some?
                 then (o.pin.buffer, o.pin.padDir, o.pin.outConst) == (OBUF, Out, ['\'', if f.outConst == Some(0) then '0' else '1', '\'']) && o.bound == {}
                 else (o.pin.buffer, o.pin.padDir, o.pin.signal) == (EntityPad, Inout, f.signalRef) && o.bound == {f.signalRef})
  {
    hide Missing, BufferOf, PadDirOf, Legs, BareDir;
  }

  /** Which signals a resolved pin drives and reads: an in leg drives, out and out-en legs read, a bare or named signal is
      driven exactly when nothing else does. */
  lemma {:induction false} LegsExactly(pin: Pin, f: Folded, s: Signals, zero: seq<string>, n: string)
    requires Plain(f) && Outcome1(pin, f, s, zero).Resolved? && n != ""
    ensures var legs := Outcome1(pin, f, s, zero).legs;
            && (HasLeg(legs, n, Out) <==>
                 (f.inRef != "" && Base(f.inRef) == n) || (f.signalRef != "" && Base(f.signalRef) == n && !Driven(s, n)))
            && (HasLeg(legs, n, In) <==>
                 (f.outRef != "" && Base(f.outRef) == n) || (f.outEnRef != "" && Base(f.outEnRef) == n)
                 || (f.signalRef != "" && Base(f.signalRef) == n && Driven(s, n)))
            && !HasLeg(legs, n, Inout) && !HasLeg(legs, n, Buffer)
  {
    hide HasLeg, LegOf, Driven, Base, Outcome1;
    var bare := BareDir(s, Base(f.signalRef));
    DrivenIs(s, zero, Base(f.signalRef));
    ResolvedLegs(pin, f, s, zero);
    hide BareDir;
    forall d: Dir
      ensures HasLeg(Legs(f, pin.net, bare), n, d) <==>
              (f.signalRef != "" && Base(f.signalRef) == n && d == bare) || (f.inRef != "" && Base(f.inRef) == n && d == Out)
              || (f.outRef != "" && Base(f.outRef) == n && d == In) || (f.outEnRef != "" && Base(f.outEnRef) == n && d == In)
    {
      LegsHave(f, pin.net, bare, n, d);
    }
  }

  lemma {:induction false} ResolvedLegs(pin: Pin, f: Folded, s: Signals, zero: seq<string>)
    requires Plain(f) && Outcome1(pin, f, s, zero).Resolved?
    ensures Outcome1(pin, f, s, zero).legs == Legs(f, pin.net, BareDir(s, Base(f.signalRef)))
  {
    hide BareDir, Base, Legs, BufferOf, PadDirOf, Missing;
  }

  lemma {:induction false} LegsHave(f: Folded, net: string, bare: Dir, n: string, d: Dir)
    requires n != ""
    ensures HasLeg(Legs(f, net, bare), n, d) <==>
            (f.signalRef != "" && Base(f.signalRef) == n && d == bare) || (f.inRef != "" && Base(f.inRef) == n && d == Out)
            || (f.outRef != "" && Base(f.outRef) == n && d == In) || (f.outEnRef != "" && Base(f.outEnRef) == n && d == In)
  {
    hide HasLeg, LegOf, Base;
    var sig, inp := LegOf(net, "signal", f.signalRef, bare, f.signalDiff), LegOf(net, "in", f.inRef, Out, "");
    var out, outEn := LegOf(net, "out", f.outRef, In, ""), LegOf(net, "out-en", f.outEnRef, In, "");
    HasLegConcat(sig, inp, n, d);
    HasLegConcat(sig + inp, out, n, d);
    HasLegConcat(sig + inp + out, outEn, n, d);
    LegHas(net, "signal", f.signalRef, bare, f.signalDiff, n, d);
    LegHas(net, "in", f.inRef, Out, "", n, d);
    LegHas(net, "out", f.outRef, In, "", n, d);
    LegHas(net, "out-en", f.outEnRef, In, "", n, d);
  }

  predicate HasLeg(legs: seq<Leg>, n: string, d: Dir) { exists l :: l in legs && l.base == n && l.ref.dir == d }

  lemma {:induction false} HasLegConcat(a: seq<Leg>, b: seq<Leg>, n: string, d: Dir)
    ensures HasLeg(a + b, n, d) <==> HasLeg(a, n, d) || HasLeg(b, n, d)
  {
    if l :| l in a && l.base == n && l.ref.dir == d { assert l in a + b; }
    if l :| l in b && l.base == n && l.ref.dir == d { assert l in a + b; }
  }

  lemma {:induction false} LegHas(net: string, leg: string, ref: string, dir: Dir, diff: string, n: string, d: Dir)
    requires n != ""
    ensures HasLeg(LegOf(net, leg, ref, dir, diff), n, d) <==> ref != "" && Base(ref) == n && d == dir
    ensures forall l :: l in LegOf(net, leg, ref, dir, diff) ==> l.ref.dir == dir && l.ref.ctx == Context(PinCtx, net)
  {
    hide Base, Element;
    var ls := LegOf(net, leg, ref, dir, diff);
    if ls != [] { assert ls[0] in ls; }
  }

  lemma {:induction false} NonPinLeg(ps: seq<PortRef>, p: PortRef)
    requires p.ctx.kind == PinCtx
    ensures NonPin(ps + [p]) == NonPin(ps)
  {
    assert (ps + [p])[..|ps|] == ps;
  }

  // ---- All pins ----

  /** The refs that some legs add to n. */
  function LegRefs(legs: seq<Leg>, n: string): seq<PortRef> {
    if legs == [] then []
    else
      var l := legs[|legs| - 1];
      LegRefs(legs[..|legs| - 1], n) + if l.base == n then [l.ref] else []
  }

  function LegsOf(o: Outcome): seq<Leg> { if o.Resolved? then o.legs else [] }

  /** Each pin over the net-list as it was before all pins. */
  function Outcomes(pins: seq<Pin>, rules: seq<Rule>, m: Match, s: Signals, zero: seq<string>): (os: seq<Outcome>)
    ensures |os| == |pins| && forall i :: 0 <= i < |pins| ==> os[i] == Outcome1(pins[i], Fold(rules, pins[i].net, m), s, zero)
  {
    if pins == [] then []
    else
      var p := pins[|pins| - 1];
      Outcomes(pins[..|pins| - 1], rules, m, s, zero) + [Outcome1(p, Fold(rules, p.net, m), s, zero)]
  }

  function AllPins(os: seq<Outcome>): seq<ResolvedPin> {
    if os == [] then [] else AllPins(os[..|os| - 1]) + if os[|os| - 1].Resolved? then [os[|os| - 1].pin] else []
  }

  function AllLegs(os: seq<Outcome>): seq<Leg> { if os == [] then [] else AllLegs(os[..|os| - 1]) + LegsOf(os[|os| - 1]) }

  function AllBound(os: seq<Outcome>): set<string> {
    if os == [] then {} else AllBound(os[..|os| - 1]) + if os[|os| - 1].Resolved? then os[|os| - 1].bound else {}
  }

  lemma {:induction false} LegRefsConcat(a: seq<Leg>, b: seq<Leg>, n: string)
    ensures LegRefs(a + b, n) == LegRefs(a, n) + LegRefs(b, n)
    decreases |b|
  {
    if b == [] {
      assert a + b == a;
    } else {
      assert (a + b)[..|a + b| - 1] == a + b[..|b| - 1];
      LegRefsConcat(a, b[..|b| - 1], n);
    }
  }

  /** addPinPort for each leg. */
  method AddLegs(net: Netlist, legs: seq<Leg>)
    requires forall n :: n in net.signals ==> net.signals[n] != []
    modifies net`signals
    ensures forall n :: At(net.signals, n) == At(old(net.signals), n) + LegRefs(legs, n)
    ensures forall n :: n in net.signals ==> net.signals[n] != []
    ensures old(net.signals).Keys <= net.signals.Keys
  {
    hide At;
    assert legs[..0] == [];
    for i := 0 to |legs|
      invariant forall n :: At(net.signals, n) == At(old(net.signals), n) + LegRefs(legs[..i], n)
      invariant forall n :: n in net.signals ==> net.signals[n] != []
      invariant old(net.signals).Keys <= net.signals.Keys
    {
      assert legs[..i + 1][..i] == legs[..i];
      net.AddPort(legs[i].base, legs[i].ref);
    }
    assert legs[..|legs|] == legs;
  }

  predicate FromPins(legs: seq<Leg>) { forall l :: l in legs ==> l.ref.ctx.kind == PinCtx }

  lemma {:induction false} NonPinLegs(ps: seq<PortRef>, legs: seq<Leg>, n: string)
    requires FromPins(legs)
    ensures NonPin(ps + LegRefs(legs, n)) == NonPin(ps)
    decreases |legs|
  {
    if legs == [] {
      assert ps + LegRefs(legs, n) == ps;
    } else {
      var front, l := legs[..|legs| - 1], legs[|legs| - 1];
      NonPinLegs(ps, front, n);
      if l.base == n {
        NonPinLeg(ps + LegRefs(front, n), l.ref);
        assert ps + LegRefs(legs, n) == ps + LegRefs(front, n) + [l.ref];
      } else {
        assert LegRefs(legs, n) == LegRefs(front, n);
      }
    }
  }

  lemma {:induction false} OutcomeLegs(pin: Pin, f: Folded, s: Signals, zero: seq<string>)
    ensures FromPins(LegsOf(Outcome1(pin, f, s, zero)))
  {
    hide BareDir, IsReal, BufferOf, PadDirOf, Base, Element;
  }

  lemma {:induction false} AllFromPins(pins: seq<Pin>, rules: seq<Rule>, m: Match, s: Signals, zero: seq<string>, i: nat)
    requires i <= |pins|
    ensures FromPins(AllLegs(Outcomes(pins, rules, m, s, zero)[..i]))
    decreases i
  {
    hide Outcome1, Fold;
    if i > 0 {
      var os := Outcomes(pins, rules, m, s, zero);
      AllFromPins(pins, rules, m, s, zero, i - 1);
      assert os[..i][..i - 1] == os[..i - 1];
      OutcomeLegs(pins[i - 1], Fold(rules, pins[i - 1].net, m), s, zero);
    }
  }

  /** One pin, over the net-list as it is now. */
  method ResolvePin(net: Netlist, pin: Pin, rules: seq<Rule>, m: Match, zero: seq<string>) returns (o: Outcome)
    requires forall n :: n in net.signals ==> net.signals[n] != []
    modifies net`signals
    ensures o == Outcome1(pin, Fold(rules, pin.net, m), old(net.signals), zero)
    ensures Joined(net.signals, old(net.signals), LegsOf(o))
    ensures forall n :: n in net.signals ==> net.signals[n] != []
    ensures old(net.signals).Keys <= net.signals.Keys
  {
    hide Outcome1, Fold, At;
    var f := FoldRules(rules, pin.net, m);
    o := Outcome1(pin, f, net.signals, zero);
    AddLegs(net, LegsOf(o));
  }

  /** Adding the legs to s gives the net-list. */
  ghost predicate Joined(now: Signals, s: Signals, legs: seq<Leg>) { forall n :: At(now, n) == At(s, n) + LegRefs(legs, n) }

  lemma {:induction false} JoinedNext(now: Signals, s: Signals, legs: seq<Leg>, next: Signals, more: seq<Leg>)
    requires Joined(now, s, legs) && Joined(next, now, more)
    ensures Joined(next, s, legs + more)
  {
    hide At, LegRefs;
    forall n ensures At(next, n) == At(s, n) + LegRefs(legs + more, n) { LegRefsConcat(legs, more, n); }
  }

  lemma {:induction false} JoinedSame(now: Signals, s: Signals, legs: seq<Leg>)
    requires Joined(now, s, legs) && FromPins(legs)
    ensures SameNonPin(now, s)
  {
    hide At, LegRefs, NonPin;
    forall n ensures NonPin(At(now, n)) == NonPin(At(s, n)) { NonPinLegs(At(s, n), legs, n); }
  }

  lemma {:induction false} NothingJoined(s: Signals)
    ensures Joined(s, s, [])
  {
  }

  /** resolvePins mutates the net-list that it reads, yet each pin comes out as over the net-list before all pins. */
  method ResolvePins(net: Netlist, pins: seq<Pin>, rules: seq<Rule>, m: Match, zero: seq<string>) returns (out: seq<ResolvedPin>, bound: set<string>)
    requires forall n :: n in net.signals ==> net.signals[n] != []
    modifies net`signals
    ensures var os := Outcomes(pins, rules, m, old(net.signals), zero);
            out == AllPins(os) && bound == AllBound(os) && forall n :: At(net.signals, n) == At(old(net.signals), n) + LegRefs(AllLegs(os), n)
    ensures forall n :: n in net.signals ==> net.signals[n] != []
    ensures old(net.signals).Keys <= net.signals.Keys
  {
    hide Outcome1, Fold, At, LegRefs, Joined, FromPins, SameNonPin;
    out, bound := [], {};
    ghost var s := net.signals;
    ghost var os := Outcomes(pins, rules, m, s, zero);
    NothingJoined(s);
    assert os[..0] == [];
    for i := 0 to |pins|
      invariant out == AllPins(os[..i]) && bound == AllBound(os[..i])
      invariant Joined(net.signals, s, AllLegs(os[..i]))
      invariant forall n :: n in net.signals ==> net.signals[n] != []
      invariant s.Keys <= net.signals.Keys
    {
      assert os[..i + 1][..i] == os[..i];
      ghost var now := net.signals;
      AllFromPins(pins, rules, m, s, zero, i);
      JoinedSame(now, s, AllLegs(os[..i]));
      OutcomeStable(pins[i], Fold(rules, pins[i].net, m), now, s, zero);
      var o := ResolvePin(net, pins[i], rules, m, zero);
      JoinedNext(now, s, AllLegs(os[..i]), net.signals, LegsOf(o));
      if o.Resolved? {
        out := out + [o.pin];
        bound := bound + o.bound;
      }
    }
    assert os[..|pins|] == os;
    JoinedMeans(net.signals, s, AllLegs(os));
  }

  lemma {:induction false} JoinedMeans(now: Signals, s: Signals, legs: seq<Leg>)
    requires Joined(now, s, legs)
    ensures forall n :: At(now, n) == At(s, n) + LegRefs(legs, n)
  {
  }
}
