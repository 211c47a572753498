// tools/socgen/vhdl: which expression trees the parser can return, the tokens they are printed with, and the round trip of every
// expression.

module VhdlExprTheorems {
  import opened Common
  import opened VhdlGrammar

  // ---- The tokens a tree is printed with, in front of a stream ----

  function Tok(k: Kind, r: Stream): Stream { More(KindToken(k), r) }

  function Ahead(s: seq<Token>, r: Stream): Stream {
    if s == [] then r else More(s[0], Ahead(s[1..], r))
  }

  function ExprAhead(e: Expr, r: Stream): Stream
    decreases e, 0
  {
    match e
    case BasicLit(t) => More(t, r)
    case PhysicalLit(v, u) => More(v, More(u, r))
    case Ident(name) => Ahead(name, r)
    case Range(x, d, y) => ExprAhead(x, Tok(d, ExprAhead(y, r)))
    case Binary(x, op, y) => ExprAhead(x, Tok(op, ExprAhead(y, r)))
    case Unary(op, x) => Tok(op, ExprAhead(x, r))
    case Call(f, args) => ExprAhead(f, Tok(LPAREN, AssocsAhead(args, Tok(RPAREN, r))))
    case Selector(x, s) => ExprAhead(x, Tok(DOT, More(s, r)))
    case AttrName(x, a) => ExprAhead(x, Tok(TICK, More(a, r)))
    case Paren(x) => Tok(LPAREN, ExprAhead(x, Tok(RPAREN, r)))
    case Aggregate(es) => Tok(LPAREN, ElemsAhead(es, Tok(RPAREN, r)))
    case Qualified(m, x) => ExprAhead(m, Tok(TICK, ExprAhead(x, r)))
  }

  function AssocsAhead(args: seq<Assoc>, r: Stream): Stream
    decreases args, 1
  {
    if args == [] then r else AssocAhead(args[0], MoreAssocsAhead(args[1..], r))
  }

  function MoreAssocsAhead(args: seq<Assoc>, r: Stream): Stream
    decreases args, 1
  {
    if args == [] then r else Tok(COMMA, AssocAhead(args[0], MoreAssocsAhead(args[1..], r)))
  }

  function AssocAhead(a: Assoc, r: Stream): Stream
    decreases a, 0
  {
    if a.formal.None? then ExprAhead(a.actual, r) else ExprAhead(a.formal.value, Tok(ARROW, ExprAhead(a.actual, r)))
  }

  function ElemsAhead(es: seq<Elem>, r: Stream): Stream
    decreases es, 1
  {
    if es == [] then r else ElemAhead(es[0], MoreElemsAhead(es[1..], r))
  }

  function MoreElemsAhead(es: seq<Elem>, r: Stream): Stream
    decreases es, 1
  {
    if es == [] then r else Tok(COMMA, ElemAhead(es[0], MoreElemsAhead(es[1..], r)))
  }

  function ElemAhead(x: Elem, r: Stream): Stream
    decreases x, 0
  {
    if x.choices == [] then ExprAhead(x.value, r) else ChoicesAhead(x.choices, Tok(ARROW, ExprAhead(x.value, r)))
  }

  function ChoicesAhead(cs: seq<Expr>, r: Stream): Stream
    decreases cs, 1
  {
    if cs == [] then r else ExprAhead(cs[0], MoreChoicesAhead(cs[1..], r))
  }

  function MoreChoicesAhead(cs: seq<Expr>, r: Stream): Stream
    decreases cs, 1
  {
    if cs == [] then r else Tok(BAR, ExprAhead(cs[0], MoreChoicesAhead(cs[1..], r)))
  }

  // ---- Trees by tier. With strict set, a selector never stands directly on a plain dotted name. ----

  predicate IsWord(name: seq<Token>) { |name| == 1 && IsWordPrimary(name[0].kind) && name[0] == KindToken(name[0].kind) }

  predicate IsSegmentToken(t: Token) { IsSegment(t.kind) && t.lit != "" }

  predicate IsAttrToken(t: Token) { IsAttr(t.kind) && t.lit != "" }

  predicate TickTail(s: seq<Token>) {
    s == [] || (|s| >= 2 && s[0] == KindToken(TICK) && IsAttrToken(s[1]) && TickTail(s[2..]))
  }

  predicate DotTail(s: seq<Token>) {
    TickTail(s) || (|s| >= 2 && s[0] == KindToken(DOT) && IsSegmentToken(s[1]) && DotTail(s[2..]))
  }

  /** A token that can head a name. parseName is not always called on an identifier, and takes the spelling of any token. */
  predicate IsHead(t: Token) { t.lit != "" && !IsDelimiter(t.kind) && t.kind != EOF }

  predicate StartsName(t: Token) { (t.kind == IDENT || t.kind == EXTIDENT) && t.lit != "" }

  /** head{.segment}{'attribute} */
  predicate IsFlat(name: seq<Token>) { |name| >= 1 && IsHead(name[0]) && DotTail(name[1..]) }

  predicate Full(e: Expr, strict: bool)
    decreases e, 20
  {
    match e
    case Range(l, d, r) => (d == TO || d == DOWNTO) && Tiered(1, l, strict) && Tiered(1, r, strict)
    case _ => Tiered(1, e, strict)
  }

  /** What tier t's function can return; tier 6 is a factor. */
  predicate Tiered(t: int, e: Expr, strict: bool)
    decreases e, if t <= 6 then 17 - 2 * t else 5
  {
    if t >= 6 then IsFactor(e, strict)
    else match e
      case Binary(x, op, y) => if IsOp(t, op) then Tiered(t, x, strict) && Tiered(t + 1, y, strict) else Tiered(t + 1, e, strict)
      case Unary(op, x) => if t == 4 && IsSign(op) then Tiered(5, x, strict) else Tiered(t + 1, e, strict)
      case _ => Tiered(t + 1, e, strict)
  }

  predicate IsFactor(e: Expr, strict: bool)
    decreases e, 4
  {
    match e
    case Binary(x, op, y) => op == EXP && IsPrimary(x, strict) && IsPrimary(y, strict)
    case Unary(op, x) => (op == ABS || op == NOT) && IsPrimary(x, strict)
    case _ => IsPrimary(e, strict)
  }

  predicate IsPrimary(e: Expr, strict: bool)
    decreases e, 3
  {
    match e
    case BasicLit(t) => IsLiteralKind(t.kind)
    case PhysicalLit(v, u) => IsNumber(v.kind) && u.kind == IDENT
    case Ident(name) => IsWord(name) || (IsFlat(name) && StartsName(name[0]))
    case Paren(x) => Full(x, strict)
    case Aggregate(es) => !(|es| == 1 && es[0].choices == []) && forall x :: x in es ==> IsElem(x, strict)
    case Qualified(_, _) | Call(_, _) | Selector(_, _) | AttrName(_, _) => StartsName(HeadOf(e)) && IsName(e, strict)
    case _ => false
  }

  /** What parseName returns when its first token has a spelling. */
  predicate IsName(e: Expr, strict: bool)
    decreases e, 2
  {
    match e
    case Qualified(m, x) => m.Ident? && IsFlat(m.name) && (x.Paren? || x.Aggregate?) && IsPrimary(x, strict)
    case _ => IsChain(e, strict)
  }

  /** The token a name was parsed from first. */
  function HeadOf(e: Expr): Token {
    match e
    case Ident(name) => if name == [] then Token(EOF, "") else name[0]
    case Call(f, _) => HeadOf(f)
    case Selector(x, _) => HeadOf(x)
    case AttrName(x, _) => HeadOf(x)
    case Qualified(m, _) => HeadOf(m)
    case _ => Token(EOF, "")
  }

  predicate IsElem(x: Elem, strict: bool)
    decreases x, 0
  {
    Full(x.value, strict) && forall c :: c in x.choices ==> Full(c, strict)
  }

  predicate IsAssoc(a: Assoc, strict: bool)
    decreases a, 0
  {
    Full(a.actual, strict) && (a.formal.Some? ==> Full(a.formal.value, true))
  }

  /** A name and its suffixes. */
  predicate IsChain(e: Expr, strict: bool)
    decreases e, 1
  {
    match e
    case Ident(name) => IsFlat(name)
    case Call(f, args) => IsChain(f, strict) && forall a :: a in args ==> IsAssoc(a, strict)
    case Selector(x, s) => IsChain(x, strict) && IsSegmentToken(s) && (strict && x.Ident? ==> HasTick(x.name))
    case AttrName(x, a) => IsChain(x, strict) && !x.Ident? && IsAttrToken(a)
    case _ => false
  }

  predicate AllFull(cs: seq<Expr>, strict: bool) { forall c :: c in cs ==> Full(c, strict) }

  predicate AllAssocs(args: seq<Assoc>, strict: bool) { forall a :: a in args ==> IsAssoc(a, strict) }

  // ---- First tokens ----

  predicate StartsPrimary(k: Kind) { IsLiteralKind(k) || k == LPAREN || k == IDENT || k == EXTIDENT || IsWordPrimary(k) }

  predicate StartsTerm(k: Kind) { StartsPrimary(k) || k == ABS || k == NOT }

  predicate StartsExpr(k: Kind) { StartsTerm(k) || IsSign(k) }

  lemma {:induction false} NameStarts(e: Expr, strict: bool, r: Stream)
    requires IsName(e, strict)
    ensures IsHead(HeadOf(e)) && Cur(ExprAhead(e, r)) == HeadOf(e) && ExprAhead(e, r).More?
    decreases e
  {
    match e
    case Ident(_) =>
    case Call(f, args) => NameStarts(f, strict, Tok(LPAREN, AssocsAhead(args, Tok(RPAREN, r))));
    case Selector(x, s) => NameStarts(x, strict, Tok(DOT, More(s, r)));
    case AttrName(x, a) => NameStarts(x, strict, Tok(TICK, More(a, r)));
    case Qualified(m, x) => NameStarts(m, strict, Tok(TICK, ExprAhead(x, r)));
  }

  lemma {:induction false} PrimaryStarts(e: Expr, strict: bool, r: Stream)
    requires IsPrimary(e, strict)
    ensures StartsPrimary(At(ExprAhead(e, r)))
  {
    if e.Call? || e.Selector? || e.AttrName? || e.Qualified? { NameStarts(e, strict, r); }
  }

  lemma {:induction false} FactorStarts(e: Expr, strict: bool, r: Stream)
    requires IsFactor(e, strict)
    ensures StartsTerm(At(ExprAhead(e, r))) && StartsExpr(At(ExprAhead(e, r)))
  {
    hide IsPrimary;
    if e.Binary? { PrimaryStarts(e.x, strict, Tok(e.op, ExprAhead(e.y, r))); } else if !e.Unary? { PrimaryStarts(e, strict, r); }
  }

  lemma {:induction false} TierStarts(t: nat, e: Expr, strict: bool, r: Stream)
    requires 1 <= t <= 6 && Tiered(t, e, strict)
    ensures StartsExpr(At(ExprAhead(e, r))) && (t >= 5 ==> StartsTerm(At(ExprAhead(e, r))))
    decreases e, 6 - t
  {
    hide IsFactor, IsPrimary;
    if t == 6 {
      FactorStarts(e, strict, r);
    } else if e.Binary? && IsOp(t, e.op) {
      TierStarts(t, e.x, strict, Tok(e.op, ExprAhead(e.y, r)));
    } else if !(e.Unary? && t == 4 && IsSign(e.uop)) {
      TierStarts(t + 1, e, strict, r);
    }
  }

  lemma {:induction false} FullStarts(e: Expr, strict: bool, r: Stream)
    requires Full(e, strict)
    ensures StartsExpr(At(ExprAhead(e, r)))
  {
    if e.Range? { TierStarts(1, e.left, strict, Tok(e.dir, ExprAhead(e.right, r))); } else { TierStarts(1, e, strict, r); }
  }

  // ---- Merging gives the strict trees ----

  lemma {:induction false} TickTailAppend(s: seq<Token>, a: Token)
    requires TickTail(s) && IsAttrToken(a)
    ensures TickTail(s + [KindToken(TICK), a])
  {
    var t := s + [KindToken(TICK), a];
    if s != [] {
      assert t[2..] == s[2..] + [KindToken(TICK), a];
      TickTailAppend(s[2..], a);
    } else {
      assert t[2..] == [];
    }
  }

  lemma {:induction false} DotTailTick(s: seq<Token>, a: Token)
    requires DotTail(s) && IsAttrToken(a)
    ensures DotTail(s + [KindToken(TICK), a])
  {
    if TickTail(s) {
      TickTailAppend(s, a);
    } else {
      assert (s + [KindToken(TICK), a])[2..] == s[2..] + [KindToken(TICK), a];
      DotTailTick(s[2..], a);
    }
  }

  lemma {:induction false} DotTailDot(s: seq<Token>, d: Token)
    requires DotTail(s) && IsSegmentToken(d) && !HasTick(s)
    ensures DotTail(s + [KindToken(DOT), d])
  {
    var t := s + [KindToken(DOT), d];
    if s == [] {
      assert t[2..] == [];
    } else {
      assert s[0].kind != TICK;
      NoTickTail(s, 2);
      assert t[2..] == s[2..] + [KindToken(DOT), d];
      DotTailDot(s[2..], d);
    }
  }

  lemma {:induction false} NoTickTail(s: seq<Token>, n: nat)
    requires !HasTick(s) && n <= |s|
    ensures !HasTick(s[n..])
  {
    forall i | 0 <= i < |s[n..]| ensures s[n..][i].kind != TICK { assert s[n..][i] == s[i + n]; }
  }

  lemma {:induction false} FlatDot(name: seq<Token>, d: Token)
    requires IsFlat(name) && IsSegmentToken(d) && !HasTick(name)
    ensures IsFlat(name + [KindToken(DOT), d])
  {
    assert (name + [KindToken(DOT), d])[1..] == name[1..] + [KindToken(DOT), d];
    NoTickTail(name, 1);
    DotTailDot(name[1..], d);
  }

  lemma {:induction false} FlatTick(name: seq<Token>, a: Token)
    requires IsFlat(name) && IsAttrToken(a)
    ensures IsFlat(name + [KindToken(TICK), a])
  {
    assert (name + [KindToken(TICK), a])[1..] == name[1..] + [KindToken(TICK), a];
    DotTailTick(name[1..], a);
  }

  lemma {:induction false} MergeChain(e: Expr)
    requires IsChain(e, false)
    ensures IsChain(Merge(e), true) && HeadOf(Merge(e)) == HeadOf(e)
    decreases e, 1
  {
    match e
    case Ident(_) =>
    case Call(f, args) => MergeChain(f); MergeAssocsOk(args);
    case Selector(x, s) =>
      MergeChain(x);
      if Merge(x).Ident? && !HasTick(Merge(x).name) { FlatDot(Merge(x).name, s); }
    case AttrName(x, a) =>
      MergeChain(x);
      if Merge(x).Ident? { FlatTick(Merge(x).name, a); }
  }

  lemma {:induction false} MergeAssocsOk(args: seq<Assoc>)
    requires forall a :: a in args ==> IsAssoc(a, false)
    ensures forall a :: a in MergeAssocs(args) ==> IsAssoc(a, true)
    decreases args, 0
  {
    if args != [] {
      MergeAssocOk(args[0]);
      MergeAssocsOk(args[1..]);
    }
  }

  lemma {:induction false} MergeAssocOk(a: Assoc)
    requires IsAssoc(a, false)
    ensures IsAssoc(MergeAssoc(a), true)
    decreases a, 0
  {
    MergeFull(a.actual);
  }

  lemma {:induction false} MergeElemOk(x: Elem)
    requires IsElem(x, false)
    ensures IsElem(MergeElem(x), true)
    decreases x, 0
  {
    MergeFull(x.value);
    MergeAllOk(x.choices);
  }

  lemma {:induction false} MergeAllOk(cs: seq<Expr>)
    requires forall c :: c in cs ==> Full(c, false)
    ensures forall c :: c in MergeAll(cs) ==> Full(c, true)
    decreases cs, 0
  {
    if cs != [] {
      MergeFull(cs[0]);
      MergeAllOk(cs[1..]);
    }
  }

  lemma {:induction false} MergeElemsOk(es: seq<Elem>)
    requires forall x :: x in es ==> IsElem(x, false)
    ensures forall x :: x in MergeElems(es) ==> IsElem(x, true)
    decreases es, 0
  {
    if es != [] {
      MergeElemOk(es[0]);
      MergeElemsOk(es[1..]);
    }
  }

  lemma {:induction false} MergePrimary(e: Expr)
    requires IsPrimary(e, false)
    ensures IsPrimary(Merge(e), true)
    decreases e, 3
  {
    match e
    case Paren(x) => MergeFull(x);
    case Aggregate(es) =>
      MergeElemsOk(es);
      if es != [] { assert MergeElems(es)[0] == MergeElem(es[0]) && |MergeElem(es[0]).choices| == |es[0].choices|; }
    case Call(_, _) => MergeName(e);
    case Selector(_, _) => MergeName(e);
    case AttrName(_, _) => MergeName(e);
    case Qualified(_, _) => MergeName(e);
    case _ =>
  }

  lemma {:induction false} MergeName(e: Expr)
    requires IsName(e, false)
    ensures IsName(Merge(e), true) && HeadOf(Merge(e)) == HeadOf(e) && (!e.Qualified? ==> IsChain(Merge(e), true))
    ensures !e.Ident? && IsPrimary(e, false) ==> IsPrimary(Merge(e), true)
    decreases e, 2
  {
    if e.Qualified? { MergePrimary(e.inner); } else { MergeChain(e); }
  }

  lemma {:induction false} MergeTier(t: nat, e: Expr)
    requires 1 <= t <= 6 && Tiered(t, e, false)
    ensures Tiered(t, Merge(e), true)
    decreases e, 16 - 2 * t
  {
    if t == 6 {
      if e.Binary? {
        MergePrimary(e.x);
        MergePrimary(e.y);
      } else if e.Unary? {
        MergePrimary(e.operand);
      } else {
        MergePrimary(e);
        PrimaryIsTier(6, Merge(e), true);
      }
    } else if e.Binary? && IsOp(t, e.op) {
      MergeTier(t, e.x);
      MergeTier(t + 1, e.y);
    } else if e.Unary? && t == 4 && IsSign(e.uop) {
      MergeTier(5, e.operand);
    } else {
      MergeTier(t + 1, e);
      TierUp(t, Merge(e), true);
    }
  }

  lemma {:induction false} PrimaryIsTier(t: nat, e: Expr, strict: bool)
    requires 1 <= t <= 6 && IsPrimary(e, strict)
    ensures Tiered(t, e, strict)
    decreases 6 - t
  {
    if t < 6 { PrimaryIsTier(t + 1, e, strict); }
  }

  /** What a tier returns, the tier below returns too. */
  lemma {:induction false} TierUp(t: nat, e: Expr, strict: bool)
    requires 1 <= t <= 5 && Tiered(t + 1, e, strict)
    ensures Tiered(t, e, strict)
  {
    if e.Binary? && IsOp(t, e.op) { NotAbove(t + 1, e, strict); }
    if e.Unary? && t == 4 && IsSign(e.uop) { SignNotAbove(5, e, strict); }
  }

  lemma {:induction false} NotAbove(t: nat, e: Expr, strict: bool)
    requires 2 <= t <= 6 && Tiered(t, e, strict) && e.Binary?
    ensures forall u: nat :: u < t ==> !IsOp(u, e.op)
    decreases 6 - t
  {
    if t < 6 && !IsOp(t, e.op) { NotAbove(t + 1, e, strict); }
  }

  lemma {:induction false} SignNotAbove(t: nat, e: Expr, strict: bool)
    requires 5 <= t <= 6 && Tiered(t, e, strict) && e.Unary?
    ensures !IsSign(e.uop)
    decreases 6 - t
  {
    if t == 5 { SignNotAbove(6, e, strict); }
  }

  /** Every tree the loose grammar allows merges to a strict one. */
  lemma {:induction false} MergeFull(e: Expr)
    requires Full(e, false)
    ensures Full(Merge(e), true)
    decreases e, 20
  {
    match e
    case Range(l, _, r) => MergeTier(1, l); MergeTier(1, r);
    case _ => MergeTier(1, e); NoRange(e);
  }

  lemma {:induction false} NoRange(e: Expr)
    requires !e.Range?
    ensures !Merge(e).Range?
  {
  }

  // ---- Strict trees are the merged ones ----

  lemma {:induction false} ChainFixed(e: Expr)
    requires IsChain(e, true)
    ensures Merge(e) == e
    decreases e, 1
  {
    match e
    case Ident(_) =>
    case Call(f, args) => ChainFixed(f); AssocsFixed(args);
    case Selector(x, s) => ChainFixed(x);
    case AttrName(x, a) => ChainFixed(x);
  }

  lemma {:induction false} AssocsFixed(args: seq<Assoc>)
    requires forall a :: a in args ==> IsAssoc(a, true)
    ensures MergeAssocs(args) == args
    decreases args, 0
  {
    if args != [] {
      AssocFixed(args[0]);
      AssocsFixed(args[1..]);
    }
  }

  lemma {:induction false} AssocFixed(a: Assoc)
    requires IsAssoc(a, true)
    ensures MergeAssoc(a) == a
    decreases a, 0
  {
    FullFixed(a.actual);
  }

  lemma {:induction false} ElemsFixed(es: seq<Elem>)
    requires forall x :: x in es ==> IsElem(x, true)
    ensures MergeElems(es) == es
    decreases es, 0
  {
    if es != [] {
      ElemFixed(es[0]);
      ElemsFixed(es[1..]);
    }
  }

  lemma {:induction false} ElemFixed(x: Elem)
    requires IsElem(x, true)
    ensures MergeElem(x) == x
    decreases x, 0
  {
    FullFixed(x.value);
    AllFixed(x.choices);
  }

  lemma {:induction false} AllFixed(cs: seq<Expr>)
    requires forall c :: c in cs ==> Full(c, true)
    ensures MergeAll(cs) == cs
    decreases cs, 0
  {
    if cs != [] {
      FullFixed(cs[0]);
      AllFixed(cs[1..]);
    }
  }

  lemma {:induction false} PrimaryFixed(e: Expr)
    requires IsPrimary(e, true)
    ensures Merge(e) == e
    decreases e, 3
  {
    match e
    case Paren(x) => FullFixed(x);
    case Aggregate(es) => ElemsFixed(es);
    case Qualified(_, _) => NameFixed(e);
    case Call(_, _) => NameFixed(e);
    case Selector(_, _) => NameFixed(e);
    case AttrName(_, _) => NameFixed(e);
    case _ =>
  }

  lemma {:induction false} NameFixed(e: Expr)
    requires IsName(e, true)
    ensures Merge(e) == e
    decreases e, 2
  {
    if e.Qualified? { PrimaryFixed(e.inner); } else { ChainFixed(e); }
  }

  lemma {:induction false} TierFixed(t: nat, e: Expr)
    requires 1 <= t <= 6 && Tiered(t, e, true)
    ensures Merge(e) == e
    decreases e, 16 - 2 * t
  {
    if t == 6 {
      match e
      case Binary(x, _, y) => PrimaryFixed(x); PrimaryFixed(y);
      case Unary(_, x) => PrimaryFixed(x);
      case _ => PrimaryFixed(e);
    } else if e.Binary? && IsOp(t, e.op) {
      TierFixed(t, e.x);
      TierFixed(t + 1, e.y);
    } else if e.Unary? && t == 4 && IsSign(e.uop) {
      TierFixed(5, e.operand);
    } else {
      TierFixed(t + 1, e);
    }
  }

  lemma {:induction false} FullFixed(e: Expr)
    requires Full(e, true)
    ensures Merge(e) == e
    decreases e, 20
  {
    match e
    case Range(l, _, r) => TierFixed(1, l); TierFixed(1, r);
    case _ => TierFixed(1, e);
  }

  // ==== tools/socgen/vhdl: printing an expression and parsing it again.

  /** A token of kind k does not continue what tier t's function has read; tier 0 is the whole expression, 7 a primary. */
  predicate After(t: int, k: Kind) {
    && k != IDENT && k != LPAREN && k != DOT && k != TICK
    && (t <= 6 ==> k != EXP)
    && (t <= 5 && TierOf(k) > 0 ==> TierOf(k) < t)
    && (t == 0 ==> k != TO && k != DOWNTO)
  }

  /** What can follow a name whose suffixes are still to be read. */
  predicate AfterName(e: Expr, r: Stream) {
    (At(r) == TICK ==> !e.Ident?) && (At(r) == DOT && e.Ident? ==> HasTick(e.name))
  }

  /** Tokens that end any expression. */
  predicate IsBreak(k: Kind) {
    k == RPAREN || k == COMMA || k == SEMICOLON || k == BAR || k == ARROW || k == ASSIGN || k == THEN || k == IS || k == LOOP || k == WHEN || k == REPORT
    || k == SEVERITY || k == AFTER || k == RANGE || k == INERTIAL || k == UNTIL || k == FOR
  }

  lemma {:induction false} BreakAfter(k: Kind)
    requires IsBreak(k)
    ensures forall t :: After(t, k)
  {
  }

  lemma {:induction false} OpAfter(t: nat, k: Kind)
    requires IsOp(t, k)
    ensures After(t + 1, k) && k != EXP
  {
  }

  // ---- Flat names ----

  lemma {:induction false} TwoAhead(s: seq<Token>, r: Stream)
    requires |s| >= 2
    ensures Ahead(s, r) == More(s[0], More(s[1], Ahead(s[2..], r)))
  {
    assert s[1..][1..] == s[2..];
  }

  lemma {:induction false} Regroup(name: seq<Token>, s: seq<Token>)
    requires |s| >= 2
    ensures name + [s[0], s[1]] + s[2..] == name + s
  {
  }

  lemma {:induction false} TicksRun(name: seq<Token>, s: seq<Token>, r: Stream)
    requires TickTail(s) && !(At(r) == TICK && IsAttr(Peek(r)))
    ensures Ticks(name, Ahead(s, r)) == (name + s, r)
    decreases |s|
  {
    if s == [] {
      assert name + s == name;
    } else {
      TwoAhead(s, r);
      TicksRun(name + [s[0], s[1]], s[2..], r);
      Regroup(name, s);
    }
  }

  /** The dots and ticks of a flat name are read up to what follows it. */
  lemma {:induction false} FlatRun(name: seq<Token>, s: seq<Token>, r: Stream)
    requires DotTail(s) && !(At(r) == TICK && IsAttr(Peek(r))) && (At(r) == DOT ==> HasTick(s))
    ensures FlatName(name, Ahead(s, r)) == (name + s, r)
    decreases |s|
  {
    if TickTail(s) {
      TicksRun(name, s, r);
    } else {
      TwoAhead(s, r);
      if At(r) == DOT { TickBehind(s, 2); }
      FlatRun(name + [s[0], s[1]], s[2..], r);
      Regroup(name, s);
    }
  }

  /** A tick of s is still there after dropping n tokens that are none. */
  lemma {:induction false} TickBehind(s: seq<Token>, n: nat)
    requires HasTick(s) && n <= |s| && forall i :: 0 <= i < n ==> s[i].kind != TICK
    ensures HasTick(s[n..])
  {
    var i :| 0 <= i < |s| && s[i].kind == TICK;
    assert s[n..][i - n].kind == TICK;
  }

  lemma {:induction false} FlatWhole(name: seq<Token>, r: Stream)
    requires IsFlat(name) && !(At(r) == TICK && IsAttr(Peek(r))) && (At(r) == DOT ==> HasTick(name))
    ensures var ts := Ahead(name, r); At(ts) == name[0].kind && FlatName(Head(Cur(ts)), Adv(ts)) == (name, r)
  {
    hide FlatName, Merge, Len, DotTail, IsAttr;
    if At(r) == DOT { TickBehind(name, 1); }
    FlatRun([name[0]], name[1..], r);
    assert [name[0]] + name[1..] == name;
  }

  // ---- Names with suffixes ----

  lemma {:induction false} ChainRun(e: Expr, r: Stream)
    requires IsChain(e, true) && AfterName(e, r)
    ensures ParseName(ExprAhead(e, r)) == Suffixes(e, r, NO_ERRORS)
    decreases e, 4, 0
  {
    hide ParseName, Suffixes, ParseArgs, FlatName, DotTail, IsAssoc, AssocsAhead, HasTick, IsSegment, IsAttr, Spelled;
    match e
    case Ident(name) =>
      FlatWhole(name, r);
      NameOfFlat(name, r);
    case Call(f, args) =>
      ArgsRun(args, Tok(RPAREN, r));
      ChainRun(f, Tok(LPAREN, AssocsAhead(args, Tok(RPAREN, r))));
      SuffixCall(f, args, AssocsAhead(args, Tok(RPAREN, r)), r);
    case Selector(x, s) =>
      ChainRun(x, Tok(DOT, More(s, r)));
      SuffixDot(x, s, r);
    case AttrName(x, a) =>
      ChainRun(x, Tok(TICK, More(a, r)));
      SuffixTick(x, a, r);
  }

  lemma {:induction false} NameOfFlat(name: seq<Token>, r: Stream)
    requires name != [] && !(At(r) == TICK && Peek(r) == LPAREN)
    requires var ts := Ahead(name, r); FlatName(Head(Cur(ts)), Adv(ts)) == (name, r)
    ensures ParseName(Ahead(name, r)) == Suffixes(Ident(name), r, NO_ERRORS)
  {
    hide Suffixes, FlatName;
  }

  lemma {:induction false} SuffixCall(f: Expr, args: seq<Assoc>, s: Stream, r: Stream)
    requires ParseArgs(s) == R(args, Tok(RPAREN, r), NO_ERRORS)
    ensures Suffixes(f, Tok(LPAREN, s), NO_ERRORS) == Suffixes(Call(f, args), r, NO_ERRORS)
  {
    hide ParseArgs;
  }

  lemma {:induction false} SuffixDot(x: Expr, s: Token, r: Stream)
    requires IsSegment(s.kind) && s.lit != ""
    ensures Suffixes(x, Tok(DOT, More(s, r)), NO_ERRORS) == Suffixes(Selector(x, s), r, NO_ERRORS)
  {
  }

  lemma {:induction false} SuffixTick(x: Expr, a: Token, r: Stream)
    requires IsAttr(a.kind) && a.lit != ""
    ensures Suffixes(x, Tok(TICK, More(a, r)), NO_ERRORS) == Suffixes(AttrName(x, a), r, NO_ERRORS)
  {
  }

  lemma {:induction false} ArgsRun(args: seq<Assoc>, r: Stream)
    requires (forall a :: a in args ==> IsAssoc(a, true)) && At(r) == RPAREN
    ensures ParseArgs(AssocsAhead(args, r)) == R(args, r, NO_ERRORS)
    decreases args, 3
  {
    hide ParseExpr, MoreChoices, ParseName, MoreAssocs, ParseAssoc, IsAssoc, AssocAhead, Merge, Len;
    if args != [] {
      var m := MoreAssocsAhead(args[1..], r);
      AssocRun(args[0], m);
      AssocStarts(args[0], m);
      MoreArgsRun([args[0]], args[1..], r);
      assert [args[0]] + args[1..] == args;
    }
  }

  lemma {:induction false} AssocStarts(a: Assoc, r: Stream)
    requires IsAssoc(a, true)
    ensures StartsExpr(At(AssocAhead(a, r)))
  {
    hide ParseExpr, MoreChoices, ParseName, Full, ExprAhead, Merge, Len, StartsExpr;
    if a.formal.Some? { FullStarts(a.formal.value, true, Tok(ARROW, ExprAhead(a.actual, r))); } else { FullStarts(a.actual, true, r); }
  }

  lemma {:induction false} MoreArgsRun(acc: seq<Assoc>, args: seq<Assoc>, r: Stream)
    requires (forall a :: a in args ==> IsAssoc(a, true)) && At(r) == RPAREN
    ensures MoreAssocs(acc, MoreAssocsAhead(args, r), NO_ERRORS) == R(acc + args, r, NO_ERRORS)
    decreases args, 2
  {
    hide ParseExpr, MoreChoices, ParseName, ParseAssoc, IsAssoc, AssocAhead, Merge, Len;
    if args == [] {
      assert acc + args == acc;
    } else {
      AssocRun(args[0], MoreAssocsAhead(args[1..], r));
      MoreArgsRun(acc + [args[0]], args[1..], r);
      assert acc + [args[0]] + args[1..] == acc + args;
    }
  }

  lemma {:induction false} AssocRun(a: Assoc, r: Stream)
    requires IsAssoc(a, true) && (At(r) == COMMA || At(r) == RPAREN)
    ensures ParseAssoc(AssocAhead(a, r)) == R(a, r, NO_ERRORS)
    decreases a, 1
  {
    hide ParseExpr, MoreChoices, ParseName, Full, ExprAhead, Merge, Len, After;
    BreakAfter(At(r));
    FullRun(a.actual, r);
    if a.formal.Some? {
      BreakAfter(ARROW);
      FullRun(a.formal.value, Tok(ARROW, ExprAhead(a.actual, r)));
      FullFixed(a.formal.value);
    }
  }

  // ---- Parentheses and aggregates ----

  lemma {:induction false} ParenRun(e: Expr, r: Stream)
    requires (e.Paren? || e.Aggregate?) && IsPrimary(e, true)
    ensures At(ExprAhead(e, r)) == LPAREN && ParseParen(ExprAhead(e, r)) == R(e, r, NO_ERRORS)
    decreases e, 1
  {
    hide ParseExpr, ParseParen, MoreChoices, ParseName, Full, IsName, IsElem, AssocsAhead, ElemsAhead, Ahead, Merge, IsFlat, Len, ParseElems;
    if e.Paren? {
      FullStarts(e.inner, true, Tok(RPAREN, r));
      FullRun(e.inner, Tok(RPAREN, r));
      SingleRun(ExprAhead(e.inner, Tok(RPAREN, r)), e.inner, r);
    } else {
      ElemsRun(e.elems, Tok(RPAREN, r));
      AggregateRun(ElemsAhead(e.elems, Tok(RPAREN, r)), e.elems, r);
    }
  }

  lemma {:induction false} SingleRun(ts: Stream, x: Expr, r: Stream)
    requires At(ts) != RPAREN && ParseExpr(ts) == R(x, Tok(RPAREN, r), NO_ERRORS)
    ensures ParseParen(Tok(LPAREN, ts)) == R(Paren(x), r, NO_ERRORS)
  {
    hide ParseExpr, ParseElem, MoreChoices, ParseName, Merge, Len;
    PositionalElem(ts, x, Tok(RPAREN, r));
    assert MoreElems([Elem([], x)], Tok(RPAREN, r), 0) == R([Elem([], x)], Tok(RPAREN, r), 0);
  }

  lemma {:induction false} AggregateRun(ts: Stream, es: seq<Elem>, r: Stream)
    requires !(|es| == 1 && es[0].choices == [])
    requires ParseElems(ts) == R(es, Tok(RPAREN, r), NO_ERRORS)
    ensures ParseParen(Tok(LPAREN, ts)) == R(Aggregate(es), r, NO_ERRORS)
  {
    hide ParseExpr, MoreChoices, ParseName, Merge, Len, ParseElems;
  }

  lemma {:induction false} PositionalElem(ts: Stream, x: Expr, r: Stream)
    requires ParseExpr(ts) == R(x, r, NO_ERRORS) && At(r) != BAR && At(r) != ARROW
    ensures ParseElem(ts) == R(Elem([], x), r, NO_ERRORS)
  {
    hide ParseExpr, MoreChoices, Len;
  }

  lemma {:induction false} ElemsRun(es: seq<Elem>, r: Stream)
    requires (forall x :: x in es ==> IsElem(x, true)) && At(r) == RPAREN
    ensures ParseElems(ElemsAhead(es, r)) == R(es, r, NO_ERRORS)
    decreases es, 3
  {
    hide ParseExpr, MoreElems, ParseElem, MoreChoices, ParseName, IsElem, ElemAhead, Merge, Len;
    if es != [] {
      var m := MoreElemsAhead(es[1..], r);
      ElemRun(es[0], m);
      ElemStarts(es[0], m);
      MoreElemsRun([es[0]], es[1..], r);
      assert [es[0]] + es[1..] == es;
    }
  }

  lemma {:induction false} ElemStarts(x: Elem, r: Stream)
    requires IsElem(x, true)
    ensures StartsExpr(At(ElemAhead(x, r)))
  {
    hide ParseExpr, MoreChoices, ParseName, Full, ExprAhead, MoreChoicesAhead, Merge, Len, StartsExpr;
    if x.choices == [] {
      FullStarts(x.value, true, r);
    } else {
      FullStarts(x.choices[0], true, MoreChoicesAhead(x.choices[1..], Tok(ARROW, ExprAhead(x.value, r))));
    }
  }

  lemma {:induction false} MoreElemsRun(acc: seq<Elem>, es: seq<Elem>, r: Stream)
    requires (forall x :: x in es ==> IsElem(x, true)) && At(r) == RPAREN
    ensures MoreElems(acc, MoreElemsAhead(es, r), NO_ERRORS) == R(acc + es, r, NO_ERRORS)
    decreases es, 2
  {
    hide ParseElem, IsElem, ElemAhead, MoreElems;
    if es == [] {
      assert acc + es == acc;
      NoMoreElems(acc, r);
    } else {
      var m := MoreElemsAhead(es[1..], r);
      ElemStarts(es[0], m);
      ElemRun(es[0], m);
      MoreElemsRun(acc + [es[0]], es[1..], r);
      MoreElemsStep(acc, es[0], m);
      assert acc + [es[0]] + es[1..] == acc + es;
    }
  }

  lemma {:induction false} NoMoreElems(acc: seq<Elem>, r: Stream)
    requires At(r) == RPAREN
    ensures MoreElems(acc, r, NO_ERRORS) == R(acc, r, NO_ERRORS)
  {
  }

  lemma {:induction false} MoreElemsStep(acc: seq<Elem>, x: Elem, m: Stream)
    requires ParseElem(ElemAhead(x, m)) == R(x, m, NO_ERRORS) && At(ElemAhead(x, m)) != RPAREN
    ensures MoreElems(acc, Tok(COMMA, ElemAhead(x, m)), NO_ERRORS) == MoreElems(acc + [x], m, NO_ERRORS)
  {
    hide ParseElem, ElemAhead;
  }

  lemma {:induction false} ElemRun(x: Elem, r: Stream)
    requires IsElem(x, true) && (At(r) == COMMA || At(r) == RPAREN)
    ensures ParseElem(ElemAhead(x, r)) == R(x, r, NO_ERRORS)
    decreases x, 1
  {
    hide ParseExpr, MoreChoices, ParseName, Full, ExprAhead, Merge, Len, After;
    BreakAfter(At(r));
    FullRun(x.value, r);
    if x.choices != [] {
      var cs, t := x.choices, Tok(ARROW, ExprAhead(x.value, r));
      BreakAfter(At(MoreChoicesAhead(cs[1..], t)));
      FullRun(cs[0], MoreChoicesAhead(cs[1..], t));
      MoreChoicesRun([cs[0]], cs[1..], t);
      assert [cs[0]] + cs[1..] == cs;
    }
  }

  /** The further alternatives of a choice list, up to the arrow. */
  lemma {:induction false} MoreChoicesRun(acc: seq<Expr>, cs: seq<Expr>, r: Stream)
    requires (forall c :: c in cs ==> Full(c, true)) && At(r) == ARROW
    ensures MoreChoices(acc, MoreChoicesAhead(cs, r), NO_ERRORS) == R(acc + cs, r, NO_ERRORS)
    decreases cs, 2
  {
    hide ParseExpr, ParseName, Full, ExprAhead, Merge, Len, After;
    if cs == [] {
      assert acc + cs == acc;
    } else {
      BreakAfter(At(MoreChoicesAhead(cs[1..], r)));
      FullRun(cs[0], MoreChoicesAhead(cs[1..], r));
      MoreChoicesRun(acc + [cs[0]], cs[1..], r);
      assert acc + [cs[0]] + cs[1..] == acc + cs;
    }
  }

  // ---- Primaries, factors and tiers ----

  lemma {:induction false} PrimaryRun(e: Expr, r: Stream)
    requires IsPrimary(e, true) && After(7, At(r))
    ensures ParsePrimary(ExprAhead(e, r)) == R(e, r, NO_ERRORS)
    decreases e, 5
  {
    hide ParseExpr, ParsePrimary, ParseParen, MoreChoices, ParseName, IsPrimary, IsName, ExprAhead, Merge, Len, TierOf;
    if e.BasicLit? || e.PhysicalLit? || (e.Ident? && IsWord(e.name)) {
      LiteralRun(e, r);
    } else if e.Paren? || e.Aggregate? {
      ParenRun(e, r);
      PrimaryAtParen(ExprAhead(e, r));
    } else {
      PrimaryIsName(e, true);
      NamePrimaryRun(e, r);
    }
  }

  lemma {:induction false} PrimaryIsName(e: Expr, strict: bool)
    requires IsPrimary(e, strict) && !(e.BasicLit? || e.PhysicalLit? || e.Paren? || e.Aggregate? || (e.Ident? && IsWord(e.name)))
    ensures IsName(e, strict) && StartsName(HeadOf(e))
  {
    hide ParseExpr, MoreChoices, ParseName, Full, IsElem, IsAssoc, Merge, HasTick, Len, DotTail, IsAttr;
  }

  lemma {:induction false} LiteralRun(e: Expr, r: Stream)
    requires (e.BasicLit? || e.PhysicalLit? || (e.Ident? && IsWord(e.name))) && IsPrimary(e, true) && After(7, At(r))
    ensures ParsePrimary(ExprAhead(e, r)) == R(e, r, NO_ERRORS)
  {
    hide ParseExpr, ParseParen, MoreChoices, ParseName, Full, IsName, IsElem, AssocsAhead, ElemsAhead, Ahead, Merge, IsFlat, Len, TierOf;
    if e.Ident? { WordRun(e.name, r); }
  }

  lemma {:induction false} PrimaryAtParen(ts: Stream)
    requires At(ts) == LPAREN
    ensures ParsePrimary(ts) == ParseParen(ts)
  {
    hide ParseExpr, ParseParen, MoreChoices, ParseName, Merge, Len;
  }

  lemma {:induction false} PrimaryAtName(ts: Stream)
    requires StartsName(Cur(ts))
    ensures ParsePrimary(ts) == ParseName(ts)
  {
    hide ParseExpr, ParseParen, MoreChoices, ParseName, Merge, Len;
  }

  lemma {:induction false} WordRun(name: seq<Token>, r: Stream)
    requires IsWord(name)
    ensures ParsePrimary(Ahead(name, r)) == R(Ident(name), r, NO_ERRORS)
  {
    hide ParseExpr, ParseParen, MoreChoices, ParseName, Merge, Len;
    assert name == [name[0]] && name[1..] == [];
  }

  /** A name, whatever its first token, is read up to what cannot continue it. */
  lemma {:induction false} NameRun(e: Expr, r: Stream)
    requires IsName(e, true) && After(7, At(r))
    ensures ParseName(ExprAhead(e, r)) == R(e, r, NO_ERRORS)
    decreases e, 4, 1
  {
    hide ParseName, IsPrimary, IsChain, ExprAhead, IsFlat, HasTick, Len, TierOf, IsAttr, ParseArgs;
    if e.Qualified? { QualifiedRun(e, r); } else { ChainRun(e, r); }
  }

  lemma {:induction false} NamePrimaryRun(e: Expr, r: Stream)
    requires IsName(e, true) && StartsName(HeadOf(e)) && After(7, At(r))
    ensures ParsePrimary(ExprAhead(e, r)) == R(e, r, NO_ERRORS)
    decreases e, 4, 2
  {
    hide ParsePrimary, ParseName, IsName, ExprAhead, Len, TierOf;
    NameStarts(e, true, r);
    PrimaryAtName(ExprAhead(e, r));
    NameRun(e, r);
  }

  lemma {:induction false} QualifiedRun(e: Expr, r: Stream)
    requires e.Qualified? && IsName(e, true)
    ensures ParseName(ExprAhead(e, r)) == R(e, r, NO_ERRORS)
    decreases e, 2
  {
    hide ParseExpr, ParseParen, MoreChoices, ParseName, IsPrimary, IsChain, AssocsAhead, ElemsAhead, Ahead, Merge, IsFlat, Len;
    ParenRun(e.inner, r);
    QualifiedName(e.mark.name, e.inner, ExprAhead(e.inner, r), r);
    assert ExprAhead(e, r) == ExprAhead(Ident(e.mark.name), Tok(TICK, ExprAhead(e.inner, r)));
  }

  /** A tick in front of a parenthesis is no attribute. */
  lemma {:induction false} QualifiedName(name: seq<Token>, x: Expr, ts: Stream, r: Stream)
    requires IsFlat(name) && At(ts) == LPAREN && ParseParen(ts) == R(x, r, NO_ERRORS)
    ensures ParseName(Ahead(name, Tok(TICK, ts))) == R(Qualified(Ident(name), x), r, NO_ERRORS)
  {
    hide ParseExpr, ParseParen, MoreChoices, FlatName, Suffixes, Merge, HasTick, Len, DotTail;
    FlatWhole(name, Tok(TICK, ts));
  }

  lemma {:induction false} FactorRun(e: Expr, r: Stream)
    requires IsFactor(e, true) && After(6, At(r))
    ensures ParseFactor(ExprAhead(e, r)) == R(e, r, NO_ERRORS)
    decreases e, 6
  {
    hide ParseExpr, ParsePrimary, MoreChoices, ParseName, IsPrimary, AssocsAhead, ElemsAhead, Ahead, Merge, Len, TierOf, StartsPrimary;
    if e.Binary? {
      PowerRun(e, r);
    } else if e.Unary? {
      PrimaryRun(e.operand, r);
    } else {
      PrimaryStarts(e, true, r);
      PrimaryRun(e, r);
      FactorAtPrimary(ExprAhead(e, r));
    }
  }

  lemma {:induction false} FactorAtPrimary(ts: Stream)
    requires StartsPrimary(At(ts)) && At(ParsePrimary(ts).rest) != EXP
    ensures ParseFactor(ts) == ParsePrimary(ts)
  {
    hide ParsePrimary, Len;
  }

  lemma {:induction false} PowerRun(e: Expr, r: Stream)
    requires IsFactor(e, true) && e.Binary? && After(7, At(r))
    ensures ParseFactor(ExprAhead(e, r)) == R(e, r, NO_ERRORS)
    decreases e, 5
  {
    hide ParseExpr, ParsePrimary, MoreChoices, ParseName, IsPrimary, AssocsAhead, ElemsAhead, Ahead, Merge, Len;
    var t := Tok(EXP, ExprAhead(e.y, r));
    PrimaryRun(e.y, r);
    PrimaryStarts(e.x, true, t);
    PrimaryRun(e.x, t);
  }

  /** The operand of tier t is read back whole. */
  lemma {:induction false} OperandRun(t: nat, e: Expr, r: Stream)
    requires 1 <= t <= 5 && Tiered(t + 1, e, true) && After(t + 1, At(r))
    ensures ParseOperand(t, ExprAhead(e, r)) == R(e, r, NO_ERRORS)
    decreases e, 17 - 2 * t
  {
    hide ParseTier, FoldTier, ParseFactor, IsFactor, ExprAhead, Len, TierOf;
    if t == 5 { FactorRun(e, r); } else { TierRun(t + 1, e, r); FoldEnd(t + 1, e, r); }
  }

  /** One turn of a tier's loop. */
  lemma {:induction false} FoldStep(t: nat, x: Expr, op: Kind, y: Expr, ts: Stream, r: Stream)
    requires 1 <= t <= 5 && IsOp(t, op) && ParseOperand(t, ts) == R(y, r, NO_ERRORS)
    ensures FoldTier(t, x, Tok(op, ts), NO_ERRORS) == FoldTier(t, Binary(x, op, y), r, NO_ERRORS)
  {
    hide ParseExpr, ParseOperand, MoreChoices, ParseName, Merge, Len, TierOf;
  }

  /** The start of a tier: its first operand, with a sign in the adding tier. */
  lemma {:induction false} TierStart(t: nat, e: Expr, ts: Stream, r: Stream)
    requires 1 <= t <= 5 && !(t == 4 && IsSign(At(ts))) && ParseOperand(t, ts) == R(e, r, NO_ERRORS)
    ensures ParseTier(t, ts) == FoldTier(t, e, r, NO_ERRORS)
  {
    hide ParseOperand, FoldTier, Len;
  }

  lemma {:induction false} SignedStart(op: Kind, x: Expr, ts: Stream, r: Stream)
    requires IsSign(op) && ParseTier(5, ts) == R(x, r, NO_ERRORS)
    ensures ParseTier(4, Tok(op, ts)) == FoldTier(4, Unary(op, x), r, NO_ERRORS)
  {
    hide ParseExpr, ParseOperand, FoldTier, MoreChoices, ParseName, Merge, Len;
  }

  lemma {:induction false} FoldEnd(t: nat, e: Expr, r: Stream)
    requires 1 <= t <= 5 && After(t, At(r))
    ensures FoldTier(t, e, r, NO_ERRORS) == R(e, r, NO_ERRORS)
  {
    hide ParseOperand, Len, TierOf;
  }

  /** Reading a printed tier-t tree leaves the tier's loop with that tree folded and the rest to read. */
  lemma {:induction false} TierRun(t: nat, e: Expr, r: Stream)
    requires 1 <= t <= 5 && Tiered(t, e, true) && After(t + 1, At(r))
    ensures ParseTier(t, ExprAhead(e, r)) == FoldTier(t, e, r, NO_ERRORS)
    decreases e, 18 - 2 * t
  {
    hide ParseTier, ParseOperand, FoldTier, Tiered, ExprAhead, TierOf, StartsExpr;
    TieredParts(t, e);
    TierAhead(e, r);
    if e.Binary? && IsOp(t, e.op) {
      OpAfter(t, e.op);
      OperandRun(t, e.y, r);
      TierRun(t, e.x, Tok(e.op, ExprAhead(e.y, r)));
      FoldStep(t, e.x, e.op, e.y, ExprAhead(e.y, r), r);
    } else if e.Unary? && t == 4 && IsSign(e.uop) {
      TierRun(5, e.operand, r);
      FoldEnd(5, e.operand, r);
      SignedStart(e.uop, e.operand, ExprAhead(e.operand, r), r);
    } else {
      TierStarts(t + 1, e, true, r);
      OperandRun(t, e, r);
      TierStart(t, e, ExprAhead(e, r), r);
    }
  }

  /** Every strict tree, printed in front of anything that cannot continue an expression, is read back as itself. */
  lemma {:induction false} TieredParts(t: nat, e: Expr)
    requires 1 <= t <= 5 && Tiered(t, e, true)
    ensures if e.Binary? && IsOp(t, e.op) then Tiered(t, e.x, true) && Tiered(t + 1, e.y, true)
            else if e.Unary? && t == 4 && IsSign(e.uop) then Tiered(5, e.operand, true) else Tiered(t + 1, e, true)
  {
    hide IsFactor;
  }

  lemma {:induction false} TierAhead(e: Expr, r: Stream)
    ensures e.Binary? ==> ExprAhead(e, r) == ExprAhead(e.x, Tok(e.op, ExprAhead(e.y, r)))
    ensures e.Unary? ==> ExprAhead(e, r) == Tok(e.uop, ExprAhead(e.operand, r))
  {
    hide AssocsAhead, ElemsAhead, Ahead;
  }

  lemma {:induction false} FullRun(e: Expr, r: Stream)
    requires Full(e, true) && After(0, At(r))
    ensures ParseExpr(ExprAhead(e, r)) == R(e, r, NO_ERRORS)
    decreases e, 20
  {
    hide ParseTier, FoldTier, MoreChoices, ParseName, Tiered, AssocsAhead, ElemsAhead, Ahead, Merge, Len;
    if e.Range? {
      TierRun(1, e.right, r);
      FoldEnd(1, e.right, r);
      TierRun(1, e.left, Tok(e.dir, ExprAhead(e.right, r)));
      FoldEnd(1, e.left, Tok(e.dir, ExprAhead(e.right, r)));
    } else {
      TierRun(1, e, r);
      FoldEnd(1, e, r);
    }
  }

  // ==== tools/socgen/vhdl/parser.go: what the expression parser can return when it records no error, and the round trip of its trees.

  /** Only delimiters come without a spelling. */
  predicate Spelt(t: Token) { t.kind != EOF && (t.lit == "" <==> IsDelimiter(t.kind)) }

  /** Tokens as the lexer makes them; with strict set, no two dots in a row. */
  predicate Clean(ts: Stream, strict: bool) {
    ts.Done? || (Spelt(ts.head) && (strict ==> !(ts.head.kind == DOT && At(ts.tail) == DOT)) && Clean(ts.tail, strict))
  }

  lemma {:induction false} CleanLoose(ts: Stream, strict: bool)
    requires Clean(ts, strict)
    ensures Clean(ts, false)
    decreases ts
  {
    if ts.More? { CleanLoose(ts.tail, strict); }
  }

  lemma {:induction false} CleanPair(ts: Stream, strict: bool)
    requires Clean(ts, strict) && (IsSegment(Peek(ts)) || IsAttr(Peek(ts)))
    ensures Clean(Adv(Adv(ts)), strict) && Cur(Adv(ts)).lit != "" && Spelled(Cur(Adv(ts))) == Cur(Adv(ts)) && Len(Adv(Adv(ts))) < Len(ts)
  {
  }

  // ---- Names ----

  lemma {:induction false} DotsSound(name: seq<Token>, ts: Stream, strict: bool)
    requires Clean(ts, strict) && IsFlat(name) && !HasTick(name)
    ensures var (n, r) := Dots(name, ts); IsFlat(n) && n[0] == name[0] && !HasTick(n) && Clean(r, strict) && (strict ==> At(r) != DOT)
    decreases Len(ts)
  {
    hide ParseExpr, MoreChoices, ParseName, Merge, TierOf, DotTail;
    if At(ts) == DOT && IsSegment(At(Adv(ts))) {
      var d := Cur(Adv(ts));
      CleanPair(ts, strict);
      FlatDot(name, d);
      DotsSound(name + [KindToken(DOT), d], Adv(Adv(ts)), strict);
    }
  }

  lemma {:induction false} TicksSound(name: seq<Token>, ts: Stream, strict: bool)
    requires Clean(ts, strict) && IsFlat(name) && (strict && At(ts) == DOT ==> HasTick(name))
    ensures var (n, r) := Ticks(name, ts); IsFlat(n) && n[0] == name[0] && Clean(r, strict) && (strict && At(r) == DOT ==> HasTick(n)) && !(At(r) == TICK && IsAttr(Peek(r)))
    decreases Len(ts)
  {
    hide ParseExpr, MoreChoices, ParseName, Merge, TierOf, DotTail;
    if At(ts) == TICK && IsAttr(Peek(ts)) {
      var a := Cur(Adv(ts));
      CleanPair(ts, strict);
      FlatTick(name, a);
      assert (name + [KindToken(TICK), a])[|name|].kind == TICK;
      TicksSound(name + [KindToken(TICK), a], Adv(Adv(ts)), strict);
    }
  }

  lemma {:induction false} FlatSound(ts: Stream, strict: bool)
    requires Clean(ts, strict) && IsHead(Cur(ts))
    ensures var (n, r) := FlatName(Head(Cur(ts)), Adv(ts));
            IsFlat(n) && n[0] == Cur(ts) && Clean(r, strict) && (strict && At(r) == DOT ==> HasTick(n)) && !(At(r) == TICK && IsAttr(Peek(r)))
  {
    hide ParseExpr, MoreChoices, Dots, Ticks, ParseName, Merge, TierOf;
    var n := [Cur(ts)];
    assert n[1..] == [];
    DotsSound(n, Adv(ts), strict);
    TicksSound(Dots(n, Adv(ts)).0, Dots(n, Adv(ts)).1, strict);
  }

  lemma {:induction false} NameSound(ts: Stream, strict: bool)
    requires Clean(ts, strict) && IsHead(Cur(ts)) && ParseName(ts).errs == 0
    ensures IsName(ParseName(ts).v, strict) && HeadOf(ParseName(ts).v) == Cur(ts) && Clean(ParseName(ts).rest, strict)
    decreases Len(ts), 2
  {
    hide ParseParen, FlatName, Suffixes, IsPrimary, IsAssoc, HasTick, TierOf, DotTail;
    FlatSound(ts, strict);
    var (n, r) := FlatName(Head(Cur(ts)), Adv(ts));
    if At(r) == TICK && Peek(r) == LPAREN {
      ParenSound(Adv(r), strict);
    } else {
      SuffixesSound(Ident(n), r, 0, strict);
      ChainIsName(Suffixes(Ident(n), r, 0).v, strict);
    }
  }

  lemma {:induction false} SuffixesSound(e: Expr, ts: Stream, errs: nat, strict: bool)
    requires Clean(ts, strict) && IsChain(e, strict) && Suffixes(e, ts, errs).errs == 0
    requires e.Ident? ==> !(At(ts) == TICK && IsAttr(Peek(ts))) && (strict && At(ts) == DOT ==> HasTick(e.name))
    ensures IsChain(Suffixes(e, ts, errs).v, strict) && HeadOf(Suffixes(e, ts, errs).v) == HeadOf(e) && Clean(Suffixes(e, ts, errs).rest, strict)
    decreases Len(ts), 1
  {
    hide Suffixes, IsAssoc, IsFlat, HasTick, TierOf;
    SuffixUnfold(e, ts, errs);
    if At(ts) == LPAREN {
      CallSound(e, ts, errs, strict);
    } else if At(ts) == DOT && IsSegment(Peek(ts)) {
      CleanPair(ts, strict);
      SuffixesSound(Selector(e, Cur(Adv(ts))), Adv(Adv(ts)), errs, strict);
    } else if At(ts) == TICK && IsAttr(Peek(ts)) {
      CleanPair(ts, strict);
      SuffixesSound(AttrName(e, Cur(Adv(ts))), Adv(Adv(ts)), errs, strict);
    }
  }

  lemma {:induction false} SuffixUnfold(e: Expr, ts: Stream, errs: nat)
    requires Suffixes(e, ts, errs).errs == 0
    ensures At(ts) == DOT && IsSegment(Peek(ts)) ==> Suffixes(e, ts, errs) == Suffixes(Selector(e, Spelled(Cur(Adv(ts)))), Adv(Adv(ts)), errs)
    ensures At(ts) == TICK && IsAttr(Peek(ts)) ==> Suffixes(e, ts, errs) == Suffixes(AttrName(e, Spelled(Cur(Adv(ts)))), Adv(Adv(ts)), errs)
    ensures At(ts) == LPAREN || (At(ts) == DOT && IsSegment(Peek(ts))) || (At(ts) == TICK && IsAttr(Peek(ts)))
            || (Suffixes(e, ts, errs).v == e && Suffixes(e, ts, errs).rest == ts)
  {
    hide ParseArgs;
  }

  lemma {:induction false} CallSound(e: Expr, ts: Stream, errs: nat, strict: bool)
    requires Clean(ts, strict) && IsChain(e, strict) && Suffixes(e, ts, errs).errs == 0 && At(ts) == LPAREN
    ensures IsChain(Suffixes(e, ts, errs).v, strict) && HeadOf(Suffixes(e, ts, errs).v) == HeadOf(e) && Clean(Suffixes(e, ts, errs).rest, strict)
    decreases Len(ts), 0
  {
    hide Suffixes, ParseArgs, IsAssoc, IsFlat, HasTick, TierOf;
    CallUnfold(e, ts, errs);
    var args := ParseArgs(Adv(ts));
    ArgsSound(Adv(ts), strict);
    SuffixesSound(Call(e, args.v), Expect(RPAREN, args.rest).rest, errs, strict);
  }

  lemma {:induction false} CallUnfold(e: Expr, ts: Stream, errs: nat)
    requires Suffixes(e, ts, errs).errs == 0 && At(ts) == LPAREN
    ensures var args := ParseArgs(Adv(ts));
            args.errs == 0 && Expect(RPAREN, args.rest).errs == 0
            && Suffixes(e, ts, errs) == Suffixes(Call(e, args.v), Expect(RPAREN, args.rest).rest, errs)
  {
    hide ParseArgs;
  }

  lemma {:induction false} ChainIsName(e: Expr, strict: bool)
    requires IsChain(e, strict)
    ensures IsName(e, strict)
  {
    hide IsPrimary, IsAssoc, IsFlat, HasTick;
  }

  lemma {:induction false} ArgsSound(t: Stream, strict: bool)
    requires Clean(t, strict) && ParseArgs(t).errs == 0
    ensures AllAssocs(ParseArgs(t).v, strict) && Clean(ParseArgs(t).rest, strict)
    decreases Len(t), 23
  {
    hide MoreAssocs, ParseAssoc, IsAssoc, TierOf;
    if At(t) != RPAREN {
      var a := ParseAssoc(t);
      AssocSound(t, strict);
      MoreAssocsSound([a.v], a.rest, strict);
    }
  }

  lemma {:induction false} MoreAssocsSound(acc: seq<Assoc>, ts: Stream, strict: bool)
    requires Clean(ts, strict) && AllAssocs(acc, strict) && MoreAssocs(acc, ts, NO_ERRORS).errs == 0
    ensures AllAssocs(MoreAssocs(acc, ts, NO_ERRORS).v, strict) && Clean(MoreAssocs(acc, ts, NO_ERRORS).rest, strict)
    decreases Len(ts), 0
  {
    hide ParseAssoc, IsAssoc, TierOf;
    if At(ts) == COMMA {
      var a := ParseAssoc(Adv(ts));
      AssocSound(Adv(ts), strict);
      MoreAssocsSound(acc + [a.v], a.rest, strict);
    }
  }

  lemma {:induction false} AssocSound(ts: Stream, strict: bool)
    requires Clean(ts, strict) && ParseAssoc(ts).errs == 0
    ensures IsAssoc(ParseAssoc(ts).v, strict) && Clean(ParseAssoc(ts).rest, strict)
    decreases Len(ts), 22
  {
    hide ParseExpr, Full, Merge, TierOf;
    var x := ParseExpr(ts);
    ExprSound(ts, strict);
    if At(x.rest) == ARROW {
      ExprSound(Adv(x.rest), strict);
      CleanLoose(ts, strict);
      ExprSound(ts, false);
      MergeFull(x.v);
    }
  }

  // ---- Parentheses ----

  predicate AllElems(es: seq<Elem>, strict: bool) { forall x :: x in es ==> IsElem(x, strict) }

  lemma {:induction false} ParenSound(ts: Stream, strict: bool)
    requires Clean(ts, strict) && At(ts) == LPAREN && ParseParen(ts).errs == 0
    ensures var p := ParseParen(ts); (p.v.Paren? || p.v.Aggregate?) && IsPrimary(p.v, strict) && Clean(p.rest, strict)
    decreases Len(ts), 1
  {
    hide ParseExpr, ParseElems, MoreChoices, ParseName, Full, IsChain, Merge, IsFlat, TierOf;
    var es := ParseElems(Adv(ts));
    ElemsSound(Adv(ts), strict);
    if |es.v| == 1 && es.v[0].choices == [] { assert IsElem(es.v[0], strict); }
  }

  lemma {:induction false} ElemsSound(t: Stream, strict: bool)
    requires Clean(t, strict) && ParseElems(t).errs == 0
    ensures AllElems(ParseElems(t).v, strict) && Clean(ParseElems(t).rest, strict)
    decreases Len(t), 23
  {
    hide MoreElems, ParseElem, IsElem, TierOf;
    if At(t) != RPAREN {
      var e := ParseElem(t);
      ElemSound(t, strict);
      MoreElemsSound([e.v], e.rest, strict);
    }
  }

  lemma {:induction false} MoreElemsSound(acc: seq<Elem>, ts: Stream, strict: bool)
    requires Clean(ts, strict) && AllElems(acc, strict) && MoreElems(acc, ts, NO_ERRORS).errs == 0
    ensures AllElems(MoreElems(acc, ts, NO_ERRORS).v, strict) && Clean(MoreElems(acc, ts, NO_ERRORS).rest, strict)
    decreases Len(ts), 0
  {
    hide ParseElem, IsElem, TierOf;
    if At(ts) == COMMA && At(Adv(ts)) != RPAREN {
      var e := ParseElem(Adv(ts));
      ElemSound(Adv(ts), strict);
      MoreElemsSound(acc + [e.v], e.rest, strict);
    }
  }

  lemma {:induction false} ElemSound(ts: Stream, strict: bool)
    requires Clean(ts, strict) && ParseElem(ts).errs == 0
    ensures IsElem(ParseElem(ts).v, strict) && Clean(ParseElem(ts).rest, strict)
    decreases Len(ts), 22
  {
    hide ParseExpr, MoreChoices, Full, TierOf;
    var x := ParseExpr(ts);
    if At(x.rest) == BAR || At(x.rest) == ARROW {
      var cs := MoreChoices([x.v], x.rest, x.errs);
      ExprSound(ts, strict);
      MoreChoicesSound([x.v], x.rest, strict);
      ExprSound(Expect(ARROW, cs.rest).rest, strict);
    } else {
      ExprSound(ts, strict);
    }
  }

  lemma {:induction false} MoreChoicesSound(acc: seq<Expr>, ts: Stream, strict: bool)
    requires Clean(ts, strict) && AllFull(acc, strict) && MoreChoices(acc, ts, NO_ERRORS).errs == 0
    ensures AllFull(MoreChoices(acc, ts, NO_ERRORS).v, strict) && Clean(MoreChoices(acc, ts, NO_ERRORS).rest, strict)
    decreases Len(ts), 0
  {
    hide ParseExpr, Full, TierOf;
    if At(ts) == BAR {
      var x := ParseExpr(Adv(ts));
      ExprSound(Adv(ts), strict);
      MoreChoicesSound(acc + [x.v], x.rest, strict);
    }
  }

  // ---- Tiers ----

  lemma {:induction false} LiteralSound(ts: Stream, strict: bool)
    requires Clean(ts, strict) && ParsePrimary(ts).errs == 0 && At(ts) != LPAREN && At(ts) != IDENT && At(ts) != EXTIDENT
    ensures IsPrimary(ParsePrimary(ts).v, strict) && Clean(ParsePrimary(ts).rest, strict)
  {
    hide ParseExpr, ParseParen, MoreChoices, ParseName, Full, IsName, IsElem, Merge, IsFlat, TierOf;
  }

  lemma {:induction false} PrimarySound(ts: Stream, strict: bool)
    requires Clean(ts, strict) && ParsePrimary(ts).errs == 0
    ensures IsPrimary(ParsePrimary(ts).v, strict) && Clean(ParsePrimary(ts).rest, strict)
    decreases Len(ts), 3
  {
    hide ParsePrimary, ParseParen, ParseName, IsPrimary, IsName, TierOf;
    var k := At(ts);
    if k == LPAREN {
      PrimaryAtParen(ts);
      ParenSound(ts, strict);
    } else if k == IDENT || k == EXTIDENT {
      PrimaryAtName(ts);
      NameSound(ts, strict);
      NameIsPrimary(ParseName(ts).v, strict);
    } else {
      LiteralSound(ts, strict);
    }
  }

  lemma {:induction false} NameIsPrimary(e: Expr, strict: bool)
    requires IsName(e, strict) && StartsName(HeadOf(e))
    ensures IsPrimary(e, strict)
  {
    hide ParseExpr, MoreChoices, ParseName, Full, IsElem, IsAssoc, Merge, IsFlat, HasTick;
  }

  lemma {:induction false} FactorSound(ts: Stream, strict: bool)
    requires Clean(ts, strict) && ParseFactor(ts).errs == 0
    ensures Tiered(6, ParseFactor(ts).v, strict) && Clean(ParseFactor(ts).rest, strict)
    decreases Len(ts), 4
  {
    hide ParsePrimary, IsPrimary, TierOf;
    if At(ts) == ABS || At(ts) == NOT {
      PrimarySound(Adv(ts), strict);
    } else {
      var x := ParsePrimary(ts);
      PrimarySound(ts, strict);
      if At(x.rest) == EXP { PrimarySound(Adv(x.rest), strict); } else { PrimaryIsTier(6, x.v, strict); }
    }
  }

  lemma {:induction false} OperandSound(t: nat, ts: Stream, strict: bool)
    requires 1 <= t <= 5 && Clean(ts, strict) && ParseOperand(t, ts).errs == 0
    ensures Tiered(t + 1, ParseOperand(t, ts).v, strict) && Clean(ParseOperand(t, ts).rest, strict)
    decreases Len(ts), 15 - 2 * t
  {
    hide ParseTier, ParseFactor, Tiered, TierOf;
    if t == 5 { FactorSound(ts, strict); } else { TierSound(t + 1, ts, strict); }
  }

  lemma {:induction false} FoldUnfold(t: nat, left: Expr, ts: Stream)
    requires FoldTier(t, left, ts, NO_ERRORS).errs == 0
    ensures if IsOp(t, At(ts)) then ts.More? && ParseOperand(t, Adv(ts)).errs == 0 && (var y := ParseOperand(t, Adv(ts));
              FoldTier(t, left, ts, NO_ERRORS) == FoldTier(t, Binary(left, At(ts), y.v), y.rest, NO_ERRORS))
            else FoldTier(t, left, ts, NO_ERRORS) == R(left, ts, NO_ERRORS)
  {
    OpIsThere(t, ts);
    hide ParseOperand, IsOp, TierOf, At, Len;
  }

  lemma {:induction false} OpIsThere(t: nat, ts: Stream)
    ensures IsOp(t, At(ts)) ==> ts.More?
  {
  }

  lemma {:induction false} FoldSound(t: nat, left: Expr, ts: Stream, strict: bool)
    requires 1 <= t <= 5 && Clean(ts, strict) && Tiered(t, left, strict) && FoldTier(t, left, ts, NO_ERRORS).errs == 0
    ensures Tiered(t, FoldTier(t, left, ts, NO_ERRORS).v, strict) && Clean(FoldTier(t, left, ts, NO_ERRORS).rest, strict)
    decreases Len(ts), 0
  {
    FoldUnfold(t, left, ts);
    hide ParseOperand, FoldTier, IsFactor, TierOf;
    if IsOp(t, At(ts)) {
      var y := ParseOperand(t, Adv(ts));
      OperandSound(t, Adv(ts), strict);
      FoldSound(t, Binary(left, At(ts), y.v), y.rest, strict);
    }
  }

  lemma {:induction false} TierSound(t: nat, ts: Stream, strict: bool)
    requires 1 <= t <= 5 && Clean(ts, strict) && ParseTier(t, ts).errs == 0
    ensures Tiered(t, ParseTier(t, ts).v, strict) && Clean(ParseTier(t, ts).rest, strict)
    decreases Len(ts), 16 - 2 * t
  {
    hide ParseOperand, FoldTier, IsFactor, TierOf;
    if t == 4 && IsSign(At(ts)) {
      var x := ParseTier(5, Adv(ts));
      TierSound(5, Adv(ts), strict);
      FoldSound(4, Unary(At(ts), x.v), x.rest, strict);
    } else {
      var x := ParseOperand(t, ts);
      OperandSound(t, ts, strict);
      TierUp(t, x.v, strict);
      FoldSound(t, x.v, x.rest, strict);
    }
  }

  /** Without an error the parser returns a tree of the grammar, and a strict one when no two dots stand in a row. */
  lemma {:induction false} ExprSound(ts: Stream, strict: bool)
    requires Clean(ts, strict) && ParseExpr(ts).errs == 0
    ensures Full(ParseExpr(ts).v, strict) && Clean(ParseExpr(ts).rest, strict)
    decreases Len(ts), 20
  {
    hide ParseTier, Tiered, TierOf;
    var l := ParseTier(1, ts);
    TierSound(1, ts, strict);
    if At(l.rest) == TO || At(l.rest) == DOWNTO {
      TierSound(1, Adv(l.rest), strict);
    } else {
      if l.v.Range? { RangeIsNoTier(1, l.v, strict); }
    }
  }

  lemma {:induction false} RangeIsNoTier(t: nat, e: Expr, strict: bool)
    requires 1 <= t <= 6 && e.Range?
    ensures !Tiered(t, e, strict)
    decreases 6 - t
  {
    if t == 6 { assert !IsPrimary(e, strict); } else { RangeIsNoTier(t + 1, e, strict); }
  }

  // ==== tools/socgen/vhdl: the printed pieces of an expression, and the round trip of every expression that parses.

  /** The tokens of a printed text. */
  function Tokens(t: Text): Stream {
    match t
    case Empty => Done
    case T(tok, more) => More(tok, Tokens(more))
    case W(_, more) => Tokens(more)
  }

  lemma {:induction false} SpacedTokens(k: Kind, r: Text)
    ensures Tokens(Spaced(k, r)) == Tok(k, Tokens(r)) && Tokens(K(k, Sp(r))) == Tok(k, Tokens(r)) && Tokens(K(k, r)) == Tok(k, Tokens(r))
  {
    assert Tokens(Sp(r)) == Tokens(r);
    assert Tokens(K(k, Sp(r))) == Tok(k, Tokens(Sp(r)));
  }

  lemma {:induction false} PairTokens(k: Kind, t: Token, r: Text)
    ensures Tokens(K(k, T(t, r))) == Tok(k, More(t, Tokens(r)))
  {
    assert Tokens(T(t, r)) == More(t, Tokens(r));
  }

  lemma {:induction false} NameTokens(s: seq<Token>, r: Text)
    ensures Tokens(PrintName(s, r)) == Ahead(s, Tokens(r))
  {
    if s != [] { NameTokens(s[1..], r); }
  }

  /** A tree is printed with exactly its tokens. */
  lemma {:induction false} ExprTokens(e: Expr, r: Text)
    ensures Tokens(PrintExpr(e, r)) == ExprAhead(e, Tokens(r))
    decreases e, 0
  {
    match e
    case BasicLit(_) =>
    case PhysicalLit(v, u) => assert Tokens(Sp(T(u, r))) == Tokens(T(u, r)) == More(u, Tokens(r));
    case Ident(name) => NameTokens(name, r);
    case Range(l, d, h) => ExprTokens(h, r); SpacedTokens(d, PrintExpr(h, r)); ExprTokens(l, Spaced(d, PrintExpr(h, r)));
    case Binary(x, op, y) => ExprTokens(y, r); SpacedTokens(op, PrintExpr(y, r)); ExprTokens(x, Spaced(op, PrintExpr(y, r)));
    case Unary(op, x) => ExprTokens(x, r); SpacedTokens(op, PrintExpr(x, r));
    case Call(f, args) =>
      SpacedTokens(RPAREN, r);
      AssocsTokens(args, K(RPAREN, r));
      SpacedTokens(LPAREN, PrintAssocs(args, K(RPAREN, r)));
      ExprTokens(f, K(LPAREN, PrintAssocs(args, K(RPAREN, r))));
    case Selector(x, s) => PairTokens(DOT, s, r); ExprTokens(x, K(DOT, T(s, r)));
    case AttrName(x, a) => PairTokens(TICK, a, r); ExprTokens(x, K(TICK, T(a, r)));
    case Paren(x) => SpacedTokens(RPAREN, r); ExprTokens(x, K(RPAREN, r)); SpacedTokens(LPAREN, PrintExpr(x, K(RPAREN, r)));
    case Aggregate(es) => SpacedTokens(RPAREN, r); ElemsTokens(es, K(RPAREN, r)); SpacedTokens(LPAREN, PrintElems(es, K(RPAREN, r)));
    case Qualified(m, x) => ExprTokens(x, r); SpacedTokens(TICK, PrintExpr(x, r)); ExprTokens(m, K(TICK, PrintExpr(x, r)));
  }

  lemma {:induction false} AssocTokens(a: Assoc, r: Text)
    ensures Tokens(PrintAssoc(a, r)) == AssocAhead(a, Tokens(r))
    decreases a, 0
  {
    ExprTokens(a.actual, r);
    if a.formal.Some? {
      SpacedTokens(ARROW, PrintExpr(a.actual, r));
      ExprTokens(a.formal.value, Spaced(ARROW, PrintExpr(a.actual, r)));
    }
  }

  lemma {:induction false} AssocsTokens(args: seq<Assoc>, r: Text)
    ensures Tokens(PrintAssocs(args, r)) == AssocsAhead(args, Tokens(r)) && Tokens(PrintMoreAssocs(args, r)) == MoreAssocsAhead(args, Tokens(r))
    decreases args, 1
  {
    if args != [] {
      AssocsTokens(args[1..], r);
      AssocTokens(args[0], PrintMoreAssocs(args[1..], r));
      SpacedTokens(COMMA, PrintAssoc(args[0], PrintMoreAssocs(args[1..], r)));
    }
  }

  lemma {:induction false} ElemTokens(x: Elem, r: Text)
    ensures Tokens(PrintElem(x, r)) == ElemAhead(x, Tokens(r))
    decreases x, 0
  {
    ExprTokens(x.value, r);
    SpacedTokens(ARROW, PrintExpr(x.value, r));
    ChoicesTokens(x.choices, Spaced(ARROW, PrintExpr(x.value, r)));
  }

  lemma {:induction false} ElemsTokens(es: seq<Elem>, r: Text)
    ensures Tokens(PrintElems(es, r)) == ElemsAhead(es, Tokens(r)) && Tokens(PrintMoreElems(es, r)) == MoreElemsAhead(es, Tokens(r))
    decreases es, 1
  {
    if es != [] {
      ElemsTokens(es[1..], r);
      ElemTokens(es[0], PrintMoreElems(es[1..], r));
      SpacedTokens(COMMA, PrintElem(es[0], PrintMoreElems(es[1..], r)));
    }
  }

  lemma {:induction false} ChoicesTokens(cs: seq<Expr>, r: Text)
    ensures Tokens(PrintChoices(cs, r)) == ChoicesAhead(cs, Tokens(r)) && Tokens(PrintMoreChoices(cs, r)) == MoreChoicesAhead(cs, Tokens(r))
    decreases cs, 1
  {
    if cs != [] {
      ChoicesTokens(cs[1..], r);
      ExprTokens(cs[0], PrintMoreChoices(cs[1..], r));
      SpacedTokens(BAR, PrintExpr(cs[0], PrintMoreChoices(cs[1..], r)));
    }
  }

  /** A text that gives back the tokens of a stream. */
  function Plain(r: Stream): (t: Text)
    ensures Tokens(t) == r
  {
    if r.Done? then Empty else T(r.head, Plain(r.tail))
  }

  lemma {:induction false} MergeAhead(e: Expr, r: Stream)
    ensures ExprAhead(Merge(e), r) == ExprAhead(e, r)
  {
    ExprTokens(e, Plain(r));
    ExprTokens(Merge(e), Plain(r));
    PrintMerge(e, Plain(r));
  }

  // ---- The theorems ----

  /** Printing an expression that parsed without error and parsing the print gives the merged tree, whatever follows it
      that cannot continue an expression. */
  lemma {:induction false} PrintThenParse(ts: Stream, r: Stream)
    requires Clean(ts, false) && ParseExpr(ts).errs == 0 && After(0, At(r))
    ensures ParseExpr(ExprAhead(ParseExpr(ts).v, r)) == R(Merge(ParseExpr(ts).v), r, NO_ERRORS)
  {
    var e := ParseExpr(ts).v;
    ExprSound(ts, false);
    MergeFull(e);
    FullRun(Merge(e), r);
    MergeAhead(e, r);
  }

  /** So the tree itself comes back exactly when it has no selector directly on a plain dotted name. */
  lemma {:induction false} RoundTripExact(ts: Stream, r: Stream)
    requires Clean(ts, false) && ParseExpr(ts).errs == 0 && After(0, At(r))
    ensures ParseExpr(ExprAhead(ParseExpr(ts).v, r)) == R(ParseExpr(ts).v, r, NO_ERRORS) <==> Full(ParseExpr(ts).v, true)
  {
    var e := ParseExpr(ts).v;
    PrintThenParse(ts, r);
    ExprSound(ts, false);
    MergeFull(e);
    if Full(e, true) { FullFixed(e); }
  }

  /** Which a caller can rule out before parsing: such a selector needs two dots in a row. */
  lemma {:induction false} RoundTrip(ts: Stream, r: Stream)
    requires Clean(ts, true) && ParseExpr(ts).errs == 0 && After(0, At(r))
    ensures ParseExpr(ExprAhead(ParseExpr(ts).v, r)) == R(ParseExpr(ts).v, r, NO_ERRORS)
  {
    CleanLoose(ts, true);
    ExprSound(ts, true);
    RoundTripExact(ts, r);
  }

  /** For any two identifiers, a..b is read without an error as b selected from a, and printed as the dotted name a.b. */
  lemma {:induction false} DoubleDotFails(a: Token, b: Token)
    requires StartsName(a) && StartsName(b)
    ensures var ts := More(a, Tok(DOT, Tok(DOT, More(b, Done))));
            ParseExpr(ts) == R(Selector(Ident([a]), b), Done, NO_ERRORS) &&
            ParseExpr(ExprAhead(Selector(Ident([a]), b), Done)) == R(Ident([a] + [KindToken(DOT), b]), Done, NO_ERRORS)
  {
    hide ParseExpr, ParseName;
    var ts := More(a, Tok(DOT, Tok(DOT, More(b, Done))));
    DoubleDotName(a, b);
    NameAlone(ts, Selector(Ident([a]), b));
    assert Clean(More(b, Done), false);
    assert Clean(Tok(DOT, More(b, Done)), false);
    assert Clean(ts.tail, false);
    PrintThenParse(ts, Done);
  }

  lemma {:induction false} DoubleDotName(a: Token, b: Token)
    requires StartsName(a) && StartsName(b)
    ensures ParseName(More(a, Tok(DOT, Tok(DOT, More(b, Done))))) == R(Selector(Ident([a]), b), Done, NO_ERRORS)
  {
    var t := Tok(DOT, More(b, Done));
    assert Dots([a], Tok(DOT, t)) == ([a], t);
    assert Ticks([a], t) == ([a], t);
    assert Suffixes(Selector(Ident([a]), b), Done, 0) == R(Selector(Ident([a]), b), Done, 0);
    assert Suffixes(Ident([a]), t, 0) == R(Selector(Ident([a]), b), Done, 0);
  }

  /** A name that ends the stream is the whole expression. */
  lemma {:induction false} NameAlone(ts: Stream, e: Expr)
    requires StartsName(Cur(ts)) && ParseName(ts) == R(e, Done, NO_ERRORS)
    ensures ParseExpr(ts) == R(e, Done, NO_ERRORS)
  {
    PrimaryAtName(ts);
    FactorAtPrimary(ts);
    NameAloneTier(5, ts, e);
    NameAloneTier(4, ts, e);
    NameAloneTier(3, ts, e);
    NameAloneTier(2, ts, e);
    NameAloneTier(1, ts, e);
  }

  lemma {:induction false} NameAloneTier(t: nat, ts: Stream, e: Expr)
    requires 1 <= t <= 5 && StartsName(Cur(ts))
    requires (if t == 5 then ParseFactor(ts) else ParseTier(t + 1, ts)) == R(e, Done, NO_ERRORS)
    ensures ParseTier(t, ts) == R(e, Done, NO_ERRORS)
  {
    TierStart(t, e, ts, Done);
    FoldEnd(t, e, Done);
  }
}
