// tools/socgen/vhdl/parser.go: which operators bind tighter. The levels are written out here once more, operator by operator.

module VhdlPrecedence {
  import opened Common
  import opened VhdlGrammar
  import opened VhdlExprTheorems

  predicate Logical(k: Kind) { k == AND || k == OR || k == NAND || k == NOR || k == XOR || k == XNOR }

  predicate Relational(k: Kind) { k == EQ || k == NE || k == LT || k == LE || k == GT || k == GE }

  predicate Shifting(k: Kind) { k == SLL || k == SRL || k == SLA || k == SRA || k == ROL || k == ROR }

  predicate Adding(k: Kind) { k == PLUS || k == MINUS || k == AMP }

  predicate Multiplying(k: Kind) { k == STAR || k == SLASH || k == MOD || k == REM }

  /** From the loosest to the tightest: and, =, sll, +, * and **; 0 for what is no binary operator. */
  function Level(op: Kind): int {
    if Logical(op) then 1
    else if Relational(op) then 2
    else if Shifting(op) then 3
    else if Adding(op) then 4
    else if Multiplying(op) then 5
    else if op == EXP then 6
    else 0
  }

  /** The level of an expression's outermost operator that stands bare, without parentheses around it: a sign binds like an adding
      operator, abs and not like **; a range is below all, and what has no bare operator above all. */
  function Bare(e: Expr): int {
    match e
    case Range(_, _, _) => 0
    case Binary(_, op, _) => Level(op)
    case Unary(op, _) => if op == PLUS || op == MINUS then 4 else 6
    case _ => 7
  }

  /** A left operand binds as tight as its operator or tighter, and a right one tighter; the operands of ** are primaries, a sign's
      operand is a term, and that of abs and not a primary; the bounds of a range are no ranges. */
  predicate Tight(e: Expr) {
    match e
    case Range(l, d, r) => (d == TO || d == DOWNTO) && Bare(l) > 0 && Bare(r) > 0
    case Binary(x, op, y) => Level(op) > 0 && Bare(x) >= (if op == EXP then 7 else Level(op)) && Bare(y) > Level(op)
    case Unary(op, x) => if op == PLUS || op == MINUS then Bare(x) >= 5 else (op == ABS || op == NOT) && Bare(x) == 7
    case _ => true
  }

  /** The same everywhere inside. */
  predicate AllTight(e: Expr)
    decreases e, 0
  {
    Tight(e) && match e
    case Range(l, _, r) => AllTight(l) && AllTight(r)
    case Binary(x, _, y) => AllTight(x) && AllTight(y)
    case Unary(_, x) => AllTight(x)
    case Call(f, args) => AllTight(f) && forall a :: a in args ==> AssocTight(a)
    case Selector(x, _) => AllTight(x)
    case AttrName(x, _) => AllTight(x)
    case Paren(x) => AllTight(x)
    case Aggregate(es) => forall x :: x in es ==> ElemTight(x)
    case Qualified(m, x) => AllTight(m) && AllTight(x)
    case _ => true
  }

  predicate AssocTight(a: Assoc)
    decreases a, 0
  {
    AllTight(a.actual) && (a.formal.Some? ==> AllTight(a.formal.value))
  }

  predicate ElemTight(x: Elem)
    decreases x, 0
  {
    AllTight(x.value) && forall c :: c in x.choices ==> AllTight(c)
  }

  lemma {:induction false} LevelIsTier(op: Kind)
    ensures 1 <= Level(op) <= 5 ==> IsOp(Level(op), op)
    ensures forall t: int :: IsOp(t, op) ==> t == Level(op) && 1 <= t <= 5 && op != EXP
  {
  }

  lemma {:induction false} FullTight(e: Expr, strict: bool)
    requires Full(e, strict)
    ensures AllTight(e)
    decreases e, 20
  {
    hide Tiered, IsOp, TierOf;
    if e.Range? {
      TierTight(1, e.left, strict);
      TierTight(1, e.right, strict);
    } else {
      TierTight(1, e, strict);
    }
  }

  lemma {:induction false} TierTight(t: int, e: Expr, strict: bool)
    requires 1 <= t <= 6 && Tiered(t, e, strict)
    ensures AllTight(e) && Bare(e) >= t
    decreases e, 17 - 2 * t
  {
    hide IsFactor, TierOf, Level, AssocTight, ElemTight;
    if t == 6 {
      FactorTight(e, strict);
    } else if e.Binary? && IsOp(t, e.op) {
      LevelIsTier(e.op);
      TierTight(t, e.x, strict);
      TierTight(t + 1, e.y, strict);
    } else if e.Unary? && t == 4 && IsSign(e.uop) {
      TierTight(5, e.operand, strict);
    } else {
      TierTight(t + 1, e, strict);
    }
  }

  lemma {:induction false} FactorTight(e: Expr, strict: bool)
    requires IsFactor(e, strict)
    ensures AllTight(e) && Bare(e) >= 6
    decreases e, 4
  {
    hide IsPrimary, AssocTight, ElemTight;
    if e.Binary? {
      PrimaryTight(e.x, strict);
      PrimaryTight(e.y, strict);
    } else if e.Unary? {
      PrimaryTight(e.operand, strict);
    } else {
      PrimaryTight(e, strict);
    }
  }

  lemma {:induction false} PrimaryTight(e: Expr, strict: bool)
    requires IsPrimary(e, strict)
    ensures AllTight(e) && Bare(e) == 7
    decreases e, 3
  {
    hide IsName, IsElem, Full, AssocTight, ElemTight;
    match e
    case Paren(x) => FullTight(x, strict);
    case Aggregate(es) => forall x | x in es ensures ElemTight(x) { ElemsTight(x, strict); }
    case Qualified(_, _) => NameTight(e, strict);
    case Call(_, _) => NameTight(e, strict);
    case Selector(_, _) => NameTight(e, strict);
    case AttrName(_, _) => NameTight(e, strict);
    case _ =>
  }

  lemma {:induction false} ElemsTight(x: Elem, strict: bool)
    requires IsElem(x, strict)
    ensures ElemTight(x)
    decreases x, 0
  {
    hide Full, AllTight;
    FullTight(x.value, strict);
    forall c | c in x.choices ensures AllTight(c) { FullTight(c, strict); }
  }

  lemma {:induction false} AssocsTight(a: Assoc, strict: bool)
    requires IsAssoc(a, strict)
    ensures AssocTight(a)
    decreases a, 0
  {
    hide Full, AllTight;
    FullTight(a.actual, strict);
    if a.formal.Some? { FullTight(a.formal.value, true); }
  }

  lemma {:induction false} NameTight(e: Expr, strict: bool)
    requires IsName(e, strict)
    ensures AllTight(e)
    decreases e, 2
  {
    hide IsPrimary, IsChain, AssocTight, ElemTight;
    if e.Qualified? { PrimaryTight(e.inner, strict); } else { ChainTight(e, strict); }
  }

  lemma {:induction false} ChainTight(e: Expr, strict: bool)
    requires IsChain(e, strict)
    ensures AllTight(e)
    decreases e, 1
  {
    hide IsAssoc, AssocTight, ElemTight, IsFlat;
    match e
    case Call(f, args) =>
      ChainTight(f, strict);
      forall a | a in args ensures AssocTight(a) { AssocsTight(a, strict); }
    case Selector(x, _) => ChainTight(x, strict);
    case AttrName(x, _) => ChainTight(x, strict);
    case _ =>
  }

  /** Every tree that is parsed without an error binds like this, everywhere. */
  lemma {:induction false} ParsedTight(ts: Stream)
    requires Clean(ts, false) && ParseExpr(ts).errs == 0
    ensures AllTight(ParseExpr(ts).v)
  {
    hide ParseExpr, Full, AllTight, Clean;
    ExprSound(ts, false);
    FullTight(ParseExpr(ts).v, false);
  }

  // ---- Two operators in a row ----

  /** a op b oq c, in front of r: the first operator takes its operands first exactly when it binds as tight or tighter. */
  lemma {:induction false} TwoOperators(a: Expr, op: Kind, b: Expr, oq: Kind, c: Expr, r: Stream)
    requires IsPrimary(a, true) && IsPrimary(b, true) && IsPrimary(c, true) && After(0, At(r))
    requires 1 <= Level(op) <= 5 && 1 <= Level(oq) <= 5
    ensures ParseExpr(ExprAhead(a, Tok(op, ExprAhead(b, Tok(oq, ExprAhead(c, r)))))) ==
            R(if Level(op) >= Level(oq) then Binary(Binary(a, op, b), oq, c) else Binary(a, op, Binary(b, oq, c)), r, NO_ERRORS)
  {
    hide ParseExpr, IsPrimary, Level, IsOp, After;
    LevelIsTier(op);
    LevelIsTier(oq);
    var t, u := Level(op), Level(oq);
    var ab, bc := Binary(a, op, b), Binary(b, oq, c);
    BinaryAhead(a, op, b, Tok(oq, ExprAhead(c, r)));
    BinaryAhead(b, oq, c, r);
    if t >= u {
      BinaryTiered(t, a, op, b);
      TierDown(t, u, ab);
      PrimaryTiered(u + 1, c);
      BinaryTiered2(u, ab, oq, c);
      BinaryAhead(ab, oq, c, r);
      FullRun(Binary(ab, oq, c), r);
    } else {
      BinaryTiered(u, b, oq, c);
      TierDown(u, t + 1, bc);
      PrimaryTiered(t, a);
      BinaryTiered2(t, a, op, bc);
      BinaryAhead(a, op, bc, r);
      FullRun(Binary(a, op, bc), r);
    }
  }

  /** A sign in front takes the products behind it, and nothing looser. */
  lemma {:induction false} SignedOperator(sign: Kind, a: Expr, op: Kind, b: Expr, r: Stream)
    requires IsPrimary(a, true) && IsPrimary(b, true) && After(0, At(r)) && (sign == PLUS || sign == MINUS) && 1 <= Level(op) <= 5
    ensures ParseExpr(Tok(sign, ExprAhead(a, Tok(op, ExprAhead(b, r))))) ==
            R(if Level(op) == 5 then Unary(sign, Binary(a, op, b)) else Binary(Unary(sign, a), op, b), r, NO_ERRORS)
  {
    hide ParseExpr, IsPrimary, Level, IsOp, After;
    LevelIsTier(op);
    var t := Level(op);
    if t == 5 {
      BinaryTiered(5, a, op, b);
      SignTiered(1, sign, Binary(a, op, b));
      BinaryAhead(a, op, b, r);
      FullRun(Unary(sign, Binary(a, op, b)), r);
    } else {
      PrimaryTiered(5, a);
      SignTiered(t, sign, a);
      PrimaryTiered(t + 1, b);
      BinaryTiered2(t, Unary(sign, a), op, b);
      BinaryAhead(Unary(sign, a), op, b, r);
      FullRun(Binary(Unary(sign, a), op, b), r);
    }
  }

  lemma {:induction false} SignTiered(t: int, sign: Kind, x: Expr)
    requires 1 <= t <= 4 && (sign == PLUS || sign == MINUS) && Tiered(5, x, true)
    ensures Tiered(t, Unary(sign, x), true)
    decreases 4 - t
  {
    hide TierOf;
    if t < 4 { SignTiered(t + 1, sign, x); }
  }

  lemma {:induction false} BinaryAhead(x: Expr, op: Kind, y: Expr, r: Stream)
    ensures ExprAhead(Binary(x, op, y), r) == ExprAhead(x, Tok(op, ExprAhead(y, r)))
  {
  }

  lemma {:induction false} PrimaryTiered(t: int, e: Expr)
    requires 1 <= t <= 6 && IsPrimary(e, true)
    ensures Tiered(t, e, true)
    decreases 6 - t
  {
    PrimaryNoOperator(e);
    hide IsPrimary;
    if t < 6 { PrimaryTiered(t + 1, e); }
  }

  lemma {:induction false} PrimaryNoOperator(e: Expr)
    requires IsPrimary(e, true)
    ensures !e.Binary? && !e.Unary? && !e.Range?
  {
  }

  lemma {:induction false} BinaryTiered(t: int, x: Expr, op: Kind, y: Expr)
    requires IsOp(t, op) && 1 <= t <= 5 && IsPrimary(x, true) && IsPrimary(y, true)
    ensures Tiered(t, Binary(x, op, y), true)
  {
    hide IsPrimary, TierOf;
    PrimaryTiered(t, x);
    PrimaryTiered(t + 1, y);
  }

  /** A tree of a tier is one of every looser tier, and of the whole grammar. */
  lemma {:induction false} TierDown(t: int, u: int, e: Expr)
    requires 1 <= u <= t <= 5 && Tiered(t, e, true) && e.Binary? && IsOp(t, e.op)
    ensures Tiered(u, e, true)
    decreases t - u
  {
    hide TierOf;
    if u < t { TierDown(t, u + 1, e); }
  }

  lemma {:induction false} BinaryTiered2(t: int, x: Expr, op: Kind, y: Expr)
    requires 1 <= t <= 5 && IsOp(t, op) && Tiered(t, x, true) && Tiered(t + 1, y, true)
    ensures Full(Binary(x, op, y), true)
  {
    hide TierOf;
    TierDown(t, 1, Binary(x, op, y));
  }

  // ---- What stands between operators ----

  predicate IsNameToken(t: Token) { (t.kind == IDENT || t.kind == EXTIDENT) && t.lit != "" }

  /** Literals, numbers with a unit, the words that are values, and names with a further segment or an attribute are expressions. */
  lemma {:induction false} AtomsAreRead(t: Token, u: Token, r: Stream)
    requires After(0, At(r))
    ensures t.kind in {INT, REAL, BASEDLIT, CHARLIT, STRINGLIT, BITSTRINGLIT} ==> ParseExpr(More(t, r)) == R(BasicLit(t), r, NO_ERRORS)
    ensures t.kind in {INT, REAL, BASEDLIT} && u.kind == IDENT ==> ParseExpr(More(t, More(u, r))) == R(PhysicalLit(t, u), r, NO_ERRORS)
    ensures t.kind in {OTHERS, ALL, RANGE, NULL, OPEN} && t == KindToken(t.kind) ==> ParseExpr(More(t, r)) == R(Ident([t]), r, NO_ERRORS)
    ensures IsNameToken(t) ==> ParseExpr(More(t, r)) == R(Ident([t]), r, NO_ERRORS)
    ensures IsNameToken(t) && u.kind in {IDENT, EXTIDENT, ALL} && u.lit != "" ==>
              ParseExpr(More(t, Tok(DOT, More(u, r)))) == R(Ident([t, KindToken(DOT), u]), r, NO_ERRORS)
    ensures IsNameToken(t) && (u.kind == IDENT || u.kind == EXTIDENT || ABS <= u.kind <= OTHERWORD) && u.lit != "" ==>
              ParseExpr(More(t, Tok(TICK, More(u, r)))) == R(Ident([t, KindToken(TICK), u]), r, NO_ERRORS)
  {
    hide ParseExpr, After, WordOf;
    if t.kind in {INT, REAL, BASEDLIT, CHARLIT, STRINGLIT, BITSTRINGLIT} { AtomRead(BasicLit(t), r); }
    if t.kind in {INT, REAL, BASEDLIT} && u.kind == IDENT { AtomRead(PhysicalLit(t, u), r); }
    if t.kind in {OTHERS, ALL, RANGE, NULL, OPEN} && t == KindToken(t.kind) { OneAhead(t, r); AtomRead(Ident([t]), r); }
    if IsNameToken(t) {
      OneAhead(t, r);
      AtomRead(Ident([t]), r);
      PairAhead(t, KindToken(DOT), u, r);
      PairAhead(t, KindToken(TICK), u, r);
      if u.kind in {IDENT, EXTIDENT, ALL} && u.lit != "" { DottedRead(t, u, r); }
      if (u.kind == IDENT || u.kind == EXTIDENT || ABS <= u.kind <= OTHERWORD) && u.lit != "" { TickedRead(t, u, r); }
    }
  }

  lemma {:induction false} AtomRead(e: Expr, r: Stream)
    requires IsPrimary(e, true) && After(0, At(r))
    ensures ParseExpr(ExprAhead(e, r)) == R(e, r, NO_ERRORS)
  {
    hide ParseExpr, IsPrimary, After, ExprAhead;
    PrimaryNoOperator(e);
    PrimaryTiered(1, e);
    FullRun(e, r);
  }

  lemma {:induction false} OneAhead(t: Token, r: Stream)
    ensures ExprAhead(Ident([t]), r) == More(t, r)
  {
    assert [t][1..] == [] && Ahead([t], r) == More(t, Ahead([], r));
  }

  lemma {:induction false} PairAhead(t: Token, k: Token, u: Token, r: Stream)
    ensures ExprAhead(Ident([t, k, u]), r) == More(t, More(k, More(u, r)))
  {
    assert [t, k, u][1..] == [k, u] && [k, u][1..] == [u] && [u][1..] == [];
    assert Ahead([u], r) == More(u, Ahead([], r));
    assert Ahead([k, u], r) == More(k, Ahead([u], r));
    assert Ahead([t, k, u], r) == More(t, Ahead([k, u], r));
  }

  lemma {:induction false} DottedRead(t: Token, u: Token, r: Stream)
    requires IsNameToken(t) && u.kind in {IDENT, EXTIDENT, ALL} && u.lit != "" && After(0, At(r))
    ensures ParseExpr(ExprAhead(Ident([t, KindToken(DOT), u]), r)) == R(Ident([t, KindToken(DOT), u]), r, NO_ERRORS)
  {
    hide ParseExpr, After, ExprAhead, WordOf;
    var name := [t, KindToken(DOT), u];
    assert name[1..] == [KindToken(DOT), u] && name[1..][2..] == [];
    assert DotTail(name[1..]);
    AtomRead(Ident(name), r);
  }

  lemma {:induction false} TickedRead(t: Token, u: Token, r: Stream)
    requires IsNameToken(t) && (u.kind == IDENT || u.kind == EXTIDENT || ABS <= u.kind <= OTHERWORD) && u.lit != "" && After(0, At(r))
    ensures ParseExpr(ExprAhead(Ident([t, KindToken(TICK), u]), r)) == R(Ident([t, KindToken(TICK), u]), r, NO_ERRORS)
  {
    hide ParseExpr, After, ExprAhead, WordOf;
    var name := [t, KindToken(TICK), u];
    assert name[1..] == [KindToken(TICK), u] && name[1..][2..] == [];
    assert TickTail(name[1..]);
    AtomRead(Ident(name), r);
  }
}
