// tools/socgen/vhdl: sequential statements from source text to tree, to printed text, and back.

module VhdlStmtSource {
  import opened Common
  import opened VhdlGrammar
  import opened VhdlExprTheorems
  import opened VhdlText
  import opened VhdlSource
  import opened VhdlStmtTheorems

  predicate Blank(s: string) { forall c :: c in s ==> IsSpace(c) }

  /** A word or sign that can be printed in front of anything that is set apart from it. */
  predicate Plain(k: Kind) { k != CHARLIT && k != ILLEGAL }

  lemma {:induction false} KeyFollows(k: Kind, r: Text, prev: Kind)
    requires Plain(k) && Follows(r)
    ensures SetApart(K(k, r), prev)
  {
    hide NeedsGap, Gap, WordOf;
    Strongest(r, k);
    KeyApart(k, r, prev);
  }

  lemma {:induction false} BlankApart(w: string, r: Text, prev: Kind)
    requires Blank(w) && SetApart(r, prev)
    ensures SetApart(W(w, r), prev)
  {
    hide NeedsGap, Gap, IsSpace;
  }

  lemma {:induction false} LineApart(k: Kind, r: Text, prev: Kind)
    requires Plain(k) && SetApart(r, k)
    ensures SetApart(K(k, Line(r)), prev) && SetApart(Sp(K(k, Line(r))), prev) && Gap(Sp(K(k, Line(r))))
  {
    hide NeedsGap, WordOf;
    assert Gap(Line(r)) && SetApart(Line(r), k);
    KeyApart(k, Line(r), prev);
  }

  lemma {:induction false} SemicolonFollows(r: Text)
    requires SetApart(r, SEMICOLON)
    ensures Follows(K(SEMICOLON, r))
  {
  }

  /** Behind the keyword k, an expression. */
  lemma {:induction false} KeyExpr(k: Kind, e: Expr, r: Text, strict: bool, prev: Kind)
    requires Plain(k) && !IsNameEnd(k) && Full(e, strict) && Follows(r)
    ensures SetApart(K(k, Sp(PrintExpr(e, r))), prev) && Follows(Spaced(k, PrintExpr(e, r)))
  {
    hide Full, WordOf, PrintExpr, Gap, SetApart;
    FullApart(e, r, strict, k);
    SpacedApart(k, PrintExpr(e, r), prev);
    SpacedApart(k, PrintExpr(e, r), RPAREN);
  }

  lemma {:induction false} OptApart(k: Kind, e: Option<Expr>, r: Text, strict: bool)
    requires Plain(k) && !IsNameEnd(k) && OptFull(e, strict) && Follows(r)
    ensures Follows(PrintOpt(k, e, r))
  {
    hide Full, Follows, PrintExpr;
    if e.Some? { KeyExpr(k, e.value, r, strict, RPAREN); }
  }

  lemma {:induction false} LabelApart(l: Option<Token>, r: Text)
    requires IsLabel(l) && Follows(r)
    ensures Follows(PrintLabel(l, r))
  {
    if l.Some? { WordFollows(l.value, r); }
  }

  lemma {:induction false} WordFollows(t: Token, r: Text)
    requires t.kind == IDENT && Follows(r)
    ensures Follows(Sp(T(t, r))) && forall prev :: SetApart(T(t, r), prev)
  {
    hide NeedsGap;
    Strongest(r, IDENT);
    forall prev ensures SetApart(T(t, r), prev) && SetApart(Sp(T(t, r)), prev) {}
    assert Gap(Sp(T(t, r)));
  }

  lemma {:induction false} EndApart(k: Kind, indent: string, r: Text)
    requires Plain(k) && Blank(indent) && SetApart(r, SEMICOLON)
    ensures SetApart(PrintEnd(k, indent, r), RPAREN)
  {
    hide SetApart, Blank, Follows;
    var tail := K(SEMICOLON, r);
    SemicolonFollows(r);
    KeyFollows(k, tail, END);
    SpacedEnd(K(k, tail));
    BlankApart(indent, K(END, Sp(K(k, tail))), RPAREN);
  }

  lemma {:induction false} SpacedEnd(r: Text)
    requires SetApart(r, END)
    ensures SetApart(K(END, Sp(r)), RPAREN)
  {
    hide SetApart;
    SpacedApart(END, r, RPAREN);
  }

  // ---- Parts of simple statements ----

  lemma {:induction false} DelayApart(d: Delay, r: Text, strict: bool)
    requires IsDelay(d, strict) && (forall k :: !IsNameEnd(k) ==> SetApart(r, k))
    ensures SetApart(PrintDelay(d, r), LE)
  {
    hide Full, Gap, PrintExpr, SetApart;
    match d
    case NoDelay =>
    case Transport => SpacedApart(TRANSPORT, r, LE);
    case Inertial => SpacedApart(INERTIAL, r, LE);
    case Reject(x) =>
      SpacedApart(INERTIAL, r, RPAREN);
      KeyExpr(REJECT, x, Spaced(INERTIAL, r), strict, LE);
  }

  lemma {:induction false} WaveApart(w: Wave, r: Text, strict: bool, prev: Kind)
    requires IsWave(w, strict) && Follows(r) && !IsNameEnd(prev)
    ensures SetApart(PrintWave(w, r), prev)
  {
    hide Full, Follows, PrintExpr, PrintOpt;
    OptApart(AFTER, w.after, r, strict);
    FullApart(w.value, PrintOpt(AFTER, w.after, r), strict, prev);
  }

  lemma {:induction false} WavesApart(ws: seq<Wave>, r: Text, strict: bool, prev: Kind)
    requires AllWaves(ws, strict) && Follows(r) && !IsNameEnd(prev)
    ensures (ws != [] ==> SetApart(PrintWaves(ws, r), prev)) && Follows(PrintMoreWaves(ws, r))
    decreases ws
  {
    hide PrintWave, IsWave, Follows, SetApart;
    if ws != [] {
      var m := PrintMoreWaves(ws[1..], r);
      WavesApart(ws[1..], r, strict, prev);
      WaveApart(ws[0], m, strict, prev);
      WaveApart(ws[0], m, strict, COMMA);
      CommaApart(PrintWave(ws[0], m));
    }
  }

  predicate HeadShort(e: Expr) { HeadOf(e).kind == ILLEGAL ==> |HeadOf(e).lit| == 1 }

  lemma {:induction false} NameFirst(e: Expr, r: Text, strict: bool, prev: Kind)
    requires IsName(e, strict) && HeadShort(e) && Follows(r) && !IsNameEnd(prev)
    ensures SetApart(PrintExpr(e, r), prev)
  {
    hide Follows, SetApart, PrintExpr, IsName, HeadOf;
    NameApart(e, r, strict, prev);
  }

  lemma {:induction false} NamesApart(ns: seq<Expr>, r: Text, strict: bool)
    requires AllNames(ns, strict) && (forall n :: n in ns ==> HeadShort(n)) && Follows(r)
    ensures Follows(PrintNames(ns, r)) && Follows(PrintMoreNames(ns, r))
    decreases ns
  {
    hide PrintExpr, IsName, Follows, SetApart, HeadShort;
    if ns != [] {
      var m := PrintMoreNames(ns[1..], r);
      NamesApart(ns[1..], r, strict);
      NameFirst(ns[0], m, strict, COMMA);
      NameFirst(ns[0], m, strict, ON);
      CommaApart(PrintExpr(ns[0], m));
      SpacedFollows(ON, PrintExpr(ns[0], m));
    }
  }

  lemma {:induction false} SpacedFollows(k: Kind, r: Text)
    requires Plain(k) && SetApart(r, k)
    ensures Follows(Spaced(k, r))
  {
    hide SetApart, Gap;
    SpacedApart(k, r, RPAREN);
  }

  lemma {:induction false} SchemeApart(h: Scheme, r: Text, strict: bool, prev: Kind)
    requires IsScheme(h, strict) && SetApart(r, RPAREN) && !IsNameEnd(prev)
    ensures SetApart(PrintScheme(h, r), prev)
  {
    hide Full, PrintExpr, Follows, SetApart;
    SpaceFollows(r);
    match h
    case Bare => Strongest(r, prev);
    case While(c) => KeyExpr(WHILE, c, Sp(r), strict, prev);
    case For(p, x, m) =>
      var range := PrintExpr(x, Sp(r));
      FullApart(x, Sp(r), strict, IN);
      FullApart(x, Sp(r), strict, RANGE);
      if m.Some? {
        SpacedFollows(RANGE, range);
        FullApart(m.value, Spaced(RANGE, range), strict, IN);
      }
      var t := if m.None? then range else PrintExpr(m.value, Spaced(RANGE, range));
      SpacedFollows(IN, t);
      WordFollows(p, Spaced(IN, t));
      SpacedApart(FOR, T(p, Spaced(IN, t)), prev);
  }

  lemma {:induction false} SpaceFollows(r: Text)
    requires SetApart(r, RPAREN)
    ensures Follows(Sp(r))
  {
  }

  /** The targets of assignments and calls, and the names waited on, do not start with a character above 127. */
  predicate ShortHeads(s: Stmt)
    decreases s, 1
  {
    match s.form
    case IfStmt(_, t, es, e) => AllShort(t) && ClausesShort(es) && (e.Else? ==> AllShort(e.body))
    case CaseStmt(_, alts) => ClausesShort(alts)
    case LoopStmt(_, b) => AllShort(b)
    case WaitStmt(ns, _, _) => forall n :: n in ns ==> HeadShort(n)
    case SignalAssign(x, _, _) => HeadShort(x)
    case VarAssign(x, _) => HeadShort(x)
    case ProcCall(n, _) => HeadShort(n)
    case _ => true
  }

  predicate AllShort(ss: seq<Stmt>)
    decreases ss, 2
  {
    forall s :: s in ss ==> ShortHeads(s)
  }

  predicate ClausesShort(cs: seq<Clause>)
    decreases cs, 2
  {
    forall c :: c in cs ==> AllShort(c.body)
  }

  lemma {:induction false} SimpleApart(f: Form, lbl: Option<Token>, r: Text, strict: bool, prev: Kind)
    requires !f.IfStmt? && !f.CaseStmt? && !f.LoopStmt? && IsSimple(f, strict) && ShortHeads(Stmt(lbl, f))
    requires Follows(r) && !IsNameEnd(prev)
    ensures SetApart(PrintSimple(f, r), prev)
  {
    hide Full, PrintExpr, Follows, SetApart, PrintOpt, PrintNames, PrintWaves, PrintDelay, PrintLabel, HeadShort, IsTarget, IsLabel, OptFull, AllNames, IsDelay, IsWaves, IsChain, AllAssocs;
    match f
    case NullStmt => KeyFollows(NULL, r, prev);
    case NextStmt(l, w) => JumpApart(NEXT, l, w, r, strict, prev);
    case ExitStmt(l, w) => JumpApart(EXIT, l, w, r, strict, prev);
    case ReturnStmt(x) => ReturnApart(x, r, strict, prev);
    case AssertStmt(c, m, s) => AssertApart(c, m, s, r, strict, prev);
    case ReportStmt(m, s) => ReportApart(m, s, r, strict, prev);
    case WaitStmt(ns, u, t) => WaitApart(ns, u, t, r, strict, prev);
    case SignalAssign(x, d, ws) => SignalApart(x, d, ws, r, strict, prev);
    case VarAssign(x, v) => AssignApart(x, v, r, strict, prev);
    case ProcCall(n, args) => CallApart(n, args, r, strict, prev);
  }

  lemma {:induction false} AssertApart(c: Expr, m: Option<Expr>, s: Option<Expr>, r: Text, strict: bool, prev: Kind)
    requires Full(c, strict) && OptFull(m, strict) && OptFull(s, strict) && Follows(r)
    ensures SetApart(PrintSimple(AssertStmt(c, m, s), r), prev)
  {
    hide Full, PrintExpr, Follows, SetApart, PrintOpt, OptFull;
    OptApart(SEVERITY, s, r, strict);
    OptApart(REPORT, m, PrintOpt(SEVERITY, s, r), strict);
    KeyExpr(ASSERT, c, PrintOpt(REPORT, m, PrintOpt(SEVERITY, s, r)), strict, prev);
  }

  lemma {:induction false} ReportApart(m: Expr, s: Option<Expr>, r: Text, strict: bool, prev: Kind)
    requires Full(m, strict) && OptFull(s, strict) && Follows(r)
    ensures SetApart(PrintSimple(ReportStmt(m, s), r), prev)
  {
    hide Full, PrintExpr, Follows, SetApart, PrintOpt, OptFull;
    OptApart(SEVERITY, s, r, strict);
    KeyExpr(REPORT, m, PrintOpt(SEVERITY, s, r), strict, prev);
  }

  lemma {:induction false} WaitApart(ns: seq<Expr>, u: Option<Expr>, t: Option<Expr>, r: Text, strict: bool, prev: Kind)
    requires AllNames(ns, strict) && (forall n :: n in ns ==> HeadShort(n)) && OptFull(u, strict) && OptFull(t, strict) && Follows(r)
    ensures SetApart(PrintSimple(WaitStmt(ns, u, t), r), prev)
  {
    hide Follows, SetApart, PrintOpt, OptFull, PrintNames, HeadShort, AllNames;
    OptApart(FOR, t, r, strict);
    OptApart(UNTIL, u, PrintOpt(FOR, t, r), strict);
    NamesApart(ns, PrintOpt(UNTIL, u, PrintOpt(FOR, t, r)), strict);
    KeyFollows(WAIT, PrintNames(ns, PrintOpt(UNTIL, u, PrintOpt(FOR, t, r))), prev);
  }

  lemma {:induction false} AssignApart(x: Expr, v: Expr, r: Text, strict: bool, prev: Kind)
    requires IsTarget(x, strict) && HeadShort(x) && Full(v, strict) && Follows(r) && !IsNameEnd(prev)
    ensures SetApart(PrintSimple(VarAssign(x, v), r), prev)
  {
    hide Full, PrintExpr, Follows, SetApart, HeadShort, IsTarget, IsName;
    TargetIsName(x, strict);
    FullApart(v, r, strict, ASSIGN);
    SpacedFollows(ASSIGN, PrintExpr(v, r));
    NameFirst(x, Spaced(ASSIGN, PrintExpr(v, r)), strict, prev);
  }

  lemma {:induction false} TargetIsName(x: Expr, strict: bool)
    requires IsTarget(x, strict)
    ensures IsName(x, strict)
  {
    hide IsName;
  }

  lemma {:induction false} JumpApart(k: Kind, l: Option<Token>, w: Option<Expr>, r: Text, strict: bool, prev: Kind)
    requires Plain(k) && IsLabel(l) && OptFull(w, strict) && Follows(r)
    ensures SetApart(K(k, PrintLabel(l, PrintOpt(WHEN, w, r))), prev)
  {
    hide PrintOpt, PrintLabel, Follows, SetApart, OptFull, IsLabel;
    OptApart(WHEN, w, r, strict);
    LabelApart(l, PrintOpt(WHEN, w, r));
    KeyFollows(k, PrintLabel(l, PrintOpt(WHEN, w, r)), prev);
  }

  lemma {:induction false} ReturnApart(x: Option<Expr>, r: Text, strict: bool, prev: Kind)
    requires OptFull(x, strict) && Follows(r)
    ensures SetApart(PrintSimple(ReturnStmt(x), r), prev)
  {
    hide PrintExpr, Follows, SetApart, Full;
    if x.None? { KeyFollows(RETURN, r, prev); } else { KeyExpr(RETURN, x.value, r, strict, prev); }
  }

  lemma {:induction false} SignalApart(x: Expr, d: Delay, ws: seq<Wave>, r: Text, strict: bool, prev: Kind)
    requires IsTarget(x, strict) && IsDelay(d, strict) && IsWaves(ws, strict) && HeadShort(x) && Follows(r) && !IsNameEnd(prev)
    ensures SetApart(PrintSimple(SignalAssign(x, d, ws), r), prev)
  {
    hide PrintExpr, Follows, SetApart, PrintWaves, PrintDelay, IsDelay, IsTarget, HeadShort, AllWaves, IsName;
    forall k | !IsNameEnd(k) ensures SetApart(PrintWaves(ws, r), k) { WavesApart(ws, r, strict, k); }
    DelayApart(d, PrintWaves(ws, r), strict);
    SpacedFollows(LE, PrintDelay(d, PrintWaves(ws, r)));
    TargetIsName(x, strict);
    NameFirst(x, Spaced(LE, PrintDelay(d, PrintWaves(ws, r))), strict, prev);
  }

  lemma {:induction false} CallApart(n: Expr, args: seq<Assoc>, r: Text, strict: bool, prev: Kind)
    requires IsChain(n, true) && AllAssocs(args, strict) && HeadShort(n) && Follows(r) && !IsNameEnd(prev)
    ensures SetApart(PrintSimple(ProcCall(n, args), r), prev)
  {
    hide Follows, SetApart, IsChain, AllAssocs, HeadShort, PrintExpr;
    if args == [] { BareApart(n, r, prev); } else { ArgsApart(n, args, r, strict, prev); }
  }

  lemma {:induction false} BareApart(n: Expr, r: Text, prev: Kind)
    requires IsChain(n, true) && HeadShort(n) && Follows(r) && !IsNameEnd(prev)
    ensures SetApart(PrintExpr(n, r), prev)
  {
    hide Follows, SetApart, IsChain, HeadOf, PrintExpr, IsNameEnd;
    ChainApart(n, r, true, prev);
  }

  lemma {:induction false} ArgsApart(n: Expr, args: seq<Assoc>, r: Text, strict: bool, prev: Kind)
    requires IsChain(n, true) && AllAssocs(args, strict) && HeadShort(n) && Follows(r) && !IsNameEnd(prev)
    ensures SetApart(PrintExpr(Call(n, args), r), prev)
  {
    hide Follows, SetApart, IsChain, AllAssocs, HeadShort, IsNameEnd, PrintAssocs;
    AssocsApart(args, r, strict);
    OpenFollows(PrintAssocs(args, K(RPAREN, r)));
    BareApart(n, K(LPAREN, PrintAssocs(args, K(RPAREN, r))), prev);
  }

  lemma {:induction false} OpenFollows(r: Text)
    requires SetApart(r, LPAREN)
    ensures Follows(K(LPAREN, r))
  {
    hide SetApart, Gap;
    OpenApart(r, RPAREN);
  }

  // ---- Statements ----

  lemma {:induction false} StmtApart(s: Stmt, indent: string, r: Text, strict: bool, prev: Kind)
    requires IsStmt(s, strict) && ShortHeads(s) && Blank(indent) && SetApart(r, SEMICOLON) && !IsNameEnd(prev)
    ensures SetApart(PrintStmt(s, indent, r), prev)
    decreases s, 1
  {
    hide PrintForm, SetApart, IsForm, Follows, ShortHeads, Blank;
    FormApart(s, indent, r, strict, prev);
    if s.lbl.Some? {
      FormApart(s, indent, r, strict, COLON);
      SpacedFollows(COLON, PrintForm(s.form, indent, r));
      WordFollows(s.lbl.value, Spaced(COLON, PrintForm(s.form, indent, r)));
    }
  }

  lemma {:induction false} FormApart(s: Stmt, indent: string, r: Text, strict: bool, prev: Kind)
    requires IsForm(s.form, strict) && ShortHeads(s) && Blank(indent) && SetApart(r, SEMICOLON) && !IsNameEnd(prev)
    ensures SetApart(PrintForm(s.form, indent, r), prev)
    decreases s, 0
  {
    hide SetApart, Follows, PrintSeq, PrintElsifs, PrintElse, PrintAlts, PrintSimple, PrintEnd, IsSimple, Full, IsSeq, IsClause, IsScheme, HeadShort, Blank;
    match s.form
    case IfStmt(c, t, es, e) => IfApart(s, indent, r, strict, prev);
    case CaseStmt(c, alts) => CaseApart(s, indent, r, strict, prev);
    case LoopStmt(h, b) =>
      var z := PrintEnd(LOOP, indent, r);
      EndApart(LOOP, indent, r);
      SeqApart(OnlyEnd, b, indent, z, strict, LOOP);
      LineApart(LOOP, PrintSeq(b, indent, z), RPAREN);
      SchemeApart(h, K(LOOP, Line(PrintSeq(b, indent, z))), strict, prev);
    case _ =>
      SemicolonFollows(r);
      SimpleApart(s.form, s.lbl, K(SEMICOLON, r), strict, prev);
  }

  lemma {:induction false} IfApart(s: Stmt, indent: string, r: Text, strict: bool, prev: Kind)
    requires s.form.IfStmt? && IsForm(s.form, strict) && ShortHeads(s) && Blank(indent) && SetApart(r, SEMICOLON) && !IsNameEnd(prev)
    ensures SetApart(PrintForm(s.form, indent, r), prev)
    decreases s.form, 0
  {
    hide PrintExpr, SetApart, Follows, PrintSeq, PrintElsifs, PrintElse, PrintEnd, Full, IsSeq, IsClause, AllShort, ClausesShort, Blank;
    match s.form
    case IfStmt(c, t, es, e) =>
      var z := PrintEnd(IF, indent, r);
      var l := PrintElse(e, indent, z);
      var m := PrintElsifs(es, indent, l);
      EndApart(IF, indent, r);
      ElseApart(e, indent, z, strict);
      ElsifsApart(es, indent, l, strict);
      SeqApart(ElseOrEnd, t, indent, m, strict, THEN);
      ThenFollows(THEN, PrintSeq(t, indent, m));
      KeyExpr(IF, c, Sp(K(THEN, Line(PrintSeq(t, indent, m)))), strict, prev);
  }

  lemma {:induction false} CaseApart(s: Stmt, indent: string, r: Text, strict: bool, prev: Kind)
    requires s.form.CaseStmt? && IsForm(s.form, strict) && ShortHeads(s) && Blank(indent) && SetApart(r, SEMICOLON) && !IsNameEnd(prev)
    ensures SetApart(PrintForm(s.form, indent, r), prev)
    decreases s.form, 0
  {
    hide PrintExpr, SetApart, Follows, PrintAlts, PrintEnd, Full, IsClause, ClausesShort, Blank;
    match s.form
    case CaseStmt(c, alts) =>
      var z := PrintEnd(CASE, indent, r);
      EndApart(CASE, indent, r);
      AltsApart(alts, indent, z, strict);
      Strongest(PrintAlts(alts, indent, z), IS);
      ThenFollows(IS, PrintAlts(alts, indent, z));
      KeyExpr(CASE, c, Sp(K(IS, Line(PrintAlts(alts, indent, z)))), strict, prev);
  }

  /** The keyword that ends a header, and a new line. */
  lemma {:induction false} ThenFollows(k: Kind, r: Text)
    requires Plain(k) && SetApart(r, k)
    ensures Follows(Sp(K(k, Line(r))))
  {
    hide SetApart, Gap;
    LineApart(k, r, RPAREN);
  }

  lemma {:induction false} ElseApart(e: Tail, indent: string, r: Text, strict: bool)
    requires (e.Else? ==> IsSeq(OnlyEnd, e.body, strict) && AllShort(e.body)) && Blank(indent) && SetApart(r, RPAREN)
    ensures SetApart(PrintElse(e, indent, r), RPAREN)
    decreases e, 0
  {
    hide SetApart, PrintSeq, IsSeq, AllShort, Blank;
    if e.Else? {
      SeqApart(OnlyEnd, e.body, indent, r, strict, ELSE);
      LineApart(ELSE, PrintSeq(e.body, indent, r), RPAREN);
      BlankApart(indent, K(ELSE, Line(PrintSeq(e.body, indent, r))), RPAREN);
    }
  }

  lemma {:induction false} ElsifsApart(es: seq<Clause>, indent: string, r: Text, strict: bool)
    requires AllClauses(ElseOrEnd, es, strict) && ClausesShort(es) && Blank(indent) && SetApart(r, RPAREN)
    ensures SetApart(PrintElsifs(es, indent, r), RPAREN)
    decreases es, 1
  {
    hide SetApart, PrintSeq, PrintChoices, AllClauses, ClausesShort, IsSeq, AllFull, AllShort, Blank;
    if es != [] {
      var m := PrintElsifs(es[1..], indent, r);
      FirstClause(ElseOrEnd, es, strict);
      ElsifsApart(es[1..], indent, r, strict);
      SeqApart(ElseOrEnd, es[0].body, indent, m, strict, THEN);
      GuardsApart(ELSIF, es[0].guards, THEN, PrintSeq(es[0].body, indent, m), strict);
      var header := PrintChoices(es[0].guards, Sp(K(THEN, Line(PrintSeq(es[0].body, indent, m)))));
      BlankApart(indent, K(ELSIF, Sp(header)), RPAREN);
    }
  }

  lemma {:induction false} GuardsApart(k: Kind, cs: seq<Expr>, sep: Kind, r: Text, strict: bool)
    requires Plain(k) && !IsNameEnd(k) && AllFull(cs, strict) && Plain(sep) && SetApart(r, sep)
    ensures var header := PrintChoices(cs, Sp(K(sep, Line(r)))); SetApart(K(k, Sp(header)), RPAREN)
  {
    hide SetApart, PrintChoices, AllFull, Follows;
    ThenFollows(sep, r);
    ChoicesApart(cs, Sp(K(sep, Line(r))), strict, k);
    SpacedApart(k, PrintChoices(cs, Sp(K(sep, Line(r)))), RPAREN);
  }

  predicate AllClauses(stops: Stops, es: seq<Clause>, strict: bool) { forall x :: x in es ==> IsClause(stops, x, strict) }

  lemma {:induction false} FirstClause(stops: Stops, es: seq<Clause>, strict: bool)
    requires es != [] && AllClauses(stops, es, strict) && ClausesShort(es)
    ensures AllFull(es[0].guards, strict) && IsSeq(stops, es[0].body, strict) && AllShort(es[0].body)
    ensures AllClauses(stops, es[1..], strict) && ClausesShort(es[1..])
  {
    hide AllFull, IsSeq, AllShort;
    assert es[0] in es && forall x :: x in es[1..] ==> x in es;
  }

  lemma {:induction false} AltsApart(es: seq<Clause>, indent: string, r: Text, strict: bool)
    requires AllClauses(WhenOrEnd, es, strict) && ClausesShort(es) && Blank(indent) && SetApart(r, RPAREN)
    ensures SetApart(PrintAlts(es, indent, r), RPAREN)
    decreases es, 1
  {
    hide SetApart, PrintSeq, PrintChoices, AllClauses, ClausesShort, IsSeq, AllFull, AllShort, Blank;
    if es != [] {
      var m := PrintAlts(es[1..], indent, r);
      FirstClause(WhenOrEnd, es, strict);
      AltsApart(es[1..], indent, r, strict);
      DeeperBlank(indent);
      SeqApart(WhenOrEnd, es[0].body, indent + INDENT, m, strict, ARROW);
      GuardsApart(WHEN, es[0].guards, ARROW, PrintSeq(es[0].body, indent + INDENT, m), strict);
      var header := PrintChoices(es[0].guards, Sp(K(ARROW, Line(PrintSeq(es[0].body, indent + INDENT, m)))));
      Indented(indent, K(WHEN, Sp(header)), RPAREN);
    }
  }

  lemma {:induction false} DeeperBlank(indent: string)
    requires Blank(indent)
    ensures Blank(INDENT) && Blank(indent + INDENT)
  {
  }

  lemma {:induction false} SeqApart(stops: Stops, ss: seq<Stmt>, indent: string, r: Text, strict: bool, prev: Kind)
    requires IsSeq(stops, ss, strict) && AllShort(ss) && Blank(indent) && SetApart(r, RPAREN) && !IsNameEnd(prev)
    ensures SetApart(PrintSeq(ss, indent, r), prev)
    decreases ss, 2
  {
    hide SetApart, PrintStmt, IsStmt, ShortHeads, Blank;
    if ss == [] {
      Strongest(r, prev);
    } else {
      assert ss[0] in ss;
      DeeperBlank(indent);
      SeqApart(stops, ss[1..], indent, r, strict, SEMICOLON);
      LineOnly(PrintSeq(ss[1..], indent, r));
      StmtApart(ss[0], indent + INDENT, Line(PrintSeq(ss[1..], indent, r)), strict, prev);
      Indented(indent, PrintStmt(ss[0], indent + INDENT, Line(PrintSeq(ss[1..], indent, r))), prev);
    }
  }

  lemma {:induction false} LineOnly(r: Text)
    requires SetApart(r, SEMICOLON)
    ensures SetApart(Line(r), SEMICOLON)
  {
    hide NeedsGap, Gap;
  }

  lemma {:induction false} Indented(indent: string, r: Text, prev: Kind)
    requires Blank(indent) && SetApart(r, prev)
    ensures SetApart(W(indent, W(INDENT, r)), prev)
  {
    hide SetApart, Blank;
    DeeperBlank(indent);
    BlankApart(INDENT, r, prev);
    BlankApart(indent, W(INDENT, r), prev);
  }

  // ==== tools/socgen/vhdl: statements whose tokens some text has, and their print.

  // ---- Statements whose tokens some text has ----

  ghost predicate OptMade(e: Option<Expr>) { e.Some? ==> Made(e.value) }

  ghost predicate LabelMade(l: Option<Token>) { l.Some? ==> IsLexeme(l.value) }

  ghost predicate DelayMade(d: Delay) { d.Reject? ==> Made(d.limit) }

  ghost predicate WaveMade(w: Wave) { Made(w.value) && OptMade(w.after) }

  ghost predicate WavesMade(ws: seq<Wave>) { forall w :: w in ws ==> WaveMade(w) }

  ghost predicate SchemeMade(h: Scheme) {
    match h
    case Bare => true
    case While(c) => Made(c)
    case For(p, x, m) => IsLexeme(p) && Made(x) && OptMade(m)
  }

  ghost predicate SimpleMade(f: Form)
  {
    match f
    case NullStmt => true
    case NextStmt(l, w) => LabelMade(l) && OptMade(w)
    case ExitStmt(l, w) => LabelMade(l) && OptMade(w)
    case ReturnStmt(x) => OptMade(x)
    case AssertStmt(c, m, s) => Made(c) && OptMade(m) && OptMade(s)
    case ReportStmt(m, s) => Made(m) && OptMade(s)
    case WaitStmt(ns, u, t) => AllMade(ns) && OptMade(u) && OptMade(t)
    case SignalAssign(x, d, ws) => Made(x) && DelayMade(d) && WavesMade(ws)
    case VarAssign(x, v) => Made(x) && Made(v)
    case ProcCall(n, args) => Made(n) && AssocsMade(args)
    case _ => true
  }

  ghost predicate StmtMade(s: Stmt)
    decreases s, 1
  {
    LabelMade(s.lbl) && FormMade(s.form)
  }

  ghost predicate FormMade(f: Form)
    decreases f, 0
  {
    match f
    case IfStmt(c, t, es, e) => Made(c) && SeqMade(t) && ClausesMade(es) && (e.Else? ==> SeqMade(e.body))
    case CaseStmt(c, alts) => Made(c) && ClausesMade(alts)
    case LoopStmt(h, b) => SchemeMade(h) && SeqMade(b)
    case _ => SimpleMade(f)
  }

  ghost predicate SeqMade(ss: seq<Stmt>)
    decreases ss, 2
  {
    forall s :: s in ss ==> StmtMade(s)
  }

  ghost predicate ClausesMade(cs: seq<Clause>)
    decreases cs, 2
  {
    forall c :: c in cs ==> AllMade(c.guards) && SeqMade(c.body)
  }

  /** What a parsing function gives when it records no error. */
  ghost predicate GoodForm(r: R<Option<Form>>) {
    r.errs == 0 ==> Origin(r.rest) && forall f :: r.v == Some(f) ==> FormMade(f)
  }

  ghost predicate GoodStmt(r: R<Option<Stmt>>) {
    r.errs == 0 ==> Origin(r.rest) && forall s :: r.v == Some(s) ==> StmtMade(s)
  }

  // ---- Their print ----

  predicate Spells(k: Kind) { IsDelimiter(k) || (IsKeyword(k) && k != OTHERWORD) }

  lemma {:induction false} WordPrinted(k: Kind, r: Text)
    requires Spells(k) && AllLexemes(r)
    ensures AllLexemes(K(k, r)) && AllLexemes(K(k, Sp(r))) && AllLexemes(Spaced(k, r)) && AllLexemes(K(k, Line(r))) && AllLexemes(Sp(K(k, Line(r))))
  {
    hide IsLexeme, KindToken, Spells;
    KindSpells(k);
    KeyPrinted(k, r);
    assert AllLexemes(Line(r));
    assert AllLexemes(K(k, Line(r)));
  }

  lemma {:induction false} KindSpells(k: Kind)
    requires Spells(k)
    ensures IsLexeme(KindToken(k))
  {
    hide IsLexeme;
    KindIsLexeme(k);
  }

  lemma {:induction false} KeyExprPrinted(k: Kind, e: Expr, r: Text)
    requires Spells(k) && Made(e) && AllLexemes(r)
    ensures AllLexemes(K(k, Sp(PrintExpr(e, r)))) && AllLexemes(Spaced(k, PrintExpr(e, r)))
  {
    hide Spells, Made, AllLexemes, PrintExpr;
    ExprPrinted(e, r);
    WordPrinted(k, PrintExpr(e, r));
  }

  lemma {:induction false} OptPrinted(k: Kind, e: Option<Expr>, r: Text)
    requires Spells(k) && OptMade(e) && AllLexemes(r)
    ensures AllLexemes(PrintOpt(k, e, r))
  {
    hide Spells, Made, AllLexemes, PrintExpr;
    if e.Some? { KeyExprPrinted(k, e.value, r); }
  }

  lemma {:induction false} LabelPrinted(l: Option<Token>, r: Text)
    requires LabelMade(l) && AllLexemes(r)
    ensures AllLexemes(PrintLabel(l, r))
  {
    hide IsLexeme;
    if l.Some? { TokenPrinted(l.value, r); }
  }

  lemma {:induction false} SpacePrinted(w: string, r: Text)
    requires AllLexemes(r)
    ensures AllLexemes(W(w, r)) && AllLexemes(W(w, W(INDENT, r))) && AllLexemes(Sp(r)) && AllLexemes(Line(r))
  {
    hide IsLexeme;
    assert AllLexemes(W(INDENT, r));
  }

  lemma {:induction false} EndPrinted(k: Kind, indent: string, r: Text)
    requires Spells(k) && AllLexemes(r)
    ensures AllLexemes(PrintEnd(k, indent, r))
  {
    hide AllLexemes, IsLexeme;
    WordPrinted(SEMICOLON, r);
    WordPrinted(k, K(SEMICOLON, r));
    WordPrinted(END, K(k, K(SEMICOLON, r)));
    SpacePrinted(indent, K(END, Sp(K(k, K(SEMICOLON, r)))));
  }

  lemma {:induction false} DelayPrinted(d: Delay, r: Text)
    requires DelayMade(d) && AllLexemes(r)
    ensures AllLexemes(PrintDelay(d, r))
  {
    hide AllLexemes, Made, PrintExpr;
    match d
    case NoDelay =>
    case Transport => WordPrinted(TRANSPORT, r);
    case Inertial => WordPrinted(INERTIAL, r);
    case Reject(x) => WordPrinted(INERTIAL, r); KeyExprPrinted(REJECT, x, Spaced(INERTIAL, r));
  }

  lemma {:induction false} WavesPrinted(ws: seq<Wave>, r: Text)
    requires WavesMade(ws) && AllLexemes(r)
    ensures AllLexemes(PrintWaves(ws, r)) && AllLexemes(PrintMoreWaves(ws, r))
    decreases ws
  {
    hide AllLexemes, WaveMade, PrintWave;
    if ws != [] {
      WavesPrinted(ws[1..], r);
      WavePrinted(ws[0], PrintMoreWaves(ws[1..], r));
      WordPrinted(COMMA, PrintWave(ws[0], PrintMoreWaves(ws[1..], r)));
    }
  }

  lemma {:induction false} WavePrinted(w: Wave, r: Text)
    requires WaveMade(w) && AllLexemes(r)
    ensures AllLexemes(PrintWave(w, r))
  {
    hide AllLexemes, Made, OptMade, PrintExpr, PrintOpt;
    OptPrinted(AFTER, w.after, r);
    ExprPrinted(w.value, PrintOpt(AFTER, w.after, r));
  }

  lemma {:induction false} NamesPrinted(ns: seq<Expr>, r: Text)
    requires AllMade(ns) && AllLexemes(r)
    ensures AllLexemes(PrintNames(ns, r)) && AllLexemes(PrintMoreNames(ns, r))
    decreases ns
  {
    hide AllLexemes, Made, PrintExpr;
    if ns != [] {
      var m := PrintMoreNames(ns[1..], r);
      NamesPrinted(ns[1..], r);
      ExprPrinted(ns[0], m);
      WordPrinted(COMMA, PrintExpr(ns[0], m));
      WordPrinted(ON, PrintExpr(ns[0], m));
    }
  }

  lemma {:induction false} SchemePrinted(h: Scheme, r: Text)
    requires SchemeMade(h) && AllLexemes(r)
    ensures AllLexemes(PrintScheme(h, r))
  {
    hide AllLexemes, Made, PrintExpr, IsLexeme;
    SpacePrinted("", r);
    match h
    case Bare =>
    case While(c) => KeyExprPrinted(WHILE, c, Sp(r));
    case For(p, x, m) =>
      var range := PrintExpr(x, Sp(r));
      ExprPrinted(x, Sp(r));
      if m.Some? {
        WordPrinted(RANGE, range);
        ExprPrinted(m.value, Spaced(RANGE, range));
      }
      var t := if m.None? then range else PrintExpr(m.value, Spaced(RANGE, range));
      WordPrinted(IN, t);
      TokenPrinted(p, Spaced(IN, t));
      WordPrinted(FOR, T(p, Spaced(IN, t)));
  }

  lemma {:induction false} SimplePrinted(f: Form, r: Text)
    requires !f.IfStmt? && !f.CaseStmt? && !f.LoopStmt? && SimpleMade(f) && AllLexemes(r)
    ensures AllLexemes(PrintSimple(f, r))
  {
    hide AllLexemes, Made, OptMade, LabelMade, AllMade, DelayMade, WavesMade, AssocsMade, PrintExpr, PrintOpt, PrintLabel, PrintNames, PrintDelay, PrintWaves;
    match f
    case NullStmt => WordPrinted(NULL, r);
    case NextStmt(l, w) => JumpPrinted(NEXT, l, w, r);
    case ExitStmt(l, w) => JumpPrinted(EXIT, l, w, r);
    case ReturnStmt(x) => ReturnPrinted(x, r);
    case AssertStmt(c, m, s) =>
      OptPrinted(SEVERITY, s, r);
      OptPrinted(REPORT, m, PrintOpt(SEVERITY, s, r));
      KeyExprPrinted(ASSERT, c, PrintOpt(REPORT, m, PrintOpt(SEVERITY, s, r)));
    case ReportStmt(m, s) =>
      OptPrinted(SEVERITY, s, r);
      KeyExprPrinted(REPORT, m, PrintOpt(SEVERITY, s, r));
    case WaitStmt(ns, u, t) =>
      OptPrinted(FOR, t, r);
      OptPrinted(UNTIL, u, PrintOpt(FOR, t, r));
      NamesPrinted(ns, PrintOpt(UNTIL, u, PrintOpt(FOR, t, r)));
      WordPrinted(WAIT, PrintNames(ns, PrintOpt(UNTIL, u, PrintOpt(FOR, t, r))));
    case SignalAssign(x, d, ws) =>
      WavesPrinted(ws, r);
      DelayPrinted(d, PrintWaves(ws, r));
      WordPrinted(LE, PrintDelay(d, PrintWaves(ws, r)));
      ExprPrinted(x, Spaced(LE, PrintDelay(d, PrintWaves(ws, r))));
    case VarAssign(x, v) =>
      KeyExprPrinted(ASSIGN, v, r);
      ExprPrinted(x, Spaced(ASSIGN, PrintExpr(v, r)));
    case ProcCall(n, args) => CallPrinted(n, args, r);
  }

  lemma {:induction false} JumpPrinted(k: Kind, l: Option<Token>, w: Option<Expr>, r: Text)
    requires Spells(k) && LabelMade(l) && OptMade(w) && AllLexemes(r)
    ensures AllLexemes(K(k, PrintLabel(l, PrintOpt(WHEN, w, r))))
  {
    hide AllLexemes, OptMade, LabelMade, PrintOpt, PrintLabel;
    OptPrinted(WHEN, w, r);
    LabelPrinted(l, PrintOpt(WHEN, w, r));
    WordPrinted(k, PrintLabel(l, PrintOpt(WHEN, w, r)));
  }

  lemma {:induction false} ReturnPrinted(x: Option<Expr>, r: Text)
    requires OptMade(x) && AllLexemes(r)
    ensures AllLexemes(PrintSimple(ReturnStmt(x), r))
  {
    hide AllLexemes, Made, PrintExpr;
    if x.None? { WordPrinted(RETURN, r); } else { KeyExprPrinted(RETURN, x.value, r); }
  }

  lemma {:induction false} CallPrinted(n: Expr, args: seq<Assoc>, r: Text)
    requires Made(n) && AssocsMade(args) && AllLexemes(r)
    ensures AllLexemes(PrintSimple(ProcCall(n, args), r))
  {
    hide AllLexemes, AssocsMade, PrintExpr;
    if args == [] { ExprPrinted(n, r); } else { ExprPrinted(Call(n, args), r); }
  }

  lemma {:induction false} StmtPrinted(s: Stmt, indent: string, r: Text)
    requires StmtMade(s) && AllLexemes(r)
    ensures AllLexemes(PrintStmt(s, indent, r))
    decreases s, 1
  {
    hide AllLexemes, FormMade, IsLexeme, PrintForm;
    FormPrinted(s.form, indent, r);
    if s.lbl.Some? {
      WordPrinted(COLON, PrintForm(s.form, indent, r));
      TokenPrinted(s.lbl.value, Spaced(COLON, PrintForm(s.form, indent, r)));
    }
  }

  lemma {:induction false} FormPrinted(f: Form, indent: string, r: Text)
    requires FormMade(f) && AllLexemes(r)
    ensures AllLexemes(PrintForm(f, indent, r))
    decreases f, 0
  {
    hide AllLexemes, Made, SeqMade, ClausesMade, SchemeMade, SimpleMade, PrintSeq, PrintElsifs, PrintElse, PrintAlts, PrintEnd, PrintScheme, PrintSimple, PrintExpr;
    match f
    case IfStmt(c, t, es, e) =>
      var l := PrintElse(e, indent, PrintEnd(IF, indent, r));
      var m := PrintElsifs(es, indent, l);
      EndPrinted(IF, indent, r);
      ElsePrinted(e, indent, PrintEnd(IF, indent, r));
      ElsifsPrinted(es, indent, l);
      SeqPrinted(t, indent, m);
      WordPrinted(THEN, PrintSeq(t, indent, m));
      KeyExprPrinted(IF, c, Sp(K(THEN, Line(PrintSeq(t, indent, m)))));
    case CaseStmt(c, alts) =>
      var z := PrintEnd(CASE, indent, r);
      EndPrinted(CASE, indent, r);
      AltsPrinted(alts, indent, z);
      WordPrinted(IS, PrintAlts(alts, indent, z));
      KeyExprPrinted(CASE, c, Sp(K(IS, Line(PrintAlts(alts, indent, z)))));
    case LoopStmt(h, b) =>
      var z := PrintEnd(LOOP, indent, r);
      EndPrinted(LOOP, indent, r);
      SeqPrinted(b, indent, z);
      WordPrinted(LOOP, PrintSeq(b, indent, z));
      SchemePrinted(h, K(LOOP, Line(PrintSeq(b, indent, z))));
    case _ =>
      WordPrinted(SEMICOLON, r);
      SimplePrinted(f, K(SEMICOLON, r));
  }

  lemma {:induction false} ElsePrinted(e: Tail, indent: string, r: Text)
    requires (e.Else? ==> SeqMade(e.body)) && AllLexemes(r)
    ensures AllLexemes(PrintElse(e, indent, r))
    decreases e, 0
  {
    hide AllLexemes, SeqMade, PrintSeq;
    if e.Else? {
      SeqPrinted(e.body, indent, r);
      WordPrinted(ELSE, PrintSeq(e.body, indent, r));
      SpacePrinted(indent, K(ELSE, Line(PrintSeq(e.body, indent, r))));
    }
  }

  lemma {:induction false} GuardsPrinted(k: Kind, cs: seq<Expr>, sep: Kind, r: Text)
    requires Spells(k) && Spells(sep) && AllMade(cs) && AllLexemes(r)
    ensures var header := PrintChoices(cs, Sp(K(sep, Line(r)))); AllLexemes(K(k, Sp(header)))
  {
    hide AllLexemes, AllMade, Spells, PrintChoices;
    WordPrinted(sep, r);
    ChoicesPrinted(cs, Sp(K(sep, Line(r))));
    WordPrinted(k, PrintChoices(cs, Sp(K(sep, Line(r)))));
  }

  lemma {:induction false} ElsifsPrinted(es: seq<Clause>, indent: string, r: Text)
    requires ClausesMade(es) && AllLexemes(r)
    ensures AllLexemes(PrintElsifs(es, indent, r))
    decreases es, 1
  {
    hide AllLexemes, SeqMade, AllMade, PrintSeq, PrintChoices;
    if es != [] {
      var b := PrintSeq(es[0].body, indent, PrintElsifs(es[1..], indent, r));
      ElsifsPrinted(es[1..], indent, r);
      SeqPrinted(es[0].body, indent, PrintElsifs(es[1..], indent, r));
      GuardsPrinted(ELSIF, es[0].guards, THEN, b);
      var header := PrintChoices(es[0].guards, Sp(K(THEN, Line(b))));
      SpacePrinted(indent, K(ELSIF, Sp(header)));
    }
  }

  lemma {:induction false} AltsPrinted(es: seq<Clause>, indent: string, r: Text)
    requires ClausesMade(es) && AllLexemes(r)
    ensures AllLexemes(PrintAlts(es, indent, r))
    decreases es, 1
  {
    hide AllLexemes, SeqMade, AllMade, PrintSeq, PrintChoices;
    if es != [] {
      var b := PrintSeq(es[0].body, indent + INDENT, PrintAlts(es[1..], indent, r));
      AltsPrinted(es[1..], indent, r);
      SeqPrinted(es[0].body, indent + INDENT, PrintAlts(es[1..], indent, r));
      GuardsPrinted(WHEN, es[0].guards, ARROW, b);
      var header := PrintChoices(es[0].guards, Sp(K(ARROW, Line(b))));
      SpacePrinted(indent, K(WHEN, Sp(header)));
    }
  }

  lemma {:induction false} SeqPrinted(ss: seq<Stmt>, indent: string, r: Text)
    requires SeqMade(ss) && AllLexemes(r)
    ensures AllLexemes(PrintSeq(ss, indent, r))
    decreases ss, 2
  {
    hide AllLexemes, StmtMade, PrintStmt;
    if ss != [] {
      var m := PrintSeq(ss[1..], indent, r);
      SeqPrinted(ss[1..], indent, r);
      SpacePrinted("", m);
      StmtPrinted(ss[0], indent + INDENT, Line(m));
      SpacePrinted(indent, PrintStmt(ss[0], indent + INDENT, Line(m)));
    }
  }

  // ==== tools/socgen/vhdl: the tokens of a parsed statement come from the source or are spelled like a token kind.

  // ---- Parsing ----

  lemma {:induction false} OptMadeBy(k: Kind, ts: Stream)
    requires Origin(ts) && ParseOpt(k, ts).errs == 0
    ensures OptMade(ParseOpt(k, ts).v) && Origin(ParseOpt(k, ts).rest)
  {
    hide ParseExpr, Made, Origin;
    if At(ts) == k {
      AdvOrigin(ts);
      ExprMade(Adv(ts));
    }
  }

  lemma {:induction false} LabelMadeBy(ts: Stream)
    requires Origin(ts)
    ensures LabelMade(ParseLabel(ts).v) && Origin(ParseLabel(ts).rest)
  {
    hide Origin, IsLexeme;
    AdvOrigin(ts);
  }

  lemma {:induction false} ExpectMade(k: Kind, ts: Stream)
    requires Origin(ts) && Expect(k, ts).errs == 0 && k != EOF
    ensures Origin(Expect(k, ts).rest) && Expect(k, ts).rest == Adv(ts) && At(ts) == k && IsLexeme(Cur(ts))
  {
    hide Origin, IsLexeme;
    AdvOrigin(ts);
  }

  lemma {:induction false} EndedMade(ts: Stream)
    requires Origin(ts) && Expect(SEMICOLON, ts).errs == 0
    ensures Origin(Expect(SEMICOLON, ts).rest)
  {
    hide Origin;
    ExpectMade(SEMICOLON, ts);
  }

  lemma {:induction false} EndMadeBy(k: Kind, ts: Stream)
    requires Origin(ts) && ParseEnd(k, ts).errs == 0 && k != EOF
    ensures Origin(ParseEnd(k, ts).rest)
  {
    hide Origin, Expect, IsLexeme;
    var e := Expect(END, ts);
    var f := Expect(k, e.rest);
    ExpectMade(END, ts);
    ExpectMade(k, e.rest);
    LabelMadeBy(f.rest);
    ExpectMade(SEMICOLON, ParseLabel(f.rest).rest);
  }

  lemma {:induction false} DelayMadeBy(ts: Stream)
    requires Origin(ts) && ParseDelay(ts).errs == 0
    ensures DelayMade(ParseDelay(ts).v) && Origin(ParseDelay(ts).rest)
  {
    hide ParseExpr, Made, Origin, Expect, IsLexeme;
    AdvOrigin(ts);
    if At(ts) == REJECT {
      ExprMade(Adv(ts));
      ExpectMade(INERTIAL, ParseExpr(Adv(ts)).rest);
    }
  }

  lemma {:induction false} WaveMadeBy(ts: Stream)
    requires Origin(ts) && ParseWave(ts).errs == 0
    ensures WaveMade(ParseWave(ts).v) && Origin(ParseWave(ts).rest)
  {
    hide ParseExpr, ParseOpt, Made, OptMade, Origin;
    ExprMade(ts);
    OptMadeBy(AFTER, ParseExpr(ts).rest);
  }

  lemma {:induction false} WavesMadeBy(ts: Stream)
    requires Origin(ts) && ParseWaves(ts).errs == 0
    ensures WavesMade(ParseWaves(ts).v) && Origin(ParseWaves(ts).rest)
  {
    hide ParseWave, MoreWaves, WaveMade, Origin;
    WaveMadeBy(ts);
    MoreWavesMade([ParseWave(ts).v], ParseWave(ts).rest);
  }

  lemma {:induction false} MoreWavesMade(acc: seq<Wave>, ts: Stream)
    requires Origin(ts) && WavesMade(acc) && MoreWaves(acc, ts, NO_ERRORS).errs == 0
    ensures WavesMade(MoreWaves(acc, ts, NO_ERRORS).v) && Origin(MoreWaves(acc, ts, NO_ERRORS).rest)
    decreases Len(ts)
  {
    hide ParseWave, WaveMade, Origin;
    if At(ts) == COMMA {
      var w := ParseWave(Adv(ts));
      AdvOrigin(ts);
      WaveMadeBy(Adv(ts));
      MoreWavesMade(acc + [w.v], w.rest);
    }
  }

  /** A name may be read from the end of the text; it is then a delimiter's empty name. */
  lemma {:induction false} NameRead(ts: Stream)
    requires Origin(ts) && ParseName(ts).errs == 0
    ensures Made(ParseName(ts).v) && Origin(ParseName(ts).rest)
  {
    hide ParseName, Made, Origin;
    if ts.More? { NameMadeBy(ts); } else { EmptyRead(ts); }
  }

  lemma {:induction false} EmptyRead(ts: Stream)
    requires ts.Done?
    ensures ParseName(ts) == R(Ident([]), Done, NO_ERRORS) && Made(Ident([])) && Origin(ts)
  {
    hide IsLexeme;
  }

  lemma {:induction false} MoreNamesMade(acc: seq<Expr>, ts: Stream)
    requires Origin(ts) && AllMade(acc) && MoreNames(acc, ts, NO_ERRORS).errs == 0
    ensures AllMade(MoreNames(acc, ts, NO_ERRORS).v) && Origin(MoreNames(acc, ts, NO_ERRORS).rest)
    decreases Len(ts)
  {
    hide ParseName, Made, Origin;
    if At(ts) == COMMA {
      var n := ParseName(Adv(ts));
      AdvOrigin(ts);
      NameRead(Adv(ts));
      MoreNamesMade(acc + [n.v], n.rest);
    }
  }

  lemma {:induction false} OnMade(ts: Stream)
    requires Origin(ts) && ParseOn(ts).errs == 0
    ensures AllMade(ParseOn(ts).v) && Origin(ParseOn(ts).rest)
  {
    hide ParseName, MoreNames, Made, Origin;
    if At(ts) == ON {
      AdvOrigin(ts);
      NameRead(Adv(ts));
      MoreNamesMade([ParseName(Adv(ts)).v], ParseName(Adv(ts)).rest);
    }
  }

  lemma {:induction false} SchemeMadeBy(ts: Stream)
    requires Origin(ts) && ParseScheme(ts).errs == 0
    ensures SchemeMade(ParseScheme(ts).v) && Origin(ParseScheme(ts).rest)
  {
    hide ParseExpr, ParseFor, Made, Origin, IsLexeme;
    AdvOrigin(ts);
    if At(ts) == FOR { ForMade(Adv(ts)); } else if At(ts) == WHILE { ExprMade(Adv(ts)); }
  }

  lemma {:induction false} ForMade(ts: Stream)
    requires Origin(ts) && ParseFor(ts).errs == 0
    ensures SchemeMade(ParseFor(ts).v) && Origin(ParseFor(ts).rest)
  {
    hide ParseExpr, ParseOpt, Made, Origin, IsLexeme;
    var i := Expect(IN, Expect(IDENT, ts).rest);
    var x := ParseExpr(i.rest);
    ExpectMade(IDENT, ts);
    ExpectMade(IN, Expect(IDENT, ts).rest);
    ExprMade(i.rest);
    OptMadeBy(RANGE, x.rest);
  }

  lemma {:induction false} SimpleMadeBy(ts: Stream)
    requires Origin(ts) && ts.More?
    ensures GoodForm(ParseSimple(ts))
  {
    hide Origin, ParseJump, ParseReturn, ParseWait, ParseAssert, ParseReport, ParseNamed, IsLexeme, GoodForm;
    AdvOrigin(ts);
    var k := At(ts);
    if k == NULL {
      NullMade(Adv(ts));
    } else if k == NEXT {
      JumpMade(true, Adv(ts));
    } else if k == EXIT {
      JumpMade(false, Adv(ts));
    } else if k == RETURN {
      ReturnMade(Adv(ts));
    } else if k == WAIT {
      WaitMade(Adv(ts));
    } else if k == ASSERT {
      AssertMade(Adv(ts));
    } else if k == REPORT {
      ReportMade(Adv(ts));
    } else {
      NamedMade(ts);
    }
  }

  lemma {:induction false} NullMade(ts: Stream)
    requires Origin(ts)
    ensures GoodForm(Ended(Some(NullStmt), ts, NO_ERRORS))
  {
    hide Origin;
    if Expect(SEMICOLON, ts).errs == 0 { EndedMade(ts); }
  }

  lemma {:induction false} JumpMade(next: bool, ts: Stream)
    requires Origin(ts)
    ensures GoodForm(ParseJump(next, ts))
  {
    hide Origin, ParseLabel, ParseOpt, OptMade, LabelMade, Expect;
    if ParseJump(next, ts).errs == 0 {
      var l := ParseLabel(ts);
      LabelMadeBy(ts);
      OptMadeBy(WHEN, l.rest);
      EndedMade(ParseOpt(WHEN, l.rest).rest);
    }
  }

  lemma {:induction false} ReturnMade(ts: Stream)
    requires Origin(ts)
    ensures GoodForm(ParseReturn(ts))
  {
    hide Origin, ParseExpr, Made, Expect, IsLexeme;
    AdvOrigin(ts);
    if ParseReturn(ts).errs == 0 && At(ts) != SEMICOLON {
      ExprMade(ts);
      EndedMade(ParseExpr(ts).rest);
    }
  }

  lemma {:induction false} WaitMade(ts: Stream)
    requires Origin(ts)
    ensures GoodForm(ParseWait(ts))
  {
    hide Origin, ParseOn, ParseOpt, OptMade, AllMade, Expect;
    if ParseWait(ts).errs == 0 {
      var n := ParseOn(ts);
      var u := ParseOpt(UNTIL, n.rest);
      OnMade(ts);
      OptMadeBy(UNTIL, n.rest);
      OptMadeBy(FOR, u.rest);
      EndedMade(ParseOpt(FOR, u.rest).rest);
    }
  }

  lemma {:induction false} AssertMade(ts: Stream)
    requires Origin(ts)
    ensures GoodForm(ParseAssert(ts))
  {
    hide Origin, ParseExpr, ParseOpt, OptMade, Made, Expect;
    if ParseAssert(ts).errs == 0 {
      var m := ParseOpt(REPORT, ParseExpr(ts).rest);
      ExprMade(ts);
      OptMadeBy(REPORT, ParseExpr(ts).rest);
      OptMadeBy(SEVERITY, m.rest);
      EndedMade(ParseOpt(SEVERITY, m.rest).rest);
    }
  }

  lemma {:induction false} ReportMade(ts: Stream)
    requires Origin(ts)
    ensures GoodForm(ParseReport(ts))
  {
    hide Origin, ParseExpr, ParseOpt, OptMade, Made, Expect;
    if ParseReport(ts).errs == 0 {
      ExprMade(ts);
      OptMadeBy(SEVERITY, ParseExpr(ts).rest);
      EndedMade(ParseOpt(SEVERITY, ParseExpr(ts).rest).rest);
    }
  }

  lemma {:induction false} NamedMade(ts: Stream)
    requires Origin(ts)
    ensures GoodForm(ParseNamed(ts))
  {
    hide Origin, ParseName, ParseNamed, GoodForm;
    if At(ParseName(ts).rest) == LE {
      SignalMade(ts);
    } else if At(ParseName(ts).rest) == ASSIGN {
      AssignMade(ts);
    } else {
      ProcMade(ts);
    }
  }

  lemma {:induction false} SignalMade(ts: Stream)
    requires Origin(ts) && At(ParseName(ts).rest) == LE
    ensures GoodForm(ParseNamed(ts))
  {
    hide Origin, ParseName, ParseDelay, ParseWaves, DelayMade, WavesMade, Made, Expect, IsLexeme;
    if ParseNamed(ts).errs == 0 {
      var t := ParseName(ts);
      var d := ParseDelay(Adv(t.rest));
      NameRead(ts);
      AdvOrigin(t.rest);
      DelayMadeBy(Adv(t.rest));
      WavesMadeBy(d.rest);
      EndedMade(ParseWaves(d.rest).rest);
    }
  }

  lemma {:induction false} AssignMade(ts: Stream)
    requires Origin(ts) && At(ParseName(ts).rest) == ASSIGN
    ensures GoodForm(ParseNamed(ts))
  {
    hide Origin, ParseName, ParseExpr, Made, Expect, IsLexeme;
    if ParseNamed(ts).errs == 0 {
      var t := ParseName(ts);
      NameRead(ts);
      AdvOrigin(t.rest);
      ExprMade(Adv(t.rest));
      EndedMade(ParseExpr(Adv(t.rest)).rest);
    }
  }

  lemma {:induction false} ProcMade(ts: Stream)
    requires Origin(ts) && At(ParseName(ts).rest) != LE && At(ParseName(ts).rest) != ASSIGN
    ensures GoodForm(ParseNamed(ts))
  {
    hide Origin, ParseName, Made, AssocsMade, Merge, IsLexeme;
    if ParseNamed(ts).errs == 0 {
      var t := ParseName(ts);
      NameRead(ts);
      AdvOrigin(t.rest);
      if t.v.Call? {
        CallParts(t.v);
        MergeMade(t.v.fun);
        EndedMade(t.rest);
      } else {
        NoneMade();
      }
    }
  }

  lemma {:induction false} NoneMade()
    ensures AssocsMade([])
  {
  }

  lemma {:induction false} CallParts(e: Expr)
    requires Made(e) && e.Call?
    ensures Made(e.fun) && AssocsMade(e.args)
  {
  }

  lemma {:induction false} StmtMadeBy(ts: Stream)
    requires Origin(ts) && ts.More?
    ensures GoodStmt(ParseStmt(ts))
    decreases Len(ts), 2
  {
    hide Origin, ParseForm, FormMade, IsLexeme;
    AdvOrigin(ts);
    AdvOrigin(Adv(ts));
    if At(ts) == IDENT && Peek(ts) == COLON { FormMadeBy(Adv(Adv(ts))); } else { FormMadeBy(ts); }
  }

  lemma {:induction false} FormMadeBy(ts: Stream)
    requires Origin(ts)
    ensures GoodForm(ParseForm(ts))
    decreases Len(ts), 1
  {
    hide Origin, ParseIf, ParseCase, ParseLoop, ParseSimple, GoodForm;
    var k := At(ts);
    if k == IF {
      IfMade(ts);
    } else if k == CASE {
      CaseMade(ts);
    } else if k == FOR || k == WHILE || k == LOOP {
      LoopMade(ts);
    } else {
      if ts.More? { SimpleMadeBy(ts); } else { NothingRead(ts); }
    }
  }

  lemma {:induction false} NothingRead(ts: Stream)
    requires ts.Done?
    ensures GoodForm(ParseSimple(ts))
  {
    hide ParseDelay, ParseWaves, ParseExpr, ParseName;
    EmptyRead(ts);
  }

  lemma {:induction false} IfMade(ts: Stream)
    requires Origin(ts) && At(ts) == IF
    ensures GoodForm(ParseIf(ts))
    decreases Len(ts), 0
  {
    hide Origin, ParseExpr, ParseSeq, ParseElsifs, ParseElse, ParseEnd, Expect, Made, SeqMade, ClausesMade, IsLexeme;
    if ParseIf(ts).errs == 0 {
      var c := ParseExpr(Adv(ts));
      var t := Expect(THEN, c.rest);
      var b := ParseSeq(ElseOrEnd, t.rest);
      var es := ParseElsifs(b.rest);
      AdvOrigin(ts);
      ExprMade(Adv(ts));
      ExpectMade(THEN, c.rest);
      SeqMadeBy(ElseOrEnd, t.rest);
      ElsifsMade(b.rest);
      ElseMade(es.rest);
      EndMadeBy(IF, ParseElse(es.rest).rest);
    }
  }

  lemma {:induction false} ElseMade(ts: Stream)
    requires Origin(ts) && ParseElse(ts).errs == 0
    ensures (ParseElse(ts).v.Else? ==> SeqMade(ParseElse(ts).v.body)) && Origin(ParseElse(ts).rest)
    decreases Len(ts), 0
  {
    hide Origin, ParseSeq, SeqMade, IsLexeme;
    if At(ts) == ELSE {
      AdvOrigin(ts);
      SeqMadeBy(OnlyEnd, Adv(ts));
    }
  }

  lemma {:induction false} CaseMade(ts: Stream)
    requires Origin(ts) && At(ts) == CASE
    ensures GoodForm(ParseCase(ts))
    decreases Len(ts), 0
  {
    hide Origin, ParseExpr, ParseAlts, ParseEnd, Expect, Made, ClausesMade, IsLexeme;
    if ParseCase(ts).errs == 0 {
      var c := ParseExpr(Adv(ts));
      var i := Expect(IS, c.rest);
      AdvOrigin(ts);
      ExprMade(Adv(ts));
      ExpectMade(IS, c.rest);
      AltsMade(i.rest);
      EndMadeBy(CASE, ParseAlts(i.rest).rest);
    }
  }

  lemma {:induction false} LoopMade(ts: Stream)
    requires Origin(ts) && (At(ts) == FOR || At(ts) == WHILE || At(ts) == LOOP)
    ensures GoodForm(ParseLoop(ts))
    decreases Len(ts), 0
  {
    hide Origin, ParseScheme, ParseSeq, ParseEnd, Expect, SchemeMade, SeqMade, IsLexeme;
    if ParseLoop(ts).errs == 0 {
      var h := ParseScheme(ts);
      var l := Expect(LOOP, h.rest);
      SchemeMadeBy(ts);
      ExpectMade(LOOP, h.rest);
      SeqMadeBy(OnlyEnd, l.rest);
      EndMadeBy(LOOP, ParseSeq(OnlyEnd, l.rest).rest);
    }
  }

  lemma {:induction false} ElsifsMade(ts: Stream)
    requires Origin(ts) && ParseElsifs(ts).errs == 0
    ensures ClausesMade(ParseElsifs(ts).v) && Origin(ParseElsifs(ts).rest)
    decreases Len(ts), 0
  {
    hide Origin, ParseExpr, ParseSeq, Expect, Made, SeqMade, IsLexeme;
    if At(ts) == ELSIF {
      var c := ParseExpr(Adv(ts));
      var t := Expect(THEN, c.rest);
      var b := ParseSeq(ElseOrEnd, t.rest);
      AdvOrigin(ts);
      ExprMade(Adv(ts));
      ExpectMade(THEN, c.rest);
      SeqMadeBy(ElseOrEnd, t.rest);
      ElsifsMade(b.rest);
    }
  }

  lemma {:induction false} AltsMade(ts: Stream)
    requires Origin(ts) && ParseAlts(ts).errs == 0
    ensures ClausesMade(ParseAlts(ts).v) && Origin(ParseAlts(ts).rest)
    decreases Len(ts), 0
  {
    hide Origin, ParseChoices, ParseSeq, Expect, AllMade, SeqMade, IsLexeme;
    if At(ts) == WHEN {
      var cs := ParseChoices(Adv(ts));
      var a := Expect(ARROW, cs.rest);
      var b := ParseSeq(WhenOrEnd, a.rest);
      AdvOrigin(ts);
      ChoicesMadeBy(Adv(ts));
      ExpectMade(ARROW, cs.rest);
      SeqMadeBy(WhenOrEnd, a.rest);
      AltsMade(b.rest);
    }
  }

  lemma {:induction false} ChoicesMadeBy(ts: Stream)
    requires Origin(ts) && ParseChoices(ts).errs == 0
    ensures AllMade(ParseChoices(ts).v) && Origin(ParseChoices(ts).rest)
  {
    hide Origin, ParseExpr, MoreChoices, Made;
    ExprMade(ts);
    MoreChoicesMade([ParseExpr(ts).v], ParseExpr(ts).rest);
  }

  lemma {:induction false} SeqMadeBy(stops: Stops, ts: Stream)
    requires Origin(ts) && ParseSeq(stops, ts).errs == 0
    ensures SeqMade(ParseSeq(stops, ts).v) && Origin(ParseSeq(stops, ts).rest)
    decreases Len(ts), 3
  {
    hide Origin, ParseStmt, StmtMade;
    if At(ts) != EOF && !IsStop(stops, At(ts)) {
      StmtMadeBy(ts);
      SeqMadeBy(stops, ParseStmt(ts).rest);
    }
  }

  // ==== tools/socgen/vhdl: from source text to statement, to printed text, and back.

  /** The printed text of a statement lexes to the statement's tokens exactly when every token keeps its meaning. */
  lemma {:induction false} StmtTextLexes(s: Stmt, indent: string, strict: bool)
    requires IsStmt(s, strict) && ShortHeads(s) && Blank(indent) && AllLexemes(PrintStmt(s, indent, Empty))
    ensures Lex(Render(PrintStmt(s, indent, Empty)), 0, ILLEGAL) == StmtAhead(s, Done) <==> AllKeep(PrintStmt(s, indent, Empty), ILLEGAL)
  {
    hide IsStmt, AllLexemes, AllKeep, Render, PrintStmt, StmtAhead, Lex, ShortHeads, Blank;
    var t := PrintStmt(s, indent, Empty);
    StmtApart(s, indent, Empty, strict, ILLEGAL);
    LexText(t, "", ILLEGAL);
    StmtTokens(s, indent, Empty);
    assert "" + Render(t) == Render(t);
  }

  /** What parsing a source text as a statement gives. */
  function ReadStmt(src: string): R<Option<Stmt>> { ParseStmt(Lex(src, 0, ILLEGAL)) }

  /** The text a parsed statement is printed as. */
  function Printed(src: string, indent: string): Text { PrintStmt(StmtOf(ReadStmt(src)), indent, Empty) }

  /** A statement from source text: the printed text lexes to its tokens exactly when every token keeps its meaning. */
  lemma {:induction false} StmtSourceLexes(src: string, indent: string)
    requires ReadStmt(src).errs == 0 && Lex(src, 0, ILLEGAL).More? && Blank(indent)
    requires Printable(StmtOf(ReadStmt(src))) && ShortHeads(StmtOf(ReadStmt(src)))
    ensures Lex(Render(Printed(src, indent)), 0, ILLEGAL) == StmtAhead(StmtOf(ReadStmt(src)), Done) <==> AllKeep(Printed(src, indent), ILLEGAL)
  {
    hide IsStmt, AllLexemes, AllKeep, Render, PrintStmt, StmtAhead, Lex, ShortHeads, Blank, ParseStmt, Printable, StmtMade, Origin, Clean;
    var ts := Lex(src, 0, ILLEGAL);
    LexClean(src, 0, ILLEGAL);
    StmtSound(ts, false);
    NoneLeft();
    StmtMadeBy(ts);
    StmtPrinted(StmtOf(ReadStmt(src)), indent, Empty);
    StmtTextLexes(StmtOf(ReadStmt(src)), indent, false);
  }

  /** With tokens that keep their meaning, the statement itself comes back exactly when it is one of the strict grammar. */
  lemma {:induction false} StmtSourceRoundTripExact(src: string, indent: string)
    requires ReadStmt(src).errs == 0 && Lex(src, 0, ILLEGAL).More? && Blank(indent)
    requires Printable(StmtOf(ReadStmt(src))) && ShortHeads(StmtOf(ReadStmt(src))) && AllKeep(Printed(src, indent), ILLEGAL)
    ensures ReadStmt(Render(Printed(src, indent))) == R(ReadStmt(src).v, Done, NO_ERRORS) <==> IsStmt(StmtOf(ReadStmt(src)), true)
  {
    hide IsStmt, AllKeep, Render, PrintStmt, StmtAhead, Lex, ShortHeads, Blank, ParseStmt, Printable, Clean;
    var ts := Lex(src, 0, ILLEGAL);
    StmtSourceLexes(src, indent);
    LexClean(src, 0, ILLEGAL);
    StmtTokens(StmtOf(ReadStmt(src)), indent, Empty);
    StmtRoundTripExact(ts, indent, Empty);
  }

  // ==== tools/socgen/vhdl: the tokens that a parsed statement was read from are its printed tokens, but for those the parser drops. So a
  // statement whose printed text is misread does not come back from it.

  // ---- Thinning ----

  lemma {:induction false} ThinsTwice(a: Stream, b: Stream, c: Stream)
    requires Thins(a, b) && Thins(b, c)
    ensures Thins(a, c)
    decreases a, b
  {
    if a.More? && b.More? && Same(a.head, b.head) && Thins(a.tail, b.tail) {
      if c.More? && Same(b.head, c.head) && Thins(b.tail, c.tail) { ThinsTwice(a.tail, b.tail, c.tail); } else { ThinsTwice(a.tail, b.tail, c); }
    } else if a.More? {
      ThinsTwice(a.tail, b, c);
    }
  }

  lemma {:induction false} AheadThins(name: seq<Token>, s: Stream, r: Stream)
    requires Thins(s, r)
    ensures Thins(Ahead(name, s), Ahead(name, r))
  {
    if name != [] { AheadThins(name[1..], s, r); }
  }

  /** The keywords and signs of statements. */
  predicate Marks(k: Kind) { (IsKeyword(k) || IsDelimiter(k)) && k != EOF }

  lemma {:induction false} MarkKinds()
    ensures Marks(SEMICOLON) && Marks(COLON) && Marks(COMMA) && Marks(ARROW) && Marks(LE) && Marks(ASSIGN) && Marks(LPAREN) && Marks(RPAREN)
  {
  }

  lemma {:induction false} WordMarks()
    ensures Marks(END) && Marks(IF) && Marks(THEN) && Marks(ELSIF) && Marks(ELSE) && Marks(CASE) && Marks(IS)
    ensures Marks(WHEN) && Marks(LOOP) && Marks(FOR) && Marks(WHILE) && Marks(IN) && Marks(RANGE) && Marks(NULL)
    ensures Marks(NEXT) && Marks(EXIT) && Marks(RETURN) && Marks(ASSERT) && Marks(REPORT) && Marks(SEVERITY)
    ensures Marks(WAIT) && Marks(ON) && Marks(UNTIL) && Marks(AFTER) && Marks(TRANSPORT) && Marks(REJECT) && Marks(INERTIAL)
  {
    hide Marks;
    BlockMarks();
    LoopMarks();
    VerbMarks();
    PartMarks();
  }

  lemma {:induction false} BlockMarks()
    ensures Marks(END) && Marks(IF) && Marks(THEN) && Marks(ELSIF) && Marks(ELSE) && Marks(CASE) && Marks(IS)
  {
  }

  lemma {:induction false} LoopMarks()
    ensures Marks(WHEN) && Marks(LOOP) && Marks(FOR) && Marks(WHILE) && Marks(IN) && Marks(RANGE) && Marks(NULL)
  {
  }

  lemma {:induction false} VerbMarks()
    ensures Marks(NEXT) && Marks(EXIT) && Marks(RETURN) && Marks(ASSERT) && Marks(REPORT) && Marks(SEVERITY)
  {
  }

  lemma {:induction false} PartMarks()
    ensures Marks(WAIT) && Marks(ON) && Marks(UNTIL) && Marks(AFTER) && Marks(TRANSPORT) && Marks(REJECT) && Marks(INERTIAL)
  {
  }

  lemma {:induction false} MarkKept(ts: Stream, us: Stream)
    requires Marks(At(ts)) && Thins(Adv(ts), us)
    ensures ts.More? && Thins(ts, Tok(At(ts), us))
  {
    hide IsKeyword, IsDelimiter, Thins;
    KeepKind(ts, us);
  }

  lemma {:induction false} ExpectThin(k: Kind, ts: Stream, us: Stream)
    requires Expect(k, ts).errs == 0 && Marks(k) && Thins(Expect(k, ts).rest, us)
    ensures Thins(ts, Tok(k, us)) && Expect(k, ts).rest == Adv(ts) && At(ts) == k
  {
    hide Marks, Thins;
    MarkKept(ts, us);
  }

  // ---- Parts of statements ----

  lemma {:induction false} OptThin(k: Kind, ts: Stream, us: Stream)
    requires Clean(ts, false) && ParseOpt(k, ts).errs == 0 && Marks(k) && Thins(ParseOpt(k, ts).rest, us)
    ensures Thins(ts, OptAhead(k, ParseOpt(k, ts).v, us))
  {
    hide ParseExpr, ExprAhead, Thins, Clean, Marks;
    if At(ts) == k {
      CleanAdv(ts, false);
      ExprThin(Adv(ts), us);
      MarkKept(ts, ExprAhead(ParseExpr(Adv(ts)).v, us));
    }
  }

  lemma {:induction false} LabelThin(ts: Stream, us: Stream)
    requires Thins(ParseLabel(ts).rest, us)
    ensures Thins(ts, LabelAhead(ParseLabel(ts).v, us)) && Thins(ts, us)
  {
    hide Thins;
    if At(ts) == IDENT {
      KeepOne(ts, us);
      DropOne(ts, us);
    }
  }

  lemma {:induction false} EndThin(k: Kind, ts: Stream, us: Stream)
    requires ParseEnd(k, ts).errs == 0 && Marks(k) && Thins(ParseEnd(k, ts).rest, us)
    ensures Thins(ts, EndAhead(k, us))
  {
    hide Thins, Marks, Expect, ParseLabel;
    MarkKinds();
    WordMarks();
    var f := Expect(k, Expect(END, ts).rest);
    var l := ParseLabel(f.rest).rest;
    ExpectThin(SEMICOLON, l, us);
    LabelThin(f.rest, Tok(SEMICOLON, us));
    ExpectThin(k, Expect(END, ts).rest, Tok(SEMICOLON, us));
    ExpectThin(END, ts, Tok(k, Tok(SEMICOLON, us)));
  }

  lemma {:induction false} DelayThin(ts: Stream, us: Stream)
    requires Clean(ts, false) && ParseDelay(ts).errs == 0 && Thins(ParseDelay(ts).rest, us)
    ensures Thins(ts, DelayAhead(ParseDelay(ts).v, us))
  {
    hide ParseExpr, ExprAhead, Thins, Clean, Marks, Expect;
    WordMarks();
    if At(ts) == REJECT {
      CleanAdv(ts, false);
      ExpectThin(INERTIAL, ParseExpr(Adv(ts)).rest, us);
      ExprThin(Adv(ts), Tok(INERTIAL, us));
      MarkKept(ts, ExprAhead(ParseExpr(Adv(ts)).v, Tok(INERTIAL, us)));
    } else if At(ts) == TRANSPORT || At(ts) == INERTIAL {
      MarkKept(ts, us);
    }
  }

  lemma {:induction false} WaveThin(ts: Stream, us: Stream)
    requires Clean(ts, false) && ParseWave(ts).errs == 0 && Thins(ParseWave(ts).rest, us)
    ensures Thins(ts, WaveAhead(ParseWave(ts).v, us))
  {
    hide ParseExpr, ExprAhead, ParseOpt, OptAhead, Thins, Clean, Marks;
    WordMarks();
    ExprSound(ts, false);
    OptThin(AFTER, ParseExpr(ts).rest, us);
    ExprThin(ts, OptAhead(AFTER, ParseOpt(AFTER, ParseExpr(ts).rest).v, us));
  }

  lemma {:induction false} MoreWavesThin(acc: seq<Wave>, ts: Stream, us: Stream) returns (s: Stream)
    requires Clean(ts, false) && MoreWaves(acc, ts, NO_ERRORS).errs == 0 && Thins(MoreWaves(acc, ts, NO_ERRORS).rest, us)
    ensures s == MoreWavesAhead(MoreWaves(acc, ts, NO_ERRORS).v[|acc|..], us) && Thins(ts, s)
    decreases Len(ts)
  {
    hide Clean, Thins, ParseWave, WaveAhead, Marks;
    s := us;
    if At(ts) == COMMA {
      var w := ParseWave(Adv(ts));
      CleanAdv(ts, false);
      WaveSound(Adv(ts), false);
      var m := MoreWavesThin(acc + [w.v], w.rest, us);
      WaveThin(Adv(ts), m);
      MarkKinds();
      MarkKept(ts, WaveAhead(w.v, m));
      var v := MoreWaves(acc, ts, 0).v[|acc|..];
      assert v[0] == w.v && v[1..] == MoreWaves(acc, ts, 0).v[|acc| + 1..];
      s := Tok(COMMA, WaveAhead(w.v, m));
    }
  }

  lemma {:induction false} WavesThin(ts: Stream, us: Stream)
    requires Clean(ts, false) && ParseWaves(ts).errs == 0 && Thins(ParseWaves(ts).rest, us)
    ensures Thins(ts, WavesAhead(ParseWaves(ts).v, us))
  {
    hide Clean, Thins, ParseWave, WaveAhead, MoreWaves;
    var w := ParseWave(ts);
    WaveSound(ts, false);
    var m := MoreWavesThin([w.v], w.rest, us);
    WaveThin(ts, m);
    assert ParseWaves(ts).v[0] == w.v;
  }

  lemma {:induction false} ChoicesThin(ts: Stream, us: Stream)
    requires Clean(ts, false) && ParseChoices(ts).errs == 0 && Thins(ParseChoices(ts).rest, us)
    ensures Thins(ts, ChoicesAhead(ParseChoices(ts).v, us))
  {
    hide Clean, Thins, ParseExpr, ExprAhead, MoreChoices;
    var x := ParseExpr(ts);
    ExprSound(ts, false);
    var m := MoreChoicesThin([x.v], x.rest, us);
    ExprThin(ts, m);
    assert ParseChoices(ts).v[0] == x.v;
  }

  lemma {:induction false} SpelledNameThin(ts: Stream, us: Stream)
    requires Clean(ts, false) && ParseName(ts).errs == 0 && HeadOf(ParseName(ts).v).lit != "" && Thins(ParseName(ts).rest, us)
    ensures Thins(ts, ExprAhead(ParseName(ts).v, us)) && Clean(ParseName(ts).rest, false)
  {
    hide ParseName, HeadOf, Clean, Thins, IsName;
    if Cur(ts).lit == "" { NameHead(ts); }
    SpelledMore(ts);
    NameThin(ts, us);
  }

  lemma {:induction false} SpelledMore(ts: Stream)
    requires Cur(ts).lit != ""
    ensures ts.More?
  {
  }

  lemma {:induction false} MoreNamesThin(acc: seq<Expr>, ts: Stream, us: Stream) returns (s: Stream)
    requires Clean(ts, false) && MoreNames(acc, ts, NO_ERRORS).errs == 0 && AllSpelled(MoreNames(acc, ts, NO_ERRORS).v) && Thins(MoreNames(acc, ts, NO_ERRORS).rest, us)
    ensures s == MoreNamesAhead(MoreNames(acc, ts, NO_ERRORS).v[|acc|..], us) && Thins(ts, s)
    decreases Len(ts)
  {
    hide Clean, Thins, ParseName, HeadOf, ExprAhead, Marks, IsName;
    s := us;
    if At(ts) == COMMA {
      var n := ParseName(Adv(ts));
      CleanAdv(ts, false);
      assert (acc + [n.v])[|acc|] == n.v;
      assert n.v in MoreNames(acc + [n.v], n.rest, n.errs).v;
      SpelledNameSound(Adv(ts), false);
      var m := MoreNamesThin(acc + [n.v], n.rest, us);
      SpelledNameThin(Adv(ts), m);
      MarkKinds();
      MarkKept(ts, ExprAhead(n.v, m));
      var v := MoreNames(acc, ts, 0).v[|acc|..];
      assert v[0] == n.v && v[1..] == MoreNames(acc, ts, 0).v[|acc| + 1..];
      s := Tok(COMMA, ExprAhead(n.v, m));
    }
  }

  lemma {:induction false} OnThin(ts: Stream, us: Stream)
    requires Clean(ts, false) && ParseOn(ts).errs == 0 && AllSpelled(ParseOn(ts).v) && Thins(ParseOn(ts).rest, us)
    ensures Thins(ts, NamesAhead(ParseOn(ts).v, us))
  {
    hide Clean, Thins, ParseName, HeadOf, ExprAhead, Marks, IsName, MoreNames;
    if At(ts) == ON {
      var n := ParseName(Adv(ts));
      CleanAdv(ts, false);
      assert [n.v][0] == n.v;
      assert n.v in MoreNames([n.v], n.rest, n.errs).v;
      SpelledNameSound(Adv(ts), false);
      var m := MoreNamesThin([n.v], n.rest, us);
      SpelledNameThin(Adv(ts), m);
      WordMarks();
      MarkKept(ts, ExprAhead(n.v, m));
      assert ParseOn(ts).v[0] == n.v;
    }
  }

  lemma {:induction false} ForThin(ts: Stream, us: Stream)
    requires Clean(ts, false) && ParseFor(ts).errs == 0 && Thins(ParseFor(ts).rest, us)
    ensures var h := ParseFor(ts).v;
            var over := if h.ofMark.None? then ExprAhead(h.range, us) else ExprAhead(h.ofMark.value, Tok(RANGE, ExprAhead(h.range, us)));
            Thins(ts, More(h.param, Tok(IN, over)))
  {
    hide Clean, Thins, ParseExpr, ExprAhead, Marks;
    WordMarks();
    var p := Expect(IDENT, ts);
    var i := Expect(IN, p.rest);
    var x := ParseExpr(i.rest);
    CleanAdv(ts, false);
    CleanAdv(p.rest, false);
    ExprSound(i.rest, false);
    OptThin(RANGE, x.rest, us);
    ExprThin(i.rest, OptAhead(RANGE, ParseOpt(RANGE, x.rest).v, us));
    var over := ExprAhead(x.v, OptAhead(RANGE, ParseOpt(RANGE, x.rest).v, us));
    ExpectThin(IN, p.rest, over);
    KeepOne(ts, Tok(IN, over));
  }

  lemma {:induction false} SchemeThin(ts: Stream, us: Stream)
    requires Clean(ts, false) && ParseScheme(ts).errs == 0 && Thins(ParseScheme(ts).rest, us)
    ensures Thins(ts, SchemeAhead(ParseScheme(ts).v, us))
  {
    hide Clean, Thins, ParseExpr, ParseFor, ExprAhead, Marks;
    WordMarks();
    CleanAdv(ts, false);
    if At(ts) == FOR {
      ForThin(Adv(ts), us);
      var h := ParseFor(Adv(ts)).v;
      IsFor(Adv(ts));
      var over := if h.ofMark.None? then ExprAhead(h.range, us) else ExprAhead(h.ofMark.value, Tok(RANGE, ExprAhead(h.range, us)));
      MarkKept(ts, More(h.param, Tok(IN, over)));
    } else if At(ts) == WHILE {
      ExprThin(Adv(ts), us);
      MarkKept(ts, ExprAhead(ParseExpr(Adv(ts)).v, us));
    }
  }

  lemma {:induction false} IsFor(ts: Stream)
    ensures ParseFor(ts).v.For?
  {
    hide ParseExpr, ParseOpt;
  }

  // ---- Statements without inner statements ----

  lemma {:induction false} JumpThin(next: bool, ts: Stream, us: Stream)
    requires Clean(ts, false) && At(ts) == if next then NEXT else EXIT
    requires ParseJump(next, Adv(ts)).errs == 0 && Thins(ParseJump(next, Adv(ts)).rest, us)
    ensures Thins(ts, SimpleAhead(FormOf(ParseJump(next, Adv(ts))), Tok(SEMICOLON, us)))
  {
    hide Clean, Thins, Marks, ParseOpt, OptAhead, ParseLabel, LabelAhead, Expect;
    MarkKinds();
    WordMarks();
    var l := ParseLabel(Adv(ts));
    var w := ParseOpt(WHEN, l.rest);
    CleanAdv(ts, false);
    ExpectClean(SEMICOLON, Adv(ts), false);
    ExpectThin(SEMICOLON, w.rest, us);
    OptThin(WHEN, l.rest, Tok(SEMICOLON, us));
    LabelThin(Adv(ts), OptAhead(WHEN, w.v, Tok(SEMICOLON, us)));
    MarkKept(ts, LabelAhead(l.v, OptAhead(WHEN, w.v, Tok(SEMICOLON, us))));
  }

  lemma {:induction false} ReturnThin(ts: Stream, us: Stream)
    requires Clean(ts, false) && At(ts) == RETURN && ParseReturn(Adv(ts)).errs == 0 && Thins(ParseReturn(Adv(ts)).rest, us)
    ensures Thins(ts, SimpleAhead(FormOf(ParseReturn(Adv(ts))), Tok(SEMICOLON, us)))
  {
    hide Clean, Thins, Marks, ParseExpr, ExprAhead, ParseReturn, SimpleAhead;
    WordMarks();
    if At(Adv(ts)) == SEMICOLON {
      NoValueThin(Adv(ts), us);
      MarkKept(ts, Tok(SEMICOLON, us));
      ReturnAhead(None, Tok(SEMICOLON, us));
    } else {
      CleanAdv(ts, false);
      ValueThin(Adv(ts), us);
      MarkKept(ts, ExprAhead(ParseExpr(Adv(ts)).v, Tok(SEMICOLON, us)));
      ReturnAhead(Some(ParseExpr(Adv(ts)).v), Tok(SEMICOLON, us));
    }
  }

  lemma {:induction false} ReturnAhead(x: Option<Expr>, r: Stream)
    ensures SimpleAhead(ReturnStmt(x), r) == Tok(RETURN, if x.None? then r else ExprAhead(x.value, r))
  {
    hide ExprAhead;
  }

  lemma {:induction false} NoValueThin(t: Stream, us: Stream)
    requires At(t) == SEMICOLON && Thins(ParseReturn(t).rest, us)
    ensures ParseReturn(t).v == Some(ReturnStmt(None)) && Thins(t, Tok(SEMICOLON, us))
  {
    hide Thins, Marks;
    MarkKinds();
    MarkKept(t, us);
  }

  lemma {:induction false} ValueThin(t: Stream, us: Stream)
    requires Clean(t, false) && At(t) != SEMICOLON && ParseReturn(t).errs == 0 && Thins(ParseReturn(t).rest, us)
    ensures ParseReturn(t).v == Some(ReturnStmt(Some(ParseExpr(t).v))) && Thins(t, ExprAhead(ParseExpr(t).v, Tok(SEMICOLON, us)))
  {
    hide Clean, Thins, Marks, ParseExpr, ExprAhead, Expect;
    MarkKinds();
    ExpectThin(SEMICOLON, ParseExpr(t).rest, us);
    ExprThin(t, Tok(SEMICOLON, us));
  }

  lemma {:induction false} AssertThin(ts: Stream, us: Stream)
    requires Clean(ts, false) && At(ts) == ASSERT && ParseAssert(Adv(ts)).errs == 0 && Thins(ParseAssert(Adv(ts)).rest, us)
    ensures Thins(ts, SimpleAhead(FormOf(ParseAssert(Adv(ts))), Tok(SEMICOLON, us)))
  {
    hide Clean, Thins, Marks, ParseExpr, ExprAhead, ParseOpt, OptAhead, Expect;
    MarkKinds();
    WordMarks();
    CleanAdv(ts, false);
    var c := ParseExpr(Adv(ts));
    var m := ParseOpt(REPORT, c.rest);
    var v := ParseOpt(SEVERITY, m.rest);
    ExprSound(Adv(ts), false);
    OptSound(REPORT, c.rest, false);
    ExpectThin(SEMICOLON, v.rest, us);
    OptThin(SEVERITY, m.rest, Tok(SEMICOLON, us));
    OptThin(REPORT, c.rest, OptAhead(SEVERITY, v.v, Tok(SEMICOLON, us)));
    ExprThin(Adv(ts), OptAhead(REPORT, m.v, OptAhead(SEVERITY, v.v, Tok(SEMICOLON, us))));
    MarkKept(ts, ExprAhead(c.v, OptAhead(REPORT, m.v, OptAhead(SEVERITY, v.v, Tok(SEMICOLON, us)))));
  }

  lemma {:induction false} ReportThin(ts: Stream, us: Stream)
    requires Clean(ts, false) && At(ts) == REPORT && ParseReport(Adv(ts)).errs == 0 && Thins(ParseReport(Adv(ts)).rest, us)
    ensures Thins(ts, SimpleAhead(FormOf(ParseReport(Adv(ts))), Tok(SEMICOLON, us)))
  {
    hide Clean, Thins, Marks, ParseExpr, ExprAhead, ParseOpt, OptAhead, Expect;
    MarkKinds();
    WordMarks();
    CleanAdv(ts, false);
    var m := ParseExpr(Adv(ts));
    var v := ParseOpt(SEVERITY, m.rest);
    ExprSound(Adv(ts), false);
    ExpectThin(SEMICOLON, v.rest, us);
    OptThin(SEVERITY, m.rest, Tok(SEMICOLON, us));
    ExprThin(Adv(ts), OptAhead(SEVERITY, v.v, Tok(SEMICOLON, us)));
    MarkKept(ts, ExprAhead(m.v, OptAhead(SEVERITY, v.v, Tok(SEMICOLON, us))));
  }

  lemma {:induction false} WaitThin(ts: Stream, us: Stream)
    requires Clean(ts, false) && At(ts) == WAIT && ParseWait(Adv(ts)).errs == 0 && AllSpelled(ParseOn(Adv(ts)).v) && Thins(ParseWait(Adv(ts)).rest, us)
    ensures Thins(ts, SimpleAhead(FormOf(ParseWait(Adv(ts))), Tok(SEMICOLON, us)))
  {
    hide Clean, Thins, Marks, ParseOn, NamesAhead, ParseOpt, OptAhead, Expect, AllSpelled, AllNames;
    MarkKinds();
    WordMarks();
    CleanAdv(ts, false);
    var n := ParseOn(Adv(ts));
    var u := ParseOpt(UNTIL, n.rest);
    var f := ParseOpt(FOR, u.rest);
    OnSound(Adv(ts), false);
    OptSound(UNTIL, n.rest, false);
    ExpectThin(SEMICOLON, f.rest, us);
    OptThin(FOR, u.rest, Tok(SEMICOLON, us));
    OptThin(UNTIL, n.rest, OptAhead(FOR, f.v, Tok(SEMICOLON, us)));
    OnThin(Adv(ts), OptAhead(UNTIL, u.v, OptAhead(FOR, f.v, Tok(SEMICOLON, us))));
    MarkKept(ts, NamesAhead(n.v, OptAhead(UNTIL, u.v, OptAhead(FOR, f.v, Tok(SEMICOLON, us)))));
  }

  lemma {:induction false} SignalThin(ts: Stream, us: Stream)
    requires Clean(ts, false) && ParseNamed(ts).errs == 0 && At(ParseName(ts).rest) == LE && HeadOf(ParseName(ts).v).lit != ""
    requires Thins(ParseNamed(ts).rest, us)
    ensures Thins(ts, SimpleAhead(FormOf(ParseNamed(ts)), Tok(SEMICOLON, us)))
  {
    hide Clean, Thins, Marks, ParseName, HeadOf, ExprAhead, ParseDelay, DelayAhead, ParseWaves, WavesAhead, Expect, IsName, IsDelay;
    MarkKinds();
    var t := ParseName(ts);
    var d := ParseDelay(Adv(t.rest));
    var w := ParseWaves(d.rest);
    SpelledNameSound(ts, false);
    CleanAdv(t.rest, false);
    DelaySound(Adv(t.rest), false);
    ExpectThin(SEMICOLON, w.rest, us);
    WavesThin(d.rest, Tok(SEMICOLON, us));
    DelayThin(Adv(t.rest), WavesAhead(w.v, Tok(SEMICOLON, us)));
    MarkKept(t.rest, DelayAhead(d.v, WavesAhead(w.v, Tok(SEMICOLON, us))));
    SpelledNameThin(ts, Tok(LE, DelayAhead(d.v, WavesAhead(w.v, Tok(SEMICOLON, us)))));
  }

  lemma {:induction false} AssignThin(ts: Stream, us: Stream)
    requires Clean(ts, false) && ParseNamed(ts).errs == 0 && At(ParseName(ts).rest) == ASSIGN && HeadOf(ParseName(ts).v).lit != ""
    requires Thins(ParseNamed(ts).rest, us)
    ensures Thins(ts, SimpleAhead(FormOf(ParseNamed(ts)), Tok(SEMICOLON, us)))
  {
    hide Clean, Thins, Marks, ParseName, HeadOf, ParseExpr, ExprAhead, Expect, IsName;
    MarkKinds();
    var t := ParseName(ts);
    var x := ParseExpr(Adv(t.rest));
    SpelledNameSound(ts, false);
    CleanAdv(t.rest, false);
    ExpectThin(SEMICOLON, x.rest, us);
    ExprThin(Adv(t.rest), Tok(SEMICOLON, us));
    MarkKept(t.rest, ExprAhead(x.v, Tok(SEMICOLON, us)));
    SpelledNameThin(ts, Tok(ASSIGN, ExprAhead(x.v, Tok(SEMICOLON, us))));
  }

  lemma {:induction false} ProcThin(ts: Stream, us: Stream)
    requires Clean(ts, false) && ParseNamed(ts).errs == 0 && At(ParseName(ts).rest) != LE && At(ParseName(ts).rest) != ASSIGN
    requires Printable(Stmt(None, FormOf(ParseNamed(ts)))) && Thins(ParseNamed(ts).rest, us)
    ensures Thins(ts, SimpleAhead(FormOf(ParseNamed(ts)), Tok(SEMICOLON, us)))
  {
    hide Clean, Thins, Marks, ParseName, HeadOf, ExprAhead, Expect, Merge;
    MarkKinds();
    var t := ParseName(ts);
    if t.v.Call? {
      ExpectThin(SEMICOLON, t.rest, us);
      CalledHead(t.v);
      SpelledNameThin(ts, Tok(SEMICOLON, us));
      CalledThin(ts, t.v, Tok(SEMICOLON, us));
    } else {
      MarkKept(t.rest, us);
      SpelledNameThin(ts, Tok(SEMICOLON, us));
    }
  }

  lemma {:induction false} CalledHead(e: Expr)
    requires e.Call? && HeadOf(Merge(e.fun)).lit != ""
    ensures HeadOf(e).lit != ""
  {
    hide Merge;
    if HeadOf(e.fun).lit == "" { MergeUnspelled(e.fun); }
  }

  /** A called procedure is printed by its merged name, and without parentheses when it has no arguments. */
  lemma {:induction false} CalledThin(ts: Stream, e: Expr, r: Stream)
    requires e.Call? && Thins(ts, ExprAhead(e, r)) && (e.args == [] ==> Merge(e.fun).Ident?)
    ensures Thins(ts, ExprAhead(if e.args == [] then Merge(e.fun) else Call(Merge(e.fun), e.args), r))
  {
    hide Merge, Thins;
    if e.args == [] {
      var s := Tok(LPAREN, Tok(RPAREN, r));
      assert AssocsAhead([], Tok(RPAREN, r)) == Tok(RPAREN, r);
      assert ExprAhead(e, r) == ExprAhead(e.fun, s);
      MergeAhead(e.fun, s);
      Empties(r);
      AheadThins(Merge(e.fun).name, s, r);
      ThinsTwice(ts, ExprAhead(Merge(e.fun), s), ExprAhead(Merge(e.fun), r));
    } else {
      MergeAhead(e.fun, Tok(LPAREN, AssocsAhead(e.args, Tok(RPAREN, r))));
    }
  }

  lemma {:induction false} Empties(r: Stream)
    ensures Thins(Tok(LPAREN, Tok(RPAREN, r)), r)
  {
    hide WordOf;
    ThinsSelf(r);
  }

  lemma {:induction false} ThinsSelf(r: Stream)
    ensures Thins(r, r)
  {
    if r.More? { ThinsSelf(r.tail); }
  }

  lemma {:induction false} NamedThin(ts: Stream, us: Stream)
    requires Clean(ts, false) && ParseNamed(ts).errs == 0 && Printable(Stmt(None, FormOf(ParseNamed(ts)))) && Thins(ParseNamed(ts).rest, us)
    ensures !FormOf(ParseNamed(ts)).IfStmt? && !FormOf(ParseNamed(ts)).CaseStmt? && !FormOf(ParseNamed(ts)).LoopStmt?
    ensures Thins(ts, SimpleAhead(FormOf(ParseNamed(ts)), Tok(SEMICOLON, us)))
  {
    hide Clean, Thins, ParseName, HeadOf, ParseDelay, ParseWaves, ParseExpr, Merge, SimpleAhead, Expect;
    if At(ParseName(ts).rest) == LE {
      SignalThin(ts, us);
    } else if At(ParseName(ts).rest) == ASSIGN {
      AssignThin(ts, us);
    } else {
      ProcThin(ts, us);
    }
  }

  /** A form that holds no statements. */
  predicate Flat(f: Form) { !f.IfStmt? && !f.CaseStmt? && !f.LoopStmt? }

  lemma {:induction false} SimpleThin(ts: Stream, us: Stream)
    requires Clean(ts, false) && ParseSimple(ts).errs == 0 && Printable(Stmt(None, FormOf(ParseSimple(ts)))) && Thins(ParseSimple(ts).rest, us)
    requires At(ts) != IF && At(ts) != CASE && At(ts) != FOR && At(ts) != WHILE && At(ts) != LOOP
    ensures Flat(FormOf(ParseSimple(ts))) && Thins(ts, SimpleAhead(FormOf(ParseSimple(ts)), Tok(SEMICOLON, us)))
  {
    hide Clean, Thins, ParseSimple, ParseNamed, ParseWait, ParseJump, ParseReturn, ParseAssert, ParseReport, Printable, SimpleAhead;
    KeywordAt(ts);
    VerbAt(ts);
    if !StartsStmt(At(ts)) {
      NamedAt(ts);
      NamedThin(ts, us);
    } else {
      FlatForms(Adv(ts));
      var k := At(ts);
      if k == NULL {
        NullThin(ts, us);
      } else if k == NEXT {
        JumpThin(true, ts, us);
      } else if k == EXIT {
        JumpThin(false, ts, us);
      } else if k == RETURN {
        ReturnThin(ts, us);
      } else if k == WAIT {
        PrintableWait(Adv(ts)); WaitThin(ts, us);
      } else if k == ASSERT {
        AssertThin(ts, us);
      } else if k == REPORT {
        ReportThin(ts, us);
      }
    }
  }

  lemma {:induction false} FlatForms(ts: Stream)
    ensures ParseJump(true, ts).v.Some? && FormOf(ParseJump(true, ts)).NextStmt? && ParseJump(false, ts).v.Some? && FormOf(ParseJump(false, ts)).ExitStmt?
    ensures ParseReturn(ts).v.Some? && FormOf(ParseReturn(ts)).ReturnStmt? && ParseWait(ts).v.Some? && FormOf(ParseWait(ts)).WaitStmt?
    ensures ParseAssert(ts).v.Some? && FormOf(ParseAssert(ts)).AssertStmt? && ParseReport(ts).v.Some? && FormOf(ParseReport(ts)).ReportStmt?
  {
    hide ParseExpr, ParseOpt, ParseOn, Expect;
  }

  lemma {:induction false} NullThin(ts: Stream, us: Stream)
    requires At(ts) == NULL && Expect(SEMICOLON, Adv(ts)).errs == 0 && Thins(Expect(SEMICOLON, Adv(ts)).rest, us)
    ensures Thins(ts, SimpleAhead(NullStmt, Tok(SEMICOLON, us)))
  {
    hide Thins, Marks, Expect;
    MarkKinds();
    WordMarks();
    ExpectThin(SEMICOLON, Adv(ts), us);
    MarkKept(ts, Tok(SEMICOLON, us));
  }

  // ---- Statements ----

  lemma {:induction false} StmtThin(ts: Stream, us: Stream)
    requires Clean(ts, false) && ParseStmt(ts).errs == 0 && Printable(StmtOf(ParseStmt(ts))) && Thins(ParseStmt(ts).rest, us)
    ensures Thins(ts, StmtAhead(StmtOf(ParseStmt(ts)), us))
    decreases Len(ts), 2
  {
    hide Clean, Thins, ParseForm, FormAhead, Marks;
    MarkKinds();
    if At(ts) == IDENT && Peek(ts) == COLON {
      var t := Adv(ts);
      CleanAdv(ts, false);
      CleanAdv(t, false);
      FormThin(Adv(t), us);
      MarkKept(t, FormAhead(FormOf(ParseForm(Adv(t))), us));
      KeepOne(ts, Tok(COLON, FormAhead(FormOf(ParseForm(Adv(t))), us)));
    } else {
      FormThin(ts, us);
    }
  }

  lemma {:induction false} FormThin(ts: Stream, us: Stream)
    requires Clean(ts, false) && ParseForm(ts).errs == 0 && Printable(Stmt(None, FormOf(ParseForm(ts)))) && Thins(ParseForm(ts).rest, us)
    ensures Thins(ts, FormAhead(FormOf(ParseForm(ts)), us))
    decreases Len(ts), 1
  {
    hide *;
    BlockAt(ts);
    if At(ts) == IF {
      IfThin(ts, us);
    } else if At(ts) == CASE {
      CaseThin(ts, us);
    } else if At(ts) == FOR || At(ts) == WHILE || At(ts) == LOOP {
      LoopThin(ts, us);
    } else {
      NoBlockAt(ts);
      SimpleThin(ts, us);
      FlatAhead(FormOf(ParseSimple(ts)), us);
    }
  }

  lemma {:induction false} FlatAhead(f: Form, us: Stream)
    requires Flat(f)
    ensures FormAhead(f, us) == SimpleAhead(f, Tok(SEMICOLON, us))
  {
    hide SimpleAhead;
  }

  lemma {:induction false} IfThin(ts: Stream, us: Stream)
    requires Clean(ts, false) && At(ts) == IF && ParseIf(ts).errs == 0 && Printable(Stmt(None, FormOf(ParseIf(ts)))) && Thins(ParseIf(ts).rest, us)
    ensures Thins(ts, FormAhead(FormOf(ParseIf(ts)), us))
    decreases Len(ts), 0
  {
    hide Clean, Thins, Marks, ParseExpr, ExprAhead, ParseSeq, SeqAhead, ParseElsifs, ElsifsAhead, ParseElse, ElseAhead, ParseEnd, EndAhead, Expect, AllPrintable, ClausesPrintable, IsSeq;
    WordMarks();
    var c := ParseExpr(Adv(ts));
    var t := Expect(THEN, c.rest);
    var b := ParseSeq(ElseOrEnd, t.rest);
    var es := ParseElsifs(b.rest);
    var e := ParseElse(es.rest);
    CleanAdv(ts, false);
    ExprSound(Adv(ts), false);
    ExpectClean(THEN, c.rest, false);
    SeqSound(ElseOrEnd, t.rest, false);
    ElsifsSound(b.rest, false);
    EndThin(IF, e.rest, us);
    ElseThin(es.rest, EndAhead(IF, us));
    var l := ElseAhead(e.v, EndAhead(IF, us));
    ElsifsThin(b.rest, l);
    SeqThin(ElseOrEnd, t.rest, ElsifsAhead(es.v, l));
    var body := SeqAhead(b.v, ElsifsAhead(es.v, l));
    ExpectThin(THEN, c.rest, body);
    ExprThin(Adv(ts), Tok(THEN, body));
    MarkKept(ts, ExprAhead(c.v, Tok(THEN, body)));
  }

  lemma {:induction false} ElseThin(ts: Stream, us: Stream)
    requires Clean(ts, false) && ParseElse(ts).errs == 0 && Thins(ParseElse(ts).rest, us)
    requires var e := ParseElse(ts).v; e.Else? ==> AllPrintable(e.body)
    ensures Thins(ts, ElseAhead(ParseElse(ts).v, us))
    decreases Len(ts), 0
  {
    hide Clean, Thins, Marks, ParseSeq, SeqAhead, AllPrintable;
    WordMarks();
    if At(ts) == ELSE {
      var b := ParseSeq(OnlyEnd, Adv(ts));
      CleanAdv(ts, false);
      if b.v == [] { NonePrintable(); }
      SeqThin(OnlyEnd, Adv(ts), us);
      if b.v == [] {
        NoneAhead(us);
        ElseMore(ts);
        DropOne(ts, us);
      } else {
        MarkKept(ts, SeqAhead(b.v, us));
      }
    }
  }

  lemma {:induction false} NoneAhead(us: Stream)
    ensures SeqAhead([], us) == us
  {
  }

  lemma {:induction false} ElseMore(ts: Stream)
    requires At(ts) == ELSE
    ensures ts.More? && Dropped(At(ts))
  {
  }

  lemma {:induction false} CaseThin(ts: Stream, us: Stream)
    requires Clean(ts, false) && At(ts) == CASE && ParseCase(ts).errs == 0 && Printable(Stmt(None, FormOf(ParseCase(ts)))) && Thins(ParseCase(ts).rest, us)
    ensures Thins(ts, FormAhead(FormOf(ParseCase(ts)), us))
    decreases Len(ts), 0
  {
    hide Clean, Thins, Marks, ParseExpr, ExprAhead, ParseAlts, AltsAhead, ParseEnd, EndAhead, Expect, ClausesPrintable;
    WordMarks();
    var c := ParseExpr(Adv(ts));
    var i := Expect(IS, c.rest);
    var a := ParseAlts(i.rest);
    CleanAdv(ts, false);
    ExprSound(Adv(ts), false);
    ExpectClean(IS, c.rest, false);
    EndThin(CASE, a.rest, us);
    AltsThin(i.rest, EndAhead(CASE, us));
    ExpectThin(IS, c.rest, AltsAhead(a.v, EndAhead(CASE, us)));
    ExprThin(Adv(ts), Tok(IS, AltsAhead(a.v, EndAhead(CASE, us))));
    MarkKept(ts, ExprAhead(c.v, Tok(IS, AltsAhead(a.v, EndAhead(CASE, us)))));
  }

  lemma {:induction false} LoopThin(ts: Stream, us: Stream)
    requires Clean(ts, false) && (At(ts) == FOR || At(ts) == WHILE || At(ts) == LOOP) && ParseLoop(ts).errs == 0
    requires Printable(Stmt(None, FormOf(ParseLoop(ts)))) && Thins(ParseLoop(ts).rest, us)
    ensures Thins(ts, FormAhead(FormOf(ParseLoop(ts)), us))
    decreases Len(ts), 0
  {
    hide Clean, Thins, Marks, ParseScheme, SchemeAhead, ParseSeq, SeqAhead, ParseEnd, EndAhead, Expect, AllPrintable, IsScheme, ParseLoop, FormAhead, Printable, Len;
    WordMarks();
    LoopParts(ts);
    var h := ParseScheme(ts);
    var l := Expect(LOOP, h.rest);
    var b := ParseSeq(OnlyEnd, l.rest);
    SchemeSound(ts, false);
    ExpectClean(LOOP, h.rest, false);
    EndThin(LOOP, b.rest, us);
    SeqThin(OnlyEnd, l.rest, EndAhead(LOOP, us));
    ExpectThin(LOOP, h.rest, SeqAhead(b.v, EndAhead(LOOP, us)));
    SchemeThin(ts, Tok(LOOP, SeqAhead(b.v, EndAhead(LOOP, us))));
    LoopAhead(h.v, b.v, us);
  }

  lemma {:induction false} LoopAhead(h: Scheme, b: seq<Stmt>, us: Stream)
    ensures FormAhead(LoopStmt(h, b), us) == SchemeAhead(h, Tok(LOOP, SeqAhead(b, EndAhead(LOOP, us))))
  {
    hide SchemeAhead, SeqAhead, EndAhead;
  }

  lemma {:induction false} LoopParts(ts: Stream)
    requires (At(ts) == FOR || At(ts) == WHILE || At(ts) == LOOP) && ParseLoop(ts).errs == 0 && Printable(Stmt(None, FormOf(ParseLoop(ts))))
    ensures var h := ParseScheme(ts);
            var l := Expect(LOOP, h.rest);
            var b := ParseSeq(OnlyEnd, l.rest);
            var z := ParseEnd(LOOP, b.rest);
            h.errs == 0 && l.errs == 0 && b.errs == 0 && z.errs == 0 && ParseLoop(ts).v == Some(LoopStmt(h.v, b.v)) && ParseLoop(ts).rest == z.rest
            && AllPrintable(b.v) && Len(l.rest) < Len(ts)
  {
    hide ParseScheme, ParseSeq, ParseEnd, Expect, AllPrintable;
    LoopShorter(ts);
  }

  lemma {:induction false} LoopShorter(ts: Stream)
    requires (At(ts) == FOR || At(ts) == WHILE || At(ts) == LOOP) && ParseScheme(ts).errs == 0 && Expect(LOOP, ParseScheme(ts).rest).errs == 0
    ensures Len(Expect(LOOP, ParseScheme(ts).rest).rest) < Len(ts)
  {
    hide ParseExpr, ParseFor;
  }

  lemma {:induction false} ElsifsThin(ts: Stream, us: Stream)
    requires Clean(ts, false) && ParseElsifs(ts).errs == 0 && ClausesPrintable(ParseElsifs(ts).v) && Thins(ParseElsifs(ts).rest, us)
    ensures Thins(ts, ElsifsAhead(ParseElsifs(ts).v, us))
    decreases Len(ts), 0
  {
    hide Clean, Thins, Marks, ParseExpr, ExprAhead, ParseSeq, SeqAhead, Expect, AllPrintable, ClausesPrintable, IsSeq;
    WordMarks();
    if At(ts) == ELSIF {
      var c := ParseExpr(Adv(ts));
      var t := Expect(THEN, c.rest);
      var b := ParseSeq(ElseOrEnd, t.rest);
      var m := ParseElsifs(b.rest);
      PrintableCons(Clause([c.v], b.v), m.v);
      CleanAdv(ts, false);
      ExprSound(Adv(ts), false);
      ExpectClean(THEN, c.rest, false);
      SeqSound(ElseOrEnd, t.rest, false);
      ElsifsThin(b.rest, us);
      SeqThin(ElseOrEnd, t.rest, ElsifsAhead(m.v, us));
      var body := SeqAhead(b.v, ElsifsAhead(m.v, us));
      ExpectThin(THEN, c.rest, body);
      ExprThin(Adv(ts), Tok(THEN, body));
      MarkKept(ts, ExprAhead(c.v, Tok(THEN, body)));
      OneGuard(c.v, Tok(THEN, body));
      FirstElsif(Clause([c.v], b.v), m.v, us);
    }
  }

  lemma {:induction false} OneGuard(c: Expr, us: Stream)
    ensures ChoicesAhead([c], us) == ExprAhead(c, us)
  {
    hide ExprAhead;
    assert [c][1..] == [];
  }

  lemma {:induction false} FirstElsif(c: Clause, m: seq<Clause>, us: Stream)
    ensures ElsifsAhead([c] + m, us) == Tok(ELSIF, ChoicesAhead(c.guards, Tok(THEN, SeqAhead(c.body, ElsifsAhead(m, us)))))
    ensures AltsAhead([c] + m, us) == Tok(WHEN, ChoicesAhead(c.guards, Tok(ARROW, SeqAhead(c.body, AltsAhead(m, us)))))
  {
    hide ChoicesAhead, SeqAhead;
    assert ([c] + m)[1..] == m;
  }

  lemma {:induction false} AltsThin(ts: Stream, us: Stream)
    requires Clean(ts, false) && ParseAlts(ts).errs == 0 && ClausesPrintable(ParseAlts(ts).v) && Thins(ParseAlts(ts).rest, us)
    ensures Thins(ts, AltsAhead(ParseAlts(ts).v, us))
    decreases Len(ts), 0
  {
    hide Clean, Thins, Marks, ParseChoices, ChoicesAhead, ParseSeq, SeqAhead, Expect, AllPrintable, ClausesPrintable, IsSeq, AllFull;
    MarkKinds();
    WordMarks();
    if At(ts) == WHEN {
      var c := ParseChoices(Adv(ts));
      var t := Expect(ARROW, c.rest);
      var b := ParseSeq(WhenOrEnd, t.rest);
      var m := ParseAlts(b.rest);
      PrintableCons(Clause(c.v, b.v), m.v);
      CleanAdv(ts, false);
      ChoicesSound(Adv(ts), false);
      ExpectClean(ARROW, c.rest, false);
      SeqSound(WhenOrEnd, t.rest, false);
      AltsThin(b.rest, us);
      SeqThin(WhenOrEnd, t.rest, AltsAhead(m.v, us));
      var body := SeqAhead(b.v, AltsAhead(m.v, us));
      ExpectThin(ARROW, c.rest, body);
      ChoicesThin(Adv(ts), Tok(ARROW, body));
      MarkKept(ts, ChoicesAhead(c.v, Tok(ARROW, body)));
      FirstElsif(Clause(c.v, b.v), m.v, us);
    }
  }

  lemma {:induction false} SeqThin(stops: Stops, ts: Stream, us: Stream)
    requires Clean(ts, false) && ParseSeq(stops, ts).errs == 0 && AllPrintable(ParseSeq(stops, ts).v) && Thins(ParseSeq(stops, ts).rest, us)
    ensures Thins(ts, SeqAhead(ParseSeq(stops, ts).v, us))
    decreases Len(ts), 3
  {
    hide Clean, Thins, ParseStmt, StmtAhead, Printable, IsStmt, IsStop, FirstOf;
    if At(ts) != EOF && !IsStop(stops, At(ts)) {
      var s := ParseStmt(ts);
      var m := ParseSeq(stops, s.rest);
      assert ([StmtOf(s)] + m.v)[0] == StmtOf(s) && ([StmtOf(s)] + m.v)[1..] == m.v;
      assert forall x :: x in m.v ==> x in [StmtOf(s)] + m.v;
      StmtSound(ts, false);
      SeqThin(stops, s.rest, us);
      StmtThin(ts, SeqAhead(m.v, us));
    }
  }

  // ==== tools/socgen/vhdl: which statements come back from source text through printed text.

  /** A printable statement comes back from its printed text exactly when every printed token keeps its meaning and the statement
      is one of the strict grammar. */
  lemma {:induction false} StmtSourceComesBack(src: string, indent: string)
    requires ReadStmt(src).errs == 0 && Lex(src, 0, ILLEGAL).More? && Blank(indent)
    requires Printable(StmtOf(ReadStmt(src))) && ShortHeads(StmtOf(ReadStmt(src)))
    ensures ReadStmt(Render(Printed(src, indent))) == R(ReadStmt(src).v, Done, NO_ERRORS) <==>
            AllKeep(Printed(src, indent), ILLEGAL) && IsStmt(StmtOf(ReadStmt(src)), true)
  {
    hide Lex, Render, PrintStmt, AllKeep, IsStmt, ParseStmt, Thins, Diverge, StmtAhead, Clean, Printable, ShortHeads, Blank;
    var t := Printed(src, indent);
    if AllKeep(t, ILLEGAL) {
      StmtSourceRoundTripExact(src, indent);
    } else if ReadStmt(Render(t)) == R(ReadStmt(src).v, Done, 0) {
      StmtDiverges(src, indent);
      LexClean(Render(t), 0, ILLEGAL);
      ThinEnds();
      StmtThin(Lex(Render(t), 0, ILLEGAL), Done);
      StmtTokens(StmtOf(ReadStmt(src)), indent, Empty);
      NeverThins(Lex(Render(t), 0, ILLEGAL), [], Tokens(t));
    }
  }

  lemma {:induction false} StmtDiverges(src: string, indent: string)
    requires ReadStmt(src).errs == 0 && Lex(src, 0, ILLEGAL).More? && Blank(indent)
    requires Printable(StmtOf(ReadStmt(src))) && ShortHeads(StmtOf(ReadStmt(src))) && !AllKeep(Printed(src, indent), ILLEGAL)
    ensures Diverge(Lex(Render(Printed(src, indent)), 0, ILLEGAL), Tokens(Printed(src, indent)))
  {
    hide Lex, Render, PrintStmt, AllKeep, IsStmt, ParseStmt, Diverge, Clean, Printable, ShortHeads, Blank, AllLexemes, StmtMade, Origin;
    var ts, s, t := Lex(src, 0, ILLEGAL), StmtOf(ReadStmt(src)), Printed(src, indent);
    LexClean(src, 0, ILLEGAL);
    StmtSound(ts, false);
    NoneLeft();
    StmtMadeBy(ts);
    StmtPrinted(s, indent, Empty);
    StmtApart(s, indent, Empty, false, ILLEGAL);
    LexDiverges(t, "", ILLEGAL);
    assert "" + Render(t) == Render(t);
  }
}
