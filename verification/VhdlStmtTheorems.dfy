// tools/socgen/vhdl: which trees of sequential statements the parser can return, the tokens they are printed with, and their round trip.

module VhdlStmtTheorems {
  import opened Common
  import opened VhdlGrammar
  import opened VhdlExprTheorems

  // ---- The tokens of a printed statement, in front of a stream ----

  function OptAhead(k: Kind, e: Option<Expr>, r: Stream): Stream {
    if e.None? then r else Tok(k, ExprAhead(e.value, r))
  }

  function LabelAhead(l: Option<Token>, r: Stream): Stream {
    if l.None? then r else More(l.value, r)
  }

  function EndAhead(k: Kind, r: Stream): Stream { Tok(END, Tok(k, Tok(SEMICOLON, r))) }

  function DelayAhead(d: Delay, r: Stream): Stream {
    match d
    case NoDelay => r
    case Transport => Tok(TRANSPORT, r)
    case Inertial => Tok(INERTIAL, r)
    case Reject(x) => Tok(REJECT, ExprAhead(x, Tok(INERTIAL, r)))
  }

  function WaveAhead(w: Wave, r: Stream): Stream { ExprAhead(w.value, OptAhead(AFTER, w.after, r)) }

  function WavesAhead(ws: seq<Wave>, r: Stream): Stream {
    if ws == [] then r else WaveAhead(ws[0], MoreWavesAhead(ws[1..], r))
  }

  function MoreWavesAhead(ws: seq<Wave>, r: Stream): Stream {
    if ws == [] then r else Tok(COMMA, WaveAhead(ws[0], MoreWavesAhead(ws[1..], r)))
  }

  function NamesAhead(ns: seq<Expr>, r: Stream): Stream {
    if ns == [] then r else Tok(ON, ExprAhead(ns[0], MoreNamesAhead(ns[1..], r)))
  }

  function MoreNamesAhead(ns: seq<Expr>, r: Stream): Stream {
    if ns == [] then r else Tok(COMMA, ExprAhead(ns[0], MoreNamesAhead(ns[1..], r)))
  }

  function SchemeAhead(h: Scheme, r: Stream): Stream {
    match h
    case Bare => r
    case While(c) => Tok(WHILE, ExprAhead(c, r))
    case For(p, x, m) =>
      var over := if m.None? then ExprAhead(x, r) else ExprAhead(m.value, Tok(RANGE, ExprAhead(x, r)));
      Tok(FOR, More(p, Tok(IN, over)))
  }

  /** Statements that hold no further statements, up to their semicolon. */
  function SimpleAhead(f: Form, r: Stream): Stream
  {
    match f
    case NullStmt => Tok(NULL, r)
    case NextStmt(l, w) => Tok(NEXT, LabelAhead(l, OptAhead(WHEN, w, r)))
    case ExitStmt(l, w) => Tok(EXIT, LabelAhead(l, OptAhead(WHEN, w, r)))
    case ReturnStmt(x) => Tok(RETURN, if x.None? then r else ExprAhead(x.value, r))
    case AssertStmt(c, m, s) => Tok(ASSERT, ExprAhead(c, OptAhead(REPORT, m, OptAhead(SEVERITY, s, r))))
    case ReportStmt(m, s) => Tok(REPORT, ExprAhead(m, OptAhead(SEVERITY, s, r)))
    case WaitStmt(ns, u, t) => Tok(WAIT, NamesAhead(ns, OptAhead(UNTIL, u, OptAhead(FOR, t, r))))
    case SignalAssign(x, d, ws) => ExprAhead(x, Tok(LE, DelayAhead(d, WavesAhead(ws, r))))
    case VarAssign(x, v) => ExprAhead(x, Tok(ASSIGN, ExprAhead(v, r)))
    case ProcCall(n, args) => ExprAhead(if args == [] then n else Call(n, args), r)
    case _ => r
  }

  function StmtAhead(s: Stmt, r: Stream): Stream
    decreases s, 1
  {
    if s.lbl.None? then FormAhead(s.form, r) else More(s.lbl.value, Tok(COLON, FormAhead(s.form, r)))
  }

  function FormAhead(f: Form, r: Stream): Stream
    decreases f, 0
  {
    match f
    case IfStmt(c, t, es, e) =>
      var tail := ElsifsAhead(es, ElseAhead(e, EndAhead(IF, r)));
      Tok(IF, ExprAhead(c, Tok(THEN, SeqAhead(t, tail))))
    case CaseStmt(c, alts) => Tok(CASE, ExprAhead(c, Tok(IS, AltsAhead(alts, EndAhead(CASE, r)))))
    case LoopStmt(h, b) => SchemeAhead(h, Tok(LOOP, SeqAhead(b, EndAhead(LOOP, r))))
    case _ => SimpleAhead(f, Tok(SEMICOLON, r))
  }

  function ElseAhead(e: Tail, r: Stream): Stream
    decreases e, 0
  {
    if e.NoElse? then r else Tok(ELSE, SeqAhead(e.body, r))
  }

  function ElsifsAhead(es: seq<Clause>, r: Stream): Stream
    decreases es, 1
  {
    if es == [] then r else Tok(ELSIF, ChoicesAhead(es[0].guards, Tok(THEN, SeqAhead(es[0].body, ElsifsAhead(es[1..], r)))))
  }

  function AltsAhead(es: seq<Clause>, r: Stream): Stream
    decreases es, 1
  {
    if es == [] then r else Tok(WHEN, ChoicesAhead(es[0].guards, Tok(ARROW, SeqAhead(es[0].body, AltsAhead(es[1..], r)))))
  }

  function SeqAhead(ss: seq<Stmt>, r: Stream): Stream
    decreases ss, 2
  {
    if ss == [] then r else StmtAhead(ss[0], SeqAhead(ss[1..], r))
  }

  // ---- Statements that print alike ----

  function MergeOpt(e: Option<Expr>): Option<Expr> { if e.None? then None else Some(Merge(e.value)) }

  function MergeDelay(d: Delay): Delay { if d.Reject? then Reject(Merge(d.limit)) else d }

  function MergeWaves(ws: seq<Wave>): (r: seq<Wave>)
    ensures |r| == |ws|
  {
    if ws == [] then [] else [Wave(Merge(ws[0].value), MergeOpt(ws[0].after))] + MergeWaves(ws[1..])
  }

  function MergeScheme(h: Scheme): Scheme {
    match h
    case Bare => h
    case While(c) => While(Merge(c))
    case For(p, x, m) => For(p, Merge(x), MergeOpt(m))
  }

  /** Merges every expression. */
  function MergeStmt(s: Stmt): Stmt { Stmt(s.lbl, MergeForm(s.form)) }

  function MergeForm(f: Form): Form {
    match f
    case NullStmt => f
    case IfStmt(c, t, es, e) => IfStmt(Merge(c), MergeSeq(t), MergeClauses(es), if e.NoElse? then NoElse else Else(MergeSeq(e.body)))
    case CaseStmt(c, alts) => CaseStmt(Merge(c), MergeClauses(alts))
    case LoopStmt(h, b) => LoopStmt(MergeScheme(h), MergeSeq(b))
    case NextStmt(l, w) => NextStmt(l, MergeOpt(w))
    case ExitStmt(l, w) => ExitStmt(l, MergeOpt(w))
    case ReturnStmt(x) => ReturnStmt(MergeOpt(x))
    case AssertStmt(c, m, s) => AssertStmt(Merge(c), MergeOpt(m), MergeOpt(s))
    case ReportStmt(m, s) => ReportStmt(Merge(m), MergeOpt(s))
    case WaitStmt(ns, u, t) => WaitStmt(MergeAll(ns), MergeOpt(u), MergeOpt(t))
    case SignalAssign(x, d, ws) => SignalAssign(Merge(x), MergeDelay(d), MergeWaves(ws))
    case VarAssign(x, v) => VarAssign(Merge(x), Merge(v))
    case ProcCall(n, args) => ProcCall(n, MergeAssocs(args))
  }

  function MergeClauses(cs: seq<Clause>): (r: seq<Clause>)
    ensures |r| == |cs|
  {
    if cs == [] then [] else [Clause(MergeAll(cs[0].guards), MergeSeq(cs[0].body))] + MergeClauses(cs[1..])
  }

  function MergeSeq(ss: seq<Stmt>): (r: seq<Stmt>)
    ensures |r| == |ss|
  {
    if ss == [] then [] else [MergeStmt(ss[0])] + MergeSeq(ss[1..])
  }

  // ---- Statements of the grammar. With strict set, no selector stands directly on a plain dotted name. ----

  predicate StartsStmt(k: Kind) {
    k == NULL || k == IF || k == CASE || k == FOR || k == WHILE || k == LOOP || k == NEXT || k == EXIT || k == RETURN || k == ASSERT || k == REPORT || k == WAIT
  }

  predicate OptFull(e: Option<Expr>, strict: bool) { e.Some? ==> Full(e.value, strict) }

  predicate AllNames(ns: seq<Expr>, strict: bool) { forall n :: n in ns ==> IsName(n, strict) }

  predicate IsLabel(l: Option<Token>) { l.Some? ==> l.value.kind == IDENT }

  predicate IsDelay(d: Delay, strict: bool) { d.Reject? ==> Full(d.limit, strict) }

  predicate IsWave(w: Wave, strict: bool) { Full(w.value, strict) && OptFull(w.after, strict) }

  predicate AllWaves(ws: seq<Wave>, strict: bool) { forall w :: w in ws ==> IsWave(w, strict) }

  predicate IsWaves(ws: seq<Wave>, strict: bool) { ws != [] && AllWaves(ws, strict) }

  predicate IsScheme(h: Scheme, strict: bool) {
    match h
    case Bare => true
    case While(c) => Full(c, strict)
    case For(p, x, m) => p.kind == IDENT && Full(x, strict) && OptFull(m, strict)
  }

  /** What an assignment can start with. */
  predicate IsTarget(e: Expr, strict: bool) { IsName(e, strict) && !StartsStmt(HeadOf(e).kind) }

  predicate IsSimple(f: Form, strict: bool)
  {
    match f
    case NullStmt => true
    case NextStmt(l, w) => IsLabel(l) && OptFull(w, strict)
    case ExitStmt(l, w) => IsLabel(l) && OptFull(w, strict)
    case ReturnStmt(x) => OptFull(x, strict)
    case AssertStmt(c, m, s) => Full(c, strict) && OptFull(m, strict) && OptFull(s, strict)
    case ReportStmt(m, s) => Full(m, strict) && OptFull(s, strict)
    case WaitStmt(ns, u, t) => AllNames(ns, strict) && OptFull(u, strict) && OptFull(t, strict)
    case SignalAssign(x, d, ws) => IsTarget(x, strict) && IsDelay(d, strict) && IsWaves(ws, strict)
    case VarAssign(x, v) => IsTarget(x, strict) && Full(v, strict)
    case ProcCall(n, args) => IsChain(n, true) && IsTarget(n, true) && AllAssocs(args, strict) && (args == [] ==> n.Ident?)
    case _ => false
  }

  predicate IsStmt(s: Stmt, strict: bool)
    decreases s, 1
  {
    IsLabel(s.lbl) && IsForm(s.form, strict)
  }

  predicate IsForm(f: Form, strict: bool)
    decreases f, 0
  {
    match f
    case IfStmt(c, t, es, e) =>
      && Full(c, strict)
      && IsSeq(ElseOrEnd, t, strict)
      && (forall x :: x in es ==> |x.guards| == 1 && IsClause(ElseOrEnd, x, strict))
      && (e.Else? ==> e.body != [] && IsSeq(OnlyEnd, e.body, strict))
    case CaseStmt(c, alts) => Full(c, strict) && forall x :: x in alts ==> x.guards != [] && IsClause(WhenOrEnd, x, strict)
    case LoopStmt(h, b) => IsScheme(h, strict) && IsSeq(OnlyEnd, b, strict)
    case _ => IsSimple(f, strict)
  }

  predicate IsClause(stops: Stops, c: Clause, strict: bool)
    decreases c, 0
  {
    AllFull(c.guards, strict) && IsSeq(stops, c.body, strict)
  }

  /** No statement of the list starts with a keyword that ends the list. */
  predicate IsSeq(stops: Stops, ss: seq<Stmt>, strict: bool)
    decreases ss, 2
  {
    forall s :: s in ss ==> IsStmt(s, strict) && !IsStop(stops, FirstOf(s))
  }

  /** The kind of a statement's first token. */
  function FirstOf(s: Stmt): Kind {
    if s.lbl.Some? then IDENT else FirstOfForm(s.form)
  }

  function FirstOfForm(f: Form): Kind {
    match f
    case NullStmt => NULL
    case IfStmt(_, _, _, _) => IF
    case CaseStmt(_, _) => CASE
    case LoopStmt(h, _) => (match h case Bare => LOOP case While(_) => WHILE case For(_, _, _) => FOR)
    case NextStmt(_, _) => NEXT
    case ExitStmt(_, _) => EXIT
    case ReturnStmt(_) => RETURN
    case AssertStmt(_, _, _) => ASSERT
    case ReportStmt(_, _) => REPORT
    case WaitStmt(_, _, _) => WAIT
    case SignalAssign(x, _, _) => HeadOf(x).kind
    case VarAssign(x, _) => HeadOf(x).kind
    case ProcCall(n, _) => HeadOf(n).kind
  }

  // ---- Statements that lose something in print ----

  /** Every name starts with a token that has a spelling, and a call without arguments is called by a plain name. */
  predicate Printable(s: Stmt)
    decreases s, 1
  {
    match s.form
    case IfStmt(_, t, es, e) => AllPrintable(t) && ClausesPrintable(es) && (e.Else? ==> AllPrintable(e.body))
    case CaseStmt(_, alts) => ClausesPrintable(alts)
    case LoopStmt(_, b) => AllPrintable(b)
    case WaitStmt(ns, _, _) => forall n :: n in ns ==> HeadOf(n).lit != ""
    case SignalAssign(x, _, _) => HeadOf(x).lit != ""
    case VarAssign(x, _) => HeadOf(x).lit != ""
    case ProcCall(n, args) => HeadOf(n).lit != "" && (args == [] ==> n.Ident?)
    case _ => true
  }

  predicate AllPrintable(ss: seq<Stmt>)
    decreases ss, 2
  {
    forall s :: s in ss ==> Printable(s)
  }

  predicate ClausesPrintable(cs: seq<Clause>)
    decreases cs, 2
  {
    forall c :: c in cs ==> AllPrintable(c.body)
  }

  // ==== tools/socgen/vhdl: printing a sequential statement and parsing it again.

  // ---- Parts of statements ----

  lemma {:induction false} BreakRun(e: Expr, r: Stream)
    requires Full(e, true) && IsBreak(At(r))
    ensures ParseExpr(ExprAhead(e, r)) == R(e, r, NO_ERRORS)
  {
    BreakAfter(At(r));
    FullRun(e, r);
  }

  lemma {:induction false} NameBreakRun(e: Expr, r: Stream)
    requires IsName(e, true) && IsBreak(At(r))
    ensures ParseName(ExprAhead(e, r)) == R(e, r, NO_ERRORS)
  {
    BreakAfter(At(r));
    NameRun(e, r);
  }

  lemma {:induction false} BreakSeparator()
    ensures IsBreak(COMMA) && IsBreak(SEMICOLON)
  {
  }

  lemma {:induction false} OptRun(k: Kind, e: Option<Expr>, r: Stream)
    requires OptFull(e, true) && IsBreak(k) && IsBreak(At(r)) && At(r) != k
    ensures ParseOpt(k, OptAhead(k, e, r)) == R(e, r, NO_ERRORS)
    ensures IsBreak(At(OptAhead(k, e, r))) && At(OptAhead(k, e, r)) == if e.Some? then k else At(r)
  {
    hide ParseExpr, ExprAhead, Full, IsBreak;
    if e.Some? { BreakRun(e.value, r); }
  }

  lemma {:induction false} WaveRun(w: Wave, r: Stream)
    requires IsWave(w, true) && IsBreak(At(r)) && At(r) != AFTER
    ensures ParseWave(WaveAhead(w, r)) == R(w, r, NO_ERRORS)
  {
    hide ParseExpr, ExprAhead, Full, OptFull, ParseOpt;
    BreakRun(w.value, OptAhead(AFTER, w.after, r));
    OptRun(AFTER, w.after, r);
  }

  lemma {:induction false} WavesRun(ws: seq<Wave>, r: Stream)
    requires IsWaves(ws, true) && At(r) == SEMICOLON
    ensures ParseWaves(WavesAhead(ws, r)) == R(ws, r, NO_ERRORS)
  {
    hide ParseWave, WaveAhead, IsWave, IsBreak, MoreWaves;
    BreakSeparator();
    WaveRun(ws[0], MoreWavesAhead(ws[1..], r));
    MoreWavesRun([ws[0]], ws[1..], r);
    assert [ws[0]] + ws[1..] == ws;
  }

  lemma {:induction false} MoreWavesStep(acc: seq<Wave>, w: Wave, ts: Stream, r: Stream)
    requires ParseWave(ts) == R(w, r, NO_ERRORS)
    ensures MoreWaves(acc, Tok(COMMA, ts), NO_ERRORS) == MoreWaves(acc + [w], r, NO_ERRORS)
  {
    hide ParseWave;
  }

  lemma {:induction false} MoreWavesRun(acc: seq<Wave>, ws: seq<Wave>, r: Stream)
    requires AllWaves(ws, true) && At(r) == SEMICOLON
    ensures MoreWaves(acc, MoreWavesAhead(ws, r), NO_ERRORS) == R(acc + ws, r, NO_ERRORS)
    decreases ws
  {
    hide ParseWave, WaveAhead, IsWave, IsBreak, MoreWaves;
    BreakSeparator();
    if ws == [] {
      MoreWavesEnd(acc, r);
      assert acc + ws == acc;
    } else {
      var m := MoreWavesAhead(ws[1..], r);
      WaveRun(ws[0], m);
      MoreWavesStep(acc, ws[0], WaveAhead(ws[0], m), m);
      MoreWavesRun(acc + [ws[0]], ws[1..], r);
      assert acc + [ws[0]] + ws[1..] == acc + ws;
    }
  }

  lemma {:induction false} MoreWavesEnd(acc: seq<Wave>, r: Stream)
    requires At(r) != COMMA
    ensures MoreWaves(acc, r, NO_ERRORS) == R(acc, r, NO_ERRORS)
  {
  }

  lemma {:induction false} DelayRun(d: Delay, r: Stream)
    requires IsDelay(d, true) && StartsExpr(At(r))
    ensures ParseDelay(DelayAhead(d, r)) == R(d, r, NO_ERRORS)
  {
    hide ParseExpr, ExprAhead, Full, StartsExpr;
    StartsNoDelay(At(r));
    if d.Reject? { RejectRun(d.limit, r); }
  }

  lemma {:induction false} RejectRun(x: Expr, r: Stream)
    requires Full(x, true)
    ensures ParseDelay(DelayAhead(Reject(x), r)) == R(Reject(x), r, NO_ERRORS)
  {
    hide ParseExpr, ExprAhead, Full;
    BreakRun(x, Tok(INERTIAL, r));
  }

  lemma {:induction false} StartsNoDelay(k: Kind)
    requires StartsExpr(k)
    ensures k != TRANSPORT && k != REJECT && k != INERTIAL && k != SEMICOLON
  {
  }

  lemma {:induction false} WavesStart(ws: seq<Wave>, r: Stream)
    requires IsWaves(ws, true)
    ensures StartsExpr(At(WavesAhead(ws, r)))
  {
    hide ExprAhead, Full, StartsExpr;
    assert IsWave(ws[0], true);
    FullStarts(ws[0].value, true, OptAhead(AFTER, ws[0].after, MoreWavesAhead(ws[1..], r)));
  }

  lemma {:induction false} ForRun(h: Scheme, r: Stream)
    requires h.For? && IsScheme(h, true) && At(r) == LOOP
    ensures ParseFor(Adv(SchemeAhead(h, r))) == R(h, r, NO_ERRORS)
  {
    hide ParseExpr, ExprAhead, Full;
    if h.ofMark.Some? { BreakRun(h.ofMark.value, Tok(RANGE, ExprAhead(h.range, r))); }
    BreakRun(h.range, r);
  }

  lemma {:induction false} SchemeRun(h: Scheme, r: Stream)
    requires IsScheme(h, true) && At(r) == LOOP
    ensures ParseScheme(SchemeAhead(h, r)) == R(h, r, NO_ERRORS)
  {
    hide ParseExpr, ExprAhead, Full, ParseFor;
    if h.For? { ForRun(h, r); } else if h.While? { BreakRun(h.cond, r); }
  }

  lemma {:induction false} NamesRun(ns: seq<Expr>, r: Stream)
    requires AllNames(ns, true) && IsBreak(At(r)) && At(r) != COMMA
    ensures ParseOn(NamesAhead(ns, r)) == R(ns, r, NO_ERRORS)
  {
    hide ParseName, ExprAhead, IsName, MoreNames, MoreNamesAhead;
    if ns != [] {
      MoreNamesBreak(ns[1..], r);
      NameBreakRun(ns[0], MoreNamesAhead(ns[1..], r));
      MoreNamesRun([ns[0]], ns[1..], r);
      assert [ns[0]] + ns[1..] == ns;
    }
  }

  lemma {:induction false} MoreNamesBreak(ns: seq<Expr>, r: Stream)
    requires IsBreak(At(r))
    ensures IsBreak(At(MoreNamesAhead(ns, r)))
  {
  }

  lemma {:induction false} MoreNamesRun(acc: seq<Expr>, ns: seq<Expr>, r: Stream)
    requires AllNames(ns, true) && IsBreak(At(r)) && At(r) != COMMA
    ensures MoreNames(acc, MoreNamesAhead(ns, r), NO_ERRORS) == R(acc + ns, r, NO_ERRORS)
    decreases ns
  {
    hide ParseName, ExprAhead, IsName, IsBreak;
    BreakSeparator();
    if ns == [] {
      assert acc + ns == acc;
    } else {
      NameBreakRun(ns[0], MoreNamesAhead(ns[1..], r));
      MoreNamesRun(acc + [ns[0]], ns[1..], r);
      assert acc + [ns[0]] + ns[1..] == acc + ns;
    }
  }

  lemma {:induction false} EndRun(k: Kind, r: Stream)
    requires k != IDENT
    ensures ParseEnd(k, EndAhead(k, r)) == R((), r, NO_ERRORS) && At(EndAhead(k, r)) == END
  {
  }

  /** The choices of a case alternative. */
  lemma {:induction false} ChoicesRun(cs: seq<Expr>, r: Stream)
    requires cs != [] && AllFull(cs, true) && At(r) == ARROW
    ensures ParseChoices(ChoicesAhead(cs, r)) == R(cs, r, NO_ERRORS)
  {
    hide ParseExpr, ExprAhead, Full, MoreChoices;
    BreakRun(cs[0], MoreChoicesAhead(cs[1..], r));
    MoreChoicesRun([cs[0]], cs[1..], r);
    assert [cs[0]] + cs[1..] == cs;
  }

  // ---- Statements without inner statements ----

  lemma {:induction false} LabelRun(l: Option<Token>, r: Stream)
    requires IsLabel(l) && At(r) != IDENT
    ensures ParseLabel(LabelAhead(l, r)) == R(l, r, NO_ERRORS)
  {
  }

  lemma {:induction false} JumpRun(next: bool, l: Option<Token>, w: Option<Expr>, r: Stream)
    requires IsLabel(l) && OptFull(w, true)
    ensures ParseJump(next, LabelAhead(l, OptAhead(WHEN, w, Tok(SEMICOLON, r)))) == R(Some(if next then NextStmt(l, w) else ExitStmt(l, w)), r, NO_ERRORS)
  {
    hide ParseOpt, OptAhead, OptFull, ParseLabel, LabelAhead, IsLabel;
    var s := Tok(SEMICOLON, r);
    OptRun(WHEN, w, s);
    LabelRun(l, OptAhead(WHEN, w, s));
  }

  lemma {:induction false} ReturnRun(x: Option<Expr>, r: Stream)
    requires OptFull(x, true)
    ensures ParseReturn(if x.None? then Tok(SEMICOLON, r) else ExprAhead(x.value, Tok(SEMICOLON, r))) == R(Some(ReturnStmt(x)), r, NO_ERRORS)
  {
    hide ParseExpr, ExprAhead, Full;
    if x.Some? { ValueRun(x.value, Tok(SEMICOLON, r)); }
  }

  lemma {:induction false} ValueRun(e: Expr, r: Stream)
    requires Full(e, true) && At(r) == SEMICOLON
    ensures ParseExpr(ExprAhead(e, r)) == R(e, r, NO_ERRORS) && At(ExprAhead(e, r)) != SEMICOLON
  {
    hide ParseExpr, ExprAhead, Full, StartsExpr;
    FullStarts(e, true, r);
    StartsNoDelay(At(ExprAhead(e, r)));
    BreakRun(e, r);
  }

  lemma {:induction false} AssertRun(c: Expr, m: Option<Expr>, v: Option<Expr>, r: Stream)
    requires Full(c, true) && OptFull(m, true) && OptFull(v, true)
    ensures ParseAssert(ExprAhead(c, OptAhead(REPORT, m, OptAhead(SEVERITY, v, Tok(SEMICOLON, r))))) == R(Some(AssertStmt(c, m, v)), r, NO_ERRORS)
  {
    hide ParseExpr, ExprAhead, Full, ParseOpt, OptAhead, OptFull;
    var s := Tok(SEMICOLON, r);
    OptRun(SEVERITY, v, s);
    OptRun(REPORT, m, OptAhead(SEVERITY, v, s));
    BreakRun(c, OptAhead(REPORT, m, OptAhead(SEVERITY, v, s)));
  }

  lemma {:induction false} ReportRun(m: Expr, v: Option<Expr>, r: Stream)
    requires Full(m, true) && OptFull(v, true)
    ensures ParseReport(ExprAhead(m, OptAhead(SEVERITY, v, Tok(SEMICOLON, r)))) == R(Some(ReportStmt(m, v)), r, NO_ERRORS)
  {
    hide ParseExpr, ExprAhead, Full, ParseOpt, OptAhead, OptFull;
    var s := Tok(SEMICOLON, r);
    OptRun(SEVERITY, v, s);
    BreakRun(m, OptAhead(SEVERITY, v, s));
  }

  lemma {:induction false} WaitRun(ns: seq<Expr>, u: Option<Expr>, t: Option<Expr>, r: Stream)
    requires AllNames(ns, true) && OptFull(u, true) && OptFull(t, true)
    ensures ParseWait(NamesAhead(ns, OptAhead(UNTIL, u, OptAhead(FOR, t, Tok(SEMICOLON, r))))) == R(Some(WaitStmt(ns, u, t)), r, NO_ERRORS)
  {
    hide ParseOpt, OptAhead, OptFull, ParseOn, NamesAhead, AllNames;
    var s := Tok(SEMICOLON, r);
    OptRun(FOR, t, s);
    OptRun(UNTIL, u, OptAhead(FOR, t, s));
    NamesRun(ns, OptAhead(UNTIL, u, OptAhead(FOR, t, s)));
  }

  lemma {:induction false} KeywordAt(ts: Stream)
    ensures At(ts) == NULL ==> ParseSimple(ts) == Ended(Some(NullStmt), Adv(ts), NO_ERRORS)
    ensures At(ts) == NEXT ==> ParseSimple(ts) == ParseJump(true, Adv(ts))
    ensures At(ts) == EXIT ==> ParseSimple(ts) == ParseJump(false, Adv(ts))
    ensures At(ts) == RETURN ==> ParseSimple(ts) == ParseReturn(Adv(ts))
  {
    hide ParseNamed, ParseWait, ParseJump, ParseReturn, ParseAssert, ParseReport;
  }

  lemma {:induction false} VerbAt(ts: Stream)
    ensures At(ts) == WAIT ==> ParseSimple(ts) == ParseWait(Adv(ts))
    ensures At(ts) == ASSERT ==> ParseSimple(ts) == ParseAssert(Adv(ts))
    ensures At(ts) == REPORT ==> ParseSimple(ts) == ParseReport(Adv(ts))
  {
    hide ParseNamed, ParseWait, ParseJump, ParseReturn, ParseAssert, ParseReport;
  }

  lemma {:induction false} NamedAt(ts: Stream)
    requires !StartsStmt(At(ts))
    ensures ParseForm(ts) == ParseSimple(ts) == ParseNamed(ts)
  {
    hide ParseNamed, ParseWait, ParseJump, ParseReturn, ParseAssert, ParseReport, ParseIf, ParseLoop, ParseCase;
  }

  /** Statements that start with a keyword of their own. */
  lemma {:induction false} KeywordRun(f: Form, r: Stream)
    requires f.NullStmt? || f.NextStmt? || f.ExitStmt? || f.ReturnStmt? || f.AssertStmt? || f.ReportStmt? || f.WaitStmt?
    requires IsSimple(f, true)
    ensures ParseSimple(SimpleAhead(f, Tok(SEMICOLON, r))) == R(Some(f), r, NO_ERRORS)
  {
    hide ExprAhead, Full, NamesAhead, LabelAhead, OptFull, AllNames, IsLabel, OptAhead, ParseSimple, ParseWait, ParseJump, ParseReturn, ParseAssert, ParseReport;
    KeywordAt(SimpleAhead(f, Tok(SEMICOLON, r)));
    VerbAt(SimpleAhead(f, Tok(SEMICOLON, r)));
    match f
    case NullStmt =>
    case NextStmt(l, w) => JumpRun(true, l, w, r);
    case ExitStmt(l, w) => JumpRun(false, l, w, r);
    case ReturnStmt(x) => ReturnRun(x, r);
    case AssertStmt(c, m, v) => AssertRun(c, m, v, r);
    case ReportStmt(m, v) => ReportRun(m, v, r);
    case WaitStmt(ns, u, t) => WaitRun(ns, u, t, r);
  }

  /** The token behind the first of a name. */
  lemma {:induction false} ChainSecond(e: Expr, strict: bool, r: Stream)
    requires IsChain(e, strict) && At(r) != COLON
    ensures Peek(ExprAhead(e, r)) != COLON
    decreases e
  {
    hide AssocsAhead, IsFlat, IsAssoc;
    match e
    case Ident(name) => FlatSecond(name, r);
    case Call(f, args) => ChainSecond(f, strict, Tok(LPAREN, AssocsAhead(args, Tok(RPAREN, r))));
    case Selector(x, s) => ChainSecond(x, strict, Tok(DOT, More(s, r)));
    case AttrName(x, a) => ChainSecond(x, strict, Tok(TICK, More(a, r)));
  }

  lemma {:induction false} FlatSecond(name: seq<Token>, r: Stream)
    requires IsFlat(name) && At(r) != COLON
    ensures Peek(Ahead(name, r)) != COLON
  {
    if |name| > 1 { assert name[1..][0] == name[1]; }
  }

  lemma {:induction false} NameSecond(e: Expr, strict: bool, r: Stream)
    requires IsName(e, strict) && At(r) != COLON
    ensures Peek(ExprAhead(e, r)) != COLON
  {
    hide IsFlat, IsChain;
    if e.Qualified? { FlatSecond(e.mark.name, Tok(TICK, ExprAhead(e.inner, r))); } else { ChainSecond(e, strict, r); }
  }

  lemma {:induction false} AssignRun(x: Expr, v: Expr, r: Stream)
    requires IsName(x, true) && Full(v, true)
    ensures ParseNamed(ExprAhead(x, Tok(ASSIGN, ExprAhead(v, Tok(SEMICOLON, r))))) == R(Some(VarAssign(x, v)), r, NO_ERRORS)
  {
    hide ParseExpr, ParseName, ExprAhead, Full, IsName, Merge, ParseDelay, ParseWaves;
    NameBreakRun(x, Tok(ASSIGN, ExprAhead(v, Tok(SEMICOLON, r))));
    BreakRun(v, Tok(SEMICOLON, r));
  }

  lemma {:induction false} SignalRun(x: Expr, d: Delay, ws: seq<Wave>, r: Stream)
    requires IsName(x, true) && IsDelay(d, true) && IsWaves(ws, true)
    ensures ParseNamed(ExprAhead(x, Tok(LE, DelayAhead(d, WavesAhead(ws, Tok(SEMICOLON, r)))))) == R(Some(SignalAssign(x, d, ws)), r, NO_ERRORS)
  {
    hide ParseExpr, ParseName, ExprAhead, Full, IsName, WavesAhead, ParseWaves, ParseDelay, DelayAhead, IsWaves, StartsExpr, Merge;
    var w := WavesAhead(ws, Tok(SEMICOLON, r));
    WavesRun(ws, Tok(SEMICOLON, r));
    WavesStart(ws, Tok(SEMICOLON, r));
    DelayRun(d, w);
    NameRun(x, Tok(LE, DelayAhead(d, w)));
  }

  lemma {:induction false} CallRun(n: Expr, args: seq<Assoc>, r: Stream)
    requires IsChain(n, true) && AllAssocs(args, true) && (args == [] ==> n.Ident?)
    ensures ParseNamed(ExprAhead(if args == [] then n else Call(n, args), Tok(SEMICOLON, r))) == R(Some(ProcCall(n, args)), r, NO_ERRORS)
  {
    hide ParseExpr, ParseName, ExprAhead, Full, Merge, HeadOf, ParseDelay, ParseWaves, IsAssoc;
    var e := if args == [] then n else Call(n, args);
    assert IsName(e, true);
    NameBreakRun(e, Tok(SEMICOLON, r));
    ChainFixed(n);
  }

  // ---- Statements ----

  lemma {:induction false} NamedRun(f: Form, r: Stream)
    requires f.SignalAssign? || f.VarAssign? || f.ProcCall?
    requires IsForm(f, true)
    ensures ParseForm(FormAhead(f, r)) == R(Some(f), r, NO_ERRORS)
  {
    hide ParseForm, ParseNamed, ExprAhead, Full, IsName, IsChain, StartsStmt, WavesAhead, IsDelay, IsWaves, AllAssocs;
    FormStarts(f, r);
    NamedAt(FormAhead(f, r));
    match f
    case SignalAssign(x, d, ws) => SignalRun(x, d, ws, r);
    case VarAssign(x, v) => AssignRun(x, v, r);
    case ProcCall(n, args) => CallRun(n, args, r);
  }

  /** A statement's first token, and no colon behind it when it could be a label. */
  lemma {:induction false} FormStarts(f: Form, r: Stream)
    requires IsForm(f, true)
    ensures var ts := FormAhead(f, r); ts.More? && At(ts) == FirstOfForm(f) && At(ts) != EOF && !(At(ts) == IDENT && Peek(ts) == COLON)
  {
    hide ExprAhead, Full, IsName, IsChain, WavesAhead, IsDelay, IsWaves, AllAssocs, DelayAhead, HeadOf;
    match f
    case SignalAssign(x, d, ws) => TargetStarts(x, Tok(LE, DelayAhead(d, WavesAhead(ws, Tok(SEMICOLON, r)))));
    case VarAssign(x, v) => TargetStarts(x, Tok(ASSIGN, ExprAhead(v, Tok(SEMICOLON, r))));
    case ProcCall(n, args) => CallStarts(n, args, Tok(SEMICOLON, r));
    case LoopStmt(h, b) => KeywordStarts(f, r);
    case _ => KeywordStarts(f, r);
  }

  lemma {:induction false} KeywordStarts(f: Form, r: Stream)
    requires !f.SignalAssign? && !f.VarAssign? && !f.ProcCall?
    ensures var ts := FormAhead(f, r); ts.More? && At(ts) == FirstOfForm(f) && At(ts) != EOF && At(ts) != IDENT
  {
    hide ExprAhead, SeqAhead, ElsifsAhead, ElseAhead, AltsAhead, NamesAhead, OptAhead, LabelAhead;
  }

  lemma {:induction false} TargetStarts(x: Expr, r: Stream)
    requires IsTarget(x, true) && At(r) != COLON
    ensures var ts := ExprAhead(x, r); ts.More? && At(ts) == HeadOf(x).kind && At(ts) != EOF && Peek(ts) != COLON
  {
    hide ExprAhead, HeadOf, IsName;
    NameStarts(x, true, r);
    NameSecond(x, true, r);
  }

  lemma {:induction false} CallStarts(n: Expr, args: seq<Assoc>, r: Stream)
    requires IsChain(n, true) && At(r) != COLON
    ensures var ts := ExprAhead(if args == [] then n else Call(n, args), r); ts.More? && At(ts) == HeadOf(n).kind && At(ts) != EOF && Peek(ts) != COLON
  {
    hide IsChain, IsName, HeadOf, AssocsAhead;
    ChainIsAName(n);
    CallSecond(n, args, r);
    NameStarts(n, true, if args == [] then r else Tok(LPAREN, AssocsAhead(args, Tok(RPAREN, r))));
  }

  lemma {:induction false} CallSecond(n: Expr, args: seq<Assoc>, r: Stream)
    requires IsName(n, true) && At(r) != COLON
    ensures var t := if args == [] then r else Tok(LPAREN, AssocsAhead(args, Tok(RPAREN, r)));
            ExprAhead(if args == [] then n else Call(n, args), r) == ExprAhead(n, t) && Peek(ExprAhead(n, t)) != COLON
  {
    hide IsName, AssocsAhead;
    NameSecond(n, true, if args == [] then r else Tok(LPAREN, AssocsAhead(args, Tok(RPAREN, r))));
  }

  lemma {:induction false} ChainIsAName(n: Expr)
    requires IsChain(n, true)
    ensures IsName(n, true)
  {
  }

  lemma {:induction false} FormRun(f: Form, r: Stream)
    requires IsForm(f, true)
    ensures ParseForm(FormAhead(f, r)) == R(Some(f), r, NO_ERRORS)
    decreases f, 3
  {
    hide *;
    if f.IfStmt? {
      IfRun(f, r);
      BlockAt(FormAhead(f, r));
    } else if f.CaseStmt? {
      CaseRun(f, r);
      BlockAt(FormAhead(f, r));
    } else if f.LoopStmt? {
      LoopRun(f, r);
      BlockAt(FormAhead(f, r));
    } else if f.SignalAssign? || f.VarAssign? || f.ProcCall? {
      NamedRun(f, r);
    } else {
      PlainRun(f, r);
    }
  }

  lemma {:induction false} BlockAt(ts: Stream)
    ensures At(ts) == IF ==> ParseForm(ts) == ParseIf(ts)
    ensures At(ts) == CASE ==> ParseForm(ts) == ParseCase(ts)
    ensures At(ts) == FOR || At(ts) == WHILE || At(ts) == LOOP ==> ParseForm(ts) == ParseLoop(ts)
  {
    hide ParseIf, ParseCase, ParseLoop, ParseSimple;
  }

  lemma {:induction false} PlainRun(f: Form, r: Stream)
    requires f.NullStmt? || f.NextStmt? || f.ExitStmt? || f.ReturnStmt? || f.AssertStmt? || f.ReportStmt? || f.WaitStmt?
    requires IsForm(f, true)
    ensures ParseForm(FormAhead(f, r)) == R(Some(f), r, NO_ERRORS)
  {
    hide ParseSimple, ParseForm, SimpleAhead, IsSimple;
    FormStarts(f, r);
    KeywordRun(f, r);
    NoBlockAt(FormAhead(f, r));
  }

  lemma {:induction false} NoBlockAt(ts: Stream)
    requires At(ts) != IF && At(ts) != CASE && At(ts) != FOR && At(ts) != WHILE && At(ts) != LOOP
    ensures ParseForm(ts) == ParseSimple(ts)
  {
    hide ParseSimple;
  }

  lemma {:induction false} StmtRun(s: Stmt, r: Stream)
    requires IsStmt(s, true)
    ensures ParseStmt(StmtAhead(s, r)) == R(Some(s), r, NO_ERRORS)
    decreases s, 3
  {
    hide ParseForm, FormAhead, IsForm, FirstOfForm;
    FormStarts(s.form, r);
    FormRun(s.form, r);
  }

  lemma {:induction false} StmtStarts(s: Stmt, r: Stream)
    requires IsStmt(s, true)
    ensures At(StmtAhead(s, r)) == FirstOf(s) && At(StmtAhead(s, r)) != EOF
  {
    hide FormAhead, IsForm, FirstOfForm;
    FormStarts(s.form, r);
  }

  lemma {:induction false} SeqRun(stops: Stops, ss: seq<Stmt>, r: Stream)
    requires IsSeq(stops, ss, true) && (IsStop(stops, At(r)) || At(r) == EOF)
    ensures ParseSeq(stops, SeqAhead(ss, r)) == R(ss, r, NO_ERRORS)
    decreases ss, 4
  {
    hide ParseStmt, StmtAhead, IsStmt, IsStop, FirstOf;
    if ss != [] {
      var m := SeqAhead(ss[1..], r);
      StmtStarts(ss[0], m);
      StmtRun(ss[0], m);
      SeqRun(stops, ss[1..], r);
      assert [ss[0]] + ss[1..] == ss;
    }
  }

  lemma {:induction false} ElseRun(e: Tail, r: Stream)
    requires e.Else? ==> IsSeq(OnlyEnd, e.body, true) && e.body != []
    requires At(r) == END
    ensures ParseElse(ElseAhead(e, r)) == R(e, r, NO_ERRORS)
    ensures At(ElseAhead(e, r)) == if e.Else? then ELSE else END
    decreases e, 5
  {
    hide ParseSeq, SeqAhead, IsSeq;
    if e.Else? { SeqRun(OnlyEnd, e.body, r); }
  }

  lemma {:induction false} ThenRun(e: Expr, r: Stream)
    requires Full(e, true)
    ensures ParseExpr(ExprAhead(e, Tok(THEN, r))) == R(e, Tok(THEN, r), NO_ERRORS)
  {
    hide ParseExpr, ExprAhead, Full;
    BreakRun(e, Tok(THEN, r));
  }

  lemma {:induction false} NoElsif(r: Stream)
    ensures At(r) != ELSIF ==> ParseElsifs(r) == R([], r, NO_ERRORS)
  {
    hide ParseSeq, ParseExpr;
  }

  predicate AllElsifs(es: seq<Clause>) { forall x :: x in es ==> |x.guards| == 1 && IsClause(ElseOrEnd, x, true) }

  predicate AllAlts(es: seq<Clause>) { forall x :: x in es ==> x.guards != [] && IsClause(WhenOrEnd, x, true) }

  lemma {:induction false} ElsifsRun(es: seq<Clause>, r: Stream)
    requires AllElsifs(es) && (At(r) == ELSE || At(r) == END)
    ensures ParseElsifs(ElsifsAhead(es, r)) == R(es, r, NO_ERRORS)
    ensures IsStop(ElseOrEnd, At(ElsifsAhead(es, r)))
    decreases es, 5
  {
    hide ParseSeq, SeqAhead, IsSeq, ParseExpr, ExprAhead, Full, ParseElsifs, ChoicesAhead;
    NoElsif(r);
    if es != [] {
      var c := es[0];
      var m := ElsifsAhead(es[1..], r);
      ElsifsRun(es[1..], r);
      SeqRun(ElseOrEnd, c.body, m);
      ThenRun(c.guards[0], SeqAhead(c.body, m));
      SingleChoice(c.guards, Tok(THEN, SeqAhead(c.body, m)));
      ElsifStep(ExprAhead(c.guards[0], Tok(THEN, SeqAhead(c.body, m))), c.guards[0], SeqAhead(c.body, m), c.body, m, es[1..], r);
      assert [c] + es[1..] == es;
    }
  }

  lemma {:induction false} SingleChoice(cs: seq<Expr>, r: Stream)
    requires |cs| == 1
    ensures ChoicesAhead(cs, r) == ExprAhead(cs[0], r) && cs == [cs[0]]
  {
    hide ExprAhead;
    assert cs[1..] == [];
  }

  lemma {:induction false} ElsifStep(ts: Stream, c: Expr, ss: Stream, b: seq<Stmt>, es: Stream, more: seq<Clause>, r: Stream)
    requires ParseExpr(ts) == R(c, Tok(THEN, ss), NO_ERRORS) && ParseSeq(ElseOrEnd, ss) == R(b, es, NO_ERRORS) && ParseElsifs(es) == R(more, r, NO_ERRORS)
    ensures ParseElsifs(Tok(ELSIF, ts)) == R([Clause([c], b)] + more, r, NO_ERRORS)
  {
    hide ParseExpr, ParseSeq;
  }

  lemma {:induction false} IfStep(ts: Stream, c: Expr, ss: Stream, b: seq<Stmt>, es: Stream, more: seq<Clause>, ls: Stream, e: Tail, zs: Stream, r: Stream)
    requires ParseExpr(ts) == R(c, Tok(THEN, ss), NO_ERRORS) && ParseSeq(ElseOrEnd, ss) == R(b, es, NO_ERRORS) && ParseElsifs(es) == R(more, ls, NO_ERRORS)
    requires ParseElse(ls) == R(e, zs, NO_ERRORS) && ParseEnd(IF, zs) == R((), r, NO_ERRORS)
    ensures ParseIf(Tok(IF, ts)) == R(Some(IfStmt(c, b, more, e)), r, NO_ERRORS)
  {
    hide ParseExpr, ParseSeq, ParseElsifs, ParseElse, ParseEnd;
  }

  lemma {:induction false} CaseStep(ts: Stream, c: Expr, cs: Stream, alts: seq<Clause>, zs: Stream, r: Stream)
    requires ParseExpr(ts) == R(c, Tok(IS, cs), NO_ERRORS) && ParseAlts(cs) == R(alts, zs, NO_ERRORS) && ParseEnd(CASE, zs) == R((), r, NO_ERRORS)
    ensures ParseCase(Tok(CASE, ts)) == R(Some(CaseStmt(c, alts)), r, NO_ERRORS)
  {
    hide ParseExpr, ParseAlts, ParseEnd;
  }

  lemma {:induction false} AltsRun(es: seq<Clause>, r: Stream)
    requires AllAlts(es) && At(r) == END
    ensures ParseAlts(AltsAhead(es, r)) == R(es, r, NO_ERRORS)
    ensures At(AltsAhead(es, r)) == if es == [] then END else WHEN
    decreases es, 5
  {
    hide ParseSeq, SeqAhead, IsSeq, ParseChoices, ChoicesAhead, AllFull;
    if es != [] {
      var c := es[0];
      var m := AltsAhead(es[1..], r);
      AltsRun(es[1..], r);
      SeqRun(WhenOrEnd, c.body, m);
      ChoicesRun(c.guards, Tok(ARROW, SeqAhead(c.body, m)));
      assert [c] + es[1..] == es;
    }
  }

  lemma {:induction false} IfRun(f: Form, r: Stream)
    requires f.IfStmt? && IsForm(f, true)
    ensures At(FormAhead(f, r)) == IF && ParseIf(FormAhead(f, r)) == R(Some(f), r, NO_ERRORS)
    decreases f, 2
  {
    hide ParseIf, ParseSeq, SeqAhead, IsSeq, ParseExpr, ExprAhead, Full, ParseElsifs, ElsifsAhead, ParseElse, ElseAhead, ParseEnd, EndAhead, IsStop, IsClause;
    var z := EndAhead(IF, r);
    var l := ElseAhead(f.els, z);
    var es := ElsifsAhead(f.elsifs, l);
    var b := SeqAhead(f.thn, es);
    EndRun(IF, r);
    ElseRun(f.els, z);
    ElsifsRun(f.elsifs, l);
    SeqRun(ElseOrEnd, f.thn, es);
    ThenRun(f.cond, b);
    IfStep(ExprAhead(f.cond, Tok(THEN, b)), f.cond, b, f.thn, es, f.elsifs, l, f.els, z, r);
  }

  lemma {:induction false} CaseRun(f: Form, r: Stream)
    requires f.CaseStmt? && IsForm(f, true)
    ensures At(FormAhead(f, r)) == CASE && ParseCase(FormAhead(f, r)) == R(Some(f), r, NO_ERRORS)
    decreases f, 2
  {
    hide ParseCase, ParseExpr, ExprAhead, Full, ParseAlts, AltsAhead, ParseEnd, IsClause;
    var z := EndAhead(CASE, r);
    var a := AltsAhead(f.alts, z);
    EndRun(CASE, r);
    AltsRun(f.alts, z);
    BreakRun(f.subject, Tok(IS, a));
    CaseStep(ExprAhead(f.subject, Tok(IS, a)), f.subject, a, f.alts, z, r);
  }

  lemma {:induction false} LoopRun(f: Form, r: Stream)
    requires f.LoopStmt? && IsForm(f, true)
    ensures var ts := FormAhead(f, r); (At(ts) == FOR || At(ts) == WHILE || At(ts) == LOOP) && ParseLoop(ts) == R(Some(f), r, NO_ERRORS)
    decreases f, 2
  {
    hide ParseSeq, SeqAhead, IsSeq, ExprAhead, Full, ParseScheme, ParseEnd, IsScheme;
    var z := EndAhead(LOOP, r);
    EndRun(LOOP, r);
    SeqRun(OnlyEnd, f.body, z);
    SchemeRun(f.scheme, Tok(LOOP, SeqAhead(f.body, z)));
  }

  // ==== tools/socgen/vhdl/parser.go: what the statement parser can return when it records no error.

  // ---- Names with any first token ----

  predicate Unspelled(name: seq<Token>) { name == [] || name[0].lit == "" }

  lemma {:induction false} DotsUnspelled(name: seq<Token>, ts: Stream)
    requires Unspelled(name)
    ensures Unspelled(Dots(name, ts).0)
    decreases Len(ts)
  {
    if At(ts) == DOT && IsSegment(At(Adv(ts))) { DotsUnspelled(name + [KindToken(DOT), Spelled(Cur(Adv(ts)))], Adv(Adv(ts))); }
  }

  lemma {:induction false} TicksUnspelled(name: seq<Token>, ts: Stream)
    requires Unspelled(name)
    ensures Unspelled(Ticks(name, ts).0)
    decreases Len(ts)
  {
    if At(ts) == TICK && IsAttr(Peek(ts)) { TicksUnspelled(name + [KindToken(TICK), Spelled(Cur(Adv(ts)))], Adv(Adv(ts))); }
  }

  lemma {:induction false} SuffixesHead(e: Expr, ts: Stream, errs: nat)
    ensures HeadOf(Suffixes(e, ts, errs).v) == HeadOf(e)
    decreases Len(ts)
  {
    hide ParseArgs, IsSegment, IsAttr, Spelled, Expect;
    if At(ts) == LPAREN {
      var t := Adv(ts);
      var args := ParseArgs(t);
      var c := Expect(RPAREN, args.rest);
      SuffixesHead(Call(e, args.v), c.rest, errs + args.errs + c.errs);
    } else if At(ts) == DOT && IsSegment(Peek(ts)) {
      SuffixesHead(Selector(e, Spelled(Cur(Adv(ts)))), Adv(Adv(ts)), errs);
    } else if At(ts) == TICK && IsAttr(Peek(ts)) {
      SuffixesHead(AttrName(e, Spelled(Cur(Adv(ts)))), Adv(Adv(ts)), errs);
    }
  }

  /** A name whose first token has no spelling shows it. */
  lemma {:induction false} NameHead(ts: Stream)
    requires Cur(ts).lit == ""
    ensures HeadOf(ParseName(ts).v).lit == ""
  {
    hide Dots, Ticks, Suffixes, ParseParen;
    DotsUnspelled([], Adv(ts));
    TicksUnspelled(Dots([], Adv(ts)).0, Dots([], Adv(ts)).1);
    var n := FlatName(Head(Cur(ts)), Adv(ts));
    SuffixesHead(Ident(n.0), n.1, 0);
  }

  lemma {:induction false} SpelledNameSound(ts: Stream, strict: bool)
    requires Clean(ts, strict) && ParseName(ts).errs == 0 && HeadOf(ParseName(ts).v).lit != ""
    ensures IsName(ParseName(ts).v, strict) && HeadOf(ParseName(ts).v) == Cur(ts) && Clean(ParseName(ts).rest, strict)
  {
    hide ParseName, IsName, HeadOf;
    if Cur(ts).lit == "" { NameHead(ts); }
    NameSound(ts, strict);
  }

  // ---- Parts of statements ----

  lemma {:induction false} OptSound(k: Kind, ts: Stream, strict: bool)
    requires Clean(ts, strict) && ParseOpt(k, ts).errs == 0
    ensures OptFull(ParseOpt(k, ts).v, strict) && Clean(ParseOpt(k, ts).rest, strict)
  {
    hide ParseExpr, Full;
    if At(ts) == k { ExprSound(Adv(ts), strict); }
  }

  lemma {:induction false} WaveSound(ts: Stream, strict: bool)
    requires Clean(ts, strict) && ParseWave(ts).errs == 0
    ensures IsWave(ParseWave(ts).v, strict) && Clean(ParseWave(ts).rest, strict)
  {
    hide ParseExpr, Full, ParseOpt, OptFull;
    ExprSound(ts, strict);
    OptSound(AFTER, ParseExpr(ts).rest, strict);
  }

  lemma {:induction false} WavesSound(ts: Stream, strict: bool)
    requires Clean(ts, strict) && ParseWaves(ts).errs == 0
    ensures IsWaves(ParseWaves(ts).v, strict) && Clean(ParseWaves(ts).rest, strict)
  {
    hide ParseWave, IsWave, MoreWaves;
    WaveSound(ts, strict);
    MoreWavesSound([ParseWave(ts).v], ParseWave(ts).rest, strict);
  }

  lemma {:induction false} MoreWavesSound(acc: seq<Wave>, ts: Stream, strict: bool)
    requires Clean(ts, strict) && AllWaves(acc, strict) && MoreWaves(acc, ts, NO_ERRORS).errs == 0
    ensures AllWaves(MoreWaves(acc, ts, NO_ERRORS).v, strict) && Clean(MoreWaves(acc, ts, NO_ERRORS).rest, strict)
    decreases Len(ts)
  {
    hide ParseWave, IsWave;
    if At(ts) == COMMA {
      var w := ParseWave(Adv(ts));
      WaveSound(Adv(ts), strict);
      MoreWavesSound(acc + [w.v], w.rest, strict);
    }
  }

  lemma {:induction false} DelaySound(ts: Stream, strict: bool)
    requires Clean(ts, strict) && ParseDelay(ts).errs == 0
    ensures IsDelay(ParseDelay(ts).v, strict) && Clean(ParseDelay(ts).rest, strict)
  {
    hide ParseExpr, Full;
    if At(ts) == REJECT { ExprSound(Adv(ts), strict); }
  }

  lemma {:induction false} ChoicesSound(ts: Stream, strict: bool)
    requires Clean(ts, strict) && ParseChoices(ts).errs == 0
    ensures ParseChoices(ts).v != [] && AllFull(ParseChoices(ts).v, strict) && Clean(ParseChoices(ts).rest, strict)
  {
    hide ParseExpr, Full, MoreChoices;
    ExprSound(ts, strict);
    MoreChoicesSound([ParseExpr(ts).v], ParseExpr(ts).rest, strict);
  }

  lemma {:induction false} ForSound(ts: Stream, strict: bool)
    requires Clean(ts, strict) && ParseFor(ts).errs == 0
    ensures IsScheme(ParseFor(ts).v, strict) && ParseFor(ts).v.For? && Clean(ParseFor(ts).rest, strict)
  {
    hide ParseExpr, Full, ParseOpt;
    var x := Expect(IN, Expect(IDENT, ts).rest).rest;
    ExprSound(x, strict);
    OptSound(RANGE, ParseExpr(x).rest, strict);
  }

  lemma {:induction false} SchemeSound(ts: Stream, strict: bool)
    requires Clean(ts, strict) && ParseScheme(ts).errs == 0
    ensures var h := ParseScheme(ts); IsScheme(h.v, strict) && Clean(h.rest, strict)
    ensures At(ts) == FOR ==> ParseScheme(ts).v.For?
    ensures At(ts) == WHILE ==> ParseScheme(ts).v.While?
    ensures At(ts) != FOR && At(ts) != WHILE ==> ParseScheme(ts).v.Bare?
  {
    hide ParseExpr, ParseFor, IsScheme;
    if At(ts) == FOR {
      ForSound(Adv(ts), strict);
    } else {
      WhileSound(ts, strict);
    }
  }

  lemma {:induction false} WhileSound(ts: Stream, strict: bool)
    requires Clean(ts, strict) && ParseScheme(ts).errs == 0 && At(ts) != FOR
    ensures IsScheme(ParseScheme(ts).v, strict) && Clean(ParseScheme(ts).rest, strict)
  {
    hide ParseExpr, Full;
    if At(ts) == WHILE { ExprSound(Adv(ts), strict); }
  }

  predicate AllSpelled(ns: seq<Expr>) { forall n :: n in ns ==> HeadOf(n).lit != "" }

  lemma {:induction false} MoreNamesSound(acc: seq<Expr>, ts: Stream, strict: bool)
    requires Clean(ts, strict) && AllNames(acc, strict) && MoreNames(acc, ts, NO_ERRORS).errs == 0 && AllSpelled(MoreNames(acc, ts, NO_ERRORS).v)
    ensures AllNames(MoreNames(acc, ts, NO_ERRORS).v, strict) && Clean(MoreNames(acc, ts, NO_ERRORS).rest, strict)
    decreases Len(ts)
  {
    hide ParseName, IsName, HeadOf;
    if At(ts) == COMMA {
      var n := ParseName(Adv(ts));
      assert (acc + [n.v])[|acc|] == n.v;
      assert n.v in MoreNames(acc + [n.v], n.rest, n.errs).v;
      SpelledNameSound(Adv(ts), strict);
      MoreNamesSound(acc + [n.v], n.rest, strict);
    }
  }

  lemma {:induction false} OnSound(ts: Stream, strict: bool)
    requires Clean(ts, strict) && ParseOn(ts).errs == 0 && AllSpelled(ParseOn(ts).v)
    ensures AllNames(ParseOn(ts).v, strict) && Clean(ParseOn(ts).rest, strict)
  {
    hide ParseName, IsName, HeadOf, MoreNames;
    if At(ts) == ON {
      var n := ParseName(Adv(ts));
      assert [n.v][0] == n.v;
      assert n.v in MoreNames([n.v], n.rest, n.errs).v;
      SpelledNameSound(Adv(ts), strict);
      MoreNamesSound([n.v], n.rest, strict);
    }
  }

  // ---- Statements without inner statements ----

  /** A result that is a form of the grammar, with clean tokens behind it. */
  predicate SoundForm(r: R<Option<Form>>, k: Kind, strict: bool) {
    r.v.Some? && IsForm(FormOf(r), strict) && FirstOfForm(FormOf(r)) == k && Clean(r.rest, strict)
  }

  lemma {:induction false} JumpSound(next: bool, ts: Stream, strict: bool)
    requires Clean(ts, strict) && ParseJump(next, ts).errs == 0
    ensures SoundForm(ParseJump(next, ts), if next then NEXT else EXIT, strict)
  {
    hide ParseOpt, OptFull;
    OptSound(WHEN, ParseLabel(ts).rest, strict);
  }

  lemma {:induction false} ReturnSound(ts: Stream, strict: bool)
    requires Clean(ts, strict) && ParseReturn(ts).errs == 0
    ensures SoundForm(ParseReturn(ts), RETURN, strict)
  {
    hide ParseExpr, Full, Clean;
    if At(ts) == SEMICOLON { CleanAdv(ts, strict); } else { ReturnValue(ts, strict); }
  }

  lemma {:induction false} CleanAdv(ts: Stream, strict: bool)
    requires Clean(ts, strict)
    ensures Clean(Adv(ts), strict)
  {
  }

  lemma {:induction false} ReturnValue(ts: Stream, strict: bool)
    requires Clean(ts, strict) && ParseReturn(ts).errs == 0 && At(ts) != SEMICOLON
    ensures SoundForm(ParseReturn(ts), RETURN, strict)
  {
    hide ParseExpr, Full, Clean;
    ExprSound(ts, strict);
    CleanAdv(ParseExpr(ts).rest, strict);
  }

  lemma {:induction false} AssertSound(ts: Stream, strict: bool)
    requires Clean(ts, strict) && ParseAssert(ts).errs == 0
    ensures SoundForm(ParseAssert(ts), ASSERT, strict)
  {
    hide ParseExpr, Full, ParseOpt, OptFull;
    ExprSound(ts, strict);
    OptSound(REPORT, ParseExpr(ts).rest, strict);
    OptSound(SEVERITY, ParseOpt(REPORT, ParseExpr(ts).rest).rest, strict);
  }

  lemma {:induction false} ReportSound(ts: Stream, strict: bool)
    requires Clean(ts, strict) && ParseReport(ts).errs == 0
    ensures SoundForm(ParseReport(ts), REPORT, strict)
  {
    hide ParseExpr, Full, ParseOpt, OptFull;
    ExprSound(ts, strict);
    OptSound(SEVERITY, ParseExpr(ts).rest, strict);
  }

  lemma {:induction false} WaitSound(ts: Stream, strict: bool)
    requires Clean(ts, strict) && ParseWait(ts).errs == 0 && AllSpelled(ParseOn(ts).v)
    ensures SoundForm(ParseWait(ts), WAIT, strict)
  {
    hide ParseOn, ParseOpt, OptFull, AllNames, AllSpelled;
    OnSound(ts, strict);
    OptSound(UNTIL, ParseOn(ts).rest, strict);
    OptSound(FOR, ParseOpt(UNTIL, ParseOn(ts).rest).rest, strict);
  }

  lemma {:induction false} SignalSound(ts: Stream, strict: bool)
    requires Clean(ts, strict) && ParseNamed(ts).errs == 0 && !StartsStmt(At(ts)) && At(ParseName(ts).rest) == LE
    requires HeadOf(ParseName(ts).v).lit != ""
    ensures SoundForm(ParseNamed(ts), At(ts), strict)
  {
    hide ParseExpr, ParseName, Full, IsName, ParseDelay, ParseWaves, HeadOf, IsDelay, IsWaves;
    var t := ParseName(ts);
    SpelledNameSound(ts, strict);
    DelaySound(Adv(t.rest), strict);
    WavesSound(ParseDelay(Adv(t.rest)).rest, strict);
  }

  lemma {:induction false} AssignSound(ts: Stream, strict: bool)
    requires Clean(ts, strict) && ParseNamed(ts).errs == 0 && !StartsStmt(At(ts)) && At(ParseName(ts).rest) == ASSIGN
    requires HeadOf(ParseName(ts).v).lit != ""
    ensures SoundForm(ParseNamed(ts), At(ts), strict)
  {
    hide ParseExpr, ParseName, Full, IsName, HeadOf;
    SpelledNameSound(ts, strict);
    ExprSound(Adv(ParseName(ts).rest), strict);
  }

  lemma {:induction false} CallFormSound(ts: Stream, strict: bool)
    requires Clean(ts, strict) && ParseNamed(ts).errs == 0 && !StartsStmt(At(ts)) && At(ParseName(ts).rest) != LE && At(ParseName(ts).rest) != ASSIGN
    requires Printable(Stmt(None, FormOf(ParseNamed(ts))))
    ensures SoundForm(ParseNamed(ts), At(ts), strict)
  {
    hide ParseName, Full, IsName, IsChain, ParseDelay, ParseWaves, Merge, HeadOf, IsAssoc;
    var t := ParseName(ts);
    if t.v.Call? {
      CalledSound(ts, strict);
    } else {
      SpelledNameSound(ts, strict);
      PlainNameSound(t.v, strict);
    }
  }

  lemma {:induction false} NamedSound(ts: Stream, strict: bool)
    requires Clean(ts, strict) && ParseNamed(ts).errs == 0 && !StartsStmt(At(ts))
    requires Printable(Stmt(None, FormOf(ParseNamed(ts))))
    ensures SoundForm(ParseNamed(ts), At(ts), strict)
  {
    hide SoundForm, ParseName, HeadOf, ParseDelay, ParseWaves, Merge;
    if At(ParseName(ts).rest) == LE {
      SignalSound(ts, strict);
    } else if At(ParseName(ts).rest) == ASSIGN {
      AssignSound(ts, strict);
    } else {
      CallFormSound(ts, strict);
    }
  }

  lemma {:induction false} PlainNameSound(e: Expr, strict: bool)
    requires e.Ident? && IsName(e, strict)
    ensures IsChain(e, true) && IsName(e, true)
  {
  }

  /** The name of a called procedure is kept as its text. */
  lemma {:induction false} CalledSound(ts: Stream, strict: bool)
    requires Clean(ts, strict) && ParseName(ts).errs == 0 && ParseName(ts).v.Call? && HeadOf(Merge(ParseName(ts).v.fun)).lit != ""
    ensures var t := ParseName(ts);
            IsChain(Merge(t.v.fun), true) && IsName(Merge(t.v.fun), true) && HeadOf(Merge(t.v.fun)) == Cur(ts) && AllAssocs(t.v.args, strict) && Clean(t.rest, strict)
  {
    hide ParseName, Merge, IsFlat, IsAssoc;
    var t := ParseName(ts);
    if Cur(ts).lit == "" {
      NameHead(ts);
      MergeUnspelled(t.v.fun);
    }
    NameSound(ts, strict);
    CleanLoose(ts, strict);
    NameSound(ts, false);
    CalledChain(t.v, strict);
    CalledChain(t.v, false);
    MergeChain(t.v.fun);
    ChainIsAName(Merge(t.v.fun));
  }

  lemma {:induction false} CalledChain(e: Expr, strict: bool)
    requires e.Call? && IsName(e, strict)
    ensures IsChain(e.fun, strict) && AllAssocs(e.args, strict) && HeadOf(e.fun) == HeadOf(e)
  {
    hide IsAssoc, IsFlat;
  }

  lemma {:induction false} MergeUnspelled(e: Expr)
    requires HeadOf(e).lit == ""
    ensures HeadOf(Merge(e)).lit == ""
    decreases e
  {
    match e
    case Call(f, _) => MergeUnspelled(f);
    case Selector(x, _) => MergeUnspelled(x);
    case AttrName(x, _) => MergeUnspelled(x);
    case Qualified(m, _) => MergeUnspelled(m);
    case _ =>
  }

  lemma {:induction false} SimpleSound(ts: Stream, strict: bool)
    requires Clean(ts, strict) && ParseSimple(ts).errs == 0 && Printable(Stmt(None, FormOf(ParseSimple(ts))))
    requires At(ts) != IF && At(ts) != CASE && At(ts) != FOR && At(ts) != WHILE && At(ts) != LOOP
    ensures SoundForm(ParseSimple(ts), At(ts), strict)
  {
    hide ParseSimple, ParseNamed, ParseWait, ParseJump, ParseReturn, ParseAssert, ParseReport, SoundForm, Printable;
    KeywordAt(ts);
    VerbAt(ts);
    if !StartsStmt(At(ts)) {
      NamedAt(ts);
      NamedSound(ts, strict);
    } else {
      var k := At(ts);
      if k == NULL {
        NullSound(ts, strict);
      } else if k == NEXT {
        JumpSound(true, Adv(ts), strict);
      } else if k == EXIT {
        JumpSound(false, Adv(ts), strict);
      } else if k == RETURN {
        ReturnSound(Adv(ts), strict);
      } else if k == WAIT {
        PrintableWait(Adv(ts)); WaitSound(Adv(ts), strict);
      } else if k == ASSERT {
        AssertSound(Adv(ts), strict);
      } else if k == REPORT {
        ReportSound(Adv(ts), strict);
      }
    }
  }

  lemma {:induction false} NullSound(ts: Stream, strict: bool)
    requires Clean(ts, strict) && At(ts) == NULL && Ended(Some(NullStmt), Adv(ts), NO_ERRORS).errs == 0
    ensures SoundForm(Ended(Some(NullStmt), Adv(ts), NO_ERRORS), NULL, strict)
  {
    hide HeadOf, IsName, Full, Merge, ParseExpr, ParseName, IsSeq, IsClause, IsScheme, IsTarget, IsWaves, IsDelay, AllNames, AllAssocs;
  }

  lemma {:induction false} PrintableWait(ts: Stream)
    requires ParseWait(ts).errs == 0 && Printable(Stmt(None, FormOf(ParseWait(ts))))
    ensures AllSpelled(ParseOn(ts).v)
  {
    hide ParseOn, ParseOpt, HeadOf;
  }

  // ---- Statements ----

  lemma {:induction false} FormSound(ts: Stream, strict: bool)
    requires Clean(ts, strict) && ParseForm(ts).errs == 0 && Printable(Stmt(None, FormOf(ParseForm(ts))))
    ensures SoundForm(ParseForm(ts), At(ts), strict)
    decreases Len(ts), 1
  {
    hide *;
    BlockAt(ts);
    var k := At(ts);
    if k == IF {
      IfSound(ts, strict);
    } else if k == CASE {
      CaseSound(ts, strict);
    } else if k == FOR {
      LoopSound(ts, strict);
    } else if k == WHILE {
      LoopSound(ts, strict);
    } else if k == LOOP {
      LoopSound(ts, strict);
    } else {
      NoBlockAt(ts); SimpleSound(ts, strict);
    }
  }

  /** Without an error the parser returns a statement of the grammar, when it is printable. */
  lemma {:induction false} StmtSound(ts: Stream, strict: bool)
    requires Clean(ts, strict) && ParseStmt(ts).errs == 0 && Printable(StmtOf(ParseStmt(ts)))
    ensures var s := ParseStmt(ts); IsStmt(StmtOf(s), strict) && FirstOf(StmtOf(s)) == At(ts) && Clean(s.rest, strict)
    decreases Len(ts), 2
  {
    hide ParseForm, IsForm, FirstOfForm, HeadOf;
    FormSound(if At(ts) == IDENT && Peek(ts) == COLON then Adv(Adv(ts)) else ts, strict);
  }

  lemma {:induction false} SeqSound(stops: Stops, ts: Stream, strict: bool)
    requires Clean(ts, strict) && ParseSeq(stops, ts).errs == 0 && AllPrintable(ParseSeq(stops, ts).v)
    ensures IsSeq(stops, ParseSeq(stops, ts).v, strict) && Clean(ParseSeq(stops, ts).rest, strict)
    decreases Len(ts), 3
  {
    hide ParseStmt, IsStmt, IsStop, FirstOf, Printable;
    if At(ts) != EOF && !IsStop(stops, At(ts)) {
      var s := ParseStmt(ts);
      var m := ParseSeq(stops, s.rest);
      assert ParseSeq(stops, ts).v == [StmtOf(s)] + m.v;
      assert ([StmtOf(s)] + m.v)[0] == StmtOf(s);
      StmtSound(ts, strict);
      assert forall x :: x in m.v ==> x in [StmtOf(s)] + m.v;
      SeqSound(stops, s.rest, strict);
    }
  }

  lemma {:induction false} ExpectClean(k: Kind, ts: Stream, strict: bool)
    requires Clean(ts, strict)
    ensures Clean(Expect(k, ts).rest, strict) && Clean(ParseLabel(ts).rest, strict)
  {
  }

  lemma {:induction false} EndSound(k: Kind, ts: Stream, strict: bool)
    requires Clean(ts, strict)
    ensures Clean(ParseEnd(k, ts).rest, strict)
  {
    hide Clean, Expect, ParseLabel;
    var f := Expect(k, Expect(END, ts).rest).rest;
    ExpectClean(END, ts, strict);
    ExpectClean(k, Expect(END, ts).rest, strict);
    ExpectClean(k, f, strict);
    ExpectClean(SEMICOLON, ParseLabel(f).rest, strict);
  }

  lemma {:induction false} PrintableCons(c: Clause, m: seq<Clause>)
    requires ClausesPrintable([c] + m)
    ensures AllPrintable(c.body) && ClausesPrintable(m)
  {
    hide AllPrintable;
    assert ([c] + m)[0] == c;
    assert forall x :: x in m ==> x in [c] + m;
  }

  lemma {:induction false} ElseSound(ts: Stream, strict: bool)
    requires Clean(ts, strict) && ParseElse(ts).errs == 0
    requires var e := ParseElse(ts).v; e.Else? ==> AllPrintable(e.body)
    ensures var e := ParseElse(ts); (e.v.Else? ==> IsSeq(OnlyEnd, e.v.body, strict) && e.v.body != []) && Clean(e.rest, strict)
    decreases Len(ts), 0
  {
    hide ParseSeq, IsSeq, AllPrintable;
    if At(ts) == ELSE {
      if ParseSeq(OnlyEnd, Adv(ts)).v == [] { NonePrintable(); }
      SeqSound(OnlyEnd, Adv(ts), strict);
    }
  }

  lemma {:induction false} NonePrintable()
    ensures AllPrintable([])
  {
  }

  predicate SoundElsifs(es: seq<Clause>, strict: bool) { forall x :: x in es ==> |x.guards| == 1 && IsClause(ElseOrEnd, x, strict) }

  predicate SoundAlts(es: seq<Clause>, strict: bool) { forall x :: x in es ==> x.guards != [] && IsClause(WhenOrEnd, x, strict) }

  lemma {:induction false} ElsifsSound(ts: Stream, strict: bool)
    requires Clean(ts, strict) && ParseElsifs(ts).errs == 0 && ClausesPrintable(ParseElsifs(ts).v)
    ensures SoundElsifs(ParseElsifs(ts).v, strict) && Clean(ParseElsifs(ts).rest, strict)
    decreases Len(ts), 0
  {
    hide ParseExpr, Full, ParseSeq, IsSeq, AllPrintable, ClausesPrintable, Clean;
    if At(ts) == ELSIF {
      var c := ParseExpr(Adv(ts));
      var t := Expect(THEN, c.rest);
      var b := ParseSeq(ElseOrEnd, t.rest);
      PrintableCons(Clause([c.v], b.v), ParseElsifs(b.rest).v);
      AdvClean(ts, strict);
      ExprSound(Adv(ts), strict);
      ExpectClean(THEN, c.rest, strict);
      SeqSound(ElseOrEnd, t.rest, strict);
      ElsifsSound(b.rest, strict);
    }
  }

  lemma {:induction false} AdvClean(ts: Stream, strict: bool)
    requires Clean(ts, strict)
    ensures Clean(Adv(ts), strict)
  {
  }

  lemma {:induction false} AltsSound(ts: Stream, strict: bool)
    requires Clean(ts, strict) && ParseAlts(ts).errs == 0 && ClausesPrintable(ParseAlts(ts).v)
    ensures SoundAlts(ParseAlts(ts).v, strict) && Clean(ParseAlts(ts).rest, strict)
    decreases Len(ts), 0
  {
    hide ParseChoices, AllFull, ParseSeq, IsSeq, AllPrintable, ClausesPrintable, Clean;
    if At(ts) == WHEN {
      var c := ParseChoices(Adv(ts));
      var t := Expect(ARROW, c.rest);
      var b := ParseSeq(WhenOrEnd, t.rest);
      PrintableCons(Clause(c.v, b.v), ParseAlts(b.rest).v);
      AdvClean(ts, strict);
      ChoicesSound(Adv(ts), strict);
      ExpectClean(ARROW, c.rest, strict);
      SeqSound(WhenOrEnd, t.rest, strict);
      AltsSound(b.rest, strict);
    }
  }

  lemma {:induction false} IfSound(ts: Stream, strict: bool)
    requires Clean(ts, strict) && At(ts) == IF && ParseIf(ts).errs == 0 && Printable(Stmt(None, FormOf(ParseIf(ts))))
    ensures SoundForm(ParseIf(ts), IF, strict)
    decreases Len(ts), 0
  {
    hide ParseExpr, Full, ParseSeq, IsSeq, AllPrintable, ClausesPrintable, IsClause, ParseElsifs, ParseElse, ParseEnd, Clean;
    var c := ParseExpr(Adv(ts));
    var t := Expect(THEN, c.rest);
    var b := ParseSeq(ElseOrEnd, t.rest);
    var es := ParseElsifs(b.rest);
    var e := ParseElse(es.rest);
    AdvClean(ts, strict);
    ExprSound(Adv(ts), strict);
    ExpectClean(THEN, c.rest, strict);
    SeqSound(ElseOrEnd, t.rest, strict);
    ElsifsSound(b.rest, strict);
    ElseSound(es.rest, strict);
    EndSound(IF, e.rest, strict);
  }

  lemma {:induction false} CaseSound(ts: Stream, strict: bool)
    requires Clean(ts, strict) && At(ts) == CASE && ParseCase(ts).errs == 0 && Printable(Stmt(None, FormOf(ParseCase(ts))))
    ensures SoundForm(ParseCase(ts), CASE, strict)
    decreases Len(ts), 0
  {
    hide ParseExpr, Full, ClausesPrintable, IsClause, ParseAlts, ParseEnd;
    var c := ParseExpr(Adv(ts));
    var i := Expect(IS, c.rest);
    var a := ParseAlts(i.rest);
    ExprSound(Adv(ts), strict);
    AltsSound(i.rest, strict);
    EndSound(CASE, a.rest, strict);
  }

  lemma {:induction false} LoopSound(ts: Stream, strict: bool)
    requires Clean(ts, strict) && (At(ts) == FOR || At(ts) == WHILE || At(ts) == LOOP) && ParseLoop(ts).errs == 0 && Printable(Stmt(None, FormOf(ParseLoop(ts))))
    ensures SoundForm(ParseLoop(ts), At(ts), strict)
    decreases Len(ts), 0
  {
    hide ParseSeq, IsSeq, AllPrintable, ParseScheme, IsScheme, ParseEnd;
    var h := ParseScheme(ts);
    var l := Expect(LOOP, h.rest);
    var b := ParseSeq(OnlyEnd, l.rest);
    SchemeSound(ts, strict);
    SeqSound(OnlyEnd, l.rest, strict);
    EndSound(LOOP, b.rest, strict);
  }

  // ==== tools/socgen/vhdl: merging the expressions of a statement, which does not show in print.

  // ---- The same tokens ----

  lemma {:induction false} OptAlike(k: Kind, e: Option<Expr>, r: Stream)
    ensures OptAhead(k, MergeOpt(e), r) == OptAhead(k, e, r)
  {
    hide ExprAhead, Merge;
    if e.Some? { MergeAhead(e.value, r); }
  }

  lemma {:induction false} AllAlike(cs: seq<Expr>, r: Stream)
    ensures ChoicesAhead(MergeAll(cs), r) == ChoicesAhead(cs, r) && MoreChoicesAhead(MergeAll(cs), r) == MoreChoicesAhead(cs, r)
    decreases cs
  {
    hide ExprAhead, Merge;
    if cs != [] {
      assert MergeAll(cs)[1..] == MergeAll(cs[1..]);
      AllAlike(cs[1..], r);
      MergeAhead(cs[0], MoreChoicesAhead(cs[1..], r));
    }
  }

  lemma {:induction false} NamesAlike(ns: seq<Expr>, r: Stream)
    ensures NamesAhead(MergeAll(ns), r) == NamesAhead(ns, r) && MoreNamesAhead(MergeAll(ns), r) == MoreNamesAhead(ns, r)
    decreases ns
  {
    hide ExprAhead, Merge;
    if ns != [] {
      assert MergeAll(ns)[1..] == MergeAll(ns[1..]);
      NamesAlike(ns[1..], r);
      MergeAhead(ns[0], MoreNamesAhead(ns[1..], r));
    }
  }

  lemma {:induction false} WavesAlike(ws: seq<Wave>, r: Stream)
    ensures WavesAhead(MergeWaves(ws), r) == WavesAhead(ws, r) && MoreWavesAhead(MergeWaves(ws), r) == MoreWavesAhead(ws, r)
    decreases ws
  {
    hide ExprAhead, Merge, OptAhead, MergeOpt;
    if ws != [] {
      var m := MoreWavesAhead(ws[1..], r);
      assert MergeWaves(ws)[1..] == MergeWaves(ws[1..]);
      WavesAlike(ws[1..], r);
      OptAlike(AFTER, ws[0].after, m);
      MergeAhead(ws[0].value, OptAhead(AFTER, ws[0].after, m));
    }
  }

  lemma {:induction false} SchemeAlike(h: Scheme, r: Stream)
    ensures SchemeAhead(MergeScheme(h), r) == SchemeAhead(h, r)
  {
    hide ExprAhead, Merge;
    match h
    case Bare =>
    case While(c) => MergeAhead(c, r);
    case For(p, x, m) =>
      MergeAhead(x, r);
      if m.Some? { MergeAhead(m.value, Tok(RANGE, ExprAhead(x, r))); }
  }

  lemma {:induction false} CallAlike(n: Expr, args: seq<Assoc>, r: Stream)
    ensures SimpleAhead(ProcCall(n, MergeAssocs(args)), r) == SimpleAhead(ProcCall(n, args), r)
  {
    hide ExprAhead, AssocsAhead, Merge, MergeAssocs;
    ArgsAlike(args, Tok(RPAREN, r));
    CallAheadIs(n, args, r);
    CallAheadIs(n, MergeAssocs(args), r);
  }

  lemma {:induction false} CallAheadIs(n: Expr, args: seq<Assoc>, r: Stream)
    ensures ExprAhead(Call(n, args), r) == ExprAhead(n, Tok(LPAREN, AssocsAhead(args, Tok(RPAREN, r))))
  {
  }

  lemma {:induction false} ArgsAlike(args: seq<Assoc>, r: Stream)
    ensures AssocsAhead(MergeAssocs(args), r) == AssocsAhead(args, r)
  {
    AssocsTokens(args, Plain(r));
    AssocsTokens(MergeAssocs(args), Plain(r));
    PrintMergeAssocs(args, Plain(r));
  }

  lemma {:induction false} SimpleAlike(f: Form, r: Stream)
    requires !f.IfStmt? && !f.CaseStmt? && !f.LoopStmt?
    ensures SimpleAhead(MergeForm(f), r) == SimpleAhead(f, r)
  {
    hide ExprAhead, Merge, MergeOpt, OptAhead, NamesAhead, MergeAll, WavesAhead, MergeWaves, MergeAssocs;
    match f
    case NullStmt =>
    case NextStmt(l, w) => OptAlike(WHEN, w, r);
    case ExitStmt(l, w) => OptAlike(WHEN, w, r);
    case ReturnStmt(x) => ReturnAlike(x, r);
    case AssertStmt(c, m, s) => AssertAlike(c, m, s, r);
    case ReportStmt(m, s) => OptAlike(SEVERITY, s, r); MergeAhead(m, OptAhead(SEVERITY, s, r));
    case WaitStmt(ns, u, t) => WaitAlike(ns, u, t, r);
    case SignalAssign(x, d, ws) => SignalAlike(x, d, ws, r);
    case VarAssign(x, v) => MergeAhead(v, r); MergeAhead(x, Tok(ASSIGN, ExprAhead(v, r)));
    case ProcCall(n, args) => CallAlike(n, args, r);
  }

  lemma {:induction false} ReturnAlike(x: Option<Expr>, r: Stream)
    ensures SimpleAhead(ReturnStmt(MergeOpt(x)), r) == SimpleAhead(ReturnStmt(x), r)
  {
    hide ExprAhead, Merge;
    if x.Some? { MergeAhead(x.value, r); }
  }

  lemma {:induction false} AssertAlike(c: Expr, m: Option<Expr>, s: Option<Expr>, r: Stream)
    ensures SimpleAhead(AssertStmt(Merge(c), MergeOpt(m), MergeOpt(s)), r) == SimpleAhead(AssertStmt(c, m, s), r)
  {
    hide ExprAhead, Merge, MergeOpt, OptAhead;
    OptAlike(SEVERITY, s, r);
    OptAlike(REPORT, m, OptAhead(SEVERITY, s, r));
    MergeAhead(c, OptAhead(REPORT, m, OptAhead(SEVERITY, s, r)));
  }

  lemma {:induction false} WaitAlike(ns: seq<Expr>, u: Option<Expr>, t: Option<Expr>, r: Stream)
    ensures SimpleAhead(WaitStmt(MergeAll(ns), MergeOpt(u), MergeOpt(t)), r) == SimpleAhead(WaitStmt(ns, u, t), r)
  {
    hide NamesAhead, MergeAll, MergeOpt, OptAhead;
    OptAlike(FOR, t, r);
    OptAlike(UNTIL, u, OptAhead(FOR, t, r));
    NamesAlike(ns, OptAhead(UNTIL, u, OptAhead(FOR, t, r)));
  }

  lemma {:induction false} SignalAlike(x: Expr, d: Delay, ws: seq<Wave>, r: Stream)
    ensures SimpleAhead(SignalAssign(Merge(x), MergeDelay(d), MergeWaves(ws)), r) == SimpleAhead(SignalAssign(x, d, ws), r)
  {
    hide ExprAhead, Merge, WavesAhead, MergeWaves;
    var w := WavesAhead(ws, r);
    WavesAlike(ws, r);
    if d.Reject? { MergeAhead(d.limit, Tok(INERTIAL, w)); }
    MergeAhead(x, Tok(LE, DelayAhead(d, w)));
  }

  lemma {:induction false} StmtAlike(s: Stmt, r: Stream)
    ensures StmtAhead(MergeStmt(s), r) == StmtAhead(s, r)
    decreases s, 1
  {
    hide FormAhead, MergeForm;
    FormAlike(s.form, r);
  }

  lemma {:induction false} FormAlike(f: Form, r: Stream)
    ensures FormAhead(MergeForm(f), r) == FormAhead(f, r)
    decreases f, 0
  {
    hide ExprAhead, Merge, SeqAhead, MergeSeq, ElsifsAhead, MergeClauses, AltsAhead, SchemeAhead, MergeScheme, SimpleAhead;
    match f
    case IfStmt(c, t, es, e) =>
      var l := ElseAhead(e, EndAhead(IF, r));
      if e.Else? { SeqAlike(e.body, EndAhead(IF, r)); }
      ClausesAlike(es, l);
      SeqAlike(t, ElsifsAhead(es, l));
      MergeAhead(c, Tok(THEN, SeqAhead(t, ElsifsAhead(es, l))));
    case CaseStmt(c, alts) =>
      ClausesAlike(alts, EndAhead(CASE, r));
      MergeAhead(c, Tok(IS, AltsAhead(alts, EndAhead(CASE, r))));
    case LoopStmt(h, b) =>
      SeqAlike(b, EndAhead(LOOP, r));
      SchemeAlike(h, Tok(LOOP, SeqAhead(b, EndAhead(LOOP, r))));
    case _ => SimpleAlike(f, Tok(SEMICOLON, r));
  }

  lemma {:induction false} ClausesAlike(cs: seq<Clause>, r: Stream)
    ensures ElsifsAhead(MergeClauses(cs), r) == ElsifsAhead(cs, r) && AltsAhead(MergeClauses(cs), r) == AltsAhead(cs, r)
    decreases cs, 1
  {
    hide ChoicesAhead, MergeAll, SeqAhead, MergeSeq;
    if cs != [] {
      assert MergeClauses(cs)[1..] == MergeClauses(cs[1..]);
      ClausesAlike(cs[1..], r);
      var e, a := ElsifsAhead(cs[1..], r), AltsAhead(cs[1..], r);
      SeqAlike(cs[0].body, e);
      SeqAlike(cs[0].body, a);
      AllAlike(cs[0].guards, Tok(THEN, SeqAhead(cs[0].body, e)));
      AllAlike(cs[0].guards, Tok(ARROW, SeqAhead(cs[0].body, a)));
    }
  }

  lemma {:induction false} SeqAlike(ss: seq<Stmt>, r: Stream)
    ensures SeqAhead(MergeSeq(ss), r) == SeqAhead(ss, r)
    decreases ss, 2
  {
    hide StmtAhead, MergeStmt;
    if ss != [] {
      assert MergeSeq(ss)[1..] == MergeSeq(ss[1..]);
      SeqAlike(ss[1..], r);
      StmtAlike(ss[0], SeqAhead(ss[1..], r));
    }
  }

  // ---- Merging gives the strict statements ----

  lemma {:induction false} OptOk(e: Option<Expr>)
    requires OptFull(e, false)
    ensures OptFull(MergeOpt(e), true)
  {
    hide Full, Merge;
    if e.Some? { MergeFull(e.value); }
  }

  lemma {:induction false} NamesOk(ns: seq<Expr>)
    requires AllNames(ns, false)
    ensures AllNames(MergeAll(ns), true)
    decreases ns
  {
    hide IsName, Merge;
    if ns != [] {
      MergeName(ns[0]);
      NamesOk(ns[1..]);
    }
  }

  lemma {:induction false} WavesOk(ws: seq<Wave>)
    requires AllWaves(ws, false)
    ensures AllWaves(MergeWaves(ws), true)
    decreases ws
  {
    hide Full, Merge, OptFull, MergeOpt;
    if ws != [] {
      assert IsWave(ws[0], false);
      MergeFull(ws[0].value);
      OptOk(ws[0].after);
      WavesOk(ws[1..]);
    }
  }

  lemma {:induction false} SchemeOk(h: Scheme)
    requires IsScheme(h, false)
    ensures IsScheme(MergeScheme(h), true)
  {
    hide Full, Merge, OptFull, MergeOpt;
    match h
    case Bare =>
    case While(c) => MergeFull(c);
    case For(p, x, m) => MergeFull(x); OptOk(m);
  }

  lemma {:induction false} TargetOk(x: Expr)
    requires IsTarget(x, false)
    ensures IsTarget(Merge(x), true) && HeadOf(Merge(x)) == HeadOf(x)
  {
    hide IsName, Merge, HeadOf;
    MergeName(x);
  }

  lemma {:induction false} SimpleOk(f: Form)
    requires !f.IfStmt? && !f.CaseStmt? && !f.LoopStmt? && IsSimple(f, false)
    ensures IsSimple(MergeForm(f), true) && FirstOfForm(MergeForm(f)) == FirstOfForm(f)
  {
    hide Full, Merge, OptFull, MergeOpt, AllNames, MergeAll, IsTarget, HeadOf, AllAssocs, MergeWaves, IsWaves, IsDelay, MergeDelay, IsChain;
    match f
    case NullStmt =>
    case NextStmt(l, w) => OptOk(w);
    case ExitStmt(l, w) => OptOk(w);
    case ReturnStmt(x) => OptOk(x);
    case AssertStmt(c, m, s) => MergeFull(c); OptOk(m); OptOk(s);
    case ReportStmt(m, s) => MergeFull(m); OptOk(s);
    case WaitStmt(ns, u, t) => NamesOk(ns); OptOk(u); OptOk(t);
    case SignalAssign(x, d, ws) => TargetOk(x); DelayOk(d); NonemptyWavesOk(ws);
    case VarAssign(x, v) => TargetOk(x); MergeFull(v);
    case ProcCall(n, args) => ArgsOk(args);
  }

  lemma {:induction false} DelayOk(d: Delay)
    requires IsDelay(d, false)
    ensures IsDelay(MergeDelay(d), true)
  {
    hide Full, Merge;
    if d.Reject? { MergeFull(d.limit); }
  }

  lemma {:induction false} NonemptyWavesOk(ws: seq<Wave>)
    requires IsWaves(ws, false)
    ensures IsWaves(MergeWaves(ws), true)
  {
    hide AllWaves;
    WavesOk(ws);
  }

  lemma {:induction false} ArgsOk(args: seq<Assoc>)
    requires AllAssocs(args, false)
    ensures AllAssocs(MergeAssocs(args), true)
  {
    hide IsAssoc;
    MergeAssocsOk(args);
  }

  /** A statement of the loose grammar merges to one of the strict grammar. */
  lemma {:induction false} StmtOk(s: Stmt)
    requires IsStmt(s, false)
    ensures IsStmt(MergeStmt(s), true) && FirstOf(MergeStmt(s)) == FirstOf(s)
    decreases s, 1
  {
    hide IsForm, MergeForm, FirstOfForm;
    FormOk(s.form);
  }

  lemma {:induction false} FormOk(f: Form)
    requires IsForm(f, false)
    ensures IsForm(MergeForm(f), true) && FirstOfForm(MergeForm(f)) == FirstOfForm(f)
    decreases f, 0
  {
    hide Full, Merge, IsSeq, MergeSeq, IsClause, MergeClauses, IsScheme, IsSimple;
    match f
    case IfStmt(c, t, es, e) =>
      MergeFull(c);
      SeqOk(ElseOrEnd, t);
      ClausesOk(ElseOrEnd, es);
      if e.Else? { SeqOk(OnlyEnd, e.body); }
    case CaseStmt(c, alts) => MergeFull(c); ClausesOk(WhenOrEnd, alts);
    case LoopStmt(h, b) => SchemeOk(h); SeqOk(OnlyEnd, b);
    case _ => SimpleOk(f);
  }

  lemma {:induction false} ClausesOk(stops: Stops, cs: seq<Clause>)
    requires forall c :: c in cs ==> IsClause(stops, c, false)
    ensures forall c :: c in MergeClauses(cs) ==> IsClause(stops, c, true)
    ensures (forall c :: c in cs ==> |c.guards| == 1) ==> forall c :: c in MergeClauses(cs) ==> |c.guards| == 1
    ensures (forall c :: c in cs ==> c.guards != []) ==> forall c :: c in MergeClauses(cs) ==> c.guards != []
    decreases cs, 1
  {
    hide AllFull, MergeAll, IsSeq, MergeSeq;
    if cs != [] {
      assert IsClause(stops, cs[0], false);
      GuardsOk(cs[0].guards);
      SeqOk(stops, cs[0].body);
      ClausesOk(stops, cs[1..]);
    }
  }

  lemma {:induction false} GuardsOk(cs: seq<Expr>)
    requires AllFull(cs, false)
    ensures AllFull(MergeAll(cs), true)
  {
    hide Full;
    MergeAllOk(cs);
  }

  lemma {:induction false} SeqOk(stops: Stops, ss: seq<Stmt>)
    requires IsSeq(stops, ss, false)
    ensures IsSeq(stops, MergeSeq(ss), true)
    decreases ss, 2
  {
    hide IsStmt, MergeStmt, IsStop, FirstOf;
    if ss != [] {
      StmtOk(ss[0]);
      SeqOk(stops, ss[1..]);
    }
  }

  // ==== tools/socgen/vhdl/printer.go: the printed text of a sequential statement.

  const INDENT := "    "

  function Line(r: Text): Text { W("\n", r) }

  function PrintOpt(k: Kind, e: Option<Expr>, r: Text): Text {
    if e.None? then r else Spaced(k, PrintExpr(e.value, r))
  }

  function PrintLabel(l: Option<Token>, r: Text): Text { if l.None? then r else Sp(T(l.value, r)) }

  function PrintEnd(k: Kind, indent: string, r: Text): Text { W(indent, K(END, Sp(K(k, K(SEMICOLON, r))))) }

  function PrintDelay(d: Delay, r: Text): Text {
    match d
    case NoDelay => r
    case Transport => K(TRANSPORT, Sp(r))
    case Inertial => K(INERTIAL, Sp(r))
    case Reject(x) => K(REJECT, Sp(PrintExpr(x, Spaced(INERTIAL, r))))
  }

  function PrintWave(w: Wave, r: Text): Text { PrintExpr(w.value, PrintOpt(AFTER, w.after, r)) }

  function PrintWaves(ws: seq<Wave>, r: Text): Text {
    if ws == [] then r else PrintWave(ws[0], PrintMoreWaves(ws[1..], r))
  }

  function PrintMoreWaves(ws: seq<Wave>, r: Text): Text {
    if ws == [] then r else K(COMMA, Sp(PrintWave(ws[0], PrintMoreWaves(ws[1..], r))))
  }

  function PrintNames(ns: seq<Expr>, r: Text): Text {
    if ns == [] then r else Spaced(ON, PrintExpr(ns[0], PrintMoreNames(ns[1..], r)))
  }

  function PrintMoreNames(ns: seq<Expr>, r: Text): Text {
    if ns == [] then r else K(COMMA, Sp(PrintExpr(ns[0], PrintMoreNames(ns[1..], r))))
  }

  function PrintScheme(h: Scheme, r: Text): Text {
    match h
    case Bare => r
    case While(c) => K(WHILE, Sp(PrintExpr(c, Sp(r))))
    case For(p, x, m) =>
      var range := PrintExpr(x, Sp(r));
      var over := if m.None? then range else PrintExpr(m.value, Spaced(RANGE, range));
      K(FOR, Sp(T(p, Spaced(IN, over))))
  }

  /** Statements that hold no further statements, up to their semicolon. */
  function PrintSimple(f: Form, r: Text): Text
  {
    match f
    case NullStmt => K(NULL, r)
    case NextStmt(l, w) => K(NEXT, PrintLabel(l, PrintOpt(WHEN, w, r)))
    case ExitStmt(l, w) => K(EXIT, PrintLabel(l, PrintOpt(WHEN, w, r)))
    case ReturnStmt(x) => K(RETURN, if x.None? then r else Sp(PrintExpr(x.value, r)))
    case AssertStmt(c, m, s) => K(ASSERT, Sp(PrintExpr(c, PrintOpt(REPORT, m, PrintOpt(SEVERITY, s, r)))))
    case ReportStmt(m, s) => K(REPORT, Sp(PrintExpr(m, PrintOpt(SEVERITY, s, r))))
    case WaitStmt(ns, u, t) => K(WAIT, PrintNames(ns, PrintOpt(UNTIL, u, PrintOpt(FOR, t, r))))
    case SignalAssign(x, d, ws) => PrintExpr(x, Spaced(LE, PrintDelay(d, PrintWaves(ws, r))))
    case VarAssign(x, v) => PrintExpr(x, Spaced(ASSIGN, PrintExpr(v, r)))
    case ProcCall(n, args) => PrintExpr(if args == [] then n else Call(n, args), r)
    case _ => r
  }

  function PrintStmt(s: Stmt, indent: string, r: Text): Text
    decreases s, 1
  {
    if s.lbl.None? then PrintForm(s.form, indent, r) else T(s.lbl.value, Spaced(COLON, PrintForm(s.form, indent, r)))
  }

  function PrintForm(f: Form, indent: string, r: Text): Text
    decreases f, 0
  {
    match f
    case IfStmt(c, t, es, e) =>
      var tail := PrintElsifs(es, indent, PrintElse(e, indent, PrintEnd(IF, indent, r)));
      var header := PrintExpr(c, Sp(K(THEN, Line(PrintSeq(t, indent, tail)))));
      K(IF, Sp(header))
    case CaseStmt(c, alts) =>
      var tail := PrintAlts(alts, indent, PrintEnd(CASE, indent, r));
      var header := PrintExpr(c, Sp(K(IS, Line(tail))));
      K(CASE, Sp(header))
    case LoopStmt(h, b) =>
      var tail := PrintSeq(b, indent, PrintEnd(LOOP, indent, r));
      PrintScheme(h, K(LOOP, Line(tail)))
    case _ => PrintSimple(f, K(SEMICOLON, r))
  }

  function PrintElse(e: Tail, indent: string, r: Text): Text
    decreases e, 0
  {
    if e.NoElse? then r else W(indent, K(ELSE, Line(PrintSeq(e.body, indent, r))))
  }

  function PrintElsifs(es: seq<Clause>, indent: string, r: Text): Text
    decreases es, 1
  {
    if es == [] then r
    else
      var body := PrintSeq(es[0].body, indent, PrintElsifs(es[1..], indent, r));
      var header := PrintChoices(es[0].guards, Sp(K(THEN, Line(body))));
      W(indent, K(ELSIF, Sp(header)))
  }

  function PrintAlts(es: seq<Clause>, indent: string, r: Text): Text
    decreases es, 1
  {
    if es == [] then r
    else
      var body := PrintSeq(es[0].body, indent + INDENT, PrintAlts(es[1..], indent, r));
      var header := PrintChoices(es[0].guards, Sp(K(ARROW, Line(body))));
      W(indent, W(INDENT, K(WHEN, Sp(header))))
  }

  /** printSeqStmts: one statement a line, one level further in. */
  function PrintSeq(ss: seq<Stmt>, indent: string, r: Text): Text
    decreases ss, 2
  {
    if ss == [] then r else W(indent, W(INDENT, PrintStmt(ss[0], indent + INDENT, Line(PrintSeq(ss[1..], indent, r)))))
  }

  // ---- The tokens of the text ----

  lemma {:induction false} KeyTokens(k: Kind, r: Text)
    ensures Tokens(K(k, r)) == Tok(k, Tokens(r)) && Tokens(Sp(r)) == Tokens(r) && Tokens(Line(r)) == Tokens(r)
    ensures Tokens(K(k, Sp(r))) == Tok(k, Tokens(r)) && Tokens(Sp(K(k, r))) == Tok(k, Tokens(r)) && Tokens(Sp(K(k, Line(r)))) == Tok(k, Tokens(r))
    ensures Tokens(K(k, Line(r))) == Tok(k, Tokens(r)) && Tokens(Spaced(k, r)) == Tok(k, Tokens(r))
  {
    hide KindToken;
    assert Tokens(Sp(r)) == Tokens(r) && Tokens(Line(r)) == Tokens(r);
    assert Tokens(K(k, Line(r))) == Tok(k, Tokens(r)) && Tokens(K(k, Sp(r))) == Tok(k, Tokens(r));
  }

  lemma {:induction false} IndentTokens(indent: string, r: Text)
    ensures Tokens(W(indent, r)) == Tokens(r) && Tokens(W(indent, W(INDENT, r))) == Tokens(r)
  {
    assert Tokens(W(INDENT, r)) == Tokens(r);
  }

  lemma {:induction false} OptTokens(k: Kind, e: Option<Expr>, r: Text)
    ensures Tokens(PrintOpt(k, e, r)) == OptAhead(k, e, Tokens(r))
  {
    hide PrintExpr, ExprAhead;
    if e.Some? { ExprTokens(e.value, r); KeyTokens(k, PrintExpr(e.value, r)); }
  }

  lemma {:induction false} LabelTokens(l: Option<Token>, r: Text)
    ensures Tokens(PrintLabel(l, r)) == LabelAhead(l, Tokens(r))
  {
    if l.Some? { assert Tokens(T(l.value, r)) == More(l.value, Tokens(r)); }
  }

  lemma {:induction false} EndTokens(k: Kind, indent: string, r: Text)
    ensures Tokens(PrintEnd(k, indent, r)) == EndAhead(k, Tokens(r))
  {
    hide Tokens;
    KeyTokens(SEMICOLON, r);
    KeyTokens(k, K(SEMICOLON, r));
    KeyTokens(END, K(k, K(SEMICOLON, r)));
    IndentTokens(indent, K(END, Sp(K(k, K(SEMICOLON, r)))));
  }

  lemma {:induction false} DelayTokens(d: Delay, r: Text)
    ensures Tokens(PrintDelay(d, r)) == DelayAhead(d, Tokens(r))
  {
    hide PrintExpr, ExprAhead, Tokens;
    match d
    case NoDelay =>
    case Transport => KeyTokens(TRANSPORT, r);
    case Inertial => KeyTokens(INERTIAL, r);
    case Reject(x) =>
      KeyTokens(INERTIAL, r);
      ExprTokens(x, Spaced(INERTIAL, r));
      KeyTokens(REJECT, PrintExpr(x, Spaced(INERTIAL, r)));
  }

  lemma {:induction false} WaveTokens(w: Wave, r: Text)
    ensures Tokens(PrintWave(w, r)) == WaveAhead(w, Tokens(r))
  {
    hide PrintExpr, ExprAhead, Tokens, PrintOpt, OptAhead;
    OptTokens(AFTER, w.after, r);
    ExprTokens(w.value, PrintOpt(AFTER, w.after, r));
  }

  lemma {:induction false} WavesTokens(ws: seq<Wave>, r: Text)
    ensures Tokens(PrintWaves(ws, r)) == WavesAhead(ws, Tokens(r)) && Tokens(PrintMoreWaves(ws, r)) == MoreWavesAhead(ws, Tokens(r))
    decreases ws
  {
    hide PrintWave, WaveAhead, Tokens;
    if ws != [] {
      var m := PrintMoreWaves(ws[1..], r);
      WavesTokens(ws[1..], r);
      WaveTokens(ws[0], m);
      KeyTokens(COMMA, PrintWave(ws[0], m));
    }
  }

  lemma {:induction false} NamesTokens(ns: seq<Expr>, r: Text)
    ensures Tokens(PrintNames(ns, r)) == NamesAhead(ns, Tokens(r)) && Tokens(PrintMoreNames(ns, r)) == MoreNamesAhead(ns, Tokens(r))
    decreases ns
  {
    hide PrintExpr, ExprAhead, Tokens;
    if ns != [] {
      var m := PrintMoreNames(ns[1..], r);
      NamesTokens(ns[1..], r);
      ExprTokens(ns[0], m);
      KeyTokens(COMMA, PrintExpr(ns[0], m));
      KeyTokens(ON, PrintExpr(ns[0], m));
    }
  }

  lemma {:induction false} ForTokens(h: Scheme, r: Text)
    requires h.For?
    ensures Tokens(PrintScheme(h, r)) == SchemeAhead(h, Tokens(r))
  {
    hide PrintExpr, ExprAhead, Tokens;
    var range := PrintExpr(h.range, Sp(r));
    KeyTokens(FOR, r);
    ExprTokens(h.range, Sp(r));
    var t := if h.ofMark.None? then range else PrintExpr(h.ofMark.value, Spaced(RANGE, range));
    if h.ofMark.Some? {
      KeyTokens(RANGE, range);
      ExprTokens(h.ofMark.value, Spaced(RANGE, range));
    }
    KeyTokens(IN, t);
    TokenFirst(h.param, Spaced(IN, t));
    KeyTokens(FOR, T(h.param, Spaced(IN, t)));
  }

  lemma {:induction false} TokenFirst(t: Token, r: Text)
    ensures Tokens(T(t, r)) == More(t, Tokens(r))
  {
  }

  lemma {:induction false} SchemeTokens(h: Scheme, r: Text)
    ensures Tokens(PrintScheme(h, r)) == SchemeAhead(h, Tokens(r))
  {
    hide PrintExpr, ExprAhead, Tokens;
    match h
    case Bare =>
    case While(c) => KeyTokens(WHILE, r); ExprTokens(c, Sp(r)); KeyTokens(WHILE, PrintExpr(c, Sp(r)));
    case For(_, _, _) => ForTokens(h, r);
  }

  lemma {:induction false} SimpleTokens(f: Form, r: Text)
    requires !f.IfStmt? && !f.CaseStmt? && !f.LoopStmt?
    ensures Tokens(PrintSimple(f, r)) == SimpleAhead(f, Tokens(r))
  {
    hide PrintExpr, ExprAhead, Tokens, PrintOpt, OptAhead, PrintNames, NamesAhead, PrintWaves, WavesAhead, PrintDelay, DelayAhead, PrintLabel, LabelAhead;
    match f
    case NullStmt => KeyTokens(NULL, r);
    case NextStmt(l, w) => JumpTokens(NEXT, l, w, r);
    case ExitStmt(l, w) => JumpTokens(EXIT, l, w, r);
    case ReturnStmt(x) => ReturnTokens(x, r);
    case AssertStmt(c, m, s) => AssertTokens(c, m, s, r);
    case ReportStmt(m, s) => ReportTokens(m, s, r);
    case WaitStmt(ns, u, t) => WaitTokens(ns, u, t, r);
    case SignalAssign(x, d, ws) => SignalTokens(x, d, ws, r);
    case VarAssign(x, v) => ExprTokens(v, r); KeyTokens(ASSIGN, PrintExpr(v, r)); ExprTokens(x, Spaced(ASSIGN, PrintExpr(v, r)));
    case ProcCall(n, args) => ExprTokens(if args == [] then n else Call(n, args), r);
  }

  lemma {:induction false} JumpTokens(k: Kind, l: Option<Token>, w: Option<Expr>, r: Text)
    ensures Tokens(K(k, PrintLabel(l, PrintOpt(WHEN, w, r)))) == Tok(k, LabelAhead(l, OptAhead(WHEN, w, Tokens(r))))
  {
    hide Tokens, PrintOpt, OptAhead, PrintLabel, LabelAhead;
    OptTokens(WHEN, w, r);
    LabelTokens(l, PrintOpt(WHEN, w, r));
    KeyTokens(k, PrintLabel(l, PrintOpt(WHEN, w, r)));
  }

  lemma {:induction false} ReturnTokens(x: Option<Expr>, r: Text)
    ensures Tokens(PrintSimple(ReturnStmt(x), r)) == SimpleAhead(ReturnStmt(x), Tokens(r))
  {
    hide PrintExpr, ExprAhead, Tokens;
    KeyTokens(RETURN, r);
    if x.Some? { ExprTokens(x.value, r); KeyTokens(RETURN, PrintExpr(x.value, r)); }
  }

  lemma {:induction false} AssertTokens(c: Expr, m: Option<Expr>, s: Option<Expr>, r: Text)
    ensures Tokens(PrintSimple(AssertStmt(c, m, s), r)) == SimpleAhead(AssertStmt(c, m, s), Tokens(r))
  {
    hide PrintExpr, ExprAhead, Tokens, PrintOpt, OptAhead;
    var t := PrintOpt(SEVERITY, s, r);
    OptTokens(SEVERITY, s, r);
    OptTokens(REPORT, m, t);
    ExprTokens(c, PrintOpt(REPORT, m, t));
    KeyTokens(ASSERT, PrintExpr(c, PrintOpt(REPORT, m, t)));
  }

  lemma {:induction false} ReportTokens(m: Expr, s: Option<Expr>, r: Text)
    ensures Tokens(PrintSimple(ReportStmt(m, s), r)) == SimpleAhead(ReportStmt(m, s), Tokens(r))
  {
    hide PrintExpr, ExprAhead, Tokens, PrintOpt, OptAhead;
    OptTokens(SEVERITY, s, r);
    ExprTokens(m, PrintOpt(SEVERITY, s, r));
    KeyTokens(REPORT, PrintExpr(m, PrintOpt(SEVERITY, s, r)));
  }

  lemma {:induction false} WaitTokens(ns: seq<Expr>, u: Option<Expr>, t: Option<Expr>, r: Text)
    ensures Tokens(PrintSimple(WaitStmt(ns, u, t), r)) == SimpleAhead(WaitStmt(ns, u, t), Tokens(r))
  {
    hide Tokens, PrintOpt, OptAhead, PrintNames, NamesAhead;
    var o := PrintOpt(FOR, t, r);
    OptTokens(FOR, t, r);
    OptTokens(UNTIL, u, o);
    NamesTokens(ns, PrintOpt(UNTIL, u, o));
    KeyTokens(WAIT, PrintNames(ns, PrintOpt(UNTIL, u, o)));
  }

  lemma {:induction false} SignalTokens(x: Expr, d: Delay, ws: seq<Wave>, r: Text)
    ensures Tokens(PrintSimple(SignalAssign(x, d, ws), r)) == SimpleAhead(SignalAssign(x, d, ws), Tokens(r))
  {
    hide PrintExpr, ExprAhead, Tokens, PrintWaves, WavesAhead, PrintDelay, DelayAhead;
    var w := PrintWaves(ws, r);
    WavesTokens(ws, r);
    DelayTokens(d, w);
    KeyTokens(LE, PrintDelay(d, w));
    ExprTokens(x, Spaced(LE, PrintDelay(d, w)));
  }

  /** A statement is printed with exactly its tokens, at every indentation. */
  lemma {:induction false} StmtTokens(s: Stmt, indent: string, r: Text)
    ensures Tokens(PrintStmt(s, indent, r)) == StmtAhead(s, Tokens(r))
    decreases s, 1
  {
    hide PrintForm, FormAhead, Tokens;
    FormTokens(s.form, indent, r);
    if s.lbl.Some? {
      KeyTokens(COLON, PrintForm(s.form, indent, r));
      TokenFirst(s.lbl.value, Spaced(COLON, PrintForm(s.form, indent, r)));
    }
  }

  lemma {:induction false} FormTokens(f: Form, indent: string, r: Text)
    ensures Tokens(PrintForm(f, indent, r)) == FormAhead(f, Tokens(r))
    decreases f, 0
  {
    hide PrintExpr, ExprAhead, Tokens, PrintSeq, SeqAhead, PrintElsifs, ElsifsAhead, PrintElse, ElseAhead, PrintAlts, AltsAhead, PrintScheme, SchemeAhead, PrintSimple, SimpleAhead, PrintEnd, EndAhead;
    match f
    case IfStmt(c, t, es, e) =>
      var l := PrintElse(e, indent, PrintEnd(IF, indent, r));
      var b := PrintSeq(t, indent, PrintElsifs(es, indent, l));
      EndTokens(IF, indent, r);
      ElseTokens(e, indent, PrintEnd(IF, indent, r));
      ElsifsTokens(es, indent, l);
      SeqTokens(t, indent, PrintElsifs(es, indent, l));
      KeyTokens(THEN, b);
      ExprTokens(c, Sp(K(THEN, Line(b))));
      KeyTokens(IF, PrintExpr(c, Sp(K(THEN, Line(b)))));
    case CaseStmt(c, alts) =>
      var a := PrintAlts(alts, indent, PrintEnd(CASE, indent, r));
      EndTokens(CASE, indent, r);
      AltsTokens(alts, indent, PrintEnd(CASE, indent, r));
      KeyTokens(IS, a);
      ExprTokens(c, Sp(K(IS, Line(a))));
      KeyTokens(CASE, PrintExpr(c, Sp(K(IS, Line(a)))));
    case LoopStmt(h, b) =>
      var s := PrintSeq(b, indent, PrintEnd(LOOP, indent, r));
      EndTokens(LOOP, indent, r);
      SeqTokens(b, indent, PrintEnd(LOOP, indent, r));
      KeyTokens(LOOP, s);
      SchemeTokens(h, K(LOOP, Line(s)));
    case _ =>
      KeyTokens(SEMICOLON, r);
      SimpleTokens(f, K(SEMICOLON, r));
  }

  lemma {:induction false} ElseTokens(e: Tail, indent: string, r: Text)
    ensures Tokens(PrintElse(e, indent, r)) == ElseAhead(e, Tokens(r))
    decreases e, 0
  {
    hide Tokens, PrintSeq, SeqAhead;
    if e.Else? {
      SeqTokens(e.body, indent, r);
      KeyTokens(ELSE, PrintSeq(e.body, indent, r));
      IndentTokens(indent, K(ELSE, Line(PrintSeq(e.body, indent, r))));
    }
  }

  lemma {:induction false} ElsifsTokens(es: seq<Clause>, indent: string, r: Text)
    ensures Tokens(PrintElsifs(es, indent, r)) == ElsifsAhead(es, Tokens(r))
    decreases es, 1
  {
    hide Tokens, PrintSeq, SeqAhead, PrintChoices, ChoicesAhead;
    if es != [] {
      var b := PrintSeq(es[0].body, indent, PrintElsifs(es[1..], indent, r));
      ElsifsTokens(es[1..], indent, r);
      SeqTokens(es[0].body, indent, PrintElsifs(es[1..], indent, r));
      KeyTokens(THEN, b);
      var header := PrintChoices(es[0].guards, Sp(K(THEN, Line(b))));
      ChoicesTokens(es[0].guards, Sp(K(THEN, Line(b))));
      KeyTokens(ELSIF, header);
      IndentTokens(indent, K(ELSIF, Sp(header)));
    }
  }

  lemma {:induction false} AltsTokens(es: seq<Clause>, indent: string, r: Text)
    ensures Tokens(PrintAlts(es, indent, r)) == AltsAhead(es, Tokens(r))
    decreases es, 1
  {
    hide Tokens, PrintSeq, SeqAhead, PrintChoices, ChoicesAhead;
    if es != [] {
      var b := PrintSeq(es[0].body, indent + INDENT, PrintAlts(es[1..], indent, r));
      AltsTokens(es[1..], indent, r);
      SeqTokens(es[0].body, indent + INDENT, PrintAlts(es[1..], indent, r));
      KeyTokens(ARROW, b);
      var header := PrintChoices(es[0].guards, Sp(K(ARROW, Line(b))));
      ChoicesTokens(es[0].guards, Sp(K(ARROW, Line(b))));
      KeyTokens(WHEN, header);
      IndentTokens(indent, K(WHEN, Sp(header)));
    }
  }

  lemma {:induction false} SeqTokens(ss: seq<Stmt>, indent: string, r: Text)
    ensures Tokens(PrintSeq(ss, indent, r)) == SeqAhead(ss, Tokens(r))
    decreases ss, 2
  {
    hide Tokens, PrintStmt, StmtAhead;
    if ss != [] {
      var m := PrintSeq(ss[1..], indent, r);
      SeqTokens(ss[1..], indent, r);
      KeyTokens(SEMICOLON, m);
      StmtTokens(ss[0], indent + INDENT, Line(m));
      IndentTokens(indent, PrintStmt(ss[0], indent + INDENT, Line(m)));
    }
  }

  // ==== tools/socgen/vhdl: an expression that parses without error reads at least as many tokens as it is printed with.

  // ---- The number of tokens a tree is printed with ----

  function Cost(e: Expr): nat
    decreases e, 0
  {
    match e
    case BasicLit(_) => 1
    case PhysicalLit(_, _) => 2
    case Ident(name) => |name|
    case Range(x, _, y) => Cost(x) + 1 + Cost(y)
    case Binary(x, _, y) => Cost(x) + 1 + Cost(y)
    case Unary(_, x) => 1 + Cost(x)
    case Call(f, args) => Cost(f) + 2 + CostAssocs(args)
    case Selector(x, _) => Cost(x) + 2
    case AttrName(x, _) => Cost(x) + 2
    case Paren(x) => Cost(x) + 2
    case Aggregate(es) => 2 + CostElems(es)
    case Qualified(m, x) => Cost(m) + 1 + Cost(x)
  }

  function CostAssoc(a: Assoc): nat
    decreases a, 0
  {
    (if a.formal.Some? then Cost(a.formal.value) + 1 else 0) + Cost(a.actual)
  }

  /** Lists are counted with a separator for every member but the first. */
  function CostAssocs(args: seq<Assoc>): nat
    decreases args, 1
  {
    if args == [] then 0 else CostAssocs(args[..|args| - 1]) + CostAssoc(args[|args| - 1]) + (if |args| > 1 then 1 else 0)
  }

  function CostElem(x: Elem): nat
    decreases x, 0
  {
    (if x.choices == [] then 0 else CostChoices(x.choices) + 1) + Cost(x.value)
  }

  function CostElems(es: seq<Elem>): nat
    decreases es, 1
  {
    if es == [] then 0 else CostElems(es[..|es| - 1]) + CostElem(es[|es| - 1]) + (if |es| > 1 then 1 else 0)
  }

  function CostChoices(cs: seq<Expr>): nat
    decreases cs, 1
  {
    if cs == [] then 0 else CostChoices(cs[..|cs| - 1]) + Cost(cs[|cs| - 1]) + (if |cs| > 1 then 1 else 0)
  }

  lemma {:induction false} AheadLen(s: seq<Token>, r: Stream)
    ensures Len(Ahead(s, r)) == |s| + Len(r)
  {
    if s != [] { AheadLen(s[1..], r); }
  }

  lemma {:induction false} ExprLen(e: Expr, r: Stream)
    ensures Len(ExprAhead(e, r)) == Cost(e) + Len(r)
    decreases e, 0
  {
    match e
    case BasicLit(_) =>
    case PhysicalLit(_, _) =>
    case Ident(name) => AheadLen(name, r);
    case Range(x, d, y) => ExprLen(y, r); ExprLen(x, Tok(d, ExprAhead(y, r)));
    case Binary(x, op, y) => ExprLen(y, r); ExprLen(x, Tok(op, ExprAhead(y, r)));
    case Unary(op, x) => ExprLen(x, r);
    case Call(f, args) => AssocsLen(args, Tok(RPAREN, r)); ExprLen(f, Tok(LPAREN, AssocsAhead(args, Tok(RPAREN, r))));
    case Selector(x, s) => ExprLen(x, Tok(DOT, More(s, r)));
    case AttrName(x, a) => ExprLen(x, Tok(TICK, More(a, r)));
    case Paren(x) => ExprLen(x, Tok(RPAREN, r));
    case Aggregate(es) => ElemsLen(es, Tok(RPAREN, r));
    case Qualified(m, x) => ExprLen(x, r); ExprLen(m, Tok(TICK, ExprAhead(x, r)));
  }

  lemma {:induction false} AssocLen(a: Assoc, r: Stream)
    ensures Len(AssocAhead(a, r)) == CostAssoc(a) + Len(r)
    decreases a, 0
  {
    ExprLen(a.actual, r);
    if a.formal.Some? { ExprLen(a.formal.value, Tok(ARROW, ExprAhead(a.actual, r))); }
  }

  lemma {:induction false} AssocsLen(args: seq<Assoc>, r: Stream)
    ensures Len(AssocsAhead(args, r)) == CostAssocs(args) + Len(r)
    decreases args, 3
  {
    if args != [] {
      AssocLen(args[0], MoreAssocsAhead(args[1..], r));
      MoreAssocsLen([args[0]], args[1..], r);
      assert [args[0]] + args[1..] == args;
      assert [args[0]][..0] == [];
    }
  }

  lemma {:induction false} MoreAssocsLen(done: seq<Assoc>, args: seq<Assoc>, r: Stream)
    requires done != []
    ensures CostAssocs(done) + Len(MoreAssocsAhead(args, r)) == CostAssocs(done + args) + Len(r)
    decreases args, 2
  {
    if args == [] {
      assert done + args == done;
    } else {
      var next := done + [args[0]];
      AssocLen(args[0], MoreAssocsAhead(args[1..], r));
      MoreAssocsLen(next, args[1..], r);
      assert next + args[1..] == done + args && next[..|next| - 1] == done;
    }
  }

  lemma {:induction false} ElemLen(x: Elem, r: Stream)
    ensures Len(ElemAhead(x, r)) == CostElem(x) + Len(r)
    decreases x, 0
  {
    ExprLen(x.value, r);
    if x.choices != [] { ChoicesLen(x.choices, Tok(ARROW, ExprAhead(x.value, r))); }
  }

  lemma {:induction false} ElemsLen(es: seq<Elem>, r: Stream)
    ensures Len(ElemsAhead(es, r)) == CostElems(es) + Len(r)
    decreases es, 3
  {
    if es != [] {
      ElemLen(es[0], MoreElemsAhead(es[1..], r));
      MoreElemsLen([es[0]], es[1..], r);
      assert [es[0]] + es[1..] == es;
      assert [es[0]][..0] == [];
    }
  }

  lemma {:induction false} MoreElemsLen(done: seq<Elem>, es: seq<Elem>, r: Stream)
    requires done != []
    ensures CostElems(done) + Len(MoreElemsAhead(es, r)) == CostElems(done + es) + Len(r)
    decreases es, 2
  {
    if es == [] {
      assert done + es == done;
    } else {
      var next := done + [es[0]];
      ElemLen(es[0], MoreElemsAhead(es[1..], r));
      MoreElemsLen(next, es[1..], r);
      assert next + es[1..] == done + es && next[..|next| - 1] == done;
    }
  }

  lemma {:induction false} ChoicesLen(cs: seq<Expr>, r: Stream)
    ensures Len(ChoicesAhead(cs, r)) == CostChoices(cs) + Len(r)
    decreases cs, 3
  {
    if cs != [] {
      ExprLen(cs[0], MoreChoicesAhead(cs[1..], r));
      MoreChoicesLen([cs[0]], cs[1..], r);
      assert [cs[0]] + cs[1..] == cs;
      assert [cs[0]][..0] == [];
    }
  }

  lemma {:induction false} MoreChoicesLen(done: seq<Expr>, cs: seq<Expr>, r: Stream)
    requires done != []
    ensures CostChoices(done) + Len(MoreChoicesAhead(cs, r)) == CostChoices(done + cs) + Len(r)
    decreases cs, 2
  {
    if cs == [] {
      assert done + cs == done;
    } else {
      var next := done + [cs[0]];
      ExprLen(cs[0], MoreChoicesAhead(cs[1..], r));
      MoreChoicesLen(next, cs[1..], r);
      assert next + cs[1..] == done + cs && next[..|next| - 1] == done;
    }
  }

  lemma {:induction false} MergeCost(e: Expr)
    ensures Cost(Merge(e)) == Cost(e)
  {
    MergeAhead(e, Done);
    ExprLen(e, Done);
    ExprLen(Merge(e), Done);
  }

  // ---- Reading ----

  lemma {:induction false} PairLen(ts: Stream)
    requires IsSegment(Peek(ts)) || IsAttr(Peek(ts))
    ensures Len(ts) == Len(Adv(Adv(ts))) + 2
  {
  }

  lemma {:induction false} DotsCount(name: seq<Token>, ts: Stream)
    ensures |name| + Len(ts) >= |Dots(name, ts).0| + Len(Dots(name, ts).1)
    decreases Len(ts)
  {
    hide Spelled, IsSegment;
    if At(ts) == DOT && IsSegment(At(Adv(ts))) {
      PairLen(ts);
      DotsCount(name + [KindToken(DOT), Spelled(Cur(Adv(ts)))], Adv(Adv(ts)));
    }
  }

  lemma {:induction false} TicksCount(name: seq<Token>, ts: Stream)
    ensures |name| + Len(ts) >= |Ticks(name, ts).0| + Len(Ticks(name, ts).1)
    decreases Len(ts)
  {
    hide Spelled, IsAttr;
    if At(ts) == TICK && IsAttr(Peek(ts)) {
      PairLen(ts);
      TicksCount(name + [KindToken(TICK), Spelled(Cur(Adv(ts)))], Adv(Adv(ts)));
    }
  }

  /** A first token without a spelling is read but not printed. */
  lemma {:induction false} NameCount(ts: Stream)
    requires ts.More? && ParseName(ts).errs == 0
    ensures Len(ts) >= Cost(ParseName(ts).v) + Len(ParseName(ts).rest) + if Cur(ts).lit == "" then 1 else 0
    decreases Len(ts), 2
  {
    hide Suffixes, ParseParen, Dots, Ticks;
    var name := Head(Cur(ts));
    DotsCount(name, Adv(ts));
    TicksCount(Dots(name, Adv(ts)).0, Dots(name, Adv(ts)).1);
    var n := FlatName(name, Adv(ts));
    if At(n.1) == TICK && Peek(n.1) == LPAREN {
      ParenCount(Adv(n.1));
    } else {
      SuffixesCount(Ident(n.0), n.1, 0);
    }
  }

  lemma {:induction false} SuffixesCount(e: Expr, ts: Stream, errs: nat)
    requires Suffixes(e, ts, errs).errs == 0
    ensures Cost(e) + Len(ts) >= Cost(Suffixes(e, ts, errs).v) + Len(Suffixes(e, ts, errs).rest)
    decreases Len(ts), 1
  {
    hide ParseArgs, IsSegment, IsAttr, Spelled, Cost, Len, Expect;
    SuffixCost(e, Spelled(Cur(Adv(ts))));
    if At(ts) == LPAREN {
      CallCount(e, ts, errs);
    } else if At(ts) == DOT && IsSegment(Peek(ts)) {
      PairLen(ts);
      SuffixesCount(Selector(e, Spelled(Cur(Adv(ts)))), Adv(Adv(ts)), errs);
    } else if At(ts) == TICK && IsAttr(Peek(ts)) {
      PairLen(ts);
      SuffixesCount(AttrName(e, Spelled(Cur(Adv(ts)))), Adv(Adv(ts)), errs);
    }
  }

  lemma {:induction false} SuffixCost(e: Expr, t: Token)
    ensures Cost(Selector(e, t)) == Cost(AttrName(e, t)) == Cost(e) + 2
  {
  }

  lemma {:induction false} CallCount(e: Expr, ts: Stream, errs: nat)
    requires At(ts) == LPAREN && Suffixes(e, ts, errs).errs == 0
    ensures Cost(e) + Len(ts) >= Cost(Suffixes(e, ts, errs).v) + Len(Suffixes(e, ts, errs).rest)
    decreases Len(ts), 0
  {
    hide ParseArgs, IsSegment, IsAttr, Spelled;
    var args := ParseArgs(Adv(ts));
    var c := Expect(RPAREN, args.rest);
    assert args.errs == 0 && c.errs == 0;
    ArgsCount(Adv(ts));
    SuffixesCount(Call(e, args.v), c.rest, errs);
  }

  lemma {:induction false} ArgsCount(ts: Stream)
    requires ParseArgs(ts).errs == 0
    ensures Len(ts) >= CostAssocs(ParseArgs(ts).v) + Len(ParseArgs(ts).rest)
    decreases Len(ts), 23
  {
    hide ParseAssoc, MoreAssocs, CostAssoc;
    if At(ts) != RPAREN {
      var a := ParseAssoc(ts);
      AssocCount(ts);
      assert [a.v][..0] == [];
      MoreAssocsCount([a.v], a.rest);
    }
  }

  lemma {:induction false} MoreAssocsCount(acc: seq<Assoc>, ts: Stream)
    requires acc != [] && MoreAssocs(acc, ts, NO_ERRORS).errs == 0
    ensures CostAssocs(acc) + Len(ts) >= CostAssocs(MoreAssocs(acc, ts, NO_ERRORS).v) + Len(MoreAssocs(acc, ts, NO_ERRORS).rest)
    decreases Len(ts), 0
  {
    hide ParseAssoc, CostAssoc;
    if At(ts) == COMMA {
      var a := ParseAssoc(Adv(ts));
      AssocCount(Adv(ts));
      assert (acc + [a.v])[..|acc|] == acc;
      MoreAssocsCount(acc + [a.v], a.rest);
    }
  }

  lemma {:induction false} AssocCount(ts: Stream)
    requires ParseAssoc(ts).errs == 0
    ensures Len(ts) >= CostAssoc(ParseAssoc(ts).v) + Len(ParseAssoc(ts).rest)
    decreases Len(ts), 22
  {
    hide ParseExpr, Merge, Cost;
    var x := ParseExpr(ts);
    ExprCount(ts);
    if At(x.rest) == ARROW {
      ExprCount(Adv(x.rest));
      MergeCost(x.v);
    }
  }

  lemma {:induction false} ParenCount(ts: Stream)
    requires At(ts) == LPAREN && ParseParen(ts).errs == 0
    ensures Len(ts) >= Cost(ParseParen(ts).v) + Len(ParseParen(ts).rest)
    decreases Len(ts), 1
  {
    hide ParseElems, CostElem;
    var es := ParseElems(Adv(ts));
    ElemsCount(Adv(ts));
    if |es.v| == 1 && es.v[0].choices == [] { OneElem(es.v); }
  }

  lemma {:induction false} OneElem(es: seq<Elem>)
    requires |es| == 1 && es[0].choices == []
    ensures CostElems(es) == Cost(es[0].value)
  {
    assert es[..0] == [];
  }

  lemma {:induction false} ElemsCount(ts: Stream)
    requires ParseElems(ts).errs == 0
    ensures Len(ts) >= CostElems(ParseElems(ts).v) + Len(ParseElems(ts).rest)
    decreases Len(ts), 23
  {
    hide ParseElem, MoreElems, CostElem;
    if At(ts) != RPAREN {
      var a := ParseElem(ts);
      ElemCount(ts);
      assert [a.v][..0] == [];
      MoreElemsCount([a.v], a.rest);
    }
  }

  lemma {:induction false} MoreElemsCount(acc: seq<Elem>, ts: Stream)
    requires acc != [] && MoreElems(acc, ts, NO_ERRORS).errs == 0
    ensures CostElems(acc) + Len(ts) >= CostElems(MoreElems(acc, ts, NO_ERRORS).v) + Len(MoreElems(acc, ts, NO_ERRORS).rest)
    decreases Len(ts), 0
  {
    hide ParseElem, CostElem;
    if At(ts) == COMMA && At(Adv(ts)) != RPAREN {
      var a := ParseElem(Adv(ts));
      ElemCount(Adv(ts));
      assert (acc + [a.v])[..|acc|] == acc;
      MoreElemsCount(acc + [a.v], a.rest);
    }
  }

  lemma {:induction false} ElemCount(ts: Stream)
    requires ParseElem(ts).errs == 0
    ensures Len(ts) >= CostElem(ParseElem(ts).v) + Len(ParseElem(ts).rest)
    decreases Len(ts), 22
  {
    hide ParseExpr, MoreChoices, Cost;
    var x := ParseExpr(ts);
    ExprCount(ts);
    if At(x.rest) == BAR || At(x.rest) == ARROW {
      var cs := MoreChoices([x.v], x.rest, x.errs);
      assert [x.v][..0] == [];
      MoreChoicesCount([x.v], x.rest);
      ExprCount(Expect(ARROW, cs.rest).rest);
    }
  }

  lemma {:induction false} MoreChoicesCount(acc: seq<Expr>, ts: Stream)
    requires acc != [] && MoreChoices(acc, ts, NO_ERRORS).errs == 0
    ensures CostChoices(acc) + Len(ts) >= CostChoices(MoreChoices(acc, ts, NO_ERRORS).v) + Len(MoreChoices(acc, ts, NO_ERRORS).rest)
    decreases Len(ts), 0
  {
    hide ParseExpr, Cost;
    if At(ts) == BAR {
      var x := ParseExpr(Adv(ts));
      ExprCount(Adv(ts));
      assert (acc + [x.v])[..|acc|] == acc;
      MoreChoicesCount(acc + [x.v], x.rest);
    }
  }

  lemma {:induction false} PrimaryCount(ts: Stream)
    requires ParsePrimary(ts).errs == 0
    ensures Len(ts) >= Cost(ParsePrimary(ts).v) + Len(ParsePrimary(ts).rest)
    decreases Len(ts), 3
  {
    hide ParseParen, ParseName;
    if At(ts) == LPAREN {
      ParenCount(ts);
    } else if At(ts) == IDENT || At(ts) == EXTIDENT {
      NameCount(ts);
    }
  }

  lemma {:induction false} FactorCount(ts: Stream)
    requires ParseFactor(ts).errs == 0
    ensures Len(ts) >= Cost(ParseFactor(ts).v) + Len(ParseFactor(ts).rest)
    decreases Len(ts), 4
  {
    hide ParsePrimary;
    if At(ts) == ABS || At(ts) == NOT {
      PrimaryCount(Adv(ts));
    } else {
      PrimaryCount(ts);
      var x := ParsePrimary(ts);
      if At(x.rest) == EXP { PrimaryCount(Adv(x.rest)); }
    }
  }

  lemma {:induction false} OperandCount(t: nat, ts: Stream)
    requires 1 <= t <= 5 && ParseOperand(t, ts).errs == 0
    ensures Len(ts) >= Cost(ParseOperand(t, ts).v) + Len(ParseOperand(t, ts).rest)
    decreases Len(ts), 15 - 2 * t
  {
    hide ParseFactor, ParseTier, Cost;
    if t == 5 { FactorCount(ts); } else { TierCount(t + 1, ts); }
  }

  lemma {:induction false} FoldCount(t: nat, left: Expr, ts: Stream)
    requires 1 <= t <= 5 && FoldTier(t, left, ts, NO_ERRORS).errs == 0
    ensures Cost(left) + Len(ts) >= Cost(FoldTier(t, left, ts, NO_ERRORS).v) + Len(FoldTier(t, left, ts, NO_ERRORS).rest)
    decreases Len(ts), 0
  {
    FoldUnfold(t, left, ts);
    hide ParseOperand, FoldTier, IsOp;
    if IsOp(t, At(ts)) {
      var y := ParseOperand(t, Adv(ts));
      OperandCount(t, Adv(ts));
      FoldCount(t, Binary(left, At(ts), y.v), y.rest);
    }
  }

  lemma {:induction false} TierCount(t: nat, ts: Stream)
    requires 1 <= t <= 5 && ParseTier(t, ts).errs == 0
    ensures Len(ts) >= Cost(ParseTier(t, ts).v) + Len(ParseTier(t, ts).rest)
    decreases Len(ts), 16 - 2 * t
  {
    hide ParseOperand, FoldTier;
    if t == 4 && IsSign(At(ts)) {
      var x := ParseTier(5, Adv(ts));
      TierCount(5, Adv(ts));
      FoldCount(4, Unary(At(ts), x.v), x.rest);
    } else {
      var x := ParseOperand(t, ts);
      OperandCount(t, ts);
      FoldCount(t, x.v, x.rest);
    }
  }

  lemma {:induction false} ExprCount(ts: Stream)
    requires ParseExpr(ts).errs == 0
    ensures Len(ts) >= Cost(ParseExpr(ts).v) + Len(ParseExpr(ts).rest)
    decreases Len(ts), 20
  {
    hide ParseTier;
    var l := ParseTier(1, ts);
    TierCount(1, ts);
    if At(l.rest) == TO || At(l.rest) == DOWNTO { TierCount(1, Adv(l.rest)); }
  }

  // ==== tools/socgen/vhdl: a statement that parses without error reads at least as many tokens as it is printed with, and more when it
  // does not print back.

  // ---- The number of tokens a statement is printed with ----

  function CostOpt(e: Option<Expr>): nat { if e.None? then 0 else 1 + Cost(e.value) }

  function CostWave(w: Wave): nat { Cost(w.value) + CostOpt(w.after) }

  function CostWaves(ws: seq<Wave>): nat {
    if ws == [] then 0 else CostWaves(ws[..|ws| - 1]) + CostWave(ws[|ws| - 1]) + (if |ws| > 1 then 1 else 0)
  }

  function CostDelay(d: Delay): nat {
    match d
    case NoDelay => 0
    case Reject(x) => 2 + Cost(x)
    case _ => 1
  }

  function CostScheme(h: Scheme): nat {
    match h
    case Bare => 0
    case While(c) => 1 + Cost(c)
    case For(_, x, m) => 3 + Cost(x) + CostOpt(m)
  }

  function CostLabel(l: Option<Token>): nat { if l.None? then 0 else 1 }

  function CostNames(ns: seq<Expr>): nat { if ns == [] then 0 else 1 + CostChoices(ns) }

  function CostSimple(f: Form): nat
  {
    match f
    case NullStmt => 1
    case NextStmt(l, w) => 1 + CostLabel(l) + CostOpt(w)
    case ExitStmt(l, w) => 1 + CostLabel(l) + CostOpt(w)
    case ReturnStmt(x) => 1 + if x.None? then 0 else Cost(x.value)
    case AssertStmt(c, m, s) => 1 + Cost(c) + CostOpt(m) + CostOpt(s)
    case ReportStmt(m, s) => 1 + Cost(m) + CostOpt(s)
    case WaitStmt(ns, u, t) => 1 + CostNames(ns) + CostOpt(u) + CostOpt(t)
    case SignalAssign(x, d, ws) => Cost(x) + 1 + CostDelay(d) + CostWaves(ws)
    case VarAssign(x, v) => Cost(x) + 1 + Cost(v)
    case ProcCall(n, args) => if args == [] then Cost(n) else Cost(n) + 2 + CostAssocs(args)
    case _ => 0
  }

  function CostStmt(s: Stmt): nat
    decreases s, 1
  {
    (if s.lbl.None? then 0 else 2) + CostForm(s.form)
  }

  function CostForm(f: Form): nat
    decreases f, 0
  {
    match f
    case IfStmt(c, t, es, e) => 5 + Cost(c) + CostSeq(t) + CostClauses(es) + CostElse(e)
    case CaseStmt(c, alts) => 5 + Cost(c) + CostClauses(alts)
    case LoopStmt(h, b) => 4 + CostScheme(h) + CostSeq(b)
    case _ => CostSimple(f) + 1
  }

  function CostElse(e: Tail): nat
    decreases e, 0
  {
    if e.NoElse? then 0 else 1 + CostSeq(e.body)
  }

  function CostClauses(cs: seq<Clause>): nat
    decreases cs, 1
  {
    if cs == [] then 0 else 2 + CostChoices(cs[0].guards) + CostSeq(cs[0].body) + CostClauses(cs[1..])
  }

  function CostSeq(ss: seq<Stmt>): nat
    decreases ss, 2
  {
    if ss == [] then 0 else CostStmt(ss[0]) + CostSeq(ss[1..])
  }

  lemma {:induction false} OptLen(k: Kind, e: Option<Expr>, r: Stream)
    ensures Len(OptAhead(k, e, r)) == CostOpt(e) + Len(r)
  {
    hide ExprAhead, Cost;
    if e.Some? { ExprLen(e.value, r); }
  }

  lemma {:induction false} WavesLen(ws: seq<Wave>, r: Stream)
    ensures Len(WavesAhead(ws, r)) == CostWaves(ws) + Len(r)
  {
    hide WaveAhead, CostWave;
    if ws != [] {
      WaveLen(ws[0], MoreWavesAhead(ws[1..], r));
      MoreWavesLen([ws[0]], ws[1..], r);
      assert [ws[0]] + ws[1..] == ws;
      assert [ws[0]][..0] == [];
    }
  }

  lemma {:induction false} WaveLen(w: Wave, r: Stream)
    ensures Len(WaveAhead(w, r)) == CostWave(w) + Len(r)
  {
    hide ExprAhead, Cost, OptAhead, CostOpt;
    OptLen(AFTER, w.after, r);
    ExprLen(w.value, OptAhead(AFTER, w.after, r));
  }

  lemma {:induction false} MoreWavesLen(done: seq<Wave>, ws: seq<Wave>, r: Stream)
    requires done != []
    ensures CostWaves(done) + Len(MoreWavesAhead(ws, r)) == CostWaves(done + ws) + Len(r)
    decreases ws
  {
    hide WaveAhead, CostWave;
    if ws == [] {
      assert done + ws == done;
    } else {
      var next := done + [ws[0]];
      WaveLen(ws[0], MoreWavesAhead(ws[1..], r));
      MoreWavesLen(next, ws[1..], r);
      assert next + ws[1..] == done + ws && next[..|next| - 1] == done;
    }
  }

  lemma {:induction false} NamesLen(ns: seq<Expr>, r: Stream)
    ensures Len(NamesAhead(ns, r)) == CostNames(ns) + Len(r)
  {
    hide ExprAhead, Cost;
    if ns != [] {
      ExprLen(ns[0], MoreNamesAhead(ns[1..], r));
      MoreNamesLen([ns[0]], ns[1..], r);
      assert [ns[0]] + ns[1..] == ns;
      assert [ns[0]][..0] == [];
    }
  }

  lemma {:induction false} MoreNamesLen(done: seq<Expr>, ns: seq<Expr>, r: Stream)
    requires done != []
    ensures CostChoices(done) + Len(MoreNamesAhead(ns, r)) == CostChoices(done + ns) + Len(r)
    decreases ns
  {
    hide ExprAhead, Cost;
    if ns == [] {
      assert done + ns == done;
    } else {
      var next := done + [ns[0]];
      ExprLen(ns[0], MoreNamesAhead(ns[1..], r));
      MoreNamesLen(next, ns[1..], r);
      assert next + ns[1..] == done + ns && next[..|next| - 1] == done;
    }
  }

  lemma {:induction false} SchemeLen(h: Scheme, r: Stream)
    ensures Len(SchemeAhead(h, r)) == CostScheme(h) + Len(r)
  {
    hide ExprAhead, Cost;
    match h
    case Bare =>
    case While(c) => ExprLen(c, r);
    case For(p, x, m) =>
      ExprLen(x, r);
      if m.Some? { ExprLen(m.value, Tok(RANGE, ExprAhead(x, r))); }
      var t := if m.None? then ExprAhead(x, r) else ExprAhead(m.value, Tok(RANGE, ExprAhead(x, r)));
      assert Len(More(p, Tok(IN, t))) == 2 + Len(t);
  }

  lemma {:induction false} DelayLen(d: Delay, r: Stream)
    ensures Len(DelayAhead(d, r)) == CostDelay(d) + Len(r)
  {
    hide ExprAhead, Cost;
    if d.Reject? { ExprLen(d.limit, Tok(INERTIAL, r)); }
  }

  lemma {:induction false} CallLen(n: Expr, args: seq<Assoc>, r: Stream)
    ensures Len(SimpleAhead(ProcCall(n, args), r)) == CostSimple(ProcCall(n, args)) + Len(r)
  {
    hide ExprAhead;
    ExprLen(if args == [] then n else Call(n, args), r);
  }

  lemma {:induction false} SimpleLen(f: Form, r: Stream)
    requires !f.IfStmt? && !f.CaseStmt? && !f.LoopStmt?
    ensures Len(SimpleAhead(f, r)) == CostSimple(f) + Len(r)
  {
    hide ExprAhead, Cost, OptAhead, CostOpt, NamesAhead, CostNames, WavesAhead, CostWaves, CostAssocs;
    match f
    case NullStmt =>
    case NextStmt(l, w) => OptLen(WHEN, w, r);
    case ExitStmt(l, w) => OptLen(WHEN, w, r);
    case ReturnStmt(x) => if x.Some? { ExprLen(x.value, r); }
    case AssertStmt(c, m, s) => OptLen(SEVERITY, s, r); OptLen(REPORT, m, OptAhead(SEVERITY, s, r)); ExprLen(c, OptAhead(REPORT, m, OptAhead(SEVERITY, s, r)));
    case ReportStmt(m, s) => OptLen(SEVERITY, s, r); ExprLen(m, OptAhead(SEVERITY, s, r));
    case WaitStmt(ns, u, t) => OptLen(FOR, t, r); OptLen(UNTIL, u, OptAhead(FOR, t, r)); NamesLen(ns, OptAhead(UNTIL, u, OptAhead(FOR, t, r)));
    case SignalAssign(x, d, ws) => WavesLen(ws, r); DelayLen(d, WavesAhead(ws, r)); ExprLen(x, Tok(LE, DelayAhead(d, WavesAhead(ws, r))));
    case VarAssign(x, v) => ExprLen(v, r); ExprLen(x, Tok(ASSIGN, ExprAhead(v, r)));
    case ProcCall(n, args) => CallLen(n, args, r);
  }

  lemma {:induction false} StmtLen(s: Stmt, r: Stream)
    ensures Len(StmtAhead(s, r)) == CostStmt(s) + Len(r)
    decreases s, 1
  {
    hide FormAhead, CostForm;
    FormLen(s.form, r);
  }

  lemma {:induction false} EndLen(k: Kind, r: Stream)
    ensures Len(EndAhead(k, r)) == 3 + Len(r)
  {
    assert Len(Tok(k, Tok(SEMICOLON, r))) == 2 + Len(r);
  }

  lemma {:induction false} FormLen(f: Form, r: Stream)
    ensures Len(FormAhead(f, r)) == CostForm(f) + Len(r)
    decreases f, 0
  {
    hide ExprAhead, Cost, SeqAhead, CostSeq, ElsifsAhead, CostClauses, AltsAhead, SchemeAhead, CostScheme, SimpleAhead, CostSimple, EndAhead;
    match f
    case IfStmt(c, t, es, e) =>
      var l := ElseAhead(e, EndAhead(IF, r));
      EndLen(IF, r);
      if e.Else? { SeqLen(e.body, EndAhead(IF, r)); }
      ClausesLen(es, l);
      SeqLen(t, ElsifsAhead(es, l));
      ExprLen(c, Tok(THEN, SeqAhead(t, ElsifsAhead(es, l))));
    case CaseStmt(c, alts) =>
      EndLen(CASE, r);
      ClausesLen(alts, EndAhead(CASE, r));
      ExprLen(c, Tok(IS, AltsAhead(alts, EndAhead(CASE, r))));
    case LoopStmt(h, b) =>
      EndLen(LOOP, r);
      SeqLen(b, EndAhead(LOOP, r));
      SchemeLen(h, Tok(LOOP, SeqAhead(b, EndAhead(LOOP, r))));
    case _ => SimpleLen(f, Tok(SEMICOLON, r));
  }

  lemma {:induction false} ClausesLen(cs: seq<Clause>, r: Stream)
    ensures Len(ElsifsAhead(cs, r)) == CostClauses(cs) + Len(r) == Len(AltsAhead(cs, r))
    decreases cs, 1
  {
    hide ChoicesAhead, CostChoices, SeqAhead, CostSeq;
    if cs != [] {
      ClausesLen(cs[1..], r);
      var e, a := ElsifsAhead(cs[1..], r), AltsAhead(cs[1..], r);
      SeqLen(cs[0].body, e);
      SeqLen(cs[0].body, a);
      ChoicesLen(cs[0].guards, Tok(THEN, SeqAhead(cs[0].body, e)));
      ChoicesLen(cs[0].guards, Tok(ARROW, SeqAhead(cs[0].body, a)));
    }
  }

  lemma {:induction false} SeqLen(ss: seq<Stmt>, r: Stream)
    ensures Len(SeqAhead(ss, r)) == CostSeq(ss) + Len(r)
    decreases ss, 2
  {
    hide StmtAhead, CostStmt;
    if ss != [] {
      SeqLen(ss[1..], r);
      StmtLen(ss[0], SeqAhead(ss[1..], r));
    }
  }

  // ---- Reading ----

  lemma {:induction false} DotsKeepHead(name: seq<Token>, ts: Stream)
    requires name != []
    ensures Dots(name, ts).0 != [] && Dots(name, ts).0[0] == name[0]
    decreases Len(ts)
  {
    if At(ts) == DOT && IsSegment(At(Adv(ts))) { DotsKeepHead(name + [KindToken(DOT), Spelled(Cur(Adv(ts)))], Adv(Adv(ts))); }
  }

  lemma {:induction false} TicksKeepHead(name: seq<Token>, ts: Stream)
    requires name != []
    ensures Ticks(name, ts).0 != [] && Ticks(name, ts).0[0] == name[0]
    decreases Len(ts)
  {
    if At(ts) == TICK && IsAttr(Peek(ts)) { TicksKeepHead(name + [KindToken(TICK), Spelled(Cur(Adv(ts)))], Adv(Adv(ts))); }
  }

  lemma {:induction false} NameKeepsHead(ts: Stream)
    requires Cur(ts).lit != ""
    ensures HeadOf(ParseName(ts).v) == Cur(ts)
  {
    hide Dots, Ticks, Suffixes, ParseParen;
    var name := [Cur(ts)];
    DotsKeepHead(name, Adv(ts));
    TicksKeepHead(Dots(name, Adv(ts)).0, Dots(name, Adv(ts)).1);
    var n := FlatName(name, Adv(ts));
    SuffixesHead(Ident(n.0), n.1, 0);
  }

  predicate Shows(e: Expr) { HeadOf(e).lit != "" }

  function One(b: bool): nat { if b then 1 else 0 }

  /** parseName at a token: what it reads without printing shows in the tree. */
  lemma {:induction false} ShownCount(ts: Stream)
    requires ts.More? && ParseName(ts).errs == 0
    ensures Len(ts) >= Cost(ParseName(ts).v) + Len(ParseName(ts).rest) + One(!Shows(ParseName(ts).v))
  {
    hide ParseName, Cost, HeadOf;
    NameCount(ts);
    if Cur(ts).lit != "" { NameKeepsHead(ts); }
  }

  lemma {:induction false} OptCount(k: Kind, ts: Stream)
    requires ParseOpt(k, ts).errs == 0 && k != EOF
    ensures Len(ts) >= CostOpt(ParseOpt(k, ts).v) + Len(ParseOpt(k, ts).rest)
  {
    hide ParseExpr, Cost;
    if At(ts) == k { ExprCount(Adv(ts)); }
  }

  lemma {:induction false} WaveCount(ts: Stream)
    requires ParseWave(ts).errs == 0
    ensures Len(ts) >= CostWave(ParseWave(ts).v) + Len(ParseWave(ts).rest)
  {
    hide ParseExpr, Cost, ParseOpt, CostOpt;
    ExprCount(ts);
    OptCount(AFTER, ParseExpr(ts).rest);
  }

  lemma {:induction false} WavesCount(ts: Stream)
    requires ParseWaves(ts).errs == 0
    ensures Len(ts) >= CostWaves(ParseWaves(ts).v) + Len(ParseWaves(ts).rest)
  {
    hide ParseWave, CostWave, MoreWaves;
    var w := ParseWave(ts);
    WaveCount(ts);
    assert [w.v][..0] == [];
    MoreWavesCount([w.v], w.rest);
  }

  lemma {:induction false} MoreWavesCount(acc: seq<Wave>, ts: Stream)
    requires acc != [] && MoreWaves(acc, ts, NO_ERRORS).errs == 0
    ensures CostWaves(acc) + Len(ts) >= CostWaves(MoreWaves(acc, ts, NO_ERRORS).v) + Len(MoreWaves(acc, ts, NO_ERRORS).rest)
    decreases Len(ts)
  {
    hide ParseWave, CostWave;
    if At(ts) == COMMA {
      var w := ParseWave(Adv(ts));
      WaveCount(Adv(ts));
      assert (acc + [w.v])[..|acc|] == acc;
      MoreWavesCount(acc + [w.v], w.rest);
    }
  }

  lemma {:induction false} DelayCount(ts: Stream)
    requires ParseDelay(ts).errs == 0
    ensures Len(ts) >= CostDelay(ParseDelay(ts).v) + Len(ParseDelay(ts).rest)
  {
    hide ParseExpr, Cost;
    if At(ts) == REJECT { ExprCount(Adv(ts)); }
  }

  lemma {:induction false} ChoicesCount(ts: Stream)
    requires ParseChoices(ts).errs == 0
    ensures Len(ts) >= CostChoices(ParseChoices(ts).v) + Len(ParseChoices(ts).rest)
  {
    hide ParseExpr, Cost, MoreChoices;
    var x := ParseExpr(ts);
    ExprCount(ts);
    assert [x.v][..0] == [];
    MoreChoicesCount([x.v], x.rest);
  }

  lemma {:induction false} ForCount(ts: Stream)
    requires ParseFor(ts).errs == 0
    ensures 1 + Len(ts) >= CostScheme(ParseFor(ts).v) + Len(ParseFor(ts).rest)
  {
    hide ParseExpr, Cost, ParseOpt;
    var i := Expect(IN, Expect(IDENT, ts).rest);
    var x := ParseExpr(i.rest);
    assert Len(ts) == 2 + Len(i.rest);
    ExprCount(i.rest);
    OptCount(RANGE, x.rest);
  }

  lemma {:induction false} SchemeCount(ts: Stream)
    requires ParseScheme(ts).errs == 0
    ensures Len(ts) >= CostScheme(ParseScheme(ts).v) + Len(ParseScheme(ts).rest)
  {
    hide ParseExpr, Cost, ParseFor;
    if At(ts) == FOR { ForCount(Adv(ts)); } else if At(ts) == WHILE { ExprCount(Adv(ts)); }
  }

  lemma {:induction false} MoreNamesCount(acc: seq<Expr>, ts: Stream)
    requires acc != [] && MoreNames(acc, ts, NO_ERRORS).errs == 0 && MoreNames(acc, ts, NO_ERRORS).rest.More?
    ensures CostChoices(acc) + Len(ts) >= CostChoices(MoreNames(acc, ts, NO_ERRORS).v) + Len(MoreNames(acc, ts, NO_ERRORS).rest) + One(AllSpelled(acc) && !AllSpelled(MoreNames(acc, ts, NO_ERRORS).v))
    decreases Len(ts)
  {
    hide ParseName, Cost, HeadOf;
    if At(ts) == COMMA {
      var n := ParseName(Adv(ts));
      ShownCount(Adv(ts));
      assert (acc + [n.v])[..|acc|] == acc;
      MoreNamesCount(acc + [n.v], n.rest);
    }
  }

  lemma {:induction false} OnCount(ts: Stream)
    requires ParseOn(ts).errs == 0 && ParseOn(ts).rest.More?
    ensures Len(ts) >= CostNames(ParseOn(ts).v) + Len(ParseOn(ts).rest) + One(!AllSpelled(ParseOn(ts).v))
  {
    hide ParseName, Cost, HeadOf, MoreNames;
    if At(ts) == ON {
      var n := ParseName(Adv(ts));
      ShownCount(Adv(ts));
      assert [n.v][..0] == [];
      MoreNamesCount([n.v], n.rest);
    }
  }

  /** A form read without error costs no more than what was read, and less when it does not print back. */
  predicate Counted(ts: Stream, r: R<Option<Form>>) {
    r.v.Some? && Len(ts) >= CostForm(FormOf(r)) + Len(r.rest) + One(!Printable(Stmt(None, FormOf(r))))
  }

  lemma {:induction false} EndedCount<S>(v: S, ts: Stream, errs: nat)
    requires Ended(v, ts, errs).errs == 0
    ensures ts.More? && errs == 0 && Len(ts) == 1 + Len(Ended(v, ts, errs).rest) && Ended(v, ts, errs).v == v
  {
  }

  lemma {:induction false} LabelCount(ts: Stream)
    ensures Len(ts) == CostLabel(ParseLabel(ts).v) + Len(ParseLabel(ts).rest)
  {
  }

  lemma {:induction false} JumpCount(next: bool, ts: Stream)
    requires ts.More? && ParseJump(next, Adv(ts)).errs == 0
    ensures Counted(ts, ParseJump(next, Adv(ts)))
  {
    hide ParseLabel, CostLabel, ParseOpt, CostOpt, Ended;
    var l := ParseLabel(Adv(ts));
    var w := ParseOpt(WHEN, l.rest);
    LabelCount(Adv(ts));
    EndedCount(Some(if next then NextStmt(l.v, w.v) else ExitStmt(l.v, w.v)), w.rest, w.errs);
    OptCount(WHEN, l.rest);
  }

  lemma {:induction false} ReturnCount(ts: Stream)
    requires ts.More? && ParseReturn(Adv(ts)).errs == 0
    ensures Counted(ts, ParseReturn(Adv(ts)))
  {
    hide ParseExpr, Cost, Ended;
    var t := Adv(ts);
    if At(t) != SEMICOLON {
      var x := ParseExpr(t);
      EndedCount(Some(ReturnStmt(Some(x.v))), x.rest, x.errs);
      ExprCount(t);
    }
  }

  lemma {:induction false} AssertCount(ts: Stream)
    requires ts.More? && ParseAssert(Adv(ts)).errs == 0
    ensures Counted(ts, ParseAssert(Adv(ts)))
  {
    hide ParseExpr, Cost, ParseOpt, CostOpt, Ended;
    var c := ParseExpr(Adv(ts));
    var m := ParseOpt(REPORT, c.rest);
    var s := ParseOpt(SEVERITY, m.rest);
    EndedCount(Some(AssertStmt(c.v, m.v, s.v)), s.rest, c.errs + m.errs + s.errs);
    ExprCount(Adv(ts));
    OptCount(REPORT, c.rest);
    OptCount(SEVERITY, m.rest);
  }

  lemma {:induction false} ReportCount(ts: Stream)
    requires ts.More? && ParseReport(Adv(ts)).errs == 0
    ensures Counted(ts, ParseReport(Adv(ts)))
  {
    hide ParseExpr, Cost, ParseOpt, CostOpt, Ended;
    var m := ParseExpr(Adv(ts));
    var s := ParseOpt(SEVERITY, m.rest);
    EndedCount(Some(ReportStmt(m.v, s.v)), s.rest, m.errs + s.errs);
    ExprCount(Adv(ts));
    OptCount(SEVERITY, m.rest);
  }

  lemma {:induction false} WaitCount(ts: Stream)
    requires ts.More? && ParseWait(Adv(ts)).errs == 0
    ensures Counted(ts, ParseWait(Adv(ts)))
  {
    hide ParseOn, CostNames, ParseOpt, CostOpt, Ended, HeadOf;
    var n := ParseOn(Adv(ts));
    var u := ParseOpt(UNTIL, n.rest);
    var f := ParseOpt(FOR, u.rest);
    EndedCount(Some(WaitStmt(n.v, u.v, f.v)), f.rest, n.errs + u.errs + f.errs);
    OptCount(UNTIL, n.rest);
    OptCount(FOR, u.rest);
    OnCount(Adv(ts));
  }

  lemma {:induction false} SignalCount(ts: Stream)
    requires ParseNamed(ts).errs == 0 && At(ParseName(ts).rest) == LE
    ensures Counted(ts, ParseNamed(ts))
  {
    hide ParseName, Cost, HeadOf, ParseDelay, CostDelay, ParseWaves, CostWaves, Ended;
    var t := ParseName(ts);
    var d := ParseDelay(Adv(t.rest));
    var w := ParseWaves(d.rest);
    EndedCount(Some(SignalAssign(t.v, d.v, w.v)), w.rest, t.errs + d.errs + w.errs);
    ShownCount(ts);
    DelayCount(Adv(t.rest));
    WavesCount(d.rest);
  }

  lemma {:induction false} AssignCount(ts: Stream)
    requires ParseNamed(ts).errs == 0 && At(ParseName(ts).rest) == ASSIGN
    ensures Counted(ts, ParseNamed(ts))
  {
    hide ParseName, Cost, HeadOf, ParseExpr, Ended;
    var t := ParseName(ts);
    var x := ParseExpr(Adv(t.rest));
    EndedCount(Some(VarAssign(t.v, x.v)), x.rest, t.errs + x.errs);
    ShownCount(ts);
    ExprCount(Adv(t.rest));
  }

  lemma {:induction false} CallFormCount(ts: Stream)
    requires ParseNamed(ts).errs == 0 && At(ParseName(ts).rest) != LE && At(ParseName(ts).rest) != ASSIGN
    ensures Counted(ts, ParseNamed(ts))
  {
    hide ParseName, HeadOf, Cost, Merge, Ended, CostAssocs;
    var t := ParseName(ts);
    if t.v.Call? {
      EndedCount(Some(ProcCall(Merge(t.v.fun), t.v.args)), t.rest, t.errs);
      ShownCount(ts);
      CallCosts(t.v.fun, t.v.args);
    } else {
      ShownCount(ts);
    }
  }

  /** The empty parentheses of a call are read and not printed. */
  lemma {:induction false} CallCosts(f: Expr, args: seq<Assoc>)
    ensures Cost(Merge(f)) == Cost(f) && Cost(Call(f, args)) == Cost(f) + 2 + CostAssocs(args) && (args == [] ==> CostAssocs(args) == 0)
    ensures Shows(Merge(f)) <==> Shows(Call(f, args))
  {
    MergeCost(f);
    MergeShows(f);
  }

  lemma {:induction false} MergeShows(e: Expr)
    ensures Shows(Merge(e)) <==> Shows(e)
    decreases e
  {
    match e
    case Call(f, _) => MergeShows(f);
    case Selector(x, _) => MergeShows(x);
    case AttrName(x, _) => MergeShows(x);
    case Qualified(m, _) => MergeShows(m);
    case _ =>
  }

  lemma {:induction false} SimpleCount(ts: Stream)
    requires ParseSimple(ts).errs == 0
    requires At(ts) != IF && At(ts) != CASE && At(ts) != FOR && At(ts) != WHILE && At(ts) != LOOP
    ensures Counted(ts, ParseSimple(ts))
  {
    hide ParseSimple, ParseNamed, ParseWait, ParseJump, ParseReturn, ParseAssert, ParseReport, Counted, ParseName;
    KeywordAt(ts);
    VerbAt(ts);
    if !StartsStmt(At(ts)) {
      NamedAt(ts);
      if At(ParseName(ts).rest) == LE { SignalCount(ts); } else if At(ParseName(ts).rest) == ASSIGN { AssignCount(ts); } else { CallFormCount(ts); }
    } else {
      var k := At(ts);
      if k == NULL {
        NullCount(ts);
      } else if k == NEXT {
        JumpCount(true, ts);
      } else if k == EXIT {
        JumpCount(false, ts);
      } else if k == RETURN {
        ReturnCount(ts);
      } else if k == WAIT {
        WaitCount(ts);
      } else if k == ASSERT {
        AssertCount(ts);
      } else if k == REPORT {
        ReportCount(ts);
      }
    }
  }

  lemma {:induction false} NullCount(ts: Stream)
    requires At(ts) == NULL && Ended(Some(NullStmt), Adv(ts), NO_ERRORS).errs == 0
    ensures Counted(ts, Ended(Some(NullStmt), Adv(ts), NO_ERRORS))
  {
    hide Ended;
    EndedCount(Some(NullStmt), Adv(ts), 0);
  }

  // ---- Statements ----

  lemma {:induction false} FormCount(ts: Stream)
    requires ParseForm(ts).errs == 0
    ensures Counted(ts, ParseForm(ts))
    decreases Len(ts), 1
  {
    hide *;
    BlockAt(ts);
    var k := At(ts);
    if k == IF {
      IfCount(ts);
    } else if k == CASE {
      CaseCount(ts);
    } else if k == FOR {
      LoopCount(ts);
    } else if k == WHILE {
      LoopCount(ts);
    } else if k == LOOP {
      LoopCount(ts);
    } else {
      NoBlockAt(ts); SimpleCount(ts);
    }
  }

  lemma {:induction false} PrintableForm(s: Stmt)
    ensures Printable(s) == Printable(Stmt(None, s.form))
  {
  }

  lemma {:induction false} StmtCount(ts: Stream)
    requires ParseStmt(ts).errs == 0
    ensures Len(ts) >= CostStmt(StmtOf(ParseStmt(ts))) + Len(ParseStmt(ts).rest) + One(!Printable(StmtOf(ParseStmt(ts))))
    decreases Len(ts), 2
  {
    hide ParseForm, CostForm, Printable;
    FormCount(if At(ts) == IDENT && Peek(ts) == COLON then Adv(Adv(ts)) else ts);
    PrintableForm(StmtOf(ParseStmt(ts)));
  }

  lemma {:induction false} SeqCount(stops: Stops, ts: Stream)
    requires ParseSeq(stops, ts).errs == 0
    ensures Len(ts) >= CostSeq(ParseSeq(stops, ts).v) + Len(ParseSeq(stops, ts).rest) + One(!AllPrintable(ParseSeq(stops, ts).v))
    decreases Len(ts), 3
  {
    hide ParseStmt, IsStop, Printable, CostStmt;
    if At(ts) != EOF && !IsStop(stops, At(ts)) {
      var s := ParseStmt(ts);
      StmtCount(ts);
      SeqCount(stops, s.rest);
    }
  }

  lemma {:induction false} EndCount(k: Kind, ts: Stream)
    requires ParseEnd(k, ts).errs == 0 && k != EOF
    ensures Len(ts) >= 3 + Len(ParseEnd(k, ts).rest)
  {
  }

  predicate TailPrintable(e: Tail) { e.Else? ==> AllPrintable(e.body) }

  lemma {:induction false} ElseCount(ts: Stream)
    requires ParseElse(ts).errs == 0
    ensures Len(ts) >= CostElse(ParseElse(ts).v) + Len(ParseElse(ts).rest) + One(!TailPrintable(ParseElse(ts).v))
    decreases Len(ts), 0
  {
    hide ParseSeq, CostSeq, AllPrintable;
    if At(ts) == ELSE { SeqCount(OnlyEnd, Adv(ts)); }
  }

  lemma {:induction false} ConsCost(c: Clause, m: seq<Clause>)
    ensures CostClauses([c] + m) == 2 + CostChoices(c.guards) + CostSeq(c.body) + CostClauses(m)
    ensures AllPrintable(c.body) && ClausesPrintable(m) ==> ClausesPrintable([c] + m)
  {
    hide AllPrintable, CostChoices, CostSeq;
  }

  lemma {:induction false} ElsifsCount(ts: Stream)
    requires ParseElsifs(ts).errs == 0
    ensures Len(ts) >= CostClauses(ParseElsifs(ts).v) + Len(ParseElsifs(ts).rest) + One(!ClausesPrintable(ParseElsifs(ts).v))
    decreases Len(ts), 0
  {
    hide ParseExpr, Cost, ParseSeq, CostSeq, AllPrintable;
    if At(ts) == ELSIF {
      var c := ParseExpr(Adv(ts));
      var t := Expect(THEN, c.rest);
      var b := ParseSeq(ElseOrEnd, t.rest);
      ExprCount(Adv(ts));
      SeqCount(ElseOrEnd, t.rest);
      ElsifsCount(b.rest);
      OneChoice(c.v);
      ConsCost(Clause([c.v], b.v), ParseElsifs(b.rest).v);
    }
  }

  lemma {:induction false} OneChoice(x: Expr)
    ensures CostChoices([x]) == Cost(x)
  {
    assert [x][..0] == [];
  }

  lemma {:induction false} AltsCount(ts: Stream)
    requires ParseAlts(ts).errs == 0
    ensures Len(ts) >= CostClauses(ParseAlts(ts).v) + Len(ParseAlts(ts).rest) + One(!ClausesPrintable(ParseAlts(ts).v))
    decreases Len(ts), 0
  {
    hide ParseChoices, CostChoices, ParseSeq, CostSeq, AllPrintable;
    if At(ts) == WHEN {
      var c := ParseChoices(Adv(ts));
      var t := Expect(ARROW, c.rest);
      var b := ParseSeq(WhenOrEnd, t.rest);
      ChoicesCount(Adv(ts));
      SeqCount(WhenOrEnd, t.rest);
      AltsCount(b.rest);
      ConsCost(Clause(c.v, b.v), ParseAlts(b.rest).v);
    }
  }

  lemma {:induction false} IfCount(ts: Stream)
    requires At(ts) == IF && ParseIf(ts).errs == 0
    ensures Counted(ts, ParseIf(ts))
    decreases Len(ts), 0
  {
    hide ParseExpr, Cost, ParseSeq, CostSeq, AllPrintable, ClausesPrintable, CostClauses, ParseElsifs, ParseElse, CostElse, ParseEnd;
    var c := ParseExpr(Adv(ts));
    var t := Expect(THEN, c.rest);
    var b := ParseSeq(ElseOrEnd, t.rest);
    var es := ParseElsifs(b.rest);
    var e := ParseElse(es.rest);
    ExprCount(Adv(ts));
    SeqCount(ElseOrEnd, t.rest);
    ElsifsCount(b.rest);
    ElseCount(es.rest);
    EndCount(IF, e.rest);
  }

  lemma {:induction false} CaseCount(ts: Stream)
    requires At(ts) == CASE && ParseCase(ts).errs == 0
    ensures Counted(ts, ParseCase(ts))
    decreases Len(ts), 0
  {
    hide ParseExpr, Cost, ClausesPrintable, CostClauses, ParseAlts, ParseEnd;
    var c := ParseExpr(Adv(ts));
    var i := Expect(IS, c.rest);
    var a := ParseAlts(i.rest);
    ExprCount(Adv(ts));
    AltsCount(i.rest);
    EndCount(CASE, a.rest);
  }

  lemma {:induction false} LoopCount(ts: Stream)
    requires (At(ts) == FOR || At(ts) == WHILE || At(ts) == LOOP) && ParseLoop(ts).errs == 0
    ensures Counted(ts, ParseLoop(ts))
    decreases Len(ts), 0
  {
    hide ParseSeq, CostSeq, AllPrintable, ParseScheme, CostScheme, ParseEnd;
    var h := ParseScheme(ts);
    var l := Expect(LOOP, h.rest);
    var b := ParseSeq(OnlyEnd, l.rest);
    SchemeCount(ts);
    SeqCount(OnlyEnd, l.rest);
    EndCount(LOOP, b.rest);
  }

  // ==== tools/socgen/vhdl: the round trip of every sequential statement that parses.

  /** The statement parsed from ts, when there is one. */
  function Parsed(ts: Stream): Stmt { StmtOf(ParseStmt(ts)) }

  /** Parsing what is printed for s, at any indentation and in front of any text, gives s. */
  ghost predicate PrintsBack(s: Stmt) {
    forall indent: string, r: Text :: ParseStmt(Tokens(PrintStmt(s, indent, r))) == R(Some(s), Tokens(r), 0)
  }

  /** Printing a statement that parsed without error and parsing the print gives the merged statement. */
  lemma {:induction false} StmtPrintThenParse(ts: Stream, indent: string, r: Text)
    requires Clean(ts, false) && ParseStmt(ts).errs == 0 && Printable(Parsed(ts))
    ensures ParseStmt(Tokens(PrintStmt(Parsed(ts), indent, r))) == R(Some(MergeStmt(Parsed(ts))), Tokens(r), NO_ERRORS)
  {
    hide *;
    var s := Parsed(ts);
    ParsedIs(ts);
    StmtSound(ts, false);
    StmtOk(s);
    StmtRun(MergeStmt(s), Tokens(r));
    StmtAlike(s, Tokens(r));
    StmtTokens(s, indent, r);
  }

  lemma {:induction false} ParsedIs(ts: Stream)
    requires ParseStmt(ts).errs == 0
    ensures ParseStmt(ts).v == Some(Parsed(ts)) && StmtOf(ParseStmt(ts)) == Parsed(ts)
  {
    hide ParseStmt;
  }

  /** A statement that comes back was read with no token to spare. */
  lemma {:induction false} BackIsPrintable(s: Stmt, r: Stream)
    requires ParseStmt(StmtAhead(s, r)) == R(Some(s), r, NO_ERRORS)
    ensures Printable(s)
  {
    hide ParseStmt, StmtAhead, Printable, CostStmt;
    StmtCount(StmtAhead(s, r));
    StmtLen(s, r);
  }

  /** A statement that parsed without error comes back from print exactly when it is one of the strict grammar. */
  lemma {:induction false} StmtRoundTripExact(ts: Stream, indent: string, r: Text)
    requires Clean(ts, false) && ParseStmt(ts).errs == 0
    ensures ParseStmt(Tokens(PrintStmt(Parsed(ts), indent, r))) == R(Some(Parsed(ts)), Tokens(r), NO_ERRORS) <==> IsStmt(Parsed(ts), true)
  {
    hide *;
    var s := Parsed(ts);
    StmtTokens(s, indent, r);
    if IsStmt(s, true) { StmtRun(s, Tokens(r)); }
    if ParseStmt(StmtAhead(s, Tokens(r))) == R(Some(s), Tokens(r), NO_ERRORS) {
      BackIsPrintable(s, Tokens(r));
      StmtPrintThenParse(ts, indent, r);
      ParsedIs(ts);
      StmtSound(ts, false);
      StmtOk(s);
    }
  }

  /** When no two dots stand in a row, exactly when every name has a spelled first token and no call without arguments is
      made on more than a plain name. */
  lemma {:induction false} StmtRoundTrip(ts: Stream)
    requires Clean(ts, true) && ParseStmt(ts).errs == 0
    ensures PrintsBack(Parsed(ts)) <==> Printable(Parsed(ts))
  {
    hide ParseStmt, Clean, Printable, IsStmt, Tokens, PrintStmt;
    CleanLoose(ts, true);
    ParsedIs(ts);
    if Printable(Parsed(ts)) {
      StmtSound(ts, true);
      forall indent: string, r: Text ensures ParseStmt(Tokens(PrintStmt(Parsed(ts), indent, r))) == R(Some(Parsed(ts)), Tokens(r), 0) {
        StmtRoundTripExact(ts, indent, r);
      }
    }
    if PrintsBack(Parsed(ts)) {
      StmtTokens(Parsed(ts), "", Empty);
      assert ParseStmt(Tokens(PrintStmt(Parsed(ts), "", Empty))) == R(Some(Parsed(ts)), Tokens(Empty), 0);
      BackIsPrintable(Parsed(ts), Tokens(Empty));
    }
  }

  /** A statement list, up to the keyword that ends it. */
  lemma {:induction false} SeqRoundTrip(stops: Stops, ts: Stream, indent: string, r: Text)
    requires Clean(ts, true) && ParseSeq(stops, ts).errs == 0 && AllPrintable(ParseSeq(stops, ts).v)
    requires IsStop(stops, At(Tokens(r))) || At(Tokens(r)) == EOF
    ensures ParseSeq(stops, Tokens(PrintSeq(ParseSeq(stops, ts).v, indent, r))) == R(ParseSeq(stops, ts).v, Tokens(r), NO_ERRORS)
  {
    hide *;
    SeqSound(stops, ts, true);
    SeqRun(stops, ParseSeq(stops, ts).v, Tokens(r));
    SeqTokens(ParseSeq(stops, ts).v, indent, r);
  }

  /** An empty else part is read like none. */
  lemma {:induction false} EmptyElse(c: Expr, t: seq<Stmt>, es: seq<Clause>, r: Stream)
    requires IsForm(IfStmt(c, t, es, NoElse), true)
    ensures ParseForm(FormAhead(IfStmt(c, t, es, Else([])), r)) == R(Some(IfStmt(c, t, es, NoElse)), r, NO_ERRORS)
  {
    hide ParseForm, ParseSeq, SeqAhead, IsSeq, ParseExpr, ExprAhead, Full, ParseElsifs, ElsifsAhead, ParseElse, ParseEnd, EndAhead, IsStop, IsClause, ParseIf;
    var z := EndAhead(IF, r);
    var l := Tok(ELSE, z);
    var b := SeqAhead(t, ElsifsAhead(es, l));
    NoneAhead(z);
    EndRun(IF, r);
    NoElseRun(z);
    ElsifsRun(es, l);
    SeqRun(ElseOrEnd, t, ElsifsAhead(es, l));
    ThenRun(c, b);
    IfStep(ExprAhead(c, Tok(THEN, b)), c, b, t, ElsifsAhead(es, l), es, l, NoElse, z, r);
    BlockAt(Tok(IF, ExprAhead(c, Tok(THEN, b))));
  }

  lemma {:induction false} NoneAhead(z: Stream)
    ensures ElseAhead(Else([]), z) == Tok(ELSE, z)
  {
  }

  lemma {:induction false} NoElseRun(z: Stream)
    requires At(z) == END
    ensures ParseElse(Tok(ELSE, z)) == R(NoElse, z, NO_ERRORS)
  {
  }

  // ---- The statements that do not come back ----

  /** A call of a call, such as f(a)(), is read as a procedure call without arguments, printed as f(a), and read again as a
      call of f. */
  lemma {:induction false} BareCallFails(n: Expr, r: Stream)
    requires n.Call? && IsChain(n, true) && IsTarget(n, true) && n.args != []
    ensures var s := Stmt(None, ProcCall(n, []));
            ParseStmt(ExprAhead(Call(n, []), Tok(SEMICOLON, r))) == R(Some(s), r, NO_ERRORS) &&
            ParseStmt(StmtAhead(s, r)) == R(Some(Stmt(None, ProcCall(n.fun, n.args))), r, NO_ERRORS) && !Printable(s)
  {
    hide ParseStmt, ParseName, ParseNamed, ExprAhead, Merge, IsChain, IsAssoc, StmtAhead, IsName, HeadOf;
    var s := Stmt(None, ProcCall(n.fun, n.args));
    CallParts(n);
    NameBreakRun(Call(n, []), Tok(SEMICOLON, r));
    ChainFixed(n);
    BareCallRead(n, ExprAhead(Call(n, []), Tok(SEMICOLON, r)), r);
    CallStarts(Call(n, []), [], Tok(SEMICOLON, r));
    NamedStmt(ExprAhead(Call(n, []), Tok(SEMICOLON, r)));
    StmtRun(s, r);
    SamePrint(n, r);
  }

  lemma {:induction false} CallParts(n: Expr)
    requires n.Call? && IsChain(n, true) && IsTarget(n, true)
    ensures IsChain(Call(n, []), true) && IsName(Call(n, []), true) && HeadOf(Call(n, [])) == HeadOf(n) == HeadOf(n.fun)
    ensures IsChain(n.fun, true) && IsTarget(n.fun, true) && AllAssocs(n.args, true)
  {
    hide IsAssoc, IsFlat;
  }

  lemma {:induction false} BareCallRead(n: Expr, ts: Stream, r: Stream)
    requires ParseName(ts) == R(Call(n, []), Tok(SEMICOLON, r), NO_ERRORS) && Merge(n) == n
    ensures ParseNamed(ts) == R(Some(ProcCall(n, [])), r, NO_ERRORS)
  {
    hide ParseName, Merge, ParseDelay, ParseWaves, ParseExpr;
  }

  lemma {:induction false} NamedStmt(ts: Stream)
    requires !StartsStmt(At(ts)) && Peek(ts) != COLON && ParseNamed(ts).v.Some?
    ensures ParseStmt(ts) == R(Some(Stmt(None, FormOf(ParseNamed(ts)))), ParseNamed(ts).rest, ParseNamed(ts).errs)
  {
    hide ParseForm, ParseNamed, StartsStmt;
    NamedAt(ts);
  }

  lemma {:induction false} SamePrint(n: Expr, r: Stream)
    requires n.Call? && n.args != []
    ensures StmtAhead(Stmt(None, ProcCall(n, [])), r) == StmtAhead(Stmt(None, ProcCall(n.fun, n.args)), r)
  {
    hide ExprAhead;
    assert n == Call(n.fun, n.args);
  }

  /** A target that is a delimiter is read without an error and is not printed: ( := x; does not come back. */
  lemma {:induction false} DelimiterTargetFails(k: Kind, v: Expr, r: Stream)
    requires IsDelimiter(k) && Full(v, true)
    ensures var s := Stmt(None, VarAssign(Ident([]), v));
            ParseStmt(Tok(k, Tok(ASSIGN, ExprAhead(v, Tok(SEMICOLON, r))))) == R(Some(s), r, NO_ERRORS) && !Printable(s)
  {
    hide ParseStmt, ParseName, ParseNamed, ParseExpr, ExprAhead, Full, StartsStmt, IsDelimiter;
    var t := Tok(ASSIGN, ExprAhead(v, Tok(SEMICOLON, r)));
    DelimiterStarts(k);
    EmptyName(k, t);
    BreakRun(v, Tok(SEMICOLON, r));
    EmptyAssign(k, t, v, r);
    NamedStmt(Tok(k, t));
  }

  lemma {:induction false} DelimiterStarts(k: Kind)
    requires IsDelimiter(k)
    ensures !StartsStmt(k) && KindToken(k).lit == "" && k != IDENT
  {
  }

  lemma {:induction false} EmptyName(k: Kind, t: Stream)
    requires At(t) == ASSIGN && KindToken(k).lit == ""
    ensures ParseName(Tok(k, t)) == R(Ident([]), t, NO_ERRORS)
  {
    hide KindToken;
  }

  lemma {:induction false} EmptyAssign(k: Kind, t: Stream, v: Expr, r: Stream)
    requires At(t) == ASSIGN && ParseName(Tok(k, t)) == R(Ident([]), t, NO_ERRORS) && ParseExpr(Adv(t)) == R(v, Tok(SEMICOLON, r), NO_ERRORS)
    ensures ParseNamed(Tok(k, t)) == R(Some(VarAssign(Ident([]), v)), r, NO_ERRORS)
  {
    hide ParseName, ParseExpr;
  }
}
