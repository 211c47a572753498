// tools/socgen/vhdl: token kinds, the expression and statement trees, the printer, and the parser as functions on the tokens still to be
// read.

module VhdlGrammar {
  import opened Common

  /** token.go: kinds are numbers, in the order of that file. OTHERWORD stands for the reserved words that play no part in expressions
      and sequential statements; a token has its word. */
  type Kind = int

  const ILLEGAL: Kind := 0
  const EOF: Kind := 1
  const COMMENT: Kind := 2
  const IDENT: Kind := 3
  const EXTIDENT: Kind := 4
  const INT: Kind := 5
  const REAL: Kind := 6
  const BASEDLIT: Kind := 7
  const CHARLIT: Kind := 8
  const STRINGLIT: Kind := 9
  const BITSTRINGLIT: Kind := 10
  const LPAREN: Kind := 11
  const RPAREN: Kind := 12
  const LBRACKET: Kind := 13
  const RBRACKET: Kind := 14
  const COMMA: Kind := 15
  const SEMICOLON: Kind := 16
  const COLON: Kind := 17
  const ASSIGN: Kind := 18
  const ARROW: Kind := 19
  const LE: Kind := 20
  const GE: Kind := 21
  const NE: Kind := 22
  const LT: Kind := 23
  const GT: Kind := 24
  const EQ: Kind := 25
  const PLUS: Kind := 26
  const MINUS: Kind := 27
  const STAR: Kind := 28
  const SLASH: Kind := 29
  const EXP: Kind := 30
  const AMP: Kind := 31
  const BAR: Kind := 32
  const DOT: Kind := 33
  const TICK: Kind := 34
  const BOX: Kind := 35
  const ABS: Kind := 36
  const AFTER: Kind := 37
  const ALL: Kind := 38
  const AND: Kind := 39
  const ASSERT: Kind := 40
  const CASE: Kind := 41
  const DOWNTO: Kind := 42
  const ELSE: Kind := 43
  const ELSIF: Kind := 44
  const END: Kind := 45
  const EXIT: Kind := 46
  const FOR: Kind := 47
  const IF: Kind := 48
  const IN: Kind := 49
  const INERTIAL: Kind := 50
  const IS: Kind := 51
  const LOOP: Kind := 52
  const MOD: Kind := 53
  const NAND: Kind := 54
  const NEXT: Kind := 55
  const NOR: Kind := 56
  const NOT: Kind := 57
  const NULL: Kind := 58
  const ON: Kind := 59
  const OPEN: Kind := 60
  const OR: Kind := 61
  const OTHERS: Kind := 62
  const RANGE: Kind := 63
  const REJECT: Kind := 64
  const REM: Kind := 65
  const REPORT: Kind := 66
  const RETURN: Kind := 67
  const ROL: Kind := 68
  const ROR: Kind := 69
  const SEVERITY: Kind := 70
  const SLA: Kind := 71
  const SLL: Kind := 72
  const SRA: Kind := 73
  const SRL: Kind := 74
  const THEN: Kind := 75
  const TO: Kind := 76
  const TRANSPORT: Kind := 77
  const UNTIL: Kind := 78
  const WAIT: Kind := 79
  const WHEN: Kind := 80
  const WHILE: Kind := 81
  const XNOR: Kind := 82
  const XOR: Kind := 83
  const OTHERWORD: Kind := 84

  predicate IsLiteralKind(k: Kind) { INT <= k <= BITSTRINGLIT }

  predicate IsNumber(k: Kind) { INT <= k <= BASEDLIT }

  predicate IsDelimiter(k: Kind) { LPAREN <= k <= BOX }

  predicate IsKeyword(k: Kind) { ABS <= k <= OTHERWORD }

  /** Kind.String for keywords. */
  function WordOf(k: Kind): string {
    if k == ABS then "abs" else if k == AFTER then "after" else if k == ALL then "all" else if k == AND then "and" else
    if k == ASSERT then "assert" else if k == CASE then "case" else if k == DOWNTO then "downto" else if k == ELSE then "else" else
    if k == ELSIF then "elsif" else if k == END then "end" else if k == EXIT then "exit" else if k == FOR then "for" else if k == IF then "if" else
    if k == IN then "in" else if k == INERTIAL then "inertial" else if k == IS then "is" else if k == LOOP then "loop" else
    if k == MOD then "mod" else if k == NAND then "nand" else if k == NEXT then "next" else if k == NOR then "nor" else if k == NOT then "not" else
    if k == NULL then "null" else if k == ON then "on" else if k == OPEN then "open" else if k == OR then "or" else if k == OTHERS then "others" else
    if k == RANGE then "range" else if k == REJECT then "reject" else if k == REM then "rem" else if k == REPORT then "report" else
    if k == RETURN then "return" else if k == ROL then "rol" else if k == ROR then "ror" else if k == SEVERITY then "severity" else
    if k == SLA then "sla" else if k == SLL then "sll" else if k == SRA then "sra" else if k == SRL then "srl" else if k == THEN then "then" else
    if k == TO then "to" else if k == TRANSPORT then "transport" else if k == UNTIL then "until" else if k == WAIT then "wait" else
    if k == WHEN then "when" else if k == WHILE then "while" else if k == XNOR then "xnor" else if k == XOR then "xor" else ""
  }

  /** Kind.String for delimiters. */
  function SymbolOf(k: Kind): string {
    if k == LPAREN then "(" else if k == RPAREN then ")" else if k == LBRACKET then "[" else if k == RBRACKET then "]" else
    if k == COMMA then "," else if k == SEMICOLON then ";" else if k == COLON then ":" else if k == ASSIGN then ":=" else
    if k == ARROW then "=>" else if k == LE then "<=" else if k == GE then ">=" else if k == NE then "/=" else if k == LT then "<" else
    if k == GT then ">" else if k == EQ then "=" else if k == PLUS then "+" else if k == MINUS then "-" else if k == STAR then "*" else
    if k == SLASH then "/" else if k == EXP then "**" else if k == AMP then "&" else if k == BAR then "|" else if k == DOT then "." else
    if k == TICK then "'" else if k == BOX then "<>" else ""
  }

  /** Positions are not modelled. Delimiters carry no text of their own. */
  datatype Token = Token(kind: Kind, lit: string)

  /** The token that printing a kind gives: words carry their lower-case spelling. */
  function KindToken(k: Kind): Token { Token(k, WordOf(k)) }

  // ---- Trees ----

  /** The flat text of an Ident is kept as the tokens it was joined from. A formal and a procedure's name, which the source
      keeps as rendered text, are kept as the merged tree of that text (see Merge). */
  datatype Expr =
    | BasicLit(tok: Token)
    | PhysicalLit(value: Token, unit: Token)
    | Ident(name: seq<Token>)
    | Range(left: Expr, dir: Kind, right: Expr)
    | Binary(x: Expr, op: Kind, y: Expr)
    | Unary(uop: Kind, operand: Expr)
    | Call(fun: Expr, args: seq<Assoc>)
    | Selector(of: Expr, sel: Token)
    | AttrName(of: Expr, attr: Token)
    | Paren(inner: Expr)
    | Aggregate(elems: seq<Elem>)
    | Qualified(mark: Expr, inner: Expr)

  datatype Assoc = Assoc(formal: Option<Expr>, actual: Expr)

  datatype Elem = Elem(choices: seq<Expr>, value: Expr)             // no choices for a positional element

  datatype Wave = Wave(value: Expr, after: Option<Expr>)

  datatype Delay = NoDelay | Transport | Inertial | Reject(limit: Expr)

  datatype Scheme = Bare | While(cond: Expr) | For(param: Token, range: Expr, ofMark: Option<Expr>)

  datatype Clause = Clause(guards: seq<Expr>, body: seq<Stmt>)       // elsif condition, or the choices of a case alternative

  datatype Tail = NoElse | Else(body: seq<Stmt>)

  datatype Stmt = Stmt(lbl: Option<Token>, form: Form)

  datatype Form =
    | NullStmt
    | IfStmt(cond: Expr, thn: seq<Stmt>, elsifs: seq<Clause>, els: Tail)
    | CaseStmt(subject: Expr, alts: seq<Clause>)
    | LoopStmt(scheme: Scheme, body: seq<Stmt>)
    | NextStmt(loopLabel: Option<Token>, when: Option<Expr>)
    | ExitStmt(loopLabel: Option<Token>, when: Option<Expr>)
    | ReturnStmt(result: Option<Expr>)
    | AssertStmt(claim: Expr, message: Option<Expr>, severity: Option<Expr>)
    | ReportStmt(text: Expr, severity: Option<Expr>)
    | WaitStmt(on: seq<Expr>, until: Option<Expr>, timeout: Option<Expr>)
    | SignalAssign(target: Expr, delay: Delay, waveform: seq<Wave>)
    | VarAssign(target: Expr, value: Expr)
    | ProcCall(name: Expr, args: seq<Assoc>)

  // ---- The printer: each function gives its pieces in front of those printed after them ----

  /** Printed text as pieces: a token's spelling, or white space. */
  datatype Text = Empty | T(tok: Token, more: Text) | W(space: string, more: Text)

  /** A token printed by its kind. */
  function K(k: Kind, r: Text): Text { T(KindToken(k), r) }

  function Sp(r: Text): Text { W(" ", r) }

  /** The same with a space on both sides. */
  function Spaced(k: Kind, r: Text): Text { Sp(K(k, Sp(r))) }

  /** A name is printed as one run of characters. */
  function PrintName(s: seq<Token>, r: Text): Text {
    if s == [] then r else T(s[0], PrintName(s[1..], r))
  }

  function PrintExpr(e: Expr, r: Text): Text
    decreases e, 0
  {
    match e
    case BasicLit(t) => T(t, r)
    case PhysicalLit(v, u) => T(v, Sp(T(u, r)))
    case Ident(name) => PrintName(name, r)
    case Range(l, d, h) => PrintExpr(l, Spaced(d, PrintExpr(h, r)))
    case Binary(x, op, y) => PrintExpr(x, Spaced(op, PrintExpr(y, r)))
    case Unary(op, x) => K(op, Sp(PrintExpr(x, r)))
    case Call(f, args) => PrintExpr(f, K(LPAREN, PrintAssocs(args, K(RPAREN, r))))
    case Selector(x, s) => PrintExpr(x, K(DOT, T(s, r)))
    case AttrName(x, a) => PrintExpr(x, K(TICK, T(a, r)))
    case Paren(x) => K(LPAREN, PrintExpr(x, K(RPAREN, r)))
    case Aggregate(es) => K(LPAREN, PrintElems(es, K(RPAREN, r)))
    case Qualified(m, x) => PrintExpr(m, K(TICK, PrintExpr(x, r)))
  }

  /** printAssocList: every association but the first is led by a comma. */
  function PrintAssocs(args: seq<Assoc>, r: Text): Text
    decreases args, 1
  {
    if args == [] then r else PrintAssoc(args[0], PrintMoreAssocs(args[1..], r))
  }

  function PrintMoreAssocs(args: seq<Assoc>, r: Text): Text
    decreases args, 1
  {
    if args == [] then r else K(COMMA, Sp(PrintAssoc(args[0], PrintMoreAssocs(args[1..], r))))
  }

  function PrintAssoc(a: Assoc, r: Text): Text
    decreases a, 0
  {
    if a.formal.None? then PrintExpr(a.actual, r) else PrintExpr(a.formal.value, Spaced(ARROW, PrintExpr(a.actual, r)))
  }

  function PrintElems(es: seq<Elem>, r: Text): Text
    decreases es, 1
  {
    if es == [] then r else PrintElem(es[0], PrintMoreElems(es[1..], r))
  }

  function PrintMoreElems(es: seq<Elem>, r: Text): Text
    decreases es, 1
  {
    if es == [] then r else K(COMMA, Sp(PrintElem(es[0], PrintMoreElems(es[1..], r))))
  }

  function PrintElem(e: Elem, r: Text): Text
    decreases e, 0
  {
    if e.choices == [] then PrintExpr(e.value, r) else PrintChoices(e.choices, Spaced(ARROW, PrintExpr(e.value, r)))
  }

  function PrintChoices(cs: seq<Expr>, r: Text): Text
    decreases cs, 1
  {
    if cs == [] then r else PrintExpr(cs[0], PrintMoreChoices(cs[1..], r))
  }

  function PrintMoreChoices(cs: seq<Expr>, r: Text): Text
    decreases cs, 1
  {
    if cs == [] then r else Spaced(BAR, PrintExpr(cs[0], PrintMoreChoices(cs[1..], r)))
  }

  // ---- Trees that print alike ----

  predicate HasTick(name: seq<Token>) { exists i :: 0 <= i < |name| && name[i].kind == TICK }

  /** A selector directly on a plain dotted name prints like a longer dotted name, and an attribute on a name like an
      attribute inside it. Merge builds the flat names. */
  function Merge(e: Expr): Expr {
    match e
    case BasicLit(_) | PhysicalLit(_, _) | Ident(_) => e
    case Range(l, d, r) => Range(Merge(l), d, Merge(r))
    case Binary(x, op, y) => Binary(Merge(x), op, Merge(y))
    case Unary(op, x) => Unary(op, Merge(x))
    case Call(f, args) => Call(Merge(f), MergeAssocs(args))
    case Selector(x, s) =>
      var m := Merge(x);
      if m.Ident? && !HasTick(m.name) then Ident(m.name + [KindToken(DOT), s]) else Selector(m, s)
    case AttrName(x, a) =>
      var m := Merge(x);
      if m.Ident? then Ident(m.name + [KindToken(TICK), a]) else AttrName(m, a)
    case Paren(x) => Paren(Merge(x))
    case Aggregate(es) => Aggregate(MergeElems(es))
    case Qualified(m, x) => Qualified(Merge(m), Merge(x))
  }

  function MergeAssoc(a: Assoc): Assoc { Assoc(a.formal, Merge(a.actual)) }

  function MergeElem(e: Elem): Elem { Elem(MergeAll(e.choices), Merge(e.value)) }

  function MergeAssocs(args: seq<Assoc>): (r: seq<Assoc>)
    ensures |r| == |args|
  {
    if args == [] then [] else [MergeAssoc(args[0])] + MergeAssocs(args[1..])
  }

  function MergeElems(es: seq<Elem>): (r: seq<Elem>)
    ensures |r| == |es|
  {
    if es == [] then [] else [MergeElem(es[0])] + MergeElems(es[1..])
  }

  function MergeAll(es: seq<Expr>): (r: seq<Expr>)
    ensures |r| == |es|
  {
    if es == [] then [] else [Merge(es[0])] + MergeAll(es[1..])
  }

  // ---- Merging does not show in print ----

  lemma {:induction false} PrintNameTwo(s: seq<Token>, a: Token, b: Token, r: Text)
    ensures PrintName(s + [a, b], r) == PrintName(s, T(a, T(b, r)))
  {
    if s == [] {
      assert [] + [a, b] == [a, b] && [a, b][1..] == [b] && [b][1..] == [];
      assert PrintName([b], r) == T(b, r);
    } else {
      assert (s + [a, b])[1..] == s[1..] + [a, b];
      PrintNameTwo(s[1..], a, b, r);
    }
  }

  lemma {:induction false} PrintMerge(e: Expr, r: Text)
    ensures PrintExpr(Merge(e), r) == PrintExpr(e, r)
    decreases e
  {
    match e
    case BasicLit(_) | PhysicalLit(_, _) | Ident(_) =>
    case Range(l, d, h) => PrintMerge(h, r); PrintMerge(l, Spaced(d, PrintExpr(h, r)));
    case Binary(x, op, y) => PrintMerge(y, r); PrintMerge(x, Spaced(op, PrintExpr(y, r)));
    case Unary(_, x) => PrintMerge(x, r);
    case Call(f, args) => PrintMergeAssocs(args, K(RPAREN, r)); PrintMerge(f, K(LPAREN, PrintAssocs(args, K(RPAREN, r))));
    case Selector(x, s) =>
      PrintMerge(x, K(DOT, T(s, r)));
      if Merge(x).Ident? { PrintNameTwo(Merge(x).name, KindToken(DOT), s, r); }
    case AttrName(x, a) =>
      PrintMerge(x, K(TICK, T(a, r)));
      if Merge(x).Ident? { PrintNameTwo(Merge(x).name, KindToken(TICK), a, r); }
    case Paren(x) => PrintMerge(x, K(RPAREN, r));
    case Aggregate(es) => PrintMergeElems(es, K(RPAREN, r));
    case Qualified(m, x) => PrintMerge(x, r); PrintMerge(m, K(TICK, PrintExpr(x, r)));
  }

  lemma {:induction false} PrintMergeAssoc(a: Assoc, r: Text)
    ensures PrintAssoc(MergeAssoc(a), r) == PrintAssoc(a, r)
    decreases a
  {
    PrintMerge(a.actual, r);
  }

  lemma {:induction false} PrintMergeElem(e: Elem, r: Text)
    ensures PrintElem(MergeElem(e), r) == PrintElem(e, r)
    decreases e
  {
    PrintMerge(e.value, r);
    PrintMergeAll(e.choices, Spaced(ARROW, PrintExpr(e.value, r)));
  }

  lemma {:induction false} PrintMergeAssocs(args: seq<Assoc>, r: Text)
    ensures PrintAssocs(MergeAssocs(args), r) == PrintAssocs(args, r) && PrintMoreAssocs(MergeAssocs(args), r) == PrintMoreAssocs(args, r)
    decreases args
  {
    if args != [] {
      assert MergeAssocs(args)[1..] == MergeAssocs(args[1..]);
      PrintMergeAssocs(args[1..], r);
      PrintMergeAssoc(args[0], PrintMoreAssocs(args[1..], r));
    }
  }

  lemma {:induction false} PrintMergeElems(es: seq<Elem>, r: Text)
    ensures PrintElems(MergeElems(es), r) == PrintElems(es, r) && PrintMoreElems(MergeElems(es), r) == PrintMoreElems(es, r)
    decreases es
  {
    if es != [] {
      assert MergeElems(es)[1..] == MergeElems(es[1..]);
      PrintMergeElems(es[1..], r);
      PrintMergeElem(es[0], PrintMoreElems(es[1..], r));
    }
  }

  lemma {:induction false} PrintMergeAll(cs: seq<Expr>, r: Text)
    ensures PrintChoices(MergeAll(cs), r) == PrintChoices(cs, r) && PrintMoreChoices(MergeAll(cs), r) == PrintMoreChoices(cs, r)
    decreases cs
  {
    if cs != [] {
      assert MergeAll(cs)[1..] == MergeAll(cs[1..]);
      PrintMergeAll(cs[1..], r);
      PrintMerge(cs[0], PrintMoreChoices(cs[1..], r));
    }
  }

  // ==== tools/socgen/vhdl/parser.go: what the expression parser computes, as functions on the tokens still to be read.

  /** The tokens still to be read. The final EOF token is not stored: Done is at EOF and stays there. */
  datatype Stream = Done | More(head: Token, tail: Stream)

  /** The result of one parsing function: a tree, the tokens left, and the number of errors recorded. */
  datatype R<T> = R(v: T, rest: Stream, errs: nat)

  const NO_ERRORS: nat := 0

  function Len(ts: Stream): nat { if ts.Done? then 0 else 1 + Len(ts.tail) }

  // ---- The cursor ----

  function Cur(ts: Stream): Token { if ts.Done? then Token(EOF, "") else ts.head }

  function At(ts: Stream): Kind { Cur(ts).kind }

  function Peek(ts: Stream): Kind { At(Adv(ts)) }

  function Adv(ts: Stream): (r: Stream)
    ensures Len(r) <= Len(ts) && (ts.More? ==> Len(r) < Len(ts))
  {
    if ts.Done? then Done else ts.tail
  }

  function Expect(k: Kind, ts: Stream): (r: R<Token>)
    ensures Len(r.rest) <= Len(ts)
  {
    if At(ts) == k then R(Cur(ts), Adv(ts), 0) else R(Cur(ts), ts, 1)
  }

  // ---- The binary tiers: 1 logical, 2 relation, 3 shift, 4 adding, 5 multiplying ----

  function TierOf(k: Kind): nat {
    if k == AND || k == OR || k == NAND || k == NOR || k == XOR || k == XNOR then 1
    else if k == EQ || k == NE || k == LT || k == LE || k == GT || k == GE then 2
    else if k == SLL || k == SRL || k == SLA || k == SRA || k == ROL || k == ROR then 3
    else if k == PLUS || k == MINUS || k == AMP then 4
    else if k == STAR || k == SLASH || k == MOD || k == REM then 5
    else 0
  }

  predicate IsOp(tier: int, k: Kind) { tier >= 1 && TierOf(k) == tier }

  predicate IsSign(k: Kind) { k == PLUS || k == MINUS }

  predicate IsSegment(k: Kind) { k == IDENT || k == EXTIDENT || k == ALL }

  predicate IsAttr(k: Kind) { k == IDENT || k == EXTIDENT || IsKeyword(k) }

  predicate IsWordPrimary(k: Kind) { k == OTHERS || k == ALL || k == RANGE || k == NULL || k == OPEN }

  /** The text a name takes from a token: its spelling, or its kind's when it has none. */
  function Spelled(t: Token): Token { if t.lit == "" then Token(t.kind, if IsKeyword(t.kind) then WordOf(t.kind) else SymbolOf(t.kind)) else t }

  function Head(t: Token): seq<Token> { if t.lit == "" then [] else [t] }

  function ParseExpr(ts: Stream): (r: R<Expr>)
    ensures Len(r.rest) <= Len(ts)
    decreases Len(ts), 20
  {
    var l := ParseTier(1, ts);
    if At(l.rest) == TO || At(l.rest) == DOWNTO then
      var h := ParseTier(1, Adv(l.rest));
      R(Range(l.v, At(l.rest), h.v), h.rest, l.errs + h.errs)
    else l
  }

  function ParseTier(tier: int, ts: Stream): (r: R<Expr>)
    ensures Len(r.rest) <= Len(ts)
    decreases Len(ts), if tier <= 5 then 16 - 2 * tier else 6
  {
    if tier == 4 && IsSign(At(ts)) then
      var x := ParseTier(5, Adv(ts));
      FoldTier(4, Unary(At(ts), x.v), x.rest, x.errs)
    else
      var x := ParseOperand(tier, ts);
      FoldTier(tier, x.v, x.rest, x.errs)
  }

  /** The next tier up. */
  function ParseOperand(tier: int, ts: Stream): (r: R<Expr>)
    ensures Len(r.rest) <= Len(ts)
    decreases Len(ts), if tier <= 5 then 15 - 2 * tier else 5
  {
    if tier >= 5 then ParseFactor(ts) else ParseTier(tier + 1, ts)
  }

  /** The loop of a tier: operators of the tier fold to the left. */
  function FoldTier(tier: int, left: Expr, ts: Stream, errs: nat): (r: R<Expr>)
    ensures r.errs >= errs && Len(r.rest) <= Len(ts)
    decreases Len(ts), 0
  {
    if IsOp(tier, At(ts)) then
      var y := ParseOperand(tier, Adv(ts));
      FoldTier(tier, Binary(left, At(ts), y.v), y.rest, errs + y.errs)
    else R(left, ts, errs)
  }

  function ParseFactor(ts: Stream): (r: R<Expr>)
    ensures Len(r.rest) <= Len(ts)
    decreases Len(ts), 4
  {
    if At(ts) == ABS || At(ts) == NOT then
      var x := ParsePrimary(Adv(ts));
      R(Unary(At(ts), x.v), x.rest, x.errs)
    else
      var x := ParsePrimary(ts);
      if At(x.rest) == EXP then
        var y := ParsePrimary(Adv(x.rest));
        R(Binary(x.v, EXP, y.v), y.rest, x.errs + y.errs)
      else x
  }

  function ParsePrimary(ts: Stream): (r: R<Expr>)
    ensures Len(r.rest) <= Len(ts)
    decreases Len(ts), 3
  {
    var t := Cur(ts);
    if IsNumber(t.kind) then
      if At(Adv(ts)) == IDENT then R(PhysicalLit(t, Cur(Adv(ts))), Adv(Adv(ts)), 0) else R(BasicLit(t), Adv(ts), 0)
    else if IsLiteralKind(t.kind) then R(BasicLit(t), Adv(ts), 0)
    else if t.kind == LPAREN then ParseParen(ts)
    else if t.kind == IDENT || t.kind == EXTIDENT then ParseName(ts)
    else if IsWordPrimary(t.kind) then R(Ident([KindToken(t.kind)]), Adv(ts), 0)
    else R(BasicLit(Token(t.kind, "")), ts, 1)
  }

  /** parseParenOrAggregate. */
  function ParseParen(ts: Stream): (r: R<Expr>)
    ensures Len(r.rest) <= Len(ts) && (ts.More? ==> Len(r.rest) < Len(ts))
    decreases Len(ts), 1
  {
    if ts.Done? then R(Aggregate([]), ts, 1)
    else
      var es := ParseElems(Adv(ts));
      var c := Expect(RPAREN, es.rest);
      R(if |es.v| == 1 && es.v[0].choices == [] then Paren(es.v[0].value) else Aggregate(es.v), c.rest, es.errs + c.errs)
  }

  function ParseElems(ts: Stream): (r: R<seq<Elem>>)
    ensures Len(r.rest) <= Len(ts)
    decreases Len(ts), 22
  {
    if At(ts) == RPAREN then R([], ts, 0) else var e := ParseElem(ts); MoreElems([e.v], e.rest, e.errs)
  }

  /** The loop over the remaining elements; a trailing comma is tolerated. */
  function MoreElems(acc: seq<Elem>, ts: Stream, errs: nat): (r: R<seq<Elem>>)
    ensures r.errs >= errs && Len(r.rest) <= Len(ts)
    decreases Len(ts), 0
  {
    if At(ts) != COMMA then R(acc, ts, errs)
    else if At(Adv(ts)) == RPAREN then R(acc, Adv(ts), errs)
    else
      var e := ParseElem(Adv(ts));
      MoreElems(acc + [e.v], e.rest, errs + e.errs)
  }

  function ParseElem(ts: Stream): (r: R<Elem>)
    ensures Len(r.rest) <= Len(ts)
    decreases Len(ts), 21
  {
    var x := ParseExpr(ts);
    if At(x.rest) == BAR || At(x.rest) == ARROW then
      var cs := MoreChoices([x.v], x.rest, x.errs);
      var a := Expect(ARROW, cs.rest);
      var y := ParseExpr(a.rest);
      R(Elem(cs.v, y.v), y.rest, cs.errs + a.errs + y.errs)
    else R(Elem([], x.v), x.rest, x.errs)
  }

  function MoreChoices(acc: seq<Expr>, ts: Stream, errs: nat): (r: R<seq<Expr>>)
    ensures acc <= r.v && r.errs >= errs && Len(r.rest) <= Len(ts) && (At(ts) == BAR ==> Len(r.rest) < Len(ts))
    decreases Len(ts), 0
  {
    if At(ts) != BAR then R(acc, ts, errs)
    else
      var x := ParseExpr(Adv(ts));
      MoreChoices(acc + [x.v], x.rest, errs + x.errs)
  }

  // ---- Names ----

  /** Dotted segments after a name's head. A dot without a segment behind it is read and dropped. */
  function Dots(name: seq<Token>, ts: Stream): (r: (seq<Token>, Stream))
    ensures Len(r.1) <= Len(ts)
    decreases Len(ts)
  {
    if At(ts) != DOT then (name, ts)
    else if IsSegment(At(Adv(ts))) then Dots(name + [KindToken(DOT), Spelled(Cur(Adv(ts)))], Adv(Adv(ts)))
    else (name, Adv(ts))
  }

  function Ticks(name: seq<Token>, ts: Stream): (r: (seq<Token>, Stream))
    ensures Len(r.1) <= Len(ts)
    decreases Len(ts)
  {
    if At(ts) == TICK && IsAttr(Peek(ts)) then Ticks(name + [KindToken(TICK), Spelled(Cur(Adv(ts)))], Adv(Adv(ts)))
    else (name, ts)
  }

  function FlatName(name: seq<Token>, ts: Stream): (r: (seq<Token>, Stream))
    ensures Len(r.1) <= Len(ts)
  {
    var d := Dots(name, ts);
    Ticks(d.0, d.1)
  }

  function ParseName(ts: Stream): (r: R<Expr>)
    ensures Len(r.rest) <= Len(ts) && (ts != Done ==> Len(r.rest) < Len(ts))
    decreases Len(ts), 2
  {
    var n := FlatName(Head(Cur(ts)), Adv(ts));
    var name := Ident(n.0);
    if At(n.1) == TICK && Peek(n.1) == LPAREN then
      var x := ParseParen(Adv(n.1));
      R(Qualified(name, x.v), x.rest, x.errs)
    else Suffixes(name, n.1, 0)
  }

  /** Call, selector and attribute suffixes. */
  function Suffixes(e: Expr, ts: Stream, errs: nat): (r: R<Expr>)
    ensures r.errs >= errs && Len(r.rest) <= Len(ts)
    decreases Len(ts), 1
  {
    if At(ts) == LPAREN then
      var t := Adv(ts);
      var args := ParseArgs(t);
      var c := Expect(RPAREN, args.rest);
      Suffixes(Call(e, args.v), c.rest, errs + args.errs + c.errs)
    else if At(ts) == DOT && IsSegment(Peek(ts)) then
      Suffixes(Selector(e, Spelled(Cur(Adv(ts)))), Adv(Adv(ts)), errs)
    else if At(ts) == TICK && IsAttr(Peek(ts)) then
      Suffixes(AttrName(e, Spelled(Cur(Adv(ts)))), Adv(Adv(ts)), errs)
    else R(e, ts, errs)
  }

  function ParseArgs(ts: Stream): (r: R<seq<Assoc>>)
    ensures Len(r.rest) <= Len(ts)
    decreases Len(ts), 22
  {
    if At(ts) == RPAREN then R([], ts, 0) else var a := ParseAssoc(ts); MoreAssocs([a.v], a.rest, a.errs)
  }

  function MoreAssocs(acc: seq<Assoc>, ts: Stream, errs: nat): (r: R<seq<Assoc>>)
    ensures r.errs >= errs && Len(r.rest) <= Len(ts)
    decreases Len(ts), 0
  {
    if At(ts) != COMMA then R(acc, ts, errs)
    else
      var a := ParseAssoc(Adv(ts));
      MoreAssocs(acc + [a.v], a.rest, errs + a.errs)
  }

  /** A formal is kept as its rendered text, that is, as the merged tree. */
  function ParseAssoc(ts: Stream): (r: R<Assoc>)
    ensures Len(r.rest) <= Len(ts)
    decreases Len(ts), 21
  {
    var x := ParseExpr(ts);
    if At(x.rest) == ARROW then
      var y := ParseExpr(Adv(x.rest));
      R(Assoc(Some(Merge(x.v)), y.v), y.rest, x.errs + y.errs)
    else R(Assoc(None, x.v), x.rest, x.errs)
  }

  // ==== tools/socgen/vhdl/parser.go: what the sequential-statement parser computes.

  /** Where a statement list ends: the keyword sets parseSeqStmtsUntil is called with. */
  datatype Stops = ElseOrEnd | OnlyEnd | WhenOrEnd

  predicate IsStop(s: Stops, k: Kind) {
    k == END || (s == ElseOrEnd && (k == ELSIF || k == ELSE)) || (s == WhenOrEnd && k == WHEN)
  }

  /** An optional expression led by a keyword. */
  function ParseOpt(k: Kind, ts: Stream): (r: R<Option<Expr>>)
    ensures Len(r.rest) <= Len(ts)
  {
    if At(ts) == k then var x := ParseExpr(Adv(ts)); R(Some(x.v), x.rest, x.errs) else R(None, ts, 0)
  }

  /** An optional identifier, such as a closing label. */
  function ParseLabel(ts: Stream): (r: R<Option<Token>>)
    ensures Len(r.rest) <= Len(ts)
  {
    if At(ts) == IDENT then R(Some(Cur(ts)), Adv(ts), 0) else R(None, ts, 0)
  }

  /** end <keyword> [label] ; */
  function ParseEnd(k: Kind, ts: Stream): (r: R<()>)
    ensures Len(r.rest) <= Len(ts) && (r.errs == 0 ==> Len(r.rest) < Len(ts))
  {
    var e := Expect(END, ts);
    var f := Expect(k, e.rest);
    var s := Expect(SEMICOLON, ParseLabel(f.rest).rest);
    R((), s.rest, e.errs + f.errs + s.errs)
  }

  /** The part of a result before the semicolon that ends the statement. */
  function Ended<S>(v: S, ts: Stream, errs: nat): (r: R<S>)
    ensures r.errs >= errs && Len(r.rest) <= Len(ts) && (r.errs == 0 ==> Len(r.rest) < Len(ts))
  {
    var s := Expect(SEMICOLON, ts);
    R(v, s.rest, errs + s.errs)
  }

  function ParseDelay(ts: Stream): (r: R<Delay>)
    ensures Len(r.rest) <= Len(ts)
  {
    if At(ts) == TRANSPORT then R(Transport, Adv(ts), 0)
    else if At(ts) == REJECT then
      var x := ParseExpr(Adv(ts));
      var i := Expect(INERTIAL, x.rest);
      R(Reject(x.v), i.rest, x.errs + i.errs)
    else if At(ts) == INERTIAL then R(Inertial, Adv(ts), 0)
    else R(NoDelay, ts, 0)
  }

  function ParseWave(ts: Stream): (r: R<Wave>)
    ensures Len(r.rest) <= Len(ts)
  {
    var x := ParseExpr(ts);
    var a := ParseOpt(AFTER, x.rest);
    R(Wave(x.v, a.v), a.rest, x.errs + a.errs)
  }

  function ParseWaves(ts: Stream): (r: R<seq<Wave>>)
    ensures Len(r.rest) <= Len(ts)
  {
    var w := ParseWave(ts);
    MoreWaves([w.v], w.rest, w.errs)
  }

  function MoreWaves(acc: seq<Wave>, ts: Stream, errs: nat): (r: R<seq<Wave>>)
    ensures acc <= r.v && r.errs >= errs && Len(r.rest) <= Len(ts)
    decreases Len(ts)
  {
    if At(ts) != COMMA then R(acc, ts, errs)
    else
      var w := ParseWave(Adv(ts));
      MoreWaves(acc + [w.v], w.rest, errs + w.errs)
  }

  /** parseChoices. */
  function ParseChoices(ts: Stream): (r: R<seq<Expr>>)
    ensures Len(r.rest) <= Len(ts)
  {
    var x := ParseExpr(ts);
    MoreChoices([x.v], x.rest, x.errs)
  }

  /** The header of a loop, up to the keyword loop. */
  function ParseScheme(ts: Stream): (r: R<Scheme>)
    ensures Len(r.rest) <= Len(ts) && (At(ts) == FOR || At(ts) == WHILE ==> Len(r.rest) < Len(ts))
  {
    if At(ts) == FOR then ParseFor(Adv(ts))
    else if At(ts) == WHILE then var x := ParseExpr(Adv(ts)); R(While(x.v), x.rest, x.errs)
    else R(Bare, ts, 0)
  }

  /** A discrete range may carry a type mark. */
  function ParseFor(ts: Stream): (r: R<Scheme>)
    ensures Len(r.rest) <= Len(ts)
  {
    var p := Expect(IDENT, ts);
    var i := Expect(IN, p.rest);
    var x := ParseExpr(i.rest);
    var m := ParseOpt(RANGE, x.rest);
    R(For(p.v, m.v.GetOr(x.v), if m.v.Some? then Some(x.v) else None), m.rest, p.errs + i.errs + x.errs + m.errs)
  }

  /** The names behind wait on. */
  function ParseOn(ts: Stream): (r: R<seq<Expr>>)
    ensures Len(r.rest) <= Len(ts)
  {
    if At(ts) != ON then R([], ts, 0)
    else
      var n := ParseName(Adv(ts));
      MoreNames([n.v], n.rest, n.errs)
  }

  function MoreNames(acc: seq<Expr>, ts: Stream, errs: nat): (r: R<seq<Expr>>)
    ensures acc <= r.v && r.errs >= errs && Len(r.rest) <= Len(ts)
    decreases Len(ts)
  {
    if At(ts) != COMMA then R(acc, ts, errs)
    else
      var n := ParseName(Adv(ts));
      MoreNames(acc + [n.v], n.rest, errs + n.errs)
  }

  function ParseWait(ts: Stream): (r: R<Option<Form>>)
    ensures Len(r.rest) <= Len(ts) && (r.errs == 0 ==> r.v.Some? && Len(r.rest) < Len(ts))
  {
    var n := ParseOn(ts);
    var u := ParseOpt(UNTIL, n.rest);
    var f := ParseOpt(FOR, u.rest);
    Ended(Some(WaitStmt(n.v, u.v, f.v)), f.rest, n.errs + u.errs + f.errs)
  }

  /** Assignments and procedure calls, which start with a name that is read without looking at its first token. */
  function ParseNamed(ts: Stream): (r: R<Option<Form>>)
    ensures Len(r.rest) <= Len(ts) && (r.errs == 0 ==> r.v.Some? && Len(r.rest) < Len(ts))
  {
    var t := ParseName(ts);
    if At(t.rest) == LE then
      var d := ParseDelay(Adv(t.rest));
      var w := ParseWaves(d.rest);
      Ended(Some(SignalAssign(t.v, d.v, w.v)), w.rest, t.errs + d.errs + w.errs)
    else if At(t.rest) == ASSIGN then
      var x := ParseExpr(Adv(t.rest));
      Ended(Some(VarAssign(t.v, x.v)), x.rest, t.errs + x.errs)
    else if t.v.Call? then Ended(Some(ProcCall(Merge(t.v.fun), t.v.args)), t.rest, t.errs)
    else if t.v.Ident? && At(t.rest) == SEMICOLON then R(Some(ProcCall(t.v, [])), Adv(t.rest), t.errs)
    else R(None, t.rest, t.errs + 1)
  }

  /** parseNextExit, parseAssertStmt and parseReportStmt, behind their keyword. */
  function ParseJump(next: bool, ts: Stream): (r: R<Option<Form>>)
    ensures Len(r.rest) <= Len(ts) && (r.errs == 0 ==> r.v.Some? && Len(r.rest) < Len(ts))
  {
    var l := ParseLabel(ts);
    var w := ParseOpt(WHEN, l.rest);
    Ended(Some(if next then NextStmt(l.v, w.v) else ExitStmt(l.v, w.v)), w.rest, w.errs)
  }

  function ParseReturn(ts: Stream): (r: R<Option<Form>>)
    ensures Len(r.rest) <= Len(ts) && (r.errs == 0 ==> r.v.Some? && Len(r.rest) < Len(ts))
  {
    if At(ts) == SEMICOLON then R(Some(ReturnStmt(None)), Adv(ts), 0)
    else
      var x := ParseExpr(ts);
      Ended(Some(ReturnStmt(Some(x.v))), x.rest, x.errs)
  }

  function ParseAssert(ts: Stream): (r: R<Option<Form>>)
    ensures Len(r.rest) <= Len(ts) && (r.errs == 0 ==> r.v.Some? && Len(r.rest) < Len(ts))
  {
    var c := ParseExpr(ts);
    var m := ParseOpt(REPORT, c.rest);
    var s := ParseOpt(SEVERITY, m.rest);
    Ended(Some(AssertStmt(c.v, m.v, s.v)), s.rest, c.errs + m.errs + s.errs)
  }

  function ParseReport(ts: Stream): (r: R<Option<Form>>)
    ensures Len(r.rest) <= Len(ts) && (r.errs == 0 ==> r.v.Some? && Len(r.rest) < Len(ts))
  {
    var m := ParseExpr(ts);
    var s := ParseOpt(SEVERITY, m.rest);
    Ended(Some(ReportStmt(m.v, s.v)), s.rest, m.errs + s.errs)
  }

  /** Statements that hold no further statements. */
  function ParseSimple(ts: Stream): (r: R<Option<Form>>)
    ensures Len(r.rest) <= Len(ts) && (r.errs == 0 ==> r.v.Some? && Len(r.rest) < Len(ts))
  {
    var k := At(ts);
    if k == NULL then Ended(Some(NullStmt), Adv(ts), 0)
    else if k == NEXT then ParseJump(true, Adv(ts))
    else if k == EXIT then ParseJump(false, Adv(ts))
    else if k == RETURN then ParseReturn(Adv(ts))
    else if k == WAIT then ParseWait(Adv(ts))
    else if k == ASSERT then ParseAssert(Adv(ts))
    else if k == REPORT then ParseReport(Adv(ts))
    else ParseNamed(ts)
  }

  function FormOf(r: R<Option<Form>>): Form { r.v.GetOr(NullStmt) }

  function StmtOf(r: R<Option<Stmt>>): Stmt { r.v.GetOr(Stmt(None, NullStmt)) }

  /** One statement; None when the parser gives up on it. */
  function ParseStmt(ts: Stream): (r: R<Option<Stmt>>)
    ensures Len(r.rest) <= Len(ts) && (r.errs == 0 ==> r.v.Some? && Len(r.rest) < Len(ts))
    decreases Len(ts), 2
  {
    var labelled := At(ts) == IDENT && Peek(ts) == COLON;
    var f := ParseForm(if labelled then Adv(Adv(ts)) else ts);
    R(if f.v.Some? then Some(Stmt(if labelled then Some(Cur(ts)) else None, f.v.value)) else None, f.rest, f.errs)
  }

  function ParseForm(ts: Stream): (r: R<Option<Form>>)
    ensures Len(r.rest) <= Len(ts) && (r.errs == 0 ==> r.v.Some? && Len(r.rest) < Len(ts))
    decreases Len(ts), 1
  {
    var k := At(ts);
    if k == IF then ParseIf(ts)
    else if k == CASE then ParseCase(ts)
    else if k == FOR || k == WHILE || k == LOOP then ParseLoop(ts)
    else ParseSimple(ts)
  }

  function ParseIf(ts: Stream): (r: R<Option<Form>>)
    ensures Len(r.rest) <= Len(ts) && (r.errs == 0 ==> r.v.Some? && Len(r.rest) < Len(ts))
    decreases Len(ts), 0
  {
    if ts.Done? then R(None, ts, 1)
    else
      var c := ParseExpr(Adv(ts));
      var t := Expect(THEN, c.rest);
      var b := ParseSeq(ElseOrEnd, t.rest);
      var es := ParseElsifs(b.rest);
      var e := ParseElse(es.rest);
      var z := ParseEnd(IF, e.rest);
      R(Some(IfStmt(c.v, b.v, es.v, e.v)), z.rest, c.errs + t.errs + b.errs + es.errs + e.errs + z.errs)
  }

  /** An empty else part leaves no trace. */
  function ParseElse(ts: Stream): (r: R<Tail>)
    ensures Len(r.rest) <= Len(ts)
    decreases Len(ts), 0
  {
    if At(ts) != ELSE then R(NoElse, ts, 0)
    else
      var b := ParseSeq(OnlyEnd, Adv(ts));
      R(if b.v == [] then NoElse else Else(b.v), b.rest, b.errs)
  }

  function ParseCase(ts: Stream): (r: R<Option<Form>>)
    ensures Len(r.rest) <= Len(ts) && (r.errs == 0 ==> r.v.Some? && Len(r.rest) < Len(ts))
    decreases Len(ts), 0
  {
    if ts.Done? then R(None, ts, 1)
    else
      var c := ParseExpr(Adv(ts));
      var i := Expect(IS, c.rest);
      var a := ParseAlts(i.rest);
      var z := ParseEnd(CASE, a.rest);
      R(Some(CaseStmt(c.v, a.v)), z.rest, c.errs + i.errs + a.errs + z.errs)
  }

  function ParseLoop(ts: Stream): (r: R<Option<Form>>)
    requires At(ts) == FOR || At(ts) == WHILE || At(ts) == LOOP
    ensures Len(r.rest) <= Len(ts) && (r.errs == 0 ==> r.v.Some? && Len(r.rest) < Len(ts))
    decreases Len(ts), 0
  {
    var h := ParseScheme(ts);
    var l := Expect(LOOP, h.rest);
    var b := ParseSeq(OnlyEnd, l.rest);
    var z := ParseEnd(LOOP, b.rest);
    R(Some(LoopStmt(h.v, b.v)), z.rest, h.errs + l.errs + b.errs + z.errs)
  }

  function ParseElsifs(ts: Stream): (r: R<seq<Clause>>)
    ensures Len(r.rest) <= Len(ts)
    decreases Len(ts), 0
  {
    if At(ts) != ELSIF then R([], ts, 0)
    else
      var c := ParseExpr(Adv(ts));
      var t := Expect(THEN, c.rest);
      var b := ParseSeq(ElseOrEnd, t.rest);
      var m := ParseElsifs(b.rest);
      R([Clause([c.v], b.v)] + m.v, m.rest, c.errs + t.errs + b.errs + m.errs)
  }

  function ParseAlts(ts: Stream): (r: R<seq<Clause>>)
    ensures Len(r.rest) <= Len(ts)
    decreases Len(ts), 0
  {
    if At(ts) != WHEN then R([], ts, 0)
    else
      var cs := ParseChoices(Adv(ts));
      var a := Expect(ARROW, cs.rest);
      var b := ParseSeq(WhenOrEnd, a.rest);
      var m := ParseAlts(b.rest);
      R([Clause(cs.v, b.v)] + m.v, m.rest, cs.errs + a.errs + b.errs + m.errs)
  }

  /** parseSeqStmtsUntil, with ensureProgress: a statement that read nothing costs one token and one more error. */
  function ParseSeq(stops: Stops, ts: Stream): (r: R<seq<Stmt>>)
    ensures Len(r.rest) <= Len(ts)
    decreases Len(ts), 3
  {
    if At(ts) == EOF || IsStop(stops, At(ts)) then R([], ts, 0)
    else
      var s := ParseStmt(ts);
      var stuck := Len(s.rest) == Len(ts);
      var m := ParseSeq(stops, if stuck then Adv(s.rest) else s.rest);
      R((if s.v.Some? then [s.v.value] else []) + m.v, m.rest, s.errs + (if stuck then 1 else 0) + m.errs)
  }
}
