// tools/socgen/vhdl/parser.go and lexer.go: the cursor parser and the lexer, with their loops.

module VhdlParser {
  import opened Common
  import opened VhdlGrammar
  import opened VhdlStmtTheorems
  import G = VhdlGrammar
  import opened VhdlText

  // ---- One turn of each loop ----

  lemma {:induction false} TierStep(tier: nat, ts: Stream)
    requires 1 <= tier <= 5
    ensures ParseTier(tier, ts) ==
            if tier == 4 && IsSign(At(ts)) then (var x := ParseTier(5, Adv(ts)); FoldTier(4, Unary(At(ts), x.v), x.rest, x.errs))
            else (var x := ParseOperand(tier, ts); FoldTier(tier, x.v, x.rest, x.errs))
  {
    hide FoldTier, ParseOperand;
  }

  lemma {:induction false} FoldStep(tier: nat, left: Expr, ts: Stream, errs: nat)
    requires 1 <= tier <= 5
    ensures FoldTier(tier, left, ts, errs) ==
            if IsOp(tier, At(ts)) then (var y := ParseOperand(tier, Adv(ts)); FoldTier(tier, Binary(left, At(ts), y.v), y.rest, errs + y.errs))
            else R(left, ts, errs)
    ensures IsOp(tier, At(ts)) ==> ts.More?
  {
    OpsAreThere(tier, ts);
    hide ParseOperand, IsOp, TierOf, At, Len;
  }

  lemma {:induction false} OpsAreThere(tier: nat, ts: Stream)
    ensures IsOp(tier, At(ts)) ==> ts.More?
  {
  }

  /** A parenthesized argument list. */
  function CallArgs(ts: Stream): R<seq<Assoc>>
    requires At(ts) == LPAREN
  {
    var a := ParseArgs(Adv(ts));
    var c := Expect(RPAREN, a.rest);
    R(a.v, c.rest, a.errs + c.errs)
  }

  lemma {:induction false} SuffixStep(e: Expr, ts: Stream, errs: nat)
    ensures Suffixes(e, ts, errs) ==
            if At(ts) == LPAREN then Suffixes(Call(e, CallArgs(ts).v), CallArgs(ts).rest, errs + CallArgs(ts).errs)
            else if At(ts) == DOT && IsSegment(Peek(ts)) then Suffixes(Selector(e, Spelled(Cur(Adv(ts)))), Adv(Adv(ts)), errs)
            else if At(ts) == TICK && IsAttr(Peek(ts)) then Suffixes(AttrName(e, Spelled(Cur(Adv(ts)))), Adv(Adv(ts)), errs)
            else R(e, ts, errs)
  {
    hide ParseArgs, IsSegment, IsAttr, Spelled;
  }

  lemma {:induction false} ElemsStep(acc: seq<Elem>, ts: Stream, errs: nat)
    ensures MoreElems(acc, ts, errs) ==
            if At(ts) != COMMA then R(acc, ts, errs)
            else if At(Adv(ts)) == RPAREN then R(acc, Adv(ts), errs)
            else (var e := ParseElem(Adv(ts)); MoreElems(acc + [e.v], e.rest, errs + e.errs))
  {
    hide ParseElem;
  }

  lemma {:induction false} ArgsStep(acc: seq<Assoc>, ts: Stream, errs: nat)
    ensures MoreAssocs(acc, ts, errs) ==
            if At(ts) != COMMA then R(acc, ts, errs) else (var a := ParseAssoc(Adv(ts)); MoreAssocs(acc + [a.v], a.rest, errs + a.errs))
  {
    hide ParseAssoc;
  }

  /** An element behind its first choice. */
  function NamedElem(first: Expr, ts: Stream, errs: nat): R<Elem> {
    var cs := MoreChoices([first], ts, errs);
    var a := Expect(ARROW, cs.rest);
    var y := ParseExpr(a.rest);
    R(Elem(cs.v, y.v), y.rest, cs.errs + a.errs + y.errs)
  }

  lemma {:induction false} ElemStep(ts: Stream)
    ensures var x := ParseExpr(ts);
            ParseElem(ts) == if At(x.rest) == BAR || At(x.rest) == ARROW then NamedElem(x.v, x.rest, x.errs) else R(Elem([], x.v), x.rest, x.errs)
  {
    hide ParseExpr, MoreChoices;
  }

  lemma {:induction false} NameStep(ts: Stream)
    ensures var n := FlatName(Head(Cur(ts)), Adv(ts));
            ParseName(ts) ==
            if At(n.1) == TICK && Peek(n.1) == LPAREN then (var x := ParseParen(Adv(n.1)); R(Qualified(Ident(n.0), x.v), x.rest, x.errs))
            else Suffixes(Ident(n.0), n.1, NO_ERRORS)
  {
    hide FlatName, Suffixes, ParseParen;
  }

  lemma {:induction false} WavesStep(acc: seq<Wave>, ts: Stream, errs: nat)
    ensures MoreWaves(acc, ts, errs) ==
            if At(ts) != COMMA then R(acc, ts, errs) else (var w := ParseWave(Adv(ts)); MoreWaves(acc + [w.v], w.rest, errs + w.errs))
  {
    hide ParseWave;
  }

  lemma {:induction false} NamesStep(acc: seq<Expr>, ts: Stream, errs: nat)
    ensures MoreNames(acc, ts, errs) ==
            if At(ts) != COMMA then R(acc, ts, errs) else (var n := ParseName(Adv(ts)); MoreNames(acc + [n.v], n.rest, errs + n.errs))
  {
    hide ParseName;
  }

  lemma {:induction false} ExpectHere(k: Kind, ts: Stream)
    requires At(ts) == k && k != EOF
    ensures Expect(k, ts).rest == Adv(ts) && Expect(k, ts).errs == 0 && Len(Adv(ts)) < Len(ts)
  {
  }

  // ---- Statement lists: what has been read, and what the grammar reads from here on ----

  ghost predicate SeqSoFar(stops: Stops, ts: Stream, acc: seq<Stmt>, now: Stream, errs: nat) {
    var m := ParseSeq(stops, now);
    ParseSeq(stops, ts) == R(acc + m.v, m.rest, errs + m.errs)
  }

  lemma {:induction false} SeqStart(stops: Stops, ts: Stream)
    ensures SeqSoFar(stops, ts, [], ts, NO_ERRORS)
  {
    hide ParseSeq;
    assert [] + ParseSeq(stops, ts).v == ParseSeq(stops, ts).v;
  }

  /** One statement; a turn that reads nothing skips a token. */
  function OneStmt(ts: Stream): R<seq<Stmt>> {
    var s := ParseStmt(ts);
    var stuck := Len(s.rest) == Len(ts);
    R(if s.v.Some? then [s.v.value] else [], if stuck then Adv(s.rest) else s.rest, s.errs + if stuck then 1 else 0)
  }

  lemma {:induction false} SeqStep(stops: Stops, ts: Stream)
    requires At(ts) != EOF && !IsStop(stops, At(ts))
    ensures var s := OneStmt(ts);
            var m := ParseSeq(stops, s.rest);
            ParseSeq(stops, ts) == R(s.v + m.v, m.rest, s.errs + m.errs)
  {
    hide ParseStmt, IsStop;
  }

  lemma {:induction false} SeqTurn(stops: Stops, ts: Stream, acc: seq<Stmt>, now: Stream, errs: nat)
    requires SeqSoFar(stops, ts, acc, now, errs) && At(now) != EOF && !IsStop(stops, At(now))
    ensures var s := OneStmt(now); SeqSoFar(stops, ts, acc + s.v, s.rest, errs + s.errs)
  {
    hide OneStmt, IsStop, ParseSeq;
    SeqStep(stops, now);
    var s := OneStmt(now);
    var m := ParseSeq(stops, s.rest);
    assert acc + (s.v + m.v) == acc + s.v + m.v;
  }

  lemma {:induction false} SeqDone(stops: Stops, ts: Stream, acc: seq<Stmt>, now: Stream, errs: nat)
    requires SeqSoFar(stops, ts, acc, now, errs) && (At(now) == EOF || IsStop(stops, At(now)))
    ensures ParseSeq(stops, ts) == R(acc, now, errs)
  {
    hide ParseStmt, IsStop;
    assert ParseSeq(stops, now) == R([], now, 0);
    assert acc + [] == acc;
  }

  ghost predicate ElsifsSoFar(ts: Stream, acc: seq<Clause>, now: Stream, errs: nat) {
    var m := ParseElsifs(now);
    ParseElsifs(ts) == R(acc + m.v, m.rest, errs + m.errs)
  }

  /** An elsif or a case alternative. */
  function OneElsif(ts: Stream): R<Clause> {
    var c := ParseExpr(Adv(ts));
    var t := Expect(THEN, c.rest);
    var b := ParseSeq(ElseOrEnd, t.rest);
    R(Clause([c.v], b.v), b.rest, c.errs + t.errs + b.errs)
  }

  function OneAlt(ts: Stream): R<Clause> {
    var cs := ParseChoices(Adv(ts));
    var a := Expect(ARROW, cs.rest);
    var b := ParseSeq(WhenOrEnd, a.rest);
    R(Clause(cs.v, b.v), b.rest, cs.errs + a.errs + b.errs)
  }

  lemma {:induction false} ElsifsStart(ts: Stream)
    ensures ElsifsSoFar(ts, [], ts, NO_ERRORS)
  {
    hide ParseElsifs;
    assert [] + ParseElsifs(ts).v == ParseElsifs(ts).v;
  }

  lemma {:induction false} ElsifsStep(ts: Stream)
    ensures At(ts) == ELSIF ==> var c := OneElsif(ts); var m := ParseElsifs(c.rest); ParseElsifs(ts) == R([c.v] + m.v, m.rest, c.errs + m.errs)
    ensures At(ts) != ELSIF ==> ParseElsifs(ts) == R([], ts, NO_ERRORS)
  {
    hide ParseExpr, ParseSeq;
  }

  lemma {:induction false} ElsifsTurn(ts: Stream, acc: seq<Clause>, now: Stream, errs: nat)
    requires ElsifsSoFar(ts, acc, now, errs)
    ensures At(now) == ELSIF ==> var c := OneElsif(now); ElsifsSoFar(ts, acc + [c.v], c.rest, errs + c.errs)
    ensures At(now) != ELSIF ==> ParseElsifs(ts) == R(acc, now, errs)
  {
    hide OneElsif, ParseElsifs;
    ElsifsStep(now);
    assert acc + [] == acc;
    var m := ParseElsifs(OneElsif(now).rest);
    assert acc + ([OneElsif(now).v] + m.v) == acc + [OneElsif(now).v] + m.v;
  }

  ghost predicate AltsSoFar(ts: Stream, acc: seq<Clause>, now: Stream, errs: nat) {
    var m := ParseAlts(now);
    ParseAlts(ts) == R(acc + m.v, m.rest, errs + m.errs)
  }

  lemma {:induction false} AltsStart(ts: Stream)
    ensures AltsSoFar(ts, [], ts, NO_ERRORS)
  {
    hide ParseAlts;
    assert [] + ParseAlts(ts).v == ParseAlts(ts).v;
  }

  lemma {:induction false} AltsStep(ts: Stream)
    ensures At(ts) == WHEN ==> var c := OneAlt(ts); var m := ParseAlts(c.rest); ParseAlts(ts) == R([c.v] + m.v, m.rest, c.errs + m.errs)
    ensures At(ts) != WHEN ==> ParseAlts(ts) == R([], ts, NO_ERRORS)
  {
    hide ParseChoices, ParseSeq;
  }

  lemma {:induction false} AltsTurn(ts: Stream, acc: seq<Clause>, now: Stream, errs: nat)
    requires AltsSoFar(ts, acc, now, errs)
    ensures At(now) == WHEN ==> var c := OneAlt(now); AltsSoFar(ts, acc + [c.v], c.rest, errs + c.errs)
    ensures At(now) != WHEN ==> ParseAlts(ts) == R(acc, now, errs)
  {
    hide OneAlt, ParseAlts;
    AltsStep(now);
    assert acc + [] == acc;
    var m := ParseAlts(OneAlt(now).rest);
    assert acc + ([OneAlt(now).v] + m.v) == acc + [OneAlt(now).v] + m.v;
  }

  lemma {:induction false} LoopHere(ts: Stream)
    requires At(ts) == FOR || At(ts) == WHILE || At(ts) == LOOP
    ensures Len(Expect(LOOP, ParseScheme(ts).rest).rest) < Len(ts)
  {
    hide ParseExpr, ParseFor;
  }

  // ==== tools/socgen/vhdl/parser.go: the parser's cursor and its methods. Every method ends on every token list; the measure is the
  // number of tokens left and the method's place in the grammar.

  /** The tokens from position i up to the closing EOF. */
  ghost function From(toks: seq<Token>, i: nat): (ts: Stream)
    ensures Len(ts) == if i < |toks| then |toks| - 1 - i else 0
    decreases |toks| - i
  {
    if i + 1 >= |toks| then Done else More(toks[i], From(toks, i + 1))
  }

  class Parser {
    const toks: seq<Token>
    var i: nat
    var errs: nat     // how many errors have been recorded

    ghost predicate Valid()
      reads this
    {
      |toks| > 0 && toks[|toks| - 1] == Token(EOF, "") && i < |toks|
    }

    ghost function Rest(): (ts: Stream)
      requires Valid()
      reads this
      ensures Len(ts) == |toks| - 1 - i
    {
      From(toks, i)
    }

    /** The method that started with before errors has returned v, as the grammar says. */
    ghost predicate Ran<T>(v: T, r: R<T>, before: int)
      reads this
    {
      Valid() && v == r.v && Rest() == r.rest && errs == before + r.errs
    }

    constructor (toks: seq<Token>)
      requires |toks| > 0 && toks[|toks| - 1] == Token(EOF, "")
      ensures Valid() && this.toks == toks && Rest() == From(toks, 0) && errs == 0
    {
      this.toks := toks;
      i, errs := 0, 0;
    }

    // ---- The cursor ----

    function Current(): (t: Token)
      requires Valid()
      reads this
      ensures t == Cur(Rest())
    {
      toks[i]
    }

    function Kind(): (k: Kind)
      requires Valid()
      reads this
      ensures k == At(Rest())
    {
      Current().kind
    }

    function PeekKind(): (k: Kind)
      requires Valid()
      reads this
      ensures k == Peek(Rest())
    {
      assert i + 1 < |toks| ==> toks[i + 1].kind == At(From(toks, i + 1));
      if i + 1 >= |toks| then EOF else toks[i + 1].kind
    }

    method Advance() returns (t: Token)
      requires Valid()
      modifies this`i
      ensures Valid() && t == Cur(old(Rest())) && Rest() == Adv(old(Rest()))
    {
      t := Current();
      if i < |toks| - 1 { i := i + 1; }
    }

    method Accept(k: Kind) returns (ok: bool)
      requires Valid() && k != EOF
      modifies this`i
      ensures Valid() && ok == (At(old(Rest())) == k) && Rest() == if ok then Adv(old(Rest())) else old(Rest())
    {
      ok := Kind() == k;
      if ok { var _ := Advance(); }
    }

    method Expect(k: Kind) returns (t: Token)
      requires Valid()
      modifies this`i, this`errs
      ensures Ran(t, G.Expect(k, old(Rest())), old(errs))
    {
      t := Current();
      if t.kind == k { var _ := Advance(); } else { errs := errs + 1; }
    }

    /** A loop turn that has read nothing skips a token. */
    method EnsureProgress(start: nat)
      requires Valid()
      modifies this`i, this`errs
      ensures Valid()
      ensures var stuck := old(i) == start && At(old(Rest())) != EOF;
              Rest() == (if stuck then Adv(old(Rest())) else old(Rest())) && errs == old(errs) + if stuck then 1 else 0
    {
      if i == start && Kind() != EOF {
        errs := errs + 1;
        var _ := Advance();
      }
    }

    // ---- Expressions ----

    method ParseExpr() returns (e: Expr)
      requires Valid()
      modifies this`i, this`errs
      ensures Ran(e, G.ParseExpr(old(Rest())), old(errs))
      decreases Len(Rest()), 20
    {
      e := ParseTier(1);
      if Kind() == TO || Kind() == DOWNTO {
        var dir := Advance();
        var right := ParseTier(1);
        e := Range(e, dir.kind, right);
      }
    }

    /** parseLogical, parseRelation, parseShift, parseSimple and parseTerm. */
    method ParseTier(tier: nat) returns (left: Expr)
      requires Valid() && 1 <= tier <= 5
      modifies this`i, this`errs
      ensures Ran(left, G.ParseTier(tier, old(Rest())), old(errs))
      decreases Len(Rest()), 16 - 2 * tier
    {
      hide From, G.ParseTier, G.ParseOperand, FoldTier, IsOp;
      TierStep(tier, Rest());
      ghost var ts, n := Rest(), errs;
      if tier == 4 && IsSign(Kind()) {
        var op := Advance();
        var x := ParseTier(5);
        left := Unary(op.kind, x);
      } else {
        left := ParseOperand(tier);
      }
      while IsOp(tier, Kind())
        invariant Valid() && errs >= n && Len(Rest()) <= Len(ts)
        invariant FoldTier(tier, left, Rest(), errs - n) == G.ParseTier(tier, ts)
        decreases Len(Rest())
      {
        FoldStep(tier, left, Rest(), errs - n);
        var op := Advance();
        var right := ParseOperand(tier);
        left := Binary(left, op.kind, right);
      }
      FoldStep(tier, left, Rest(), errs - n);
    }

    method ParseOperand(tier: nat) returns (e: Expr)
      requires Valid() && 1 <= tier <= 5
      modifies this`i, this`errs
      ensures Ran(e, G.ParseOperand(tier, old(Rest())), old(errs))
      decreases Len(Rest()), 15 - 2 * tier
    {
      hide From, G.ParseTier, G.ParseFactor;
      if tier == 5 { e := ParseFactor(); } else { e := ParseTier(tier + 1); }
    }

    method ParseFactor() returns (e: Expr)
      requires Valid()
      modifies this`i, this`errs
      ensures Ran(e, G.ParseFactor(old(Rest())), old(errs))
      decreases Len(Rest()), 4
    {
      if Kind() == ABS || Kind() == NOT {
        var op := Advance();
        var x := ParsePrimary();
        return Unary(op.kind, x);
      }
      e := ParsePrimary();
      if Kind() == EXP {
        var op := Advance();
        var right := ParsePrimary();
        e := Binary(e, op.kind, right);
      }
    }

    method ParsePrimary() returns (e: Expr)
      requires Valid()
      modifies this`i, this`errs
      ensures Ran(e, G.ParsePrimary(old(Rest())), old(errs))
      decreases Len(Rest()), 3
    {
      var t := Current();
      if IsNumber(t.kind) {
        var _ := Advance();
        if Kind() == IDENT {
          var unit := Advance();
          return PhysicalLit(t, unit);
        }
        return BasicLit(t);
      } else if IsLiteralKind(t.kind) {
        var _ := Advance();
        return BasicLit(t);
      } else if t.kind == LPAREN {
        e := ParseParenOrAggregate();
      } else if t.kind == IDENT || t.kind == EXTIDENT {
        e := ParseName();
      } else if IsWordPrimary(t.kind) {
        var _ := Advance();
        return Ident([KindToken(t.kind)]);
      } else {
        errs := errs + 1;
        return BasicLit(Token(t.kind, ""));
      }
    }

    method ParseParenOrAggregate() returns (e: Expr)
      requires Valid() && At(Rest()) == LPAREN
      modifies this`i, this`errs
      ensures Ran(e, ParseParen(old(Rest())), old(errs))
      decreases Len(Rest()), 1
    {
      var _ := Expect(LPAREN);
      var elems := ParseElementAssocs();
      var _ := Expect(RPAREN);
      e := if |elems| == 1 && elems[0].choices == [] then Paren(elems[0].value) else Aggregate(elems);
    }

    method ParseElementAssocs() returns (elems: seq<Elem>)
      requires Valid()
      modifies this`i, this`errs
      ensures Ran(elems, ParseElems(old(Rest())), old(errs))
      decreases Len(Rest()), 22
    {
      hide From, ParseElem, MoreElems;
      elems := [];
      if Kind() == RPAREN { return; }
      ghost var ts, n := Rest(), errs;
      var elem := ParseElementAssoc();
      elems := [elem];
      while Kind() == COMMA
        invariant Valid() && errs >= n && Len(Rest()) <= Len(ts)
        invariant MoreElems(elems, Rest(), errs - n) == ParseElems(ts)
        decreases Len(Rest())
      {
        ElemsStep(elems, Rest(), errs - n);
        var _ := Advance();
        if Kind() == RPAREN { return; }
        elem := ParseElementAssoc();
        elems := elems + [elem];
      }
      ElemsStep(elems, Rest(), errs - n);
    }

    method ParseElementAssoc() returns (elem: Elem)
      requires Valid()
      modifies this`i, this`errs
      ensures Ran(elem, ParseElem(old(Rest())), old(errs))
      decreases Len(Rest()), 21
    {
      hide From, G.ParseExpr, NamedElem, ParseElem;
      ElemStep(Rest());
      ghost var ts, n := Rest(), errs;
      var first := ParseExpr();
      if Kind() == BAR || Kind() == ARROW {
        elem := ParseNamedElement(first, errs - n);
      } else {
        elem := Elem([], first);
      }
    }

    /** choices => value, behind the first choice. */
    method ParseNamedElement(first: Expr, ghost before: nat) returns (elem: Elem)
      requires Valid() && before <= errs && (At(Rest()) == BAR || At(Rest()) == ARROW)
      modifies this`i, this`errs
      ensures Ran(elem, NamedElem(first, old(Rest()), before), old(errs) - before)
      decreases Len(Rest()), 1
    {
      hide From, G.ParseExpr, MoreChoices;
      ghost var ts := Rest();
      var choices := ParseMoreChoices([first], before);
      assert Len(Rest()) < Len(ts) || At(Rest()) == ARROW;
      var _ := Expect(ARROW);
      var value := ParseExpr();
      elem := Elem(choices, value);
    }

    /** The further alternatives of a choice list, after before errors in the list. */
    method ParseMoreChoices(first: seq<Expr>, ghost before: nat) returns (choices: seq<Expr>)
      requires Valid() && before <= errs
      modifies this`i, this`errs
      ensures Ran(choices, MoreChoices(first, old(Rest()), before), old(errs) - before)
      decreases Len(Rest()), 0
    {
      hide From, G.ParseExpr;
      ghost var ts, n := Rest(), errs - before;
      choices := first;
      while Kind() == BAR
        invariant Valid() && errs >= n && Len(Rest()) <= Len(ts)
        invariant MoreChoices(choices, Rest(), errs - n) == MoreChoices(first, ts, before)
        decreases Len(Rest())
      {
        var _ := Advance();
        var x := ParseExpr();
        choices := choices + [x];
      }
    }

    // ---- Names ----

    method ParseName() returns (e: Expr)
      requires Valid()
      modifies this`i, this`errs
      ensures Ran(e, G.ParseName(old(Rest())), old(errs))
      decreases Len(Rest()), 2
    {
      hide From, Head, FlatName, Suffixes, ParseParen, G.ParseName;
      NameStep(Rest());
      var t := Advance();
      var name := ParseFlatName(Head(t));
      if Kind() == TICK && PeekKind() == LPAREN {
        var _ := Advance();
        var x := ParseParenOrAggregate();
        return Qualified(Ident(name), x);
      }
      e := ParseSuffixes(Ident(name));
    }

    method ParseFlatName(head: seq<Token>) returns (name: seq<Token>)
      requires Valid()
      modifies this`i
      ensures Valid() && (name, Rest()) == FlatName(head, old(Rest()))
    {
      ghost var ts := Rest();
      name := head;
      while Kind() == DOT
        invariant Valid() && Dots(name, Rest()) == Dots(head, ts)
        decreases Len(Rest())
      {
        var _ := Advance();
        if !IsSegment(Kind()) {
          assert Dots(head, ts) == (name, Rest());
          break;
        }
        var seg := Advance();
        name := name + [KindToken(DOT), Spelled(seg)];
      }
      ghost var d := (name, Rest());
      while Kind() == TICK && IsAttr(PeekKind())
        invariant Valid() && Ticks(name, Rest()) == Ticks(d.0, d.1)
        decreases Len(Rest())
      {
        var _ := Advance();
        var attr := Advance();
        name := name + [KindToken(TICK), Spelled(attr)];
      }
    }

    method ParseSuffixes(name: Expr) returns (e: Expr)
      requires Valid()
      modifies this`i, this`errs
      ensures Ran(e, Suffixes(name, old(Rest()), 0), old(errs))
      decreases Len(Rest()), 1
    {
      hide From, CallArgs, IsSegment, IsAttr, Spelled, Suffixes;
      ghost var ts, n := Rest(), errs;
      e := name;
      while true
        invariant Valid() && errs >= n && Len(Rest()) <= Len(ts)
        invariant Suffixes(e, Rest(), errs - n) == Suffixes(name, ts, 0)
        decreases Len(Rest())
      {
        SuffixStep(e, Rest(), errs - n);
        if Kind() == LPAREN {
          var args := ParseCallArgs();
          e := Call(e, args);
        } else if Kind() == DOT && IsSegment(PeekKind()) {
          var _ := Advance();
          var sel := Advance();
          e := Selector(e, Spelled(sel));
        } else if Kind() == TICK && IsAttr(PeekKind()) {
          var _ := Advance();
          var attr := Advance();
          e := AttrName(e, Spelled(attr));
        } else {
          return;
        }
      }
    }

    method ParseCallArgs() returns (args: seq<Assoc>)
      requires Valid() && At(Rest()) == LPAREN
      modifies this`i, this`errs
      ensures Ran(args, CallArgs(old(Rest())), old(errs)) && Len(Rest()) < Len(old(Rest()))
      decreases Len(Rest()), 0
    {
      hide From, ParseArgs;
      var _ := Advance();
      args := ParseArgList();
      var _ := Expect(RPAREN);
    }

    method ParseArgList() returns (args: seq<Assoc>)
      requires Valid()
      modifies this`i, this`errs
      ensures Ran(args, ParseArgs(old(Rest())), old(errs))
      decreases Len(Rest()), 22
    {
      hide From, ParseAssoc, MoreAssocs;
      args := [];
      if Kind() == RPAREN { return; }
      ghost var ts, n := Rest(), errs;
      var arg := ParseAssocElement();
      args := [arg];
      while Kind() == COMMA
        invariant Valid() && errs >= n && Len(Rest()) <= Len(ts)
        invariant MoreAssocs(args, Rest(), errs - n) == ParseArgs(ts)
        decreases Len(Rest())
      {
        ArgsStep(args, Rest(), errs - n);
        var _ := Advance();
        arg := ParseAssocElement();
        args := args + [arg];
      }
      ArgsStep(args, Rest(), errs - n);
    }

    method ParseAssocElement() returns (arg: Assoc)
      requires Valid()
      modifies this`i, this`errs
      ensures Ran(arg, ParseAssoc(old(Rest())), old(errs))
      decreases Len(Rest()), 21
    {
      var first := ParseExpr();
      if Kind() == ARROW {
        var _ := Advance();
        var actual := ParseExpr();
        return Assoc(Some(Merge(first)), actual);
      }
      arg := Assoc(None, first);
    }

    // ---- Sequential statements ----

    method ParseOptional(k: Kind) returns (e: Option<Expr>)
      requires Valid() && k != EOF
      modifies this`i, this`errs
      ensures Ran(e, ParseOpt(k, old(Rest())), old(errs))
    {
      hide From, G.ParseExpr;
      var ok := Accept(k);
      if !ok { return None; }
      var x := ParseExpr();
      e := Some(x);
    }

    method ParseOptionalLabel() returns (l: Option<Token>)
      requires Valid()
      modifies this`i
      ensures Ran(l, ParseLabel(old(Rest())), errs)
    {
      l := None;
      if Kind() == IDENT {
        var t := Advance();
        l := Some(t);
      }
    }

    /** end <keyword> [label] ; */
    method FinishBlock(k: Kind)
      requires Valid()
      modifies this`i, this`errs
      ensures Ran((), ParseEnd(k, old(Rest())), old(errs))
    {
      hide From;
      var _ := Expect(END);
      var _ := Expect(k);
      var _ := ParseOptionalLabel();
      var _ := Expect(SEMICOLON);
    }

    method ParseDelayMechanism() returns (d: Delay)
      requires Valid()
      modifies this`i, this`errs
      ensures Ran(d, ParseDelay(old(Rest())), old(errs))
    {
      hide From, G.ParseExpr, G.Expect;
      var transport := Accept(TRANSPORT);
      if transport { return Transport; }
      var reject := Accept(REJECT);
      if reject {
        var limit := ParseExpr();
        var _ := Expect(INERTIAL);
        return Reject(limit);
      }
      var inertial := Accept(INERTIAL);
      d := if inertial then Inertial else NoDelay;
    }

    method ParseWaveformElem() returns (w: Wave)
      requires Valid()
      modifies this`i, this`errs
      ensures Ran(w, ParseWave(old(Rest())), old(errs))
    {
      hide From, G.ParseExpr, ParseOpt;
      var value := ParseExpr();
      var after := ParseOptional(AFTER);
      w := Wave(value, after);
    }

    method ParseWaveform() returns (ws: seq<Wave>)
      requires Valid()
      modifies this`i, this`errs
      ensures Ran(ws, ParseWaves(old(Rest())), old(errs))
    {
      hide From, ParseWave, MoreWaves;
      ghost var ts, n := Rest(), errs;
      var w := ParseWaveformElem();
      ws := [w];
      while Kind() == COMMA
        invariant Valid() && errs >= n
        invariant MoreWaves(ws, Rest(), errs - n) == ParseWaves(ts)
        decreases Len(Rest())
      {
        WavesStep(ws, Rest(), errs - n);
        var _ := Advance();
        w := ParseWaveformElem();
        ws := ws + [w];
      }
      WavesStep(ws, Rest(), errs - n);
    }

    method ParseChoiceList() returns (choices: seq<Expr>)
      requires Valid()
      modifies this`i, this`errs
      ensures Ran(choices, ParseChoices(old(Rest())), old(errs))
    {
      hide From, G.ParseExpr, MoreChoices;
      ghost var n := errs;
      var first := ParseExpr();
      choices := ParseMoreChoices([first], errs - n);
    }

    method ParseLoopScheme() returns (h: Scheme)
      requires Valid()
      modifies this`i, this`errs
      ensures Ran(h, ParseScheme(old(Rest())), old(errs))
    {
      hide From, G.ParseExpr, ParseFor;
      if Kind() == FOR {
        var _ := Advance();
        h := ParseForScheme();
      } else if Kind() == WHILE {
        var _ := Advance();
        var cond := ParseExpr();
        h := While(cond);
      } else {
        h := Bare;
      }
    }

    /** The parameter and discrete range of a for loop. */
    method ParseForScheme() returns (h: Scheme)
      requires Valid()
      modifies this`i, this`errs
      ensures Ran(h, ParseFor(old(Rest())), old(errs))
    {
      hide From, G.ParseExpr, ParseOpt, G.Expect;
      var param := Expect(IDENT);
      var _ := Expect(IN);
      var e := ParseExpr();
      var range := ParseOptional(RANGE);
      h := if range.Some? then For(param, range.value, Some(e)) else For(param, e, None);
    }

    method ParseWaitNames() returns (names: seq<Expr>)
      requires Valid()
      modifies this`i, this`errs
      ensures Ran(names, ParseOn(old(Rest())), old(errs))
    {
      hide From, G.ParseName, MoreNames;
      ghost var ts, n := Rest(), errs;
      names := [];
      var on := Accept(ON);
      if !on { return; }
      var name := ParseName();
      names := [name];
      while Kind() == COMMA
        invariant Valid() && errs >= n
        invariant MoreNames(names, Rest(), errs - n) == ParseOn(ts)
        decreases Len(Rest())
      {
        NamesStep(names, Rest(), errs - n);
        var _ := Advance();
        name := ParseName();
        names := names + [name];
      }
      NamesStep(names, Rest(), errs - n);
    }

    method ParseWaitStmt() returns (f: Option<Form>)
      requires Valid()
      modifies this`i, this`errs
      ensures Ran(f, ParseWait(old(Rest())), old(errs))
    {
      hide From, ParseOn, ParseOpt;
      var on := ParseWaitNames();
      var until := ParseOptional(UNTIL);
      var timeout := ParseOptional(FOR);
      var _ := Expect(SEMICOLON);
      f := Some(WaitStmt(on, until, timeout));
    }

    method ParseNextExit(next: bool) returns (f: Option<Form>)
      requires Valid()
      modifies this`i, this`errs
      ensures Ran(f, ParseJump(next, old(Rest())), old(errs))
    {
      hide From, ParseLabel, ParseOpt;
      var l := ParseOptionalLabel();
      var when := ParseOptional(WHEN);
      var _ := Expect(SEMICOLON);
      f := Some(if next then NextStmt(l, when) else ExitStmt(l, when));
    }

    method ParseReturnStmt() returns (f: Option<Form>)
      requires Valid()
      modifies this`i, this`errs
      ensures Ran(f, ParseReturn(old(Rest())), old(errs))
    {
      hide From, G.ParseExpr;
      var value := None;
      if Kind() != SEMICOLON {
        var e := ParseExpr();
        value := Some(e);
      }
      var _ := Expect(SEMICOLON);
      f := Some(ReturnStmt(value));
    }

    method ParseAssertStmt() returns (f: Option<Form>)
      requires Valid()
      modifies this`i, this`errs
      ensures Ran(f, ParseAssert(old(Rest())), old(errs))
    {
      hide From, G.ParseExpr, ParseOpt;
      var claim := ParseExpr();
      var message := ParseOptional(REPORT);
      var severity := ParseOptional(SEVERITY);
      var _ := Expect(SEMICOLON);
      f := Some(AssertStmt(claim, message, severity));
    }

    method ParseReportStmt() returns (f: Option<Form>)
      requires Valid()
      modifies this`i, this`errs
      ensures Ran(f, ParseReport(old(Rest())), old(errs))
    {
      hide From, G.ParseExpr, ParseOpt;
      var text := ParseExpr();
      var severity := ParseOptional(SEVERITY);
      var _ := Expect(SEMICOLON);
      f := Some(ReportStmt(text, severity));
    }

    /** Assignments and procedure calls. */
    method ParseNamedStmt() returns (f: Option<Form>)
      requires Valid()
      modifies this`i, this`errs
      ensures Ran(f, ParseNamed(old(Rest())), old(errs))
    {
      hide From, G.ParseName, G.ParseExpr, ParseDelay, ParseWaves, Merge, G.Expect;
      var target := ParseName();
      if Kind() == LE {
        var _ := Advance();
        var delay := ParseDelayMechanism();
        var waveform := ParseWaveform();
        var _ := Expect(SEMICOLON);
        return Some(SignalAssign(target, delay, waveform));
      }
      if Kind() == ASSIGN {
        var _ := Advance();
        var value := ParseExpr();
        var _ := Expect(SEMICOLON);
        return Some(VarAssign(target, value));
      }
      if target.Call? {
        var _ := Expect(SEMICOLON);
        return Some(ProcCall(Merge(target.fun), target.args));
      }
      if target.Ident? && Kind() == SEMICOLON {
        var _ := Advance();
        return Some(ProcCall(target, []));
      }
      errs := errs + 1;
      f := None;
    }

    method ParseSimpleStmt() returns (f: Option<Form>)
      requires Valid() && !(At(Rest()) == IF || At(Rest()) == CASE || At(Rest()) == FOR || At(Rest()) == WHILE || At(Rest()) == LOOP)
      modifies this`i, this`errs
      ensures Ran(f, G.ParseSimple(old(Rest())), old(errs))
    {
      hide From, ParseJump, ParseReturn, ParseWait, ParseAssert, ParseReport, ParseNamed, ParseSimple;
      KeywordAt(Rest());
      VerbAt(Rest());
      var k := Kind();
      if !StartsStmt(k) {
        NamedAt(Rest());
        f := ParseNamedStmt();
        return;
      }
      var _ := Advance();
      if k == NULL {
        var _ := Expect(SEMICOLON);
        f := Some(NullStmt);
      } else if k == NEXT {
        f := ParseNextExit(true);
      } else if k == EXIT {
        f := ParseNextExit(false);
      } else if k == RETURN {
        f := ParseReturnStmt();
      } else if k == WAIT {
        f := ParseWaitStmt();
      } else if k == ASSERT {
        f := ParseAssertStmt();
      } else {
        f := ParseReportStmt();
      }
    }

    method ParseSequentialStmt() returns (s: Option<Stmt>)
      requires Valid()
      modifies this`i, this`errs
      ensures Ran(s, ParseStmt(old(Rest())), old(errs))
      decreases Len(Rest()), 2
    {
      hide From, ParseForm;
      var lbl := None;
      if Kind() == IDENT && PeekKind() == COLON {
        var t := Advance();
        lbl := Some(t);
        var _ := Advance();
      }
      var f := ParseStmtForm();
      s := if f.Some? then Some(Stmt(lbl, f.value)) else None;
    }

    method ParseStmtForm() returns (f: Option<Form>)
      requires Valid()
      modifies this`i, this`errs
      ensures Ran(f, ParseForm(old(Rest())), old(errs))
      decreases Len(Rest()), 1
    {
      hide From, ParseForm, G.ParseIf, G.ParseCase, G.ParseLoop, G.ParseSimple;
      BlockAt(Rest());
      var k := Kind();
      if k == IF {
        f := ParseIfStmt();
      } else if k == CASE {
        f := ParseCaseStmt();
      } else if k == FOR || k == WHILE || k == LOOP {
        f := ParseLoopStmt();
      } else {
        NoBlockAt(Rest());
        f := ParseSimpleStmt();
      }
    }

    method ParseIfStmt() returns (f: Option<Form>)
      requires Valid() && At(Rest()) == IF
      modifies this`i, this`errs
      ensures Ran(f, ParseIf(old(Rest())), old(errs))
      decreases Len(Rest()), 0
    {
      hide From, G.ParseExpr, ParseSeq, ParseElsifs, ParseElse, ParseEnd, G.Expect;
      ExpectHere(IF, Rest());
      var _ := Expect(IF);
      var cond := ParseExpr();
      var _ := Expect(THEN);
      var thn := ParseSeqStmtsUntil(ElseOrEnd);
      var elsifs := ParseElsifClauses();
      var els := ParseElsePart();
      FinishBlock(IF);
      f := Some(IfStmt(cond, thn, elsifs, els));
    }

    method ParseElsifClauses() returns (elsifs: seq<Clause>)
      requires Valid()
      modifies this`i, this`errs
      ensures Ran(elsifs, ParseElsifs(old(Rest())), old(errs))
      decreases Len(Rest()), 0
    {
      hide From, G.ParseExpr, ParseSeq, ParseElsifs, G.Expect, ElsifsSoFar;
      ghost var ts, n := Rest(), errs;
      elsifs := [];
      ElsifsStart(ts);
      while Kind() == ELSIF
        invariant Valid() && errs >= n && Len(Rest()) <= Len(ts)
        invariant ElsifsSoFar(ts, elsifs, Rest(), errs - n)
        decreases Len(Rest())
      {
        ElsifsTurn(ts, elsifs, Rest(), errs - n);
        var _ := Advance();
        var c := ParseExpr();
        var _ := Expect(THEN);
        var body := ParseSeqStmtsUntil(ElseOrEnd);
        elsifs := elsifs + [Clause([c], body)];
      }
      ElsifsTurn(ts, elsifs, Rest(), errs - n);
    }

    method ParseElsePart() returns (els: Tail)
      requires Valid()
      modifies this`i, this`errs
      ensures Ran(els, ParseElse(old(Rest())), old(errs))
      decreases Len(Rest()), 0
    {
      hide From, ParseSeq;
      if Kind() != ELSE { return NoElse; }
      var _ := Advance();
      var body := ParseSeqStmtsUntil(OnlyEnd);
      els := if body == [] then NoElse else Else(body);
    }

    method ParseCaseStmt() returns (f: Option<Form>)
      requires Valid() && At(Rest()) == CASE
      modifies this`i, this`errs
      ensures Ran(f, ParseCase(old(Rest())), old(errs))
      decreases Len(Rest()), 0
    {
      hide From, G.ParseExpr, ParseAlts, ParseEnd, G.Expect;
      ExpectHere(CASE, Rest());
      var _ := Expect(CASE);
      var subject := ParseExpr();
      var _ := Expect(IS);
      var alts := ParseCaseAlts();
      FinishBlock(CASE);
      f := Some(CaseStmt(subject, alts));
    }

    method ParseCaseAlts() returns (alts: seq<Clause>)
      requires Valid()
      modifies this`i, this`errs
      ensures Ran(alts, ParseAlts(old(Rest())), old(errs))
      decreases Len(Rest()), 0
    {
      hide From, ParseChoices, ParseSeq, ParseAlts, G.Expect, AltsSoFar;
      ghost var ts, n := Rest(), errs;
      alts := [];
      AltsStart(ts);
      while Kind() == WHEN
        invariant Valid() && errs >= n && Len(Rest()) <= Len(ts)
        invariant AltsSoFar(ts, alts, Rest(), errs - n)
        decreases Len(Rest())
      {
        AltsTurn(ts, alts, Rest(), errs - n);
        var _ := Advance();
        var choices := ParseChoiceList();
        var _ := Expect(ARROW);
        var body := ParseSeqStmtsUntil(WhenOrEnd);
        alts := alts + [Clause(choices, body)];
      }
      AltsTurn(ts, alts, Rest(), errs - n);
    }

    method ParseLoopStmt() returns (f: Option<Form>)
      requires Valid() && (At(Rest()) == FOR || At(Rest()) == WHILE || At(Rest()) == LOOP)
      modifies this`i, this`errs
      ensures Ran(f, ParseLoop(old(Rest())), old(errs))
      decreases Len(Rest()), 0
    {
      hide From, ParseScheme, ParseSeq, ParseEnd, G.Expect;
      LoopHere(Rest());
      var scheme := ParseLoopScheme();
      var _ := Expect(LOOP);
      var body := ParseSeqStmtsUntil(OnlyEnd);
      FinishBlock(LOOP);
      f := Some(LoopStmt(scheme, body));
    }

    method ParseSeqStmtsUntil(stops: Stops) returns (stmts: seq<Stmt>)
      requires Valid()
      modifies this`i, this`errs
      ensures Ran(stmts, ParseSeq(stops, old(Rest())), old(errs))
      decreases Len(Rest()), 3
    {
      hide From, ParseStmt, IsStop, ParseSeq, SeqSoFar;
      ghost var ts, n := Rest(), errs;
      stmts := [];
      SeqStart(stops, ts);
      while Kind() != EOF && !IsStop(stops, Kind())
        invariant Valid() && errs >= n && Len(Rest()) <= Len(ts)
        invariant SeqSoFar(stops, ts, stmts, Rest(), errs - n)
        decreases Len(Rest())
      {
        SeqTurn(stops, ts, stmts, Rest(), errs - n);
        var start := i;
        ghost var now := Rest();
        var s := ParseSequentialStmt();
        stmts := stmts + if s.Some? then [s.value] else [];
        assert i == start <==> Len(Rest()) == Len(now);
        EnsureProgress(start);
      }
      SeqDone(stops, ts, stmts, Rest(), errs - n);
    }
  }

  // ==== tools/socgen/vhdl/lexer.go and newParser in parser.go: the lexer's state, its loops, and the token list the parser reads.

  class Lexer {
    const src: string
    var off: nat
    var prevKind: Kind

    ghost predicate Valid()
      reads this
    {
      off <= |src|
    }

    constructor (src: string)
      ensures Valid() && this.src == src && off == 0 && prevKind == ILLEGAL
    {
      this.src := src;
      off, prevKind := 0, ILLEGAL;
    }

    function Peek(): char
      reads this
    {
      Ch(src, off)
    }

    method Advance()
      requires Valid() && off < |src|
      modifies this`off
      ensures Valid() && off == old(off) + 1
    {
      off := off + 1;
    }

    /** The lexer's loops over a run of characters. */
    method SkipRun(cls: Class)
      requires Valid()
      modifies this`off
      ensures Valid() && off == End(cls, src, old(off))
    {
      while off < |src| && In(cls, src[off])
        invariant Valid() && End(cls, src, off) == End(cls, src, old(off))
        decreases |src| - off
      {
        Advance();
      }
    }

    /** Reads up to the closing quote. */
    method SkipQuoted(q: char)
      requires Valid() && q != '\0'
      modifies this`off
      ensures Valid() && off == QuoteEnd(q, src, old(off))
    {
      while off < |src|
        invariant Valid() && QuoteEnd(q, src, off) == QuoteEnd(q, src, old(off))
        decreases |src| - off
      {
        var c := Peek();
        Advance();
        if c == q {
          if Peek() != q { return; }
          Advance();
        }
      }
    }

    method SkipExponent()
      requires Valid()
      modifies this`off
      ensures Valid() && off == ExponentEnd(src, old(off))
    {
      if Peek() == 'e' || Peek() == 'E' {
        Advance();
        if Peek() == '+' || Peek() == '-' { Advance(); }
        SkipRun(Digit);
      }
    }

    method Text(k: Kind, start: nat) returns (t: Token)
      requires Valid() && start <= off
      ensures t == Token(k, src[start..off])
    {
      t := Token(k, src[start..off]);
    }

    method NextWord() returns (t: Token)
      requires Valid() && off < |src| && IsLetter(src[off])
      modifies this`off
      ensures Valid() && Lexed(t, off) == WordAt(src, old(off))
    {
      var start := off;
      Advance();
      SkipRun(WordChar);
      if off == start + 1 && IsBase(src[start]) && Peek() == '"' {
        Advance();
        SkipQuoted('"');
        t := Text(BITSTRINGLIT, start);
      } else {
        t := Text(Keyword(Lower(src[start..off])).GetOr(IDENT), start);
      }
    }

    method NextNumber() returns (t: Token)
      requires Valid() && off < |src| && IsDigit(src[off])
      modifies this`off
      ensures Valid() && Lexed(t, off) == NumberAt(src, old(off))
    {
      hide End, NumberEnd;
      var start := off;
      Advance();
      SkipRun(DigitChar);
      var kind := NumberTail();
      t := Text(kind, start);
    }

    /** The part of a number behind its first digits. */
    method NumberTail() returns (k: Kind)
      requires Valid()
      modifies this`off
      ensures Valid() && (k, off) == NumberEnd(src, old(off))
    {
      hide End, ExponentEnd;
      if Peek() == '#' {
        Advance();
        SkipRun(BasedChar);
        if Peek() == '#' { Advance(); }
        SkipExponent();
        return BASEDLIT;
      }
      if Peek() == '.' && IsDigit(Ch(src, off + 1)) {
        Advance();
        SkipRun(DigitChar);
        SkipExponent();
        return REAL;
      }
      if Peek() == 'e' || Peek() == 'E' {
        SkipExponent();
        return REAL;
      }
      k := INT;
    }

    method NextDelimiter() returns (t: Token)
      requires Valid() && off < |src|
      modifies this`off
      ensures Valid() && Lexed(t, off) == DelimiterAt(src, old(off), prevKind)
    {
      hide Pair, Single, Utf8, IsNameEnd;
      if src[off] == '\'' {
        t := NextTick();
        return;
      }
      var c := src[off];
      Advance();
      if Pair(c, Peek()).Some? {
        t := Token(Pair(c, Peek()).value, "");
        Advance();
      } else if Single(c).Some? {
        t := Token(Single(c).value, "");
      } else {
        t := Token(ILLEGAL, Utf8(c));
      }
    }

    method NextTick() returns (t: Token)
      requires Valid() && off < |src| && src[off] == '\''
      modifies this`off
      ensures Valid() && Lexed(t, off) == DelimiterAt(src, old(off), prevKind)
    {
      hide Pair, Single, Utf8, IsNameEnd;
      Advance();
      if !IsNameEnd(prevKind) && Ch(src, off + 1) == '\'' {
        t := Token(CHARLIT, "'" + Utf8(src[off]) + "'");
        Advance();
        Advance();
      } else {
        t := Token(TICK, "");
      }
    }

    /** Skips white space and reads a token. Every token but the last takes at least one character. */
    method Next() returns (t: Token)
      requires Valid()
      modifies this`off, this`prevKind
      ensures Valid() && prevKind == t.kind
      ensures var j := End(Space, src, old(off));
              if j == |src| then t == Token(EOF, "") && off == |src| else Lexed(t, off) == TokenAt(src, j, old(prevKind)) && off > old(off)
    {
      SkipRun(Space);
      if off >= |src| {
        t := Token(EOF, "");
      } else {
        t := NextToken();
      }
      prevKind := t.kind;
    }

    method NextToken() returns (t: Token)
      requires Valid() && off < |src|
      modifies this`off
      ensures Valid() && Lexed(t, off) == TokenAt(src, old(off), prevKind)
    {
      hide WordAt, NumberAt, DelimiterAt, QuoteEnd;
      var start, c := off, src[off];
      if c == '-' && Ch(src, off + 1) == '-' {
        Advance();
        Advance();
        SkipRun(CommentChar);
        t := Text(COMMENT, start);
      } else if c == '\\' {
        Advance();
        SkipQuoted('\\');
        t := Text(EXTIDENT, start);
      } else if c == '"' {
        Advance();
        SkipQuoted('"');
        t := Text(STRINGLIT, start);
      } else if IsLetter(c) {
        t := NextWord();
      } else if IsDigit(c) {
        t := NextNumber();
      } else {
        t := NextDelimiter();
      }
    }
  }

  ghost function AsSeq(ts: Stream): seq<Token> {
    if ts.Done? then [] else [ts.head] + AsSeq(ts.tail)
  }

  lemma {:induction false} FromAsSeq(ts: Stream, pre: seq<Token>)
    ensures From(pre + AsSeq(ts) + [Token(EOF, "")], |pre|) == ts
    decreases ts
  {
    var toks := pre + AsSeq(ts) + [Token(EOF, "")];
    if ts.More? {
      assert toks == pre + [ts.head] + AsSeq(ts.tail) + [Token(EOF, "")];
      FromAsSeq(ts.tail, pre + [ts.head]);
    }
  }

  lemma {:induction false} NoEof(s: string, i: nat, prev: Kind)
    requires i < |s|
    ensures TokenAt(s, i, prev).tok.kind != EOF
  {
    hide WordAt, NumberAt, DelimiterAt, QuoteEnd;
    if IsLetter(s[i]) { WordKinds(s, i); }
    if IsDigit(s[i]) { NumberKinds(s, i); }
    SignKinds(s, i, prev);
  }

  lemma {:induction false} LexTurn(s: string, i: nat, prev: Kind)
    requires i <= |s|
    ensures var j := End(Space, s, i);
            if j == |s| then AsSeq(Lex(s, i, prev)) == []
            else
              var r := TokenAt(s, j, prev);
              r.tok.kind != EOF && AsSeq(Lex(s, i, prev)) == (if r.tok.kind == COMMENT then [] else [r.tok]) + AsSeq(Lex(s, r.end, r.tok.kind))
  {
    hide TokenAt;
    var j := End(Space, s, i);
    if j < |s| { NoEof(s, j, prev); }
  }

  /** The lexing loop of newParser. Its iteration cap is never reached. */
  method Tokenize(src: string) returns (toks: seq<Token>)
    ensures toks == AsSeq(Lex(src, 0, ILLEGAL)) + [Token(EOF, "")]
  {
    hide TokenAt, Lex, AsSeq, End;
    var l := new Lexer(src);
    var cap := |src| * 2 + 16;
    var iters := 0;
    toks := [];
    ghost var all := AsSeq(Lex(src, 0, ILLEGAL));
    assert toks + AsSeq(Lex(src, l.off, l.prevKind)) == all;
    while true
      invariant l.Valid() && l.src == src && iters <= l.off && fresh(l)
      invariant toks + AsSeq(Lex(src, l.off, l.prevKind)) == all
      decreases |src| - l.off
    {
      if iters > cap { assert false; }
      LexTurn(src, l.off, l.prevKind);
      var t := l.Next();
      if t.kind == EOF {
        toks := toks + [t];
        return;
      }
      if t.kind != COMMENT { toks := toks + [t]; }
      iters := iters + 1;
    }
  }

  /** newParser. */
  method NewParser(src: string) returns (p: Parser)
    ensures fresh(p) && p.Valid() && p.Rest() == Lex(src, 0, ILLEGAL) && p.errs == 0
  {
    hide Lex, AsSeq;
    var toks := Tokenize(src);
    FromAsSeq(Lex(src, 0, ILLEGAL), []);
    assert [] + AsSeq(Lex(src, 0, ILLEGAL)) + [Token(EOF, "")] == toks;
    p := new Parser(toks);
  }

  /** An expression parsed from a source text. */
  method ParseExprText(src: string) returns (e: Expr, errs: nat)
    ensures var r := G.ParseExpr(Lex(src, 0, ILLEGAL)); e == r.v && errs == r.errs
  {
    hide Lex, G.ParseExpr;
    var p := NewParser(src);
    e := p.ParseExpr();
    errs := p.errs;
  }

  /** A sequential statement parsed from a source text. */
  method ParseStmtText(src: string) returns (s: Option<Stmt>, errs: nat)
    ensures var r := G.ParseStmt(Lex(src, 0, ILLEGAL)); s == r.v && errs == r.errs
  {
    hide Lex, G.ParseStmt;
    var p := NewParser(src);
    s := p.ParseSequentialStmt();
    errs := p.errs;
  }
}
