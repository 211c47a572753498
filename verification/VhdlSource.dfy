// tools/socgen/vhdl: expressions from source text to tree, to printed text, and back.

module VhdlSource {
  import opened Common
  import opened VhdlGrammar
  import opened VhdlExprTheorems
  import opened VhdlText

  // ---- Kinds are spelled like tokens ----

  lemma {:induction false} WordIsLexeme(k: Kind)
    requires IsKeyword(k) && k != OTHERWORD
    ensures IsLexeme(KindToken(k))
  {
    hide TokenAt, WordOf, Keyword;
    var w := WordOf(k);
    NamedIsWord(k);
    WordChars(k);
    assert w[0] in w;
    WholeWord(w, 1);
    LowerIs(w);
    WordToken(w, k);
    assert Reads(w, 0, ILLEGAL, KindToken(k));
  }

  predicate IsWordOf(k: Option<Kind>, w: string) { k.Some? ==> ABS <= k.value < OTHERWORD && WordOf(k.value) == w }

  lemma {:induction false} SpelledAtoE(w: string)
    ensures IsWordOf(NamedA(w), w) && IsWordOf(NamedC(w), w) && IsWordOf(NamedD(w), w) && IsWordOf(NamedE(w), w)
  {
  }

  lemma {:induction false} SpelledFtoM(w: string)
    ensures IsWordOf(NamedF(w), w) && IsWordOf(NamedI(w), w) && IsWordOf(NamedL(w), w) && IsWordOf(NamedM(w), w)
  {
  }

  lemma {:induction false} SpelledNtoO(w: string)
    ensures IsWordOf(NamedN(w), w) && IsWordOf(NamedO(w), w)
  {
  }

  lemma {:induction false} SpelledR(w: string)
    ensures IsWordOf(NamedR(w), w)
  {
  }

  lemma {:induction false} SpelledS(w: string)
    ensures IsWordOf(NamedS(w), w)
  {
  }

  lemma {:induction false} SpelledTtoX(w: string)
    ensures IsWordOf(NamedT(w), w) && IsWordOf(NamedU(w), w) && IsWordOf(NamedW(w), w) && IsWordOf(NamedX(w), w)
  {
  }

  lemma {:induction false} NamedSpelled(w: string)
    ensures IsWordOf(Named(w), w)
  {
    hide IsWordOf, NamedA, NamedC, NamedD, NamedE, NamedF, NamedI, NamedL, NamedM, NamedN, NamedO, NamedR, NamedS, NamedT, NamedU, NamedW, NamedX;
    assert IsWordOf(None, w) by { NoWord(w); }
    SpelledAtoE(w);
    SpelledFtoM(w);
    SpelledNtoO(w);
    SpelledR(w);
    SpelledS(w);
    SpelledTtoX(w);
  }

  lemma {:induction false} NoWord(w: string)
    ensures IsWordOf(None, w)
  {
  }

  predicate IsWordText(w: string) { |w| >= 2 && forall c :: c in w ==> 'a' <= c <= 'z' }

  lemma {:induction false} WordChars(k: Kind)
    requires IsKeyword(k) && k != OTHERWORD
    ensures IsWordText(WordOf(k))
  {
    hide WordOf, IsWordText;
    if ABS <= k <= NULL {
      WordCharsToN(k);
    } else if ON <= k <= REJECT {
      WordCharsOnToRe(k);
    } else if REM <= k <= ROR {
      WordCharsRemToRor(k);
    } else if k == SEVERITY {
      WordCharsSeverity(k);
    } else if SLA <= k <= SRL {
      WordCharsShift(k);
    } else if THEN <= k <= TRANSPORT {
      WordCharsThen(k);
    } else if UNTIL <= k <= WHEN {
      WordCharsUntil(k);
    } else {
      WordCharsWhile(k);
    }
  }

  lemma {:induction false} WordCharsToN(k: Kind)
    requires ABS <= k <= NULL
    ensures IsWordText(WordOf(k))
  {
  }

  lemma {:induction false} WordCharsOnToRe(k: Kind)
    requires ON <= k <= REJECT
    ensures IsWordText(WordOf(k))
  {
  }

  lemma {:induction false} WordCharsRemToRor(k: Kind)
    requires REM <= k <= ROR
    ensures IsWordText(WordOf(k))
  {
  }

  lemma {:induction false} WordCharsSeverity(k: Kind)
    requires k == SEVERITY
    ensures IsWordText(WordOf(k))
  {
  }

  lemma {:induction false} WordCharsShift(k: Kind)
    requires SLA <= k <= SRL
    ensures IsWordText(WordOf(k))
  {
  }

  lemma {:induction false} WordCharsThen(k: Kind)
    requires THEN <= k <= TRANSPORT
    ensures IsWordText(WordOf(k))
  {
  }

  lemma {:induction false} WordCharsUntil(k: Kind)
    requires UNTIL <= k <= WHEN
    ensures IsWordText(WordOf(k))
  {
  }

  lemma {:induction false} WordCharsWhile(k: Kind)
    requires WHILE <= k <= XOR
    ensures IsWordText(WordOf(k))
  {
  }

  // ---- Words in letters of either case ----

  predicate SameLetters(w: string, word: string) {
    |w| == |word| && forall i :: 0 <= i < |w| ==> w[i] == word[i] || ('A' <= w[i] <= 'Z' && w[i] as int + 32 == word[i] as int)
  }

  /** A letter and the letters, digits and underscores behind it, up to e. */
  predicate IsWordAt(s: string, i: nat, e: nat) {
    && i < e <= |s| && ('a' <= s[i] <= 'z' || 'A' <= s[i] <= 'Z')
    && (forall j :: i < j < e ==> 'a' <= s[j] <= 'z' || 'A' <= s[j] <= 'Z' || '0' <= s[j] <= '9' || s[j] == '_')
    && (e < |s| ==> !('a' <= s[e] <= 'z' || 'A' <= s[e] <= 'Z' || '0' <= s[e] <= '9' || s[e] == '_'))
  }

  lemma {:induction false} LowerSame(w: string, word: string)
    requires forall i :: 0 <= i < |word| ==> 'a' <= word[i] <= 'z'
    ensures Lower(w) == word <==> SameLetters(w, word)
  {
    if Lower(w) == word {
      forall i | 0 <= i < |w| ensures w[i] == word[i] || ('A' <= w[i] <= 'Z' && w[i] as int + 32 == word[i] as int) { assert Lower(w)[i] == LowerChar(w[i]); }
    }
    if SameLetters(w, word) {
      forall i | 0 <= i < |w| ensures Lower(w)[i] == word[i] {}
    }
  }

  lemma {:induction false} WordEnds(s: string, j: nat, i: nat, e: nat)
    requires IsWordAt(s, i, e) && i < j <= e
    ensures End(WordChar, s, j) == e
    decreases e - j
  {
    if j < e { WordEnds(s, j + 1, i, e); }
  }

  /** A word is one token with its own text. Its kind is that of a reserved word exactly when it has the letters of that word, in either
      case; what is no reserved word is an identifier. */
  lemma {:induction false} WordIsRead(s: string, i: nat, e: nat, prev: Kind)
    requires IsWordAt(s, i, e) && !(e == i + 1 && s[i] in "bBoOxX" && e < |s| && s[e] == '"')
    ensures var t := TokenAt(s, i, prev); var w := s[i..e];
            && t.end == e && t.tok.lit == w
            && (forall k :: ABS <= k < OTHERWORD ==> (t.tok.kind == k <==> SameLetters(w, WordOf(k))))
            && (t.tok.kind == OTHERWORD ==> exists v :: v in RESERVED && Lower(w) == v)
            && (!IsKeyword(t.tok.kind) ==> t.tok.kind == IDENT && Lower(w) !in RESERVED)
  {
    hide WordOf, Lower, Named, NumberAt, QuoteEnd, DelimiterAt, SameLetters;
    WordEnds(s, i + 1, i, e);
    var w := s[i..e];
    forall k | ABS <= k < OTHERWORD
      ensures Named(Lower(w)) == Some(k) <==> SameLetters(w, WordOf(k))
    {
      NamedSpelled(Lower(w));
      NamedIsWord(k);
      KeywordIsNamed(k);
      WordChars(k);
      assert forall j :: 0 <= j < |WordOf(k)| ==> WordOf(k)[j] in WordOf(k);
      LowerSame(w, WordOf(k));
    }
    NamedSpelled(Lower(w));
  }

  lemma {:induction false} KeywordIsNamed(k: Kind)
    requires ABS <= k < OTHERWORD && Keyword(WordOf(k)) == Some(k)
    ensures Named(WordOf(k)) == Some(k)
  {
    hide Named, WordOf;
  }

  lemma {:induction false} WholeWord(w: string, i: nat)
    requires i <= |w| && IsWordText(w)
    ensures End(WordChar, w, i) == |w|
    decreases |w| - i
  {
    if i < |w| {
      assert w[i] in w;
      WholeWord(w, i + 1);
    }
  }

  lemma {:induction false} LowerIs(w: string)
    requires IsWordText(w)
    ensures Lower(w) == w
  {
    assert forall j :: 0 <= j < |w| ==> w[j] in w;
    assert forall j :: 0 <= j < |w| ==> Lower(w)[j] == LowerChar(w[j]) == w[j];
  }

  lemma {:induction false} WordToken(w: string, k: Kind)
    requires |w| >= 2 && 'a' <= w[0] <= 'z' && End(WordChar, w, 1) == |w| && Lower(w) == w && Keyword(w) == Some(k)
    ensures TokenAt(w, 0, ILLEGAL) == Lexed(Token(k, w), |w|) && !IsSpace(w[0])
  {
    hide Keyword, Lower, End;
    assert w[0..|w|] == w;
  }

  lemma {:induction false} SignIsLexeme(k: Kind)
    requires IsDelimiter(k)
    ensures IsLexeme(KindToken(k))
  {
    hide TokenAt, WordOf;
    SignToken(k);
    assert Reads(SymbolOf(k), 0, ILLEGAL, KindToken(k));
  }

  lemma {:induction false} SignToken(k: Kind)
    requires IsDelimiter(k)
    ensures SymbolOf(k) != "" && TokenAt(SymbolOf(k), 0, ILLEGAL) == Lexed(KindToken(k), |SymbolOf(k)|) && !IsSpace(SymbolOf(k)[0])
  {
    hide TokenAt;
    SymbolParts(k);
    SymbolToken(k, SymbolOf(k));
  }

  /** The signs of one and of two characters. */
  lemma {:induction false} SymbolParts(k: Kind)
    requires IsDelimiter(k)
    ensures var w := SymbolOf(k); 1 <= |w| <= 2 && KindToken(k) == Token(k, "")
    ensures var w := SymbolOf(k); if |w| == 2 then Pair(w[0], w[1]) == Some(k) else (w[0] == '\'' && k == TICK) || Single(w[0]) == Some(k)
  {
  }

  lemma {:induction false} SymbolToken(k: Kind, w: string)
    requires 1 <= |w| <= 2 && KindToken(k) == Token(k, "")
    requires if |w| == 2 then Pair(w[0], w[1]) == Some(k) else (w[0] == '\'' && k == TICK) || Single(w[0]) == Some(k)
    ensures TokenAt(w, 0, ILLEGAL) == Lexed(KindToken(k), |w|) && !IsSpace(w[0])
  {
    hide WordAt, NumberAt, QuoteEnd, DelimiterAt;
    if |w| == 1 { OneSign(k, w); } else { TwoSigns(k, w); }
  }

  lemma {:induction false} OneSign(k: Kind, w: string)
    requires |w| == 1 && ((w[0] == '\'' && k == TICK) || Single(w[0]) == Some(k))
    ensures DelimiterAt(w, 0, ILLEGAL) == Lexed(Token(k, ""), 1) && !IsSpace(w[0]) && !IsLetter(w[0]) && !IsDigit(w[0]) && w[0] != '"' && w[0] != '\\' && Ch(w, 1) == '\0'
  {
  }

  lemma {:induction false} TwoSigns(k: Kind, w: string)
    requires |w| == 2 && Pair(w[0], w[1]) == Some(k)
    ensures DelimiterAt(w, 0, ILLEGAL) == Lexed(Token(k, ""), 2) && !IsSpace(w[0]) && !IsLetter(w[0]) && !IsDigit(w[0]) && w[0] != '"' && w[0] != '\\' && w[0] != '-'
  {
  }

  lemma {:induction false} KindIsLexeme(k: Kind)
    requires IsDelimiter(k) || (IsKeyword(k) && k != OTHERWORD)
    ensures IsLexeme(KindToken(k))
  {
    hide IsDelimiter, IsKeyword, IsLexeme;
    if IsDelimiter(k) { SignIsLexeme(k); } else { WordIsLexeme(k); }
  }

  lemma {:induction false} OpIsLexeme(t: nat, k: Kind)
    requires IsOp(t, k)
    ensures IsLexeme(KindToken(k))
  {
    hide IsLexeme;
    KindIsLexeme(k);
  }

  // ---- Trees whose tokens some text has ----

  ghost predicate NameMade(s: seq<Token>) { forall t :: t in s ==> IsLexeme(t) }

  ghost predicate Made(e: Expr)
    decreases e, 0
  {
    match e
    case BasicLit(t) => IsLexeme(t)
    case PhysicalLit(v, u) => IsLexeme(v) && IsLexeme(u)
    case Ident(name) => NameMade(name)
    case Range(l, d, h) => Made(l) && IsLexeme(KindToken(d)) && Made(h)
    case Binary(x, op, y) => Made(x) && IsLexeme(KindToken(op)) && Made(y)
    case Unary(op, x) => IsLexeme(KindToken(op)) && Made(x)
    case Call(f, args) => Made(f) && AssocsMade(args)
    case Selector(x, s) => Made(x) && IsLexeme(s)
    case AttrName(x, a) => Made(x) && IsLexeme(a)
    case Paren(x) => Made(x)
    case Aggregate(es) => ElemsMade(es)
    case Qualified(m, x) => Made(m) && Made(x)
  }

  ghost predicate AssocMade(a: Assoc)
    decreases a, 0
  {
    Made(a.actual) && (a.formal.Some? ==> Made(a.formal.value))
  }

  ghost predicate AssocsMade(args: seq<Assoc>)
    decreases args, 1
  {
    forall a :: a in args ==> AssocMade(a)
  }

  ghost predicate ElemMade(x: Elem)
    decreases x, 0
  {
    Made(x.value) && AllMade(x.choices)
  }

  ghost predicate ElemsMade(es: seq<Elem>)
    decreases es, 1
  {
    forall x :: x in es ==> ElemMade(x)
  }

  ghost predicate AllMade(cs: seq<Expr>)
    decreases cs, 1
  {
    forall c :: c in cs ==> Made(c)
  }

  // ---- Their print ----

  lemma {:induction false} SignLexemes()
    ensures IsLexeme(KindToken(LPAREN)) && IsLexeme(KindToken(RPAREN)) && IsLexeme(KindToken(COMMA)) && IsLexeme(KindToken(ARROW))
    ensures IsLexeme(KindToken(BAR)) && IsLexeme(KindToken(DOT)) && IsLexeme(KindToken(TICK)) && IsLexeme(KindToken(EXP))
  {
    hide IsLexeme, KindToken;
    KindIsLexeme(LPAREN);
    KindIsLexeme(RPAREN);
    KindIsLexeme(COMMA);
    KindIsLexeme(ARROW);
    KindIsLexeme(BAR);
    KindIsLexeme(DOT);
    KindIsLexeme(TICK);
    KindIsLexeme(EXP);
  }

  lemma {:induction false} NamePrinted(s: seq<Token>, r: Text)
    requires NameMade(s) && AllLexemes(r)
    ensures AllLexemes(PrintName(s, r))
    decreases s
  {
    hide IsLexeme;
    if s != [] { NamePrinted(s[1..], r); }
  }

  lemma {:induction false} KeyPrinted(k: Kind, r: Text)
    requires IsLexeme(KindToken(k)) && AllLexemes(r)
    ensures AllLexemes(K(k, r)) && AllLexemes(K(k, Sp(r))) && AllLexemes(Spaced(k, r))
  {
    hide IsLexeme, WordOf;
    assert AllLexemes(Sp(r));
  }

  lemma {:induction false} TokenPrinted(t: Token, r: Text)
    requires IsLexeme(t) && AllLexemes(r)
    ensures AllLexemes(T(t, r))
  {
    hide IsLexeme;
  }

  lemma {:induction false} ExprPrinted(e: Expr, r: Text)
    requires Made(e) && AllLexemes(r)
    ensures AllLexemes(PrintExpr(e, r))
    decreases e, 0
  {
    hide IsLexeme, WordOf, AllLexemes, NameMade;
    SignLexemes();
    match e
    case BasicLit(t) => TokenPrinted(t, r);
    case PhysicalLit(v, u) => TokenPrinted(u, r); UnitPrinted(v, T(u, r));
    case Ident(name) => NamePrinted(name, r);
    case Range(l, d, h) => ExprPrinted(h, r); KeyPrinted(d, PrintExpr(h, r)); ExprPrinted(l, Spaced(d, PrintExpr(h, r)));
    case Binary(x, op, y) => ExprPrinted(y, r); KeyPrinted(op, PrintExpr(y, r)); ExprPrinted(x, Spaced(op, PrintExpr(y, r)));
    case Unary(op, x) => ExprPrinted(x, r); KeyPrinted(op, PrintExpr(x, r));
    case Call(f, args) =>
      KeyPrinted(RPAREN, r);
      AssocsPrinted(args, K(RPAREN, r));
      KeyPrinted(LPAREN, PrintAssocs(args, K(RPAREN, r)));
      ExprPrinted(f, K(LPAREN, PrintAssocs(args, K(RPAREN, r))));
    case Selector(x, s) => TokenPrinted(s, r); KeyPrinted(DOT, T(s, r)); ExprPrinted(x, K(DOT, T(s, r)));
    case AttrName(x, a) => TokenPrinted(a, r); KeyPrinted(TICK, T(a, r)); ExprPrinted(x, K(TICK, T(a, r)));
    case Paren(x) => KeyPrinted(RPAREN, r); ExprPrinted(x, K(RPAREN, r)); KeyPrinted(LPAREN, PrintExpr(x, K(RPAREN, r)));
    case Aggregate(es) => KeyPrinted(RPAREN, r); ElemsPrinted(es, K(RPAREN, r)); KeyPrinted(LPAREN, PrintElems(es, K(RPAREN, r)));
    case Qualified(m, x) => ExprPrinted(x, r); KeyPrinted(TICK, PrintExpr(x, r)); ExprPrinted(m, K(TICK, PrintExpr(x, r)));
  }

  lemma {:induction false} UnitPrinted(v: Token, r: Text)
    requires IsLexeme(v) && AllLexemes(r)
    ensures AllLexemes(T(v, Sp(r)))
  {
    hide IsLexeme;
    assert AllLexemes(Sp(r));
  }

  lemma {:induction false} AssocPrinted(a: Assoc, r: Text)
    requires AssocMade(a) && AllLexemes(r)
    ensures AllLexemes(PrintAssoc(a, r))
    decreases a, 0
  {
    hide IsLexeme, AllLexemes, Made;
    SignLexemes();
    ExprPrinted(a.actual, r);
    if a.formal.Some? {
      KeyPrinted(ARROW, PrintExpr(a.actual, r));
      ExprPrinted(a.formal.value, Spaced(ARROW, PrintExpr(a.actual, r)));
    }
  }

  lemma {:induction false} AssocsPrinted(args: seq<Assoc>, r: Text)
    requires AssocsMade(args) && AllLexemes(r)
    ensures AllLexemes(PrintAssocs(args, r)) && AllLexemes(PrintMoreAssocs(args, r))
    decreases args, 1
  {
    hide IsLexeme, AllLexemes, AssocMade;
    SignLexemes();
    if args != [] {
      AssocsPrinted(args[1..], r);
      AssocPrinted(args[0], PrintMoreAssocs(args[1..], r));
      KeyPrinted(COMMA, PrintAssoc(args[0], PrintMoreAssocs(args[1..], r)));
    }
  }

  lemma {:induction false} ElemPrinted(x: Elem, r: Text)
    requires ElemMade(x) && AllLexemes(r)
    ensures AllLexemes(PrintElem(x, r))
    decreases x, 0
  {
    hide IsLexeme, AllLexemes, Made;
    SignLexemes();
    ExprPrinted(x.value, r);
    if x.choices != [] {
      KeyPrinted(ARROW, PrintExpr(x.value, r));
      ChoicesPrinted(x.choices, Spaced(ARROW, PrintExpr(x.value, r)));
    }
  }

  lemma {:induction false} ElemsPrinted(es: seq<Elem>, r: Text)
    requires ElemsMade(es) && AllLexemes(r)
    ensures AllLexemes(PrintElems(es, r)) && AllLexemes(PrintMoreElems(es, r))
    decreases es, 1
  {
    hide IsLexeme, AllLexemes, ElemMade;
    SignLexemes();
    if es != [] {
      ElemsPrinted(es[1..], r);
      ElemPrinted(es[0], PrintMoreElems(es[1..], r));
      KeyPrinted(COMMA, PrintElem(es[0], PrintMoreElems(es[1..], r)));
    }
  }

  lemma {:induction false} ChoicesPrinted(cs: seq<Expr>, r: Text)
    requires AllMade(cs) && AllLexemes(r)
    ensures AllLexemes(PrintChoices(cs, r)) && AllLexemes(PrintMoreChoices(cs, r))
    decreases cs, 1
  {
    hide IsLexeme, AllLexemes, Made;
    SignLexemes();
    if cs != [] {
      ChoicesPrinted(cs[1..], r);
      ExprPrinted(cs[0], PrintMoreChoices(cs[1..], r));
      KeyPrinted(BAR, PrintExpr(cs[0], PrintMoreChoices(cs[1..], r)));
    }
  }

  // ---- Merging ----

  lemma {:induction false} MergeMade(e: Expr)
    requires Made(e)
    ensures Made(Merge(e))
    decreases e
  {
    hide IsLexeme, HasTick, KindToken;
    SignLexemes();
    match e
    case BasicLit(_) | PhysicalLit(_, _) | Ident(_) =>
    case Range(l, _, h) => MergeMade(l); MergeMade(h);
    case Binary(x, _, y) => MergeMade(x); MergeMade(y);
    case Unary(_, x) => MergeMade(x);
    case Call(f, args) => MergeMade(f); MergeAssocsMade(args);
    case Selector(x, _) => MergeMade(x);
    case AttrName(x, _) => MergeMade(x);
    case Paren(x) => MergeMade(x);
    case Aggregate(es) => MergeElemsMade(es);
    case Qualified(m, x) => MergeMade(m); MergeMade(x);
  }

  lemma {:induction false} MergeAssocsMade(args: seq<Assoc>)
    requires AssocsMade(args)
    ensures AssocsMade(MergeAssocs(args))
    decreases args
  {
    hide AssocMade, MergeAssoc;
    if args != [] {
      MergeAssocMade(args[0]);
      MergeAssocsMade(args[1..]);
    }
  }

  lemma {:induction false} MergeAssocMade(a: Assoc)
    requires AssocMade(a)
    ensures AssocMade(MergeAssoc(a))
    decreases a
  {
    hide Made, Merge;
    MergeMade(a.actual);
  }

  lemma {:induction false} MergeElemsMade(es: seq<Elem>)
    requires ElemsMade(es)
    ensures ElemsMade(MergeElems(es))
    decreases es
  {
    hide ElemMade, MergeElem;
    if es != [] {
      MergeElemMade(es[0]);
      MergeElemsMade(es[1..]);
    }
  }

  lemma {:induction false} MergeElemMade(x: Elem)
    requires ElemMade(x)
    ensures ElemMade(MergeElem(x))
    decreases x
  {
    hide Made, Merge, AllMade;
    match x
    case Elem(choices, value) =>
      MergeMade(value);
      MergeChoicesMade(choices);
  }

  lemma {:induction false} MergeChoicesMade(cs: seq<Expr>)
    requires AllMade(cs)
    ensures AllMade(MergeAll(cs))
    decreases cs
  {
    hide Made, Merge;
    if cs != [] {
      MergeMade(cs[0]);
      MergeChoicesMade(cs[1..]);
    }
  }

  // ---- Parsing ----

  /** Every token of a token list is one that some text has. */
  ghost predicate Origin(ts: Stream) { ts.Done? || (IsLexeme(ts.head) && Origin(ts.tail)) }

  lemma {:induction false} AdvOrigin(ts: Stream)
    requires Origin(ts)
    ensures Origin(Adv(ts)) && (ts.More? ==> IsLexeme(Cur(ts)))
  {
    hide IsLexeme;
  }

  /** A segment or attribute after a dot or tick. */
  lemma {:induction false} PairOrigin(ts: Stream)
    requires Origin(ts) && (IsSegment(Peek(ts)) || IsAttr(Peek(ts)))
    ensures Origin(Adv(Adv(ts))) && IsLexeme(Spelled(Cur(Adv(ts)))) && Len(Adv(Adv(ts))) < Len(ts)
  {
    hide IsLexeme, WordOf, SymbolOf;
    var t := Cur(Adv(ts));
    if t.lit == "" { UnspelledNone(t); }
  }

  /** Identifiers and reserved words have a spelling. */
  lemma {:induction false} UnspelledNone(t: Token)
    requires IsLexeme(t) && t.lit == ""
    ensures IsDelimiter(t.kind)
  {
    hide TokenAt;
    var s: string, i: nat, p: Kind :| Reads(s, i, p, t);
    LiteralText(s, i, p);
  }

  lemma {:induction false} LiteralText(s: string, i: nat, prev: Kind)
    requires i < |s| && TokenAt(s, i, prev).tok.lit == ""
    ensures IsDelimiter(TokenAt(s, i, prev).tok.kind)
  {
    hide WordAt, NumberAt, DelimiterAt, QuoteEnd;
    if s[i] == '\\' || s[i] == '"' || (s[i] == '-' && Ch(s, i + 1) == '-') {
    } else if IsLetter(s[i]) {
      WordText(s, i);
    } else if IsDigit(s[i]) {
      NumberText(s, i);
    } else {
      SignEmpty(s, i, prev);
    }
  }

  lemma {:induction false} SignEmpty(s: string, i: nat, prev: Kind)
    requires i < |s| && DelimiterAt(s, i, prev).tok.lit == ""
    ensures IsDelimiter(DelimiterAt(s, i, prev).tok.kind)
  {
    SignKinds(s, i, prev);
  }

  lemma {:induction false} DotsMade(name: seq<Token>, ts: Stream)
    requires Origin(ts) && NameMade(name)
    ensures NameMade(Dots(name, ts).0) && Origin(Dots(name, ts).1)
    decreases Len(ts)
  {
    hide IsLexeme, Spelled, IsSegment, KindToken;
    SignLexemes();
    AdvOrigin(ts);
    if At(ts) == DOT && IsSegment(At(Adv(ts))) {
      PairOrigin(ts);
      DotsMade(name + [KindToken(DOT), Spelled(Cur(Adv(ts)))], Adv(Adv(ts)));
    }
  }

  lemma {:induction false} TicksMade(name: seq<Token>, ts: Stream)
    requires Origin(ts) && NameMade(name)
    ensures NameMade(Ticks(name, ts).0) && Origin(Ticks(name, ts).1)
    decreases Len(ts)
  {
    hide IsLexeme, Spelled, IsAttr, KindToken;
    SignLexemes();
    if At(ts) == TICK && IsAttr(Peek(ts)) {
      PairOrigin(ts);
      TicksMade(name + [KindToken(TICK), Spelled(Cur(Adv(ts)))], Adv(Adv(ts)));
    }
  }

  lemma {:induction false} NameMadeBy(ts: Stream)
    requires Origin(ts) && ts.More? && ParseName(ts).errs == 0
    ensures Made(ParseName(ts).v) && Origin(ParseName(ts).rest)
    decreases Len(ts), 2
  {
    hide IsLexeme, Suffixes, ParseParen, Dots, Ticks, Origin;
    var name := Head(Cur(ts));
    AdvOrigin(ts);
    DotsMade(name, Adv(ts));
    TicksMade(Dots(name, Adv(ts)).0, Dots(name, Adv(ts)).1);
    var n := FlatName(name, Adv(ts));
    if At(n.1) == TICK && Peek(n.1) == LPAREN {
      AdvOrigin(n.1);
      ParenMade(Adv(n.1));
    } else {
      SuffixesMade(Ident(n.0), n.1, 0);
    }
  }

  lemma {:induction false} SuffixesMade(e: Expr, ts: Stream, errs: nat)
    requires Origin(ts) && Made(e) && Suffixes(e, ts, errs).errs == 0
    ensures Made(Suffixes(e, ts, errs).v) && Origin(Suffixes(e, ts, errs).rest)
    decreases Len(ts), 1
  {
    hide IsLexeme, ParseArgs, IsSegment, IsAttr, Spelled, Origin, Expect;
    if At(ts) == LPAREN {
      CallMade(e, ts, errs);
    } else if At(ts) == DOT && IsSegment(Peek(ts)) {
      PairOrigin(ts);
      SuffixesMade(Selector(e, Spelled(Cur(Adv(ts)))), Adv(Adv(ts)), errs);
    } else if At(ts) == TICK && IsAttr(Peek(ts)) {
      PairOrigin(ts);
      SuffixesMade(AttrName(e, Spelled(Cur(Adv(ts)))), Adv(Adv(ts)), errs);
    }
  }

  lemma {:induction false} CallMade(e: Expr, ts: Stream, errs: nat)
    requires At(ts) == LPAREN && Origin(ts) && Made(e) && Suffixes(e, ts, errs).errs == 0
    ensures Made(Suffixes(e, ts, errs).v) && Origin(Suffixes(e, ts, errs).rest)
    decreases Len(ts), 0
  {
    hide IsLexeme, ParseArgs, IsSegment, IsAttr, Spelled, Origin;
    var args := ParseArgs(Adv(ts));
    var c := Expect(RPAREN, args.rest);
    assert args.errs == 0 && c.errs == 0;
    AdvOrigin(ts);
    ArgsMade(Adv(ts));
    AdvOrigin(args.rest);
    SuffixesMade(Call(e, args.v), c.rest, errs);
  }

  lemma {:induction false} ArgsMade(ts: Stream)
    requires Origin(ts) && ParseArgs(ts).errs == 0
    ensures AssocsMade(ParseArgs(ts).v) && Origin(ParseArgs(ts).rest)
    decreases Len(ts), 23
  {
    hide ParseAssoc, MoreAssocs, AssocMade, Origin;
    if At(ts) != RPAREN {
      AssocMadeBy(ts);
      MoreAssocsMade([ParseAssoc(ts).v], ParseAssoc(ts).rest);
    }
  }

  lemma {:induction false} MoreAssocsMade(acc: seq<Assoc>, ts: Stream)
    requires Origin(ts) && AssocsMade(acc) && MoreAssocs(acc, ts, NO_ERRORS).errs == 0
    ensures AssocsMade(MoreAssocs(acc, ts, NO_ERRORS).v) && Origin(MoreAssocs(acc, ts, NO_ERRORS).rest)
    decreases Len(ts), 0
  {
    hide ParseAssoc, AssocMade, Origin;
    if At(ts) == COMMA {
      var a := ParseAssoc(Adv(ts));
      AdvOrigin(ts);
      AssocMadeBy(Adv(ts));
      MoreAssocsMade(acc + [a.v], a.rest);
    }
  }

  lemma {:induction false} AssocMadeBy(ts: Stream)
    requires Origin(ts) && ParseAssoc(ts).errs == 0
    ensures AssocMade(ParseAssoc(ts).v) && Origin(ParseAssoc(ts).rest)
    decreases Len(ts), 22
  {
    hide ParseExpr, Merge, Made, Origin;
    var x := ParseExpr(ts);
    ExprMade(ts);
    if At(x.rest) == ARROW {
      AdvOrigin(x.rest);
      ExprMade(Adv(x.rest));
      MergeMade(x.v);
    }
  }

  lemma {:induction false} ParenMade(ts: Stream)
    requires Origin(ts) && At(ts) == LPAREN && ParseParen(ts).errs == 0
    ensures Made(ParseParen(ts).v) && Origin(ParseParen(ts).rest)
    decreases Len(ts), 1
  {
    hide ParseElems, Origin;
    var es := ParseElems(Adv(ts));
    AdvOrigin(ts);
    ElemsMadeBy(Adv(ts));
    AdvOrigin(es.rest);
    if |es.v| == 1 && es.v[0].choices == [] { assert ElemMade(es.v[0]); }
  }

  lemma {:induction false} ElemsMadeBy(ts: Stream)
    requires Origin(ts) && ParseElems(ts).errs == 0
    ensures ElemsMade(ParseElems(ts).v) && Origin(ParseElems(ts).rest)
    decreases Len(ts), 23
  {
    hide ParseElem, MoreElems, ElemMade, Origin;
    if At(ts) != RPAREN {
      ElemMadeBy(ts);
      MoreElemsMade([ParseElem(ts).v], ParseElem(ts).rest);
    }
  }

  lemma {:induction false} MoreElemsMade(acc: seq<Elem>, ts: Stream)
    requires Origin(ts) && ElemsMade(acc) && MoreElems(acc, ts, NO_ERRORS).errs == 0
    ensures ElemsMade(MoreElems(acc, ts, NO_ERRORS).v) && Origin(MoreElems(acc, ts, NO_ERRORS).rest)
    decreases Len(ts), 0
  {
    hide ParseElem, ElemMade, Origin;
    if At(ts) == COMMA {
      AdvOrigin(ts);
      if At(Adv(ts)) != RPAREN {
        var a := ParseElem(Adv(ts));
        ElemMadeBy(Adv(ts));
        MoreElemsMade(acc + [a.v], a.rest);
      }
    }
  }

  lemma {:induction false} ElemMadeBy(ts: Stream)
    requires Origin(ts) && ParseElem(ts).errs == 0
    ensures ElemMade(ParseElem(ts).v) && Origin(ParseElem(ts).rest)
    decreases Len(ts), 22
  {
    hide ParseExpr, MoreChoices, Made, Origin;
    var x := ParseExpr(ts);
    ExprMade(ts);
    if At(x.rest) == BAR || At(x.rest) == ARROW {
      var cs := MoreChoices([x.v], x.rest, x.errs);
      MoreChoicesMade([x.v], x.rest);
      AdvOrigin(cs.rest);
      ExprMade(Adv(cs.rest));
    }
  }

  lemma {:induction false} MoreChoicesMade(acc: seq<Expr>, ts: Stream)
    requires Origin(ts) && AllMade(acc) && MoreChoices(acc, ts, NO_ERRORS).errs == 0
    ensures AllMade(MoreChoices(acc, ts, NO_ERRORS).v) && Origin(MoreChoices(acc, ts, NO_ERRORS).rest)
    decreases Len(ts), 0
  {
    hide ParseExpr, Made, Origin;
    if At(ts) == BAR {
      var x := ParseExpr(Adv(ts));
      AdvOrigin(ts);
      ExprMade(Adv(ts));
      MoreChoicesMade(acc + [x.v], x.rest);
    }
  }

  lemma {:induction false} PrimaryMade(ts: Stream)
    requires Origin(ts) && ParsePrimary(ts).errs == 0
    ensures Made(ParsePrimary(ts).v) && Origin(ParsePrimary(ts).rest)
    decreases Len(ts), 3
  {
    hide ParseParen, ParseName, IsLexeme, Origin, KindToken;
    AdvOrigin(ts);
    AdvOrigin(Adv(ts));
    if At(ts) == LPAREN {
      ParenMade(ts);
    } else if At(ts) == IDENT || At(ts) == EXTIDENT {
      NameMadeBy(ts);
    } else if IsWordPrimary(At(ts)) {
      KindIsLexeme(At(ts));
    }
  }

  lemma {:induction false} FactorMade(ts: Stream)
    requires Origin(ts) && ParseFactor(ts).errs == 0
    ensures Made(ParseFactor(ts).v) && Origin(ParseFactor(ts).rest)
    decreases Len(ts), 4
  {
    hide ParsePrimary, IsLexeme, Origin, KindToken;
    AdvOrigin(ts);
    SignLexemes();
    if At(ts) == ABS || At(ts) == NOT {
      KindIsLexeme(At(ts));
      PrimaryMade(Adv(ts));
    } else {
      PrimaryMade(ts);
      var x := ParsePrimary(ts);
      if At(x.rest) == EXP {
        AdvOrigin(x.rest);
        PrimaryMade(Adv(x.rest));
      }
    }
  }

  lemma {:induction false} OperandMade(t: nat, ts: Stream)
    requires 1 <= t <= 5 && Origin(ts) && ParseOperand(t, ts).errs == 0
    ensures Made(ParseOperand(t, ts).v) && Origin(ParseOperand(t, ts).rest)
    decreases Len(ts), 15 - 2 * t
  {
    hide ParseFactor, ParseTier, Made, Origin;
    if t == 5 { FactorMade(ts); } else { TierMade(t + 1, ts); }
  }

  lemma {:induction false} FoldMade(t: nat, left: Expr, ts: Stream)
    requires 1 <= t <= 5 && Origin(ts) && Made(left) && FoldTier(t, left, ts, NO_ERRORS).errs == 0
    ensures Made(FoldTier(t, left, ts, NO_ERRORS).v) && Origin(FoldTier(t, left, ts, NO_ERRORS).rest)
    decreases Len(ts), 0
  {
    FoldUnfold(t, left, ts);
    hide ParseOperand, FoldTier, IsOp, IsLexeme, Origin, KindToken;
    if IsOp(t, At(ts)) {
      var y := ParseOperand(t, Adv(ts));
      AdvOrigin(ts);
      OpIsLexeme(t, At(ts));
      OperandMade(t, Adv(ts));
      FoldMade(t, Binary(left, At(ts), y.v), y.rest);
    }
  }

  lemma {:induction false} TierMade(t: nat, ts: Stream)
    requires 1 <= t <= 5 && Origin(ts) && ParseTier(t, ts).errs == 0
    ensures Made(ParseTier(t, ts).v) && Origin(ParseTier(t, ts).rest)
    decreases Len(ts), 16 - 2 * t
  {
    hide ParseOperand, FoldTier, IsLexeme, Origin, KindToken;
    if t == 4 && IsSign(At(ts)) {
      var x := ParseTier(5, Adv(ts));
      AdvOrigin(ts);
      KindIsLexeme(At(ts));
      TierMade(5, Adv(ts));
      FoldMade(4, Unary(At(ts), x.v), x.rest);
    } else {
      OperandMade(t, ts);
      FoldMade(t, ParseOperand(t, ts).v, ParseOperand(t, ts).rest);
    }
  }

  lemma {:induction false} ExprMade(ts: Stream)
    requires Origin(ts) && ParseExpr(ts).errs == 0
    ensures Made(ParseExpr(ts).v) && Origin(ParseExpr(ts).rest)
    decreases Len(ts), 20
  {
    hide ParseTier, IsLexeme, Origin, KindToken;
    var l := ParseTier(1, ts);
    TierMade(1, ts);
    if At(l.rest) == TO || At(l.rest) == DOWNTO {
      AdvOrigin(l.rest);
      KindIsLexeme(At(l.rest));
      TierMade(1, Adv(l.rest));
    }
  }

  // ==== tools/socgen/vhdl: the printed text of a tree lexes back to the tree's tokens.

  /** What can be printed behind anything. */
  predicate Follows(r: Text) { Gap(r) && SetApart(r, RPAREN) }

  lemma {:induction false} Strongest(t: Text, k: Kind)
    requires SetApart(t, RPAREN)
    ensures SetApart(t, k)
  {
    hide NeedsGap, Gap;
    if t.W? { Strongest(t.more, k); }
  }

  lemma {:induction false} KeyApart(k: Kind, r: Text, prev: Kind)
    requires SetApart(r, k) && (NeedsGap(k) ==> Gap(r)) && k != CHARLIT && k != ILLEGAL
    ensures SetApart(K(k, r), prev)
  {
    hide NeedsGap, Gap, WordOf;
  }

  lemma {:induction false} SpacedApart(k: Kind, r: Text, prev: Kind)
    requires SetApart(r, k) && k != CHARLIT && k != ILLEGAL
    ensures SetApart(Spaced(k, r), prev) && Gap(Spaced(k, r)) && SetApart(K(k, Sp(r)), prev)
  {
    hide NeedsGap, WordOf;
    assert SetApart(Sp(r), k) && Gap(Sp(r));
    KeyApart(k, Sp(r), prev);
  }

  lemma {:induction false} OpenApart(r: Text, prev: Kind)
    requires SetApart(r, LPAREN)
    ensures SetApart(K(LPAREN, r), prev) && Gap(K(LPAREN, r))
  {
  }

  lemma {:induction false} TickApart(r: Text, prev: Kind)
    requires SetApart(r, TICK)
    ensures SetApart(K(TICK, r), prev) && Gap(K(TICK, r))
  {
  }

  lemma {:induction false} DotApart(s: Token, r: Text, prev: Kind)
    requires IsSegment(s.kind) && SetApart(r, s.kind) && Gap(r)
    ensures SetApart(K(DOT, T(s, r)), prev) && Gap(K(DOT, T(s, r)))
  {
  }

  /** The first token of a name, behind a token of the kind prev. */
  predicate HeadApart(t: Token, prev: Kind) { (t.kind == CHARLIT ==> !IsNameEnd(prev)) && (t.kind == ILLEGAL ==> |t.lit| == 1) }

  /** A name's pieces. */
  lemma {:induction false} PairPrint(s: seq<Token>, r: Text)
    requires |s| >= 2
    ensures PrintName(s, r) == T(s[0], T(s[1], PrintName(s[2..], r)))
  {
    assert s[1..][0] == s[1] && s[1..][1..] == s[2..];
  }

  lemma {:induction false} TickTailApart(s: seq<Token>, r: Text, prev: Kind)
    requires TickTail(s) && Follows(r)
    ensures SetApart(PrintName(s, r), prev) && Gap(PrintName(s, r))
    decreases |s|
  {
    hide SetApart, Gap, IsAttr;
    if s == [] {
      Strongest(r, prev);
    } else {
      var m := PrintName(s[2..], r);
      TickTailApart(s[2..], r, s[1].kind);
      PairPrint(s, r);
      AttrApart(s[1], m);
      TickApart(T(s[1], m), prev);
    }
  }

  lemma {:induction false} AttrApart(a: Token, r: Text)
    requires IsAttr(a.kind) && SetApart(r, a.kind) && Gap(r)
    ensures SetApart(T(a, r), TICK)
  {
    hide NeedsGap, Gap;
  }

  lemma {:induction false} DotTailApart(s: seq<Token>, r: Text, prev: Kind)
    requires DotTail(s) && Follows(r)
    ensures SetApart(PrintName(s, r), prev) && Gap(PrintName(s, r))
    decreases |s|
  {
    hide SetApart, Gap, IsSegment, TickTail;
    if TickTail(s) {
      TickTailApart(s, r, prev);
    } else {
      var m := PrintName(s[2..], r);
      DotTailApart(s[2..], r, s[1].kind);
      PairPrint(s, r);
      DotApart(s[1], m, prev);
    }
  }

  lemma {:induction false} FlatApart(name: seq<Token>, r: Text, prev: Kind)
    requires IsFlat(name) && HeadApart(name[0], prev) && Follows(r)
    ensures SetApart(PrintName(name, r), prev)
  {
    hide DotTail, Gap;
    DotTailApart(name[1..], r, name[0].kind);
  }

  lemma {:induction false} FlatHead(name: seq<Token>)
    requires IsFlat(name)
    ensures name != [] && HeadOf(Ident(name)) == name[0]
  {
  }

  lemma {:induction false} ChainApart(e: Expr, r: Text, strict: bool, prev: Kind)
    requires IsChain(e, strict) && HeadApart(HeadOf(e), prev) && Follows(r)
    ensures SetApart(PrintExpr(e, r), prev)
    decreases e, 1
  {
    hide IsFlat, IsAssoc, SetApart, Gap, IsSegment, IsAttr, PrintAssocs, HeadApart;
    match e
    case Ident(name) =>
      FlatHead(name);
      FlatApart(name, r, prev);
    case Call(f, args) =>
      AssocsApart(args, r, strict);
      OpenApart(PrintAssocs(args, K(RPAREN, r)), RPAREN);
      ChainApart(f, K(LPAREN, PrintAssocs(args, K(RPAREN, r))), strict, prev);
    case Selector(x, s) =>
      SegmentApart(s, r);
      ChainApart(x, K(DOT, T(s, r)), strict, prev);
    case AttrName(x, a) =>
      Strongest(r, a.kind);
      AttrApart(a, r);
      TickApart(T(a, r), RPAREN);
      ChainApart(x, K(TICK, T(a, r)), strict, prev);
  }

  lemma {:induction false} SegmentApart(s: Token, r: Text)
    requires IsSegment(s.kind) && Follows(r)
    ensures Follows(K(DOT, T(s, r)))
  {
    Strongest(r, s.kind);
  }

  /** A parenthesized list up to its closing parenthesis. */
  lemma {:induction false} AssocsApart(args: seq<Assoc>, r: Text, strict: bool)
    requires AllAssocs(args, strict) && Follows(r)
    ensures SetApart(PrintAssocs(args, K(RPAREN, r)), LPAREN) && SetApart(PrintMoreAssocs(args, K(RPAREN, r)), RPAREN)
    ensures Gap(PrintMoreAssocs(args, K(RPAREN, r)))
    decreases args, 0
  {
    hide NeedsGap, IsAssoc;
    if args == [] {
      CloseApart(r);
    } else {
      assert AllAssocs(args[1..], strict);
      AssocsApart(args[1..], r, strict);
      var m := PrintMoreAssocs(args[1..], K(RPAREN, r));
      AssocApart(args[0], m, strict, LPAREN);
      AssocApart(args[0], m, strict, COMMA);
      CommaApart(PrintAssoc(args[0], m));
    }
  }

  lemma {:induction false} CloseApart(r: Text)
    requires Follows(r)
    ensures Follows(K(RPAREN, r)) && SetApart(K(RPAREN, r), LPAREN)
  {
  }

  lemma {:induction false} CommaApart(r: Text)
    requires SetApart(r, COMMA)
    ensures Follows(K(COMMA, Sp(r)))
  {
    SpacedApart(COMMA, r, RPAREN);
  }

  lemma {:induction false} AssocApart(a: Assoc, r: Text, strict: bool, prev: Kind)
    requires IsAssoc(a, strict) && Follows(r) && !IsNameEnd(prev)
    ensures SetApart(PrintAssoc(a, r), prev)
    decreases a, 0
  {
    hide Full, NeedsGap, Gap;
    if a.formal.None? {
      FullApart(a.actual, r, strict, prev);
    } else {
      FullApart(a.actual, r, strict, ARROW);
      SpacedApart(ARROW, PrintExpr(a.actual, r), RPAREN);
      FullApart(a.formal.value, Spaced(ARROW, PrintExpr(a.actual, r)), true, prev);
    }
  }

  predicate AllElems(es: seq<Elem>, strict: bool) { forall x :: x in es ==> IsElem(x, strict) }

  lemma {:induction false} ElemsApart(es: seq<Elem>, r: Text, strict: bool)
    requires AllElems(es, strict) && Follows(r)
    ensures SetApart(PrintElems(es, K(RPAREN, r)), LPAREN) && SetApart(PrintMoreElems(es, K(RPAREN, r)), RPAREN)
    ensures Gap(PrintMoreElems(es, K(RPAREN, r)))
    decreases es, 0
  {
    hide NeedsGap, IsElem;
    if es == [] {
      CloseApart(r);
    } else {
      assert AllElems(es[1..], strict);
      ElemsApart(es[1..], r, strict);
      var m := PrintMoreElems(es[1..], K(RPAREN, r));
      ElemApart(es[0], m, strict, LPAREN);
      ElemApart(es[0], m, strict, COMMA);
      CommaApart(PrintElem(es[0], m));
    }
  }

  lemma {:induction false} ElemApart(x: Elem, r: Text, strict: bool, prev: Kind)
    requires IsElem(x, strict) && Follows(r) && !IsNameEnd(prev)
    ensures SetApart(PrintElem(x, r), prev)
    decreases x, 0
  {
    hide Full, NeedsGap, Gap;
    if x.choices == [] {
      FullApart(x.value, r, strict, prev);
    } else {
      FullApart(x.value, r, strict, ARROW);
      SpacedApart(ARROW, PrintExpr(x.value, r), RPAREN);
      ChoicesApart(x.choices, Spaced(ARROW, PrintExpr(x.value, r)), strict, prev);
    }
  }

  lemma {:induction false} ChoicesApart(cs: seq<Expr>, r: Text, strict: bool, prev: Kind)
    requires AllFull(cs, strict) && Follows(r) && !IsNameEnd(prev)
    ensures SetApart(PrintChoices(cs, r), prev) && Follows(PrintMoreChoices(cs, r))
    decreases cs, 0
  {
    hide Full, NeedsGap, Gap;
    Strongest(r, prev);
    if cs != [] {
      assert AllFull(cs[1..], strict);
      ChoicesApart(cs[1..], r, strict, prev);
      var m := PrintMoreChoices(cs[1..], r);
      FullApart(cs[0], m, strict, prev);
      FullApart(cs[0], m, strict, BAR);
      SpacedApart(BAR, PrintExpr(cs[0], m), RPAREN);
    }
  }

  /** A parenthesis can follow anything. */
  lemma {:induction false} ParenApart(e: Expr, r: Text, strict: bool, prev: Kind)
    requires (e.Paren? || e.Aggregate?) && IsPrimary(e, strict) && Follows(r)
    ensures SetApart(PrintExpr(e, r), prev) && Gap(PrintExpr(e, r))
    decreases e, 2
  {
    hide Full, IsElem, SetApart, Gap, PrintElems;
    CloseApart(r);
    if e.Paren? {
      FullApart(e.inner, K(RPAREN, r), strict, LPAREN);
      OpenApart(PrintExpr(e.inner, K(RPAREN, r)), prev);
    } else {
      assert AllElems(e.elems, strict);
      ElemsApart(e.elems, r, strict);
      OpenApart(PrintElems(e.elems, K(RPAREN, r)), prev);
    }
  }

  lemma {:induction false} NameApart(e: Expr, r: Text, strict: bool, prev: Kind)
    requires IsName(e, strict) && HeadApart(HeadOf(e), prev) && Follows(r)
    ensures SetApart(PrintExpr(e, r), prev)
    decreases e, 3
  {
    hide IsFlat, IsChain, SetApart, Gap, HeadApart, IsPrimary;
    if e.Qualified? {
      FlatHead(e.mark.name);
      ParenApart(e.inner, r, strict, TICK);
      TickApart(PrintExpr(e.inner, r), RPAREN);
      QualifiedApart(e.mark.name, K(TICK, PrintExpr(e.inner, r)), prev);
    } else {
      ChainApart(e, r, strict, prev);
    }
  }

  lemma {:induction false} QualifiedApart(name: seq<Token>, r: Text, prev: Kind)
    requires IsFlat(name) && HeadApart(name[0], prev) && Follows(r)
    ensures SetApart(PrintExpr(Ident(name), r), prev)
  {
    hide IsFlat;
    FlatApart(name, r, prev);
  }

  lemma {:induction false} PrimaryApart(e: Expr, r: Text, strict: bool, prev: Kind)
    requires IsPrimary(e, strict) && Follows(r) && !IsNameEnd(prev)
    ensures SetApart(PrintExpr(e, r), prev)
    decreases e, 4
  {
    hide IsFlat, Full, IsElem, IsName, HeadOf;
    if e.BasicLit? || e.PhysicalLit? || (e.Ident? && IsWord(e.name)) {
      LiteralApart(e, r, strict, prev);
    } else if e.Paren? || e.Aggregate? {
      ParenApart(e, r, strict, prev);
    } else {
      PrimaryIsName(e, strict);
      NameApart(e, r, strict, prev);
    }
  }

  lemma {:induction false} LiteralApart(e: Expr, r: Text, strict: bool, prev: Kind)
    requires (e.BasicLit? || e.PhysicalLit? || (e.Ident? && IsWord(e.name))) && IsPrimary(e, strict) && Follows(r) && !IsNameEnd(prev)
    ensures SetApart(PrintExpr(e, r), prev)
  {
    hide IsFlat, Gap, SetApart, PrintName, IsWord;
    match e
    case BasicLit(t) => OneApart(t, r, prev);
    case PhysicalLit(v, u) => UnitApart(v, u, r, prev);
    case Ident(name) =>
      WordPrint(name, r);
      OneApart(name[0], r, prev);
  }

  lemma {:induction false} WordPrint(name: seq<Token>, r: Text)
    requires IsWord(name)
    ensures |name| == 1 && PrintName(name, r) == T(name[0], r) && IsWordPrimary(name[0].kind)
  {
    assert name[1..] == [];
  }

  lemma {:induction false} OneApart(t: Token, r: Text, prev: Kind)
    requires (IsLiteralKind(t.kind) || IsWordPrimary(t.kind)) && Follows(r) && !IsNameEnd(prev)
    ensures SetApart(T(t, r), prev)
  {
    hide Gap, NeedsGap;
    Strongest(r, t.kind);
  }

  lemma {:induction false} UnitApart(v: Token, u: Token, r: Text, prev: Kind)
    requires IsNumber(v.kind) && u.kind == IDENT && Follows(r)
    ensures SetApart(T(v, Sp(T(u, r))), prev)
  {
    hide NeedsGap;
    Strongest(r, IDENT);
    assert SetApart(Sp(T(u, r)), v.kind) && Gap(Sp(T(u, r)));
  }

  lemma {:induction false} TierApart(t: nat, e: Expr, r: Text, strict: bool, prev: Kind)
    requires 1 <= t <= 6 && Tiered(t, e, strict) && Follows(r) && !IsNameEnd(prev)
    ensures SetApart(PrintExpr(e, r), prev)
    decreases e, 16 - t
  {
    hide IsPrimary, NeedsGap, Gap;
    if t == 6 {
      FactorApart(e, r, strict, prev);
    } else if e.Binary? && IsOp(t, e.op) {
      OpKind(t, e.op);
      TierApart(t + 1, e.y, r, strict, e.op);
      SpacedApart(e.op, PrintExpr(e.y, r), RPAREN);
      TierApart(t, e.x, Spaced(e.op, PrintExpr(e.y, r)), strict, prev);
    } else if e.Unary? && t == 4 && IsSign(e.uop) {
      TierApart(5, e.operand, r, strict, e.uop);
      SpacedApart(e.uop, PrintExpr(e.operand, r), prev);
    } else {
      TierApart(t + 1, e, r, strict, prev);
    }
  }

  lemma {:induction false} OpKind(t: nat, k: Kind)
    requires IsOp(t, k)
    ensures k != CHARLIT && k != ILLEGAL && !IsNameEnd(k)
  {
  }

  lemma {:induction false} FactorApart(e: Expr, r: Text, strict: bool, prev: Kind)
    requires IsFactor(e, strict) && Follows(r) && !IsNameEnd(prev)
    ensures SetApart(PrintExpr(e, r), prev)
    decreases e, 5
  {
    hide IsPrimary, NeedsGap, Gap;
    if e.Binary? {
      PrimaryApart(e.y, r, strict, EXP);
      SpacedApart(EXP, PrintExpr(e.y, r), RPAREN);
      PrimaryApart(e.x, Spaced(EXP, PrintExpr(e.y, r)), strict, prev);
    } else if e.Unary? {
      PrimaryApart(e.operand, r, strict, e.uop);
      SpacedApart(e.uop, PrintExpr(e.operand, r), prev);
    } else {
      PrimaryApart(e, r, strict, prev);
    }
  }

  /** The printed pieces of every expression of the grammar are set apart. */
  lemma {:induction false} FullApart(e: Expr, r: Text, strict: bool, prev: Kind)
    requires Full(e, strict) && Follows(r) && !IsNameEnd(prev)
    ensures SetApart(PrintExpr(e, r), prev)
    decreases e, 20
  {
    hide Tiered, NeedsGap, Gap;
    if e.Range? {
      TierApart(1, e.right, r, strict, e.dir);
      SpacedApart(e.dir, PrintExpr(e.right, r), RPAREN);
      TierApart(1, e.left, Spaced(e.dir, PrintExpr(e.right, r)), strict, prev);
    } else {
      TierApart(1, e, r, strict, prev);
    }
  }

  /** The printed text of an expression lexes to the expression's tokens exactly when every token keeps its meaning. */
  lemma {:induction false} ExprTextLexes(e: Expr, strict: bool)
    requires Full(e, strict) && AllLexemes(PrintExpr(e, Empty))
    ensures Lex(Render(PrintExpr(e, Empty)), 0, ILLEGAL) == ExprAhead(e, Done) <==> AllKeep(PrintExpr(e, Empty), ILLEGAL)
  {
    hide Full, AllLexemes, AllKeep, Render, PrintExpr, ExprAhead, Lex;
    FullApart(e, Empty, strict, ILLEGAL);
    LexText(PrintExpr(e, Empty), "", ILLEGAL);
    ExprTokens(e, Empty);
    assert "" + Render(PrintExpr(e, Empty)) == Render(PrintExpr(e, Empty));
  }

  // ==== tools/socgen/vhdl: from source text to tree, to printed text, and back.

  lemma {:induction false} TokenSpelt(s: string, i: nat, prev: Kind)
    requires i < |s|
    ensures Spelt(TokenAt(s, i, prev).tok)
  {
    hide WordAt, NumberAt, DelimiterAt, QuoteEnd, IsDelimiter;
    QuotedKinds();
    if s[i] == '\\' || s[i] == '"' || (s[i] == '-' && Ch(s, i + 1) == '-') {
    } else if IsLetter(s[i]) {
      WordKinds(s, i);
      WordText(s, i);
    } else if IsDigit(s[i]) {
      NumberKinds(s, i);
      NumberText(s, i);
      NumbersKinds(NumberAt(s, i).tok.kind);
    } else {
      SignSpelt(s, i, prev);
    }
  }

  lemma {:induction false} QuotedKinds()
    ensures !IsDelimiter(EXTIDENT) && !IsDelimiter(STRINGLIT) && !IsDelimiter(COMMENT) && !NeedsGap(EOF)
  {
  }

  lemma {:induction false} NumbersKinds(k: Kind)
    requires IsNumber(k)
    ensures !IsDelimiter(k)
  {
  }

  lemma {:induction false} SignSpelt(s: string, i: nat, prev: Kind)
    requires i < |s|
    ensures Spelt(DelimiterAt(s, i, prev).tok)
  {
    hide Single, Pair;
    if Pair(s[i], Ch(s, i + 1)).Some? { PairSpelled(s[i], Ch(s, i + 1)); }
    if Single(s[i]).Some? { SingleSpelled(s[i]); }
  }

  /** The tokens of a source text. */
  lemma {:induction false} LexClean(s: string, i: nat, prev: Kind)
    requires i <= |s|
    ensures Clean(Lex(s, i, prev), false) && Origin(Lex(s, i, prev))
    decreases |s| - i
  {
    hide TokenAt, Spelt, IsLexeme;
    var j := End(Space, s, i);
    if j < |s| {
      var r := TokenAt(s, j, prev);
      EndStops(s, i);
      LexClean(s, r.end, if r.tok.kind == COMMENT then COMMENT else r.tok.kind);
      TokenSpelt(s, j, prev);
      if r.tok.kind != COMMENT { FoundLexeme(s, j, prev); }
    }
  }

  lemma {:induction false} EndStops(s: string, i: nat)
    requires i <= |s|
    ensures var j := End(Space, s, i); j < |s| ==> !IsSpace(s[j])
    decreases |s| - i
  {
    if i < |s| && IsSpace(s[i]) { EndStops(s, i + 1); }
  }

  lemma {:induction false} FoundLexeme(s: string, i: nat, prev: Kind)
    requires i < |s| && !IsSpace(s[i]) && TokenAt(s, i, prev).tok.kind != COMMENT
    ensures IsLexeme(TokenAt(s, i, prev).tok)
  {
    hide TokenAt;
    assert Reads(s, i, prev, TokenAt(s, i, prev).tok);
  }

  /** What parsing a source text as an expression gives. */
  function Read(src: string): R<Expr> { ParseExpr(Lex(src, 0, ILLEGAL)) }

  /** The printed pieces of a parsed expression are set apart, and each is a token that some text has. */
  lemma {:induction false} SourceApart(src: string)
    requires Read(src).errs == 0
    ensures var t := PrintExpr(Read(src).v, Empty); SetApart(t, ILLEGAL) && AllLexemes(t) && Full(Read(src).v, false)
  {
    hide *;
    ReadIs(src);
    var ts := Lex(src, 0, ILLEGAL);
    LexClean(src, 0, ILLEGAL);
    ExprSound(ts, false);
    NoneLeft();
    ExprMade(ts);
    ExprPrinted(Read(src).v, Empty);
    EmptyFollows();
    FullApart(Read(src).v, Empty, false, ILLEGAL);
  }

  lemma {:induction false} EmptyFollows()
    ensures Follows(Empty) && !IsNameEnd(ILLEGAL)
  {
  }

  /** The printed text of a parsed expression lexes to the tree's tokens exactly when every token keeps its meaning. */
  lemma {:induction false} SourceLexes(src: string)
    requires Read(src).errs == 0
    ensures var t := PrintExpr(Read(src).v, Empty);
            Lex(Render(t), 0, ILLEGAL) == ExprAhead(Read(src).v, Done) <==> AllKeep(t, ILLEGAL)
  {
    hide *;
    SourceApart(src);
    ExprTextLexes(Read(src).v, false);
  }

  lemma {:induction false} ReadIs(src: string)
    ensures Read(src) == ParseExpr(Lex(src, 0, ILLEGAL))
  {
    hide ParseExpr, Lex;
  }

  lemma {:induction false} NoneLeft()
    ensures AllLexemes(Empty) && After(0, EOF)
  {
  }

  /** With tokens that keep their meaning, the tree itself comes back exactly when it has no selector on a plain dotted name. */
  lemma {:induction false} SourceRoundTripExact(src: string)
    requires Read(src).errs == 0 && AllKeep(PrintExpr(Read(src).v, Empty), ILLEGAL)
    ensures Read(Render(PrintExpr(Read(src).v, Empty))) == R(Read(src).v, Done, NO_ERRORS) <==> Full(Read(src).v, true)
  {
    hide ParseExpr, Lex, Render, PrintExpr, AllKeep, ExprAhead, Clean, Full, After, AllLexemes;
    SourceLexes(src);
    LexClean(src, 0, ILLEGAL);
    NoneLeft();
    RoundTripExact(Lex(src, 0, ILLEGAL), Done);
  }

  // ---- Texts that do not lex back ----

  /** The name x'k'a'b. */
  function Ticked(x: Token, k: Token, a: Token, b: Token): seq<Token> {
    [x, KindToken(TICK), k, KindToken(TICK), a, KindToken(TICK), b]
  }

  /** With a reserved word k and a one-character a, the name x'k'a'b is printed without spaces, and then 'a' is read as a
      character literal. */
  lemma {:induction false} KeywordAttributeFails(x: Token, k: Token, a: Token, b: Token)
    requires StartsName(x) && IsKeyword(k.kind) && k.lit != "" && a.kind == IDENT && |a.lit| == 1 && IsAttrToken(b)
    ensures ParseExpr(Ahead(Ticked(x, k, a, b), Done)) == R(Ident(Ticked(x, k, a, b)), Done, NO_ERRORS)
    ensures !AllKeep(PrintExpr(Ident(Ticked(x, k, a, b)), Empty), ILLEGAL)
  {
    hide ParseExpr, Ticked, AllKeep, Ahead, PrintName, IsFlat, IsKeyword;
    var name := Ticked(x, k, a, b);
    var q := KindToken(TICK);
    TickedFlat(x, k, a, b);
    PrimaryIsTier(1, Ident(name), true);
    NoneLeft();
    FullRun(Ident(name), Done);
    TickedPrint(x, k, a, b);
    TickLost(k.kind, a, T(b, Empty));
    KeepTail(x, q, k, T(q, T(a, T(q, T(b, Empty)))), ILLEGAL);
  }

  /** The same name written with spaces around its later ticks. */
  function Spread(x: Token, k: Token, a: Token, b: Token): Text {
    var rest := Sp(K(TICK, Sp(SpreadEnd(a, b))));
    T(x, K(TICK, T(k, rest)))
  }

  function SpreadEnd(a: Token, b: Token): Text { T(a, K(TICK, Sp(T(b, Empty)))) }

  /** That text, such as x'range ' a' b, is read as the name, and its print is not. */
  lemma {:induction false} KeywordAttributeSource(x: Token, k: Token, a: Token, b: Token)
    requires x.kind == a.kind == b.kind == IDENT && IsKeyword(k.kind) && |a.lit| == 1 && a.lit[0] != '\'' && x.lit != "" && k.lit != "" && b.lit != ""
    requires IsLexeme(x) && IsLexeme(k) && IsLexeme(a) && IsLexeme(b)
    ensures Read(Render(Spread(x, k, a, b))) == R(Ident(Ticked(x, k, a, b)), Done, NO_ERRORS)
    ensures !AllKeep(PrintExpr(Ident(Ticked(x, k, a, b)), Empty), ILLEGAL)
  {
    hide ParseExpr, Ticked, AllKeep, Ahead, PrintName, IsKeyword, Spread, Lex, Render, IsLexeme;
    SpreadKept(x, k, a, b);
    SpreadApart(x, k, a, b);
    SpreadLexemes(x, k, a, b);
    LexText(Spread(x, k, a, b), "", ILLEGAL);
    assert "" + Render(Spread(x, k, a, b)) == Render(Spread(x, k, a, b));
    SpreadTokens(x, k, a, b);
    KeywordAttributeFails(x, k, a, b);
  }

  lemma {:induction false} SpreadTokens(x: Token, k: Token, a: Token, b: Token)
    ensures Tokens(Spread(x, k, a, b)) == Ahead(Ticked(x, k, a, b), Done)
  {
    hide KindToken, K;
    var q := KindToken(TICK);
    TickedPrint(x, k, a, b);
    NameTokens(Ticked(x, k, a, b), Empty);
    var t := T(b, Empty);
    var u := T(q, t);
    var v := T(a, u);
    KIs(TICK, Sp(t));
    KIs(TICK, Sp(SpreadEnd(a, b)));
    var rest := Sp(K(TICK, Sp(SpreadEnd(a, b))));
    KIs(TICK, T(k, rest));
    OneToken(b, Empty);
    OneToken(q, t);
    OneToken(q, Sp(t));
    OneToken(a, u);
    OneToken(a, K(TICK, Sp(t)));
    OneToken(q, Sp(SpreadEnd(a, b)));
    OneToken(q, v);
    OneToken(k, rest);
    OneToken(k, T(q, v));
    OneToken(q, T(k, rest));
    OneToken(q, T(k, T(q, v)));
    OneToken(x, K(TICK, T(k, rest)));
    OneToken(x, T(q, T(k, T(q, v))));
  }

  lemma {:induction false} KIs(k: Kind, r: Text)
    ensures K(k, r) == T(KindToken(k), r)
  {
    hide KindToken;
  }

  lemma {:induction false} OneToken(t: Token, r: Text)
    ensures Tokens(T(t, r)) == More(t, Tokens(r)) && Tokens(Sp(r)) == Tokens(r)
  {
  }

  lemma {:induction false} SpreadLexemes(x: Token, k: Token, a: Token, b: Token)
    requires IsLexeme(x) && IsLexeme(k) && IsLexeme(a) && IsLexeme(b)
    ensures AllLexemes(Spread(x, k, a, b))
  {
    hide IsLexeme, KindToken, AllLexemes, K;
    KindIsLexeme(TICK);
    NoneLeft();
    TokenPrinted(b, Empty);
    KeyPrinted(TICK, T(b, Empty));
    TokenPrinted(a, K(TICK, Sp(T(b, Empty))));
    KeyPrinted(TICK, SpreadEnd(a, b));
    var rest := Sp(K(TICK, Sp(SpreadEnd(a, b))));
    SpaceLexemes(K(TICK, Sp(SpreadEnd(a, b))));
    TokenPrinted(k, rest);
    KeyPrinted(TICK, T(k, rest));
    TokenPrinted(x, K(TICK, T(k, rest)));
  }

  lemma {:induction false} SpaceLexemes(r: Text)
    requires AllLexemes(r)
    ensures AllLexemes(Sp(r))
  {
    hide IsLexeme;
  }

  lemma {:induction false} WordApart(t: Token, r: Text, prev: Kind)
    requires (t.kind == IDENT || IsKeyword(t.kind)) && SetApart(r, t.kind) && Gap(r)
    ensures SetApart(T(t, r), prev)
  {
    hide NeedsGap, Gap;
  }

  lemma {:induction false} SpaceApart(r: Text, prev: Kind)
    requires SetApart(r, prev)
    ensures SetApart(Sp(r), prev) && Gap(Sp(r))
  {
    hide NeedsGap;
  }

  lemma {:induction false} SpreadApart(x: Token, k: Token, a: Token, b: Token)
    requires x.kind == a.kind == b.kind == IDENT && IsKeyword(k.kind)
    ensures SetApart(Spread(x, k, a, b), ILLEGAL)
  {
    hide NeedsGap, SetApart, Gap, K, IsKeyword;
    EmptyApart(b.kind);
    WordApart(b, Empty, TICK);
    SpaceApart(T(b, Empty), TICK);
    TickApart(Sp(T(b, Empty)), IDENT);
    WordApart(a, K(TICK, Sp(T(b, Empty))), TICK);
    SpaceApart(SpreadEnd(a, b), TICK);
    TickApart(Sp(SpreadEnd(a, b)), k.kind);
    var rest := Sp(K(TICK, Sp(SpreadEnd(a, b))));
    SpaceApart(K(TICK, Sp(SpreadEnd(a, b))), k.kind);
    WordApart(k, rest, TICK);
    TickApart(T(k, rest), IDENT);
    WordApart(x, K(TICK, T(k, rest)), ILLEGAL);
  }

  lemma {:induction false} EmptyApart(prev: Kind)
    ensures SetApart(Empty, prev) && Gap(Empty)
  {
  }

  lemma {:induction false} SpreadKept(x: Token, k: Token, a: Token, b: Token)
    requires x.kind == a.kind == b.kind == IDENT && IsKeyword(k.kind) && |a.lit| == 1 && a.lit[0] != '\''
    ensures AllKeep(Spread(x, k, a, b), ILLEGAL)
  {
    hide Render, AllKeep, K, IsKeyword;
    NothingKept(b.kind);
    WordKept(b, Empty, TICK);
    SpaceKept(T(b, Empty), TICK);
    TickKept(Sp(T(b, Empty)), IDENT);
    WordKept(a, K(TICK, Sp(T(b, Empty))), TICK);
    SpaceKept(SpreadEnd(a, b), TICK);
    SecondChar(a, K(TICK, Sp(T(b, Empty))));
    TickKept(Sp(SpreadEnd(a, b)), k.kind);
    var rest := Sp(K(TICK, Sp(SpreadEnd(a, b))));
    SpaceKept(K(TICK, Sp(SpreadEnd(a, b))), k.kind);
    WordKept(k, rest, TICK);
    TickKept(T(k, rest), IDENT);
    WordKept(x, K(TICK, T(k, rest)), ILLEGAL);
  }

  lemma {:induction false} NothingKept(prev: Kind)
    ensures AllKeep(Empty, prev)
  {
  }

  lemma {:induction false} SpaceKept(r: Text, prev: Kind)
    requires AllKeep(r, prev)
    ensures AllKeep(Sp(r), prev)
  {
  }

  lemma {:induction false} TickKept(r: Text, prev: Kind)
    requires AllKeep(r, TICK) && (prev == IDENT || Ch(Render(r), 1) != '\'')
    ensures AllKeep(K(TICK, r), prev)
  {
    hide Render;
  }

  lemma {:induction false} SecondChar(a: Token, r: Text)
    requires a.kind == IDENT && |a.lit| == 1
    ensures Ch(Render(Sp(T(a, r))), 1) == a.lit[0]
  {
    hide Render;
    RenderSpace(T(a, r));
    RenderToken(a, r);
    assert Spelling(a) == a.lit;
    assert (" " + (a.lit + Render(r)))[1] == a.lit[0];
  }

  lemma {:induction false} RenderSpace(r: Text)
    ensures Render(Sp(r)) == " " + Render(r)
  {
  }

  lemma {:induction false} WordKept(t: Token, r: Text, prev: Kind)
    requires (t.kind == IDENT || IsKeyword(t.kind)) && AllKeep(r, t.kind)
    ensures AllKeep(T(t, r), prev)
  {
    hide Render;
  }

  lemma {:induction false} TickedFlat(x: Token, k: Token, a: Token, b: Token)
    requires StartsName(x) && IsKeyword(k.kind) && k.lit != "" && a.kind == IDENT && |a.lit| == 1 && IsAttrToken(b)
    ensures IsPrimary(Ident(Ticked(x, k, a, b)), true)
  {
    hide IsKeyword;
    var q := KindToken(TICK);
    var name := Ticked(x, k, a, b);
    assert name[1..] == [q, k, q, a, q, b];
    assert [q, k, q, a, q, b][2..] == [q, a, q, b] && [q, a, q, b][2..] == [q, b] && [q, b][2..] == [];
    assert TickTail([q, b]);
    assert TickTail([q, a, q, b]);
    assert TickTail([q, k, q, a, q, b]);
  }

  lemma {:induction false} TickedPrint(x: Token, k: Token, a: Token, b: Token)
    ensures var q := KindToken(TICK);
            PrintName(Ticked(x, k, a, b), Empty) == T(x, T(q, T(k, T(q, T(a, T(q, T(b, Empty)))))))
  {
    hide KindToken;
    var q := KindToken(TICK);
    var name := Ticked(x, k, a, b);
    assert name[2..] == [k, q, a, q, b] && name[2..][2..] == [a, q, b] && [a, q, b][2..] == [b] && [b][1..] == [];
    PairPrint(name, Empty);
    PairPrint([k, q, a, q, b], Empty);
    PairPrint([a, q, b], Empty);
    assert PrintName([b], Empty) == T(b, Empty);
  }

  lemma {:induction false} KeepTail(x: Token, q: Token, k: Token, r: Text, prev: Kind)
    requires !AllKeep(r, k.kind)
    ensures !AllKeep(T(x, T(q, T(k, r))), prev)
  {
    hide Keeps, Render;
    assert !AllKeep(T(k, r), q.kind);
    assert !AllKeep(T(q, T(k, r)), x.kind);
  }

  /** A tick behind a reserved word, with one character before the next tick. */
  lemma {:induction false} TickLost(k: Kind, a: Token, r: Text)
    requires IsKeyword(k) && a.kind == IDENT && |a.lit| == 1
    ensures !AllKeep(T(KindToken(TICK), T(a, T(KindToken(TICK), r))), k)
  {
    hide AllKeep;
    var q := KindToken(TICK);
    var follow := Render(T(a, T(q, r)));
    TickSpelled();
    assert Render(T(q, r)) == "'" + Render(r);
    assert follow == a.lit + ("'" + Render(r));
    assert follow[1] == '\'';
    assert !Keeps(q, follow, k);
    KeepHead(q, T(a, T(q, r)), k);
  }

  lemma {:induction false} KeepHead(t: Token, more: Text, prev: Kind)
    ensures AllKeep(T(t, more), prev) ==> Keeps(t, Render(more), prev)
  {
    hide Keeps, Render;
  }

  /** A qualified expression t'k'('c'), where k is a reserved word: '(' is read as a character literal. */
  lemma {:induction false} KeywordQualifiedFails(k: Kind, c: Token, r: Text)
    requires IsKeyword(k) && c.kind == CHARLIT && c.lit != "" && c.lit[0] == '\''
    ensures !AllKeep(K(TICK, PrintExpr(Paren(BasicLit(c)), r)), k)
  {
    hide AllKeep, Keeps, Render, IsKeyword;
    var inner := T(c, K(RPAREN, r));
    assert PrintExpr(Paren(BasicLit(c)), r) == K(LPAREN, inner);
    ParenQuote(c, K(RPAREN, r));
    TickBefore(k, Render(K(LPAREN, inner)));
    KeepHead(KindToken(TICK), K(LPAREN, inner), k);
  }

  lemma {:induction false} ParenQuote(c: Token, r: Text)
    requires c.kind == CHARLIT && c.lit != "" && c.lit[0] == '\''
    ensures Ch(Render(K(LPAREN, T(c, r))), 1) == '\''
  {
    hide Render;
    RenderToken(KindToken(LPAREN), T(c, r));
    RenderToken(c, r);
    GapToken(KindToken(LPAREN));
    TickSpelled();
    hide IsDelimiter, SymbolOf;
    assert Spelling(c) == c.lit;
    assert ("(" + (c.lit + Render(r)))[1] == c.lit[0];
  }

  lemma {:induction false} RenderToken(t: Token, r: Text)
    ensures Render(T(t, r)) == Spelling(t) + Render(r)
  {
    hide Spelling;
  }

  lemma {:induction false} TickBefore(k: Kind, follow: string)
    requires IsKeyword(k) && Ch(follow, 1) == '\''
    ensures !Keeps(KindToken(TICK), follow, k)
  {
  }

  // ==== tools/socgen/vhdl: the tokens that a parsed expression was read from are its printed tokens, but for commas and dots that the
  // parser drops. So an expression whose printed text is misread does not come back from it. Statements drop a few further tokens.

  /** Equal but for the spelling of a reserved word. */
  predicate Same(t: Token, u: Token) { t.kind == u.kind && (t.lit == u.lit || IsKeyword(t.kind) || IsDelimiter(t.kind)) }

  /** Trailing commas and lone dots; in statements an empty else, empty parentheses of a call, and closing labels. */
  predicate Dropped(k: Kind) { k == COMMA || k == DOT || k == ELSE || k == LPAREN || k == RPAREN || k == IDENT }

  /** Without some of the tokens that are dropped, ts is us. */
  predicate Thins(ts: Stream, us: Stream)
    decreases ts
  {
    || (ts.Done? && us.Done?)
    || (ts.More? && us.More? && Same(ts.head, us.head) && Thins(ts.tail, us.tail))
    || (ts.More? && Dropped(ts.head.kind) && Thins(ts.tail, us))
  }

  /** Equal up to a token that is never dropped and has no like on the other side. */
  predicate Diverge(ts: Stream, us: Stream)
    decreases ts
  {
    ts.More? && us.More? && if Same(ts.head, us.head) then Diverge(ts.tail, us.tail) else !Dropped(ts.head.kind)
  }

  predicate AllDropped(l: seq<Token>) { forall t :: t in l ==> Dropped(t.kind) }

  lemma {:induction false} AheadPush(l: seq<Token>, t: Token, us: Stream)
    ensures Ahead(l + [t], us) == Ahead(l, More(t, us))
    decreases l
  {
    if l == [] {
      assert [] + [t] == [t] && [t][1..] == [];
    } else {
      AheadPush(l[1..], t, us);
      assert (l + [t])[1..] == l[1..] + [t];
    }
  }

  /** Dropping tokens never makes up for such a token, even if further ones stand in front of the other side. */
  lemma {:induction false} NeverThins(ts: Stream, l: seq<Token>, us: Stream)
    requires Diverge(ts, us) && AllDropped(l)
    ensures !Thins(ts, Ahead(l, us))
    decreases ts
  {
    if Same(ts.head, us.head) {
      if Dropped(ts.head.kind) {
        NeverThins(ts.tail, l + [us.head], us.tail);
        AheadPush(l, us.head, us.tail);
        if l != [] {
          NeverThins(ts.tail, l[1..] + [us.head], us.tail);
          AheadPush(l[1..], us.head, us.tail);
        }
      }
      NeverThins(ts.tail, [], us.tail);
    }
  }

  // ---- Printing and reading: the first misread token ----

  lemma {:induction false} LexDiverges(t: Text, pre: string, prev: Kind)
    requires SetApart(t, prev) && AllLexemes(t) && !AllKeep(t, prev)
    ensures Diverge(Lex(pre + Render(t), |pre|, prev), Tokens(t))
    decreases t
  {
    hide IsLexeme, NeedsGap, Gap, Keeps, Lex, Spelling, Same, Dropped;
    var u := pre + Render(t);
    match t
    case Empty =>
    case W(w, more) =>
      LexSkips(u, |pre|, |w|, prev);
      assert pre + w + Render(more) == u;
      LexDiverges(more, pre + w, prev);
    case T(tok, more) =>
      assert pre + Spelling(tok) + Render(more) == u;
      if Keeps(tok, Render(more), prev) {
        TokenInText(tok, more, pre, prev);
        LexDiverges(more, pre + Spelling(tok), tok.kind);
        SameSelf(tok);
      } else {
        TokenMisread(tok, more, pre, prev);
      }
  }

  lemma {:induction false} SameSelf(t: Token)
    ensures Same(t, t)
  {
  }

  lemma {:induction false} TokenMisread(tok: Token, more: Text, pre: string, prev: Kind)
    requires SetApart(T(tok, more), prev) && AllLexemes(T(tok, more)) && !Keeps(tok, Render(more), prev)
    ensures var ts := Lex(pre + Spelling(tok) + Render(more), |pre|, prev); ts.More? && !Same(ts.head, tok) && !Dropped(ts.head.kind)
  {
    hide Lex, TokenAt, NeedsGap, Gap, Spelling, Keeps, Render, IsKeyword, IsDelimiter;
    var s: string, i: nat, p: Kind :| Reads(s, i, p, tok);
    NotKept(tok, Render(more), prev);
    MisreadKinds();
    if tok.kind == TICK {
      TickMisread(tok, pre, Render(more), prev);
    } else if tok.kind == CHARLIT {
      CharMisread(s, i, p, tok, pre, Render(more), prev);
    } else {
      QuotedMisread(s, i, p, tok, pre, Render(more), prev);
      QuotedKind(s, i, p, tok, pre, Render(more), prev);
    }
  }

  lemma {:induction false} MisreadKinds()
    ensures forall k :: k == EXTIDENT || k == STRINGLIT || k == BITSTRINGLIT || k == CHARLIT ==> !IsKeyword(k) && !IsDelimiter(k)
  {
  }

  /** An open quoted token is read as one of its kind. */
  lemma {:induction false} QuotedKind(s: string, i: nat, p: Kind, tok: Token, pre: string, follow: string, prev: Kind)
    requires Reads(s, i, p, tok) && IsQuoted(tok.kind) && !IsClosed(tok.kind, tok.lit, NO_ERRORS) && follow != ""
    ensures var ts := Lex(pre + Spelling(tok) + follow, |pre|, prev); ts.More? && ts.head.kind == tok.kind
  {
    hide Lex, TokenAt, SymbolOf, QuoteEnd, IsClosed, IsBitString, IsLetter, QuoteOf, QuoteOffset;
    SpellingIs(s, i, p);
    QuotedStart(s, i, p);
    var n := TokenAt(s, i, p).end - i;
    var u := pre + Spelling(tok) + follow;
    PlacedWindow(s, i, n, pre, follow);
    assert |u| > |pre| + n && u[|pre|] == s[i];
    QuotedRunsOn(tok.kind, s, i, u, |pre|, n, prev);
    LexHere(u, |pre|, prev);
  }

  // ---- Parsing ----

  lemma {:induction false} AdvClean(ts: Stream)
    requires Clean(ts, false)
    ensures Clean(Adv(ts), false) && (ts.More? ==> Spelt(Cur(ts)) && At(ts) != EOF)
  {
    hide Spelt;
    if ts.More? { NotEof(ts.head); }
  }

  lemma {:induction false} NotEof(t: Token)
    requires Spelt(t)
    ensures t.kind != EOF
  {
  }

  /** A token that is kept. */
  lemma {:induction false} KeepOne(ts: Stream, us: Stream)
    requires ts.More? && Thins(Adv(ts), us)
    ensures Thins(ts, More(Cur(ts), us))
  {
  }

  /** A token printed by its kind. */
  lemma {:induction false} KeepKind(ts: Stream, us: Stream)
    requires ts.More? && Thins(Adv(ts), us) && (IsKeyword(At(ts)) || IsDelimiter(At(ts)))
    ensures Thins(ts, Tok(At(ts), us))
  {
    hide IsKeyword, IsDelimiter, WordOf;
  }

  lemma {:induction false} DropOne(ts: Stream, us: Stream)
    requires ts.More? && Dropped(At(ts)) && Thins(Adv(ts), us)
    ensures Thins(ts, us)
  {
  }

  lemma {:induction false} SpelledSelf(t: Token)
    requires Spelt(t) && (IsSegment(t.kind) || IsAttr(t.kind))
    ensures Spelled(t) == t && t.lit != ""
  {
  }

  lemma {:induction false} SignKind(k: Kind)
    requires k == LPAREN || k == RPAREN || k == COMMA || k == ARROW || k == BAR || k == DOT || k == TICK || k == EXP || IsSign(k)
    ensures IsDelimiter(k)
  {
  }

  lemma {:induction false} WordKind(k: Kind)
    requires k == ABS || k == NOT || k == TO || k == DOWNTO || IsWordPrimary(k)
    ensures IsKeyword(k) && k != EOF
  {
  }

  lemma {:induction false} OpWord(t: nat, k: Kind)
    requires IsOp(t, k)
    ensures (IsKeyword(k) || IsDelimiter(k)) && k != EOF
  {
  }

  lemma {:induction false} PairAhead(name: seq<Token>, t: Token, u: Token, us: Stream)
    ensures Ahead(name + [t, u], us) == Ahead(name, More(t, More(u, us)))
  {
    AheadPush(name + [t], u, us);
    AheadPush(name, t, More(u, us));
    assert name + [t] + [u] == name + [t, u];
  }

  lemma {:induction false} DotsThin(name: seq<Token>, ts: Stream, us: Stream) returns (s: Stream)
    requires Clean(ts, false) && Thins(Dots(name, ts).1, us)
    ensures Clean(Dots(name, ts).1, false) && Thins(ts, s) && Ahead(Dots(name, ts).0, us) == Ahead(name, s)
    decreases Len(ts)
  {
    hide Clean, Thins, Spelt, Spelled, IsSegment, Ahead;
    AdvClean(ts);
    s := us;
    if At(ts) == DOT {
      var t := Adv(ts);
      AdvClean(t);
      SignKind(DOT);
      if IsSegment(At(t)) {
        SegmentMore(t);
        SpelledSelf(Cur(t));
        var m := DotsThin(name + [KindToken(DOT), Cur(t)], Adv(t), us);
        PairAhead(name, KindToken(DOT), Cur(t), m);
        s := Tok(DOT, More(Cur(t), m));
        KeepOne(t, m);
        KeepKind(ts, More(Cur(t), m));
      } else {
        DropOne(ts, us);
      }
    }
  }

  lemma {:induction false} SegmentMore(t: Stream)
    requires IsSegment(At(t)) || IsAttr(At(t))
    ensures t.More?
  {
  }

  lemma {:induction false} TicksThin(name: seq<Token>, ts: Stream, us: Stream) returns (s: Stream)
    requires Clean(ts, false) && Thins(Ticks(name, ts).1, us)
    ensures Clean(Ticks(name, ts).1, false) && Thins(ts, s) && Ahead(Ticks(name, ts).0, us) == Ahead(name, s)
    decreases Len(ts)
  {
    hide Clean, Thins, Spelt, Spelled, IsAttr, Ahead;
    AdvClean(ts);
    s := us;
    if At(ts) == TICK && IsAttr(Peek(ts)) {
      var t := Adv(ts);
      AdvClean(t);
      SignKind(TICK);
      SegmentMore(t);
      SpelledSelf(Cur(t));
      var m := TicksThin(name + [KindToken(TICK), Cur(t)], Adv(t), us);
      PairAhead(name, KindToken(TICK), Cur(t), m);
      s := Tok(TICK, More(Cur(t), m));
      KeepOne(t, m);
      KeepKind(ts, More(Cur(t), m));
    }
  }

  lemma {:induction false} FlatThin(ts: Stream, us: Stream)
    requires Clean(ts, false) && ts.More? && Cur(ts).lit != ""
    requires Thins(FlatName(Head(Cur(ts)), Adv(ts)).1, us)
    ensures Clean(FlatName(Head(Cur(ts)), Adv(ts)).1, false)
    ensures Thins(ts, Ahead(FlatName(Head(Cur(ts)), Adv(ts)).0, us))
  {
    hide Clean, Thins, Dots, Ticks;
    AdvClean(ts);
    var name := Head(Cur(ts));
    CleanDots(name, Adv(ts));
    var d := Dots(name, Adv(ts));
    var m := TicksThin(d.0, d.1, us);
    var s := DotsThin(name, Adv(ts), m);
    KeepOne(ts, s);
    assert [Cur(ts)][1..] == [];
    assert Ahead(name, s) == More(Cur(ts), s);
  }

  lemma {:induction false} CleanDots(name: seq<Token>, ts: Stream)
    requires Clean(ts, false)
    ensures Clean(Dots(name, ts).1, false)
    decreases Len(ts)
  {
    hide Clean, Spelled, IsSegment;
    AdvClean(ts);
    AdvClean(Adv(ts));
    if At(ts) == DOT && IsSegment(At(Adv(ts))) { CleanDots(name + [KindToken(DOT), Spelled(Cur(Adv(ts)))], Adv(Adv(ts))); }
  }

  lemma {:induction false} WordHead(t: Token)
    requires Spelt(t) && (t.kind == IDENT || t.kind == EXTIDENT)
    ensures t.lit != "" && Head(t) == [t]
  {
  }

  lemma {:induction false} NameThin(ts: Stream, us: Stream)
    requires Clean(ts, false) && ts.More? && Cur(ts).lit != "" && ParseName(ts).errs == 0 && Thins(ParseName(ts).rest, us)
    ensures Clean(ParseName(ts).rest, false) && Thins(ts, ExprAhead(ParseName(ts).v, us))
    decreases Len(ts), 2
  {
    hide Clean, Thins, Suffixes, ParseParen, FlatName, Ahead;
    var n := FlatName(Head(Cur(ts)), Adv(ts));
    CleanFlat(ts);
    if At(n.1) == TICK && Peek(n.1) == LPAREN {
      AdvClean(n.1);
      ParenThin(Adv(n.1), us);
      SignKind(TICK);
      KeepKind(n.1, ExprAhead(ParseParen(Adv(n.1)).v, us));
      FlatThin(ts, Tok(TICK, ExprAhead(ParseParen(Adv(n.1)).v, us)));
    } else {
      var s := SuffixesThin(Ident(n.0), n.1, us);
      FlatThin(ts, s);
    }
  }

  lemma {:induction false} CleanFlat(ts: Stream)
    requires Clean(ts, false)
    ensures Clean(FlatName(Head(Cur(ts)), Adv(ts)).1, false)
  {
    hide Clean, Dots, Ticks;
    AdvClean(ts);
    CleanDots(Head(Cur(ts)), Adv(ts));
    CleanTicks(Dots(Head(Cur(ts)), Adv(ts)).0, Dots(Head(Cur(ts)), Adv(ts)).1);
  }

  lemma {:induction false} CleanTicks(name: seq<Token>, ts: Stream)
    requires Clean(ts, false)
    ensures Clean(Ticks(name, ts).1, false)
    decreases Len(ts)
  {
    hide Clean, Spelled, IsAttr;
    AdvClean(ts);
    AdvClean(Adv(ts));
    if At(ts) == TICK && IsAttr(Peek(ts)) { CleanTicks(name + [KindToken(TICK), Spelled(Cur(Adv(ts)))], Adv(Adv(ts))); }
  }

  lemma {:induction false} SuffixesThin(e: Expr, ts: Stream, us: Stream) returns (s: Stream)
    requires Clean(ts, false) && Suffixes(e, ts, NO_ERRORS).errs == 0 && Thins(Suffixes(e, ts, NO_ERRORS).rest, us)
    ensures Clean(Suffixes(e, ts, NO_ERRORS).rest, false) && Thins(ts, s) && ExprAhead(Suffixes(e, ts, NO_ERRORS).v, us) == ExprAhead(e, s)
    decreases Len(ts), 1
  {
    hide Clean, Thins, ParseArgs, Spelt, Spelled, IsSegment, IsAttr, Expect, Suffixes;
    SuffixUnfold(e, ts, 0);
    s := us;
    var t := Adv(ts);
    AdvClean(ts);
    AdvClean(t);
    if At(ts) == LPAREN {
      s := CallThin(e, ts, us);
    } else if At(ts) == DOT && IsSegment(Peek(ts)) {
      SegmentMore(t);
      SpelledSelf(Cur(t));
      SignKind(DOT);
      var m := SuffixesThin(Selector(e, Cur(t)), Adv(t), us);
      s := Tok(DOT, More(Cur(t), m));
      KeepOne(t, m);
      KeepKind(ts, More(Cur(t), m));
    } else if At(ts) == TICK && IsAttr(Peek(ts)) {
      SegmentMore(t);
      SpelledSelf(Cur(t));
      SignKind(TICK);
      var m := SuffixesThin(AttrName(e, Cur(t)), Adv(t), us);
      s := Tok(TICK, More(Cur(t), m));
      KeepOne(t, m);
      KeepKind(ts, More(Cur(t), m));
    }
  }

  lemma {:induction false} CallThin(e: Expr, ts: Stream, us: Stream) returns (s: Stream)
    requires At(ts) == LPAREN && Clean(ts, false) && Suffixes(e, ts, NO_ERRORS).errs == 0 && Thins(Suffixes(e, ts, NO_ERRORS).rest, us)
    ensures Clean(Suffixes(e, ts, NO_ERRORS).rest, false) && Thins(ts, s) && ExprAhead(Suffixes(e, ts, NO_ERRORS).v, us) == ExprAhead(e, s)
    decreases Len(ts), 0
  {
    hide Clean, Thins, ParseArgs, Suffixes, AssocsAhead;
    CallUnfold(e, ts, 0);
    var args := ParseArgs(Adv(ts));
    AdvClean(ts);
    CleanArgs(Adv(ts));
    AdvClean(args.rest);
    SignKind(LPAREN);
    SignKind(RPAREN);
    var m := SuffixesThin(Call(e, args.v), Adv(args.rest), us);
    KeepKind(args.rest, m);
    ArgsThin(Adv(ts), Tok(RPAREN, m));
    s := Tok(LPAREN, AssocsAhead(args.v, Tok(RPAREN, m)));
    KeepKind(ts, AssocsAhead(args.v, Tok(RPAREN, m)));
  }

  lemma {:induction false} CleanArgs(ts: Stream)
    requires Clean(ts, false) && ParseArgs(ts).errs == 0
    ensures Clean(ParseArgs(ts).rest, false)
  {
    hide Clean, ParseArgs;
    ArgsSound(ts, false);
  }

  lemma {:induction false} ArgsThin(ts: Stream, us: Stream)
    requires Clean(ts, false) && ParseArgs(ts).errs == 0 && Thins(ParseArgs(ts).rest, us)
    ensures Thins(ts, AssocsAhead(ParseArgs(ts).v, us))
    decreases Len(ts), 23
  {
    hide Clean, Thins, ParseAssoc, MoreAssocs, AssocAhead;
    if At(ts) != RPAREN {
      var a := ParseAssoc(ts);
      AssocSound(ts, false);
      var m := MoreAssocsThin([a.v], a.rest, us);
      AssocThin(ts, m);
      MoreAssocsFirst(a.v, ParseArgs(ts).v, us, m);
    }
  }

  lemma {:induction false} MoreAssocsFirst(a: Assoc, v: seq<Assoc>, us: Stream, m: Stream)
    requires 1 <= |v| && v[0] == a && m == MoreAssocsAhead(v[1..], us)
    ensures AssocsAhead(v, us) == AssocAhead(a, m)
  {
    hide AssocAhead;
  }

  lemma {:induction false} MoreAssocsThin(acc: seq<Assoc>, ts: Stream, us: Stream) returns (s: Stream)
    requires Clean(ts, false) && MoreAssocs(acc, ts, NO_ERRORS).errs == 0 && Thins(MoreAssocs(acc, ts, NO_ERRORS).rest, us)
    ensures acc <= MoreAssocs(acc, ts, NO_ERRORS).v && s == MoreAssocsAhead(MoreAssocs(acc, ts, NO_ERRORS).v[|acc|..], us) && Thins(ts, s)
    decreases Len(ts), 0
  {
    hide Clean, Thins, ParseAssoc, AssocAhead;
    s := us;
    if At(ts) == COMMA {
      var a := ParseAssoc(Adv(ts));
      AdvClean(ts);
      AssocSound(Adv(ts), false);
      var m := MoreAssocsThin(acc + [a.v], a.rest, us);
      AssocThin(Adv(ts), m);
      SignKind(COMMA);
      KeepKind(ts, AssocAhead(a.v, m));
      var v := MoreAssocs(acc, ts, 0).v[|acc|..];
      assert v[0] == a.v && v[1..] == MoreAssocs(acc, ts, 0).v[|acc| + 1..];
      s := Tok(COMMA, AssocAhead(a.v, m));
    }
  }

  lemma {:induction false} AssocThin(ts: Stream, us: Stream)
    requires Clean(ts, false) && ParseAssoc(ts).errs == 0 && Thins(ParseAssoc(ts).rest, us)
    ensures Thins(ts, AssocAhead(ParseAssoc(ts).v, us))
    decreases Len(ts), 22
  {
    hide Clean, Thins, ParseExpr, Merge, ExprAhead;
    var x := ParseExpr(ts);
    ExprSound(ts, false);
    if At(x.rest) == ARROW {
      AdvClean(x.rest);
      ExprThin(Adv(x.rest), us);
      SignKind(ARROW);
      var m := ExprAhead(ParseExpr(Adv(x.rest)).v, us);
      KeepKind(x.rest, m);
      ExprThin(ts, Tok(ARROW, m));
      MergeAhead(x.v, Tok(ARROW, m));
    } else {
      ExprThin(ts, us);
    }
  }

  lemma {:induction false} ParenThin(ts: Stream, us: Stream)
    requires Clean(ts, false) && At(ts) == LPAREN && ParseParen(ts).errs == 0 && Thins(ParseParen(ts).rest, us)
    ensures Clean(ParseParen(ts).rest, false) && Thins(ts, ExprAhead(ParseParen(ts).v, us))
    decreases Len(ts), 1
  {
    hide Clean, Thins, ParseElems, ElemsAhead;
    var es := ParseElems(Adv(ts));
    AdvClean(ts);
    ElemsSound(Adv(ts), false);
    AdvClean(es.rest);
    SignKind(LPAREN);
    SignKind(RPAREN);
    KeepKind(es.rest, us);
    ElemsThin(Adv(ts), Tok(RPAREN, us));
    KeepKind(ts, ElemsAhead(es.v, Tok(RPAREN, us)));
    if |es.v| == 1 && es.v[0].choices == [] { OneElem(es.v, Tok(RPAREN, us)); }
  }

  lemma {:induction false} OneElem(es: seq<Elem>, us: Stream)
    requires |es| == 1 && es[0].choices == []
    ensures ElemsAhead(es, us) == ExprAhead(es[0].value, us)
  {
    hide ExprAhead;
    assert es[1..] == [];
  }

  lemma {:induction false} ElemsThin(ts: Stream, us: Stream)
    requires Clean(ts, false) && ParseElems(ts).errs == 0 && Thins(ParseElems(ts).rest, us)
    ensures Thins(ts, ElemsAhead(ParseElems(ts).v, us))
    decreases Len(ts), 23
  {
    hide Clean, Thins, ParseElem, MoreElems, ElemAhead;
    if At(ts) != RPAREN {
      var a := ParseElem(ts);
      ElemSound(ts, false);
      var m := MoreElemsThin([a.v], a.rest, us);
      ElemThin(ts, m);
      MoreElemsFirst(a.v, ParseElems(ts).v, us, m);
    }
  }

  lemma {:induction false} MoreElemsFirst(a: Elem, v: seq<Elem>, us: Stream, m: Stream)
    requires 1 <= |v| && v[0] == a && m == MoreElemsAhead(v[1..], us)
    ensures ElemsAhead(v, us) == ElemAhead(a, m)
  {
    hide ElemAhead;
  }

  lemma {:induction false} MoreElemsThin(acc: seq<Elem>, ts: Stream, us: Stream) returns (s: Stream)
    requires Clean(ts, false) && MoreElems(acc, ts, NO_ERRORS).errs == 0 && Thins(MoreElems(acc, ts, NO_ERRORS).rest, us)
    ensures acc <= MoreElems(acc, ts, NO_ERRORS).v && s == MoreElemsAhead(MoreElems(acc, ts, NO_ERRORS).v[|acc|..], us) && Thins(ts, s)
    decreases Len(ts), 0
  {
    hide Clean, Thins, ParseElem, ElemAhead;
    s := us;
    if At(ts) == COMMA {
      AdvClean(ts);
      if At(Adv(ts)) == RPAREN {
        DropOne(ts, us);
      } else {
        var a := ParseElem(Adv(ts));
        ElemSound(Adv(ts), false);
        var m := MoreElemsThin(acc + [a.v], a.rest, us);
        ElemThin(Adv(ts), m);
        SignKind(COMMA);
        KeepKind(ts, ElemAhead(a.v, m));
        var v := MoreElems(acc, ts, 0).v[|acc|..];
        assert v[0] == a.v && v[1..] == MoreElems(acc, ts, 0).v[|acc| + 1..];
        s := Tok(COMMA, ElemAhead(a.v, m));
      }
    }
  }

  lemma {:induction false} ElemThin(ts: Stream, us: Stream)
    requires Clean(ts, false) && ParseElem(ts).errs == 0 && Thins(ParseElem(ts).rest, us)
    ensures Thins(ts, ElemAhead(ParseElem(ts).v, us))
    decreases Len(ts), 22
  {
    hide Clean, Thins, ParseExpr, MoreChoices, ExprAhead, MoreChoicesAhead;
    var x := ParseExpr(ts);
    ExprSound(ts, false);
    if At(x.rest) == BAR || At(x.rest) == ARROW {
      var cs := MoreChoices([x.v], x.rest, x.errs);
      MoreChoicesSound([x.v], x.rest, false);
      AdvClean(cs.rest);
      ExprThin(Adv(cs.rest), us);
      SignKind(ARROW);
      var y := ExprAhead(ParseExpr(Adv(cs.rest)).v, us);
      KeepKind(cs.rest, y);
      var m := MoreChoicesThin([x.v], x.rest, Tok(ARROW, y));
      ExprThin(ts, m);
      assert cs.v[0] == x.v;
    } else {
      ExprThin(ts, us);
    }
  }

  lemma {:induction false} MoreChoicesThin(acc: seq<Expr>, ts: Stream, us: Stream) returns (s: Stream)
    requires Clean(ts, false) && MoreChoices(acc, ts, NO_ERRORS).errs == 0 && Thins(MoreChoices(acc, ts, NO_ERRORS).rest, us)
    ensures s == MoreChoicesAhead(MoreChoices(acc, ts, NO_ERRORS).v[|acc|..], us) && Thins(ts, s)
    decreases Len(ts), 0
  {
    hide Clean, Thins, ParseExpr, ExprAhead;
    s := us;
    if At(ts) == BAR {
      var x := ParseExpr(Adv(ts));
      AdvClean(ts);
      ExprSound(Adv(ts), false);
      var m := MoreChoicesThin(acc + [x.v], x.rest, us);
      ExprThin(Adv(ts), m);
      SignKind(BAR);
      KeepKind(ts, ExprAhead(x.v, m));
      var v := MoreChoices(acc, ts, 0).v[|acc|..];
      assert v[0] == x.v && v[1..] == MoreChoices(acc, ts, 0).v[|acc| + 1..];
      s := Tok(BAR, ExprAhead(x.v, m));
    }
  }

  lemma {:induction false} PrimaryThin(ts: Stream, us: Stream)
    requires Clean(ts, false) && ParsePrimary(ts).errs == 0 && Thins(ParsePrimary(ts).rest, us)
    ensures Thins(ts, ExprAhead(ParsePrimary(ts).v, us))
    decreases Len(ts), 3
  {
    hide Clean, Thins, ParseParen, ParseName, KindToken, IsWordPrimary, IsLiteralKind, IsNumber;
    AdvClean(ts);
    LiteralMore(ts);
    if At(ts) == LPAREN {
      ParenThin(ts, us);
    } else if At(ts) == IDENT || At(ts) == EXTIDENT {
      WordHead(Cur(ts));
      NameThin(ts, us);
    } else if IsNumber(At(ts)) {
      if At(Adv(ts)) == IDENT {
        KeepOne(Adv(ts), us);
        KeepOne(ts, More(Cur(Adv(ts)), us));
      } else {
        KeepOne(ts, us);
      }
    } else if IsLiteralKind(At(ts)) {
      KeepOne(ts, us);
    } else if IsWordPrimary(At(ts)) {
      WordKind(At(ts));
      KeepKind(ts, us);
      OneAhead(KindToken(At(ts)), us);
    }
  }

  lemma {:induction false} OneAhead(t: Token, us: Stream)
    ensures Ahead([t], us) == More(t, us)
  {
    assert [t][1..] == [];
  }

  lemma {:induction false} LiteralMore(ts: Stream)
    ensures IsNumber(At(ts)) || IsLiteralKind(At(ts)) || IsWordPrimary(At(ts)) || At(ts) == LPAREN ==> ts.More?
    ensures !IsNumber(LPAREN) && !IsLiteralKind(LPAREN) && !IsNumber(IDENT) && !IsLiteralKind(IDENT) && !IsNumber(EXTIDENT) && !IsLiteralKind(EXTIDENT)
    ensures At(Adv(ts)) == IDENT ==> Adv(ts).More?
  {
  }

  lemma {:induction false} FactorThin(ts: Stream, us: Stream)
    requires Clean(ts, false) && ParseFactor(ts).errs == 0 && Thins(ParseFactor(ts).rest, us)
    ensures Thins(ts, ExprAhead(ParseFactor(ts).v, us))
    decreases Len(ts), 4
  {
    hide Clean, Thins, ParsePrimary, KindToken, Tiered, IsFactor, IsPrimary;
    AdvClean(ts);
    if At(ts) == ABS || At(ts) == NOT {
      WordKind(At(ts));
      PrimaryThin(Adv(ts), us);
      KeepKind(ts, ExprAhead(ParsePrimary(Adv(ts)).v, us));
    } else {
      var x := ParsePrimary(ts);
      PrimarySound(ts, false);
      if At(x.rest) == EXP {
        AdvClean(x.rest);
        SignKind(EXP);
        PrimaryThin(Adv(x.rest), us);
        KeepKind(x.rest, ExprAhead(ParsePrimary(Adv(x.rest)).v, us));
        PrimaryThin(ts, Tok(EXP, ExprAhead(ParsePrimary(Adv(x.rest)).v, us)));
      } else {
        PrimaryThin(ts, us);
      }
    }
  }

  lemma {:induction false} OperandThin(t: nat, ts: Stream, us: Stream)
    requires 1 <= t <= 5 && Clean(ts, false) && ParseOperand(t, ts).errs == 0 && Thins(ParseOperand(t, ts).rest, us)
    ensures Thins(ts, ExprAhead(ParseOperand(t, ts).v, us))
    decreases Len(ts), 15 - 2 * t
  {
    hide Clean, Thins, ParseFactor, ParseTier, ExprAhead;
    if t == 5 { FactorThin(ts, us); } else { TierThin(t + 1, ts, us); }
  }

  lemma {:induction false} FoldThin(t: nat, left: Expr, ts: Stream, us: Stream) returns (s: Stream)
    requires 1 <= t <= 5 && Clean(ts, false) && FoldTier(t, left, ts, NO_ERRORS).errs == 0 && Thins(FoldTier(t, left, ts, NO_ERRORS).rest, us)
    ensures Thins(ts, s) && ExprAhead(FoldTier(t, left, ts, NO_ERRORS).v, us) == ExprAhead(left, s)
    decreases Len(ts), 0
  {
    hide Clean, Thins, ParseOperand, KindToken, IsOp, Tiered;
    s := us;
    if IsOp(t, At(ts)) {
      var y := ParseOperand(t, Adv(ts));
      OpWord(t, At(ts));
      AdvClean(ts);
      OperandSound(t, Adv(ts), false);
      var m := FoldThin(t, Binary(left, At(ts), y.v), y.rest, us);
      OperandThin(t, Adv(ts), m);
      s := Tok(At(ts), ExprAhead(y.v, m));
      KeepKind(ts, ExprAhead(y.v, m));
    }
  }

  lemma {:induction false} TierThin(t: nat, ts: Stream, us: Stream)
    requires 1 <= t <= 5 && Clean(ts, false) && ParseTier(t, ts).errs == 0 && Thins(ParseTier(t, ts).rest, us)
    ensures Thins(ts, ExprAhead(ParseTier(t, ts).v, us))
    decreases Len(ts), 16 - 2 * t
  {
    hide Clean, Thins, ParseOperand, FoldTier, KindToken, Tiered;
    AdvClean(ts);
    if t == 4 && IsSign(At(ts)) {
      var x := ParseTier(5, Adv(ts));
      TierSound(5, Adv(ts), false);
      SignKind(At(ts));
      var m := FoldThin(4, Unary(At(ts), x.v), x.rest, us);
      TierThin(5, Adv(ts), m);
      KeepKind(ts, ExprAhead(x.v, m));
    } else {
      var x := ParseOperand(t, ts);
      OperandSound(t, ts, false);
      var m := FoldThin(t, x.v, x.rest, us);
      OperandThin(t, ts, m);
    }
  }

  lemma {:induction false} ExprThin(ts: Stream, us: Stream)
    requires Clean(ts, false) && ParseExpr(ts).errs == 0 && Thins(ParseExpr(ts).rest, us)
    ensures Thins(ts, ExprAhead(ParseExpr(ts).v, us))
    decreases Len(ts), 20
  {
    hide Clean, Thins, ParseTier, KindToken, Tiered;
    var l := ParseTier(1, ts);
    TierSound(1, ts, false);
    if At(l.rest) == TO || At(l.rest) == DOWNTO {
      AdvClean(l.rest);
      WordKind(At(l.rest));
      TierThin(1, Adv(l.rest), us);
      KeepKind(l.rest, ExprAhead(ParseTier(1, Adv(l.rest)).v, us));
      TierThin(1, ts, Tok(At(l.rest), ExprAhead(ParseTier(1, Adv(l.rest)).v, us)));
    } else {
      TierThin(1, ts, us);
    }
  }

  // ---- The round trip from source text ----

  /** A parsed expression comes back from its printed text exactly when every printed token keeps its meaning and no selector
      stands on a plain dotted name. */
  lemma {:induction false} SourceComesBack(src: string)
    requires Read(src).errs == 0
    ensures Read(Render(PrintExpr(Read(src).v, Empty))) == R(Read(src).v, Done, NO_ERRORS) <==>
            AllKeep(PrintExpr(Read(src).v, Empty), ILLEGAL) && Full(Read(src).v, true)
  {
    hide Lex, Render, PrintExpr, AllKeep, Full, ParseExpr, Thins, Diverge, ExprAhead, Clean;
    var t := PrintExpr(Read(src).v, Empty);
    if AllKeep(t, ILLEGAL) {
      SourceRoundTripExact(src);
    } else if Read(Render(t)) == R(Read(src).v, Done, 0) {
      PrintDiverges(src);
      LexClean(Render(t), 0, ILLEGAL);
      ThinEnds();
      ExprThin(Lex(Render(t), 0, ILLEGAL), Done);
      ExprTokens(Read(src).v, Empty);
      NeverThins(Lex(Render(t), 0, ILLEGAL), [], Tokens(t));
    }
  }

  lemma {:induction false} ThinEnds()
    ensures Thins(Done, Done) && Tokens(Empty) == Done && forall us :: Ahead([], us) == us
  {
  }

  lemma {:induction false} PrintDiverges(src: string)
    requires Read(src).errs == 0 && !AllKeep(PrintExpr(Read(src).v, Empty), ILLEGAL)
    ensures var t := PrintExpr(Read(src).v, Empty); Diverge(Lex(Render(t), 0, ILLEGAL), Tokens(t))
  {
    hide Lex, Render, PrintExpr, AllKeep, ParseExpr, Diverge, Clean, Full, AllLexemes, SetApart;
    var t := PrintExpr(Read(src).v, Empty);
    SourceApart(src);
    LexDiverges(t, "", ILLEGAL);
    assert "" + Render(t) == Render(t);
  }
}
