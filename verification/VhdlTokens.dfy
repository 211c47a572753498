// tools/socgen/vhdl/lexer.go: how each form of token is read, from its characters written out.

module VhdlTokens {
  import opened Common
  import opened VhdlGrammar
  import opened VhdlText
  import opened VhdlSource

  const DIGITS := "0123456789"

  const DIGITS_ := "0123456789_"

  const HEX_ := "0123456789abcdefABCDEF_"

  /** From i to e there are only characters of the set, and none at e. */
  predicate Run(s: string, set_: string, i: nat, e: nat) {
    i <= e <= |s| && (forall j :: i <= j < e ==> s[j] in set_) && (e < |s| ==> s[e] !in set_)
  }

  predicate Has(s: string, i: nat, set_: string) { i < |s| && s[i] in set_ }

  lemma {:induction false} Digits()
    ensures forall c :: c in DIGITS <==> '0' <= c <= '9'
    ensures forall c :: c in DIGITS_ <==> '0' <= c <= '9' || c == '_'
  {
  }

  lemma {:induction false} Hex()
    ensures forall c :: c in HEX_ <==> '0' <= c <= '9' || 'a' <= c <= 'f' || 'A' <= c <= 'F' || c == '_'
  {
  }

  lemma {:induction false} EndRuns(cls: Class, set_: string, s: string, i: nat)
    requires i <= |s| && forall c :: In(cls, c) <==> c in set_
    ensures Run(s, set_, i, End(cls, s, i))
    decreases |s| - i
  {
    hide In;
    if i < |s| && In(cls, s[i]) { EndRuns(cls, set_, s, i + 1); }
  }

  // ---- Numbers ----

  /** e or E, perhaps a sign, and digits, or nothing. */
  predicate Exponent(s: string, i: nat, e: nat) {
    if Has(s, i, "eE") then Run(s, DIGITS, if Has(s, i + 1, "+-") then i + 2 else i + 1, e) else e == i
  }

  /** A number of kind k from i to e whose first digits end at d: with # a based one, with a point or an exponent a real one. */
  ghost predicate Number(s: string, i: nat, d: nat, k: Kind, e: nat) {
    && Run(s, DIGITS_, i, d)
    && if Has(s, d, "#") then k == BASEDLIT && exists h: nat :: Run(s, HEX_, d + 1, h) && Exponent(s, if Has(s, h, "#") then h + 1 else h, e)
       else if Has(s, d, ".") && Has(s, d + 1, DIGITS) then k == REAL && exists h: nat :: Run(s, DIGITS_, d + 1, h) && Exponent(s, h, e)
       else if Has(s, d, "eE") then k == REAL && Exponent(s, d, e)
       else k == INT && e == d
  }

  /** A token that starts with a digit is the number there. */
  lemma {:induction false} NumberIsRead(s: string, i: nat, prev: Kind)
    requires Has(s, i, DIGITS)
    ensures var t := TokenAt(s, i, prev); t.tok.lit == s[i..t.end] && exists d :: Number(s, i, d, t.tok.kind, t.end)
  {
    hide End, Exponent, ExponentEnd, QuoteEnd, DelimiterAt, WordAt;
    Digits();
    var d := End(DigitChar, s, i + 1);
    EndRuns(DigitChar, DIGITS_, s, i + 1);
    assert Run(s, DIGITS_, i, d);
    NumberParts(s, i, d);
    assert Number(s, i, d, NumberEnd(s, d).0, NumberEnd(s, d).1);
  }

  lemma {:induction false} NumberParts(s: string, i: nat, d: nat)
    requires Run(s, DIGITS_, i, d)
    ensures Number(s, i, d, NumberEnd(s, d).0, NumberEnd(s, d).1)
  {
    hide End, Exponent, ExponentEnd;
    Digits();
    if Has(s, d, "#") {
      Hex();
      var h := End(BasedChar, s, d + 1);
      EndRuns(BasedChar, HEX_, s, d + 1);
      ExponentIs(s, HashEnd(s, h));
      assert Exponent(s, if Has(s, h, "#") then h + 1 else h, NumberEnd(s, d).1);
    } else if Has(s, d, ".") && Has(s, d + 1, DIGITS) {
      var h := End(DigitChar, s, d + 1);
      EndRuns(DigitChar, DIGITS_, s, d + 1);
      ExponentIs(s, h);
      assert Run(s, DIGITS_, d + 1, h) && Exponent(s, h, NumberEnd(s, d).1);
    } else {
      ExponentIs(s, d);
    }
  }

  lemma {:induction false} ExponentIs(s: string, i: nat)
    requires i <= |s|
    ensures Exponent(s, i, ExponentEnd(s, i))
  {
    hide End;
    Digits();
    if Has(s, i, "eE") {
      var j := if Has(s, i + 1, "+-") then i + 2 else i + 1;
      EndRuns(Digit, DIGITS, s, j);
    }
  }

  // ---- Quoted tokens ----

  /** A text with its quotes doubled. */
  function Doubled(v: string, q: char): string { if v == "" then "" else (if v[0] == q then [q, q] else [v[0]]) + Doubled(v[1..], q) }

  /** What is quoted ends at the first quote that is not doubled. */
  lemma {:induction false} QuoteIsRead(pre: string, v: string, q: char, rest: string)
    requires q != '\0' && (rest == "" || rest[0] != q)
    ensures var s := pre + Doubled(v, q) + [q] + rest; QuoteEnd(q, s, |pre|) == |pre| + |Doubled(v, q)| + 1 && IsShut(q, s, |pre|)
    decreases v
  {
    var s := pre + Doubled(v, q) + [q] + rest;
    if v == "" {
      assert s == pre + [q] + rest;
      assert s[|pre|] == q && (rest != "" ==> s[|pre| + 1] == rest[0]);
    } else {
      var head := if v[0] == q then [q, q] else [v[0]];
      QuoteIsRead(pre + head, v[1..], q, rest);
      assert s == (pre + head) + Doubled(v[1..], q) + [q] + rest;
      assert s[|pre|] == head[0] && (v[0] == q ==> s[|pre| + 1] == q);
    }
  }

  lemma {:induction false} StringIsRead(pre: string, v: string, rest: string, prev: Kind)
    requires rest == "" || rest[0] != '"'
    ensures var t := "\"" + Doubled(v, '"') + ['"']; TokenAt(pre + t + rest, |pre|, prev) == Lexed(Token(STRINGLIT, t), |pre| + |t|)
  {
    hide QuoteEnd, IsShut, Doubled, NumberAt, DelimiterAt, WordAt;
    OneQuoted(pre, "\"", v, '"', rest);
  }

  lemma {:induction false} ExtendedIsRead(pre: string, v: string, rest: string, prev: Kind)
    requires rest == "" || rest[0] != '\\'
    ensures var t := "\\" + Doubled(v, '\\') + ['\\']; TokenAt(pre + t + rest, |pre|, prev) == Lexed(Token(EXTIDENT, t), |pre| + |t|)
  {
    hide QuoteEnd, IsShut, Doubled, NumberAt, DelimiterAt, WordAt;
    OneQuoted(pre, "\\", v, '\\', rest);
  }

  lemma {:induction false} BitStringIsRead(pre: string, b: char, v: string, rest: string, prev: Kind)
    requires b in "bBoOxX" && (rest == "" || rest[0] != '"')
    ensures var t := [b, '"'] + Doubled(v, '"') + ['"']; TokenAt(pre + t + rest, |pre|, prev) == Lexed(Token(BITSTRINGLIT, t), |pre| + |t|)
  {
    hide QuoteEnd, IsShut, Doubled, NumberAt, DelimiterAt, Keyword;
    OneQuoted(pre, [b, '"'], v, '"', rest);
    BaseThenQuote(pre + ([b, '"'] + Doubled(v, '"') + ['"']) + rest, |pre|, b);
  }

  lemma {:induction false} BaseThenQuote(s: string, i: nat, b: char)
    requires i + 1 < |s| && s[i] == b && s[i + 1] == '"' && b in "bBoOxX"
    ensures IsBitString(s, i) && IsLetter(b)
  {
    assert End(WordChar, s, i + 1) == i + 1;
  }

  lemma {:induction false} OneQuoted(pre: string, open: string, v: string, q: char, rest: string)
    requires q != '\0' && (rest == "" || rest[0] != q) && open != ""
    ensures var t := open + Doubled(v, q) + [q];
            var s := pre + t + rest;
            |pre| + |t| <= |s| && (forall k :: 0 <= k < |open| ==> s[|pre| + k] == open[k]) && QuoteEnd(q, s, |pre| + |open|) == |pre| + |t| && s[|pre|..|pre| + |t|] == t
  {
    hide QuoteEnd, IsShut, Doubled;
    var t := open + Doubled(v, q) + [q];
    QuoteIsRead(pre + open, v, q, rest);
    assert pre + t + rest == (pre + open) + Doubled(v, q) + [q] + rest;
  }

  // ---- The other tokens ----

  /** A comment goes to the end of its line. */
  lemma {:induction false} CommentIsRead(s: string, i: nat, prev: Kind)
    requires i + 1 < |s| && s[i] == '-' && s[i + 1] == '-'
    ensures var t := TokenAt(s, i, prev);
            t.tok == Token(COMMENT, s[i..t.end]) && i + 2 <= t.end <= |s| && '\n' !in s[i + 2..t.end] && (t.end < |s| ==> s[t.end] == '\n')
  {
    hide QuoteEnd, NumberAt, DelimiterAt, WordAt;
    LineEnds(s, i + 2);
  }

  lemma {:induction false} LineEnds(s: string, i: nat)
    requires i <= |s|
    ensures var e := End(CommentChar, s, i); i <= e <= |s| && '\n' !in s[i..e] && (e < |s| ==> s[e] == '\n')
    decreases |s| - i
  {
    if i < |s| && s[i] != '\n' {
      LineEnds(s, i + 1);
      var e := End(CommentChar, s, i);
      assert s[i..e] == [s[i]] + s[i + 1..e];
    }
  }

  /** A tick is a character literal with the character behind it exactly when a second tick follows that character and the token before
      cannot end a name. */
  lemma {:induction false} TickIsRead(s: string, i: nat, prev: Kind)
    requires i < |s| && s[i] == '\''
    ensures var t := TokenAt(s, i, prev);
            if i + 2 < |s| && s[i + 2] == '\'' && prev != IDENT && prev != EXTIDENT && prev != RPAREN && prev != TICK
            then t.tok.kind == CHARLIT && t.end == i + 3 && (s[i + 1] < '\U{80}' ==> t.tok.lit == s[i..i + 3])
            else t == Lexed(Token(TICK, ""), i + 1)
  {
    hide QuoteEnd, NumberAt, WordAt;
  }

  /** Two signs are one token when there is such a token. */
  lemma {:induction false} PairIsRead(s: string, i: nat, prev: Kind, k: Kind)
    requires i + 1 < |s| && IsDelimiter(k) && SymbolOf(k) == s[i..i + 2]
    ensures TokenAt(s, i, prev) == Lexed(Token(k, ""), i + 2)
  {
    hide SymbolOf, QuoteEnd, NumberAt, WordAt;
    SymbolParts(k);
  }

  /** And otherwise the first is one alone. */
  lemma {:induction false} SignIsRead(s: string, i: nat, prev: Kind, k: Kind)
    requires i < |s| && IsDelimiter(k) && k != TICK && SymbolOf(k) == [s[i]]
    requires i + 1 < |s| ==> s[i..i + 2] != "--" && forall j :: IsDelimiter(j) ==> SymbolOf(j) != s[i..i + 2]
    ensures TokenAt(s, i, prev) == Lexed(Token(k, ""), i + 1)
  {
    hide SymbolOf, QuoteEnd, NumberAt, WordAt, Pair, Single;
    SymbolParts(k);
    assert "--" == ['-', '-'];
    assert i + 1 < |s| ==> s[i..i + 2] == [s[i], Ch(s, i + 1)];
    PairMeans(s[i], Ch(s, i + 1));
    SingleSign(s[i]);
  }

  lemma {:induction false} PairMeans(c: char, d: char)
    ensures var k := Pair(c, d); k.Some? ==> SymbolOf(k.value) == [c, d] && IsDelimiter(k.value) && d != '\0'
  {
    if Pair(c, d).Some? { PairSpelled(c, d); }
  }

  lemma {:induction false} SingleSign(c: char)
    ensures Single(c).Some? ==> !IsLetter(c) && !IsDigit(c) && c != '"' && c != '\\' && c != '\''
  {
  }

  /** White space is skipped, and nothing else is. */
  lemma {:induction false} SpaceIsSkipped(s: string, i: nat, prev: Kind)
    requires i < |s|
    ensures if s[i] == ' ' || s[i] == '\t' || s[i] == '\r' || s[i] == '\n' then Lex(s, i, prev) == Lex(s, i + 1, prev)
            else var t := TokenAt(s, i, prev); var more := Lex(s, t.end, t.tok.kind); Lex(s, i, prev) == if t.tok.kind == COMMENT then more else More(t.tok, more)
  {
    hide TokenAt;
  }
}
