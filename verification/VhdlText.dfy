// tools/socgen/vhdl/lexer.go and token.go: which token stands at a position of a source text, and how printed text lexes. Characters are
// bytes.

module VhdlText {
  import opened Common
  import opened VhdlGrammar
  import opened VhdlExprTheorems

  function Ch(s: string, i: nat): char { if i < |s| then s[i] else '\0' }

  predicate IsLetter(c: char) { 'a' <= c <= 'z' || 'A' <= c <= 'Z' }

  predicate IsDigit(c: char) { '0' <= c <= '9' }

  predicate IsSpace(c: char) { c == ' ' || c == '\t' || c == '\r' || c == '\n' }

  predicate IsBase(c: char) { c == 'b' || c == 'B' || c == 'o' || c == 'O' || c == 'x' || c == 'X' }

  predicate IsNameEnd(k: Kind) { k == IDENT || k == EXTIDENT || k == RPAREN || k == TICK }

  /** The runs of characters that the lexer's loops read. */
  datatype Class = Space | WordChar | Digit | DigitChar | BasedChar | CommentChar

  predicate In(cls: Class, c: char) {
    match cls
    case Space => IsSpace(c)
    case WordChar => IsLetter(c) || IsDigit(c) || c == '_'
    case Digit => IsDigit(c)
    case DigitChar => IsDigit(c) || c == '_'
    case BasedChar => IsDigit(c) || 'a' <= c <= 'f' || 'A' <= c <= 'F' || c == '_'
    case CommentChar => c != '\n'
  }

  /** The end of the run of a class that starts at i. */
  function End(cls: Class, s: string, i: nat): (e: nat)
    ensures i <= e && (i <= |s| ==> e <= |s|)
    decreases |s| - i
  {
    if i < |s| && In(cls, s[i]) then End(cls, s, i + 1) else i
  }

  /** The end of a quoted token whose first quote is before i: behind the closing quote, or at the end of the source. A doubled
      quote stands for one quote. */
  function QuoteEnd(q: char, s: string, i: nat): (e: nat)
    requires q != '\0' && i <= |s|
    ensures i <= e <= |s|
    decreases |s| - i
  {
    if i == |s| then i
    else if s[i] == q then if Ch(s, i + 1) == q then QuoteEnd(q, s, i + 2) else i + 1
    else QuoteEnd(q, s, i + 1)
  }

  /** Whether there is a closing quote. */
  predicate IsShut(q: char, s: string, i: nat)
    requires q != '\0' && i <= |s|
    decreases |s| - i
  {
    if i == |s| then false
    else if s[i] == q then (if Ch(s, i + 1) == q then IsShut(q, s, i + 2) else true)
    else IsShut(q, s, i + 1)
  }

  /** A token and the position behind it. */
  datatype Lexed = Lexed(tok: Token, end: nat)

  function Lexeme(k: Kind, s: string, i: nat, e: nat): Lexed
    requires i <= e <= |s|
  {
    Lexed(Token(k, s[i..e]), e)
  }

  /** The token at i, where no white space stands; prev is the kind of the token before. */
  function TokenAt(s: string, i: nat, prev: Kind): (r: Lexed)
    requires i < |s|
    ensures i < r.end <= |s|
  {
    var c := s[i];
    if c == '-' && Ch(s, i + 1) == '-' then Lexeme(COMMENT, s, i, End(CommentChar, s, i + 2))
    else if c == '\\' then Lexeme(EXTIDENT, s, i, QuoteEnd('\\', s, i + 1))
    else if c == '"' then Lexeme(STRINGLIT, s, i, QuoteEnd('"', s, i + 1))
    else if IsLetter(c) then WordAt(s, i)
    else if IsDigit(c) then NumberAt(s, i)
    else DelimiterAt(s, i, prev)
  }

  /** An identifier, a reserved word or a bit string. */
  function WordAt(s: string, i: nat): (r: Lexed)
    requires i < |s| && IsLetter(s[i])
    ensures i < r.end <= |s|
  {
    var e := End(WordChar, s, i + 1);
    if IsBitString(s, i) then Lexeme(BITSTRINGLIT, s, i, QuoteEnd('"', s, i + 2))
    else Lexeme(Keyword(Lower(s[i..e])).GetOr(IDENT), s, i, e)
  }

  predicate IsBitString(s: string, i: nat)
    requires i < |s|
  {
    End(WordChar, s, i + 1) == i + 1 && IsBase(s[i]) && Ch(s, i + 1) == '"'
  }

  function NumberAt(s: string, i: nat): (r: Lexed)
    requires i < |s| && IsDigit(s[i])
    ensures i < r.end <= |s|
  {
    var (k, e) := NumberEnd(s, End(DigitChar, s, i + 1));
    Lexeme(k, s, i, e)
  }

  /** The kind and the end of a number whose first digits end at d. */
  function NumberEnd(s: string, d: nat): (r: (Kind, nat))
    requires d <= |s|
    ensures d <= r.1 <= |s|
  {
    if Ch(s, d) == '#' then (BASEDLIT, ExponentEnd(s, HashEnd(s, End(BasedChar, s, d + 1))))
    else if Ch(s, d) == '.' && IsDigit(Ch(s, d + 1)) then (REAL, ExponentEnd(s, End(DigitChar, s, d + 1)))
    else if Ch(s, d) == 'e' || Ch(s, d) == 'E' then (REAL, ExponentEnd(s, d))
    else (INT, d)
  }

  function HashEnd(s: string, i: nat): nat { if Ch(s, i) == '#' then i + 1 else i }

  function ExponentEnd(s: string, i: nat): (e: nat)
    requires i <= |s|
    ensures i <= e <= |s|
  {
    if Ch(s, i) == 'e' || Ch(s, i) == 'E' then End(Digit, s, if Ch(s, i + 1) == '+' || Ch(s, i + 1) == '-' then i + 2 else i + 1)
    else i
  }

  /** string(c) of a byte: a byte above 127 becomes the two bytes of its UTF-8 code. */
  function Utf8(c: char): (t: string)
    ensures |t| == if c < '\U{80}' then 1 else 2
  {
    if c < '\U{80}' then [c] else [(0xC0 + c as int / 64) as char, (0x80 + c as int % 64) as char]
  }

  function DelimiterAt(s: string, i: nat, prev: Kind): (r: Lexed)
    requires i < |s|
    ensures i < r.end <= |s|
  {
    var c, d := s[i], Ch(s, i + 1);
    if c == '\'' then
      if !IsNameEnd(prev) && Ch(s, i + 2) == '\'' then Lexed(Token(CHARLIT, "'" + Utf8(s[i + 1]) + "'"), i + 3)
      else Lexed(Token(TICK, ""), i + 1)
    else if Pair(c, d).Some? then Lexed(Token(Pair(c, d).value, ""), i + 2)
    else if Single(c).Some? then Lexed(Token(Single(c).value, ""), i + 1)
    else Lexed(Token(ILLEGAL, Utf8(c)), i + 1)
  }

  function Single(c: char): Option<Kind> {
    match c
    case '(' => Some(LPAREN) case ')' => Some(RPAREN) case '[' => Some(LBRACKET) case ']' => Some(RBRACKET)
    case ',' => Some(COMMA) case ';' => Some(SEMICOLON) case '+' => Some(PLUS) case '-' => Some(MINUS) case '&' => Some(AMP)
    case '|' => Some(BAR) case '.' => Some(DOT) case ':' => Some(COLON) case '=' => Some(EQ) case '>' => Some(GT)
    case '<' => Some(LT) case '/' => Some(SLASH) case '*' => Some(STAR)
    case _ => None
  }

  function Pair(c: char, d: char): (k: Option<Kind>)
    ensures k.Some? ==> d != '\0'
  {
    if c == ':' && d == '=' then Some(ASSIGN)
    else if c == '=' && d == '>' then Some(ARROW)
    else if c == '>' && d == '=' then Some(GE)
    else if c == '<' && d == '=' then Some(LE)
    else if c == '<' && d == '>' then Some(BOX)
    else if c == '/' && d == '=' then Some(NE)
    else if c == '*' && d == '*' then Some(EXP)
    else None
  }

  // ---- Reserved words ----

  function LowerChar(c: char): char { if 'A' <= c <= 'Z' then c + 32 as char else c }

  function Lower(s: string): (t: string)
    ensures |t| == |s| && forall i :: 0 <= i < |s| ==> t[i] == LowerChar(s[i])
  {
    seq(|s|, i requires 0 <= i < |s| => LowerChar(s[i]))
  }

  const RESERVED: set<string> := {
    "access", "alias", "architecture", "array", "attribute", "begin", "block", "body", "buffer", "bus", "component", "configuration",
    "constant", "disconnect", "entity", "file", "function", "generate", "generic", "group", "guarded", "impure", "inout", "label",
    "library", "linkage", "literal", "map", "new", "of", "out", "package", "port", "postponed", "procedure", "process", "pure",
    "record", "register", "select", "shared", "signal", "subtype", "type", "unaffected", "units", "use", "variable", "with"}

  /** LookupKeyword, on a word in lower case. */
  function Keyword(w: string): (k: Option<Kind>)
    ensures k.Some? ==> IsKeyword(k.value)
  {
    if Named(w).Some? then Named(w) else if w in RESERVED then Some(OTHERWORD) else None
  }

  function Named(w: string): (k: Option<Kind>)
    ensures k.Some? ==> IsKeyword(k.value)
  {
    if w == "" then None
    else match w[0]
      case 'a' => NamedA(w)
      case 'c' => NamedC(w)
      case 'd' => NamedD(w)
      case 'e' => NamedE(w)
      case 'f' => NamedF(w)
      case 'i' => NamedI(w)
      case 'l' => NamedL(w)
      case 'm' => NamedM(w)
      case 'n' => NamedN(w)
      case 'o' => NamedO(w)
      case 'r' => NamedR(w)
      case 's' => NamedS(w)
      case 't' => NamedT(w)
      case 'u' => NamedU(w)
      case 'w' => NamedW(w)
      case 'x' => NamedX(w)
      case _ => None
  }

  function NamedA(w: string): (k: Option<Kind>)
    ensures k.Some? ==> IsKeyword(k.value)
  {
    match w
    case "abs" => Some(ABS) case "after" => Some(AFTER) case "all" => Some(ALL) case "and" => Some(AND)
    case "assert" => Some(ASSERT) case _ => None
  }

  function NamedC(w: string): (k: Option<Kind>)
    ensures k.Some? ==> IsKeyword(k.value)
  {
    match w
    case "case" => Some(CASE) case _ => None
  }

  function NamedD(w: string): (k: Option<Kind>)
    ensures k.Some? ==> IsKeyword(k.value)
  {
    match w
    case "downto" => Some(DOWNTO) case _ => None
  }

  function NamedE(w: string): (k: Option<Kind>)
    ensures k.Some? ==> IsKeyword(k.value)
  {
    match w
    case "else" => Some(ELSE) case "elsif" => Some(ELSIF) case "end" => Some(END) case "exit" => Some(EXIT) case _ => None
  }

  function NamedF(w: string): (k: Option<Kind>)
    ensures k.Some? ==> IsKeyword(k.value)
  {
    match w
    case "for" => Some(FOR) case _ => None
  }

  function NamedI(w: string): (k: Option<Kind>)
    ensures k.Some? ==> IsKeyword(k.value)
  {
    match w
    case "if" => Some(IF) case "in" => Some(IN) case "inertial" => Some(INERTIAL) case "is" => Some(IS) case _ => None
  }

  function NamedL(w: string): (k: Option<Kind>)
    ensures k.Some? ==> IsKeyword(k.value)
  {
    match w
    case "loop" => Some(LOOP) case _ => None
  }

  function NamedM(w: string): (k: Option<Kind>)
    ensures k.Some? ==> IsKeyword(k.value)
  {
    match w
    case "mod" => Some(MOD) case _ => None
  }

  function NamedN(w: string): (k: Option<Kind>)
    ensures k.Some? ==> IsKeyword(k.value)
  {
    match w
    case "nand" => Some(NAND) case "next" => Some(NEXT) case "nor" => Some(NOR) case "not" => Some(NOT)
    case "null" => Some(NULL) case _ => None
  }

  function NamedO(w: string): (k: Option<Kind>)
    ensures k.Some? ==> IsKeyword(k.value)
  {
    match w
    case "on" => Some(ON) case "open" => Some(OPEN) case "or" => Some(OR) case "others" => Some(OTHERS) case _ => None
  }

  function NamedR(w: string): (k: Option<Kind>)
    ensures k.Some? ==> IsKeyword(k.value)
  {
    match w
    case "range" => Some(RANGE) case "reject" => Some(REJECT) case "rem" => Some(REM) case "report" => Some(REPORT)
    case "return" => Some(RETURN) case "rol" => Some(ROL) case "ror" => Some(ROR) case _ => None
  }

  function NamedS(w: string): (k: Option<Kind>)
    ensures k.Some? ==> IsKeyword(k.value)
  {
    match w
    case "severity" => Some(SEVERITY) case "sla" => Some(SLA) case "sll" => Some(SLL) case "sra" => Some(SRA)
    case "srl" => Some(SRL) case _ => None
  }

  function NamedT(w: string): (k: Option<Kind>)
    ensures k.Some? ==> IsKeyword(k.value)
  {
    match w
    case "then" => Some(THEN) case "to" => Some(TO) case "transport" => Some(TRANSPORT) case _ => None
  }

  function NamedU(w: string): (k: Option<Kind>)
    ensures k.Some? ==> IsKeyword(k.value)
  {
    match w
    case "until" => Some(UNTIL) case _ => None
  }

  function NamedW(w: string): (k: Option<Kind>)
    ensures k.Some? ==> IsKeyword(k.value)
  {
    match w
    case "wait" => Some(WAIT) case "when" => Some(WHEN) case "while" => Some(WHILE) case _ => None
  }

  function NamedX(w: string): (k: Option<Kind>)
    ensures k.Some? ==> IsKeyword(k.value)
  {
    match w
    case "xnor" => Some(XNOR) case "xor" => Some(XOR) case _ => None
  }

  lemma {:induction false} NamedAtoE(k: Kind)
    requires ABS <= k <= EXIT
    ensures Named(WordOf(k)) == Some(k)
  {
  }

  lemma {:induction false} NamedFtoN(k: Kind)
    requires FOR <= k <= NULL
    ensures Named(WordOf(k)) == Some(k)
  {
  }

  lemma {:induction false} NamedOtoRe(k: Kind)
    requires ON <= k <= REPORT
    ensures Named(WordOf(k)) == Some(k)
  {
  }

  lemma {:induction false} NamedReToSl(k: Kind)
    requires RETURN <= k <= SLL
    ensures Named(WordOf(k)) == Some(k)
  {
  }

  lemma {:induction false} NamedSrToT(k: Kind)
    requires SRA <= k <= TRANSPORT
    ensures Named(WordOf(k)) == Some(k)
  {
  }

  lemma {:induction false} NamedUtoWhen(k: Kind)
    requires UNTIL <= k <= WHEN
    ensures Named(WordOf(k)) == Some(k)
  {
  }

  lemma {:induction false} NamedWhiletoX(k: Kind)
    requires WHILE <= k <= XOR
    ensures Named(WordOf(k)) == Some(k)
  {
  }

  lemma {:induction false} NamedIsWord(k: Kind)
    requires IsKeyword(k) && k != OTHERWORD
    ensures Keyword(WordOf(k)) == Some(k)
  {
    hide Named, WordOf;
    if ABS <= k <= EXIT {
      NamedAtoE(k);
    } else if FOR <= k <= NULL {
      NamedFtoN(k);
    } else if ON <= k <= REPORT {
      NamedOtoRe(k);
    } else if RETURN <= k <= SLL {
      NamedReToSl(k);
    } else if SRA <= k <= TRANSPORT {
      NamedSrToT(k);
    } else {
      if UNTIL <= k <= WHEN { NamedUtoWhen(k); } else { NamedWhiletoX(k); }
    }
  }

  // ==== tools/socgen/vhdl/lexer.go: a token is found again wherever its characters stand, when what follows does not run on.

  /** The same n characters at i of s and at j of u. */
  ghost predicate Window(s: string, i: nat, u: string, j: nat, n: nat) {
    i + n <= |s| && j + n <= |u| && forall p :: i <= p < i + n ==> s[p] == u[p + j - i]
  }

  lemma {:induction false} SameSlice(s: string, i: nat, u: string, j: nat, n: nat)
    requires Window(s, i, u, j, n)
    ensures s[i..i + n] == u[j..j + n]
  {
  }

  /** What can stand behind a token that would run on into a letter, digit, quote or second sign. */
  predicate Apart(s: string, i: nat) {
    i >= |s| || IsSpace(s[i]) || s[i] == '(' || s[i] == ')' || s[i] == ',' || s[i] == ';' || s[i] == '\'' ||
    (s[i] == '.' && !IsDigit(Ch(s, i + 1)))
  }

  predicate NeedsGap(k: Kind) {
    k == IDENT || k == EXTIDENT || k == INT || k == REAL || k == BASEDLIT || k == STRINGLIT || k == BITSTRINGLIT
    || k == MINUS || k == COLON || k == EQ || k == GT || k == LT || k == SLASH || k == STAR || IsKeyword(k)
  }

  lemma {:induction false} EndSame(cls: Class, s: string, i: nat, u: string, j: nat, n: nat)
    requires Window(s, i, u, j, n) && End(cls, s, i) <= i + n
    requires End(cls, s, i) == i + n ==> j + n == |u| || !In(cls, u[j + n])
    ensures End(cls, u, j) + i == End(cls, s, i) + j
    decreases n
  {
    hide In;
    if n > 0 && In(cls, s[i]) { EndSame(cls, s, i + 1, u, j + 1, n - 1); }
  }

  lemma {:induction false} QuoteSame(q: char, s: string, i: nat, u: string, j: nat, n: nat)
    requires q != '\0' && Window(s, i, u, j, n) && QuoteEnd(q, s, i) == i + n
    requires if IsShut(q, s, i) then Ch(u, j + n) != q else j + n == |u|
    ensures QuoteEnd(q, u, j) == j + n
    decreases n
  {
    if n > 0 {
      var k := if s[i] == q && Ch(s, i + 1) == q then 2 else 1;
      if !(s[i] == q && k == 1) { QuoteSame(q, s, i + k, u, j + k, n - k); }
    }
  }

  /** Without a closing quote the token runs on. */
  lemma {:induction false} QuoteRunsOn(q: char, s: string, i: nat, u: string, j: nat, n: nat)
    requires q != '\0' && Window(s, i, u, j, n) && QuoteEnd(q, s, i) == i + n && !IsShut(q, s, i) && j + n < |u|
    ensures QuoteEnd(q, u, j) > j + n && i + n == |s|
    decreases n
  {
    if n > 0 {
      var k := if s[i] == q && Ch(s, i + 1) == q then 2 else 1;
      QuoteRunsOn(q, s, i + k, u, j + k, n - k);
    }
  }

  lemma {:induction false} ApartStops(u: string, j: nat)
    requires Apart(u, j)
    ensures forall cls: Class :: cls != Space && cls != CommentChar ==> j >= |u| || !In(cls, u[j])
    ensures Ch(u, j) != 'e' && Ch(u, j) != 'E' && Ch(u, j) != '+' && Ch(u, j) != '-' && Ch(u, j) != '#' && Ch(u, j) != '"' && Ch(u, j) != '\\'
    ensures Ch(u, j) != '=' && Ch(u, j) != '>' && Ch(u, j) != '*'
    ensures !(Ch(u, j) == '.' && IsDigit(Ch(u, j + 1)))
  {
  }

  lemma {:induction false} RunSame(cls: Class, s: string, i: nat, u: string, j: nat, n: nat)
    requires Window(s, i, u, j, n) && End(cls, s, i) <= i + n && cls != Space && cls != CommentChar && Apart(u, j + n)
    ensures End(cls, u, j) + i == End(cls, s, i) + j
  {
    hide Apart, In;
    ApartStops(u, j + n);
    EndSame(cls, s, i, u, j, n);
  }

  lemma {:induction false} ExponentSame(s: string, i: nat, u: string, j: nat, n: nat)
    requires Window(s, i, u, j, n) && ExponentEnd(s, i) == i + n && Apart(u, j + n)
    ensures ExponentEnd(u, j) == j + n
  {
    hide Apart, In, End;
    ApartStops(u, j + n);
    if n > 0 {
      var k := if Ch(s, i + 1) == '+' || Ch(s, i + 1) == '-' then 2 else 1;
      RunSame(Digit, s, i + k, u, j + k, n - k);
    }
  }

  lemma {:induction false} BasedSame(s: string, d: nat, u: string, e: nat, n: nat)
    requires Window(s, d, u, e, n) && d <= |s| && Ch(s, d) == '#' && NumberEnd(s, d).1 == d + n && Apart(u, e + n)
    ensures NumberEnd(u, e) == (BASEDLIT, e + n)
  {
    hide Apart, In, End, ExponentEnd;
    ApartStops(u, e + n);
    RunSame(BasedChar, s, d + 1, u, e + 1, n - 1);
    var m := HashEnd(s, End(BasedChar, s, d + 1)) - d;
    ExponentSame(s, d + m, u, e + m, n - m);
  }

  lemma {:induction false} RealSame(s: string, d: nat, u: string, e: nat, n: nat)
    requires Window(s, d, u, e, n) && Ch(s, d) == '.' && IsDigit(Ch(s, d + 1)) && NumberEnd(s, d).1 == d + n && Apart(u, e + n)
    ensures NumberEnd(u, e) == (REAL, e + n)
  {
    hide Apart, In, ExponentEnd;
    DigitRuns(s, d + 1);
    RunSame(DigitChar, s, d + 1, u, e + 1, n - 1);
    var m := End(DigitChar, s, d + 1) - d;
    ExponentSame(s, d + m, u, e + m, n - m);
  }

  lemma {:induction false} DigitRuns(s: string, i: nat)
    requires IsDigit(Ch(s, i))
    ensures End(DigitChar, s, i) > i
  {
  }

  lemma {:induction false} NumberEndSame(s: string, d: nat, u: string, e: nat, n: nat)
    requires Window(s, d, u, e, n) && d <= |s| && NumberEnd(s, d).1 == d + n && Apart(u, e + n)
    ensures NumberEnd(u, e) == (NumberEnd(s, d).0, e + n)
  {
    hide Apart, In, End, ExponentEnd;
    ApartStops(u, e + n);
    if Ch(s, d) == '#' {
      BasedSame(s, d, u, e, n);
    } else if Ch(s, d) == '.' && IsDigit(Ch(s, d + 1)) {
      RealSame(s, d, u, e, n);
    } else if Ch(s, d) == 'e' || Ch(s, d) == 'E' {
      ExponentSame(s, d, u, e, n);
      ExponentMoves(s, d);
    }
  }

  lemma {:induction false} ExponentMoves(s: string, i: nat)
    requires Ch(s, i) == 'e' || Ch(s, i) == 'E'
    ensures ExponentEnd(s, i) > i
  {
    hide End;
  }

  lemma {:induction false} NumberSame(s: string, i: nat, u: string, j: nat, n: nat)
    requires i < |s| && IsDigit(s[i]) && Window(s, i, u, j, n) && NumberAt(s, i).end == i + n && Apart(u, j + n)
    ensures IsDigit(u[j]) && NumberAt(u, j) == Lexed(NumberAt(s, i).tok, j + n)
  {
    hide Apart, End, NumberEnd;
    RunSame(DigitChar, s, i + 1, u, j + 1, n - 1);
    var d := End(DigitChar, s, i + 1);
    NumberEndSame(s, d, u, d + j - i, n - (d - i));
    SameSlice(s, i, u, j, n);
  }

  lemma {:induction false} BitStringSame(s: string, i: nat, u: string, j: nat, n: nat)
    requires i < |s| && IsLetter(s[i]) && Window(s, i, u, j, n) && IsBitString(s, i) && QuoteEnd('"', s, i + 2) == i + n && Apart(u, j + n)
    requires IsShut('"', s, i + 2) || j + n == |u|
    ensures n >= 2 && IsBitString(u, j) && QuoteEnd('"', u, j + 2) == j + n
  {
    hide Apart, In, QuoteEnd, IsShut, End;
    ApartStops(u, j + n);
    QuoteNoWord(u, j + 1);
    QuoteSame('"', s, i + 2, u, j + 2, n - 2);
  }

  lemma {:induction false} PlainWordSame(s: string, i: nat, u: string, j: nat, n: nat)
    requires i < |s| && Window(s, i, u, j, n) && n > 0 && End(WordChar, s, i + 1) == i + n && Apart(u, j + n)
    ensures End(WordChar, u, j + 1) == j + n && (IsBitString(u, j) ==> IsBitString(s, i))
  {
    hide Apart, In, End;
    ApartStops(u, j + n);
    RunSame(WordChar, s, i + 1, u, j + 1, n - 1);
  }

  lemma {:induction false} WordSame(s: string, i: nat, u: string, j: nat, n: nat)
    requires i < |s| && IsLetter(s[i]) && Window(s, i, u, j, n) && WordAt(s, i).end == i + n && Apart(u, j + n)
    requires IsBitString(s, i) ==> IsShut('"', s, i + 2) || j + n == |u|
    ensures IsLetter(u[j]) && WordAt(u, j) == Lexed(WordAt(s, i).tok, j + n)
  {
    hide Apart, End, Keyword, Lower, QuoteEnd, IsShut, IsBitString, IsLetter;
    SameSlice(s, i, u, j, n);
    if IsBitString(s, i) { BitStringSame(s, i, u, j, n); } else { PlainWordSame(s, i, u, j, n); }
  }

  lemma {:induction false} QuoteNoWord(u: string, j: nat)
    requires Ch(u, j) == '"'
    ensures End(WordChar, u, j) == j
  {
  }

  lemma {:induction false} QuotedSame(q: char, k: Kind, s: string, i: nat, u: string, j: nat, n: nat)
    requires i < |s| && (q == '"' || q == '\\') && s[i] == q && Window(s, i, u, j, n) && QuoteEnd(q, s, i + 1) == i + n && Apart(u, j + n)
    requires IsShut(q, s, i + 1) || j + n == |u|
    ensures u[j] == q && Lexeme(k, u, j, QuoteEnd(q, u, j + 1)) == Lexed(Token(k, s[i..i + n]), j + n)
  {
    hide Apart, QuoteEnd, IsShut;
    ApartStops(u, j + n);
    SameSlice(s, i, u, j, n);
    QuoteSame(q, s, i + 1, u, j + 1, n - 1);
  }

  /** Signs, and characters that start no token. */
  lemma {:induction false} SignSame(s: string, i: nat, prev: Kind, u: string, j: nat, n: nat, prev': Kind)
    requires i < |s| && s[i] != '\'' && Window(s, i, u, j, n) && DelimiterAt(s, i, prev).end == i + n
    requires NeedsGap(DelimiterAt(s, i, prev).tok.kind) ==> Apart(u, j + n)
    ensures u[j] == s[i] && DelimiterAt(u, j, prev') == Lexed(DelimiterAt(s, i, prev).tok, j + n)
  {
    hide Apart;
    if Apart(u, j + n) { ApartStops(u, j + n); }
  }

  /** Ticks and character literals are told apart by the kind of the token before. */
  lemma {:induction false} TickSame(s: string, i: nat, prev: Kind, u: string, j: nat, n: nat, prev': Kind)
    requires i < |s| && s[i] == '\'' && Window(s, i, u, j, n) && DelimiterAt(s, i, prev).end == i + n
    requires if n == 1 then IsNameEnd(prev') || Ch(u, j + 2) != '\'' else !IsNameEnd(prev')
    ensures u[j] == '\'' && DelimiterAt(u, j, prev') == Lexed(DelimiterAt(s, i, prev).tok, j + n)
  {
  }

  predicate IsQuoted(k: Kind) { k == EXTIDENT || k == STRINGLIT || k == BITSTRINGLIT }

  function QuoteOf(k: Kind): (q: char)
    ensures q != '\0'
  {
    if k == EXTIDENT then '\\' else '"'
  }

  /** The characters up to the opening quote. */
  function QuoteOffset(k: Kind): nat { if k == BITSTRINGLIT then 2 else 1 }

  /** The quoted token of kind k at i has its closing quote. */
  predicate IsClosed(k: Kind, s: string, i: nat) { i + QuoteOffset(k) <= |s| && IsShut(QuoteOf(k), s, i + QuoteOffset(k)) }

  /** Whether the token can be read back from its own characters when it stands in front of e: a quoted token has its closing
      quote or ends the text, and a tick is not taken for a character literal. */
  predicate Legible(s: string, i: nat, r: Lexed, prev: Kind, u: string, e: nat) {
    && (IsQuoted(r.tok.kind) ==> IsClosed(r.tok.kind, s, i) || e == |u|)
    && (r.tok.kind == TICK ==> IsNameEnd(prev) || Ch(u, e + 1) != '\'')
    && (r.tok.kind == CHARLIT ==> !IsNameEnd(prev))
  }

  lemma {:induction false} TokenSame(s: string, i: nat, prev: Kind, u: string, j: nat, n: nat, prev': Kind)
    requires i < |s| && Window(s, i, u, j, n) && TokenAt(s, i, prev).end == i + n
    requires var r := TokenAt(s, i, prev); r.tok.kind != COMMENT && (NeedsGap(r.tok.kind) ==> Apart(u, j + n)) && Legible(s, i, r, prev', u, j + n)
    ensures j < |u| && TokenAt(u, j, prev') == Lexed(TokenAt(s, i, prev).tok, j + n)
  {
    hide *;
    if s[i] == '\\' || s[i] == '"' {
      QuotedTokenSame(s, i, prev, u, j, n, prev');
    } else if IsLetter(s[i]) {
      WordTokenSame(s, i, prev, u, j, n, prev');
    } else if IsDigit(s[i]) {
      NumberTokenSame(s, i, prev, u, j, n, prev');
    } else {
      OtherTokenSame(s, i, prev, u, j, n, prev');
    }
  }

  lemma {:induction false} QuotedTokenSame(s: string, i: nat, prev: Kind, u: string, j: nat, n: nat, prev': Kind)
    requires i < |s| && Window(s, i, u, j, n) && TokenAt(s, i, prev).end == i + n && (s[i] == '\\' || s[i] == '"')
    requires var r := TokenAt(s, i, prev); (NeedsGap(r.tok.kind) ==> Apart(u, j + n)) && Legible(s, i, r, prev', u, j + n)
    ensures j < |u| && TokenAt(u, j, prev') == Lexed(TokenAt(s, i, prev).tok, j + n)
  {
    hide Apart, QuoteEnd, IsShut, NeedsGap;
    KindsNeedGap();
    if s[i] == '"' { QuotedSame('"', STRINGLIT, s, i, u, j, n); } else { QuotedSame('\\', EXTIDENT, s, i, u, j, n); }
  }

  lemma {:induction false} WordTokenSame(s: string, i: nat, prev: Kind, u: string, j: nat, n: nat, prev': Kind)
    requires i < |s| && Window(s, i, u, j, n) && TokenAt(s, i, prev).end == i + n && IsLetter(s[i])
    requires var r := TokenAt(s, i, prev); (NeedsGap(r.tok.kind) ==> Apart(u, j + n)) && Legible(s, i, r, prev', u, j + n)
    ensures j < |u| && TokenAt(u, j, prev') == Lexed(TokenAt(s, i, prev).tok, j + n)
  {
    hide Apart, WordAt, IsShut, NeedsGap, IsBitString;
    WordKinds(s, i);
    WordSame(s, i, u, j, n);
  }

  lemma {:induction false} NumberTokenSame(s: string, i: nat, prev: Kind, u: string, j: nat, n: nat, prev': Kind)
    requires i < |s| && Window(s, i, u, j, n) && TokenAt(s, i, prev).end == i + n && IsDigit(s[i])
    requires NeedsGap(TokenAt(s, i, prev).tok.kind) ==> Apart(u, j + n)
    ensures j < |u| && TokenAt(u, j, prev') == Lexed(TokenAt(s, i, prev).tok, j + n)
  {
    hide Apart, NumberAt, NeedsGap;
    NumberKinds(s, i);
    NumberSame(s, i, u, j, n);
  }

  lemma {:induction false} OtherTokenSame(s: string, i: nat, prev: Kind, u: string, j: nat, n: nat, prev': Kind)
    requires i < |s| && Window(s, i, u, j, n) && TokenAt(s, i, prev).end == i + n
    requires s[i] != '\\' && s[i] != '"' && !IsLetter(s[i]) && !IsDigit(s[i])
    requires var r := TokenAt(s, i, prev); r.tok.kind != COMMENT && (NeedsGap(r.tok.kind) ==> Apart(u, j + n)) && Legible(s, i, r, prev', u, j + n)
    ensures j < |u| && TokenAt(u, j, prev') == Lexed(TokenAt(s, i, prev).tok, j + n)
  {
    hide Apart, DelimiterAt, NeedsGap;
    if s[i] == '\'' {
      TickKinds(s, i, prev);
      TickSame(s, i, prev, u, j, n, prev');
    } else {
      SignSame(s, i, prev, u, j, n, prev');
      MinusApart(s, i, prev, u, j, n);
    }
  }

  lemma {:induction false} KindsNeedGap()
    ensures NeedsGap(EXTIDENT) && NeedsGap(STRINGLIT)
  {
  }

  lemma {:induction false} WordKinds(s: string, i: nat)
    requires i < |s| && IsLetter(s[i])
    ensures var k := WordAt(s, i).tok.kind; NeedsGap(k) && (k == BITSTRINGLIT <==> IsBitString(s, i)) && k != EXTIDENT && k != STRINGLIT && k != TICK && k != CHARLIT
  {
    hide End, QuoteEnd, Lower;
    KeywordKinds(Lower(s[i..End(WordChar, s, i + 1)]));
  }

  lemma {:induction false} KeywordKinds(w: string)
    ensures Keyword(w).Some? ==> IsKeyword(Keyword(w).value)
  {
  }

  lemma {:induction false} NumberKinds(s: string, i: nat)
    requires i < |s| && IsDigit(s[i])
    ensures IsNumber(NumberAt(s, i).tok.kind) && NeedsGap(NumberAt(s, i).tok.kind)
  {
    hide End, ExponentEnd, HashEnd;
  }

  lemma {:induction false} TickKinds(s: string, i: nat, prev: Kind)
    requires i < |s| && s[i] == '\''
    ensures var r := DelimiterAt(s, i, prev); if r.end == i + 1 then r.tok.kind == TICK else r.tok.kind == CHARLIT
  {
  }

  /** A minus sign is not followed by another. */
  lemma {:induction false} MinusApart(s: string, i: nat, prev: Kind, u: string, j: nat, n: nat)
    requires i < |s| && Window(s, i, u, j, n) && DelimiterAt(s, i, prev).end == i + n
    requires NeedsGap(DelimiterAt(s, i, prev).tok.kind) ==> Apart(u, j + n)
    ensures s[i] == '-' ==> Ch(u, j + 1) != '-'
  {
  }

  // ==== tools/socgen/vhdl: lexing a printed text, and when it gives back the tokens that were printed.

  /** What newParser collects: the tokens from i on, without comments. */
  function Lex(s: string, i: nat, prev: Kind): Stream
    requires i <= |s|
    decreases |s| - i
  {
    var j := End(Space, s, i);
    if j == |s| then Done
    else
      var r := TokenAt(s, j, prev);
      if r.tok.kind == COMMENT then Lex(s, r.end, COMMENT) else More(r.tok, Lex(s, r.end, r.tok.kind))
  }

  function Spelling(t: Token): string { if IsDelimiter(t.kind) then SymbolOf(t.kind) else t.lit }

  function Render(t: Text): string {
    match t
    case Empty => ""
    case T(tok, more) => Spelling(tok) + Render(more)
    case W(space, more) => space + Render(more)
  }

  ghost predicate Reads(s: string, i: nat, prev: Kind, t: Token) { i < |s| && !IsSpace(s[i]) && TokenAt(s, i, prev).tok == t }

  /** Some text has the token. */
  ghost predicate IsLexeme(t: Token) {
    t.kind != COMMENT && exists s: string, i: nat, prev: Kind :: Reads(s, i, prev, t)
  }

  /** The text goes on with a character that ends any word, number or sign. */
  predicate Gap(t: Text) {
    match t
    case Empty => true
    case W(w, more) => if w == "" then Gap(more) else IsSpace(w[0])
    case T(tok, more) =>
      tok.kind == LPAREN || tok.kind == RPAREN || tok.kind == COMMA || tok.kind == SEMICOLON || tok.kind == TICK ||
      (tok.kind == DOT && more.T? && IsSegment(more.tok.kind))
  }

  /** Printed pieces are set apart where they have to be; prev is the kind of the token before. */
  predicate SetApart(t: Text, prev: Kind) {
    match t
    case Empty => true
    case W(w, more) => (forall c :: c in w ==> IsSpace(c)) && SetApart(more, prev)
    case T(tok, more) =>
      && (tok.kind == CHARLIT ==> !IsNameEnd(prev))
      && (tok.kind == ILLEGAL ==> |tok.lit| == 1)
      && (NeedsGap(tok.kind) ==> Gap(more))
      && SetApart(more, tok.kind)
  }

  /** Every token is one that some text has. */
  ghost predicate AllLexemes(t: Text) {
    match t
    case Empty => true
    case W(_, more) => AllLexemes(more)
    case T(tok, more) => IsLexeme(tok) && AllLexemes(more)
  }

  /** A token keeps its meaning in front of follow: a quoted token is closed or the last, a tick is not taken for a character
      literal, and a character literal is written in one byte. */
  predicate Keeps(tok: Token, follow: string, prev: Kind) {
    && (IsQuoted(tok.kind) ==> follow == "" || IsClosed(tok.kind, tok.lit, 0))
    && (tok.kind == TICK ==> IsNameEnd(prev) || Ch(follow, 1) != '\'')
    && (tok.kind == CHARLIT ==> |tok.lit| == 3)
  }

  predicate AllKeep(t: Text, prev: Kind) {
    match t
    case Empty => true
    case W(_, more) => AllKeep(more, prev)
    case T(tok, more) => Keeps(tok, Render(more), prev) && AllKeep(more, tok.kind)
  }

  // ---- A lexeme and its characters ----

  lemma {:induction false} ShutSlice(q: char, s: string, k: nat, i: nat, e: nat)
    requires q != '\0' && i <= k <= e <= |s| && QuoteEnd(q, s, k) == e
    ensures IsShut(q, s[i..e], k - i) == IsShut(q, s, k)
    ensures !IsShut(q, s, k) ==> e == |s|
    decreases e - k
  {
    if k < |s| {
      if s[k] == q && Ch(s, k + 1) == q { ShutSlice(q, s, k + 2, i, e); } else if s[k] != q { ShutSlice(q, s, k + 1, i, e); }
    }
  }

  /** A token is spelled with the characters it was read from, unless it is one character above 127. */
  lemma {:induction false} SpellingIs(s: string, i: nat, prev: Kind)
    requires i < |s|
    requires var t := TokenAt(s, i, prev).tok; t.kind != COMMENT && (t.kind == CHARLIT ==> |t.lit| == 3) && (t.kind == ILLEGAL ==> |t.lit| == 1)
    ensures var r := TokenAt(s, i, prev); Spelling(r.tok) == s[i..r.end]
  {
    hide WordAt, NumberAt, QuoteEnd, DelimiterAt;
    var c := s[i];
    if c == '\\' || c == '"' {
    } else if IsLetter(c) {
      WordKinds(s, i);
      WordText(s, i);
    } else if IsDigit(c) {
      NumberKinds(s, i);
      NumberText(s, i);
    } else {
      SignText(s, i, prev);
    }
  }

  lemma {:induction false} WordText(s: string, i: nat)
    requires i < |s| && IsLetter(s[i])
    ensures var r := WordAt(s, i); r.tok.lit == s[i..r.end] && !IsDelimiter(r.tok.kind)
  {
    hide End, QuoteEnd, Lower, Keyword;
  }

  lemma {:induction false} NumberText(s: string, i: nat)
    requires i < |s| && IsDigit(s[i])
    ensures var r := NumberAt(s, i); r.tok.lit == s[i..r.end]
  {
    hide End, NumberEnd;
  }

  lemma {:induction false} SingleSpelled(c: char)
    requires Single(c).Some?
    ensures SymbolOf(Single(c).value) == [c] && IsDelimiter(Single(c).value)
  {
  }

  lemma {:induction false} PairSpelled(c: char, d: char)
    requires Pair(c, d).Some?
    ensures SymbolOf(Pair(c, d).value) == [c, d] && IsDelimiter(Pair(c, d).value)
  {
  }

  lemma {:induction false} SignText(s: string, i: nat, prev: Kind)
    requires i < |s|
    requires var t := DelimiterAt(s, i, prev).tok; (t.kind == CHARLIT ==> |t.lit| == 3) && (t.kind == ILLEGAL ==> |t.lit| == 1)
    ensures var r := DelimiterAt(s, i, prev); Spelling(r.tok) == s[i..r.end]
  {
    hide Single, Pair, IsDelimiter, SymbolOf;
    TickSpelled();
    var r := DelimiterAt(s, i, prev);
    var c, d := s[i], Ch(s, i + 1);
    if c == '\'' {
      if r.end == i + 1 { assert s[i..i + 1] == ['\'']; } else { assert s[i..i + 3] == ['\'', s[i + 1], '\'']; }
    } else if Pair(c, d).Some? {
      PairSpelled(c, d);
      assert s[i..i + 2] == [c, d];
    } else {
      if Single(c).Some? { SingleSpelled(c); }
      assert s[i..i + 1] == [c];
    }
  }

  lemma {:induction false} TickSpelled()
    ensures SymbolOf(TICK) == ['\''] && IsDelimiter(TICK) && !IsDelimiter(CHARLIT) && !IsDelimiter(ILLEGAL)
  {
  }

  /** Legibility where the token was read first and where it stands now, in front of follow. */
  lemma {:induction false} KeepsLegible(s: string, i: nat, prev: Kind, u: string, e: nat, follow: string, prev': Kind)
    requires i < |s| && e <= |u| && (follow == "" ==> e == |u|) && Ch(follow, 1) == Ch(u, e + 1)
    requires var r := TokenAt(s, i, prev); (r.tok.kind == CHARLIT ==> !IsNameEnd(prev')) && Keeps(r.tok, follow, prev')
    ensures Legible(s, i, TokenAt(s, i, prev), prev', u, e)
  {
    hide TokenAt, IsClosed, Ch;
    if IsQuoted(TokenAt(s, i, prev).tok.kind) { QuotedStart(s, i, prev); }
  }

  /** How a quoted token was read. */
  lemma {:induction false} QuotedStart(s: string, i: nat, prev: Kind)
    requires i < |s| && IsQuoted(TokenAt(s, i, prev).tok.kind)
    ensures var r := TokenAt(s, i, prev);
            var k := r.tok.kind;
            && i + QuoteOffset(k) <= |s| && QuoteEnd(QuoteOf(k), s, i + QuoteOffset(k)) == r.end
            && IsClosed(k, r.tok.lit, NO_ERRORS) == IsClosed(k, s, i)
            && (if k == BITSTRINGLIT then IsLetter(s[i]) && IsBitString(s, i) else s[i] == QuoteOf(k))
  {
    hide NumberAt, DelimiterAt, QuoteEnd, WordAt, IsBitString, IsClosed;
    var c := s[i];
    if c == '\\' || c == '"' {
      ClosedSlice(if c == '"' then STRINGLIT else EXTIDENT, s, i, QuoteEnd(c, s, i + 1));
    } else if IsLetter(c) {
      WordKinds(s, i);
      BitStringStart(s, i);
      if IsBitString(s, i) { ClosedSlice(BITSTRINGLIT, s, i, QuoteEnd('"', s, i + 2)); }
    } else if IsDigit(c) {
      NumberKinds(s, i);
    } else {
      SignKinds(s, i, prev);
    }
  }

  lemma {:induction false} ClosedSlice(k: Kind, s: string, i: nat, e: nat)
    requires i + QuoteOffset(k) <= e <= |s| && QuoteEnd(QuoteOf(k), s, i + QuoteOffset(k)) == e
    ensures IsClosed(k, s[i..e], NO_ERRORS) == IsClosed(k, s, i)
  {
    hide QuoteEnd, IsShut;
    ShutSlice(QuoteOf(k), s, i + QuoteOffset(k), i, e);
  }

  lemma {:induction false} BitStringStart(s: string, i: nat)
    requires i < |s| && IsLetter(s[i])
    ensures IsBitString(s, i) ==> i + 2 <= |s| && WordAt(s, i) == Lexeme(BITSTRINGLIT, s, i, QuoteEnd('"', s, i + 2))
  {
    hide QuoteEnd;
  }

  lemma {:induction false} SignKinds(s: string, i: nat, prev: Kind)
    requires i < |s|
    ensures var k := DelimiterAt(s, i, prev).tok.kind; IsDelimiter(k) || k == CHARLIT || k == ILLEGAL
  {
  }

  // ---- Lexing a printed text ----

  lemma {:induction false} GapApart(t: Text, pre: string, prev: Kind)
    requires Gap(t) && SetApart(t, prev) && AllLexemes(t)
    ensures Apart(pre + Render(t), |pre|)
    decreases t
  {
    hide IsLexeme, NeedsGap, Spelling, SymbolOf;
    var s := pre + Render(t);
    match t
    case Empty =>
    case W(w, more) =>
      if w == "" { assert s == pre + Render(more); GapApart(more, pre, prev); } else { assert s[|pre|] == w[0]; }
    case T(tok, more) =>
      GapToken(tok);
      assert s[|pre|] == Spelling(tok)[0];
      if tok.kind == DOT {
        SegmentSpelled(more.tok);
        assert s == pre + "." + Render(more);
        assert s[|pre| + 1] == Render(more)[0] == Spelling(more.tok)[0];
      }
  }

  lemma {:induction false} GapToken(t: Token)
    ensures t.kind == LPAREN ==> Spelling(t) == "("
    ensures t.kind == RPAREN ==> Spelling(t) == ")"
    ensures t.kind == COMMA ==> Spelling(t) == ","
    ensures t.kind == SEMICOLON ==> Spelling(t) == ";"
    ensures t.kind == TICK ==> Spelling(t) == "'"
    ensures t.kind == DOT ==> Spelling(t) == "."
  {
  }

  /** A segment of a dotted name starts with a letter or a backslash. */
  lemma {:induction false} SegmentSpelled(t: Token)
    requires IsLexeme(t) && IsSegment(t.kind)
    ensures |Spelling(t)| > 0 && !IsDigit(Spelling(t)[0])
  {
    hide TokenAt, Spelling;
    var s: string, i: nat, p: Kind :| Reads(s, i, p, t);
    SpellingIs(s, i, p);
    SegmentStart(s, i, p);
  }

  lemma {:induction false} SegmentStart(s: string, i: nat, prev: Kind)
    requires i < |s| && IsSegment(TokenAt(s, i, prev).tok.kind)
    ensures !IsDigit(s[i])
  {
    hide WordAt, NumberAt, DelimiterAt, QuoteEnd;
    if IsDigit(s[i]) { NumberKinds(s, i); }
  }

  /** White space in front does not matter. */
  lemma {:induction false} LexSkips(s: string, i: nat, n: nat, prev: Kind)
    requires i + n <= |s| && forall k :: i <= k < i + n ==> IsSpace(s[k])
    ensures Lex(s, i, prev) == Lex(s, i + n, prev)
  {
    hide TokenAt;
    EndSkips(s, i, n);
  }

  lemma {:induction false} EndSkips(s: string, i: nat, n: nat)
    requires i + n <= |s| && forall k :: i <= k < i + n ==> IsSpace(s[k])
    ensures End(Space, s, i) == End(Space, s, i + n)
    decreases n
  {
    if n > 0 { EndSkips(s, i + 1, n - 1); }
  }

  /** One piece: the token at its place in the whole text is the token, exactly when it keeps its meaning. */
  lemma {:induction false} TokenInText(tok: Token, more: Text, pre: string, prev: Kind)
    requires SetApart(T(tok, more), prev) && AllLexemes(T(tok, more))
    ensures var u := pre + Spelling(tok) + Render(more);
            var e := |pre| + |Spelling(tok)|;
            if Keeps(tok, Render(more), prev) then Lex(u, |pre|, prev) == More(tok, Lex(u, e, tok.kind))
            else Lex(u, |pre|, prev).More? && Lex(u, |pre|, prev).head != tok
  {
    hide Lex, TokenAt, NeedsGap, Gap, Spelling, Keeps, Render;
    var s: string, i: nat, p: Kind :| Reads(s, i, p, tok);
    if NeedsGap(tok.kind) { GapApart(more, pre + Spelling(tok), tok.kind); }
    if Keeps(tok, Render(more), prev) { Kept(s, i, p, tok, pre, Render(more), prev); } else { Misread(s, i, p, tok, pre, Render(more), prev); }
  }

  lemma {:induction false} Kept(s: string, i: nat, p: Kind, tok: Token, pre: string, follow: string, prev: Kind)
    requires Reads(s, i, p, tok) && tok.kind != COMMENT && Keeps(tok, follow, prev)
    requires (tok.kind == CHARLIT ==> !IsNameEnd(prev)) && (tok.kind == ILLEGAL ==> |tok.lit| == 1)
    requires NeedsGap(tok.kind) ==> Apart(pre + Spelling(tok) + follow, |pre| + |Spelling(tok)|)
    ensures var u := pre + Spelling(tok) + follow;
            var e := |pre| + |Spelling(tok)|;
            Lex(u, |pre|, prev) == More(tok, Lex(u, e, tok.kind))
  {
    hide TokenAt, NeedsGap, Spelling, Apart, Legible, Lex, Keeps, IsQuoted, IsNameEnd, Window, IsSpace;
    var u := pre + Spelling(tok) + follow;
    var r := TokenAt(s, i, p);
    var n := r.end - i;
    KeepsAscii(tok, follow, prev);
    SpellingIs(s, i, p);
    FollowAt(pre + Spelling(tok), follow);
    KeepsLegible(s, i, p, u, |pre| + n, follow, prev);
    PlacedWindow(s, i, n, pre, follow);
    TokenSame(s, i, p, u, |pre|, n, prev);
    LexHere(u, |pre|, prev);
  }

  lemma {:induction false} FollowAt(before: string, follow: string)
    ensures Ch(before + follow, |before| + 1) == Ch(follow, 1)
  {
  }

  lemma {:induction false} KeepsAscii(tok: Token, follow: string, prev: Kind)
    requires Keeps(tok, follow, prev)
    ensures tok.kind == CHARLIT ==> |tok.lit| == 3
  {
  }

  lemma {:induction false} PlacedWindow(s: string, i: nat, n: nat, pre: string, follow: string)
    requires i + n <= |s|
    ensures Window(s, i, pre + s[i..i + n] + follow, |pre|, n)
  {
  }

  /** The first token read from a place without white space. */
  lemma {:induction false} LexHere(u: string, j: nat, prev: Kind)
    requires j < |u| && !IsSpace(u[j]) && TokenAt(u, j, prev).tok.kind != COMMENT
    ensures var r := TokenAt(u, j, prev); Lex(u, j, prev) == More(r.tok, Lex(u, r.end, r.tok.kind))
  {
    hide TokenAt;
    assert End(Space, u, j) == j;
  }

  lemma {:induction false} Misread(s: string, i: nat, p: Kind, tok: Token, pre: string, follow: string, prev: Kind)
    requires Reads(s, i, p, tok) && !Keeps(tok, follow, prev) && (tok.kind == CHARLIT ==> !IsNameEnd(prev))
    ensures var ts := Lex(pre + Spelling(tok) + follow, |pre|, prev); ts.More? && ts.head != tok
  {
    hide Lex, TokenAt, Spelling, Keeps, IsShut;
    var u := pre + Spelling(tok) + follow;
    NotKept(tok, follow, prev);
    if tok.kind == TICK {
      TickMisread(tok, pre, follow, prev);
    } else if tok.kind == CHARLIT {
      CharMisread(s, i, p, tok, pre, follow, prev);
    } else {
      QuotedMisread(s, i, p, tok, pre, follow, prev);
    }
  }

  lemma {:induction false} NotKept(tok: Token, follow: string, prev: Kind)
    requires !Keeps(tok, follow, prev)
    ensures tok.kind == EXTIDENT || tok.kind == STRINGLIT || tok.kind == BITSTRINGLIT || tok.kind == TICK || tok.kind == CHARLIT
    ensures tok.kind == TICK ==> !IsNameEnd(prev) && Ch(follow, 1) == '\''
    ensures tok.kind == CHARLIT ==> |tok.lit| != 3
    ensures tok.kind != TICK && tok.kind != CHARLIT ==> follow != ""
    ensures IsQuoted(tok.kind) ==> !IsClosed(tok.kind, tok.lit, NO_ERRORS)
  {
    hide IsClosed;
  }

  lemma {:induction false} TickMisread(tok: Token, pre: string, follow: string, prev: Kind)
    requires tok.kind == TICK && !IsNameEnd(prev) && Ch(follow, 1) == '\''
    ensures var ts := Lex(pre + Spelling(tok) + follow, |pre|, prev); ts.More? && ts.head.kind == CHARLIT
  {
    hide Lex, SymbolOf, IsDelimiter;
    TickSpelled();
    var u := pre + Spelling(tok) + follow;
    assert u[|pre|] == '\'' && u[|pre| + 2] == follow[1];
    TickIsChar(u, |pre|, prev);
  }

  lemma {:induction false} TickIsChar(u: string, j: nat, prev: Kind)
    requires j < |u| && u[j] == '\'' && !IsNameEnd(prev) && Ch(u, j + 2) == '\''
    ensures var ts := Lex(u, j, prev); ts.More? && ts.head.kind == CHARLIT
  {
    hide Lex;
    LexHere(u, j, prev);
  }

  lemma {:induction false} CharMisread(s: string, i: nat, p: Kind, tok: Token, pre: string, follow: string, prev: Kind)
    requires Reads(s, i, p, tok) && tok.kind == CHARLIT && |tok.lit| != 3 && !IsNameEnd(prev)
    ensures var ts := Lex(pre + Spelling(tok) + follow, |pre|, prev); ts.More? && ts.head.kind == TICK
  {
    hide Lex, Utf8;
    CharStart(s, i, p);
    TickSpelled();
    var u := pre + Spelling(tok) + follow;
    assert u[|pre|] == '\'' && u[|pre| + 2] == tok.lit[2];
    SecondByte(s[i + 1]);
    LexHere(u, |pre|, prev);
  }

  lemma {:induction false} CharStart(s: string, i: nat, prev: Kind)
    requires i < |s| && TokenAt(s, i, prev).tok.kind == CHARLIT
    ensures i + 2 < |s| && TokenAt(s, i, prev).tok.lit == "'" + Utf8(s[i + 1]) + "'"
  {
    hide WordAt, NumberAt, QuoteEnd, Utf8;
    if IsLetter(s[i]) { WordKinds(s, i); }
    if IsDigit(s[i]) { NumberKinds(s, i); }
    CharSign(s, i, prev);
  }

  lemma {:induction false} CharSign(s: string, i: nat, prev: Kind)
    requires i < |s| && DelimiterAt(s, i, prev).tok.kind == CHARLIT
    ensures i + 2 < |s| && DelimiterAt(s, i, prev).tok.lit == "'" + Utf8(s[i + 1]) + "'"
  {
    hide Utf8;
  }

  lemma {:induction false} SecondByte(c: char)
    ensures |Utf8(c)| == 2 ==> Utf8(c)[1] != '\''
  {
  }

  lemma {:induction false} QuotedMisread(s: string, i: nat, p: Kind, tok: Token, pre: string, follow: string, prev: Kind)
    requires Reads(s, i, p, tok) && IsQuoted(tok.kind) && !IsClosed(tok.kind, tok.lit, NO_ERRORS) && follow != ""
    ensures var ts := Lex(pre + Spelling(tok) + follow, |pre|, prev); ts.More? && ts.head != tok
  {
    hide Lex, TokenAt, SymbolOf, QuoteEnd, IsClosed, IsBitString, IsLetter, QuoteOf, QuoteOffset;
    SpellingIs(s, i, p);
    QuotedStart(s, i, p);
    var n := TokenAt(s, i, p).end - i;
    var u := pre + Spelling(tok) + follow;
    PlacedWindow(s, i, n, pre, follow);
    assert |u| > |pre| + n && u[|pre|] == s[i];
    QuotedRunsOn(tok.kind, s, i, u, |pre|, n, prev);
    LexHere(u, |pre|, prev);
    SpellingIs(u, |pre|, prev);
    assert |Spelling(tok)| == n;
  }

  /** An open quoted token reads on into what follows. */
  lemma {:induction false} QuotedRunsOn(k: Kind, s: string, i: nat, u: string, j: nat, n: nat, prev: Kind)
    requires IsQuoted(k) && i < |s| && (if k == BITSTRINGLIT then IsLetter(s[i]) && IsBitString(s, i) else s[i] == QuoteOf(k))
    requires Window(s, i, u, j, n) && j + n < |u|
    requires i + QuoteOffset(k) <= |s| && QuoteEnd(QuoteOf(k), s, i + QuoteOffset(k)) == i + n && !IsClosed(k, s, i)
    ensures var r := TokenAt(u, j, prev); r.end > j + n && r.tok.kind == k
  {
    hide QuoteEnd, IsShut, End, WordAt;
    QuoteRunsOn(QuoteOf(k), s, i + QuoteOffset(k), u, j + QuoteOffset(k), n - QuoteOffset(k));
    if k == BITSTRINGLIT {
      QuoteNoWord(u, j + 1);
      BitStringStart(u, j);
    }
  }

  /** A printed text whose pieces are set apart lexes to its tokens exactly when every token keeps its meaning. */
  lemma {:induction false} LexText(t: Text, pre: string, prev: Kind)
    requires SetApart(t, prev) && AllLexemes(t)
    ensures Lex(pre + Render(t), |pre|, prev) == Tokens(t) <==> AllKeep(t, prev)
    decreases t
  {
    hide IsLexeme, NeedsGap, Gap, Keeps, Lex, Spelling;
    var u := pre + Render(t);
    match t
    case Empty => LexEnd(u, prev);
    case W(w, more) =>
      LexSkips(u, |pre|, |w|, prev);
      assert pre + w + Render(more) == u;
      LexText(more, pre + w, prev);
    case T(tok, more) =>
      TokenInText(tok, more, pre, prev);
      assert pre + Spelling(tok) + Render(more) == u;
      LexText(more, pre + Spelling(tok), tok.kind);
  }

  lemma {:induction false} LexEnd(u: string, prev: Kind)
    ensures Lex(u, |u|, prev) == Done
  {
  }
}
