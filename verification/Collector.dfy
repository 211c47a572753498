// tools/coremark-collector/result.go and main.go: reading the record back from the serial line.

module Collector {
  import opened Common
  import opened Decimal
  import opened Strings
  import opened UartReport

  // ---- Numbers, as strconv.ParseUint reads them for 32 bits ----

  datatype Result<T> = Ok(value: T) | Err(error: ParseError)

  datatype ParseError = Missing(key: string) | BadValue(key: string) | ZeroCycles

  datatype Number = NotANumber | Is(n: nat)

  function DigitValue(c: char): nat {
    if '0' <= c <= '9' then c as int - '0' as int
    else if 'a' <= c <= 'z' then c as int - 'a' as int + 10
    else if 'A' <= c <= 'Z' then c as int - 'A' as int + 10
    else 99
  }

  function Read(s: string, base: nat): Number {
    if s == "" then Is(0)
    else
      var front, d := Read(s[..|s| - 1], base), DigitValue(s[|s| - 1]);
      if front.Is? && d < base then Is(front.n * base + d) else NotANumber
  }

  function InWord(n: Number): Number { if n.Is? && n.n < WORD then n else NotANumber }

  function ParseDecimal(s: string): Number { if s == "" then NotANumber else InWord(Read(s, 10)) }

  function BaseOf(s: string): nat {
    if s == "" || s[0] != '0' then 10
    else if |s| >= 3 && (s[1] == 'b' || s[1] == 'B') then 2
    else if |s| >= 3 && (s[1] == 'x' || s[1] == 'X') then 16
    else 8
  }

  /** The text after the base prefix. */
  function Body(s: string): string {
    if s == "" || s[0] != '0' then s
    else if |s| >= 3 && (s[1] == 'b' || s[1] == 'B' || s[1] == 'o' || s[1] == 'O' || s[1] == 'x' || s[1] == 'X') then s[2..]
    else s[1..]
  }

  function Without(s: string, x: char): string {
    if s == "" then "" else Without(s[..|s| - 1], x) + if s[|s| - 1] == x then "" else [s[|s| - 1]]
  }

  /** An underscore stands only between digits, or between the prefix and a digit. */
  predicate UnderscoresApart(body: string, prefixed: bool) {
    forall i :: 0 <= i < |body| && body[i] == '_' ==>
      (if i == 0 then prefixed else body[i - 1] != '_') && i + 1 < |body| && body[i + 1] != '_'
  }

  function ParseAnyBase(s: string): Number {
    if s == "" || !UnderscoresApart(Body(s), Body(s) != s) then NotANumber else InWord(Read(Without(Body(s), '_'), BaseOf(s)))
  }

  lemma {:induction false} ReadDec(n: nat)
    ensures Read(Dec(n), 10) == Is(n)
  {
    var s := Dec(n);
    if n >= 10 {
      ReadDec(n / 10);
      assert s[..|s| - 1] == Dec(n / 10);
    } else {
      assert s[..0] == "" && Read("", 10) == Is(0);
    }
  }

  lemma {:induction false} ReadHex(v: nat, n: nat)
    ensures Read(Hex(v, n), 16) == Is(v % Pow16(n))
  {
    if n > 0 {
      hide DigitValue, HexDigit;
      ReadHex(v / 16, n - 1);
      ReadMore(Hex(v / 16, n - 1), HexDigit(v % 16), v / 16 % Pow16(n - 1), v % 16) by { HexDigitValue(v % 16); }
      ModStep(v, Pow16(n - 1));
    }
  }

  lemma {:induction false} HexDigitValue(d: nat)
    requires d < 16
    ensures DigitValue(HexDigit(d)) == d
  {
  }

  lemma {:induction false} ReadMore(s: string, c: char, n: nat, d: nat)
    requires Read(s, 16) == Is(n) && DigitValue(c) == d && d < 16
    ensures Read(s + [c], 16) == Is(n * 16 + d)
  {
    assert (s + [c])[..|s|] == s;
  }

  lemma {:induction false} ModStep(v: nat, p: nat)
    requires p >= 1
    ensures (v / 16) % p * 16 + v % 16 == v % (16 * p)
  {
    var a := v / 16;
    var q := a / p;
    assert a == p * q + a % p;
    var rest := a % p * 16 + v % 16;
    assert v == (16 * p) * q + rest;
    assert rest < 16 * p;
    DivUnique(v, 16 * p, q, rest);
  }

  lemma {:induction false} WithoutNone(s: string, x: char)
    requires x !in s
    ensures Without(s, x) == s
  {
    if s != "" {
      var n := |s| - 1;
      WithoutNone(s[..n], x);
      assert s[n] in s;
      assert s == s[..n] + [s[n]];
    }
  }

  lemma {:induction false} Prefixed(p: string, h: string)
    requires |p| == 2 && p[0] == '0' && p[1] == 'x' && h != "" && '_' !in h
    ensures ParseAnyBase(p + h) == InWord(Read(h, 16))
  {
    hide Read, Without;
    assert (p + h)[2..] == h;
    assert forall i :: 0 <= i < |h| ==> h[i] in h;
    WithoutNone(h, '_');
  }

  lemma {:induction false} HexReads(v: nat)
    requires v < WORD
    ensures ParseAnyBase(HexText(v)) == Is(v)
  {
    hide Read, ParseAnyBase, Hex;
    Prefixed("0x", Hex(v, 8));
    ReadHex(v, 8);
    assert Pow16(4) == 65536;
    assert Pow16(8) == WORD;
  }

  // ---- Which texts are numbers ----

  /** The character is the digit d: 0 to 9, and from 10 on the letters, in either case. */
  predicate IsDigitOf(c: char, d: nat) {
    if d < 10 then c as int == '0' as int + d else d < 36 && (c as int == 'a' as int + d - 10 || c as int == 'A' as int + d - 10)
  }

  /** The text is the number n in the base. */
  predicate Numeral(s: string, base: nat, n: nat)
    requires base >= 2
  {
    if s == "" then n == 0 else Numeral(s[..|s| - 1], base, n / base) && IsDigitOf(s[|s| - 1], n % base)
  }

  lemma {:induction false} DigitExactly(c: char, d: nat)
    ensures IsDigitOf(c, d) <==> d < 36 && DigitValue(c) == d
  {
  }

  lemma {:induction false} ReadExactly(s: string, base: nat, n: nat)
    requires 2 <= base <= 36
    ensures Read(s, base) == Is(n) <==> Numeral(s, base, n)
  {
    hide DigitValue, IsDigitOf;
    if s != "" {
      var front, c := s[..|s| - 1], s[|s| - 1];
      var q, r := n / base, n % base;
      assert n == q * base + r;
      ReadExactly(front, base, q);
      DigitExactly(c, r);
      var v := Read(front, base);
      if v.Is? && DigitValue(c) < base {
        Quotient(v.n, base, DigitValue(c));
        assert Read(s, base) == Is(v.n * base + DigitValue(c));
      }
    }
  }

  lemma {:induction false} Quotient(q: nat, base: nat, d: nat)
    requires base >= 2 && d < base
    ensures (q * base + d) / base == q && (q * base + d) % base == d
  {
    DivUnique(q * base + d, base, q, d);
  }

  /** An underscore stands behind the prefix or a digit, and in front of a digit. */
  predicate SetApart(body: string, prefixed: bool) {
    forall i :: 0 <= i < |body| && body[i] == '_' ==>
      (if i > 0 then body[i - 1] != '_' else prefixed) && (i + 1 < |body| ==> body[i + 1] != '_') && i != |body| - 1
  }

  /** parseDecimal's texts: decimal digits of a number below 2^32. */
  lemma {:induction false} DecimalExactly(s: string, n: nat)
    ensures ParseDecimal(s) == Is(n) <==> s != "" && Numeral(s, 10, n) && n < 0x1_0000_0000
  {
    hide Read, Numeral;
    ReadExactly(s, 10, n);
  }

  /** parseHex32's texts, with base 0: 0b, 0o and 0x in either case are base 2, 8 and 16, another 0 in front is base 8, and anything
      else base 10; underscores are left out. */
  lemma {:induction false} AnyBaseExactly(s: string, n: nat)
    requires s != ""
    ensures var (base, body) :=
              if s[0] != '0' then (10, s)
              else if |s| >= 3 && s[1] in {'b', 'B'} then (2, s[2..])
              else if |s| >= 3 && s[1] in {'o', 'O'} then (8, s[2..])
              else if |s| >= 3 && s[1] in {'x', 'X'} then (16, s[2..])
              else (8, s[1..]);
            ParseAnyBase(s) == Is(n) <==> SetApart(body, s[0] == '0') && Numeral(Without(body, '_'), base, n) && n < 0x1_0000_0000
  {
    hide Read, Numeral, Without, UnderscoresApart, SetApart;
    var body, base := Body(s), BaseOf(s);
    assert body != s <==> s[0] == '0';
    ReadExactly(Without(body, '_'), base, n);
    UnderscoresExactly(body, s[0] == '0');
  }

  lemma {:induction false} UnderscoresExactly(body: string, prefixed: bool)
    ensures UnderscoresApart(body, prefixed) <==> SetApart(body, prefixed)
  {
  }

  // ---- result.go ----

  datatype Field = NoField | Field(key: string, value: string)

  function FieldOf(line: string): Field {
    var t := TrimSpace(line);
    if !HasPrefix(t, "CMK ") then NoField
    else
      var rest := t[4..];
      var i := FirstAt(rest, '=');
      if i == |rest| then NoField else Field(rest[..i], rest[i + 1..])
  }

  /** The value of the last line with the key. */
  function LastField(lines: seq<string>, key: string): Field {
    if lines == [] then NoField
    else
      var f := FieldOf(lines[|lines| - 1]);
      if f.Field? && f.key == key then f else LastField(lines[..|lines| - 1], key)
  }

  function Word(f: Field, key: string, parse: string -> Number): Result<nat> {
    if f.NoField? then Err(Missing(key))
    else if parse(f.value).Is? then Ok(parse(f.value).n)
    else Err(BadValue(key))
  }

  /** ParseRecord, by the last value of each key; the first failing key in the order of the record. */
  function Parsed(lines: seq<string>): Result<Record> {
    var magic := Word(LastField(lines, "MAGIC"), "MAGIC", ParseAnyBase);
    if magic.Err? then Err(magic.error) else
    var gitRev := Word(LastField(lines, "GITREV"), "GITREV", ParseAnyBase);
    if gitRev.Err? then Err(gitRev.error) else
    var crc := Word(LastField(lines, "CRC"), "CRC", ParseAnyBase);
    if crc.Err? then Err(crc.error) else
    var iterations := Word(LastField(lines, "ITERATIONS"), "ITERATIONS", ParseDecimal);
    if iterations.Err? then Err(iterations.error) else
    var cycles := Word(LastField(lines, "CYCLES"), "CYCLES", ParseDecimal);
    if cycles.Err? then Err(cycles.error) else
    var clkHz := Word(LastField(lines, "CLKHZ"), "CLKHZ", ParseDecimal);
    if clkHz.Err? then Err(clkHz.error) else
    if cycles.value == 0 then Err(ZeroCycles)
    else Ok(Record(magic.value, gitRev.value, crc.value % 0x1_0000, iterations.value, cycles.value, clkHz.value))
  }

  function Lookup(fields: map<string, string>, key: string): Field { if key in fields then Field(key, fields[key]) else NoField }

  method ParseRecord(lines: seq<string>) returns (r: Result<Record>)
    ensures r == Parsed(lines)
  {
    var fields: map<string, string> := map[];
    for i := 0 to |lines|
      invariant forall key :: Lookup(fields, key) == LastField(lines[..i], key)
    {
      assert lines[..i + 1][..i] == lines[..i];
      var f := FieldOf(lines[i]);
      if f.Field? { fields := fields[f.key := f.value]; }
    }
    assert lines[..|lines|] == lines;
    var magic := Word(Lookup(fields, "MAGIC"), "MAGIC", ParseAnyBase);
    if magic.Err? { return Err(magic.error); }
    var gitRev := Word(Lookup(fields, "GITREV"), "GITREV", ParseAnyBase);
    if gitRev.Err? { return Err(gitRev.error); }
    var crc := Word(Lookup(fields, "CRC"), "CRC", ParseAnyBase);
    if crc.Err? { return Err(crc.error); }
    var iterations := Word(Lookup(fields, "ITERATIONS"), "ITERATIONS", ParseDecimal);
    if iterations.Err? { return Err(iterations.error); }
    var cycles := Word(Lookup(fields, "CYCLES"), "CYCLES", ParseDecimal);
    if cycles.Err? { return Err(cycles.error); }
    var clkHz := Word(Lookup(fields, "CLKHZ"), "CLKHZ", ParseDecimal);
    if clkHz.Err? { return Err(clkHz.error); }
    if cycles.value == 0 { return Err(ZeroCycles); }
    return Ok(Record(magic.value, gitRev.value, crc.value % 0x1_0000, iterations.value, cycles.value, clkHz.value));
  }

  /** A line of the record: trimming keeps it, and it is cut between its key and its value. */
  lemma {:induction false} FieldLineReads(key: string, value: string)
    requires '=' !in key && value != "" && !IsSpace(value[|value| - 1])
    ensures FieldOf(FieldLine(key, value)) == Field(key, value)
  {
    var line := FieldLine(key, value);
    assert line[|line| - 1] == value[|value| - 1];
    assert TrimEnd(line, IsSpace) == line;
    assert line[0] == 'C';
    assert TrimSpace(line) == line;
    assert line[..4] == "CMK ";
    assert line[4..] == key + ['='] + value;
    FirstIs(key, '=', value);
  }

  lemma {:induction false} TrimBlanks(a: string, l: string, b: string)
    requires (forall c :: c in a ==> IsSpace(c)) && (forall c :: c in b ==> IsSpace(c))
    requires l != "" && !IsSpace(l[0]) && !IsSpace(l[|l| - 1])
    ensures TrimSpace(a + l + b) == l
  {
    TrimAfter(a + l, b);
    TrimBefore(a, l);
  }

  lemma {:induction false} TrimAfter(l: string, b: string)
    requires l != "" && !IsSpace(l[|l| - 1]) && forall c :: c in b ==> IsSpace(c)
    ensures TrimEnd(l + b, IsSpace) == l
    decreases |b|
  {
    if b == "" {
      assert l + b == l;
    } else {
      assert (l + b)[..|l + b| - 1] == l + b[..|b| - 1] && b[|b| - 1] in b;
      TrimAfter(l, b[..|b| - 1]);
    }
  }

  lemma {:induction false} TrimBefore(a: string, l: string)
    requires l != "" && !IsSpace(l[0]) && forall c :: c in a ==> IsSpace(c)
    ensures TrimStart(a + l, IsSpace) == l
    decreases |a|
  {
    if a == "" {
      assert a + l == l;
    } else {
      assert (a + l)[1..] == a[1..] + l && a[0] in a;
      TrimBefore(a[1..], l);
    }
  }

  /** White space around a line of the record does not matter. */
  lemma {:induction false} BlanksAround(a: string, key: string, value: string, b: string)
    requires (forall c :: c in a ==> IsSpace(c)) && (forall c :: c in b ==> IsSpace(c))
    requires '=' !in key && value != "" && !IsSpace(value[|value| - 1])
    ensures FieldOf(a + FieldLine(key, value) + b) == Field(key, value)
  {
    var line := FieldLine(key, value);
    assert line[|line| - 1] == value[|value| - 1] && line[0] == 'C';
    TrimBlanks(a, line, b);
    TrimBlanks("", line, "");
    assert "" + line + "" == line;
    FieldLineReads(key, value);
  }

  lemma {:induction false} RecordFields(r: Record)
    ensures var ls := RecordLines(r);
            FieldOf(ls[0]) == Field("MAGIC", HexText(r.magic)) && FieldOf(ls[1]) == Field("GITREV", HexText(r.gitRev))
            && FieldOf(ls[2]) == Field("CRC", HexText(r.crc)) && FieldOf(ls[3]) == Field("ITERATIONS", Dec(r.iterations))
            && FieldOf(ls[4]) == Field("CYCLES", Dec(r.cycles)) && FieldOf(ls[5]) == Field("CLKHZ", Dec(r.clkHz))
  {
    hide FieldOf, FieldLine, Dec, Hex;
    FieldLineReads("MAGIC", HexText(r.magic));
    FieldLineReads("GITREV", HexText(r.gitRev));
    FieldLineReads("CRC", HexText(r.crc));
    FieldLineReads("ITERATIONS", Dec(r.iterations));
    FieldLineReads("CYCLES", Dec(r.cycles));
    FieldLineReads("CLKHZ", Dec(r.clkHz));
  }

  lemma {:induction false} LastOf(lines: seq<string>, k: nat, f: Field)
    requires k < |lines| && f.Field? && FieldOf(lines[k]) == f
    requires forall i :: k < i < |lines| ==> FieldOf(lines[i]).Field? && FieldOf(lines[i]).key != f.key
    ensures LastField(lines, f.key) == f
  {
    if k < |lines| - 1 { LastOf(lines[..|lines| - 1], k, f); }
  }

  const KEYS := ["MAGIC", "GITREV", "CRC", "ITERATIONS", "CYCLES", "CLKHZ"]

  /** The value of the i-th key: the first three are read in any base, the others in decimal. */
  function ValueAt(lines: seq<string>, i: nat): Number
    requires i < 6
  {
    var f := LastField(lines, KEYS[i]);
    if f.NoField? then NotANumber else if i < 3 then ParseAnyBase(f.value) else ParseDecimal(f.value)
  }

  /** The first key, in the order of the record, that is missing or does not parse is the error, then no cycles; and otherwise each value
      is in its field. */
  lemma {:induction false} ParsedExactly(lines: seq<string>)
    ensures forall i :: 0 <= i < 6 && ValueAt(lines, i).NotANumber? && (forall j :: 0 <= j < i ==> ValueAt(lines, j).Is?) ==>
              Parsed(lines) == Err(if LastField(lines, KEYS[i]).NoField? then Missing(KEYS[i]) else BadValue(KEYS[i]))
    ensures (forall i :: 0 <= i < 6 ==> ValueAt(lines, i).Is?) ==>
              Parsed(lines) == if ValueAt(lines, 4).n == 0 then Err(ZeroCycles)
                               else Ok(Record(ValueAt(lines, 0).n, ValueAt(lines, 1).n, ValueAt(lines, 2).n % 0x1_0000,
                                              ValueAt(lines, 3).n, ValueAt(lines, 4).n, ValueAt(lines, 5).n))
  {
    hide LastField, ParseAnyBase, ParseDecimal;
    assert KEYS[0] == "MAGIC" && KEYS[1] == "GITREV" && KEYS[2] == "CRC" && KEYS[3] == "ITERATIONS" && KEYS[4] == "CYCLES" && KEYS[5] == "CLKHZ";
    forall i | 0 <= i < 6 ensures ValueIs(lines, i) { ValueOfWord(lines, i); }
    assert ValueIs(lines, 0) && ValueIs(lines, 1) && ValueIs(lines, 2) && ValueIs(lines, 3) && ValueIs(lines, 4) && ValueIs(lines, 5);
    hide ValueAt, Word;
  }

  predicate ValueIs(lines: seq<string>, i: nat)
    requires i < 6
  {
    var f, v := LastField(lines, KEYS[i]), ValueAt(lines, i);
    Word(f, KEYS[i], if i < 3 then ParseAnyBase else ParseDecimal) ==
      if v.Is? then Ok(v.n) else if f.NoField? then Err(Missing(KEYS[i])) else Err(BadValue(KEYS[i]))
  }

  lemma {:induction false} ValueOfWord(lines: seq<string>, i: nat)
    requires i < 6
    ensures ValueIs(lines, i)
  {
    hide LastField, ParseAnyBase, ParseDecimal;
  }

  predicate Words(r: Record) {
    r.magic < WORD && r.gitRev < WORD && r.crc < WORD && r.iterations < WORD && r.cycles < WORD && r.clkHz < WORD
  }

  lemma {:induction false} ParsedRecord(r: Record)
    requires Words(r)
    ensures Parsed(RecordLines(r)) == if r.cycles == 0 then Err(ZeroCycles) else Ok(r.(crc := r.crc % 0x1_0000))
  {
    hide FieldOf, LastField, HexText, Dec, ParseAnyBase, Read;
    var ls := RecordLines(r);
    RecordFields(r);
    LastOf(ls, 0, Field("MAGIC", HexText(r.magic)));
    LastOf(ls, 1, Field("GITREV", HexText(r.gitRev)));
    LastOf(ls, 2, Field("CRC", HexText(r.crc)));
    LastOf(ls, 3, Field("ITERATIONS", Dec(r.iterations)));
    LastOf(ls, 4, Field("CYCLES", Dec(r.cycles)));
    LastOf(ls, 5, Field("CLKHZ", Dec(r.clkHz)));
    HexReads(r.magic);
    HexReads(r.gitRev);
    HexReads(r.crc);
    ReadDec(r.iterations);
    ReadDec(r.cycles);
    ReadDec(r.clkHz);
  }

  /** ParseRecord reads back the record the board wrote, and refuses exactly the records without cycles. */
  lemma {:induction false} RecordRoundTrip(r: Record)
    requires r.Fits()
    ensures Parsed(RecordLines(r)) == if r.cycles == 0 then Err(ZeroCycles) else Ok(r)
  {
    hide Parsed, RecordLines;
    ParsedRecord(r);
  }

  /** The CRC is cut to 16 bits after it is read, so a wider one is taken for its low half. */
  lemma {:induction false} WideCrc(r: Record)
    requires Words(r) && r.cycles != 0
    ensures Parsed(RecordLines(r)) == Ok(r) <==> r.crc < 0x1_0000
    ensures Parsed(RecordLines(r)) == Parsed(RecordLines(r.(crc := r.crc % 0x1_0000)))
  {
    hide Parsed, RecordLines;
    ParsedRecord(r);
    ParsedRecord(r.(crc := r.crc % 0x1_0000));
    assert r.(crc := r.crc % 0x1_0000) == r <==> r.crc < 0x1_0000;
  }

  // ==== tools/coremark-collector/main.go: lines out of serial reads, and the loop that collects a record.

  // ---- Lines ----

  /** The complete lines of a text, without their terminators. */
  function AllLines(s: string): seq<string>
    decreases |s|
  {
    var i := FirstAt(s, '\n');
    if i == |s| then [] else [TrimCR(s[..i])] + AllLines(s[i + 1..])
  }

  /** What follows the last newline. */
  function Tail(s: string): string
    decreases |s|
  {
    var i := FirstAt(s, '\n');
    if i == |s| then s else Tail(s[i + 1..])
  }

  lemma {:induction false} LineFirst(l: string, rest: string)
    requires '\n' !in l
    ensures AllLines(l + ['\n'] + rest) == [TrimCR(l)] + AllLines(rest)
  {
    var s := l + ['\n'] + rest;
    FirstIs(l, '\n', rest);
    assert s[..|l|] == l && s[|l| + 1..] == rest;
  }

  lemma {:induction false} NoLine(s: string)
    requires '\n' !in s
    ensures AllLines(s) == [] && Tail(s) == s
  {
    var i := FirstAt(s, '\n');
    assert forall k :: 0 <= k < |s| ==> s[k] in s;
  }

  lemma {:induction false} TailRest(l: string, rest: string)
    requires '\n' !in l
    ensures Tail(l + ['\n'] + rest) == Tail(rest)
  {
    FirstIs(l, '\n', rest);
    assert (l + ['\n'] + rest)[|l| + 1..] == rest;
  }

  /** A newline completes the tail of the text before it. */
  lemma {:induction false} LineAfter(s: string, l: string, rest: string)
    requires '\n' !in l
    ensures AllLines(s + l + ['\n'] + rest) == AllLines(s) + [TrimCR(Tail(s) + l)] + AllLines(rest)
    decreases |s|
  {
    hide AllLines, Tail, TrimCR;
    var i := FirstAt(s, '\n');
    if i == |s| {
      assert s[..i] == s;
      NoLine(s);
      LineFirst(s + l, rest);
    } else {
      var a, b := s[..i], s[i + 1..];
      assert s == a + ['\n'] + b;
      LineAfter(b, l, rest);
      Regrouped(a, b, l, rest);
      LineFirst(a, b + l + ['\n'] + rest);
      LineFirst(a, b);
      TailRest(a, b);
    }
  }

  lemma {:induction false} Regrouped(a: string, b: string, l: string, rest: string)
    ensures (a + ['\n'] + b) + l + ['\n'] + rest == a + ['\n'] + (b + l + ['\n'] + rest)
  {
  }

  /** A line that its terminator does not change. */
  predicate Plain(l: string) { '\n' !in l && (l == "" || l[|l| - 1] != '\r') }

  lemma {:induction false} TextLines(ls: seq<string>, rest: string)
    requires forall i :: 0 <= i < |ls| ==> Plain(ls[i])
    ensures AllLines(Text(ls) + rest) == ls + AllLines(rest)
  {
    hide AllLines, TrimCR, Plain;
    if ls == [] {
      assert Text(ls) + rest == rest;
    } else {
      TextLines(ls[1..], rest);
      Terminated(ls[0], Text(ls[1..]), rest);
      PlainLine(ls[0]);
      LineFirst(ls[0] + ['\r'], Text(ls[1..]) + rest);
    }
  }

  lemma {:induction false} Terminated(l: string, more: string, rest: string)
    ensures (l + "\r\n" + more) + rest == l + ['\r'] + ['\n'] + (more + rest)
  {
  }

  lemma {:induction false} PlainLine(l: string)
    requires Plain(l)
    ensures TrimCR(l + ['\r']) == l && '\n' !in l + ['\r']
  {
    EndKept(l);
    var s := l + ['\r'];
    assert s[..|s| - 1] == l;
    assert IsCR(s[|s| - 1]);
  }

  lemma {:induction false} EndKept(l: string)
    requires l == "" || l[|l| - 1] != '\r'
    ensures TrimCR(l) == l
  {
  }

  // ---- The loop over lines ----

  const MAGIC: nat := 0x4B4D434A

  datatype Outcome = Waiting | Malformed(error: ParseError) | Mismatch(record: Record) | Good(record: Record)

  /** sent counts the trigger bytes; record holds the lines since the last announcement. */
  datatype State = State(ready: bool, sent: nat, record: seq<string>, outcome: Outcome)

  const INIT := State(false, 0, [], Waiting)

  function Judged(p: Result<Record>, crc: nat): Outcome {
    if p.Err? then Malformed(p.error)
    else if p.value.magic != MAGIC || p.value.crc != crc then Mismatch(p.value)
    else Good(p.value)
  }

  function Step(st: State, line: string, crc: nat): State {
    if st.outcome != Waiting || line == "" then st
    else if Contains(line, "CMK READY") then State(true, if st.ready then st.sent else st.sent + 1, [], Waiting)
    else if !HasPrefix(line, "CMK ") then st
    else if Contains(line, "CMK DONE") then st.(outcome := Judged(Parsed(st.record), crc))
    else st.(record := st.record + [line])
  }

  function Scan(lines: seq<string>, st: State, crc: nat): State {
    if lines == [] then st else Scan(lines[1..], Step(st, lines[0], crc), crc)
  }

  lemma {:induction false} ScanAppend(a: seq<string>, b: seq<string>, st: State, crc: nat)
    ensures Scan(a + b, st, crc) == Scan(b, Scan(a, st, crc), crc)
  {
    if a == [] {
      assert a + b == b;
    } else {
      assert (a + b)[1..] == a[1..] + b;
      ScanAppend(a[1..], b, Step(st, a[0], crc), crc);
    }
  }

  lemma {:induction false} Decided(lines: seq<string>, st: State, crc: nat)
    requires st.outcome != Waiting
    ensures Scan(lines, st, crc) == st
  {
    if lines != [] { Decided(lines[1..], st, crc); }
  }

  /** The trigger is sent once, when the board has announced itself. */
  lemma {:induction false} TriggerOnce(lines: seq<string>, st: State, crc: nat)
    requires st.sent == if st.ready then 1 else 0
    ensures var end := Scan(lines, st, crc); end.sent == if end.ready then 1 else 0
  {
    if lines != [] { TriggerOnce(lines[1..], Step(st, lines[0], crc), crc); }
  }

  predicate Matters(line: string) { Contains(line, "CMK READY") || HasPrefix(line, "CMK ") }

  function Kept(lines: seq<string>): seq<string> {
    if lines == [] then [] else (if Matters(lines[0]) then [lines[0]] else []) + Kept(lines[1..])
  }

  /** Console noise changes nothing. */
  lemma {:induction false} NoiseIgnored(lines: seq<string>, st: State, crc: nat)
    ensures Scan(lines, st, crc) == Scan(Kept(lines), st, crc)
  {
    if lines != [] {
      NoiseIgnored(lines[1..], Step(st, lines[0], crc), crc);
      if Matters(lines[0]) {
        assert Kept(lines)[0] == lines[0] && Kept(lines)[1..] == Kept(lines[1..]);
      } else {
        assert Kept(lines) == Kept(lines[1..]) && Step(st, lines[0], crc) == st;
      }
    }
  }

  /** A line that the loop adds to the record. */
  predicate IsPart(l: string) { l != "" && !Contains(l, "CMK READY") && !Contains(l, "CMK DONE") && HasPrefix(l, "CMK ") }

  lemma {:induction false} PartsAdded(parts: seq<string>, st: State, crc: nat)
    requires st.outcome == Waiting && forall i :: 0 <= i < |parts| ==> IsPart(parts[i])
    ensures Scan(parts, st, crc) == st.(record := st.record + parts)
  {
    if parts != [] {
      var next := Step(st, parts[0], crc);
      PartsAdded(parts[1..], next, crc);
      assert st.record + parts == st.record + [parts[0]] + parts[1..];
    }
  }

  // ---- The lines of the record ----

  predicate Quiet(s: string) { forall c :: c in s ==> c != ' ' && c != '\n' && c != '\r' }

  lemma {:induction false} FieldLinePart(key: string, value: string)
    requires Quiet(key) && Quiet(value) && |key| >= 2 && value != "" && key[0] != 'D' && (key[0] != 'R')
    ensures IsPart(FieldLine(key, value)) && Plain(FieldLine(key, value))
  {
    var l := FieldLine(key, value);
    assert l[..4] == "CMK " && l[4] == key[0];
    forall i | 4 <= i < |l| ensures l[i] != ' ' && l[i] != '\n' && l[i] != '\r' {
      if i < 4 + |key| { assert l[i] == key[i - 4] && key[i - 4] in key; }
      if i >= 5 + |key| { assert l[i] == value[i - 5 - |key|] && value[i - 5 - |key|] in value; }
    }
    OnlyAtStart(l, "CMK READY");
    OnlyAtStart(l, "CMK DONE");
  }

  /** A text whose one space is the fourth character has a text of the same kind only at its start. */
  lemma {:induction false} OnlyAtStart(l: string, t: string)
    requires |l| >= 5 && |t| >= 5 && (forall i :: 4 <= i < |l| ==> l[i] != ' ') && l[0] != ' ' && l[1] != ' ' && l[2] != ' '
    requires t[3] == ' ' && l[4] != t[4]
    ensures !Contains(l, t)
  {
    forall i | 0 <= i <= |l| ensures !StandsAt(l, t, i) {}
  }

  lemma {:induction false} RecordParts(r: Record)
    ensures forall i :: 0 <= i < |RecordLines(r)| ==> IsPart(RecordLines(r)[i]) && Plain(RecordLines(r)[i])
  {
    hide IsPart, Plain, FieldLine, Dec, Hex;
    var ls := RecordLines(r);
    FieldLinePart("MAGIC", HexText(r.magic));
    FieldLinePart("GITREV", HexText(r.gitRev));
    FieldLinePart("CRC", HexText(r.crc));
    FieldLinePart("ITERATIONS", Dec(r.iterations));
    FieldLinePart("CYCLES", Dec(r.cycles));
    FieldLinePart("CLKHZ", Dec(r.clkHz));
  }

  function Verdict(r: Record, crc: nat): Outcome {
    if r.cycles == 0 then Malformed(ZeroCycles) else if r.magic != MAGIC || r.crc != crc then Mismatch(r) else Good(r)
  }

  lemma {:induction false} DoneLine()
    ensures HasPrefix("CMK DONE", "CMK ") && Contains("CMK DONE", "CMK DONE") && !Contains("CMK DONE", "CMK READY") && Plain("CMK DONE")
  {
    assert StandsAt("CMK DONE", "CMK DONE", 0);
  }

  /**
   * An announcement and then, among any console noise, the lines of a record: the outcome is the record's,
   * unless an earlier line decided.
   */
  lemma {:induction false} RecordIsCollected(front: seq<string>, ready: string, lines: seq<string>, rest: seq<string>, r: Record, crc: nat)
    requires r.Fits() && Contains(ready, "CMK READY") && Kept(lines) == RecordLines(r) + ["CMK DONE"]
    ensures var before := Scan(front, INIT, crc).outcome;
            Scan(front + [ready] + lines + rest, INIT, crc).outcome == if before != Waiting then before else Verdict(r, crc)
  {
    hide Contains, HasPrefix, RecordLines, Parsed, Kept;
    var st := Scan(front, INIT, crc);
    var all := [ready] + lines + rest;
    assert front + [ready] + lines + rest == front + all;
    ScanAppend(front, all, INIT, crc);
    if st.outcome != Waiting {
      Decided(all, st, crc);
    } else {
      assert all[1..] == lines + rest;
      var armed := Step(st, ready, crc);
      assert ready != "" by { NotEmpty(ready); }
      ScanAppend(lines, rest, armed, crc);
      NoiseIgnored(lines, armed, crc);
      RecordParts(r);
      ScanAppend(RecordLines(r), ["CMK DONE"], armed, crc);
      PartsAdded(RecordLines(r), armed, crc);
      RecordRoundTrip(r);
      DoneLine();
      var full := armed.(record := armed.record + RecordLines(r));
      assert full.record == RecordLines(r);
      ScanOne("CMK DONE", full, crc);
      Decided(rest, Scan(lines, armed, crc), crc);
    }
  }

  lemma {:induction false} ScanOne(l: string, st: State, crc: nat)
    ensures Scan([l], st, crc) == Step(st, l, crc)
  {
  }

  lemma {:induction false} NotEmpty(l: string)
    requires Contains(l, "CMK READY")
    ensures l != ""
  {
  }

  lemma {:induction false} EndsReady(t: string)
    ensures Contains(TrimCR(t + "CMK READY\r"), "CMK READY") && '\n' !in "CMK READY\r" && "CMK READY\r\n" == "CMK READY\r" + ['\n']
  {
    var l := t + "CMK READY";
    assert "CMK READY\r" == "CMK READY" + ['\r'];
    assert t + "CMK READY\r" == l + ['\r'];
    assert (l + ['\r'])[..|l|] == l;
    assert l[|l| - 1] == 'Y';
    EndKept(l);
    assert IsCR((l + ['\r'])[|l|]);
    assert StandsAt(l, "CMK READY", |t|);
  }

  /** What the board sends, after any text and before any other, gives its record. */
  lemma {:induction false} EmittedIsCollected(before: string, r: Record, after: string, crc: nat)
    requires r.Fits()
    ensures var decided := Scan(AllLines(before), INIT, crc).outcome;
            Scan(AllLines(before + "CMK READY\r\n" + Text(RecordLines(r) + ["CMK DONE"]) + after), INIT, crc).outcome
            == if decided != Waiting then decided else Verdict(r, crc)
  {
    hide Contains, RecordLines, AllLines, Tail, TrimCR, Scan, Verdict, Text;
    var ls := RecordLines(r) + ["CMK DONE"];
    RecordParts(r);
    DoneLine();
    TextLines(ls, after);
    AllKept(ls);
    var ready := TrimCR(Tail(before) + "CMK READY\r");
    EndsReady(Tail(before));
    var l := "CMK READY\r";
    LineAfter(before, l, Text(ls) + after);
    Joined(before, l, Text(ls), after);
    RecordIsCollected(AllLines(before), ready, ls, AllLines(after), r, crc);
    assert AllLines(before) + [ready] + (ls + AllLines(after)) == AllLines(before) + [ready] + ls + AllLines(after);
  }

  lemma {:induction false} Joined(a: string, l: string, t: string, after: string)
    ensures a + (l + ['\n']) + t + after == a + l + ['\n'] + (t + after)
  {
  }

  lemma {:induction false} AllKept(ls: seq<string>)
    requires forall i :: 0 <= i < |ls| ==> HasPrefix(ls[i], "CMK ")
    ensures Kept(ls) == ls
  {
    if ls != [] { AllKept(ls[1..]); }
  }

  // ---- The reader ----

  function Flat(chunks: seq<string>): string { if chunks == [] then "" else chunks[0] + Flat(chunks[1..]) }

  /** lineReader: source holds what the coming reads return; an idle read returns nothing. */
  class LineReader {
    var source: seq<string>
    var buf: string

    constructor (chunks: seq<string>)
      ensures source == chunks && buf == ""
    {
      source, buf := chunks, "";
    }

    ghost function Pending(): string
      reads this
    {
      buf + Flat(source)
    }

    /** A line that is complete in the buffer. */
    method Take() returns (line: string, got: bool)
      modifies this`buf
      ensures got <==> '\n' in old(buf)
      ensures !got ==> line == "" && buf == old(buf)
      ensures got ==> AllLines(old(Pending())) == [line] + AllLines(Pending()) && |buf| < |old(buf)|
    {
      var i := FirstAt(buf, '\n');
      if i == |buf| { return "", false; }
      ghost var was := buf;
      line := TrimCR(buf[..i]);
      buf := buf[i + 1..];
      got := true;
      assert was[i] == '\n' && was[i] in was;
      assert was + Flat(source) == was[..i] + ['\n'] + (buf + Flat(source));
      LineFirst(was[..i], buf + Flat(source));
    }

    /** next: the next complete line; nothing when the one read it makes does not complete one. */
    method Next() returns (line: string, got: bool)
      modifies this
      ensures got ==> AllLines(old(Pending())) == [line] + AllLines(Pending())
      ensures got ==> |Pending()| + |source| < |old(Pending())| + |old(source)|
      ensures !got ==> line == "" && Pending() == old(Pending()) && '\n' !in buf && |source| == (if old(|source|) == 0 then 0 else old(|source|) - 1)
    {
      line, got := Take();
      if got { return; }
      if source != [] {
        assert buf + Flat(source) == (buf + source[0]) + Flat(source[1..]);
        buf, source := buf + source[0], source[1..];
      }
      line, got := Take();
    }
  }

  /**
   * The collecting loop, polling the line a number of times before the deadline: the outcome does not depend
   * on how the bytes were split into reads, and enough polls always reach it.
   */
  method Collect(reader: LineReader, polls: nat, crc: nat) returns (st: State)
    modifies reader
    ensures st.outcome != Waiting || polls >= |old(reader.Pending())| + |old(reader.source)| ==>
              st == Scan(AllLines(old(reader.Pending())), INIT, crc)
    ensures st.sent == if st.ready then 1 else 0
  {
    hide Step, AllLines;
    st := INIT;
    ghost var all := AllLines(reader.Pending());
    ghost var most := |reader.Pending()| + |reader.source|;
    for k := 0 to polls
      invariant Scan(all, INIT, crc) == Scan(AllLines(reader.Pending()), st, crc)
      invariant st.outcome == Waiting && st.sent == if st.ready then 1 else 0
      invariant |reader.Pending()| + |reader.source| + k <= most || (reader.source == [] && '\n' !in reader.buf)
    {
      ghost var lines := AllLines(reader.Pending());
      if reader.source == [] && '\n' !in reader.buf {
        assert reader.Pending() == reader.buf;
        NoLine(reader.Pending());
      }
      var line, got := reader.Next();
      TriggerOnce([line], st, crc);
      ScanOne(line, st, crc);
      assert got ==> lines[1..] == AllLines(reader.Pending());
      Blank(st, crc);
      st := Advance(st, line, crc);
      if st.outcome != Waiting {
        Decided(AllLines(reader.Pending()), st, crc);
        return;
      }
    }
    if polls >= most {
      assert reader.source == [] && '\n' !in reader.buf && reader.Pending() == reader.buf;
      NoLine(reader.Pending());
    }
  }

  lemma {:induction false} Blank(st: State, crc: nat)
    ensures Step(st, "", crc) == st
  {
  }

  /** One turn of the loop. */
  method Advance(st: State, line: string, crc: nat) returns (next: State)
    requires st.outcome == Waiting
    ensures next == Step(st, line, crc)
  {
    next := st;
    if line == "" { return; }
    if Contains(line, "CMK READY") {
      next := next.(ready := true, record := []);
      if !st.ready { next := next.(sent := st.sent + 1); }
      return;
    }
    if !HasPrefix(line, "CMK ") { return; }
    if Contains(line, "CMK DONE") {
      var r := ParseRecord(st.record);
      next := next.(outcome := Judged(r, crc));
      return;
    }
    next := next.(record := st.record + [line]);
  }
}
