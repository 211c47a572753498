// tools/tests/runtests.c: reading the output of one test program line by line, and what the counters and verdicts say.

module Tap {
  import opened Common
  import opened Strings
  import opened Decimal

  datatype Status = Fail | Pass | Skip | Invalid

  /** Nothing seen; plan before any result; results and no plan yet; plan after some results. */
  datatype Plan = Init | First | Pending | Final

  /** struct testset. stray says that the table was indexed beyond its end, after which C promises nothing. */
  datatype State = State(plan: Plan, count: nat, current: nat, passed: nat, failed: nat, skipped: nat, results: seq<Status>,
                         aborted: bool, reported: bool, allSkipped: bool, stray: bool)
  {
    function Abort(): State { this.(aborted := true, reported := true) }
  }

  const NEW := State(Init, 0, 0, 0, 0, 0, [], false, false, false, false)

  const LONG_MAX: int := 0x7FFF_FFFF_FFFF_FFFF

  function SkipWhitespace(s: string): string { TrimStart(s, IsSpace) }

  predicate IsDigit(c: char) { '0' <= c <= '9' }

  function DigitsOf(s: string): (d: string)
    ensures IsDigits(d) && |d| <= |s|
  {
    if s == "" || !IsDigit(s[0]) then "" else [s[0]] + DigitsOf(s[1..])
  }

  /** What strtol reads: no number; or a number, cut to the range of long, and the text after it. */
  datatype Reading = NoNumber | Number(n: int, rest: string, overflow: bool)

  function StrToL(s: string): Reading {
    var t := SkipWhitespace(s);
    var signed := t != "" && (t[0] == '-' || t[0] == '+');
    var u := if signed then t[1..] else t;
    var d := DigitsOf(u);
    if d == "" then NoNumber
    else
      var v := if signed && t[0] == '-' then -(Value(d) as int) else Value(d);
      Number(if v > LONG_MAX then LONG_MAX else if v < -LONG_MAX - 1 then -LONG_MAX - 1 else v, u[|d|..], v > LONG_MAX || v < -LONG_MAX - 1)
  }

  function Lower(c: char): char { if 'A' <= c <= 'Z' then (c as int + 32) as char else c }

  predicate HasPrefixNoCase(s: string, t: string) { |t| <= |s| && forall i :: 0 <= i < |t| ==> Lower(s[i]) == Lower(t[i]) }

  /** The text after a hash mark, when the line has one next. */
  function Directive(s: string): string {
    var t := SkipWhitespace(s);
    if t != "" && t[0] == '#' then SkipWhitespace(t[1..]) else ""
  }

  function Padded(s: seq<Status>, n: nat): (t: seq<Status>)
    ensures |t| == if n < |s| then |s| else n
    decreases n - |s|
  {
    if |s| < n then Padded(s + [Invalid], n) else s
  }

  // ---- test_plan ----

  /** What a plan line announces: a number of tests, all of them skipped, or neither. */
  datatype Announced = Tests(n: nat) | AllSkipped | NoCount

  function Announce(line: string): Announced {
    var t := SkipWhitespace(line);
    var u := if HasPrefix(t, "1..") then t[3..] else t;
    var r := StrToL(u);
    var n, rest := if r.Number? then r.n else 0, if r.Number? then r.rest else u;
    if n == 0 && HasPrefixNoCase(Directive(rest), "skip") then AllSkipped else if n <= 0 then NoCount else Tests(n)
  }

  function TestPlan(line: string, st: State): State {
    match Announce(line)
    case AllSkipped => st.(allSkipped := true, aborted := true, count := 0, passed := 0, skipped := 0, failed := 0)
    case NoCount => st.Abort()
    case Tests(n) =>
      if st.plan == Init && st.results == [] then st.(count := n, plan := First, results := Padded([], n))
      else if st.plan == Pending then
        if n < st.count then st.Abort() else st.(count := n, plan := Final, results := Padded(st.results, n))
      else st
  }

  // ---- test_checkline ----

  /** A result line: the number it reports, or the next one, and its status after its directive. */
  datatype Line = NoResult | Result(number: int, status: Status)

  function ResultLine(line: string, current: nat): Line {
    var negated := HasPrefix(line, "not ");
    var t := if negated then line[4..] else line;
    if !HasPrefix(t, "ok") then NoResult
    else
      var u := SkipWhitespace(t[2..]);
      var r := StrToL(u);
      var directive := Directive(u[|DigitsOf(u)|..]);
      var status := if HasPrefixNoCase(directive, "skip") then Skip else if negated then Fail else Pass;
      Result(if r.NoNumber? || r.overflow then current + 1 else r.n,
             if !HasPrefixNoCase(directive, "todo") then status else if status == Fail then Skip else Fail)
  }

  function GrownSize(length: nat, number: nat): nat {
    var n := if length == 0 then 32 else 2 * length;
    if number <= length then length else if n < number then number else n
  }

  /** Before the plan is known, the table and the count follow the numbers. */
  function Grown(st: State, number: nat): State {
    if st.plan.Init? || st.plan.Pending? then
      st.(plan := Pending, count := if number > st.count then number else st.count, results := Padded(st.results, GrownSize(|st.results|, number)))
    else st
  }

  function Tally(st: State, number: nat, status: Status): State
    requires 1 <= number <= |st.results|
  {
    st.(passed := if status == Pass then st.passed + 1 else st.passed,
        failed := if status == Fail then st.failed + 1 else st.failed,
        skipped := if status == Skip then st.skipped + 1 else st.skipped,
        current := number, results := st.results[number - 1 := status])
  }

  function Record(st: State, number: int, status: Status): State {
    if number <= 0 || (number > st.count && st.plan == First) then st.Abort()
    else
      var g := Grown(st, number);
      if number > |g.results| then g.(stray := true, aborted := true)
      else if g.results[number - 1] != Invalid then g.Abort()
      else Tally(g, number, status)
  }

  predicate IsPlan(line: string, st: State) { (st.plan == Init && line != "" && IsDigit(line[0])) || HasPrefix(line, "1..") }

  function CheckLine(line: string, st: State): State {
    if After(line, "Bail out!").Some? then
      if SkipWhitespace(After(line, "Bail out!").value) != "" then st.Abort() else st.(aborted := true)
    else if line == "" || line[|line| - 1] != '\n' || line[0] == '#' then st
    else if IsPlan(line, st) then
      if st.plan == Init || st.plan == Pending then TestPlan(line, st) else st.Abort()
    else
      var r := ResultLine(line, st.current);
      if r.NoResult? then st else Record(st, r.number, r.status)
  }

  /** Every line up to the one that aborts. */
  function RunLines(lines: seq<string>, st: State): State {
    if lines == [] || st.aborted then st else RunLines(lines[1..], CheckLine(lines[0], st))
  }

  // ---- The end of test_run ----

  datatype Exit = Exited(code: nat) | Signalled

  /** test_analyze: what it changes, and whether the set passed. */
  function Analyzed(st: State, exit: Exit): (State, bool) {
    if st.reported then (st, false)
    else if st.allSkipped then (st, true)
    else if exit != Exited(0) then (st, false)
    else if st.plan != First && st.plan != Final then (st.(aborted := true), false)
    else (st, st.failed == 0)
  }

  function FillMissing(s: seq<Status>, n: nat): (t: seq<Status>)
    requires n <= |s|
    ensures |t| == |s| && forall i :: 0 <= i < |s| ==> t[i] == if i < n && s[i] == Invalid then Fail else s[i]
  {
    if n == 0 then s
    else
      var t := FillMissing(s, n - 1);
      if s[n - 1] == Invalid then t[n - 1 := Fail] else t
  }

  // ==== What the counters of a test set say, over any output.

  function Count(s: seq<Status>, x: Status): nat {
    if s == [] then 0 else Count(s[..|s| - 1], x) + if s[|s| - 1] == x then 1 else 0
  }

  lemma {:induction false} CountMore(s: seq<Status>, y: Status, x: Status)
    ensures Count(s + [y], x) == Count(s, x) + if y == x then 1 else 0
  {
    assert (s + [y])[..|s|] == s;
  }

  lemma {:induction false} CountConcat(a: seq<Status>, b: seq<Status>, x: Status)
    ensures Count(a + b, x) == Count(a, x) + Count(b, x)
  {
    if b == [] {
      assert a + b == a;
    } else {
      var n := |b| - 1;
      CountConcat(a, b[..n], x);
      CountMore(a + b[..n], b[n], x);
      assert a + b == a + b[..n] + [b[n]];
    }
  }

  lemma {:induction false} CountUpdate(s: seq<Status>, i: nat, y: Status, x: Status)
    requires i < |s|
    ensures Count(s[i := y], x) + (if s[i] == x then 1 else 0) == Count(s, x) + if y == x then 1 else 0
  {
    var t := s[i := y];
    assert s == s[..i] + [s[i]] + s[i + 1..];
    assert t == s[..i] + [y] + s[i + 1..];
    CountMore(s[..i], s[i], x);
    CountMore(s[..i], y, x);
    CountConcat(s[..i] + [s[i]], s[i + 1..], x);
    CountConcat(s[..i] + [y], s[i + 1..], x);
  }

  lemma {:induction false} CountAll(s: seq<Status>)
    ensures Count(s, Pass) + Count(s, Fail) + Count(s, Skip) + Count(s, Invalid) == |s|
  {
    if s != [] { CountAll(s[..|s| - 1]); }
  }

  lemma {:induction false} NoneCounted(s: seq<Status>, x: Status)
    requires x !in s
    ensures Count(s, x) == 0
  {
    if s != [] {
      assert s[|s| - 1] in s;
      NoneCounted(s[..|s| - 1], x);
    }
  }

  lemma {:induction false} CountZero(s: seq<Status>, x: Status)
    requires Count(s, x) == 0
    ensures x !in s
  {
    if s != [] {
      CountZero(s[..|s| - 1], x);
      assert s == s[..|s| - 1] + [s[|s| - 1]];
    }
  }

  /** Growing the table adds only entries without a result. */
  lemma {:induction false} PaddedKeeps(s: seq<Status>, n: nat, x: Status)
    ensures var t := Padded(s, n);
            t[..|s|] == s && (forall i :: |s| <= i < |t| ==> t[i] == Invalid) && (x != Invalid ==> Count(t, x) == Count(s, x))
    decreases n - |s|
  {
    if |s| < n {
      PaddedKeeps(s + [Invalid], n, x);
      CountMore(s, Invalid, x);
      var t := Padded(s + [Invalid], n);
      assert t[..|s| + 1][|s|] == Invalid;
      assert t[..|s|] == t[..|s| + 1][..|s|];
    }
  }

  // ---- The invariant ----

  predicate Counted(st: State) {
    st.passed == Count(st.results, Pass) && st.failed == Count(st.results, Fail) && st.skipped == Count(st.results, Skip)
  }

  predicate NothingBeyond(st: State) { forall i :: st.count <= i < |st.results| ==> st.results[i] == Invalid }

  /** Each counter is the number of table entries with its status; a set that was skipped counts nothing. */
  predicate Accounted(st: State) {
    && (if st.allSkipped then st.aborted && st.count == st.passed == st.failed == st.skipped == 0 else Counted(st))
    && st.count <= |st.results|
    && (st.plan == Init ==> st.results == [])
    && (st.plan != Final && !st.allSkipped ==> NothingBeyond(st))
  }

  lemma {:induction false} PlanAccounted(line: string, st: State)
    requires Accounted(st) && !st.aborted
    ensures Accounted(TestPlan(line, st))
  {
    hide Announce, Padded, Count;
    var a := Announce(line);
    if a.Tests? {
      forall x ensures x == x && Padded(st.results, a.n)[..|st.results|] == st.results
                       && (forall i :: |st.results| <= i < |Padded(st.results, a.n)| ==> Padded(st.results, a.n)[i] == Invalid)
                       && (x != Invalid ==> Count(Padded(st.results, a.n), x) == Count(st.results, x))
      {
        PaddedKeeps(st.results, a.n, x);
      }
    }
  }

  lemma {:induction false} GrownAccounted(st: State, number: nat)
    requires Accounted(st) && !st.aborted && number > 0
    ensures Accounted(Grown(st, number)) && (st.plan.Init? || st.plan.Pending? ==> number <= Grown(st, number).count)
  {
    hide Count, Padded;
    var n := GrownSize(|st.results|, number);
    PaddedKeeps(st.results, n, Pass);
    PaddedKeeps(st.results, n, Fail);
    PaddedKeeps(st.results, n, Skip);
  }

  lemma {:induction false} TallyAccounted(st: State, number: nat, status: Status)
    requires Accounted(st) && !st.aborted && 1 <= number <= |st.results| && st.results[number - 1] == Invalid
    requires status != Invalid && (st.plan != Final ==> number <= st.count) && st.plan != Init
    ensures Accounted(Tally(st, number, status))
  {
    hide Count;
    CountUpdate(st.results, number - 1, status, Pass);
    CountUpdate(st.results, number - 1, status, Fail);
    CountUpdate(st.results, number - 1, status, Skip);
  }

  lemma {:induction false} CheckAccounted(line: string, st: State)
    requires Accounted(st) && !st.aborted
    ensures Accounted(CheckLine(line, st))
  {
    hide Count, ResultLine, After, SkipWhitespace, HasPrefix, TestPlan, Record;
    PlanAccounted(line, st);
    ResultStatus(line, st.current);
    var r := ResultLine(line, st.current);
    if r.Result? { RecordAccounted(st, r.number, r.status); }
  }

  lemma {:induction false} RecordAccounted(st: State, number: int, status: Status)
    requires Accounted(st) && !st.aborted && status != Invalid
    ensures Accounted(Record(st, number, status))
  {
    hide Count, Grown, Tally;
    if number > 0 && !(number > st.count && st.plan == First) {
      GrownKinds(st, number);
      GrownAccounted(st, number);
      var g := Grown(st, number);
      if number <= |g.results| && g.results[number - 1] == Invalid { TallyAccounted(g, number, status); }
    }
  }

  lemma {:induction false} ResultStatus(line: string, current: nat)
    ensures var r := ResultLine(line, current); r.Result? ==> r.status != Invalid
  {
    hide SkipWhitespace, HasPrefix, StrToL, Directive, HasPrefixNoCase;
  }

  lemma {:induction false} GrownKinds(st: State, number: nat)
    ensures var g := Grown(st, number);
            g.aborted == st.aborted && g.allSkipped == st.allSkipped && g.stray == st.stray && g.reported == st.reported && g.plan != Init
            && ((st.plan == First || st.plan == Final) ==> g == st) && (g.plan == Final ==> g == st)
  {
  }

  /** Over any output, the counters are the numbers of table entries. */
  lemma {:induction false} RunAccounted(lines: seq<string>, st: State)
    requires Accounted(st)
    ensures Accounted(RunLines(lines, st))
  {
    if lines != [] && !st.aborted {
      CheckAccounted(lines[0], st);
      RunAccounted(lines[1..], CheckLine(lines[0], st));
    }
  }

  // ---- The end of a set ----

  /** The results that stand beyond the count. */
  function Beyond(st: State): nat
    requires st.count <= |st.results|
  {
    if st.allSkipped then 0 else |st.results| - st.count - Missing(st.results[st.count..])
  }

  function Missing(s: seq<Status>): (n: nat)
    ensures n <= |s|
  {
    CountAll(s);
    Count(s, Invalid)
  }

  function Ended(st: State): State {
    st.(aborted := !st.allSkipped && (st.aborted || st.plan == Init))
  }

  /** The end of test_run: the missing tests become failures. */
  function Finished(st: State, exit: Exit): (State, bool)
    requires st.count <= |st.results|
  {
    var (a, ok) := Analyzed(Ended(st), exit);
    var missing := Missing(a.results[..a.count]);
    (a.(failed := a.failed + missing, results := FillMissing(a.results, a.count)), ok && missing == 0)
  }

  /** The counters then add up to the count, and to the results beyond it. */
  lemma {:induction false} Conserved(st: State, exit: Exit)
    requires Accounted(st)
    ensures var (end, ok) := Finished(st, exit); end.passed + end.failed + end.skipped == end.count + Beyond(st)
  {
    hide Count;
    CountAll(st.results);
    assert st.results == st.results[..st.count] + st.results[st.count..];
    CountConcat(st.results[..st.count], st.results[st.count..], Invalid);
    if st.allSkipped { NoneCounted(st.results[..0], Invalid); }
  }

  lemma {:induction false} FillCounts(s: seq<Status>, n: nat, x: Status)
    requires n <= |s| && x != Invalid
    ensures Count(FillMissing(s, n), x) == Count(s, x) + if x == Fail then Missing(s[..n]) else 0
  {
    if n > 0 {
      FillCounts(s, n - 1, x);
      var t := FillMissing(s, n - 1);
      CountUpdate(t, n - 1, Fail, x);
      CountMore(s[..n - 1], s[n - 1], Invalid);
      assert s[..n] == s[..n - 1] + [s[n - 1]];
    } else {
      assert s[..0] == [];
    }
  }

  /** At the end each counter still is the number of entries with its status, and every counted test has one. */
  lemma {:induction false} EndCounted(st: State, exit: Exit)
    requires Accounted(st) && !st.allSkipped
    ensures var (end, ok) := Finished(st, exit); Counted(end) && forall i :: 0 <= i < end.count ==> end.results[i] != Invalid
  {
    hide Count, FillMissing, Missing;
    FillCounts(st.results, st.count, Pass);
    FillCounts(st.results, st.count, Fail);
    FillCounts(st.results, st.count, Skip);
  }

  // ---- Results beyond a trailing plan ----

  ghost predicate Inside(st: State) { st.allSkipped || NothingBeyond(st) }

  lemma {:induction false} AllMissing(s: seq<Status>)
    ensures Missing(s) == |s| <==> forall i :: 0 <= i < |s| ==> s[i] == Invalid
  {
    if s != [] {
      var n := |s| - 1;
      AllMissing(s[..n]);
      assert s == s[..n] + [s[n]];
      assert forall i :: 0 <= i < n ==> s[..n][i] == s[i];
    }
  }

  lemma {:induction false} InsideIs(st: State)
    requires st.count <= |st.results|
    ensures Inside(st) <==> Beyond(st) == 0
  {
    hide Missing;
    var tail := st.results[st.count..];
    AllMissing(tail);
    assert forall i :: st.count <= i < |st.results| ==> tail[i - st.count] == st.results[i];
    assert forall i :: 0 <= i < |tail| ==> tail[i] == st.results[i + st.count];
  }

  predicate IsResult(line: string, st: State) {
    After(line, "Bail out!").None? && line != "" && line[|line| - 1] == '\n' && line[0] != '#' && !IsPlan(line, st) && ResultLine(line, st.current).Result?
  }

  /** A result line with a number that the trailing plan does not have. */
  predicate PastPlan(line: string, st: State) {
    st.plan == Final && IsResult(line, st) && ResultLine(line, st.current).number > st.count
  }

  predicate InPlan(lines: seq<string>, st: State) {
    lines == [] || st.aborted || (!PastPlan(lines[0], st) && InPlan(lines[1..], CheckLine(lines[0], st)))
  }

  /** What CheckLine does by the kind of its line. */
  lemma {:induction false} StepKinds(line: string, st: State)
    ensures IsResult(line, st) ==> ResultLine(line, st.current).Result? && ResultLine(line, st.current).status != Invalid
    ensures IsResult(line, st) ==> CheckLine(line, st) == Record(st, ResultLine(line, st.current).number, ResultLine(line, st.current).status)
    ensures !IsResult(line, st) ==> CheckLine(line, st) in {st, st.Abort(), st.(aborted := true)} || (st.plan in {Init, Pending} && CheckLine(line, st) == TestPlan(line, st))
  {
    hide ResultLine, After, SkipWhitespace, HasPrefix, TestPlan, Record;
    ResultStatus(line, st.current);
  }

  lemma {:induction false} PlanInside(line: string, st: State)
    requires Accounted(st) && !st.aborted
    ensures Inside(TestPlan(line, st)) <==> Inside(st) || Announce(line).AllSkipped?
    ensures TestPlan(line, st).stray == st.stray
  {
    hide Announce, Padded, Count;
    var a := Announce(line);
    if a.Tests? { PaddedKeeps(st.results, a.n, Pass); }
  }

  lemma {:induction false} RecordInside(st: State, number: int, status: Status)
    requires Accounted(st) && !st.aborted && !st.stray && Inside(st) && !(st.plan == Final && number > st.count)
    ensures var next := Record(st, number, status); !next.stray && Inside(next)
  {
    hide Count, Grown;
    if number > 0 {
      GrownKinds(st, number);
      GrownAccounted(st, number);
    }
  }

  lemma {:induction false} RecordPast(st: State, number: int, status: Status)
    requires Accounted(st) && !st.aborted && !st.stray && Inside(st) && st.plan == Final && number > st.count && status != Invalid
    ensures var next := Record(st, number, status); next.stray || (next.plan == Final && !Inside(next))
  {
    hide Count;
    if number <= |st.results| { assert Record(st, number, status).results[number - 1] == status; }
  }

  /** A result beyond a trailing plan stays. */
  lemma {:induction false} BeyondStays(lines: seq<string>, st: State)
    requires Accounted(st) && (st.stray ==> st.aborted) && (st.stray || (st.plan == Final && !Inside(st)))
    ensures var end := RunLines(lines, st); end.stray || !Inside(end)
  {
    if lines != [] && !st.aborted {
      StepBeyond(lines[0], st);
      CheckAccounted(lines[0], st);
      hide Accounted, CheckLine, Inside;
      BeyondStays(lines[1..], CheckLine(lines[0], st));
    }
  }

  lemma {:induction false} StepBeyond(line: string, st: State)
    requires Accounted(st) && !st.aborted && !st.stray && st.plan == Final && !Inside(st)
    ensures var next := CheckLine(line, st); (next.stray ==> next.aborted) && (next.stray || (next.plan == Final && !Inside(next)))
  {
    hide Count, CheckLine, IsResult, TestPlan, Record, ResultLine;
    StepKinds(line, st);
    if IsResult(line, st) {
      var r := ResultLine(line, st.current);
      RecordBeyond(st, r.number, r.status);
    }
  }

  lemma {:induction false} RecordBeyond(st: State, number: int, status: Status)
    requires Accounted(st) && !st.aborted && !st.stray && st.plan == Final && !Inside(st) && status != Invalid
    ensures var next := Record(st, number, status); (next.stray ==> next.aborted) && (next.stray || (next.plan == Final && !Inside(next)))
  {
    hide Count;
    var i :| st.count <= i < |st.results| && st.results[i] != Invalid;
    var next := Record(st, number, status);
    assert next.count == st.count && |next.results| == |st.results| && next.results[i] != Invalid;
  }

  /** Nothing is counted beyond the plan, and the table is never left, exactly when every result is in the trailing plan. */
  lemma {:induction false} InPlanExact(lines: seq<string>, st: State)
    requires Accounted(st) && !st.stray && Inside(st)
    ensures var end := RunLines(lines, st); end.count <= |end.results| && (InPlan(lines, st) <==> !end.stray && Beyond(end) == 0)
  {
    RunAccounted(lines, st);
    InsideIs(RunLines(lines, st));
    if lines != [] && !st.aborted {
      hide Count, CheckLine, IsResult, TestPlan, Record, Beyond, Inside;
      var line := lines[0];
      var next := CheckLine(line, st);
      StepKinds(line, st);
      CheckAccounted(line, st);
      if PastPlan(line, st) {
        assert IsResult(line, st);
        var r := ResultLine(line, st.current);
        ResultStatus(line, st.current);
        RecordPast(st, r.number, r.status);
        StrayAborts(st, r.number, r.status);
        RunAccounted(lines[1..], next);
        BeyondStays(lines[1..], next);
      } else {
        StepInside(line, st);
        InPlanExact(lines[1..], next);
      }
    }
  }

  lemma {:induction false} StrayAborts(st: State, number: int, status: Status)
    requires !st.stray
    ensures var next := Record(st, number, status); next.stray ==> next.aborted
  {
    hide Grown;
    if number > 0 { GrownKinds(st, number); }
  }

  lemma {:induction false} StepInside(line: string, st: State)
    requires Accounted(st) && !st.aborted && !st.stray && Inside(st) && !PastPlan(line, st)
    ensures !CheckLine(line, st).stray && Inside(CheckLine(line, st))
  {
    hide Count, CheckLine, IsResult, TestPlan, Record, Announce, ResultLine;
    StepKinds(line, st);
    PlanInside(line, st);
    if IsResult(line, st) {
      var r := ResultLine(line, st.current);
      RecordInside(st, r.number, r.status);
    }
  }

  /** From the start: the counters add up to the count exactly when every result is in the trailing plan. */
  lemma {:induction false} RunConserved(lines: seq<string>, exit: Exit)
    ensures var st := RunLines(lines, NEW);
            Accounted(st) && (var (end, ok) := Finished(st, exit);
            InPlan(lines, NEW) <==> !st.stray && end.passed + end.failed + end.skipped == end.count)
  {
    hide Beyond, InPlan, RunLines, Finished;
    RunAccounted(lines, NEW);
    InPlanExact(lines, NEW);
    Conserved(RunLines(lines, NEW), exit);
  }

  /** Unlike a plan that comes first, a trailing plan does not stop the next number: it is counted, once too often. */
  lemma {:induction false} OnePast(st: State, exit: Exit)
    requires Accounted(st) && !st.aborted && !st.stray && st.plan == Final && NothingBeyond(st) && !st.allSkipped && st.count < |st.results|
    ensures var next := Record(st, st.count + 1, Pass);
            Accounted(next) && !next.aborted && (var (end, ok) := Finished(next, exit); end.passed + end.failed + end.skipped == end.count + 1)
  {
    hide Count, FillMissing;
    var next := Record(st, st.count + 1, Pass);
    RecordAccounted(st, st.count + 1, Pass);
    Conserved(next, exit);
    var tail, was := next.results[next.count..], st.results[st.count..];
    assert tail == was[0 := Pass];
    AllMissing(was);
    CountUpdate(was, 0, Pass, Invalid);
  }

  // ---- When a set passes ----

  /** Within the plan, a set passes exactly when it exits cleanly and each counted test passed or was skipped. */
  lemma {:induction false} PassesExactly(st: State, exit: Exit)
    requires Accounted(st) && Inside(st)
    ensures Finished(st, exit).1 <==>
            !st.reported && (st.allSkipped || (exit == Exited(0) && (st.plan == First || st.plan == Final)
                             && forall i :: 0 <= i < st.count ==> st.results[i] == Pass || st.results[i] == Skip))
  {
    var front := st.results[..st.count];
    assert forall i :: 0 <= i < |front| ==> front[i] == st.results[i];
    if st.allSkipped {
      NoneCounted(front, Invalid);
    } else {
      if Count(st.results, Fail) == 0 { CountZero(st.results, Fail); }
      if Missing(front) == 0 { CountZero(front, Invalid); }
      if forall i :: 0 <= i < st.count ==> st.results[i] == Pass || st.results[i] == Skip {
        NoneCounted(st.results, Fail);
        NoneCounted(front, Invalid);
      }
    }
  }

  /** A bail out without a reason leaves the verdict as it would be at this point, and of the end only marks it aborted. */
  lemma {:induction false} BareBailOut(line: string, st: State, exit: Exit)
    requires Accounted(st) && !st.aborted && After(line, "Bail out!").Some? && SkipWhitespace(After(line, "Bail out!").value) == ""
    ensures CheckLine(line, st).aborted
    ensures Finished(CheckLine(line, st), exit) == (Finished(st, exit).0.(aborted := true), Finished(st, exit).1)
  {
    hide After, SkipWhitespace, Missing, FillMissing;
  }

  // ---- The batch ----

  datatype Output = Output(lines: seq<string>, exit: Exit)

  datatype Totals = Totals(aborted: nat, total: int, passed: nat, skipped: nat, failed: nat)

  function Outcome(o: Output): State {
    RunAccounted(o.lines, NEW);
    Finished(RunLines(o.lines, NEW), o.exit).0
  }

  /** Whether test_run returns success. */
  predicate Succeeds(o: Output) {
    RunAccounted(o.lines, NEW);
    Finished(RunLines(o.lines, NEW), o.exit).1
  }

  predicate Clean(o: Output) { !Outcome(o).aborted && Outcome(o).failed == 0 }

  function Added(t: Totals, st: State): Totals {
    var all := if st.allSkipped then 1 else 0;
    Totals(t.aborted + (if st.aborted then 1 else 0), t.total + st.count + all, t.passed + st.passed, t.skipped + st.skipped + all, t.failed + st.failed)
  }

  function Totalled(outputs: seq<Output>): Totals {
    if outputs == [] then Totals(0, 0, 0, 0, 0) else Added(Totalled(outputs[..|outputs| - 1]), Outcome(outputs[|outputs| - 1]))
  }

  predicate KeptPlan(o: Output) { InPlan(o.lines, NEW) }

  /** When every set stays within its plan, the total without the skipped tests is passed plus failed. */
  lemma {:induction false} BatchConserved(outputs: seq<Output>)
    requires forall o :: o in outputs ==> KeptPlan(o)
    ensures var t := Totalled(outputs); t.total - t.skipped == t.passed + t.failed
  {
    if outputs != [] {
      var n := |outputs| - 1;
      var o := outputs[n];
      assert forall x :: x in outputs[..n] ==> x in outputs;
      BatchConserved(outputs[..n]);
      RunConserved(o.lines, o.exit);
      assert KeptPlan(o);
    }
  }

  /** A batch has neither an abort nor a failure exactly when no set has. */
  lemma {:induction false} BatchPasses(outputs: seq<Output>)
    ensures Totalled(outputs).aborted == 0 && Totalled(outputs).failed == 0 <==> forall o :: o in outputs ==> Clean(o)
  {
    if outputs != [] {
      hide Outcome;
      var n := |outputs| - 1;
      BatchPasses(outputs[..n]);
      var t, u := Totalled(outputs[..n]), Totalled(outputs);
      assert u.aborted == 0 && u.failed == 0 <==> t.aborted == 0 && t.failed == 0 && Clean(outputs[n]);
      hide Clean, Totalled;
      assert forall x :: x in outputs <==> x in outputs[..n] || x == outputs[n];
    }
  }

  /** How a program ended is not part of the totals, but for a clean exit without a plan, which aborts its set; only the
      verdict on the set sees it. */
  lemma {:induction false} ExitNotCounted(st: State, e: Exit, f: Exit)
    requires Accounted(st)
    ensures Finished(st, e).0 == Finished(st, f).0 <==>
            st.plan != Pending || st.allSkipped || st.reported || st.aborted || (e == Exited(0) <==> f == Exited(0))
    ensures Finished(st, e).1 <==> Finished(st, Exited(0)).1 && (e == Exited(0) || st.allSkipped)
  {
    hide Missing, FillMissing;
  }

  // ==== tools/tests/runtests.c: when the verdict on a set and that on its batch agree.

  // ---- What a run can report ----

  /** A report aborts the set, and a set that is skipped as a whole has no report. */
  predicate Reported(st: State) { (st.reported ==> st.aborted) && (st.allSkipped ==> !st.reported) }

  lemma {:induction false} RecordReported(st: State, number: int, status: Status)
    requires !st.reported && !st.allSkipped
    ensures Reported(Record(st, number, status))
  {
    hide Grown;
    if number > 0 { GrownKinds(st, number); }
  }

  lemma {:induction false} StepReported(line: string, st: State)
    requires !st.reported && !st.allSkipped
    ensures Reported(CheckLine(line, st))
  {
    hide CheckLine, IsResult, Record, ResultLine, Announce, Padded;
    StepKinds(line, st);
    if IsResult(line, st) { RecordReported(st, ResultLine(line, st.current).number, ResultLine(line, st.current).status); }
  }

  lemma {:induction false} RunReported(lines: seq<string>, st: State)
    requires Accounted(st) && Reported(st)
    ensures Reported(RunLines(lines, st))
  {
    hide CheckLine, Counted, NothingBeyond;
    if lines != [] && !st.aborted {
      StepReported(lines[0], st);
      CheckAccounted(lines[0], st);
      RunReported(lines[1..], CheckLine(lines[0], st));
    }
  }

  // ---- One set ----

  /** How a set stands with its own verdict and with its batch. */
  datatype Standing =
    | Good        // passes, and lets its batch pass
    | Bad         // neither
    | ExitOnly    // fails by its exit, which the batch does not count
    | BailOnly    // passes, but is counted as aborted: it bailed out without a reason

  /** By what was read and how the program ended. */
  function StandingOf(st: State, exit: Exit): Standing
    requires st.count <= |st.results|
  {
    var planned := st.plan == First || st.plan == Final;
    if st.allSkipped then Good
    else if st.reported || st.failed > 0 || Missing(st.results[..st.count]) > 0 then Bad
    else if st.aborted then (if exit == Exited(0) && planned then BailOnly else Bad)
    else if st.plan == Init || (st.plan == Pending && exit == Exited(0)) then Bad
    else if exit == Exited(0) then Good else ExitOnly
  }

  function Stands(o: Output): Standing {
    RunAccounted(o.lines, NEW);
    StandingOf(RunLines(o.lines, NEW), o.exit)
  }

  lemma {:induction false} EndStands(st: State, exit: Exit)
    requires Accounted(st) && Reported(st)
    ensures var (end, ok) := Finished(st, exit);
            && (ok <==> StandingOf(st, exit) in {Good, BailOnly})
            && (!end.aborted && end.failed == 0 <==> StandingOf(st, exit) in {Good, ExitOnly})
  {
    hide FillMissing, Count;
    if st.allSkipped { NoneCounted(st.results[..0], Invalid); }
  }

  /** What the set's verdict, and its batch's totals, say of any output. */
  lemma {:induction false} VerdictsExactly(o: Output)
    ensures Succeeds(o) <==> Stands(o) in {Good, BailOnly}
    ensures Clean(o) <==> Stands(o) in {Good, ExitOnly}
  {
    hide RunLines, Finished, StandingOf;
    RunAccounted(o.lines, NEW);
    RunReported(o.lines, NEW);
    EndStands(RunLines(o.lines, NEW), o.exit);
  }

  /** The verdicts on one set agree, for what was read of it, exactly in these cases. */
  lemma {:induction false} SetAgrees(o: Output)
    ensures var st := RunLines(o.lines, NEW);
            && st.count <= |st.results|
            && ((Succeeds(o) <==> Clean(o)) <==>
                || st.allSkipped || st.reported || st.failed > 0 || Missing(st.results[..st.count]) > 0
                || (if st.aborted || st.plan == Init then o.exit != Exited(0) || (st.plan != First && st.plan != Final) else o.exit == Exited(0)))
  {
    hide RunLines, Missing, Succeeds, Clean;
    RunAccounted(o.lines, NEW);
    VerdictsExactly(o);
  }

  // ---- The batch ----

  predicate BatchSucceeds(outputs: seq<Output>) { Totalled(outputs).aborted == 0 && Totalled(outputs).failed == 0 }

  predicate NoneFails(outputs: seq<Output>) { forall o :: o in outputs ==> Succeeds(o) }

  /** The sets that are listed as failed at the end, in their order. */
  function Failing(outputs: seq<Output>): (fs: seq<Output>)
    ensures fs == [] <==> NoneFails(outputs)
  {
    if outputs == [] then []
    else
      var n := |outputs| - 1;
      assert outputs == outputs[..n] + [outputs[n]];
      Failing(outputs[..n]) + if Succeeds(outputs[n]) then [] else [outputs[n]]
  }

  predicate Has(outputs: seq<Output>, s: Standing) { exists o :: o in outputs && Stands(o) == s }

  /** The batch passes exactly when every set does, but for sets that fail by their exit alone, and for bare bail outs. */
  lemma {:induction false} BatchAgrees(outputs: seq<Output>)
    ensures BatchSucceeds(outputs) <==> !Has(outputs, Bad) && !Has(outputs, BailOnly)
    ensures NoneFails(outputs) <==> !Has(outputs, Bad) && !Has(outputs, ExitOnly)
    ensures (BatchSucceeds(outputs) <==> NoneFails(outputs)) <==> Has(outputs, Bad) || (Has(outputs, BailOnly) <==> Has(outputs, ExitOnly))
  {
    hide Stands, Succeeds, Clean, Totalled;
    BatchPasses(outputs);
    forall o | o in outputs
      ensures Succeeds(o) <==> Stands(o) == Good || Stands(o) == BailOnly
      ensures Clean(o) <==> Stands(o) == Good || Stands(o) == ExitOnly
    {
      VerdictsExactly(o);
    }
  }

  // ---- Outputs that show it ----

  lemma {:induction false} NoBailOut(s: string)
    requires |s| < 9
    ensures After(s, "Bail out!") == None
  {
    if s != "" { NoBailOut(s[1..]); }
  }

  const PLAN := "1..1\n"

  const BAIL := "Bail out!\n"

  function OkLine(d: char): string { "ok " + [d] + "\n" }

  lemma {:induction false} ReadsPlan(st: State)
    requires st.plan == Init || st.plan == Pending
    ensures CheckLine(PLAN, st) == TestPlan(PLAN, st) && Announce(PLAN) == Tests(1)
  {
    hide TestPlan;
    NoBailOut(PLAN);
    assert PLAN[..3] == "1.." && PLAN[3..] == "1\n";
    assert ['1'] + "" == "1" && "1\n"[1..] == "\n" && DigitsOf("1\n") == "1" && Value("1") == 1;
    assert StrToL("1\n") == Number(1, "\n", false);
    assert "\n"[1..] == "" && Directive("\n") == "";
  }

  lemma {:induction false} ReadsOk(d: char, st: State)
    requires '1' <= d <= '9'
    ensures CheckLine(OkLine(d), st) == Record(st, d as int - '0' as int, Pass)
  {
    hide Record;
    var s := OkLine(d);
    NoBailOut(s);
    assert s[..2] == "ok" && s[2..] == [' ', d, '\n'] && s[2..][1..] == [d, '\n'];
    assert !IsSpace(d) && TrimStart([d, '\n'], IsSpace) == [d, '\n'] == SkipWhitespace(s[2..]);
    assert [d, '\n'][1..] == "\n" && DigitsOf("\n") == "" && DigitsOf([d, '\n']) == [d];
    assert [d][..0] == "" && Value([d]) == d as int - '0' as int;
    assert "\n"[1..] == "" && Directive("\n") == "";
    assert s[0] == 'o';
  }

  lemma {:induction false} ReadsBail(st: State)
    ensures CheckLine(BAIL, st) == st.(aborted := true)
  {
    assert BAIL[..9] == "Bail out!" && BAIL[9..] == "\n" && "\n"[1..] == "" && SkipWhitespace("\n") == "";
  }

  lemma {:induction false} RunOn(line: string, rest: seq<string>, st: State)
    requires !st.aborted
    ensures RunLines([line] + rest, st) == RunLines(rest, CheckLine(line, st))
  {
    hide CheckLine;
    assert ([line] + rest)[1..] == rest;
  }

  lemma {:induction false} RunNone(st: State)
    ensures RunLines([], st) == st
  {
  }

  lemma {:induction false} Unpadded(s: seq<Status>, n: nat)
    requires n <= |s|
    ensures Padded(s, n) == s
  {
  }

  const ONE_PASSED := State(First, 1, 1, 1, 0, 0, [Pass], false, false, false, false)

  lemma {:induction false} OnePassed(rest: seq<string>)
    ensures RunLines([PLAN, OkLine('1')] + rest, NEW) == RunLines(rest, ONE_PASSED)
  {
    hide CheckLine, Announce, RunLines, OkLine, Grown;
    var st := NEW.(count := 1, plan := First, results := [Invalid]);
    ReadsPlan(NEW);
    assert Padded([], 1) == Padded([Invalid], 1) == [Invalid];
    assert CheckLine(PLAN, NEW) == st;
    ReadsOk('1', st);
    GrownKinds(st, 1);
    assert [Invalid][0 := Pass] == [Pass];
    RunOn(PLAN, [OkLine('1')] + rest, NEW);
    RunOn(OkLine('1'), rest, st);
    assert [PLAN, OkLine('1')] + rest == [PLAN] + ([OkLine('1')] + rest);
  }

  lemma {:induction false} NoneMissing()
    ensures Missing([Pass][..1]) == 0
  {
    assert [Pass][..1] == [Pass] && [Pass][..0] == [];
  }

  lemma {:induction false} OneOutput(o: Output)
    ensures BatchSucceeds([o]) <==> Clean(o)
  {
    hide Clean, Totalled;
    BatchPasses([o]);
    assert o in [o] && forall x :: x in [o] ==> x == o;
  }

  /** All tests pass and the program exits with 1: its set fails, and its batch succeeds. */
  lemma {:induction false} FailingExitPassesBatch()
    ensures var o := Output([PLAN, OkLine('1')], Exited(1)); !Succeeds(o) && BatchSucceeds([o])
  {
    hide CheckLine, Missing, Succeeds, Clean, BatchSucceeds, OkLine;
    var o := Output([PLAN, OkLine('1')], Exited(1));
    OnePassed([]);
    assert o.lines + [] == o.lines;
    NoneMissing();
    VerdictsExactly(o);
    OneOutput(o);
  }

  /** All tests pass before a bare bail out and a clean exit: the set passes, and its batch does not. */
  lemma {:induction false} BareBailOutFailsBatch()
    ensures var o := Output([PLAN, OkLine('1'), BAIL], Exited(0)); Succeeds(o) && !BatchSucceeds([o])
  {
    hide CheckLine, Missing, Succeeds, Clean, BatchSucceeds, OkLine;
    var o := Output([PLAN, OkLine('1'), BAIL], Exited(0));
    OnePassed([BAIL]);
    assert [PLAN, OkLine('1')] + [BAIL] == o.lines && [BAIL] + [] == [BAIL];
    RunOn(BAIL, [], ONE_PASSED);
    ReadsBail(ONE_PASSED);
    NoneMissing();
    VerdictsExactly(o);
    OneOutput(o);
  }

  /** A result one past a trailing plan: two tests have passed of one, and the set succeeds. */
  lemma {:induction false} TwoPassedOfOne()
    ensures var st := RunLines([OkLine('1'), PLAN, OkLine('2')], NEW);
            st.plan == Final && st.count == 1 && st.passed == 2 && Succeeds(Output([OkLine('1'), PLAN, OkLine('2')], Exited(0)))
  {
    hide CheckLine, Announce, RunLines, OkLine, Padded, Missing, Succeeds;
    var table := Padded([], 32);
    PaddedKeeps([], 32, Pass);
    var a := NEW.(plan := Pending, count := 1, current := 1, passed := 1, results := table[0 := Pass]);
    ReadsOk('1', NEW);
    assert CheckLine(OkLine('1'), NEW) == a;
    ReadsPlan(a);
    Unpadded(a.results, 1);
    var b := a.(plan := Final);
    assert CheckLine(PLAN, a) == b;
    ReadsOk('2', b);
    var c := CheckLine(OkLine('2'), b);
    assert c == b.(current := 2, passed := 2, results := b.results[1 := Pass]);
    var o := Output([OkLine('1'), PLAN, OkLine('2')], Exited(0));
    RunOn(OkLine('1'), [PLAN, OkLine('2')], NEW);
    RunOn(PLAN, [OkLine('2')], a);
    RunOn(OkLine('2'), [], b);
    assert [OkLine('1')] + [PLAN, OkLine('2')] == o.lines && [PLAN] + [OkLine('2')] == [PLAN, OkLine('2')] && [OkLine('2')] + [] == [OkLine('2')];
    RunNone(c);
    assert c.results[..1] == [Pass][..1];
    NoneMissing();
    VerdictsExactly(o);
  }

  // ==== tools/tests/runtests.c: what a line of output means, from its text, and what a recorded failure does to the verdict.

  // ---- White space, directives and numbers ----

  predicate Spaces(s: string) { forall i :: 0 <= i < |s| ==> IsSpace(s[i]) }

  predicate SameLetters(w: string, word: string) {
    |w| == |word| && forall i :: 0 <= i < |w| ==> w[i] == word[i] || w[i] as int + 32 == word[i] as int
  }

  /** The text goes on with a hash mark and the word, in letters of either case. */
  ghost predicate Says(text: string, word: string) {
    exists a, b, w, r :: Marked(text, word, a, b, w, r)
  }

  predicate Marked(text: string, word: string, a: string, b: string, w: string, r: string) {
    Spaces(a) && Spaces(b) && SameLetters(w, word) && text == a + "#" + b + w + r
  }

  predicate IsWord(word: string) { word != "" && forall i :: 0 <= i < |word| ==> 'a' <= word[i] <= 'z' }

  lemma {:induction false} SkipSpaces(a: string, r: string)
    requires Spaces(a) && (r == "" || !IsSpace(r[0]))
    ensures SkipWhitespace(a + r) == r
  {
    if a != "" {
      assert (a + r)[1..] == a[1..] + r;
      SkipSpaces(a[1..], r);
    } else {
      assert a + r == r;
    }
  }

  lemma {:induction false} SpacesBefore(s: string) returns (a: string)
    ensures Spaces(a) && s == a + SkipWhitespace(s) && (SkipWhitespace(s) == "" || !IsSpace(SkipWhitespace(s)[0]))
  {
    if s != "" && IsSpace(s[0]) {
      var b := SpacesBefore(s[1..]);
      a := [s[0]] + b;
      assert s == [s[0]] + s[1..];
    } else {
      a := "";
    }
  }

  lemma {:induction false} SaysIs(text: string, word: string)
    requires IsWord(word)
    ensures Says(text, word) <==> HasPrefixNoCase(Directive(text), word)
  {
    hide Marked, Directive, HasPrefixNoCase, IsWord;
    if HasPrefixNoCase(Directive(text), word) { DirectiveSays(text, word); }
    if a, b, w, r :| Marked(text, word, a, b, w, r) { SaysDirective(text, word, a, b, w, r); }
  }

  lemma {:induction false} DirectiveSays(text: string, word: string)
    requires IsWord(word) && HasPrefixNoCase(Directive(text), word)
    ensures Says(text, word)
  {
    hide SkipWhitespace;
    var t, d := SkipWhitespace(text), Directive(text);
    var a := SpacesBefore(text);
    var b := SpacesBefore(t[1..]);
    var w, r := d[..|word|], d[|word|..];
    assert t == "#" + t[1..] && t[1..] == b + d && d == w + r;
    SameLower(w, word);
    assert text == a + "#" + b + w + r;
    assert Marked(text, word, a, b, w, r);
  }

  lemma {:induction false} SameLower(w: string, word: string)
    requires IsWord(word) && |w| == |word|
    ensures SameLetters(w, word) <==> HasPrefixNoCase(w, word)
  {
  }

  lemma {:induction false} SaysDirective(text: string, word: string, a: string, b: string, w: string, r: string)
    requires IsWord(word) && Marked(text, word, a, b, w, r)
    ensures HasPrefixNoCase(Directive(text), word)
  {
    hide SkipWhitespace;
    var x := b + (w + r);
    assert text == a + ("#" + x) && ("#" + x)[0] == '#' && ("#" + x)[1..] == x;
    SkipSpaces(a, "#" + x);
    SameLower(w, word);
    assert w != "" && (w + r)[0] == w[0] && !IsSpace(w[0]);
    SkipSpaces(b, w + r);
    assert forall i :: 0 <= i < |word| ==> (w + r)[i] == w[i];
  }

  lemma {:induction false} DigitsRead(d: string, text: string)
    requires IsDigits(d) && (text == "" || !IsDigit(text[0]))
    ensures DigitsOf(d + text) == d && (d + text)[|d|..] == text
  {
    if d != "" {
      assert (d + text)[1..] == d[1..] + text;
      DigitsRead(d[1..], text);
    } else {
      assert d + text == text;
    }
  }

  /** After white space, neither a digit nor a sign with a digit. */
  predicate NoNumberAhead(text: string) {
    var v := SkipWhitespace(text);
    v == "" || !(IsDigit(v[0]) || ((v[0] == '+' || v[0] == '-') && |v| > 1 && IsDigit(v[1])))
  }

  lemma {:induction false} NumberRead(d: string, text: string)
    requires d != "" && IsDigits(d) && (text == "" || !IsDigit(text[0]))
    ensures var r := StrToL(d + text); r == Number(if Value(d) > LONG_MAX then LONG_MAX else Value(d), text, Value(d) > LONG_MAX)
  {
    hide SkipWhitespace, DigitsOf, Value;
    var s := d + text;
    assert s[0] == d[0] && IsDigit(s[0]);
    SkipSpaces("", s);
    assert "" + s == s;
    assert SkipWhitespace(s) == s;
    DigitsRead(d, text);
  }

  lemma {:induction false} NoNumberRead(text: string)
    requires NoNumberAhead(text)
    ensures StrToL(SkipWhitespace(text)).NoNumber? && DigitsOf(SkipWhitespace(text)) == "" && Directive(SkipWhitespace(text)) == Directive(text)
  {
    hide SkipWhitespace, DigitsOf;
    var v := SkipWhitespace(text);
    var a := SpacesBefore(text);
    SkipSpaces("", v);
    assert "" + v == v;
    NoDigits(v);
    if v != "" && (v[0] == '+' || v[0] == '-') {
      assert |v| > 1 ==> v[1..][0] == v[1];
      NoDigits(v[1..]);
    }
  }

  lemma {:induction false} NoDigits(s: string)
    ensures DigitsOf(s) == "" <==> s == "" || !IsDigit(s[0])
  {
  }

  // ---- Result lines ----

  function ResultText(negated: bool, w: string, d: string, text: string): string {
    (if negated then "not " else "") + "ok" + w + d + text
  }

  /** The status of a result: skip and todo count in letters of either case, and todo turns a result round. */
  ghost function StatusOf(negated: bool, text: string): Status {
    if Says(text, "skip") then Skip
    else if Says(text, "todo") then (if negated then Skip else Fail)
    else if negated then Fail else Pass
  }

  predicate IsResultText(negated: bool, w: string, d: string, text: string) {
    && Spaces(w) && IsDigits(d) && text != "" && text[|text| - 1] == '\n'
    && !Contains(ResultText(negated, w, d, text), "Bail out!")
    && if d == "" then w == "" && NoNumberAhead(text) else !IsDigit(text[0])
  }

  lemma {:induction false} AfterFound(s: string, t: string)
    ensures After(s, t).Some? ==> Contains(s, t)
  {
    if HasPrefix(s, t) {
      assert forall k :: 0 <= k < |t| ==> s[..|t|][k] == s[k];
      assert StandsAt(s, t, 0);
    } else if s != "" {
      AfterFound(s[1..], t);
      if i :| 0 <= i <= |s[1..]| && StandsAt(s[1..], t, i) { assert StandsAt(s, t, i + 1); }
    }
  }

  /** The number of a result line: the one it gives, when it fits in a long, or the next one. */
  function NumberOf(d: string, current: nat): nat
    requires IsDigits(d)
  {
    if d != "" && Value(d) <= LONG_MAX then Value(d) else current + 1
  }

  lemma {:induction false} ResultParts(negated: bool, w: string, d: string, text: string)
    ensures var s, t := ResultText(negated, w, d, text), "ok" + w + d + text;
            && (HasPrefix(s, "not ") <==> negated) && (if negated then s[4..] else s) == t
            && HasPrefix(t, "ok") && t[2..] == w + (d + text) && s[0] == if negated then 'n' else 'o'
  {
    var s, t := ResultText(negated, w, d, text), "ok" + w + d + text;
    assert s == if negated then "not " + t else t;
    assert !negated ==> s[0] == 'o';
    assert HasPrefix(s, "not ") ==> s[..4][0] == s[0];
  }

  lemma {:induction false} ResultRead(negated: bool, w: string, d: string, text: string, current: nat)
    requires IsResultText(negated, w, d, text)
    ensures ResultLine(ResultText(negated, w, d, text), current) == Result(NumberOf(d, current), StatusOf(negated, text))
  {
    hide Says, Directive, HasPrefixNoCase, StrToL, NoNumberAhead, Contains, HasPrefix, SkipWhitespace, ResultText, DigitsOf, Value;
    ResultParts(negated, w, d, text);
    SaysIs(text, "skip");
    SaysIs(text, "todo");
    NotBoth(text);
    if d != "" {
      assert (d + text)[0] == d[0] && !IsSpace(d[0]);
      SkipSpaces(w, d + text);
      NumberRead(d, text);
      DigitsRead(d, text);
    } else {
      assert w + (d + text) == text;
      NoNumberRead(text);
      assert SkipWhitespace(text)[0..] == SkipWhitespace(text);
    }
  }

  lemma {:induction false} NotBoth(text: string)
    ensures !(HasPrefixNoCase(Directive(text), "skip") && HasPrefixNoCase(Directive(text), "todo"))
  {
    var d := Directive(text);
    assert |d| > 0 && Lower(d[0]) == 's' ==> Lower(d[0]) != 't';
  }

  /** A line "ok" or "not ok", with a number or without one, records its status at that number or at the next one. */
  lemma {:induction false} ResultLines(negated: bool, w: string, d: string, text: string, st: State)
    requires IsResultText(negated, w, d, text)
    ensures CheckLine(ResultText(negated, w, d, text), st) ==
            Record(st, NumberOf(d, st.current), StatusOf(negated, text))
  {
    hide ResultLine, StatusOf, Record, NoNumberAhead, Contains, TestPlan, SkipWhitespace, HasPrefix;
    var s := ResultText(negated, w, d, text);
    AfterFound(s, "Bail out!");
    ResultRead(negated, w, d, text, st.current);
    ResultParts(negated, w, d, text);
    assert s[|s| - 1] == text[|text| - 1];
    PlanStarts(s);
  }

  lemma {:induction false} PlanStarts(s: string)
    ensures HasPrefix(s, "1..") ==> s[0] == '1'
  {
    if HasPrefix(s, "1..") { assert s[..3][0] == s[0]; }
  }

  /** The number can be recorded: it is in a plan that came first, or in the table of a trailing plan, and has no result yet. */
  predicate Free(st: State, number: int) {
    && number >= 1 && (st.plan == First ==> number <= st.count) && (st.plan == Final ==> number <= |st.results|)
    && (number <= |st.results| ==> st.results[number - 1] == Invalid)
  }

  /** Recording: a free number gets its status and is counted; any other aborts the set, and nothing is counted. */
  lemma {:induction false} RecordExactly(st: State, number: int, status: Status)
    requires Accounted(st) && !st.aborted && status != Invalid
    ensures var next := Record(st, number, status);
            && (next.aborted <==> !Free(st, number))
            && (Free(st, number) ==> next.current == number <= |next.results| && next.results[number - 1] == status)
            && (Free(st, number) ==> next.count == if (st.plan == Init || st.plan == Pending) && number > st.count then number else st.count)
            && (Free(st, number) ==> next.plan == if st.plan == Init then Pending else st.plan)
            && (forall i :: 0 <= i < |st.results| && i != number - 1 ==> i < |next.results| && next.results[i] == st.results[i])
            && next.passed == st.passed + (if Free(st, number) && status == Pass then 1 else 0)
            && next.failed == st.failed + (if Free(st, number) && status == Fail then 1 else 0)
            && next.skipped == st.skipped + (if Free(st, number) && status == Skip then 1 else 0)
  {
    hide Count, Padded;
    if number > 0 { PaddedKeeps(st.results, GrownSize(|st.results|, number), Pass); }
    var next := Record(st, number, status);
    if number > 0 && !(number > st.count && st.plan == First) {
      var g := Grown(st, number);
      assert forall i :: 0 <= i < |st.results| ==> i < |g.results| && g.results[i] == st.results[i] by { GrownKeeps(st, number); }
      assert number <= |g.results| && number > |st.results| ==> g.results[number - 1] == Invalid by { GrownKeeps(st, number); }
    }
  }

  lemma {:induction false} GrownKeeps(st: State, number: nat)
    requires number > 0
    ensures var g := Grown(st, number);
            (forall i :: 0 <= i < |st.results| ==> i < |g.results| && g.results[i] == st.results[i])
            && forall i :: |st.results| <= i < |g.results| ==> g.results[i] == Invalid
  {
    hide Padded;
    var n := GrownSize(|st.results|, number);
    PaddedKeeps(st.results, n, Pass);
    assert forall i :: 0 <= i < |st.results| ==> Padded(st.results, n)[..|st.results|][i] == Padded(st.results, n)[i];
  }

  // ---- The other lines ----

  lemma {:induction false} AfterStands(s: string, t: string) returns (i: nat)
    requires After(s, t).Some?
    ensures StandsAt(s, t, i) && After(s, t).value == s[i + |t|..]
    decreases |s|
  {
    if HasPrefix(s, t) {
      i := 0;
      forall k | 0 <= k < |t| ensures s[0 + k] == t[k] { assert s[..|t|][k] == t[k]; }
    } else {
      var j := AfterStands(s[1..], t);
      i := j + 1;
      forall k | 0 <= k < |t| ensures s[i + k] == t[k] { assert s[1..][j + k] == t[k]; }
    }
  }

  lemma {:induction false} AfterNone(s: string, t: string)
    requires After(s, t).None?
    ensures !Contains(s, t)
  {
    if i :| 0 <= i <= |s| && StandsAt(s, t, i) {
      StandsAfter(s, t, i);
    }
  }

  lemma {:induction false} StandsAfter(s: string, t: string, i: nat)
    ensures StandsAt(s, t, i) ==> After(s, t).Some?
    decreases |s|
  {
    if StandsAt(s, t, i) {
      if i == 0 {
        forall k | 0 <= k < |t| ensures s[..|t|][k] == t[k] { assert s[0 + k] == t[k]; }
      } else if s != "" {
        forall k | 0 <= k < |t| ensures s[1..][i - 1 + k] == t[k] { assert s[i + k] == t[k]; }
        StandsAfter(s[1..], t, i - 1);
      }
    }
  }

  /** A line that says "Bail out!" aborts, with a report exactly when something but white space follows. */
  lemma {:induction false} BailLines(line: string, st: State) returns (i: nat)
    requires Contains(line, "Bail out!")
    ensures StandsAt(line, "Bail out!", i)
    ensures CheckLine(line, st) == st.(aborted := true, reported := st.reported || !Spaces(line[i + 9..]))
  {
    hide Contains, SkipWhitespace;
    if After(line, "Bail out!").None? { AfterNone(line, "Bail out!"); }
    i := AfterStands(line, "Bail out!");
    OnlySpaces(line[i + 9..]);
  }

  lemma {:induction false} OnlySpaces(s: string)
    ensures SkipWhitespace(s) == "" <==> Spaces(s)
  {
    if s != "" {
      OnlySpaces(s[1..]);
      assert forall i :: 1 <= i < |s| ==> s[1..][i - 1] == s[i];
    }
  }

  /** Without a bail out, a line that is too long for its newline, a comment, and a line that starts neither with a digit nor with "ok" or
      "not ok" change nothing. */
  lemma {:induction false} OtherLines(line: string, st: State)
    requires !Contains(line, "Bail out!")
    requires || line == "" || line[|line| - 1] != '\n' || line[0] == '#'
             || (!IsDigit(line[0]) && !HasPrefix(line, "ok") && !HasPrefix(line, "not ok"))
    ensures CheckLine(line, st) == st
  {
    hide Contains, SkipWhitespace, TestPlan, Record, StrToL, Directive;
    AfterFound(line, "Bail out!");
    PlanStarts(line);
    if HasPrefix(line, "not ") && HasPrefix(line[4..], "ok") { assert line[..6] == line[..4] + line[4..][..2]; }
  }

  // ---- Plan lines ----

  function PlanText(d: string, text: string): string { "1.." + d + text }

  predicate IsPlanText(d: string, text: string) {
    d != "" && IsDigits(d) && text != "" && text[|text| - 1] == '\n' && !IsDigit(text[0]) && !Contains(PlanText(d, text), "Bail out!")
  }

  lemma {:induction false} PlanRead(d: string, text: string)
    requires IsPlanText(d, text)
    ensures var n := Value(d);
            Announce(PlanText(d, text)) == if n > LONG_MAX then Tests(LONG_MAX) else if n > 0 then Tests(n) else if Says(text, "skip") then AllSkipped else NoCount
  {
    hide Says, Directive, HasPrefixNoCase, StrToL, Contains, SkipWhitespace, Value;
    var s := PlanText(d, text);
    assert s[0] == '1' && "" + s == s && s == "1.." + (d + text);
    SkipSpaces("", s);
    assert SkipWhitespace(s) == s && s[..3] == "1.." && s[3..] == d + text;
    NumberRead(d, text);
    SaysIs(text, "skip");
  }

  /** A plan 1..n: before any result it sets up n entries, after some it can only extend them, and a second plan or a plan of no tests
      aborts, unless it says that all tests are skipped. */
  lemma {:induction false} PlanLines(d: string, text: string, st: State)
    requires Accounted(st) && !st.aborted && IsPlanText(d, text) && Value(d) <= LONG_MAX
    ensures var n, next := Value(d), CheckLine(PlanText(d, text), st);
            && (st.plan == First || st.plan == Final ==> next == st.Abort())
            && (st.plan == Init || st.plan == Pending ==>
                 if n == 0 && Says(text, "skip") then next.allSkipped && next.aborted && next.count == next.passed == next.skipped == next.failed == 0
                 else if n == 0 || n < st.count then next == st.Abort()
                 else next == st.(plan := next.plan, count := n, results := next.results) && next.plan == (if st.plan == Init then First else Final)
                      && |next.results| == (if n < |st.results| then |st.results| else n) && next.results[..|st.results|] == st.results
                      && forall i :: |st.results| <= i < |next.results| ==> next.results[i] == Invalid)
  {
    hide Announce, Says, Contains, Value, Padded, Count, SkipWhitespace;
    var s, n := PlanText(d, text), Value(d);
    AfterFound(s, "Bail out!");
    PlanRead(d, text);
    assert s[|s| - 1] == text[|text| - 1] && s[0] == '1' && s[..3] == "1..";
    PaddedKeeps(st.results, n, Pass);
  }

  // ---- A recorded failure ----

  lemma {:induction false} StepFailed(line: string, st: State)
    requires Accounted(st) && !st.aborted && st.failed > 0
    ensures var next := CheckLine(line, st); next.allSkipped || next.failed > 0
  {
    hide CheckLine, IsResult, Record, ResultLine, Announce, Padded, Count;
    StepKinds(line, st);
    if IsResult(line, st) {
      RecordExactly(st, ResultLine(line, st.current).number, ResultLine(line, st.current).status);
    }
  }

  lemma {:induction false} FailedStays(lines: seq<string>, st: State)
    requires Accounted(st) && (st.allSkipped || st.failed > 0)
    ensures var end := RunLines(lines, st); end.allSkipped || end.failed > 0
  {
    hide CheckLine, Counted, NothingBeyond;
    if lines != [] && !st.aborted {
      StepFailed(lines[0], st);
      CheckAccounted(lines[0], st);
      FailedStays(lines[1..], CheckLine(lines[0], st));
    }
  }

  lemma {:induction false} RunConcat(a: seq<string>, b: seq<string>, st: State)
    ensures RunLines(a + b, st) == RunLines(b, RunLines(a, st))
  {
    hide CheckLine;
    if a == [] {
      assert a + b == b;
    } else if !st.aborted {
      assert (a + b)[1..] == a[1..] + b;
      RunConcat(a[1..], b, CheckLine(a[0], st));
    }
  }

  /** After a "not ok" line that is recorded, without skip or todo, the set passes exactly when a later plan line says that all tests
      are skipped. */
  lemma {:induction false} RecordedFailure(before: seq<string>, w: string, d: string, text: string, rest: seq<string>, exit: Exit)
    requires IsResultText(true, w, d, text) && !Says(text, "skip") && !Says(text, "todo")
    requires var st := RunLines(before, NEW);
             !st.aborted && Free(st, NumberOf(d, st.current))
    ensures var lines := before + ([ResultText(true, w, d, text)] + rest); Succeeds(Output(lines, exit)) <==> RunLines(lines, NEW).allSkipped
  {
    NewAccounted();
    hide CheckLine, RunLines, Says, Contains, NoNumberAhead, ResultText, Record, Free, StandingOf, Succeeds, Accounted;
    var line := ResultText(true, w, d, text);
    var st := RunLines(before, NEW);
    RunAccounted(before, NEW);
    RunConcat(before, [line] + rest, NEW);
    RunOn(line, rest, st);
    var number := NumberOf(d, st.current);
    ResultLines(true, w, d, text, st);
    RecordExactly(st, number, Fail);
    CheckAccounted(line, st);
    FailedStays(rest, CheckLine(line, st));
    var lines := before + ([line] + rest);
    RunAccounted(lines, NEW);
    RunReported(lines, NEW);
    VerdictsExactly(Output(lines, exit));
    StandsFailed(RunLines(lines, NEW), exit);
  }

  /** So a failed test is forgiven by a plan that comes last and skips all tests: the set and its batch pass, however it exits. */
  lemma {:induction false} SkippedAfterFailure(exit: Exit)
    ensures var o := Output([ResultText(true, " ", "1", "\n"), PlanText("0", " # skip\n")], exit);
            o.lines == ["not ok 1\n", "1..0 # skip\n"] && Succeeds(o) && BatchSucceeds([o])
  {
    NewAccounted();
    NothingSaid();
    SkipSaid();
    hide CheckLine, Says, Contains, NoNumberAhead, Value, StandingOf, Succeeds, BatchSucceeds, Clean, RunLines, Missing;
    var a, b := ResultText(true, " ", "1", "\n"), PlanText("0", " # skip\n");
    assert a == "not ok 1\n" && b == "1..0 # skip\n";
    var o := Output([a, b], exit);
    ResultLines(true, " ", "1", "\n", NEW);
    var st := CheckLine(a, NEW);
    RecordExactly(NEW, 1, Fail);
    CheckAccounted(a, NEW);
    PlanLines("0", " # skip\n", st);
    RunOn(a, [b], NEW);
    RunOn(b, [], st);
    assert [a] + [b] == [a, b] && [b] + [] == [b];
    RunNone(CheckLine(b, st));
    RunAccounted(o.lines, NEW);
    SkippedIsGood(RunLines(o.lines, NEW), exit);
    VerdictsExactly(o);
    OneOutput(o);
  }

  lemma {:induction false} SkippedIsGood(st: State, exit: Exit)
    requires st.count <= |st.results| && st.allSkipped
    ensures StandingOf(st, exit) == Good
  {
  }

  lemma {:induction false} NoBail(s: string)
    requires 'B' !in s
    ensures !Contains(s, "Bail out!")
  {
    forall i | 0 <= i <= |s| ensures !StandsAt(s, "Bail out!", i) { BailStarts(s, i); }
  }

  lemma {:induction false} BailStarts(s: string, i: nat)
    ensures StandsAt(s, "Bail out!", i) ==> 'B' in s
  {
    if StandsAt(s, "Bail out!", i) { assert s[i + 0] == "Bail out!"[0]; }
  }

  lemma {:induction false} OneDigit(d: char)
    requires '0' <= d <= '9'
    ensures Value([d]) == d as int - '0' as int
  {
    assert [d][..0] == "" && Value("") == 0;
  }

  lemma {:induction false} NothingSaid()
    ensures IsResultText(true, " ", "1", "\n") && !Says("\n", "skip") && !Says("\n", "todo") && Value("1") == 1
  {
    hide Contains, Says;
    assert "\n"[1..] == "" && Directive("\n") == "";
    SaysIs("\n", "skip");
    SaysIs("\n", "todo");
    OneDigit('1');
    assert ResultText(true, " ", "1", "\n") == "not ok 1\n";
    NoBail("not ok 1\n");
  }

  lemma {:induction false} SkipSaid()
    ensures IsPlanText("0", " # skip\n") && Says(" # skip\n", "skip") && Value("0") == 0
  {
    hide Contains;
    assert " " + "#" + " " + "skip" + "\n" == " # skip\n";
    assert Marked(" # skip\n", "skip", " ", " ", "skip", "\n");
    OneDigit('0');
    assert PlanText("0", " # skip\n") == "1..0 # skip\n";
    NoBail("1..0 # skip\n");
  }

  lemma {:induction false} NewAccounted()
    ensures Accounted(NEW) && Reported(NEW)
  {
  }

  lemma {:induction false} StandsFailed(st: State, exit: Exit)
    requires st.count <= |st.results| && (st.allSkipped || st.failed > 0)
    ensures StandingOf(st, exit) in {Good, BailOnly} <==> st.allSkipped
  {
    hide Missing;
  }
}
