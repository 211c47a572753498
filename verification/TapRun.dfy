// tools/tests/runtests.c: struct testset and the functions that change it.

module TapRun {
  import opened Common
  import opened Strings
  import opened Tap

  class TestSet {
    var plan: Plan
    var count: nat
    var current: nat
    var passed: nat
    var failed: nat
    var skipped: nat
    var results: array<Status>
    var aborted: bool
    var reported: bool
    var allSkipped: bool
    ghost var stray: bool

    ghost function View(): State
      reads this, results
    {
      State(plan, count, current, passed, failed, skipped, results[..], aborted, reported, allSkipped, stray)
    }

    constructor ()
      ensures View() == NEW && fresh(results)
    {
      plan, count, current, passed, failed, skipped := Init, 0, 0, 0, 0, 0;
      results := new Status[0];
      aborted, reported, allSkipped, stray := false, false, false, false;
    }

    /** xrealloc, and the loop that marks the new entries. */
    method Resize(n: nat)
      modifies this`results
      ensures View() == old(View()).(results := Padded(old(results[..]), n))
      ensures results == old(results) || fresh(results)
    {
      if n <= results.Length { return; }
      var was := results;
      var table := new Status[n];
      for i := 0 to was.Length
        invariant table[..i] == was[..i]
      {
        table[i] := was[i];
      }
      for i := was.Length to n
        invariant table[..i] == Padded(was[..], i)
      {
        table[i] := Invalid;
        PaddedNext(was[..], i);
        assert table[..i + 1] == table[..i] + [Invalid];
      }
      assert table[..n] == table[..];
      results := table;
    }

    /** test_plan: whether the test goes on. */
    method ReadPlan(line: string) returns (go: bool)
      modifies this, results
      ensures View() == TestPlan(line, old(View())) && (results == old(results) || fresh(results))
      ensures go <==> Announce(line).Tests? && !(old(plan) == Pending && Announce(line).n < old(count))
    {
      hide Announce;
      match Announce(line) {
        case AllSkipped =>
          allSkipped, aborted := true, true;
          count, passed, skipped, failed := 0, 0, 0, 0;
          return false;
        case NoCount =>
          aborted, reported := true, true;
          return false;
        case Tests(n) =>
          assert results.Length == 0 <==> results[..] == [];
          if plan == Init && results.Length == 0 {
            Resize(n);
            count, plan := n, First;
          } else if plan == Pending {
            if n < count {
              aborted, reported := true, true;
              return false;
            }
            Resize(n);
            count, plan := n, Final;
          }
          return true;
      }
    }

    /** test_checkline. */
    method ReadLine(line: string)
      modifies this, results
      ensures View() == CheckLine(line, old(View())) && (results == old(results) || fresh(results))
    {
      hide Announce, ResultLine, After, Padded, TestPlan, SkipWhitespace;
      var bail := After(line, "Bail out!");
      if bail.Some? {
        if SkipWhitespace(bail.value) != "" { reported := true; }
        aborted := true;
        return;
      }
      if line == "" || line[|line| - 1] != '\n' || line[0] == '#' { return; }
      if plan == Init && IsDigit(line[0]) {
        var go := ReadPlan(line);
        NotAResult(line, current);
        if !go { return; }
      } else if HasPrefix(line, "1..") {
        if plan == Init || plan == Pending {
          var go := ReadPlan(line);
          NotAResult(line, current);
          if !go { return; }
        } else {
          aborted, reported := true, true;
          return;
        }
      }
      var r := ResultLine(line, current);
      if r.NoResult? { return; }
      ReadResult(r.number, r.status);
    }

    method ReadResult(number: int, status: Status)
      modifies this, results
      ensures View() == Record(old(View()), number, status) && (results == old(results) || fresh(results))
    {
      hide Grown, Tally;
      if number <= 0 || (number > count && plan == First) {
        aborted, reported := true, true;
        return;
      }
      Grow(number);
      GrownKinds(old(View()), number);
      if number > results.Length {
        stray, aborted := true, true;
        return;
      }
      if results[number - 1] != Invalid {
        aborted, reported := true, true;
        return;
      }
      Store(number, status);
    }

    /** While the plan is not known, the count and the table follow the number. */
    method Grow(number: nat)
      modifies this, results
      ensures View() == Grown(old(View()), number) && (results == old(results) || fresh(results))
    {
      hide Padded;
      if plan == Init || plan == Pending {
        plan := Pending;
        if number > count { count := number; }
        Resize(GrownSize(results.Length, number));
      }
    }

    method Store(number: nat, status: Status)
      requires 1 <= number <= results.Length
      modifies this, results
      ensures View() == Tally(old(View()), number, status) && results == old(results)
    {
      match status {
        case Pass => passed := passed + 1;
        case Fail => failed := failed + 1;
        case Skip => skipped := skipped + 1;
        case Invalid =>
      }
      current := number;
      results[number - 1] := status;
    }

    /** test_run: every line until the set is aborted, and then the missing tests become failures. */
    method Run(o: Output) returns (ok: bool)
      requires View() == NEW
      modifies this, results
      ensures View() == Outcome(o)
      ensures ok == Succeeds(o)
    {
      hide RunLines, FillMissing, Missing, Count, StandingOf;
      ReadLines(o.lines);
      NewAccounted();
      RunAccounted(o.lines, NEW);
      if plan == Init { aborted := true; }
      if allSkipped { aborted := false; }
      assert View() == Ended(RunLines(o.lines, NEW));
      ok := Analyze(o.exit);
      ok := Fill(ok);
    }

    method ReadLines(lines: seq<string>)
      modifies this, results
      ensures View() == RunLines(lines, old(View())) && (results == old(results) || fresh(results))
    {
      hide CheckLine;
      var i := 0;
      while i < |lines| && !aborted
        invariant 0 <= i <= |lines| && (results == old(results) || fresh(results))
        invariant RunLines(lines[i..], View()) == RunLines(lines, old(View()))
      {
        assert lines[i..][1..] == lines[i + 1..];
        ReadLine(lines[i]);
        i := i + 1;
      }
    }

    /** test_analyze. */
    method Analyze(exit: Exit) returns (ok: bool)
      modifies this`aborted
      ensures (View(), ok) == Analyzed(old(View()), exit)
    {
      if reported { return false; }
      if allSkipped { return true; }
      if exit != Exited(0) { return false; }
      if plan != First && plan != Final {
        aborted := true;
        return false;
      }
      return failed == 0;
    }

    method Fill(was: bool) returns (ok: bool)
      requires count <= results.Length
      modifies this`failed, results
      ensures View() == old(View()).(failed := old(failed) + Missing(old(results[..])[..count]), results := FillMissing(old(results[..]), count))
      ensures ok <==> was && Missing(old(results[..])[..count]) == 0
    {
      hide Count;
      ok := was;
      ghost var before := results[..];
      for i := 0 to count
        invariant count == old(count) && count <= results.Length && results == old(results)
        invariant results[..] == FillMissing(before, i)
        invariant failed == old(failed) + Missing(before[..i])
        invariant ok <==> was && Missing(before[..i]) == 0
        invariant View() == old(View()).(failed := failed, results := results[..])
      {
        assert before[..i + 1] == before[..i] + [before[i]];
        CountMore(before[..i], before[i], Invalid);
        if results[i] == Invalid {
          failed := failed + 1;
          results[i] := Fail;
          ok := false;
        }
      }
    }
  }

  lemma {:induction false} PaddedNext(s: seq<Status>, n: nat)
    requires n >= |s|
    ensures Padded(s, n + 1) == Padded(s, n) + [Invalid]
    decreases n - |s|
  {
    if n > |s| { PaddedNext(s + [Invalid], n); }
  }

  /** A plan line starts with a digit, so it is no result line. */
  lemma {:induction false} NotAResult(line: string, current: nat)
    requires line != "" && IsDigit(line[0])
    ensures ResultLine(line, current).NoResult?
  {
  }

  /** test_batch: each set in turn, the totals and the list of failed sets; the total leaves out the skipped tests. */
  method TestBatch(outputs: seq<Output>) returns (t: Totals, failures: seq<Output>, passed: bool)
    ensures t == Totalled(outputs).(total := Totalled(outputs).total - Totalled(outputs).skipped)
    ensures failures == Failing(outputs)
    ensures passed <==> forall o :: o in outputs ==> Clean(o)
    ensures (passed <==> failures == []) <==> Has(outputs, Bad) || (Has(outputs, BailOnly) <==> Has(outputs, ExitOnly))
    ensures (forall o :: o in outputs ==> KeptPlan(o)) ==> t.total == t.passed + t.failed
  {
    hide Outcome, KeptPlan, Clean, Succeeds, Has;
    t, failures := Totals(0, 0, 0, 0, 0), [];
    for i := 0 to |outputs|
      invariant t == Totalled(outputs[..i]) && failures == Failing(outputs[..i])
    {
      assert outputs[..i + 1][..i] == outputs[..i];
      var ts := new TestSet();
      var ok := ts.Run(outputs[i]);
      if !ok { failures := failures + [outputs[i]]; }
      var all := if ts.allSkipped then 1 else 0;
      t := Totals(if ts.aborted then t.aborted + 1 else t.aborted, t.total + ts.count + all, t.passed + ts.passed, t.skipped + ts.skipped + all, t.failed + ts.failed);
    }
    assert outputs[..|outputs|] == outputs;
    BatchPasses(outputs);
    BatchAgrees(outputs);
    if forall o :: o in outputs ==> KeptPlan(o) { BatchConserved(outputs); }
    t := t.(total := t.total - t.skipped);
    passed := t.failed == 0 && t.aborted == 0;
  }
}
