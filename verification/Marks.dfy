/** Marking one program: the pass over its test cases and the rounded, proportional mark
    (backend/app/services/coding.py). Marks are held in exact hundredths. */
module Marks {
  import opened OutputComparison

  datatype TestCase = TestCase(position: nat, stdin: string, expectedStdout: string, hidden: bool, weight: nat)

  /** How one sandboxed run ended. Anything may come back for any case. */
  datatype Outcome = Completed | Failed | TimedOut | OutOfMemory | Unavailable
  datatype Execution = Execution(outcome: Outcome, stdout: string, stderr: string, durationMs: nat)

  datatype CaseReport = CaseReport(position: nat, hidden: bool, passed: bool, outcome: Outcome,
                                   durationMs: nat, stdout: string, stderr: string)

  datatype Report = Report(marks: nat, passed: nat, total: nat, cases: seq<CaseReport>, incomplete: bool)

  predicate Passes(test: TestCase, run: Execution) {
    run.outcome == Completed && Canonical(run.stdout) == Canonical(test.expectedStdout)
  }

  function TotalWeight(tests: seq<TestCase>): nat {
    if tests == [] then 0 else TotalWeight(tests[..|tests| - 1]) + tests[|tests| - 1].weight
  }

  /** The weight of the cases that passed. */
  function Earned(tests: seq<TestCase>, runs: seq<Execution>): nat
    requires |tests| == |runs|
  {
    if tests == [] then 0
    else
      var last := |tests| - 1;
      Earned(tests[..last], runs[..last]) + if Passes(tests[last], runs[last]) then tests[last].weight else 0
  }

  function CountPassed(cases: seq<CaseReport>): nat {
    if cases == [] then 0
    else CountPassed(cases[..|cases| - 1]) + if cases[|cases| - 1].passed then 1 else 0
  }

  /** Rounds a quotient `q` with remainder `r` to the nearest integer, a tie going to the even one. */
  function Nearest(q: nat, r: nat, den: nat): nat {
    if 2 * r < den then q
    else if 2 * r > den then q + 1
    else if q % 2 == 0 then q else q + 1
  }

  function RoundHalfEven(num: nat, den: nat): nat
    requires den > 0
  {
    Nearest(num / den, num % den, den)
  }

  /** `round(marks * earned / total_weight, 2)`, in hundredths; nothing when no case weighs anything. */
  function RoundedMarks(marks: nat, earned: nat, total: nat): nat {
    if total == 0 then 0 else RoundHalfEven(100 * marks * earned, total)
  }

  /** The record kept of one case. A hidden case's output is never echoed back. */
  function Reported(test: TestCase, run: Execution): CaseReport {
    CaseReport(test.position, test.hidden, Passes(test, run), run.outcome, run.durationMs,
               if test.hidden then "" else run.stdout, if test.hidden then "" else run.stderr)
  }

  method SumWeights(tests: seq<TestCase>) returns (total: nat)
    ensures total == TotalWeight(tests)
  {
    total := 0;
    for i := 0 to |tests|
      invariant total == TotalWeight(tests[..i])
    {
      assert tests[..i + 1][..i] == tests[..i];
      total := total + tests[i].weight;
    }
    assert tests[..|tests|] == tests;
  }

  method TallyPassed(cases: seq<CaseReport>) returns (count: nat)
    ensures count == CountPassed(cases)
  {
    count := 0;
    for i := 0 to |cases|
      invariant count == CountPassed(cases[..i])
    {
      assert cases[..i + 1][..i] == cases[..i];
      if cases[i].passed { count := count + 1; }
    }
    assert cases[..|cases|] == cases;
  }

  predicate AnyUnavailable(runs: seq<Execution>) {
    exists i :: 0 <= i < |runs| && runs[i].outcome == Unavailable
  }

  lemma {:induction false} AnyUnavailableNext(runs: seq<Execution>, i: nat)
    requires i < |runs|
    ensures AnyUnavailable(runs[..i + 1]) <==> AnyUnavailable(runs[..i]) || runs[i].outcome == Unavailable
  {
    assert runs[..i + 1] == runs[..i] + [runs[i]];
    if AnyUnavailable(runs[..i]) {
      var k :| 0 <= k < i && runs[..i][k].outcome == Unavailable;
      assert runs[..i + 1][k].outcome == Unavailable;
    }
    if runs[i].outcome == Unavailable { assert runs[..i + 1][i].outcome == Unavailable; }
  }

  lemma {:induction false} EarnedNext(tests: seq<TestCase>, runs: seq<Execution>, i: nat)
    requires |tests| == |runs| && i < |tests|
    ensures Earned(tests[..i + 1], runs[..i + 1])
         == Earned(tests[..i], runs[..i]) + if Passes(tests[i], runs[i]) then tests[i].weight else 0
  {
    assert tests[..i + 1][..i] == tests[..i] && runs[..i + 1][..i] == runs[..i];
  }

  method RunCase(test: TestCase, execution: Execution) returns (report: CaseReport)
    ensures report == Reported(test, execution)
  {
    var mine := Normalise(execution.stdout);
    var expected := Normalise(test.expectedStdout);
    var passed := execution.outcome == Completed && mine == expected;
    report := CaseReport(test.position, test.hidden, passed, execution.outcome, execution.durationMs,
      if !test.hidden then execution.stdout else "", if !test.hidden then execution.stderr else "");
  }

  /** The loop over the cases. */
  method RunCases(tests: seq<TestCase>, runs: seq<Execution>)
    returns (cases: seq<CaseReport>, earned: nat, unavailable: bool)
    requires |runs| == |tests|
    ensures |cases| == |tests|
    ensures forall i :: 0 <= i < |tests| ==> cases[i] == Reported(tests[i], runs[i])
    ensures earned == Earned(tests, runs)
    ensures unavailable == AnyUnavailable(runs)
  {
    cases, earned, unavailable := [], 0, false;
    assert Earned(tests[..0], runs[..0]) == 0 && !AnyUnavailable(runs[..0]);
    hide Earned, AnyUnavailable;
    for i := 0 to |tests|
      invariant |cases| == i
      invariant earned == Earned(tests[..i], runs[..i])
      invariant unavailable == AnyUnavailable(runs[..i])
      invariant forall k :: 0 <= k < i ==> cases[k] == Reported(tests[k], runs[k])
    {
      var test, execution := tests[i], runs[i];
      if execution.outcome == Unavailable {
        unavailable := true;
      }
      var report := RunCase(test, execution);
      EarnedNext(tests, runs, i);
      AnyUnavailableNext(runs, i);
      if report.passed {
        earned := earned + test.weight;
      }
      cases := cases + [report];
    }
    assert runs[..|tests|] == runs && tests[..|tests|] == tests;
  }

  method RunAnswer(questionMarks: nat, tests: seq<TestCase>, runs: seq<Execution>) returns (report: Report)
    requires |runs| == |tests|
    ensures report.marks == RoundedMarks(questionMarks, Earned(tests, runs), TotalWeight(tests))
    ensures report.total == |report.cases| == |tests|
    ensures report.passed == CountPassed(report.cases)
    ensures forall i :: 0 <= i < |tests| ==> report.cases[i] == Reported(tests[i], runs[i])
    ensures report.incomplete <==> AnyUnavailable(runs)
  {
    var totalWeight := SumWeights(tests);
    var cases, earned, unavailable := RunCases(tests, runs);
    var passedCount := TallyPassed(cases);
    report := Report(RoundedMarks(questionMarks, earned, totalWeight), passedCount, |cases|, cases, unavailable);
  }

  // ---- rounding ----

  lemma {:induction false} MulMonotone(k: nat, a: nat, b: nat)
    requires a <= b
    ensures k * a <= k * b
  {
    assert k * b == k * a + k * (b - a);
  }

  lemma {:induction false} MulGap(a: nat, b: nat, den: nat)
    requires a < b
    ensures a * den + den <= b * den
  {
    MulMonotone(den, a + 1, b);
    assert den * (a + 1) == a * den + den;
  }

  /** Quotients and remainders are ordered the way the numbers are. */
  lemma {:induction false} QuotientsOrdered(q: nat, r: nat, p: nat, s: nat, den: nat)
    requires r < den && s < den && q * den + r <= p * den + s
    ensures q < p || (q == p && r <= s)
  {
    if p < q { MulGap(p, q, den); }
  }

  lemma {:induction false} Divide(num: nat, den: nat) returns (q: nat, r: nat)
    requires den > 0
    ensures num == q * den + r && r < den
    ensures RoundHalfEven(num, den) == Nearest(q, r, den)
  {
    q, r := num / den, num % den;
  }

  lemma {:induction false} RoundAs(num: nat, q: nat, r: nat, den: nat)
    requires r < den && num == q * den + r
    ensures RoundHalfEven(num, den) == Nearest(q, r, den)
  {
    var p, s := Divide(num, den);
    QuotientsOrdered(q, r, p, s, den);
    QuotientsOrdered(p, s, q, r, den);
  }

  lemma {:induction false} RoundMonotone(a: nat, b: nat, den: nat)
    requires den > 0 && a <= b
    ensures RoundHalfEven(a, den) <= RoundHalfEven(b, den)
  {
    var q, r := Divide(a, den);
    var p, s := Divide(b, den);
    QuotientsOrdered(q, r, p, s, den);
  }

  lemma {:induction false} RoundExact(n: nat, den: nat)
    requires den > 0
    ensures RoundHalfEven(n * den, den) == n
  {
    RoundAs(n * den, n, 0, den);
  }

  lemma {:induction false} ShortByOne(full: nat, den: nat)
    requires full * den > 0
    ensures full >= 1 && (full - 1) * den == full * den - den
  {
  }

  /** Falling short of an even whole number by `d / den` still rounds up to it exactly when
      the shortfall is at most one half. */
  lemma {:induction false} RoundShortfall(full: nat, d: nat, den: nat)
    requires den > 0 && full % 2 == 0 && d <= full * den
    ensures RoundHalfEven(full * den - d, den) == full <==> 2 * d <= den
  {
    if d == 0 {
      RoundExact(full, den);
    } else if d <= den {
      ShortByOne(full, den);
      RoundAs(full * den - d, full - 1, den - d, den);
    } else {
      ShortByOne(full, den);
      RoundMonotone(full * den - d, (full - 1) * den, den);
      RoundExact(full - 1, den);
    }
  }

  lemma {:induction false} RoundedMonotone(marks: nat, worse: nat, better: nat, total: nat)
    requires worse <= better
    ensures RoundedMarks(marks, worse, total) <= RoundedMarks(marks, better, total)
  {
    MulMonotone(100 * marks, worse, better);
    if total > 0 { RoundMonotone(100 * marks * worse, 100 * marks * better, total); }
  }

  /** The missed share of the weight is worth at most half a hundredth of a mark. */
  predicate Negligible(marks: nat, missed: nat, total: nat) {
    200 * marks * missed <= total
  }

  lemma {:induction false} NegligibleIff(marks: nat, missed: nat, total: nat)
    requires total < 200 * marks
    ensures Negligible(marks, missed, total) <==> missed == 0
  {
    if missed >= 1 { MulMonotone(200 * marks, 1, missed); }
  }

  lemma {:induction false} RoundedFullIff(marks: nat, earned: nat, missed: nat)
    requires earned + missed > 0
    ensures RoundedMarks(marks, earned, earned + missed) == 100 * marks <==> Negligible(marks, missed, earned + missed)
  {
    var total, d := earned + missed, 100 * marks * missed;
    assert 100 * marks * total == 100 * marks * earned + d;
    assert 200 * marks * missed == 2 * d;
    MulMonotone(100 * marks, missed, total);
    RoundShortfall(100 * marks, d, total);
  }

  // ---- what a mark can be ----

  lemma {:induction false} EarnedWithinTotal(tests: seq<TestCase>, runs: seq<Execution>)
    requires |tests| == |runs|
    ensures Earned(tests, runs) <= TotalWeight(tests)
  {
    if tests != [] {
      var last := |tests| - 1;
      EarnedWithinTotal(tests[..last], runs[..last]);
    }
  }

  /** No program earns more than the question is worth. */
  lemma {:induction false} MarksWithinQuestion(marks: nat, tests: seq<TestCase>, runs: seq<Execution>)
    requires |tests| == |runs|
    ensures RoundedMarks(marks, Earned(tests, runs), TotalWeight(tests)) <= 100 * marks
  {
    EarnedWithinTotal(tests, runs);
    var total := TotalWeight(tests);
    RoundedMonotone(marks, Earned(tests, runs), total, total);
    if total > 0 { RoundExact(100 * marks, total); }
  }

  lemma {:induction false} EarnedMonotone(tests: seq<TestCase>, worse: seq<Execution>, better: seq<Execution>)
    requires |tests| == |worse| == |better|
    requires forall i :: 0 <= i < |tests| && Passes(tests[i], worse[i]) ==> Passes(tests[i], better[i])
    ensures Earned(tests, worse) <= Earned(tests, better)
  {
    if tests != [] {
      var last := |tests| - 1;
      EarnedMonotone(tests[..last], worse[..last], better[..last]);
    }
  }

  /** Passing more cases never lowers a mark. */
  lemma {:induction false} MarksMonotone(marks: nat, tests: seq<TestCase>, worse: seq<Execution>, better: seq<Execution>)
    requires |tests| == |worse| == |better|
    requires forall i :: 0 <= i < |tests| && Passes(tests[i], worse[i]) ==> Passes(tests[i], better[i])
    ensures RoundedMarks(marks, Earned(tests, worse), TotalWeight(tests))
         <= RoundedMarks(marks, Earned(tests, better), TotalWeight(tests))
  {
    EarnedMonotone(tests, worse, better);
    RoundedMonotone(marks, Earned(tests, worse), Earned(tests, better), TotalWeight(tests));
  }

  predicate AllPass(tests: seq<TestCase>, runs: seq<Execution>)
    requires |tests| == |runs|
  {
    forall i :: 0 <= i < |tests| ==> Passes(tests[i], runs[i])
  }

  lemma {:induction false} AllPassNext(tests: seq<TestCase>, runs: seq<Execution>, last: nat)
    requires |tests| == |runs| == last + 1
    ensures AllPass(tests, runs) <==> AllPass(tests[..last], runs[..last]) && Passes(tests[last], runs[last])
  {
    hide Passes;
    if AllPass(tests, runs) {
      forall i | 0 <= i < last ensures Passes(tests[..last][i], runs[..last][i]) {
        assert Passes(tests[i], runs[i]);
      }
    }
    if AllPass(tests[..last], runs[..last]) && Passes(tests[last], runs[last]) {
      forall i | 0 <= i < |tests| ensures Passes(tests[i], runs[i]) {
        if i < last { assert Passes(tests[..last][i], runs[..last][i]); }
      }
    }
  }

  lemma {:induction false} EarnedAllIff(tests: seq<TestCase>, runs: seq<Execution>)
    requires |tests| == |runs| && forall i :: 0 <= i < |tests| ==> tests[i].weight > 0
    ensures Earned(tests, runs) == TotalWeight(tests) <==> AllPass(tests, runs)
  {
    if tests != [] {
      var last := |tests| - 1;
      EarnedAllIff(tests[..last], runs[..last]);
      EarnedWithinTotal(tests[..last], runs[..last]);
      AllPassNext(tests, runs, last);
    }
  }

  /** The weight of the cases that did not pass. */
  function Missed(tests: seq<TestCase>, runs: seq<Execution>): nat
    requires |tests| == |runs|
  {
    if tests == [] then 0
    else
      var last := |tests| - 1;
      Missed(tests[..last], runs[..last]) + if Passes(tests[last], runs[last]) then 0 else tests[last].weight
  }

  lemma {:induction false} EarnedAndMissed(tests: seq<TestCase>, runs: seq<Execution>)
    requires |tests| == |runs|
    ensures Earned(tests, runs) + Missed(tests, runs) == TotalWeight(tests)
  {
    if tests != [] {
      var last := |tests| - 1;
      EarnedAndMissed(tests[..last], runs[..last]);
    }
  }

  /** Exactly when a program is given full marks: when the weight it missed, scaled to the
      question, is at most half a hundredth. */
  lemma {:induction false} FullMarksIff(marks: nat, tests: seq<TestCase>, runs: seq<Execution>)
    requires |tests| == |runs| && TotalWeight(tests) > 0
    ensures RoundedMarks(marks, Earned(tests, runs), TotalWeight(tests)) == 100 * marks
       <==> Negligible(marks, Missed(tests, runs), TotalWeight(tests))
  {
    EarnedAndMissed(tests, runs);
    RoundedFullIff(marks, Earned(tests, runs), Missed(tests, runs));
  }

  /** While the weights stay below two hundred per mark, full marks mean every case passed. */
  lemma {:induction false} FullMarksMeanAllPassed(marks: nat, tests: seq<TestCase>, runs: seq<Execution>)
    requires |tests| == |runs| && tests != []
    requires forall i :: 0 <= i < |tests| ==> tests[i].weight > 0
    requires TotalWeight(tests) < 200 * marks
    ensures RoundedMarks(marks, Earned(tests, runs), TotalWeight(tests)) == 100 * marks <==> AllPass(tests, runs)
  {
    EarnedAllIff(tests, runs);
    EarnedAndMissed(tests, runs);
    assert tests[|tests| - 1].weight > 0;
    FullMarksIff(marks, tests, runs);
    NegligibleIff(marks, Missed(tests, runs), TotalWeight(tests));
  }

  /** The bound is tight: one mark, weights 100, 99 and 1, the lightest case failed, and
      the program still gets the whole mark. */
  lemma {:induction false} FullMarksWithAFailedCase()
    ensures exists tests: seq<TestCase>, runs: seq<Execution> ::
      |tests| == |runs| && !AllPass(tests, runs) && TotalWeight(tests) == 200
      && RoundedMarks(1, Earned(tests, runs), TotalWeight(tests)) == 100
  {
    var a, b, c := TestCase(0, "", "", true, 100), TestCase(1, "", "", true, 99), TestCase(2, "", "", true, 1);
    var good, bad := Execution(Completed, "", "", 0), Execution(TimedOut, "", "", 0);
    var tests, runs := [a, b, c], [good, good, bad];
    assert tests[..2] == [a, b] && runs[..2] == [good, good];
    assert [a, b][..1] == [a] && [good, good][..1] == [good];
    assert [a][..0] == [] && [good][..0] == [];
    assert Earned([a], [good]) == 100 && TotalWeight([a]) == 100;
    assert Earned([a, b], [good, good]) == 199 && TotalWeight([a, b]) == 199;
    assert Earned(tests, runs) == 199 && TotalWeight(tests) == 200;
    RoundAs(19900, 99, 100, 200);
    assert !Passes(tests[2], runs[2]);
  }
}
