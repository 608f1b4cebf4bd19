/** The passes that mark programs, as loops over answer rows (`grade_session`, `grade_exam` and
    the body of `claim_and_grade` in backend/app/services/coding.py). */
module ProgramRunner {
  import opened Basics
  import opened Marks
  import opened MarkingQueue

  datatype CodingQuestion = CodingQuestion(id: nat, marks: nat, tests: seq<TestCase>)

  datatype CodeRow = CodeRow(source: Option<string>, awarded: Option<nat>, report: Option<Report>)

  /** How the sandbox ends the run of each case of each row. It may end any way at any time. */
  type Sandbox = (Key, nat) -> Execution

  function RunsOf(sandbox: Sandbox, k: Key, tests: seq<TestCase>): (runs: seq<Execution>)
    ensures |runs| == |tests|
  {
    seq(|tests|, i requires 0 <= i < |tests| => sandbox(k, i))
  }

  function CasesOf(tests: seq<TestCase>, runs: seq<Execution>): seq<CaseReport>
    requires |runs| == |tests|
  {
    seq(|tests|, i requires 0 <= i < |tests| => Reported(tests[i], runs[i]))
  }

  function ReportOf(marks: nat, tests: seq<TestCase>, runs: seq<Execution>): Report
    requires |runs| == |tests|
  {
    Report(RoundedMarks(marks, Earned(tests, runs), TotalWeight(tests)), CountPassed(CasesOf(tests, runs)), |tests|,
           CasesOf(tests, runs), AnyUnavailable(runs))
  }

  function BlankReport(tests: seq<TestCase>): Report {
    Report(0, 0, |tests|, [], false)
  }

  /** What a pass does to one row. */
  function Marked(row: CodeRow, question: CodingQuestion, runs: seq<Execution>, force: bool): CodeRow
    requires |runs| == |question.tests|
  {
    if row.awarded.Some? && !force then row
    else if Blank(row.source) then row.(awarded := Some(0), report := Some(BlankReport(question.tests)))
    else if AnyUnavailable(runs) then row
    else
      var report := ReportOf(question.marks, question.tests, runs);
      row.(awarded := Some(report.marks), report := Some(report))
  }

  function IdsOf(coding: seq<CodingQuestion>): (ids: seq<nat>)
    ensures |ids| == |coding|
    ensures forall i :: 0 <= i < |coding| ==> ids[i] == coding[i].id
  {
    seq(|coding|, i requires 0 <= i < |coding| => coding[i].id)
  }

  /** The questions of `coding` one paper has an answer row for. */
  function Present(rows: map<Key, CodeRow>, session: nat, coding: seq<CodingQuestion>): nat {
    if coding == [] then 0
    else
      Present(rows, session, coding[..|coding| - 1]) + if Engine.Key(session, coding[|coding| - 1].id) in rows then 1 else 0
  }

  /** The rows after a pass over one paper. */
  function Passed(rows: map<Key, CodeRow>, session: nat, coding: seq<CodingQuestion>, sandbox: Sandbox, force: bool): map<Key, CodeRow> {
    if coding == [] then rows
    else
      var question := coding[|coding| - 1];
      var before, k := Passed(rows, session, coding[..|coding| - 1], sandbox, force), Engine.Key(session, question.id);
      if k in before then before[k := Marked(before[k], question, RunsOf(sandbox, k, question.tests), force)] else before
  }

  lemma {:induction false} NoTurns(rows: map<Key, CodeRow>, session: nat, coding: seq<CodingQuestion>, sandbox: Sandbox, force: bool)
    ensures Passed(rows, session, coding[..0], sandbox, force) == rows && Present(rows, session, coding[..0]) == 0
  {
  }

  lemma {:induction false} NextTurn(rows: map<Key, CodeRow>, session: nat, coding: seq<CodingQuestion>, i: nat, sandbox: Sandbox, force: bool)
    requires i < |coding|
    ensures Passed(rows, session, coding[..i + 1], sandbox, force)
         == var before, k := Passed(rows, session, coding[..i], sandbox, force), Engine.Key(session, coding[i].id);
            if k in before then before[k := Marked(before[k], coding[i], RunsOf(sandbox, k, coding[i].tests), force)] else before
    ensures Present(rows, session, coding[..i + 1])
         == Present(rows, session, coding[..i]) + if Engine.Key(session, coding[i].id) in rows then 1 else 0
  {
    hide Marked, RunsOf;
    assert coding[..i + 1][..i] == coding[..i];
  }

  class Runner {
    var rows: map<Key, CodeRow>

    /** Every coding answer of one paper. An answer that is already marked is skipped unless
        forced, a blank one gets nothing, and one the sandbox could not run stays as it is. */
    method GradeSession(session: nat, coding: seq<CodingQuestion>, sandbox: Sandbox, force: bool) returns (graded: nat, skipped: nat)
      modifies this
      ensures rows == Passed(old(rows), session, coding, sandbox, force)
      ensures graded + skipped == Present(old(rows), session, coding)
    {
      hide Blank, AnyUnavailable, Passed, Present, RunsOf, Earned, TotalWeight, RoundedMarks, CountPassed;
      graded, skipped := 0, 0;
      NoTurns(rows, session, coding, sandbox, force);
      for i := 0 to |coding|
        invariant rows == Passed(old(rows), session, coding[..i], sandbox, force) && rows.Keys == old(rows).Keys
        invariant graded + skipped == Present(old(rows), session, coding[..i])
      {
        NextTurn(old(rows), session, coding, i, sandbox, force);
        var question := coding[i];
        var k := Engine.Key(session, question.id);
        if k in rows {
          var row := rows[k];
          var runs := RunsOf(sandbox, k, question.tests);
          if row.awarded.Some? && !force {
            skipped := skipped + 1;
            SameEntry(rows, k);
          } else if Blank(row.source) {
            rows := rows[k := row.(awarded := Some(0), report := Some(BlankReport(question.tests)))];
            graded := graded + 1;
          } else {
            var report := RunAnswer(question.marks, question.tests, runs);
            assert report.cases == CasesOf(question.tests, runs);
            if report.incomplete {
              skipped := skipped + 1;
              SameEntry(rows, k);
            } else {
              rows := rows[k := row.(awarded := Some(report.marks), report := Some(report))];
              graded := graded + 1;
            }
          }
        }
      }
      assert coding[..|coding|] == coding;
    }

    /** Every submitted paper of an exam; without a sandbox nothing is touched. */
    method GradeExam(available: bool, sessions: seq<nat>, coding: seq<CodingQuestion>, sandbox: Sandbox, force: bool)
      returns (r: Option<(nat, nat)>)
      modifies this
      ensures r.Some? <==> available
      ensures rows == if available then PassedAll(old(rows), sessions, coding, sandbox, force) else old(rows)
      ensures available ==> r.value.0 + r.value.1 == PresentIn(old(rows), sessions, coding)
    {
      hide Passed, Present;
      if !available { return None; }
      var graded, skipped := 0, 0;
      for i := 0 to |sessions|
        invariant rows == PassedAll(old(rows), sessions[..i], coding, sandbox, force)
        invariant graded + skipped == PresentIn(old(rows), sessions[..i], coding)
      {
        assert sessions[..i + 1][..i] == sessions[..i];
        PassedAllKeys(old(rows), sessions[..i], coding, sandbox, force);
        PresentByKeys(old(rows), rows, sessions[i], coding);
        var g, k := GradeSession(sessions[i], coding, sandbox, force);
        graded, skipped := graded + g, skipped + k;
      }
      assert sessions[..|sessions|] == sessions;
      return Some((graded, skipped));
    }
  }

  function PassedAll(rows: map<Key, CodeRow>, sessions: seq<nat>, coding: seq<CodingQuestion>, sandbox: Sandbox, force: bool): map<Key, CodeRow> {
    if sessions == [] then rows
    else Passed(PassedAll(rows, sessions[..|sessions| - 1], coding, sandbox, force), sessions[|sessions| - 1], coding, sandbox, force)
  }

  function PresentIn(rows: map<Key, CodeRow>, sessions: seq<nat>, coding: seq<CodingQuestion>): nat {
    if sessions == [] then 0
    else PresentIn(rows, sessions[..|sessions| - 1], coding) + Present(rows, sessions[|sessions| - 1], coding)
  }

  lemma {:induction false} PassedKeys(rows: map<Key, CodeRow>, session: nat, coding: seq<CodingQuestion>, sandbox: Sandbox, force: bool)
    ensures Passed(rows, session, coding, sandbox, force).Keys == rows.Keys
  {
    hide Marked;
    if coding != [] { PassedKeys(rows, session, coding[..|coding| - 1], sandbox, force); }
  }

  lemma {:induction false} PassedAllKeys(rows: map<Key, CodeRow>, sessions: seq<nat>, coding: seq<CodingQuestion>, sandbox: Sandbox, force: bool)
    ensures PassedAll(rows, sessions, coding, sandbox, force).Keys == rows.Keys
  {
    hide Passed;
    if sessions != [] {
      var init := sessions[..|sessions| - 1];
      PassedAllKeys(rows, init, coding, sandbox, force);
      PassedKeys(PassedAll(rows, init, coding, sandbox, force), sessions[|sessions| - 1], coding, sandbox, force);
    }
  }

  lemma {:induction false} PresentByKeys(a: map<Key, CodeRow>, b: map<Key, CodeRow>, session: nat, coding: seq<CodingQuestion>)
    requires a.Keys == b.Keys
    ensures Present(a, session, coding) == Present(b, session, coding)
  {
    if coding != [] {
      PresentByKeys(a, b, session, coding[..|coding| - 1]);
      assert Engine.Key(session, coding[|coding| - 1].id) in a.Keys <==> Engine.Key(session, coding[|coding| - 1].id) in b.Keys;
    }
  }

  // ---- what a pass amounts to, row by row ----

  /** The pass touches exactly the rows of this paper to these questions, each once. */
  lemma {:induction false} PassedRow(rows: map<Key, CodeRow>, session: nat, coding: seq<CodingQuestion>, sandbox: Sandbox, force: bool, k: Key)
    requires Distinct(IdsOf(coding)) && k in rows
    ensures k in Passed(rows, session, coding, sandbox, force)
    ensures forall i :: 0 <= i < |coding| && Engine.Key(session, coding[i].id) == k ==>
              Passed(rows, session, coding, sandbox, force)[k] == Marked(rows[k], coding[i], RunsOf(sandbox, k, coding[i].tests), force)
    ensures (forall i :: 0 <= i < |coding| ==> Engine.Key(session, coding[i].id) != k) ==>
              Passed(rows, session, coding, sandbox, force)[k] == rows[k]
  {
    hide Marked, RunsOf;
    if coding != [] {
      var init, last := coding[..|coding| - 1], |coding| - 1;
      assert IdsOf(init) == IdsOf(coding)[..last];
      PassedRow(rows, session, init, sandbox, force, k);
      forall i | 0 <= i < last ensures coding[i].id != coding[last].id {
        assert IdsOf(coding)[i] != IdsOf(coding)[last];
      }
      forall i | 0 <= i < last ensures init[i] == coding[i] { }
      if Engine.Key(session, coding[last].id) == k {
        assert forall i :: 0 <= i < |init| ==> Engine.Key(session, init[i].id) != k;
      }
    }
  }

  /** A pass never leaves a mark behind that a server fault produced: a program one of whose
      cases could not be run keeps exactly what it had. */
  lemma {:induction false} UnavailableChangesNothing(rows: map<Key, CodeRow>, session: nat, coding: seq<CodingQuestion>,
                                                     sandbox: Sandbox, force: bool, i: nat)
    requires Distinct(IdsOf(coding)) && i < |coding| && Engine.Key(session, coding[i].id) in rows
    requires !Blank(rows[Engine.Key(session, coding[i].id)].source)
    requires AnyUnavailable(RunsOf(sandbox, Engine.Key(session, coding[i].id), coding[i].tests))
    ensures var k := Engine.Key(session, coding[i].id);
            k in Passed(rows, session, coding, sandbox, force) && Passed(rows, session, coding, sandbox, force)[k] == rows[k]
  {
    PassedRow(rows, session, coding, sandbox, force, Engine.Key(session, coding[i].id));
    hide Passed;
  }

  /** After an unforced pass an answer is still unmarked exactly when it was, is not blank, and
      some case could not be run; and a mark that was there is untouched. */
  lemma {:induction false} UnmarkedAfterPass(rows: map<Key, CodeRow>, session: nat, coding: seq<CodingQuestion>, sandbox: Sandbox, i: nat)
    requires Distinct(IdsOf(coding)) && i < |coding| && Engine.Key(session, coding[i].id) in rows
    ensures var k := Engine.Key(session, coding[i].id);
            var after := Passed(rows, session, coding, sandbox, false);
            && k in after
            && (after[k].awarded.None? <==>
                  rows[k].awarded.None? && !Blank(rows[k].source) && AnyUnavailable(RunsOf(sandbox, k, coding[i].tests)))
            && (rows[k].awarded.Some? ==> after[k] == rows[k])
  {
    PassedRow(rows, session, coding, sandbox, false, Engine.Key(session, coding[i].id));
    hide Passed;
  }

  /** A second unforced pass over a paper that is fully marked changes nothing, whatever the
      sandbox would now do. */
  lemma {:induction false} RerunCostsNothing(rows: map<Key, CodeRow>, session: nat, coding: seq<CodingQuestion>, sandbox: Sandbox)
    requires Distinct(IdsOf(coding))
    requires forall i :: 0 <= i < |coding| && Engine.Key(session, coding[i].id) in rows ==> rows[Engine.Key(session, coding[i].id)].awarded.Some?
    ensures Passed(rows, session, coding, sandbox, false) == rows
  {
    var after := Passed(rows, session, coding, sandbox, false);
    PassedKeys(rows, session, coding, sandbox, false);
    hide Passed;
    forall k | k in rows ensures after[k] == rows[k] {
      PassedRow(rows, session, coding, sandbox, false, k);
    }
  }

  /** A forced pass re-marks against the present test cases, whatever mark there was; only what
      the sandbox could not run keeps its old one. */
  lemma {:induction false} ForcedPassRemarks(rows: map<Key, CodeRow>, session: nat, coding: seq<CodingQuestion>, sandbox: Sandbox, i: nat)
    requires Distinct(IdsOf(coding)) && i < |coding| && Engine.Key(session, coding[i].id) in rows
    ensures var k := Engine.Key(session, coding[i].id);
            var after, runs := Passed(rows, session, coding, sandbox, true), RunsOf(sandbox, k, coding[i].tests);
            && k in after
            && after[k].awarded == (if Blank(rows[k].source) then Some(0)
                                    else if AnyUnavailable(runs) then rows[k].awarded
                                    else Some(RoundedMarks(coding[i].marks, Earned(coding[i].tests, runs), TotalWeight(coding[i].tests))))
  {
    PassedRow(rows, session, coding, sandbox, true, Engine.Key(session, coding[i].id));
    hide Passed;
  }

  // ---- a pass against the queue ----

  predicate SameRow(row: CodeRow, queued: Row) {
    row.source == queued.source && row.awarded == if queued.mark.Some? then Some(queued.mark.value.value) else None
  }

  ghost predicate SameRows(rows: map<Key, CodeRow>, q: Queue) {
    rows.Keys == q.rows.Keys && forall k :: k in rows ==> SameRow(rows[k], q.rows[k])
  }

  /** The questions as the queue has them now. */
  ghost predicate AsStored(coding: seq<CodingQuestion>, q: Queue) {
    forall i :: 0 <= i < |coding| ==>
      && coding[i].id in q.questions
      && coding[i].marks == q.questions[coding[i].id].marks && coding[i].tests == q.questions[coding[i].id].tests
  }

  /** What one answer's turn in the pass does to the queue: a write without a lock, unless the
      answer is already marked and the pass is not forced. */
  ghost function UnlockedTurn(q: Queue, session: nat, question: CodingQuestion, sandbox: Sandbox, force: bool): Queue {
    var k := Engine.Key(session, question.id);
    if k in q.rows && k.question in q.questions && (q.rows[k].mark.None? || force)
    then UnlockedWrite(q, k, q.rows[k].source, question.tests, RunsOf(sandbox, k, question.tests)) else q
  }

  ghost function UnlockedPass(q: Queue, session: nat, coding: seq<CodingQuestion>, sandbox: Sandbox, force: bool): Queue {
    if coding == [] then q
    else UnlockedTurn(UnlockedPass(q, session, coding[..|coding| - 1], sandbox, force), session, coding[|coding| - 1], sandbox, force)
  }

  lemma {:induction false} SameMark(row: CodeRow, queued: Row, question: CodingQuestion, program: Program, runs: seq<Execution>, force: bool)
    requires |runs| == |question.tests| && SameRow(row, queued) && program.marks == question.marks
    ensures var outcome := MarkFor(program, question.tests, queued.source, runs);
            SameRow(Marked(row, question, runs, force),
                    if (queued.mark.None? || force) && outcome.Some? then queued.(mark := outcome) else queued)
  {
  }

  lemma {:induction false} SameTurn(rows: map<Key, CodeRow>, q: Queue, session: nat, question: CodingQuestion, sandbox: Sandbox, force: bool)
    requires SameRows(rows, q) && question.id in q.questions && question.marks == q.questions[question.id].marks
    ensures var k, q' := Engine.Key(session, question.id), UnlockedTurn(q, session, question, sandbox, force);
            && q'.questions == q.questions
            && SameRows(if k in rows then rows[k := Marked(rows[k], question, RunsOf(sandbox, k, question.tests), force)] else rows, q')
  {
    var k := Engine.Key(session, question.id);
    if k in rows { SameMark(rows[k], q.rows[k], question, q.questions[question.id], RunsOf(sandbox, k, question.tests), force); }
    hide Marked, MarkFor, SameRow, RunsOf;
  }

  /** A pass over one paper leaves the marks that its answers' writes without a lock leave in the
      queue, one after another: so what the queue proves of such a write, that it keeps marks
      current exactly if the cases it read still are, holds of the pass row by row. */
  lemma {:induction false} PassIsUnlockedWrites(rows: map<Key, CodeRow>, q: Queue, session: nat, coding: seq<CodingQuestion>,
                                                sandbox: Sandbox, force: bool)
    requires SameRows(rows, q) && AsStored(coding, q)
    ensures UnlockedPass(q, session, coding, sandbox, force).questions == q.questions
    ensures SameRows(Passed(rows, session, coding, sandbox, force), UnlockedPass(q, session, coding, sandbox, force))
  {
    if coding != [] {
      var init, last := coding[..|coding| - 1], coding[|coding| - 1];
      hide SameRows, UnlockedTurn, Marked, RunsOf;
      PassIsUnlockedWrites(rows, q, session, init, sandbox, force);
      SameTurn(Passed(rows, session, init, sandbox, force), UnlockedPass(q, session, init, sandbox, force), session, last, sandbox, force);
    }
  }

  lemma {:induction false} TurnCurrent(q: Queue, session: nat, question: CodingQuestion, sandbox: Sandbox, force: bool)
    requires MarksCurrent(q) && question.id in q.questions && question.tests == q.questions[question.id].tests
    ensures MarksCurrent(UnlockedTurn(q, session, question, sandbox, force))
    ensures UnlockedTurn(q, session, question, sandbox, force).questions == q.questions
  {
    var k := Engine.Key(session, question.id);
    if k in q.rows && (q.rows[k].mark.None? || force) {
      UnlockedWriteCurrentIff(q, k, q.rows[k].source, question.tests, RunsOf(sandbox, k, question.tests));
    }
    hide MarksCurrent, MarkFor, RunsOf;
  }

  /** In particular a pass that no correction interrupts leaves every mark current. */
  lemma {:induction false} PassKeepsCurrent(q: Queue, session: nat, coding: seq<CodingQuestion>, sandbox: Sandbox, force: bool)
    requires MarksCurrent(q) && AsStored(coding, q)
    ensures MarksCurrent(UnlockedPass(q, session, coding, sandbox, force))
    ensures UnlockedPass(q, session, coding, sandbox, force).questions == q.questions
  {
    if coding != [] {
      var init, last := coding[..|coding| - 1], coding[|coding| - 1];
      hide MarksCurrent, UnlockedTurn;
      PassKeepsCurrent(q, session, init, sandbox, force);
      TurnCurrent(UnlockedPass(q, session, init, sandbox, force), session, last, sandbox, force);
    }
  }
}
