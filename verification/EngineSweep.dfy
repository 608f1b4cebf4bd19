/** Closing expired exams (backend/app/services/sweep.py), and when the database lets a result
    be stored at all. */
module EngineSweep {
  import opened Basics
  import opened Transitions
  import opened Paper
  import opened PaperScore
  import opened AnswerRows
  import opened Seating
  import opened Engine
  import opened EngineInvariant
  import opened EngineHistory

  // ---- which papers have a storable result ----

  lemma {:induction false} FindInPaper(paper: seq<Question>, q: Question)
    requires WellFormedPaper(paper) && q in paper
    ensures FindQuestion(paper, q.id) == Some(q)
  {
    var found := FindQuestion(paper, q.id);
    hide WellFormed;
    var i := IndexIn(paper, q);
    var j := IndexIn(paper, found.value);
    assert IdsOf(paper)[i] == IdsOf(paper)[j];
  }

  lemma {:induction false} AwardStored(answers: map<Key, AnswerRow>, s: nat, q: nat)
    ensures q in AwardsOf(answers, s) <==> Key(s, q) in answers && answers[Key(s, q)].awarded.Some?
    ensures q in AwardsOf(answers, s) ==> AwardsOf(answers, s)[q] == answers[Key(s, q)].awarded.value
  {
    if q in AwardsOf(answers, s) {
      var k :| k in answers && k.session == s && answers[k].awarded.Some? && k.question == q;
      assert k == Key(s, q);
    }
    if Key(s, q) in answers && answers[Key(s, q)].awarded.Some? { assert Key(s, q).question == q; }
  }

  lemma {:induction false} StoredAwardsBounded(w: World, s: nat)
    requires Inv(w) && s in w.sessions && w.sessions[s].exam in w.exams
    ensures AwardsBounded(w.exams[w.sessions[s].exam].paper, AwardsOf(w.answers, s))
  {
    var paper := w.exams[w.sessions[s].exam].paper;
    PaperDistinct(w, w.sessions[s].exam);
    hide Inv, AwardsOf, WellFormedPaper, FindQuestion;
    forall q | q in paper && q.id in AwardsOf(w.answers, s)
      ensures AwardsOf(w.answers, s)[q.id] <= 100 * q.marks
    {
      AwardStored(w.answers, s, q.id);
      FindInPaper(paper, q);
      StoredAwardOk(w, Key(s, q.id));
    }
  }

  lemma {:induction false} MarkedPaper(paper: seq<Question>, ids: seq<nat>)
    requires WellFormedPaper(paper) && forall id :: id in ids ==> id in IdsOf(paper)
    ensures MarksOf(paper, ids) > 0 <==> ids != []
  {
    if ids != [] {
      forall q | q in paper ensures q.marks > 0 { assert WellFormed(paper[IndexIn(paper, q)]); }
      MarksOfPositive(paper, ids);
    }
  }

  lemma {:induction false} CandidatePaper(x: Session, exam: Exam)
    requires SessionOk(x, exam)
    ensures forall id :: id in PaperIds(exam.paper, x.order) ==> id in IdsOf(exam.paper)
    ensures PaperIds(exam.paper, x.order) == [] <==> exam.paper == []
  {
  }

  /** In every reachable state, grading any session gives a result the database accepts exactly
      when the exam still has a question: marks never exceed what the paper is worth. */
  lemma {:induction false} StorableIffQuestions(w: World, s: nat)
    requires Inv(w) && s in w.sessions && w.sessions[s].exam in w.exams
    ensures Storable(Grade(w, s)) <==> w.exams[w.sessions[s].exam].paper != []
    ensures Grade(w, s).given <= Grade(w, s).available
  {
    var x, paper := w.sessions[s], w.exams[w.sessions[s].exam].paper;
    var ids := PaperIds(paper, x.order);
    SessionIsOk(w, s);
    CandidatePaper(x, w.exams[x.exam]);
    PaperDistinct(w, x.exam);
    StoredAwardsBounded(w, s);
    hide Inv, SessionOk, WellFormedPaper, AwardsBounded, AnswersOf, AwardsOf, PaperIds, ScoreIds, MarksOf;
    GivenWithinAvailable(paper, ids, x.optionOrder, AnswersOf(w.answers, s), AwardsOf(w.answers, s));
    AvailableIsPaperMarks(paper, ids, x.optionOrder, AnswersOf(w.answers, s), AwardsOf(w.answers, s));
    MarkedPaper(paper, ids);
  }

  /** A candidate who may write, and has not submitted, is able to submit exactly when the exam
      has a question. */
  lemma {:induction false} SubmitSucceedsIff(w: World, s: nat, mode: SubmitMode, receipt: nat, now: int)
    requires Inv(w) && WriteRefusal(w, s, now).None?
    ensures w.sessions[s].exam in w.exams
    ensures Submit(w, s, mode, receipt, now).Ok? <==> w.exams[w.sessions[s].exam].paper != []
  {
    SessionIsOk(w, s);
    StorableIffQuestions(w, s);
    ActiveHasNoReceipt(w.sessions[s], w.exams[w.sessions[s].exam]);
    hide Inv, SessionOk, Graded, Storable;
  }

  lemma {:induction false} ActiveHasNoReceipt(x: Session, exam: Exam)
    requires SessionOk(x, exam)
    ensures x.status == Active ==> x.submittedAt.None? && x.submissionId.None?
  {
    hide PaperOk;
  }

  // ---- the sweep ----

  /** The sweep goes through exactly when no exam it must grade has lost all its questions;
      one that has also keeps every other expired exam from being closed. */
  lemma {:induction false} SweepSucceedsIff(w: World, now: int, receipts: nat -> nat)
    requires Inv(w)
    ensures SweepOnce(w, now, receipts).Ok? <==>
              forall s :: s in StragglersIn(w, DueExams(w, now)) ==>
                w.sessions[s].exam in w.exams && w.exams[w.sessions[s].exam].paper != []
  {
    LiveIsDue(w, now);
    hide Inv, SweptWorld, DueExams, Storable, Grade;
    forall s | s in StragglersIn(w, DueExams(w, now))
      ensures Storable(Grade(w, s)) <==> w.exams[w.sessions[s].exam].paper != []
    {
      StorableIffQuestions(w, s);
    }
  }

  lemma {:induction false} SweptRow(s: nat, x: Session, exam: Exam, now: int, receipts: nat -> nat)
    requires SessionOk(x, exam) && exam.status == Live
    ensures !BeforeStart(x.status)
    ensures HandedIn(Changed(Expire(now, receipts), s, x).status)
    ensures Changed(Expire(now, receipts), s, x) ==
              if x.status == Active
              then x.(status := AutoSubmitted, submittedAt := Some(now), mode := Some(Auto), submissionId := Some(receipts(s)))
              else x
  {
    hide PaperOk;
  }

  /** A sweep at `now` leaves nothing due; every exam that was due is completed, and each of its
      candidates has handed in, the stragglers automatically at `now` with a graded result.
      Nobody is ever terminated by it. */
  lemma {:induction false} SweepCloses(w: World, now: int, receipts: nat -> nat, s: nat)
    requires Inv(w) && SweepOnce(w, now, receipts).Ok?
    requires s in w.sessions && w.sessions[s].exam in DueExams(w, now)
    ensures var w', e := SweepOnce(w, now, receipts).value, w.sessions[s].exam;
            && e in w'.exams && w'.exams[e].status == Completed && w'.exams[e].endsAt == w.exams[e].endsAt
            && s in w'.sessions && HandedIn(w'.sessions[s].status)
            && (w.sessions[s].status == Active ==>
                  && w'.sessions[s].status == AutoSubmitted && w'.sessions[s].submittedAt == Some(now)
                  && s in w'.results && w'.results[s] == Grade(w, s))
            && (w.sessions[s].status != Active ==> w'.sessions[s] == w.sessions[s])
  {
    LiveIsDue(w, now);
    SessionIsOk(w, s);
    SweptRow(s, w.sessions[s], w.exams[w.sessions[s].exam], now, receipts);
    var due := DueExams(w, now);
    hide Inv, Changed, SweptWorld, DueExams, Grade, Storable, SessionOk;
    SweptSession(w, due, now, receipts, s);
    SweptExam(w, due, now, receipts, w.sessions[s].exam);
    SweptResult(w, due, now, receipts, s);
  }

  lemma {:induction false} SweptResult(w: World, exams: set<nat>, now: int, receipts: nat -> nat, s: nat)
    requires exams <= w.exams.Keys
    ensures s in StragglersIn(w, exams) ==>
              s in SweptWorld(w, exams, now, receipts).results && SweptWorld(w, exams, now, receipts).results[s] == Grade(w, s)
    ensures s !in StragglersIn(w, exams) ==>
              Get(SweptWorld(w, exams, now, receipts).results, s) == Get(w.results, s)
  {
    hide Changed, Graded, Closed, ChangeSessions;
  }

  lemma {:induction false} NothingLeftDue(w: World, now: int, receipts: nat -> nat)
    requires Inv(w) && SweepOnce(w, now, receipts).Ok?
    ensures DueExams(SweepOnce(w, now, receipts).value, now) == {}
  {
    LiveIsDue(w, now);
    var due := DueExams(w, now);
    var w' := SweptWorld(w, due, now, receipts);
    hide Inv, SweptWorld, Grade, Storable;
    SweptKeys(w, due, now, receipts);
    forall e | e in w'.exams ensures !Due(w'.exams[e], now) {
      SweptExam(w, due, now, receipts, e);
    }
  }

  lemma {:induction false} SweepingNothing(w: World, now: int, receipts: nat -> nat)
    ensures SweptWorld(w, {}, now, receipts) == w
  {
    hide Changed, Graded, Closed;
    var w' := SweptWorld(w, {}, now, receipts);
    assert w'.exams == w.exams;
    assert w'.sessions == w.sessions;
    assert StragglersIn(w, {}) == {};
    assert w'.results == w.results;
  }

  /** Sweeping again at the same time changes nothing. */
  lemma {:induction false} SecondSweepChangesNothing(w: World, now: int, receipts: nat -> nat, receipts': nat -> nat)
    requires Inv(w) && SweepOnce(w, now, receipts).Ok?
    ensures var w' := SweepOnce(w, now, receipts).value;
            SweepOnce(w', now, receipts') == Ok(w')
  {
    NothingLeftDue(w, now, receipts);
    var w' := SweepOnce(w, now, receipts).value;
    hide Inv, DueExams, SweptWorld, Grade, Storable;
    SweepingNothing(w', now, receipts');
    assert StragglersIn(w', {}) == {};
  }

  // ---- a sweep that never succeeds ----

  const ONE_QUESTION := Question(0, Text, 1, [])
  const ONE_MACHINE := Workstation(0, "LAB-1", 0)
  const PLAIN := DrawConfig(false, false, 0)
  const DRAFT_EXAM := ExamDraft(5, PLAIN, [0], [ONE_QUESTION])
  const NO_QUESTIONS := ExamPatch(None, None, None, Some([]))

  const FIRST_TEST := Exam(Draft, 5, PLAIN, [0], [ONE_QUESTION], None, None, None, None, 0)
  const FIRST_SESSION := Session(0, 0, Some(0), NotStarted, None, map[], None, None, None, None, None)
  const EMPTYING := [Create(0, DRAFT_EXAM), Update(0, NO_QUESTIONS), Schedule(0, [ONE_MACHINE], [0]), Start(0, None, 0)]

  lemma {:induction false} RunOneMore(w: World, steps: seq<Step>, step: Step)
    ensures Run(w, steps + [step]) == Next(Run(w, steps), step)
  {
    assert (steps + [step])[..|steps|] == steps;
  }

  lemma {:induction false} FourSteps(a: Step, b: Step, c: Step, d: Step)
    ensures Run(EMPTY, [a, b, c, d]) == Next(Next(Next(Next(EMPTY, a), b), c), d)
  {
    hide Next;
    RunOneMore(EMPTY, [], a);
    RunOneMore(EMPTY, [a], b);
    RunOneMore(EMPTY, [a, b], c);
    RunOneMore(EMPTY, [a, b, c], d);
    assert [] + [a] == [a] && [a] + [b] == [a, b] && [a, b] + [c] == [a, b, c] && [a, b, c] + [d] == [a, b, c, d];
  }

  lemma {:induction false} OneSeatChart()
    ensures Allocate([0], [ONE_MACHINE], {}, {}) == [SeatAt(0, ONE_MACHINE)]
  {
    assert ToSeat([0], {}) == [0] by { assert [0][..0] == []; }
    assert [ONE_MACHINE][1..] == [];
    assert SortByPosition([ONE_MACHINE]) == [ONE_MACHINE];
    assert FreeOf([ONE_MACHINE], {}) == [ONE_MACHINE];
  }

  lemma {:induction false} DraftedWorld()
    ensures Next(EMPTY, Create(0, DRAFT_EXAM)) == EMPTY.(exams := map[0 := FIRST_TEST])
  {
    assert IdsOf([ONE_QUESTION]) == [0];
  }

  lemma {:induction false} EmptiedWorld(w: World)
    requires w == EMPTY.(exams := map[0 := FIRST_TEST])
    ensures Next(w, Update(0, NO_QUESTIONS)) == EMPTY.(exams := map[0 := FIRST_TEST.(paper := [])])
  {
    assert IdsOf([]) == [];
  }

  lemma {:induction false} SeatedWorld(w: World)
    requires w == EMPTY.(exams := map[0 := FIRST_TEST.(paper := [])])
    ensures Next(w, Schedule(0, [ONE_MACHINE], [0]))
         == EMPTY.(exams := map[0 := FIRST_TEST.(paper := [], status := Ready, eventSeq := 1)], sessions := map[0 := FIRST_SESSION])
  {
    OneSeatChart();
    assert SessionsOf(w, 0) == {};
    assert OccupiedMachines(w, 0) == {} && SeatedStudents(w, 0) == {};
    var chart := SeatingChart(w, 0, [ONE_MACHINE]);
    assert chart == [SeatAt(0, ONE_MACHINE)];
    hide Allocate, SeatingChart, OccupiedMachines, SeatedStudents;
    assert chart[..0] == [];
    assert AddSessions(w.sessions, 0, chart, [0]) == map[0 := FIRST_SESSION];
  }

  lemma {:induction false} StartedEmpty(w: World)
    requires w == EMPTY.(exams := map[0 := FIRST_TEST.(paper := [], status := Ready, eventSeq := 1)], sessions := map[0 := FIRST_SESSION])
    ensures var w' := Next(w, Start(0, None, 0));
            && w'.exams.Keys == {0} && w'.exams[0].paper == [] && w'.exams[0].status == Live
            && w'.exams[0].endsAt == Some(5 * MINUTE)
            && w'.sessions.Keys == {0} && w'.sessions[0].exam == 0 && w'.sessions[0].status == Active
  {
    hide ChangeSessions;
    assert 0 in SessionsOf(w, 0);
    ExamChangedSession(w, 0, Started(w.exams[0], None, 0), Release(0), 0);
    SameSessions(w, 0, Started(w.exams[0], None, 0), Release(0));
    assert StartExam(w, 0, None, 0).Ok?;
    StartedWorld(w, 0, None, 0);
  }

  lemma {:induction false} EmptiedIsLive()
    ensures var w := Run(EMPTY, EMPTYING);
            && w.exams.Keys == {0} && w.exams[0].paper == [] && w.exams[0].status == Live
            && w.exams[0].endsAt == Some(5 * MINUTE)
            && w.sessions.Keys == {0} && w.sessions[0].exam == 0 && w.sessions[0].status == Active
  {
    hide Run, Next;
    var a, b, c, d := Create(0, DRAFT_EXAM), Update(0, NO_QUESTIONS), Schedule(0, [ONE_MACHINE], [0]), Start(0, None, 0);
    FourSteps(a, b, c, d);
    DraftedWorld();
    var w := EMPTY.(exams := map[0 := FIRST_TEST]);
    EmptiedWorld(w);
    SeatedWorld(Next(w, b));
    StartedEmpty(Next(Next(w, b), c));
  }

  lemma {:induction false} NextSweep(w: World, now: int, receipts: nat -> nat)
    ensures Next(w, Sweep(now, receipts)) == if SweepOnce(w, now, receipts).Ok? then SweepOnce(w, now, receipts).value else w
  {
    hide SweepOnce, CreateExam, UpdateExam, ScheduleExam, StartExam, EndExam, CancelExam, CheckIn, SaveAnswer, ToggleFlag,
      Submit, AwardMarks, RunnerMarks;
  }

  /** One live exam without questions undoes every sweep, whatever else is due. */
  lemma {:induction false} EmptyPaperBlocksSweep(w: World, s: nat, now: int, receipts: nat -> nat)
    requires Inv(w) && s in w.sessions && w.sessions[s].status == Active
    requires w.sessions[s].exam in w.exams && w.exams[w.sessions[s].exam].paper == []
    requires Due(w.exams[w.sessions[s].exam], now)
    ensures Next(w, Sweep(now, receipts)) == w
  {
    SweepSucceedsIff(w, now, receipts);
    NextSweep(w, now, receipts);
    hide Inv, SweepOnce, Next;
    assert s in StragglersIn(w, DueExams(w, now));
  }

  lemma {:induction false} EmptiedIsDue(now: int)
    requires now >= 5 * MINUTE
    ensures var w := Run(EMPTY, EMPTYING);
            && Inv(w) && 0 in w.sessions && w.sessions[0].status == Active && w.sessions[0].exam == 0
            && 0 in w.exams && w.exams[0].paper == [] && w.exams[0].status == Live && Due(w.exams[0], now)
  {
    EmptiedIsLive();
    EmptyInv();
    RunInv(EMPTY, EMPTYING);
    hide Inv, Run;
  }

  /** Creating an exam insists on a question, editing does not. So these four accepted calls
      lead to a live exam without questions, which no sweep can ever close: it is rolled back
      every time. */
  lemma {:induction false} EmptiedExamIsNeverSwept(now: int, receipts: nat -> nat)
    requires now >= 5 * MINUTE
    ensures var w := Run(EMPTY, EMPTYING);
            0 in w.exams && w.exams[0].status == Live && Due(w.exams[0], now) && Next(w, Sweep(now, receipts)) == w
  {
    EmptiedIsDue(now);
    hide *;
    EmptyPaperBlocksSweep(Run(EMPTY, EMPTYING), 0, now, receipts);
  }
}
