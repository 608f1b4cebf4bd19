/** Result freshness over runs: which calls keep every submitted paper's stored result equal to
    grading it again, and exactly when the others do not. */
module EngineFreshness {
  import opened Basics
  import opened Transitions
  import opened Paper
  import opened PaperScore
  import opened AnswerRows
  import opened Engine
  import opened EngineInvariant
  import opened EngineHistory
  import opened EngineReceipts
  import opened EngineSweep
  import opened EngineResults

  // ---- what each call may change ----

  predicate MarksAnswer(step: Step, k: Key) {
    (step.Award? || step.Runner?) && Key(step.session, step.question) == k
  }

  lemma {:induction false} RowOnlyWrittenOrMarked(w: World, step: Step, k: Key)
    requires Get(Next(w, step).answers, k) != Get(w.answers, k)
    ensures WritesInTime(w, step, k) || MarksAnswer(step, k)
  {
    hide Deliver, SaveRow, FlagRow, ChangeSessions, SessionsOf, AddSessions, SeatingChart, Graded, Storable, Draw, SweepOnce;
    match step
    case SaveStep(s, q, value, clientSeq, now) =>
      if Key(s, q) != k && Attempt(w, step).Ok? { DeliveryKeepsOthers(w, Key(s, q), SaveRow(Get(w.answers, Key(s, q)), value, clientSeq), k); }
    case FlagStep(s, q, now) =>
      if Key(s, q) != k && Attempt(w, step).Ok? { DeliveryKeepsOthers(w, Key(s, q), FlagRow(Get(w.answers, Key(s, q))), k); }
    case Sweep(now, receipts) =>
      if Attempt(w, step).Ok? { SweepKeepsAnswers(w, now, receipts); }
    case _ =>
  }

  function PaperOf(x: Session): (Option<seq<nat>>, map<nat, seq<nat>>) {
    (x.order, x.optionOrder)
  }

  predicate FirstDraw(w: World, step: Step, s: nat) {
    step.Enter? && step.session == s && s in w.sessions && w.sessions[s].order.None?
  }

  lemma {:induction false} BulkKeepsPapers(w: World, e: nat, x: Exam, c: Change, s: nat)
    requires s in w.sessions
    ensures s in ExamChanged(w, e, x, c).sessions && PaperOf(ExamChanged(w, e, x, c).sessions[s]) == PaperOf(w.sessions[s])
  {
    ExamChangedSession(w, e, x, c, s);
    ChangedKeeps(c, s, w.sessions[s]);
    hide Changed, ChangeSessions;
  }

  lemma {:induction false} EndKeepsPapers(w: World, e: nat, now: int, receipts: nat -> nat, s: nat)
    requires s in w.sessions && EndExam(w, e, now, receipts).Ok?
    ensures var w' := EndExam(w, e, now, receipts).value; s in w'.sessions && PaperOf(w'.sessions[s]) == PaperOf(w.sessions[s])
    ensures EndExam(w, e, now, receipts).value.results == w.results
  {
    hide ChangeSessions, SessionsOf, WindowOk, PaperOf;
    BulkKeepsPapers(w, e, EndExam(w, e, now, receipts).value.exams[e], CloseEarly(now, receipts), s);
  }

  lemma {:induction false} CancelKeepsPapers(w: World, e: nat, s: nat)
    requires s in w.sessions && CancelExam(w, e).Ok?
    ensures var w' := CancelExam(w, e).value; s in w'.sessions && PaperOf(w'.sessions[s]) == PaperOf(w.sessions[s])
  {
    hide ChangeSessions, SessionsOf, PaperOf;
    BulkKeepsPapers(w, e, CancelExam(w, e).value.exams[e], CallOff, s);
  }

  lemma {:induction false} StartKeepsPapers(w: World, e: nat, key: Option<string>, now: int, s: nat)
    requires s in w.sessions && StartExam(w, e, key, now).Ok?
    ensures var w' := StartExam(w, e, key, now).value; s in w'.sessions && PaperOf(w'.sessions[s]) == PaperOf(w.sessions[s])
  {
    StartedWorld(w, e, key, now);
    hide StartExam, ChangeSessions, SessionsOf, PaperOf;
    BulkKeepsPapers(w, e, Started(w.exams[e], key, now), Release(now), s);
  }

  lemma {:induction false} SweepKeepsPapers(w: World, now: int, receipts: nat -> nat, s: nat)
    requires Inv(w) && s in w.sessions && SweepOnce(w, now, receipts).Ok?
    ensures var w' := SweepOnce(w, now, receipts).value; s in w'.sessions && PaperOf(w'.sessions[s]) == PaperOf(w.sessions[s])
  {
    LiveIsDue(w, now);
    hide Inv, Changed, SweptWorld, DueExams, Grade, Storable;
    SweptSession(w, DueExams(w, now), now, receipts, s);
    ChangedKeeps(Expire(now, receipts), s, w.sessions[s]);
  }

  lemma {:induction false} EnterKeepsPapers(w: World, s': nat, onMachine: bool, now: int, choices: Shuffle.Choices, s: nat)
    requires s in w.sessions && CheckIn(w, s', onMachine, now, choices).Ok?
    requires s' == s ==> w.sessions[s].order.Some?
    ensures var w' := CheckIn(w, s', onMachine, now, choices).value; s in w'.sessions && PaperOf(w'.sessions[s]) == PaperOf(w.sessions[s])
  {
    hide Draw;
  }

  lemma {:induction false} HandInKeepsPapers(w: World, s': nat, mode: SubmitMode, receipt: nat, now: int, s: nat)
    requires s in w.sessions && Submit(w, s', mode, receipt, now).Ok?
    ensures var w' := Submit(w, s', mode, receipt, now).value; s in w'.sessions && PaperOf(w'.sessions[s]) == PaperOf(w.sessions[s])
  {
    hide Graded, Storable;
  }

  /** A session's paper is drawn by entering, the first time, and by nothing else. */
  lemma {:induction false} PaperOnlyDrawn(w: World, step: Step, s: nat)
    requires Inv(w) && s in w.sessions && !FirstDraw(w, step, s)
    ensures s in Next(w, step).sessions && PaperOf(Next(w, step).sessions[s]) == PaperOf(w.sessions[s])
  {
    hide Inv, Next, PaperOf, CheckIn, Submit, SweepOnce, StartExam, EndExam, CancelExam, CreateExam, UpdateExam, SaveAnswer,
      ToggleFlag, AwardMarks, RunnerMarks, ScheduleExam;
    NextIsAttempt(w, step);
    if Attempt(w, step).Ok? {
      match step
      case Schedule(e, machines, ids) => ScheduleKeepsReceipts(w, e, machines, ids, s);
      case Start(e, key, now) => StartKeepsPapers(w, e, key, now, s);
      case End(e, now, receipts) => EndKeepsPapers(w, e, now, receipts, s);
      case Cancel(e) => CancelKeepsPapers(w, e, s);
      case Sweep(now, receipts) => SweepKeepsPapers(w, now, receipts, s);
      case Enter(s', onMachine, now, choices) => EnterKeepsPapers(w, s', onMachine, now, choices, s);
      case HandIn(s', mode, receipt, now) => HandInKeepsPapers(w, s', mode, receipt, now, s);
      case _ => RestKeepSessions(w, step);
    }
  }

  /** Grading gives the same again unless the call draws this paper, or writes or marks one of
      its answers. */
  lemma {:induction false} GradeKept(w: World, step: Step, s: nat)
    requires Inv(w) && s in w.sessions && !FirstDraw(w, step, s)
    requires forall k: Key :: k.session == s ==> Get(Next(w, step).answers, k) == Get(w.answers, k)
    ensures var w' := Next(w, step);
            && s in w'.sessions && w'.sessions[s].exam in w'.exams
            && w.sessions[s].exam in w.exams && Grade(w', s) == Grade(w, s)
  {
    var w' := Next(w, step);
    PaperOnlyDrawn(w, step, s);
    SessionIsOk(w, s);
    NextEvolves(w, step);
    EvolvesAt(w, w', s);
    ExamPaperKept(w.sessions[s], w.exams[w.sessions[s].exam], w'.exams[w.sessions[s].exam]);
    hide Inv, Next, Evolves, SessionOk, ExamEvolves, SessionEvolves, PaperIds, Graded;
    SameRowsSameScore(w.exams[w.sessions[s].exam].paper, w.sessions[s], w.answers, w'.answers, s);
    SamePaperSameScore(w.exams[w.sessions[s].exam].paper, w.sessions[s], w'.sessions[s], w'.answers, s);
  }

  lemma {:induction false} ExamPaperKept(x: Session, exam: Exam, exam': Exam)
    requires SessionOk(x, exam) && ExamEvolves(exam, exam')
    ensures exam'.paper == exam.paper
  {
    hide PaperOk;
  }

  lemma {:induction false} SamePaperSameScore(paper: seq<Question>, x: Session, y: Session, answers: map<Key, AnswerRow>, s: nat)
    requires PaperOf(y) == PaperOf(x)
    ensures Graded(paper, y, answers, s) == Graded(paper, x, answers, s)
  {
    hide PaperTotal, AnswersOf, AwardsOf;
  }

  // ---- results ----

  lemma {:induction false} AwardStoresGrade(w: World, s: nat, q: nat, marks: int, t: nat)
    requires AwardMarks(w, s, q, marks).Ok?
    ensures var w' := AwardMarks(w, s, q, marks).value;
            && w'.sessions == w.sessions && w'.exams == w.exams
            && s in w.sessions && w.sessions[s].exam in w.exams
            && s in w'.results && w'.results[s] == Grade(w', s)
            && (t != s ==> Get(w'.results, t) == Get(w.results, t))
  {
    hide Graded, Storable, FindQuestion;
    var marked := w.(answers := w.answers[Key(s, q) := w.answers[Key(s, q)].(awarded := Some(marks))]);
    var w' := AwardMarks(w, s, q, marks).value;
    assert w' == marked.(results := w.results[s := Grade(marked, s)]);
  }

  lemma {:induction false} HandInStoresGrade(w: World, s: nat, mode: SubmitMode, receipt: nat, now: int, t: nat)
    requires Submit(w, s, mode, receipt, now).Ok?
    requires w.sessions[s].submittedAt.None?
    ensures w.sessions[s].exam in w.exams && Submit(w, s, mode, receipt, now).value.results == w.results[s := Grade(w, s)]
    ensures HandsIn(w, HandIn(s, mode, receipt, now), s)
  {
    hide Graded, Storable;
  }

  lemma {:induction false} SweepStoresGrades(w: World, now: int, receipts: nat -> nat, s: nat)
    requires Inv(w) && SweepOnce(w, now, receipts).Ok? && s in w.sessions
    ensures var w' := SweepOnce(w, now, receipts).value;
            && w.sessions[s].exam in w.exams
            && (HandsIn(w, Sweep(now, receipts), s) ==> s in w'.results && w'.results[s] == Grade(w, s))
            && (!HandsIn(w, Sweep(now, receipts), s) ==> Get(w'.results, s) == Get(w.results, s))
  {
    LiveIsDue(w, now);
    SessionIsOk(w, s);
    hide Inv, SweptWorld, Grade, Storable, SessionOk;
    SweptResult(w, DueExams(w, now), now, receipts, s);
  }

  lemma {:induction false} RestKeepResults(w: World, step: Step)
    requires !step.HandIn? && !step.Sweep? && !step.Award?
    ensures Next(w, step).results == w.results
  {
    hide Graded, ChangeSessions, SessionsOf, AddSessions, SeatingChart, Draw, StoreRow, WriteRefusal, FindQuestion;
  }

  lemma {:induction false} FirstHandInResults(w: World, s': nat, mode: SubmitMode, receipt: nat, now: int, s: nat)
    requires s in w.sessions && s' in w.sessions && Submit(w, s', mode, receipt, now).Ok? && w.sessions[s].exam in w.exams
    requires w.sessions[s'].submittedAt.None?
    ensures var w' := Submit(w, s', mode, receipt, now).value;
            if s == s' then s in w'.results && w'.results[s] == Grade(w, s) && HandsIn(w, HandIn(s', mode, receipt, now), s)
            else Get(w'.results, s) == Get(w.results, s)
  {
    HandInStoresGrade(w, s', mode, receipt, now, s);
    hide Submit, Grade, HandsIn;
  }

  lemma {:induction false} HandInResults(w: World, s': nat, mode: SubmitMode, receipt: nat, now: int, s: nat)
    requires Inv(w) && s in w.sessions && s' in w.sessions && Submit(w, s', mode, receipt, now).Ok?
    ensures var step, w' := HandIn(s', mode, receipt, now), Submit(w, s', mode, receipt, now).value;
            && w.sessions[s].exam in w.exams
            && (HandsIn(w, step, s) ==> s in w'.results && w'.results[s] == Grade(w, s))
            && (!HandsIn(w, step, s) ==> Get(w'.results, s) == Get(w.results, s))
  {
    SessionIsOk(w, s);
    SessionIsOk(w, s');
    FinishedHasReceipt(w.sessions[s'], w.exams[w.sessions[s'].exam]);
    OtherHandIn(w, s', mode, receipt, now, s);
    hide Inv, SessionOk, Grade, Submit, HandsIn, Get;
    if w.sessions[s'].submittedAt.None? {
      FirstHandInResults(w, s', mode, receipt, now, s);
    } else {
      SubmittedBefore(w, s', mode, receipt, now);
    }
  }

  lemma {:induction false} OtherHandIn(w: World, s': nat, mode: SubmitMode, receipt: nat, now: int, s: nat)
    ensures HandsIn(w, HandIn(s', mode, receipt, now), s) ==> s' == s && s in w.sessions && w.sessions[s].status == Active
  {
  }

  lemma {:induction false} FinishedHasReceipt(x: Session, exam: Exam)
    requires SessionOk(x, exam)
    ensures HandedIn(x.status) <==> x.submittedAt.Some?
    ensures HandedIn(x.status) <==> x.submissionId.Some?
  {
    hide PaperOk, StatusesAgree;
  }

  lemma {:induction false} SubmittedBefore(w: World, s: nat, mode: SubmitMode, receipt: nat, now: int)
    requires s in w.sessions && w.sessions[s].submittedAt.Some? && w.sessions[s].submissionId.Some?
    ensures Submit(w, s, mode, receipt, now) == Ok(w)
  {
    hide Graded, WriteRefusal;
  }

  predicate MarksSession(step: Step, s: nat) {
    (step.Award? || step.Runner?) && step.session == s
  }

  /** Does an accepted call hand in and grade this session? */
  predicate GradesNow(w: World, step: Step, s: nat) {
    match step
    case HandIn(s', mode, receipt, now) => HandsIn(w, step, s) && Submit(w, s', mode, receipt, now).Ok?
    case Sweep(now, receipts) => HandsIn(w, step, s) && SweepOnce(w, now, receipts).Ok?
    case _ => false
  }

  lemma {:induction false} NextHandIn(w: World, s: nat, mode: SubmitMode, receipt: nat, now: int)
    ensures var r := Submit(w, s, mode, receipt, now); Next(w, HandIn(s, mode, receipt, now)) == if r.Ok? then r.value else w
  {
    hide Submit, SweepOnce, CreateExam, UpdateExam, ScheduleExam, StartExam, EndExam, CancelExam, CheckIn, SaveAnswer, ToggleFlag,
      AwardMarks, RunnerMarks;
  }

  lemma {:induction false} NextAward(w: World, s: nat, q: nat, marks: int)
    ensures var r := AwardMarks(w, s, q, marks); Next(w, Award(s, q, marks)) == if r.Ok? then r.value else w
  {
    hide Submit, SweepOnce, CreateExam, UpdateExam, ScheduleExam, StartExam, EndExam, CancelExam, CheckIn, SaveAnswer, ToggleFlag,
      AwardMarks, RunnerMarks;
  }

  lemma {:induction false} NextRunner(w: World, s: nat, q: nat, award: Option<nat>)
    ensures var r := RunnerMarks(w, s, q, award); Next(w, Runner(s, q, award)) == if r.Ok? then r.value else w
  {
    hide Submit, SweepOnce, CreateExam, UpdateExam, ScheduleExam, StartExam, EndExam, CancelExam, CheckIn, SaveAnswer, ToggleFlag,
      AwardMarks, RunnerMarks;
  }

  lemma {:induction false} NextEnd(w: World, e: nat, now: int, receipts: nat -> nat)
    ensures var r := EndExam(w, e, now, receipts); Next(w, End(e, now, receipts)) == if r.Ok? then r.value else w
  {
    hide Submit, SweepOnce, CreateExam, UpdateExam, ScheduleExam, StartExam, EndExam, CancelExam, CheckIn, SaveAnswer, ToggleFlag,
      AwardMarks, RunnerMarks;
  }

  lemma {:induction false} HandInStep(w: World, s': nat, mode: SubmitMode, receipt: nat, now: int, s: nat)
    requires Inv(w) && s in w.sessions && w.sessions[s].exam in w.exams
    ensures var w', step := Next(w, HandIn(s', mode, receipt, now)), HandIn(s', mode, receipt, now);
            if GradesNow(w, step, s) then s in w'.results && w'.results[s] == Grade(w, s)
            else Get(w'.results, s) == Get(w.results, s)
  {
    NextHandIn(w, s', mode, receipt, now);
    hide Inv, Next, HandsIn, Grade, Get, Submit, SweepOnce;
    if Submit(w, s', mode, receipt, now).Ok? {
      AcceptedHandInExists(w, s', mode, receipt, now);
      HandInResults(w, s', mode, receipt, now, s);
    }
  }

  lemma {:induction false} SweepStep(w: World, now: int, receipts: nat -> nat, s: nat)
    requires Inv(w) && s in w.sessions && w.sessions[s].exam in w.exams
    ensures var w', step := Next(w, Sweep(now, receipts)), Sweep(now, receipts);
            if GradesNow(w, step, s) then s in w'.results && w'.results[s] == Grade(w, s)
            else Get(w'.results, s) == Get(w.results, s)
  {
    NextSweep(w, now, receipts);
    hide Inv, Next, HandsIn, Grade, Get, Submit, SweepOnce;
    if SweepOnce(w, now, receipts).Ok? { SweepStoresGrades(w, now, receipts, s); }
  }

  lemma {:induction false} AwardStep(w: World, s': nat, q: nat, marks: int, s: nat)
    requires s' != s
    ensures Get(Next(w, Award(s', q, marks)).results, s) == Get(w.results, s)
  {
    NextAward(w, s', q, marks);
    hide *;
    if AwardMarks(w, s', q, marks).Ok? { AwardStoresGrade(w, s', q, marks, s); }
  }

  lemma {:induction false} StepResults(w: World, step: Step, s: nat)
    requires Inv(w) && s in w.sessions && w.sessions[s].exam in w.exams && !(step.Award? && step.session == s)
    ensures var w' := Next(w, step);
            if GradesNow(w, step, s) then s in w'.results && w'.results[s] == Grade(w, s)
            else Get(w'.results, s) == Get(w.results, s)
  {
    hide Inv, Next, HandsIn, Grade, Get, Submit, SweepOnce;
    match step
    case HandIn(s', mode, receipt, now) => HandInStep(w, s', mode, receipt, now, s);
    case Sweep(now, receipts) => SweepStep(w, now, receipts, s);
    case Award(s', q, marks) => AwardStep(w, s', q, marks, s);
    case _ => RestKeepResults(w, step);
  }

  lemma {:induction false} AcceptedHandInExists(w: World, s: nat, mode: SubmitMode, receipt: nat, now: int)
    requires Submit(w, s, mode, receipt, now).Ok?
    ensures s in w.sessions
  {
    hide Graded, WriteRefusal;
  }

  lemma {:induction false} RowsKept(w: World, step: Step, s: nat)
    requires s in w.sessions && !MarksSession(step, s)
    requires HandedIn(w.sessions[s].status) || step.HandIn? || step.End? || step.Sweep?
    ensures forall k: Key :: k.session == s ==> Get(Next(w, step).answers, k) == Get(w.answers, k)
  {
    hide Next;
    forall k: Key | k.session == s ensures Get(Next(w, step).answers, k) == Get(w.answers, k) {
      if Get(Next(w, step).answers, k) != Get(w.answers, k) { RowOnlyWrittenOrMarked(w, step, k); }
    }
  }

  /** The result after a call, for a session that is, or now becomes, submitted, where the call
      neither marks one of its answers nor first draws its paper. */
  lemma {:induction false} FreshIs(w: World, s: nat)
    requires s in w.sessions && w.sessions[s].exam in w.exams
    ensures Fresh(w, s) <==> Get(w.results, s) == Some(Grade(w, s))
  {
    hide Grade;
  }

  lemma {:induction false} NotMarkedBy(step: Step, s: nat)
    requires !MarksSession(step, s)
    ensures !(step.Award? && step.session == s)
  {
  }

  lemma {:induction false} GradedIsFresh(w: World, s: nat)
    requires s in w.sessions && w.sessions[s].exam in w.exams && s in w.results && w.results[s] == Grade(w, s)
    ensures Get(w.results, s) == Some(Grade(w, s))
  {
    hide Grade;
  }

  lemma {:induction false} FreshAfter(w: World, step: Step, s: nat)
    requires Inv(w) && s in w.sessions && !MarksSession(step, s) && !FirstDraw(w, step, s)
    requires HandedIn(w.sessions[s].status) || step.HandIn? || step.End? || step.Sweep?
    ensures Fresh(Next(w, step), s) <==> GradesNow(w, step, s) || Fresh(w, s)
  {
    hide *;
    RowsKept(w, step, s);
    GradeKept(w, step, s);
    NotMarkedBy(step, s);
    StepResults(w, step, s);
    FreshIs(w, s);
    FreshIs(Next(w, step), s);
    if GradesNow(w, step, s) { GradedIsFresh(Next(w, step), s); }
  }

  lemma {:induction false} NewlyHandedIn(w: World, step: Step, s: nat)
    requires Inv(w) && s in Next(w, step).sessions && HandedIn(Next(w, step).sessions[s].status)
    ensures s in w.sessions && (HandedIn(w.sessions[s].status) || HandsIn(w, step, s))
  {
    var w' := Next(w, step);
    NextInv(w, step);
    SessionIsOk(w', s);
    FinishedHasReceipt(w'.sessions[s], w'.exams[w'.sessions[s].exam]);
    NewSessionsNotStarted(w, step, s);
    if s in w.sessions {
      SessionIsOk(w, s);
      FinishedHasReceipt(w.sessions[s], w.exams[w.sessions[s].exam]);
      hide Inv, Next, SessionOk, HandsIn;
      if !HandedIn(w.sessions[s].status) { ReceiptOnlyHandedIn(w, step, s); }
    }
  }

  lemma {:induction false} NewSessionsNotStarted(w: World, step: Step, s: nat)
    requires s in Next(w, step).sessions
    ensures s in w.sessions || Next(w, step).sessions[s].status == NotStarted
  {
    if Attempt(w, step).Ok? && step.Schedule? {
      var chart := SeatingChart(w, step.exam, step.machines);
      AddSessionsFacts(w.sessions, step.exam, chart, step.ids);
      hide AddSessions, SeatingChart, MachinesOk;
      assert Next(w, step).sessions == AddSessions(w.sessions, step.exam, chart, step.ids);
    } else {
      hide AddSessions, SeatingChart, Graded, Storable, Draw, Changed, FindQuestion, StoreRow, WriteRefusal;
    }
  }

  // ---- the exact condition ----

  /** Calls that grade again whatever they change are always restful. Ending is when every
      paper it hands in already has its result; the program runner is when the change of award
      cannot be seen in the score. */
  ghost predicate Restful(w: World, step: Step) {
    match step
    case End(e, now, receipts) =>
      EndExam(w, e, now, receipts).Ok? ==>
        forall s :: s in w.sessions && w.sessions[s].exam == e && w.sessions[s].status == Active ==> Fresh(w, s)
    case Runner(s, q, award) =>
      RunnerMarks(w, s, q, award).Ok? && HandedIn(w.sessions[s].status) ==>
        !Shows(w.exams[w.sessions[s].exam].paper, w.sessions[s], w.answers[Key(s, q)], q, award)
    case _ => true
  }

  /** The call draws a paper after its session was handed in. */
  predicate LateDraw(w: World, step: Step) {
    step.Enter? && FirstDraw(w, step, step.session) && HandedIn(w.sessions[step.session].status)
  }

  lemma {:induction false} RunnerFreshness(w: World, s: nat, q: nat, award: Option<nat>)
    requires Inv(w) && Fresh(w, s) && RunnerMarks(w, s, q, award).Ok?
    ensures Fresh(RunnerMarks(w, s, q, award).value, s) <==>
              !Shows(w.exams[w.sessions[s].exam].paper, w.sessions[s], w.answers[Key(s, q)], q, award)
  {
    var x, exam := w.sessions[s], w.exams[w.sessions[s].exam];
    SessionIsOk(w, s);
    PaperDistinct(w, x.exam);
    PaperIdsDistinct(x, exam);
    hide Inv, SessionOk, WellFormedPaper, Graded, Shows, PaperIds;
    AwardVisible(exam.paper, x, w.answers, s, q, award);
  }

  lemma {:induction false} AwardIsFresh(w: World, s: nat, q: nat, marks: int)
    requires AwardMarks(w, s, q, marks).Ok?
    ensures Fresh(AwardMarks(w, s, q, marks).value, s)
  {
    AwardStoresGrade(w, s, q, marks, s);
    hide AwardMarks, Graded;
  }

  /** One session whose answer is marked: fresh afterwards exactly when the call is restful. */
  lemma {:induction false} MarkedFreshness(w: World, step: Step, s: nat)
    requires Inv(w) && Fresh(w, s) && HandedIn(w.sessions[s].status) && MarksSession(step, s)
    ensures Fresh(Next(w, step), s) <==> Restful(w, step)
  {
    hide Inv, Next, Fresh, AwardMarks, RunnerMarks, Shows;
    match step
    case Award(s', q, marks) =>
      NextAward(w, s, q, marks);
      if AwardMarks(w, s, q, marks).Ok? { AwardIsFresh(w, s, q, marks); }
    case Runner(s', q, award) =>
      NextRunner(w, s, q, award);
      FreshHasExam(w, s);
      if RunnerMarks(w, s, q, award).Ok? { RunnerFreshness(w, s, q, award); }
  }

  lemma {:induction false} FreshHasExam(w: World, s: nat)
    requires Fresh(w, s)
    ensures s in w.sessions && w.sessions[s].exam in w.exams
  {
  }

  lemma {:induction false} EndedSession(w: World, e: nat, now: int, receipts: nat -> nat, s: nat)
    requires EndExam(w, e, now, receipts).Ok?
    requires s in w.sessions && w.sessions[s].exam == e && w.sessions[s].status == Active
    ensures var w' := EndExam(w, e, now, receipts).value; s in w'.sessions && HandedIn(w'.sessions[s].status)
  {
    hide ChangeSessions, SessionsOf, WindowOk;
    ExamChangedSession(w, e, EndExam(w, e, now, receipts).value.exams[e], CloseEarly(now, receipts), s);
  }

  lemma {:induction false} EndHandsIn(w: World, e: nat, now: int, receipts: nat -> nat, s: nat)
    requires Inv(w) && EndExam(w, e, now, receipts).Ok?
    requires s in w.sessions && w.sessions[s].exam == e && w.sessions[s].status == Active
    ensures var w' := Next(w, End(e, now, receipts)); s in w'.sessions && HandedIn(w'.sessions[s].status)
  {
    EndedSession(w, e, now, receipts, s);
    NextEnd(w, e, now, receipts);
    hide *;
  }

  lemma {:induction false} EndAccepted(w: World, step: Step, s: nat)
    requires step.End? && s in w.sessions && !HandedIn(w.sessions[s].status)
    requires s in Next(w, step).sessions && HandedIn(Next(w, step).sessions[s].status)
    ensures EndExam(w, step.exam, step.now, step.receipts).Ok?
  {
    NextEnd(w, step.exam, step.now, step.receipts);
    hide EndExam, Next;
  }

  lemma {:induction false} GradingAccepted(w: World, step: Step, s: nat)
    requires HandsIn(w, step, s) && !HandedIn(w.sessions[s].status)
    requires s in Next(w, step).sessions && HandedIn(Next(w, step).sessions[s].status)
    ensures GradesNow(w, step, s) || step.End?
  {
    match step
    case HandIn(s', mode, receipt, now) => NextHandIn(w, s', mode, receipt, now); hide Next, Submit, HandsIn;
    case Sweep(now, receipts) => NextSweep(w, now, receipts); hide Next, SweepOnce, HandsIn;
    case _ =>
  }

  /** Every submitted paper's result stays fresh exactly when the call is restful. */
  lemma {:induction false} StaysFreshIff(w: World, step: Step)
    requires Inv(w) && AllFresh(w) && !LateDraw(w, step)
    ensures AllFresh(Next(w, step)) <==> Restful(w, step)
  {
    var w' := Next(w, step);
    if Restful(w, step) {
      forall s | s in w'.sessions && HandedIn(w'.sessions[s].status) ensures Fresh(w', s) { RestfulKeepsFresh(w, step, s); }
    } else {
      NotRestful(w, step);
    }
  }

  lemma {:induction false} RestfulKeepsFresh(w: World, step: Step, s: nat)
    requires Inv(w) && AllFresh(w) && !LateDraw(w, step) && Restful(w, step)
    requires s in Next(w, step).sessions && HandedIn(Next(w, step).sessions[s].status)
    ensures Fresh(Next(w, step), s)
  {
    NewlyHandedIn(w, step, s);
    hide Inv, Next, Fresh, Restful, HandsIn;
    if HandedIn(w.sessions[s].status) {
      if MarksSession(step, s) {
        MarkedFreshness(w, step, s);
      } else {
        FreshAfter(w, step, s);
      }
    } else {
      NewlyFresh(w, step, s);
    }
  }

  lemma {:induction false} NewlyFresh(w: World, step: Step, s: nat)
    requires Inv(w) && Restful(w, step) && HandsIn(w, step, s)
    requires s in Next(w, step).sessions && HandedIn(Next(w, step).sessions[s].status)
    ensures Fresh(Next(w, step), s)
  {
    hide Inv, Next, Fresh, GradesNow, EndExam;
    FreshAfter(w, step, s);
    GradingAccepted(w, step, s);
    if step.End? { EndAccepted(w, step, s); }
  }

  lemma {:induction false} NotRestful(w: World, step: Step)
    requires Inv(w) && AllFresh(w) && !Restful(w, step)
    ensures !AllFresh(Next(w, step))
  {
    var w' := Next(w, step);
    hide Inv, Next, Fresh, EndExam, RunnerMarks, Shows, GradesNow;
    match step
    case End(e, now, receipts) =>
      var s :| s in w.sessions && w.sessions[s].exam == e && w.sessions[s].status == Active && !Fresh(w, s);
      EndHandsIn(w, e, now, receipts, s);
      FreshAfter(w, step, s);
      EndGradesNothing(w, step, s);
    case Runner(s, q, award) =>
      RunnerFinds(w, s, q, award);
      MarkedFreshness(w, step, s);
      RestKeepSessions(w, step);
  }

  lemma {:induction false} RunnerFinds(w: World, s: nat, q: nat, award: Option<nat>)
    requires RunnerMarks(w, s, q, award).Ok?
    ensures s in w.sessions && w.sessions[s].exam in w.exams && Key(s, q) in w.answers
  {
    hide FindQuestion;
  }

  lemma {:induction false} EndGradesNothing(w: World, step: Step, s: nat)
    requires step.End?
    ensures !GradesNow(w, step, s)
  {
  }

  // ---- a paper drawn too late ----

  lemma {:induction false} MarksSplit(paper: seq<Question>, front: seq<nat>, id: nat, back: seq<nat>)
    ensures MarksOf(paper, front + [id] + back) == MarksOf(paper, front + back) + MarksOf(paper, [id])
  {
    hide MarksOf;
    AvailableIsPaperMarks(paper, front + [id] + back, map[], map[], map[]);
    AvailableIsPaperMarks(paper, front + back, map[], map[], map[]);
    AvailableIsPaperMarks(paper, [id], map[], map[], map[]);
    ScoreIdsSplit(paper, front, id, back, map[], map[], map[]);
    var none: seq<nat> := [];
    ScoreIdsSplit(paper, none, id, none, map[], map[], map[]);
    assert none + [id] + none == [id] && none + none == none;
  }

  /** Part of a paper is worth less than the whole. */
  lemma {:induction false} PartIsWorthLess(paper: seq<Question>, part: seq<nat>, whole: seq<nat>)
    requires WellFormedPaper(paper) && Distinct(part) && Distinct(whole) && |part| < |whole|
    requires forall id :: id in part ==> id in whole
    requires forall id :: id in whole ==> id in IdsOf(paper)
    ensures MarksOf(paper, part) < MarksOf(paper, whole)
  {
    if part == [] {
      MarkedPaper(paper, whole);
    } else {
      var last, init := part[|part| - 1], part[..|part| - 1];
      assert last in part;
      var front, back := SplitAround(whole, last);
      forall id | id in init ensures id in front + back { assert id in part && id in whole && id != last; }
      assert Distinct(front + back) by { RemoveKeepsDistinct(front, last, back); }
      forall id | id in front + back ensures id in IdsOf(paper) { assert id in whole; }
      PartIsWorthLess(paper, init, front + back);
      MarksSplit(paper, front, last, back);
      MarksSplit(paper, init, last, []);
      assert part == init + [last] + [] && init + [] == init;
    }
  }

  lemma {:induction false} RemoveKeepsDistinct(front: seq<nat>, id: nat, back: seq<nat>)
    requires Distinct(front + [id] + back)
    ensures Distinct(front + back)
  {
    var whole, rest := front + [id] + back, front + back;
    forall i, j | 0 <= i < j < |rest| ensures rest[i] != rest[j] {
      var i', j' := if i < |front| then i else i + 1, if j < |front| then j else j + 1;
      assert rest[i] == whole[i'] && rest[j] == whole[j'];
    }
  }

  lemma {:induction false} CutPaperWorthLess(x: Session, y: Session, exam: Exam, answers: map<Key, AnswerRow>, s: nat)
    requires WellFormedPaper(exam.paper) && PaperOk(y, exam) && x.order.None? && y.order.Some?
    requires PaperLength(|exam.paper|, exam.config) != |exam.paper|
    ensures Graded(exam.paper, y, answers, s) != Graded(exam.paper, x, answers, s)
  {
    var paper, order := exam.paper, y.order.value;
    assert order != [] && |order| < |paper|;
    PartIsWorthLess(paper, order, IdsOf(paper));
    hide MarksOf, ScoreIds, AnswersOf, AwardsOf, WellFormedPaper;
    AvailableIsPaperMarks(paper, order, y.optionOrder, AnswersOf(answers, s), AwardsOf(answers, s));
    AvailableIsPaperMarks(paper, IdsOf(paper), x.optionOrder, AnswersOf(answers, s), AwardsOf(answers, s));
  }

  /** A candidate who first enters after the paper was handed in gets it drawn then. When the
      draw leaves questions out, the stored result is from then on out of date. */
  lemma {:induction false} LateDrawMakesStale(w: World, s: nat, onMachine: bool, now: int, choices: Shuffle.Choices)
    requires Inv(w) && Fresh(w, s) && HandedIn(w.sessions[s].status) && !PaperSettled(w, s)
    ensures !Fresh(Next(w, Enter(s, onMachine, now, choices)), s)
  {
    var step := Enter(s, onMachine, now, choices);
    var w' := Next(w, step);
    NextInv(w, step);
    EnteredLate(w, s, onMachine, now, choices);
    SessionIsOk(w', s);
    PaperDistinct(w, w.sessions[s].exam);
    hide Inv, Next, Graded, WellFormedPaper, PaperLength;
    CutPaperWorthLess(w.sessions[s], w'.sessions[s], w.exams[w.sessions[s].exam], w.answers, s);
  }

  lemma {:induction false} EnteredLate(w: World, s: nat, onMachine: bool, now: int, choices: Shuffle.Choices)
    requires s in w.sessions && w.sessions[s].exam in w.exams
    ensures var w' := Next(w, Enter(s, onMachine, now, choices));
            && w'.exams == w.exams && w'.answers == w.answers && w'.results == w.results
            && s in w'.sessions && w'.sessions[s].exam == w.sessions[s].exam && w'.sessions[s].order.Some?
  {
    hide Draw;
  }

  // ---- whole runs ----

  lemma {:induction false} EmptyIsFresh()
    ensures AllFresh(EMPTY)
  {
  }

  /** Every call of the run is restful when it is made, and none draws a paper late. */
  ghost predicate RestfulRun(steps: seq<Step>) {
    forall i :: 0 <= i < |steps| ==>
      !LateDraw(Run(EMPTY, steps[..i]), steps[i]) && Restful(Run(EMPTY, steps[..i]), steps[i])
  }

  /** Any run, of any length, of calls that are restful when made ends with the stored result of
      every submitted paper equal to grading it again, marks and number waiting included. */
  lemma {:induction false} RestfulRunIsFresh(steps: seq<Step>)
    requires RestfulRun(steps)
    ensures AllFresh(Run(EMPTY, steps))
  {
    if steps == [] {
      EmptyIsFresh();
    } else {
      var init, last := steps[..|steps| - 1], steps[|steps| - 1];
      assert RestfulRun(init) by {
        forall i | 0 <= i < |init| ensures steps[..i] == init[..i] && steps[i] == init[i] { }
        hide LateDraw, Restful, Run;
        forall i | 0 <= i < |init|
          ensures !LateDraw(Run(EMPTY, init[..i]), init[i]) && Restful(Run(EMPTY, init[..i]), init[i])
        {
          assert steps[..i] == init[..i] && steps[i] == init[i];
        }
      }
      RestfulRunIsFresh(init);
      EmptyInv();
      RunInv(EMPTY, init);
      hide Inv, Next, AllFresh, LateDraw, Restful;
      StaysFreshIff(Run(EMPTY, init), last);
    }
  }
}
