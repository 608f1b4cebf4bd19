/** How stored rows may change from one moment of a run to a later one: lifecycles follow
    their tables, what is stamped once stays, and a finished session is frozen. */
module EngineHistory {
  import opened Basics
  import opened Transitions
  import opened Shuffle
  import opened Paper
  import opened Grading
  import opened PaperScore
  import opened AnswerRows
  import opened Seating
  import opened Engine
  import opened EngineInvariant

  // ---- one moment against a later one ----

  /** The exam's status has moved along its table; the start is stamped at most once; the end
      only ever moves earlier, and only by closing the exam; once scheduled, roster, paper and
      duration stay; a finished exam does not change at all. */
  ghost predicate ExamEvolves(x: Exam, y: Exam) {
    && ExamReach(x.status, y.status)
    && (x.startsAt.Some? ==> y.startsAt == x.startsAt)
    && (x.endsAt.Some? ==> y.endsAt.Some? && y.endsAt.value <= x.endsAt.value)
    && (x.endsAt.Some? && y.endsAt != x.endsAt ==> y.status == Completed)
    && (x.status != Draft ==>
          && y.status != Draft
          && y.paper == x.paper && y.roster == x.roster && y.config == x.config && y.duration == x.duration)
    && (TerminalExam(x.status) ==> y == x)
    && x.eventSeq <= y.eventSeq
  }

  /** The session's status has moved along its table; seat and candidate stay; a drawn paper
      and a start time are never replaced; once handed in, the receipt stays. */
  ghost predicate SessionEvolves(x: Session, y: Session) {
    && SessionReach(x.status, y.status)
    && y.exam == x.exam && y.student == x.student && y.computer == x.computer
    && (x.order.Some? ==> y.order == x.order && y.optionOrder == x.optionOrder)
    && (x.startedAt.Some? ==> y.startedAt == x.startedAt)
    && (x.submittedAt.Some? ==> y.submittedAt == x.submittedAt && y.mode == x.mode && y.submissionId == x.submissionId)
  }

  /** What a candidate wrote and flagged; marks are left aside. */
  function Content(row: Option<AnswerRow>): Option<(Option<AnswerValue>, bool, int)> {
    if row.None? then None else Some((row.value.value, row.value.flagged, row.value.clientSeq))
  }

  ghost predicate Evolves(w: World, w': World) {
    && (forall e :: e in w.exams ==> e in w'.exams && ExamEvolves(w.exams[e], w'.exams[e]))
    && (forall s :: s in w.sessions ==> s in w'.sessions && SessionEvolves(w.sessions[s], w'.sessions[s]))
    && (forall k: Key :: k.session in w.sessions && TerminalSession(w.sessions[k.session].status) ==>
          Content(Get(w'.answers, k)) == Content(Get(w.answers, k)))
  }

  lemma {:induction false} ExamEvolvesTransitive(x: Exam, y: Exam, z: Exam)
    requires ExamEvolves(x, y) && ExamEvolves(y, z)
    ensures ExamEvolves(x, z)
  {
  }

  lemma {:induction false} SessionEvolvesTransitive(x: Session, y: Session, z: Session)
    requires SessionEvolves(x, y) && SessionEvolves(y, z)
    ensures SessionEvolves(x, z)
  {
  }

  lemma {:induction false} TerminalStays(x: Session, y: Session)
    requires SessionEvolves(x, y) && TerminalSession(x.status)
    ensures y.status == x.status
  {
  }

  lemma {:induction false} EvolvesTransitive(w: World, v: World, u: World)
    requires Evolves(w, v) && Evolves(v, u)
    ensures Evolves(w, u)
  {
    hide ExamEvolves, SessionEvolves, Content;
    forall e | e in w.exams ensures e in u.exams && ExamEvolves(w.exams[e], u.exams[e]) {
      ExamEvolvesTransitive(w.exams[e], v.exams[e], u.exams[e]);
    }
    forall s | s in w.sessions ensures s in u.sessions && SessionEvolves(w.sessions[s], u.sessions[s]) {
      SessionEvolvesTransitive(w.sessions[s], v.sessions[s], u.sessions[s]);
    }
    forall k: Key | k.session in w.sessions && TerminalSession(w.sessions[k.session].status)
      ensures Content(Get(u.answers, k)) == Content(Get(w.answers, k))
    {
      TerminalStays(w.sessions[k.session], v.sessions[k.session]);
    }
  }

  lemma {:induction false} EvolvesReflexive(w: World)
    ensures Evolves(w, w)
  {
  }

  // ---- one step ----

  lemma {:induction false} CreateEvolves(w: World, e: nat, draft: ExamDraft)
    requires CreateExam(w, e, draft).Ok?
    ensures Evolves(w, CreateExam(w, e, draft).value)
  {
    hide Content, Distinct, WellFormedPaper;
  }

  /** One exam row and any session rows rewritten, each a continuation of what was there. */
  lemma {:induction false} RowsWrittenEvolve(w: World, e: nat, x: Exam, sessions: map<nat, Session>)
    requires e in w.exams && ExamEvolves(w.exams[e], x)
    requires forall s :: s in w.sessions ==> s in sessions && SessionEvolves(w.sessions[s], sessions[s])
    ensures Evolves(w, w.(exams := w.exams[e := x], sessions := sessions))
  {
    hide ExamEvolves, SessionEvolves, Content;
    forall y: Exam ensures ExamEvolves(y, y) { ExamEvolvesReflexive(y); }
  }

  lemma {:induction false} SessionsEvolveReflexive(w: World)
    ensures forall s :: s in w.sessions ==> SessionEvolves(w.sessions[s], w.sessions[s])
  {
    hide SessionEvolves;
    forall s | s in w.sessions ensures SessionEvolves(w.sessions[s], w.sessions[s]) { SessionEvolvesReflexive(w.sessions[s]); }
  }

  lemma {:induction false} PatchedEvolves(x: Exam, patch: ExamPatch)
    requires ExamOk(x) && x.status == Draft
    ensures ExamEvolves(x, Patched(x, patch))
  {
    hide Distinct, WellFormedPaper;
  }

  lemma {:induction false} UpdateEvolves(w: World, e: nat, patch: ExamPatch)
    requires Inv(w) && UpdateExam(w, e, patch).Ok?
    ensures Evolves(w, UpdateExam(w, e, patch).value)
  {
    ExamIsOk(w, e);
    hide Inv, Evolves, ExamEvolves, SessionEvolves, ExamOk, Patched, Distinct, WellFormedPaper;
    PatchedEvolves(w.exams[e], patch);
    SessionsEvolveReflexive(w);
    RowsWrittenEvolve(w, e, Patched(w.exams[e], patch), w.sessions);
    assert w.(exams := w.exams[e := Patched(w.exams[e], patch)], sessions := w.sessions) == UpdateExam(w, e, patch).value;
  }

  lemma {:induction false} ScheduledExamEvolves(x: Exam)
    requires CanExamMove(x.status, ExamStatus.Scheduled)
    ensures ExamEvolves(x, x.(status := Ready, eventSeq := x.eventSeq + 1))
  {
  }

  lemma {:induction false} AddSessionsKeeps(w: World, e: nat, chart: seq<SeatAssignment>, ids: seq<nat>)
    requires |ids| == |chart| && FreshIds(w, ids)
    ensures forall s :: s in w.sessions ==>
              s in AddSessions(w.sessions, e, chart, ids) && AddSessions(w.sessions, e, chart, ids)[s] == w.sessions[s]
  {
    AddSessionsFacts(w.sessions, e, chart, ids);
    hide AddSessions;
  }

  lemma {:induction false} ScheduledEvolves(w: World, e: nat, chart: seq<SeatAssignment>, ids: seq<nat>)
    requires e in w.exams && CanExamMove(w.exams[e].status, ExamStatus.Scheduled)
    requires |ids| == |chart| && FreshIds(w, ids)
    ensures Evolves(w, Scheduled'(w, e, chart, ids))
  {
    AddSessionsKeeps(w, e, chart, ids);
    ScheduledExamEvolves(w.exams[e]);
    SessionsEvolveReflexive(w);
    hide Evolves, ExamEvolves, SessionEvolves, AddSessions, FreshIds, CanExamMove;
    var x := w.exams[e];
    RowsWrittenEvolve(w, e, x.(status := Ready, eventSeq := x.eventSeq + 1), AddSessions(w.sessions, e, chart, ids));
  }

  lemma {:induction false} ScheduleEvolves(w: World, e: nat, machines: seq<Workstation>, ids: seq<nat>)
    requires ScheduleExam(w, e, machines, ids).Ok?
    ensures Evolves(w, ScheduleExam(w, e, machines, ids).value)
  {
    hide Evolves, FreshIds, SeatingChart, MachinesOk, AddSessions;
    ScheduledEvolves(w, e, SeatingChart(w, e, machines), ids);
    assert ScheduleExam(w, e, machines, ids).value == Scheduled'(w, e, SeatingChart(w, e, machines), ids);
  }

  lemma {:induction false} ExamChangeEvolves(w: World, e: nat, x: Exam, c: Change)
    requires e in w.exams && ExamEvolves(w.exams[e], x)
    requires forall s :: s in w.sessions && w.sessions[s].exam == e ==> SessionEvolves(w.sessions[s], Changed(c, s, w.sessions[s]))
    ensures Evolves(w, ExamChanged(w, e, x, c))
  {
    hide ExamEvolves, SessionEvolves, Content, Changed, ChangeSessions;
    SameSessions(w, e, x, c);
    forall s | s in w.sessions ensures SessionEvolves(w.sessions[s], ExamChanged(w, e, x, c).sessions[s]) {
      ExamChangedSession(w, e, x, c, s);
      SessionEvolvesReflexive(w.sessions[s]);
    }
    forall y: Exam ensures ExamEvolves(y, y) { ExamEvolvesReflexive(y); }
  }

  lemma {:induction false} SessionEvolvesReflexive(x: Session)
    ensures SessionEvolves(x, x)
  {
  }

  lemma {:induction false} ExamEvolvesReflexive(x: Exam)
    ensures ExamEvolves(x, x)
  {
  }

  /** Each of the four bulk changes moves a well-kept session along its table. */
  lemma {:induction false} ChangedEvolves(c: Change, s: nat, x: Session, exam: Exam)
    requires SessionOk(x, exam)
    ensures SessionEvolves(x, Changed(c, s, x))
  {
    hide ValidDraw;
  }

  lemma {:induction false} ChangedEvolvesAll(w: World, c: Change)
    requires Inv(w)
    ensures forall s :: s in w.sessions ==> SessionEvolves(w.sessions[s], Changed(c, s, w.sessions[s]))
  {
    hide Inv, SessionOk, SessionEvolves, Changed;
    forall s | s in w.sessions ensures SessionEvolves(w.sessions[s], Changed(c, s, w.sessions[s])) {
      SessionIsOk(w, s);
      ChangedEvolves(c, s, w.sessions[s], w.exams[w.sessions[s].exam]);
    }
  }

  lemma {:induction false} StartedEvolves(x: Exam, y: Exam)
    requires ExamOk(x) && x.status == Ready && y.status == Live
    requires y.paper == x.paper && y.roster == x.roster && y.config == x.config && y.duration == x.duration
    requires x.eventSeq <= y.eventSeq
    ensures ExamEvolves(x, y)
  {
    hide Distinct, WellFormedPaper;
  }

  lemma {:induction false} EndedEvolves(x: Exam, now: int)
    requires ExamOk(x) && x.status == Live
    ensures ExamEvolves(x, x.(status := Completed, endsAt := Some(Earlier(x.endsAt, now)), endedAt := Some(now),
                              eventSeq := x.eventSeq + 1))
  {
    hide Distinct, WellFormedPaper;
  }

  lemma {:induction false} CalledOffEvolves(x: Exam)
    requires CanExamMove(x.status, Cancelled)
    ensures ExamEvolves(x, x.(status := Cancelled, eventSeq := x.eventSeq + 1))
  {
  }

  ghost function Started(x: Exam, key: Option<string>, now: int): Exam {
    x.(startsAt := Some(now), endsAt := Some(now + x.duration * MINUTE), status := Live,
       startKey := key, eventSeq := x.eventSeq + 1)
  }

  /** Starting an exam that has not started opens its window; otherwise nothing happens. */
  lemma {:induction false} StartedWorld(w: World, e: nat, key: Option<string>, now: int)
    requires StartExam(w, e, key, now).Ok?
    ensures StartExam(w, e, key, now).value ==
              if w.exams[e].status == Ready then ExamChanged(w, e, Started(w.exams[e], key, now), Release(now)) else w
  {
    hide ChangeSessions, SessionsOf, WindowOk;
  }

  lemma {:induction false} StartEvolves(w: World, e: nat, key: Option<string>, now: int)
    requires Inv(w) && StartExam(w, e, key, now).Ok?
    ensures Evolves(w, StartExam(w, e, key, now).value)
  {
    ExamIsOk(w, e);
    StartedWorld(w, e, key, now);
    ChangedEvolvesAll(w, Release(now));
    hide *;
    if w.exams[e].status == Ready {
      StartedRow(w.exams[e], key, now);
      ExamChangeEvolves(w, e, Started(w.exams[e], key, now), Release(now));
    } else {
      EvolvesReflexive(w);
    }
  }

  lemma {:induction false} StartedRow(x: Exam, key: Option<string>, now: int)
    requires ExamOk(x) && x.status == Ready
    ensures ExamEvolves(x, Started(x, key, now))
  {
    hide ExamOk, ExamEvolves;
    StartedEvolves(x, Started(x, key, now));
  }

  lemma {:induction false} ExamIsOk(w: World, e: nat)
    requires Inv(w)
    ensures e in w.exams ==> ExamOk(w.exams[e])
  {
  }

  lemma {:induction false} EndEvolves(w: World, e: nat, now: int, receipt: nat -> nat)
    requires Inv(w) && EndExam(w, e, now, receipt).Ok?
    ensures Evolves(w, EndExam(w, e, now, receipt).value)
  {
    ExamIsOk(w, e);
    ChangedEvolvesAll(w, CloseEarly(now, receipt));
    hide Inv, Changed, SessionEvolves, ChangeSessions, ExamOk, ExamEvolves, Evolves;
    var x := w.exams[e];
    var x' := x.(status := Completed, endsAt := Some(Earlier(x.endsAt, now)), endedAt := Some(now),
                 eventSeq := x.eventSeq + 1);
    EndedEvolves(x, now);
    ExamChangeEvolves(w, e, x', CloseEarly(now, receipt));
    assert EndExam(w, e, now, receipt).value == ExamChanged(w, e, x', CloseEarly(now, receipt));
  }

  lemma {:induction false} CancelledWorld(w: World, e: nat)
    requires CancelExam(w, e).Ok?
    ensures e in w.exams && CanExamMove(w.exams[e].status, Cancelled)
    ensures CancelExam(w, e).value
         == ExamChanged(w, e, w.exams[e].(status := Cancelled, eventSeq := w.exams[e].eventSeq + 1), CallOff)
  {
    hide ChangeSessions, SessionsOf;
  }

  lemma {:induction false} CancelEvolves(w: World, e: nat)
    requires Inv(w) && CancelExam(w, e).Ok?
    ensures Evolves(w, CancelExam(w, e).value)
  {
    CancelledWorld(w, e);
    hide *;
    ChangedEvolvesAll(w, CallOff);
    CalledOffEvolves(w.exams[e]);
    ExamChangeEvolves(w, e, w.exams[e].(status := Cancelled, eventSeq := w.exams[e].eventSeq + 1), CallOff);
  }

  lemma {:induction false} SweptEvolves(w: World, due: set<nat>, now: int, receipt: nat -> nat)
    requires Inv(w) && due <= w.exams.Keys && forall e :: e in due ==> w.exams[e].status == Live
    ensures Evolves(w, SweptWorld(w, due, now, receipt))
  {
    ChangedEvolvesAll(w, Expire(now, receipt));
    hide Inv, Changed, SessionEvolves, ExamEvolves, SweptWorld, Content, Closed;
    var w' := SweptWorld(w, due, now, receipt);
    SweptKeys(w, due, now, receipt);
    forall s | s in w.sessions ensures SessionEvolves(w.sessions[s], w'.sessions[s]) {
      SweptSession(w, due, now, receipt, s);
      SessionEvolvesReflexive(w.sessions[s]);
    }
    forall e | e in w.exams ensures ExamEvolves(w.exams[e], w'.exams[e]) {
      SweptExam(w, due, now, receipt, e);
      ExamEvolvesReflexive(w.exams[e]);
      if e in due { ClosedEvolves(w.exams[e], now); }
    }
    SweptAnswers(w, due, now, receipt);
  }

  lemma {:induction false} SweepEvolves(w: World, now: int, receipt: nat -> nat)
    requires Inv(w) && SweepOnce(w, now, receipt).Ok?
    ensures Evolves(w, SweepOnce(w, now, receipt).value)
  {
    LiveIsDue(w, now);
    hide Inv, Evolves, SweptWorld, Grade, Storable, DueExams;
    SweptEvolves(w, DueExams(w, now), now, receipt);
  }

  lemma {:induction false} ClosedEvolves(x: Exam, now: int)
    requires x.status == Live
    ensures ExamEvolves(x, Closed(x, now))
  {
  }

  lemma {:induction false} SweptAnswers(w: World, exams: set<nat>, now: int, receipt: nat -> nat)
    requires exams <= w.exams.Keys
    ensures SweptWorld(w, exams, now, receipt).answers == w.answers
  {
    hide Changed, Graded, Closed;
  }

  lemma {:induction false} SessionWrittenEvolves(w: World, s: nat, x: Session)
    requires s in w.sessions && SessionEvolves(w.sessions[s], x)
    ensures Evolves(w, w.(sessions := w.sessions[s := x]))
  {
    hide SessionEvolves, ExamEvolves, Content;
    forall y: Exam ensures ExamEvolves(y, y) { ExamEvolvesReflexive(y); }
    forall y: Session ensures SessionEvolves(y, y) { SessionEvolvesReflexive(y); }
  }

  lemma {:induction false} CheckInEvolves(w: World, s: nat, onMachine: bool, now: int, choices: Choices)
    requires CheckIn(w, s, onMachine, now, choices).Ok?
    ensures Evolves(w, CheckIn(w, s, onMachine, now, choices).value)
  {
    hide Draw, Evolves;
    var exam := w.exams[w.sessions[s].exam];
    SessionWrittenEvolves(w, s, CheckedInRow(w.sessions[s], onMachine, now, Draw(exam.paper, exam.config, choices)));
  }

  lemma {:induction false} ResultsIrrelevant(w: World, v: World, results: map<nat, Score>)
    requires Evolves(w, v)
    ensures Evolves(w, v.(results := results))
  {
  }

  lemma {:induction false} HandedInEvolves(x: Session, exam: Exam, mode: SubmitMode, receipt: nat, now: int)
    requires SessionOk(x, exam) && x.status == Active
    ensures SessionEvolves(x, HandedInRow(x, mode, receipt, now))
  {
    hide ValidDraw;
  }

  lemma {:induction false} SubmitEvolves(w: World, s: nat, mode: SubmitMode, receipt: nat, now: int)
    requires Inv(w) && Submit(w, s, mode, receipt, now).Ok?
    ensures Evolves(w, Submit(w, s, mode, receipt, now).value)
  {
    SessionIsOk(w, s);
    hide Inv, Evolves, SessionOk, SessionEvolves, Graded, Storable, HandedInRow;
    if w.sessions[s].submittedAt.Some? && w.sessions[s].submissionId.Some? {
      EvolvesReflexive(w);
    } else {
      var x' := HandedInRow(w.sessions[s], mode, receipt, now);
      HandedInEvolves(w.sessions[s], w.exams[w.sessions[s].exam], mode, receipt, now);
      SessionWrittenEvolves(w, s, x');
      ResultsIrrelevant(w, w.(sessions := w.sessions[s := x']), w.results[s := Grade(w, s)]);
      SubmittedWorld(w, s, mode, receipt, now);
    }
  }

  lemma {:induction false} SubmittedWorld(w: World, s: nat, mode: SubmitMode, receipt: nat, now: int)
    requires Submit(w, s, mode, receipt, now).Ok?
    requires !(w.sessions[s].submittedAt.Some? && w.sessions[s].submissionId.Some?)
    ensures w.sessions[s].exam in w.exams
    ensures Submit(w, s, mode, receipt, now).value
         == w.(sessions := w.sessions[s := HandedInRow(w.sessions[s], mode, receipt, now)], results := w.results[s := Grade(w, s)])
  {
    hide Graded, Storable;
  }

  /** A changed answer leaves everything in place if its session is not finished, or if only
      its marks change. */
  lemma {:induction false} AnswerWrittenEvolves(w: World, k: Key, row: AnswerRow)
    requires k.session in w.sessions
    requires TerminalSession(w.sessions[k.session].status) ==> Content(Some(row)) == Content(Get(w.answers, k))
    ensures Evolves(w, w.(answers := w.answers[k := row]))
  {
    hide SessionEvolves, ExamEvolves, Content, TerminalSession;
    forall y: Exam ensures ExamEvolves(y, y) { ExamEvolvesReflexive(y); }
    forall y: Session ensures SessionEvolves(y, y) { SessionEvolvesReflexive(y); }
  }

  lemma {:induction false} DeliveryEvolves(w: World, s: nat, q: nat, d: Delivery, now: int)
    requires WriteRefusal(w, s, now).None?
    ensures Evolves(w, w.(answers := StoreRow(w.answers, Key(s, q), Deliver(Get(w.answers, Key(s, q)), d))))
  {
    hide Deliver, Content, Evolves;
    var row := Deliver(Get(w.answers, Key(s, q)), d);
    if row.Some? {
      AnswerWrittenEvolves(w, Key(s, q), row.value);
    } else {
      EvolvesReflexive(w);
      assert w.(answers := w.answers) == w;
    }
  }

  lemma {:induction false} AwardEvolves(w: World, s: nat, q: nat, marks: int)
    requires AwardMarks(w, s, q, marks).Ok?
    ensures Evolves(w, AwardMarks(w, s, q, marks).value)
  {
    hide Evolves, Graded, Storable;
    var k := Key(s, q);
    var marked := w.(answers := w.answers[k := w.answers[k].(awarded := Some(marks))]);
    AnswerWrittenEvolves(w, k, w.answers[k].(awarded := Some(marks)));
    ResultsIrrelevant(w, marked, w.results[s := Grade(marked, s)]);
  }

  lemma {:induction false} RunnerEvolves(w: World, s: nat, q: nat, award: Option<nat>)
    requires RunnerMarks(w, s, q, award).Ok?
    ensures Evolves(w, RunnerMarks(w, s, q, award).value)
  {
    hide Evolves;
    AnswerWrittenEvolves(w, Key(s, q), w.answers[Key(s, q)].(awarded := award));
  }

  lemma {:induction false} SaveEvolves(w: World, s: nat, q: nat, value: AnswerValue, clientSeq: nat, now: int)
    requires SaveAnswer(w, s, q, value, clientSeq, now).Ok?
    ensures Evolves(w, SaveAnswer(w, s, q, value, clientSeq, now).value)
  {
    hide Evolves;
    DeliveryEvolves(w, s, q, Save(value, clientSeq), now);
  }

  lemma {:induction false} FlagEvolves(w: World, s: nat, q: nat, now: int)
    requires ToggleFlag(w, s, q, now).Ok?
    ensures Evolves(w, ToggleFlag(w, s, q, now).value)
  {
    hide Evolves;
    DeliveryEvolves(w, s, q, Flag, now);
  }

  lemma {:induction false} NextEvolves(w: World, step: Step)
    requires Inv(w)
    ensures Evolves(w, Next(w, step))
  {
    hide Inv, Evolves, UpdateExam, CreateExam, ScheduleExam, StartExam, EndExam, CancelExam, CheckIn, SaveAnswer, ToggleFlag,
      Submit, SweepOnce, AwardMarks, RunnerMarks;
    if Attempt(w, step).Err? {
      EvolvesReflexive(w);
    } else {
      match step
      case Create(e, draft) => CreateEvolves(w, e, draft);
      case Update(e, patch) => UpdateEvolves(w, e, patch);
      case Schedule(e, machines, ids) => ScheduleEvolves(w, e, machines, ids);
      case Start(e, key, now) => StartEvolves(w, e, key, now);
      case End(e, now, receipts) => EndEvolves(w, e, now, receipts);
      case Cancel(e) => CancelEvolves(w, e);
      case Enter(s, onMachine, now, choices) => CheckInEvolves(w, s, onMachine, now, choices);
      case SaveStep(s, q, value, clientSeq, now) => SaveEvolves(w, s, q, value, clientSeq, now);
      case FlagStep(s, q, now) => FlagEvolves(w, s, q, now);
      case HandIn(s, mode, receipt, now) => SubmitEvolves(w, s, mode, receipt, now);
      case Sweep(now, receipts) => SweepEvolves(w, now, receipts);
      case Award(s, q, marks) => AwardEvolves(w, s, q, marks);
      case Runner(s, q, award) => RunnerEvolves(w, s, q, award);
    }
  }

  // ---- whole runs ----

  lemma {:induction false} RunSplit(w: World, before: seq<Step>, after: seq<Step>)
    ensures Run(w, before + after) == Run(Run(w, before), after)
  {
    hide Next;
    if after == [] {
      assert before + after == before;
    } else {
      RunSplit(w, before, after[..|after| - 1]);
      assert (before + after)[..|before + after| - 1] == before + after[..|after| - 1];
    }
  }

  /** Between any two moments of any run, rows have only evolved. */
  lemma {:induction false} RunEvolves(w: World, steps: seq<Step>)
    requires Inv(w)
    ensures Evolves(w, Run(w, steps))
  {
    hide Inv, Evolves, Next;
    if steps == [] {
      EvolvesReflexive(w);
    } else {
      var init := steps[..|steps| - 1];
      RunEvolves(w, init);
      RunInv(w, init);
      NextEvolves(Run(w, init), steps[|steps| - 1]);
      EvolvesTransitive(w, Run(w, init), Run(w, steps));
    }
  }

  /** For every run from the empty system, with a first part and a rest: both moments are
      well kept, and the later one has only evolved from the earlier one. */
  lemma {:induction false} History(before: seq<Step>, after: seq<Step>)
    ensures Inv(Run(EMPTY, before)) && Inv(Run(EMPTY, before + after))
    ensures Evolves(Run(EMPTY, before), Run(EMPTY, before + after))
  {
    EmptyInv();
    RunInv(EMPTY, before);
    RunInv(EMPTY, before + after);
    RunSplit(EMPTY, before, after);
    hide Inv, Evolves, Run;
    RunEvolves(Run(EMPTY, before), after);
  }
}
