/** Windows, deadlines and submission receipts over whole runs. */
module EngineReceipts {
  import opened Basics
  import opened Transitions
  import opened Paper
  import opened PaperScore
  import opened AnswerRows
  import opened Engine
  import opened EngineInvariant
  import opened EngineHistory

  // ---- the window ----

  /** Once an exam has started, no start changes anything: not the window, nor any candidate's
      start time. A retry is answered with the stored window, anything else is refused. */
  lemma {:induction false} RepeatedStartChangesNothing(w: World, e: nat, key: Option<string>, now: int)
    requires Inv(w) && e in w.exams && w.exams[e].startsAt.Some?
    ensures Next(w, Start(e, key, now)) == w
    ensures StartExam(w, e, key, now).Ok? <==> w.exams[e].status == Live && (key.None? || key == w.exams[e].startKey)
  {
    ExamIsOk(w, e);
    hide Inv, ChangeSessions, Distinct, WellFormedPaper;
  }

  /** The first start stamps `now` and `now + duration`, and releases every candidate there is
      at `now`. */
  lemma {:induction false} FirstStartStampsWindow(w: World, e: nat, key: Option<string>, now: int, s: nat)
    requires Inv(w) && e in w.exams && w.exams[e].startsAt.None?
    requires StartExam(w, e, key, now).Ok?
    requires s in w.sessions && w.sessions[s].exam == e
    ensures var w' := StartExam(w, e, key, now).value;
            && e in w'.exams && s in w'.sessions
            && w'.exams[e].status == Live && w'.exams[e].startsAt == Some(now)
            && w'.exams[e].endsAt == Some(now + w.exams[e].duration * MINUTE)
            && w'.sessions[s].status == Active && w'.sessions[s].startedAt == Some(now)
  {
    hide *;
    SessionIsOk(w, s);
    StartedWorld(w, e, key, now);
    StartableIsReady(w, e, key, now);
    ExamChangedSession(w, e, Started(w.exams[e], key, now), Release(now), s);
    ExamChangedExam(w, e, Started(w.exams[e], key, now), Release(now));
    StartedFields(w.exams[e], key, now);
    ReleasedRow(w.sessions[s], w.exams[e], s, now);
  }

  lemma {:induction false} ExamChangedExam(w: World, e: nat, x: Exam, c: Change)
    ensures e in ExamChanged(w, e, x, c).exams && ExamChanged(w, e, x, c).exams[e] == x
  {
    hide ChangeSessions;
  }

  lemma {:induction false} StartedFields(x: Exam, key: Option<string>, now: int)
    ensures Started(x, key, now).status == Live && Started(x, key, now).startsAt == Some(now)
    ensures Started(x, key, now).endsAt == Some(now + x.duration * MINUTE)
  {
  }

  lemma {:induction false} StartableIsReady(w: World, e: nat, key: Option<string>, now: int)
    requires e in w.exams && w.exams[e].startsAt.None? && StartExam(w, e, key, now).Ok?
    ensures w.exams[e].status == Ready
  {
    hide ChangeSessions, WindowOk;
  }

  lemma {:induction false} ReleasedRow(x: Session, exam: Exam, s: nat, now: int)
    requires SessionOk(x, exam) && exam.status == Ready
    ensures Changed(Release(now), s, x).status == Active && Changed(Release(now), s, x).startedAt == Some(now)
  {
    hide PaperOk;
  }

  // ---- the deadline ----

  /** The call may write an answer or hand in a paper: the candidate is sitting the exam and
      the deadline has not passed. */
  predicate Writable(w: World, s: nat, now: int) {
    && s in w.sessions && w.sessions[s].exam in w.exams
    && w.exams[w.sessions[s].exam].status == Live && w.sessions[s].status == Active
    && (w.exams[w.sessions[s].exam].endsAt.Some? ==> now <= w.exams[w.sessions[s].exam].endsAt.value)
  }

  /** `step` is a write of answer `k` by its candidate, in time. */
  predicate WritesInTime(w: World, step: Step, k: Key) {
    || (step.SaveStep? && Key(step.session, step.question) == k && Writable(w, k.session, step.now))
    || (step.FlagStep? && Key(step.session, step.question) == k && Writable(w, k.session, step.now))
  }

  lemma {:induction false} DeliveryKeepsOthers(w: World, k: Key, row: Option<AnswerRow>, k': Key)
    requires k' != k
    ensures Get(StoreRow(w.answers, k, row), k') == Get(w.answers, k')
  {
  }

  lemma {:induction false} SweepKeepsAnswers(w: World, now: int, receipts: nat -> nat)
    requires SweepOnce(w, now, receipts).Ok?
    ensures SweepOnce(w, now, receipts).value.answers == w.answers
  {
    hide Changed, Graded, Closed, ChangeSessions, Storable;
  }

  /** The only thing that ever changes what a candidate wrote or flagged is that candidate
      writing it, while the exam is live, the session active and the deadline not past. */
  lemma {:induction false} OnlyWritesInTime(w: World, step: Step, k: Key)
    requires Content(Get(Next(w, step).answers, k)) != Content(Get(w.answers, k))
    ensures WritesInTime(w, step, k)
  {
    hide Content, Deliver, SaveRow, FlagRow, ChangeSessions, SessionsOf, AddSessions, SeatingChart, Graded, Storable, Draw, SweepOnce;
    match step
    case SaveStep(s, q, value, clientSeq, now) =>
      if Key(s, q) != k && Attempt(w, step).Ok? { DeliveryKeepsOthers(w, Key(s, q), SaveRow(Get(w.answers, Key(s, q)), value, clientSeq), k); }
    case FlagStep(s, q, now) =>
      if Key(s, q) != k && Attempt(w, step).Ok? { DeliveryKeepsOthers(w, Key(s, q), FlagRow(Get(w.answers, Key(s, q))), k); }
    case Award(s, q, marks) =>
      if Attempt(w, step).Ok? { AwardedContent(w, Key(s, q), Some(marks), k); }
    case Runner(s, q, award) =>
      if Attempt(w, step).Ok? { AwardedContent(w, Key(s, q), award, k); }
    case Sweep(now, receipts) =>
      if Attempt(w, step).Ok? { SweepKeepsAnswers(w, now, receipts); }
    case _ =>
  }

  lemma {:induction false} AwardedContent(w: World, k: Key, award: Option<nat>, k': Key)
    requires k in w.answers
    ensures Content(Get(w.answers[k := w.answers[k].(awarded := award)], k')) == Content(Get(w.answers, k'))
  {
  }

  /** The time a candidate's own call arrives. */
  function CandidateTime(step: Step): Option<int> {
    match step
    case SaveStep(_, _, _, _, now) => Some(now)
    case FlagStep(_, _, now) => Some(now)
    case HandIn(_, _, _, now) => Some(now)
    case _ => None
  }

  /** Every candidate's call of the run arrives after `deadline`. */
  predicate AllAfter(steps: seq<Step>, deadline: int) {
    forall i :: 0 <= i < |steps| && CandidateTime(steps[i]).Some? ==> CandidateTime(steps[i]).value > deadline
  }

  lemma {:induction false} EvolvesAt(w: World, v: World, s: nat)
    requires Evolves(w, v) && s in w.sessions && w.sessions[s].exam in w.exams
    ensures s in v.sessions && SessionEvolves(w.sessions[s], v.sessions[s]) && v.sessions[s].exam == w.sessions[s].exam
    ensures w.sessions[s].exam in v.exams && ExamEvolves(w.exams[w.sessions[s].exam], v.exams[w.sessions[s].exam])
  {
    hide ExamEvolves, Content;
  }

  lemma {:induction false} DeadlineOnlyEarlier(w: World, steps: seq<Step>, s: nat)
    requires Inv(w) && s in w.sessions && w.sessions[s].exam in w.exams && w.exams[w.sessions[s].exam].endsAt.Some?
    ensures var v := Run(w, steps);
            && Inv(v) && s in v.sessions && v.sessions[s].exam == w.sessions[s].exam && v.sessions[s].exam in v.exams
            && v.exams[v.sessions[s].exam].endsAt.Some?
            && v.exams[v.sessions[s].exam].endsAt.value <= w.exams[w.sessions[s].exam].endsAt.value
  {
    RunInv(w, steps);
    RunEvolves(w, steps);
    EvolvesAt(w, Run(w, steps), s);
    SessionIsOk(Run(w, steps), s);
    hide Inv, Run, Evolves, SessionOk;
  }

  /** However late the sweep is, and whatever else happens meanwhile: once the deadline has
      passed, nothing a candidate of that exam sends changes any answer. */
  lemma {:induction false} NothingAfterDeadline(w: World, steps: seq<Step>, k: Key)
    requires Inv(w) && k.session in w.sessions && w.sessions[k.session].exam in w.exams
    requires w.exams[w.sessions[k.session].exam].endsAt.Some?
    requires AllAfter(steps, w.exams[w.sessions[k.session].exam].endsAt.value)
    ensures Content(Get(Run(w, steps).answers, k)) == Content(Get(w.answers, k))
  {
    hide Inv, Content, Next;
    if steps != [] {
      var init, last := steps[..|steps| - 1], steps[|steps| - 1];
      NothingAfterDeadline(w, init, k);
      DeadlineOnlyEarlier(w, init, k.session);
      var v := Run(w, init);
      if Content(Get(Next(v, last).answers, k)) != Content(Get(v.answers, k)) {
        OnlyWritesInTime(v, last, k);
      }
    }
  }

  /** And no paper is handed in by its candidate after the deadline: such a call is refused, or
      answered with the receipt of a submission that is already there. */
  lemma {:induction false} NoSubmissionAfterDeadline(w: World, steps: seq<Step>, s: nat, mode: SubmitMode, receipt: nat, now: int)
    requires Inv(w) && s in w.sessions && w.sessions[s].exam in w.exams && w.exams[w.sessions[s].exam].endsAt.Some?
    requires now > w.exams[w.sessions[s].exam].endsAt.value
    ensures Next(Run(w, steps), HandIn(s, mode, receipt, now)) == Run(w, steps)
  {
    DeadlineOnlyEarlier(w, steps, s);
    LateHandInIgnored(Run(w, steps), s, mode, receipt, now);
    hide *;
  }

  lemma {:induction false} LateHandInIgnored(w: World, s: nat, mode: SubmitMode, receipt: nat, now: int)
    requires s in w.sessions && w.sessions[s].exam in w.exams && w.exams[w.sessions[s].exam].endsAt.Some?
    requires now > w.exams[w.sessions[s].exam].endsAt.value
    ensures Next(w, HandIn(s, mode, receipt, now)) == w
  {
    hide Graded, Storable;
  }

  // ---- who may hand a paper in ----

  function ReceiptFields(x: Session): (Option<int>, Option<SubmitMode>, Option<nat>) {
    (x.submittedAt, x.mode, x.submissionId)
  }

  /** A session's receipt is written in three ways only: by its candidate in time, by staff
      ending the live exam, or by the sweep once the deadline has come. */
  predicate HandsIn(w: World, step: Step, s: nat) {
    && s in w.sessions && w.sessions[s].exam in w.exams
    && w.exams[w.sessions[s].exam].status == Live && w.sessions[s].status == Active
    && ( || (step.HandIn? && step.session == s && Writable(w, s, step.now))
         || (step.End? && step.exam == w.sessions[s].exam)
         || (step.Sweep? && Due(w.exams[w.sessions[s].exam], step.now)))
  }

  lemma {:induction false} ChangedReceipt(c: Change, s: nat, x: Session)
    requires ReceiptFields(Changed(c, s, x)) != ReceiptFields(x)
    ensures x.status == Active && (c.CloseEarly? || c.Expire?)
  {
  }

  lemma {:induction false} LiveIfActive(w: World, s: nat)
    requires Inv(w) && s in w.sessions && w.sessions[s].status == Active
    ensures w.sessions[s].exam in w.exams && w.exams[w.sessions[s].exam].status == Live
  {
    SessionIsOk(w, s);
    hide Inv;
  }

  lemma {:induction false} EnterKeepsReceipts(w: World, s': nat, onMachine: bool, now: int, choices: Shuffle.Choices, s: nat)
    requires s in w.sessions
    ensures var w' := Next(w, Enter(s', onMachine, now, choices));
            s in w'.sessions && ReceiptFields(w'.sessions[s]) == ReceiptFields(w.sessions[s])
  {
    hide Draw;
  }

  lemma {:induction false} BulkReceipt(w: World, e: nat, x: Exam, c: Change, s: nat)
    requires s in w.sessions
    ensures var w' := ExamChanged(w, e, x, c);
            && s in w'.sessions
            && (ReceiptFields(w'.sessions[s]) != ReceiptFields(w.sessions[s]) ==>
                  w.sessions[s].exam == e && w.sessions[s].status == Active && (c.CloseEarly? || c.Expire?))
  {
    ExamChangedSession(w, e, x, c, s);
    hide Changed, ChangeSessions, ReceiptFields;
    if ReceiptFields(Changed(c, s, w.sessions[s])) != ReceiptFields(w.sessions[s]) { ChangedReceipt(c, s, w.sessions[s]); }
  }

  lemma {:induction false} SweptReceipt(w: World, now: int, receipts: nat -> nat, s: nat)
    requires Inv(w) && s in w.sessions && SweepOnce(w, now, receipts).Ok?
    ensures var w' := SweepOnce(w, now, receipts).value;
            && s in w'.sessions
            && (ReceiptFields(w'.sessions[s]) != ReceiptFields(w.sessions[s]) ==>
                  w.sessions[s].exam in DueExams(w, now) && w.sessions[s].status == Active)
  {
    LiveIsDue(w, now);
    hide Inv, Changed, SweptWorld, ReceiptFields, DueExams, Grade, Storable;
    SweptSession(w, DueExams(w, now), now, receipts, s);
    if ReceiptFields(Changed(Expire(now, receipts), s, w.sessions[s])) != ReceiptFields(w.sessions[s]) {
      ChangedReceipt(Expire(now, receipts), s, w.sessions[s]);
    }
  }

  lemma {:induction false} RestKeepSessions(w: World, step: Step)
    requires step.Create? || step.Update? || step.SaveStep? || step.FlagStep? || step.Award? || step.Runner?
    ensures Next(w, step).sessions == w.sessions
  {
    hide Graded, Storable, StoreRow, WriteRefusal;
  }

  lemma {:induction false} ScheduleKeepsReceipts(w: World, e: nat, machines: seq<Seating.Workstation>, ids: seq<nat>, s: nat)
    requires s in w.sessions
    ensures var w' := Next(w, Schedule(e, machines, ids));
            s in w'.sessions && w'.sessions[s] == w.sessions[s]
  {
    hide SeatingChart, AddSessions, FreshIds, MachinesOk;
    if ScheduleExam(w, e, machines, ids).Ok? { AddSessionsKeeps(w, e, SeatingChart(w, e, machines), ids); }
  }

  lemma {:induction false} StartKeepsReceipts(w: World, e: nat, key: Option<string>, now: int, s: nat)
    requires s in w.sessions
    ensures var w' := Next(w, Start(e, key, now));
            s in w'.sessions && ReceiptFields(w'.sessions[s]) == ReceiptFields(w.sessions[s])
  {
    if StartExam(w, e, key, now).Ok? {
      StartedWorld(w, e, key, now);
      hide StartExam, Changed, ChangeSessions, ReceiptFields;
      BulkReceipt(w, e, Started(w.exams[e], key, now), Release(now), s);
    }
  }

  lemma {:induction false} EndReceipts(w: World, e: nat, now: int, receipts: nat -> nat, s: nat)
    requires Inv(w) && s in w.sessions
    ensures var w' := Next(w, End(e, now, receipts));
            && s in w'.sessions
            && (ReceiptFields(w'.sessions[s]) != ReceiptFields(w.sessions[s]) ==> HandsIn(w, End(e, now, receipts), s))
  {
    hide Inv, Changed, ChangeSessions, ReceiptFields, SessionsOf, WindowOk;
    if EndExam(w, e, now, receipts).Ok? {
      BulkReceipt(w, e, EndExam(w, e, now, receipts).value.exams[e], CloseEarly(now, receipts), s);
      if w.sessions[s].status == Active { LiveIfActive(w, s); }
    }
  }

  lemma {:induction false} CancelKeepsReceipts(w: World, e: nat, s: nat)
    requires s in w.sessions
    ensures var w' := Next(w, Cancel(e));
            s in w'.sessions && ReceiptFields(w'.sessions[s]) == ReceiptFields(w.sessions[s])
  {
    hide Changed, ChangeSessions, ReceiptFields, SessionsOf;
    if CancelExam(w, e).Ok? { BulkReceipt(w, e, CancelExam(w, e).value.exams[e], CallOff, s); }
  }

  lemma {:induction false} SweepReceipts(w: World, now: int, receipts: nat -> nat, s: nat)
    requires Inv(w) && s in w.sessions
    ensures var w' := Next(w, Sweep(now, receipts));
            && s in w'.sessions
            && (ReceiptFields(w'.sessions[s]) != ReceiptFields(w.sessions[s]) ==> HandsIn(w, Sweep(now, receipts), s))
  {
    hide Inv, SweepOnce, ReceiptFields;
    if SweepOnce(w, now, receipts).Ok? {
      SweptReceipt(w, now, receipts, s);
      if w.sessions[s].status == Active { LiveIfActive(w, s); }
    }
  }

  lemma {:induction false} HandInReceipts(w: World, s': nat, mode: SubmitMode, receipt: nat, now: int, s: nat)
    requires s in w.sessions
    ensures var w' := Next(w, HandIn(s', mode, receipt, now));
            && s in w'.sessions
            && (ReceiptFields(w'.sessions[s]) != ReceiptFields(w.sessions[s]) ==> HandsIn(w, HandIn(s', mode, receipt, now), s))
  {
    hide Graded, Storable;
  }

  lemma {:induction false} ReceiptOnlyHandedIn(w: World, step: Step, s: nat)
    requires Inv(w) && s in w.sessions && s in Next(w, step).sessions
    requires ReceiptFields(Next(w, step).sessions[s]) != ReceiptFields(w.sessions[s])
    ensures HandsIn(w, step, s)
  {
    hide Inv, Next, ReceiptFields, HandsIn, Changed;
    NextIsAttempt(w, step);
    match step
    case Schedule(e, machines, ids) => ScheduleKeepsReceipts(w, e, machines, ids, s);
    case Start(e, key, now) => StartKeepsReceipts(w, e, key, now, s);
    case End(e, now, receipts) => EndReceipts(w, e, now, receipts, s);
    case Cancel(e) => CancelKeepsReceipts(w, e, s);
    case Sweep(now, receipts) => SweepReceipts(w, now, receipts, s);
    case Enter(s', onMachine, now, choices) => EnterKeepsReceipts(w, s', onMachine, now, choices, s);
    case HandIn(s', mode, receipt, now) => HandInReceipts(w, s', mode, receipt, now, s);
    case _ => RestKeepSessions(w, step);
  }

  // ---- the receipt a candidate is shown ----

  datatype Receipt = Receipt(submissionId: Option<nat>, submittedAt: Option<int>, mode: SubmitMode,
                             answered: nat, questions: nat, flagged: nat)

  function AnsweredKeys(answers: map<Key, AnswerRow>, s: nat): set<Key> {
    set k | k in answers && k.session == s && answers[k].value.Some?
  }

  function FlaggedKeys(answers: map<Key, AnswerRow>, s: nat): set<Key> {
    set k | k in answers && k.session == s && answers[k].flagged
  }

  function ReceiptOf(w: World, s: nat): Receipt
    requires s in w.sessions && w.sessions[s].exam in w.exams
  {
    var x := w.sessions[s];
    Receipt(x.submissionId, x.submittedAt, if x.mode.Some? then x.mode.value else Manual,
            |AnsweredKeys(w.answers, s)|, |PaperIds(w.exams[x.exam].paper, x.order)|, |FlaggedKeys(w.answers, s)|)
  }

  /** The paper was drawn before submission, or drawing it later would keep every question. */
  predicate PaperSettled(w: World, s: nat)
    requires s in w.sessions && w.sessions[s].exam in w.exams
  {
    var exam := w.exams[w.sessions[s].exam];
    w.sessions[s].order.Some? || PaperLength(|exam.paper|, exam.config) == |exam.paper|
  }

  lemma {:induction false} CountsKept(a: map<Key, AnswerRow>, b: map<Key, AnswerRow>, s: nat)
    requires forall k: Key :: k.session == s ==> Content(Get(b, k)) == Content(Get(a, k))
    ensures AnsweredKeys(b, s) == AnsweredKeys(a, s) && FlaggedKeys(b, s) == FlaggedKeys(a, s)
  {
    forall k: Key | k.session == s
      ensures k in AnsweredKeys(b, s) <==> k in AnsweredKeys(a, s)
      ensures k in FlaggedKeys(b, s) <==> k in FlaggedKeys(a, s)
    {
      assert Content(Get(b, k)) == Content(Get(a, k));
    }
  }

  /** How many questions a well-kept session counts. */
  lemma {:induction false} QuestionCount(x: Session, exam: Exam)
    requires SessionOk(x, exam)
    ensures |PaperIds(exam.paper, x.order)|
         == if x.order.Some? then PaperLength(|exam.paper|, exam.config) else |exam.paper|
  {
  }

  /** A finished session and a later moment of the same run. */
  lemma {:induction false} FinishedLater(w: World, steps: seq<Step>, s: nat)
    requires Inv(w) && s in w.sessions && HandedIn(w.sessions[s].status)
    ensures var v := Run(w, steps);
            && Inv(v) && s in v.sessions && v.sessions[s].exam == w.sessions[s].exam && v.sessions[s].exam in v.exams
            && w.sessions[s].exam in w.exams
            && v.sessions[s].status == w.sessions[s].status && ReceiptFields(v.sessions[s]) == ReceiptFields(w.sessions[s])
            && v.exams[v.sessions[s].exam].paper == w.exams[w.sessions[s].exam].paper
            && v.exams[v.sessions[s].exam].config == w.exams[w.sessions[s].exam].config
            && (w.sessions[s].order.Some? ==>
                  v.sessions[s].order == w.sessions[s].order && v.sessions[s].optionOrder == w.sessions[s].optionOrder)
            && (forall k: Key :: k.session == s ==> Content(Get(v.answers, k)) == Content(Get(w.answers, k)))
  {
    var v := Run(w, steps);
    RunInv(w, steps);
    RunEvolves(w, steps);
    SessionIsOk(w, s);
    SessionIsOk(v, s) by { EvolvesAt(w, v, s); }
    EvolvesAt(w, v, s);
    ContentKept(w, v, s);
    FinishedRow(w.sessions[s], v.sessions[s], w.exams[w.sessions[s].exam], v.exams[w.sessions[s].exam]);
    hide *;
  }

  lemma {:induction false} ContentKept(w: World, v: World, s: nat)
    requires Evolves(w, v) && s in w.sessions && HandedIn(w.sessions[s].status)
    ensures forall k: Key :: k.session == s ==> Content(Get(v.answers, k)) == Content(Get(w.answers, k))
  {
    hide Content, ExamEvolves, SessionEvolves;
  }

  lemma {:induction false} FinishedRow(x: Session, y: Session, exam: Exam, exam': Exam)
    requires SessionOk(x, exam) && HandedIn(x.status) && SessionEvolves(x, y) && ExamEvolves(exam, exam')
    ensures y.status == x.status && ReceiptFields(y) == ReceiptFields(x)
    ensures exam'.paper == exam.paper && exam'.config == exam.config
    ensures x.order.Some? ==> y.order == x.order && y.optionOrder == x.optionOrder
  {
    hide ValidDraw, PaperOk;
  }

  /** After submission every later submit, at any point of any run, is answered without changing
      anything and with the same receipt: same id, time, mode and counts. */
  lemma {:induction false} SubmittedOnce(w: World, steps: seq<Step>, s: nat, mode: SubmitMode, receipt: nat, now: int)
    requires Inv(w) && s in w.sessions && HandedIn(w.sessions[s].status) && w.sessions[s].exam in w.exams
    requires PaperSettled(w, s)
    ensures var v := Run(w, steps);
            && s in v.sessions && v.sessions[s].exam in v.exams
            && Submit(v, s, mode, receipt, now) == Ok(v)
            && ReceiptOf(v, s) == ReceiptOf(w, s)
  {
    var v := Run(w, steps);
    FinishedLater(w, steps, s);
    SessionIsOk(w, s);
    SessionIsOk(v, s);
    QuestionCount(w.sessions[s], w.exams[w.sessions[s].exam]);
    QuestionCount(v.sessions[s], v.exams[v.sessions[s].exam]);
    CountsKept(w.answers, v.answers, s);
    hide Inv, Run, Content, AnsweredKeys, FlaggedKeys, PaperIds, PaperOk, PaperLength, StatusesAgree;
  }

  /** The condition is exact: a paper first drawn after submission changes the number of
      questions the receipt reports. */
  lemma {:induction false} LateDrawChangesReceipt(w: World, s: nat, onMachine: bool, now: int, choices: Shuffle.Choices)
    requires Inv(w) && s in w.sessions && HandedIn(w.sessions[s].status) && w.sessions[s].exam in w.exams
    ensures var v := Run(w, [Enter(s, onMachine, now, choices)]);
            && s in v.sessions && v.sessions[s].exam in v.exams
            && (ReceiptOf(v, s) == ReceiptOf(w, s) <==> PaperSettled(w, s))
  {
    var steps := [Enter(s, onMachine, now, choices)];
    var v := Run(w, steps);
    FinishedLater(w, steps, s);
    SessionIsOk(w, s);
    SessionIsOk(v, s);
    QuestionCount(w.sessions[s], w.exams[w.sessions[s].exam]);
    QuestionCount(v.sessions[s], v.exams[v.sessions[s].exam]);
    CountsKept(w.answers, v.answers, s);
    EnterDraws(w, s, onMachine, now, choices);
    hide Inv, Run, Content, AnsweredKeys, FlaggedKeys, PaperIds, PaperOk, PaperLength, StatusesAgree;
  }

  lemma {:induction false} EnterDraws(w: World, s: nat, onMachine: bool, now: int, choices: Shuffle.Choices)
    requires s in w.sessions && w.sessions[s].exam in w.exams
    ensures var v := Run(w, [Enter(s, onMachine, now, choices)]);
            s in v.sessions && v.sessions[s].order.Some?
  {
    hide Draw;
    var steps := [Enter(s, onMachine, now, choices)];
    assert steps[..0] == [];
    assert Run(w, steps) == Next(w, steps[0]);
  }
}
