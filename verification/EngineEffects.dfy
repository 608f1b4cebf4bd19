/** What single calls do to the rows they are about, said without the step functions. */
module EngineEffects {
  import opened Basics
  import opened Transitions
  import opened Paper
  import opened PaperScore
  import opened AnswerRows
  import opened Seating
  import opened Engine
  import opened EngineInvariant
  import opened EngineHistory
  import opened EngineReceipts
  import opened EngineSweep
  import opened EngineResults

  // ---- drafting ----

  /** The edit that replaces everything a draft says. */
  function EditTo(draft: ExamDraft): ExamPatch {
    ExamPatch(Some(draft.duration), Some(draft.config), Some(draft.roster), Some(draft.paper))
  }

  /** An exam is created exactly from a draft with a question, a legal duration, and nothing
      repeated in roster or paper, under an id that is not taken. */
  lemma {:induction false} CreateAcceptedIff(w: World, e: nat, draft: ExamDraft)
    ensures CreateExam(w, e, draft).Ok? <==>
              && e !in w.exams && draft.paper != [] && 5 <= draft.duration <= 480
              && Distinct(draft.roster) && WellFormedPaper(draft.paper)
    ensures CreateExam(w, e, draft).Ok? ==>
              var w' := CreateExam(w, e, draft).value;
              && e in w'.exams && w'.exams[e].status == Draft && w'.exams[e].startsAt.None?
              && UpdateExam(w', e, EditTo(draft)) == Ok(w')
              && w'.sessions == w.sessions && w'.answers == w.answers && w'.results == w.results
  {
    hide Distinct, WellFormedPaper;
    if CreateExam(w, e, draft).Ok? {
      var w' := CreateExam(w, e, draft).value;
      assert Patched(w'.exams[e], EditTo(draft)) == w'.exams[e];
      assert w'.exams[e := w'.exams[e]] == w'.exams;
    }
  }

  /** Creating one draft and editing it into another is creating the other. */
  lemma {:induction false} EditingIsRecreating(w: World, e: nat, draft: ExamDraft, draft': ExamDraft)
    requires CreateExam(w, e, draft).Ok? && CreateExam(w, e, draft').Ok?
    ensures UpdateExam(CreateExam(w, e, draft).value, e, EditTo(draft')) == CreateExam(w, e, draft')
  {
    hide Distinct, WellFormedPaper;
    var x := CreateExam(w, e, draft).value.exams[e];
    WrittenTwice(w.exams, e, x, Patched(x, EditTo(draft')));
    assert Patched(x, EditTo(draft')) == CreateExam(w, e, draft').value.exams[e];
  }

  lemma {:induction false} WrittenTwice<K, V>(m: map<K, V>, k: K, a: V, b: V)
    ensures m[k := a][k := b] == m[k := b]
  {
  }

  /** Editing twice is editing once with the later value of each field that has one. */
  lemma {:induction false} EditsCompose(w: World, e: nat, first: ExamPatch, second: ExamPatch)
    requires UpdateExam(w, e, first).Ok?
    ensures var both := ExamPatch(
              if second.duration.Some? then second.duration else first.duration,
              if second.config.Some? then second.config else first.config,
              if second.roster.Some? then second.roster else first.roster,
              if second.paper.Some? then second.paper else first.paper);
            UpdateExam(UpdateExam(w, e, first).value, e, second) == UpdateExam(w, e, both)
  {
    hide Distinct, WellFormedPaper;
    var x := Patched(w.exams[e], first);
    WrittenTwice(w.exams, e, x, Patched(x, second));
  }

  // ---- seating ----

  lemma {:induction false} RosterIsSeated(w: World, e: nat)
    requires Inv(w) && e in w.exams && HasSessions(w.exams[e].status)
    ensures forall student :: student in w.exams[e].roster ==> student in SeatedStudents(w, e)
  {
    forall student | student in w.exams[e].roster ensures student in SeatedStudents(w, e) {
      assert SeatedIn(w, e, student);
      var s :| s in w.sessions && w.sessions[s].exam == e && w.sessions[s].student == student;
      assert s in SessionsOf(w, e);
    }
  }

  /** Scheduling an exam that is already READY is allowed, and seats nobody again. */
  lemma {:induction false} RescheduleSeatsNobody(w: World, e: nat, machines: seq<Workstation>, ids: seq<nat>)
    requires Inv(w) && e in w.exams && w.exams[e].status == Ready && ScheduleExam(w, e, machines, ids).Ok?
    ensures ScheduleExam(w, e, machines, ids).value.sessions == w.sessions
  {
    RosterIsSeated(w, e);
    SecondSchedulingSeatsNobody(w.exams[e].roster, machines, OccupiedMachines(w, e), SeatedStudents(w, e));
    hide Inv, Allocate, OccupiedMachines, SeatedStudents, MachinesOk;
  }

  /** After scheduling, each enrolled candidate has one session of the exam and no more. */
  lemma {:induction false} ScheduledOnceEach(w: World, e: nat, machines: seq<Workstation>, ids: seq<nat>, student: nat)
    requires Inv(w) && ScheduleExam(w, e, machines, ids).Ok? && student in w.exams[e].roster
    ensures var w' := ScheduleExam(w, e, machines, ids).value;
            && (exists s :: s in w'.sessions && w'.sessions[s].exam == e && w'.sessions[s].student == student)
            && (forall s, t ::
                  (s in w'.sessions && t in w'.sessions && w'.sessions[s].exam == e && w'.sessions[t].exam == e
                   && w'.sessions[s].student == w'.sessions[t].student) ==> s == t)
            && (forall s, t ::
                  (s in w'.sessions && t in w'.sessions && w'.sessions[s].exam == e && w'.sessions[t].exam == e
                   && w'.sessions[s].computer.Some? && w'.sessions[s].computer == w'.sessions[t].computer) ==> s == t)
  {
    ScheduleInv(w, e, machines, ids);
    ScheduledExam(w, e, machines, ids);
    hide ExamsOk, SessionsOk, AnswersOk, ScheduleExam;
    var w' := ScheduleExam(w, e, machines, ids).value;
    assert SeatedIn(w', e, student);
    forall s, t | s in w'.sessions && t in w'.sessions && w'.sessions[s].exam == e && w'.sessions[t].exam == e
      ensures w'.sessions[s].student == w'.sessions[t].student ==> s == t
      ensures w'.sessions[s].computer.Some? && w'.sessions[s].computer == w'.sessions[t].computer ==> s == t
    {
      assert EngineInvariant.SameSeat(w'.sessions[s], w'.sessions[t]) ==> s == t;
    }
  }

  lemma {:induction false} ScheduledExam(w: World, e: nat, machines: seq<Workstation>, ids: seq<nat>)
    requires ScheduleExam(w, e, machines, ids).Ok?
    ensures e in w.exams && e in ScheduleExam(w, e, machines, ids).value.exams
    ensures ScheduleExam(w, e, machines, ids).value.exams[e].status == Ready
    ensures ScheduleExam(w, e, machines, ids).value.exams[e].roster == w.exams[e].roster
  {
    hide SeatingChart, AddSessions, MachinesOk, FreshIds;
  }

  /** The sessions scheduling adds are the seats of a chart: each new one is a candidate of the
      roster at that seat's machine, not started; every session there was stays as it was. */
  lemma {:induction false} ScheduledSeats(w: World, e: nat, machines: seq<Workstation>, ids: seq<nat>, s: nat)
    requires ScheduleExam(w, e, machines, ids).Ok?
    ensures var w' := ScheduleExam(w, e, machines, ids).value;
            && e in w.exams && e in w'.exams
            && (s in w.sessions ==> s in w'.sessions && w'.sessions[s] == w.sessions[s])
            && (s in w'.sessions && s !in w.sessions ==>
                  var chart := SeatingChart(w, e, machines);
                  exists i :: 0 <= i < |chart| == |ids| && ids[i] == s
                    && w'.sessions[s].exam == e && w'.sessions[s].student == chart[i].studentId
                    && w'.sessions[s].computer == chart[i].computerId && w'.sessions[s].status == NotStarted)
    ensures Chart(SeatingChart(w, e, machines), ToSeat(w.exams[e].roster, SeatedStudents(w, e)), LabOf(machines), OccupiedMachines(w, e))
  {
    var chart := SeatingChart(w, e, machines);
    AddSessionsFacts(w.sessions, e, chart, ids);
    MachinesWellFormed(machines);
    AllocateIsChart(w.exams[e].roster, machines, OccupiedMachines(w, e), SeatedStudents(w, e));
    hide AddSessions, Allocate, OccupiedMachines, SeatedStudents, MachinesOk, Chart, ToSeat, LabOf;
  }

  /** Which schedulings are accepted: a draft or READY exam with a roster that fits its lab, the
      lab's unique columns being unique and every new session getting a fresh id. */
  lemma {:induction false} ScheduleAcceptedIff(w: World, e: nat, machines: seq<Workstation>, ids: seq<nat>)
    ensures ScheduleExam(w, e, machines, ids).Ok? <==>
              && e in w.exams && (w.exams[e].status == Draft || w.exams[e].status == Ready)
              && 0 < |w.exams[e].roster| <= |machines|
              && MachinesOk(machines) && FreshIds(w, ids) && |ids| == |ToSeat(w.exams[e].roster, SeatedStudents(w, e))|
  {
    hide MachinesOk, FreshIds, AddSessions, OccupiedMachines, SeatedStudents, Queue, ToSeat;
  }

  // ---- starting ----

  /** Retrying a start with its own key, or with none, is answered with what the first did. */
  lemma {:induction false} RetryAnswered(w: World, e: nat, key: Option<string>, now: int, now': int)
    requires Inv(w) && StartExam(w, e, key, now).Ok?
    ensures StartExam(StartExam(w, e, key, now).value, e, key, now') == StartExam(w, e, key, now)
    ensures StartExam(StartExam(w, e, key, now).value, e, None, now') == StartExam(w, e, key, now)
  {
    StartInv(w, e, key, now);
    StartedWorld(w, e, key, now);
    var w' := StartExam(w, e, key, now).value;
    StartLeavesLive(w, e, key, now);
    RepeatedStartChangesNothing(w', e, key, now');
    RepeatedStartChangesNothing(w', e, None, now');
    AnsweredStart(w', e, key, now');
    AnsweredStart(w', e, None, now');
    hide *;
  }

  lemma {:induction false} AnsweredStart(w: World, e: nat, key: Option<string>, now: int)
    requires StartExam(w, e, key, now).Ok? && w.exams[e].status == Live
    ensures StartExam(w, e, key, now) == Ok(w)
  {
    StartedWorld(w, e, key, now);
    hide StartExam;
  }

  lemma {:induction false} StartLeavesLive(w: World, e: nat, key: Option<string>, now: int)
    requires Inv(w) && StartExam(w, e, key, now).Ok?
    ensures var w' := StartExam(w, e, key, now).value;
            && e in w'.exams && w'.exams[e].status == Live && w'.exams[e].startsAt.Some?
            && (key.None? || key == w'.exams[e].startKey)
  {
    ExamIsOk(w, e);
    hide Inv, ChangeSessions, SessionsOf, Distinct, WellFormedPaper;
  }

  /** Which schedulings, starts, ends and cancellations are accepted. The clock only matters to an
      end that would come no later than the start. */
  lemma {:induction false} LifecycleAcceptedIff(w: World, e: nat, machines: seq<Workstation>, ids: seq<nat>, key: Option<string>, now: int,
                                                receipts: nat -> nat)
    requires Inv(w) && e in w.exams
    ensures ScheduleExam(w, e, machines, ids).Ok? <==>
              && (w.exams[e].status == Draft || w.exams[e].status == Ready)
              && 0 < |w.exams[e].roster| <= |machines|
              && MachinesOk(machines) && FreshIds(w, ids) && |ids| == |ToSeat(w.exams[e].roster, SeatedStudents(w, e))|
    ensures StartExam(w, e, key, now).Ok? <==>
              || w.exams[e].status == Ready
              || (w.exams[e].status == Live && (key.None? || key == w.exams[e].startKey))
    ensures EndExam(w, e, now, receipts).Ok? <==>
              w.exams[e].status == Live && w.exams[e].startsAt.Some? && now > w.exams[e].startsAt.value
    ensures CancelExam(w, e).Ok? <==> !TerminalExam(w.exams[e].status)
  {
    ExamIsOk(w, e);
    ScheduleAcceptedIff(w, e, machines, ids);
    hide ScheduleExam, MachinesOk, FreshIds, ToSeat, SeatedStudents;
    hide Inv, ChangeSessions, SessionsOf, Distinct, WellFormedPaper;
  }

  // ---- the event sequence ----

  /** A call moves an exam's event number by one at most, and by one whenever its status moves. */
  ghost predicate Numbered(x: Exam, y: Exam) {
    && x.eventSeq <= y.eventSeq <= x.eventSeq + 1
    && (y.status != x.status ==> y.eventSeq == x.eventSeq + 1)
  }

  lemma {:induction false} SweepNumbers(w: World, now: int, receipts: nat -> nat, e: nat)
    requires Inv(w) && e in w.exams && SweepOnce(w, now, receipts).Ok?
    ensures e in SweepOnce(w, now, receipts).value.exams
    ensures Numbered(w.exams[e], SweepOnce(w, now, receipts).value.exams[e])
  {
    LiveIsDue(w, now);
    hide Inv, SweptWorld, DueExams, Grade, Storable;
    SweptExam(w, DueExams(w, now), now, receipts, e);
  }

  lemma {:induction false} EveryMoveNumbered(w: World, step: Step, e: nat)
    requires Inv(w) && e in w.exams
    ensures e in Next(w, step).exams && Numbered(w.exams[e], Next(w, step).exams[e])
  {
    hide Inv, ChangeSessions, SessionsOf, AddSessions, SeatingChart, Graded, Storable, Draw, StoreRow, WriteRefusal, FindQuestion,
      Distinct, WellFormedPaper, SweepOnce;
    match step
    case Sweep(now, receipts) => if SweepOnce(w, now, receipts).Ok? { SweepNumbers(w, now, receipts, e); }
    case _ =>
  }

  // ---- closing ----

  /** Ending a live exam closes its window no later than `now`, hands in who was sitting it at
      `now`, and leaves alone who had handed in. */
  lemma {:induction false} EndCloses(w: World, e: nat, now: int, receipts: nat -> nat, s: nat)
    requires Inv(w) && EndExam(w, e, now, receipts).Ok? && s in w.sessions && w.sessions[s].exam == e
    ensures var w' := EndExam(w, e, now, receipts).value;
            && e in w.exams && e in w'.exams && s in w'.sessions
            && w'.exams[e].status == Completed && w'.exams[e].endedAt == Some(now)
            && w'.exams[e].endsAt.Some? && w'.exams[e].endsAt.value <= now
            && w.exams[e].endsAt.Some? && (now >= w.exams[e].endsAt.value ==> w'.exams[e].endsAt == w.exams[e].endsAt)
            && HandedIn(w'.sessions[s].status)
            && (w.sessions[s].status == Active ==> ReceiptFields(w'.sessions[s]) == (Some(now), Some(Auto), Some(receipts(s))))
            && (w.sessions[s].status != Active ==> w'.sessions[s] == w.sessions[s])
  {
    ExamIsOk(w, e);
    SessionIsOk(w, s);
    EndedWorld(w, e, now, receipts);
    ExamChangedSession(w, e, Ended(w.exams[e], now), CloseEarly(now, receipts), s);
    ClosedRow(s, w.sessions[s], w.exams[e], now, receipts);
    hide Inv, EndExam, ChangeSessions, Changed, SessionOk, WellFormedPaper, Distinct;
  }

  ghost function Ended(x: Exam, now: int): Exam {
    x.(status := Completed, endsAt := Some(Earlier(x.endsAt, now)), endedAt := Some(now), eventSeq := x.eventSeq + 1)
  }

  lemma {:induction false} EndedWorld(w: World, e: nat, now: int, receipts: nat -> nat)
    requires EndExam(w, e, now, receipts).Ok?
    ensures e in w.exams && w.exams[e].status == Live
    ensures EndExam(w, e, now, receipts).value == ExamChanged(w, e, Ended(w.exams[e], now), CloseEarly(now, receipts))
  {
    hide ChangeSessions, SessionsOf, WindowOk;
  }

  lemma {:induction false} ClosedRow(s: nat, x: Session, exam: Exam, now: int, receipts: nat -> nat)
    requires SessionOk(x, exam) && exam.status == Live
    ensures var y := Changed(CloseEarly(now, receipts), s, x);
            && HandedIn(y.status)
            && (x.status == Active ==> ReceiptFields(y) == (Some(now), Some(Auto), Some(receipts(s))))
            && (x.status != Active ==> y == x)
  {
    hide PaperOk;
  }

  /** Cancelling leaves handed-in papers as they are and terminates everybody else, without a
      receipt. */
  lemma {:induction false} CancelCloses(w: World, e: nat, s: nat)
    requires Inv(w) && CancelExam(w, e).Ok? && s in w.sessions && w.sessions[s].exam == e
    ensures var w' := CancelExam(w, e).value;
            && s in w'.sessions && TerminalSession(w'.sessions[s].status)
            && (HandedIn(w.sessions[s].status) ==> w'.sessions[s] == w.sessions[s])
            && (!HandedIn(w.sessions[s].status) ==>
                  w'.sessions[s].status == Terminated && ReceiptFields(w'.sessions[s]) == (None, None, None))
  {
    SessionIsOk(w, s);
    CalledOffRow(s, w.sessions[s], w.exams[w.sessions[s].exam]);
    hide Inv, ChangeSessions, Changed, SessionOk, SessionsOf;
    var w' := CancelExam(w, e).value;
    ExamChangedSession(w, e, w'.exams[e], CallOff, s);
    assert w' == ExamChanged(w, e, w'.exams[e], CallOff);
  }

  lemma {:induction false} CalledOffRow(s: nat, x: Session, exam: Exam)
    requires SessionOk(x, exam)
    ensures var y := Changed(CallOff, s, x);
            && TerminalSession(y.status)
            && (HandedIn(x.status) ==> y == x)
            && (!HandedIn(x.status) ==> y.status == Terminated && ReceiptFields(y) == (None, None, None))
  {
    hide PaperOk;
  }

  // ---- one candidate ----

  /** The first submission in time stamps the moment, the mode and a new id, and stores the grade
      of exactly what was saved. */
  lemma {:induction false} FirstSubmission(w: World, s: nat, mode: SubmitMode, receipt: nat, now: int)
    requires Inv(w) && Writable(w, s, now) && w.exams[w.sessions[s].exam].paper != []
    ensures var r := Submit(w, s, mode, receipt, now);
            && r.Ok? && s in r.value.sessions && s in r.value.results
            && r.value.sessions[s].status == (if mode == Auto then AutoSubmitted else Submitted)
            && ReceiptFields(r.value.sessions[s]) == (Some(now), Some(mode), Some(receipt))
            && r.value.answers == w.answers && r.value.exams == w.exams
            && r.value.results[s] == Grade(w, s)
            && forall t :: t != s ==> Get(r.value.sessions, t) == Get(w.sessions, t) && Get(r.value.results, t) == Get(w.results, t)
  {
    hide *;
    WritableHere(w, s, now);
    SessionIsOk(w, s);
    ActiveHasNoReceipt(w.sessions[s], w.exams[w.sessions[s].exam]);
    SubmitSucceedsIff(w, s, mode, receipt, now);
    SubmittedWorld(w, s, mode, receipt, now);
    HandedInFields(w.sessions[s], mode, receipt, now);
    RowsReplaced(w.sessions, w.results, s, HandedInRow(w.sessions[s], mode, receipt, now), Grade(w, s));
  }

  lemma {:induction false} WritableHere(w: World, s: nat, now: int)
    requires Writable(w, s, now)
    ensures s in w.sessions && w.sessions[s].exam in w.exams && w.sessions[s].status == Active && WriteRefusal(w, s, now).None?
  {
  }

  lemma {:induction false} RowsReplaced(sessions: map<nat, Session>, results: map<nat, Score>, s: nat, x: Session, score: Score)
    ensures forall t :: t != s ==> Get(sessions[s := x], t) == Get(sessions, t) && Get(results[s := score], t) == Get(results, t)
  {
  }

  lemma {:induction false} HandedInFields(x: Session, mode: SubmitMode, receipt: nat, now: int)
    ensures HandedInRow(x, mode, receipt, now).status == if mode == Auto then AutoSubmitted else Submitted
    ensures ReceiptFields(HandedInRow(x, mode, receipt, now)) == (Some(now), Some(mode), Some(receipt))
  {
  }

  /** Checking in draws the paper once; again and again, it and the time of the first check-in
      stay, and nobody who has started is sent back. */
  lemma {:induction false} CheckInOnce(w: World, s: nat, onMachine: bool, now: int, choices: Shuffle.Choices,
                                       onMachine': bool, now': int, choices': Shuffle.Choices)
    requires Inv(w) && s in w.sessions && w.sessions[s].exam in w.exams
    ensures CheckIn(w, s, onMachine, now, choices).Ok?
    ensures var first := CheckIn(w, s, onMachine, now, choices).value;
            && s in first.sessions && first.sessions[s].order.Some? && first.sessions[s].checkedInAt.Some?
            && PaperOk(first.sessions[s], w.exams[w.sessions[s].exam])
            && (w.sessions[s].order.None? ==>
                  Drawn(first.sessions[s].order.value, first.sessions[s].optionOrder)
                  == Draw(w.exams[w.sessions[s].exam].paper, w.exams[w.sessions[s].exam].config, choices))
            && (w.sessions[s].checkedInAt.None? ==> first.sessions[s].checkedInAt == Some(now))
            && (w.sessions[s].status == NotStarted ==> first.sessions[s].status == if onMachine then CheckedIn else Waiting)
            && (w.sessions[s].status != NotStarted ==> first.sessions[s].status == w.sessions[s].status)
            && CheckIn(first, s, onMachine', now', choices') == Ok(first)
  {
    CheckInInv(w, s, onMachine, now, choices);
    var first := CheckIn(w, s, onMachine, now, choices).value;
    EnteredRow(w, s, onMachine, now, choices);
    SessionIsOk(first, s);
    EnteredAgain(first, s, onMachine', now', choices');
    hide Inv, CheckIn, ValidDraw, Draw;
  }

  lemma {:induction false} EnteredRow(w: World, s: nat, onMachine: bool, now: int, choices: Shuffle.Choices)
    requires s in w.sessions && w.sessions[s].exam in w.exams
    ensures CheckIn(w, s, onMachine, now, choices).Ok?
    ensures var first := CheckIn(w, s, onMachine, now, choices).value;
            && first.exams == w.exams && s in first.sessions && first.sessions[s].exam == w.sessions[s].exam
            && first.sessions[s].order.Some? && first.sessions[s].checkedInAt.Some?
            && (w.sessions[s].order.None? ==>
                  Drawn(first.sessions[s].order.value, first.sessions[s].optionOrder)
                  == Draw(w.exams[w.sessions[s].exam].paper, w.exams[w.sessions[s].exam].config, choices))
            && (w.sessions[s].checkedInAt.None? ==> first.sessions[s].checkedInAt == Some(now))
            && (w.sessions[s].status == NotStarted ==> first.sessions[s].status == if onMachine then CheckedIn else Waiting)
            && (w.sessions[s].status != NotStarted ==> first.sessions[s].status == w.sessions[s].status)
  {
    hide Draw;
  }

  lemma {:induction false} EnteredAgain(w: World, s: nat, onMachine: bool, now: int, choices: Shuffle.Choices)
    requires s in w.sessions && w.sessions[s].exam in w.exams
    requires w.sessions[s].order.Some? && w.sessions[s].checkedInAt.Some? && w.sessions[s].status != NotStarted
    ensures CheckIn(w, s, onMachine, now, choices) == Ok(w)
  {
    hide Draw;
    assert w.sessions[s := w.sessions[s]] == w.sessions;
  }

  // ---- one award ----

  /** Marking one waiting written answer on a candidate's paper: the stored result gains exactly
      the award over what grading gave before, one answer fewer waits, the maximum stays. */
  lemma {:induction false} AwardRaisesResult(w: World, s: nat, q: nat, marks: nat)
    requires Inv(w) && AwardMarks(w, s, q, marks).Ok?
    requires s in w.sessions && w.sessions[s].exam in w.exams && Key(s, q) in w.answers
    requires q in PaperIds(w.exams[w.sessions[s].exam].paper, w.sessions[s].order)
    requires w.answers[Key(s, q)].awarded.None? && w.answers[Key(s, q)].value.Some? && Awardable(w.answers[Key(s, q)].value.value)
    ensures var w', before := AwardMarks(w, s, q, marks).value, Grade(w, s);
            && before.unmarked >= 1 && s in w'.results
            && w'.results[s] == Score(before.given + marks, before.available, before.unmarked - 1)
  {
    hide *;
    var x, paper := w.sessions[s], w.exams[w.sessions[s].exam].paper;
    SessionIsOk(w, s);
    PaperDistinct(w, x.exam);
    PaperIdsDistinct(x, w.exams[x.exam]);
    AwardedWorld(w, s, q, marks);
    GradeIsGraded(w, s);
    AwardedScore(paper, x, w.answers, s, q, marks);
  }

  lemma {:induction false} GradeIsGraded(w: World, s: nat)
    requires s in w.sessions && w.sessions[s].exam in w.exams
    ensures Grade(w, s) == Graded(w.exams[w.sessions[s].exam].paper, w.sessions[s], w.answers, s)
  {
  }

  lemma {:induction false} AwardedWorld(w: World, s: nat, q: nat, marks: nat)
    requires AwardMarks(w, s, q, marks).Ok? && s in w.sessions && w.sessions[s].exam in w.exams && Key(s, q) in w.answers
    ensures var found := FindQuestion(w.exams[w.sessions[s].exam].paper, q); found.Some? && AwaitsMarks(found.value)
    ensures var w' := AwardMarks(w, s, q, marks).value;
            && s in w'.results
            && w'.results[s] == Graded(w.exams[w.sessions[s].exam].paper, w.sessions[s],
                                       w.answers[Key(s, q) := w.answers[Key(s, q)].(awarded := Some(marks))], s)
  {
    hide Graded, Storable, FindQuestion;
  }

  lemma {:induction false} AwardedScore(paper: seq<Question>, x: Session, answers: map<Key, AnswerRow>, s: nat, q: nat, marks: nat)
    requires Distinct(PaperIds(paper, x.order)) && q in PaperIds(paper, x.order) && Key(s, q) in answers
    requires FindQuestion(paper, q).Some? && AwaitsMarks(FindQuestion(paper, q).value)
    requires answers[Key(s, q)].awarded.None? && answers[Key(s, q)].value.Some? && Awardable(answers[Key(s, q)].value.value)
    ensures var before := Graded(paper, x, answers, s);
            && before.unmarked >= 1
            && Graded(paper, x, answers[Key(s, q) := answers[Key(s, q)].(awarded := Some(marks))], s)
               == Score(before.given + marks, before.available, before.unmarked - 1)
  {
    var ids, k := PaperIds(paper, x.order), Key(s, q);
    var answers' := answers[k := answers[k].(awarded := Some(marks))];
    var awards := AwardsOf(answers, s);
    forall id
      ensures Get(AnswersOf(answers', s), id) == Get(AnswersOf(answers, s), id)
      ensures Get(AwardsOf(answers', s), id) == Get(awards[q := marks], id)
    {
      GetAward(answers, s, id);
      GetAward(answers', s, id);
      GetAnswer(answers, s, id);
      GetAnswer(answers', s, id);
      hide AnswersOf, AwardsOf;
    }
    GetAward(answers, s, q);
    GetAnswer(answers, s, q);
    hide AnswersOf, AwardsOf, PaperIds, ScoreIds, FindQuestion;
    ScoreDependsOnlyOn(paper, ids, x.optionOrder, AnswersOf(answers', s), AwardsOf(answers', s), AnswersOf(answers, s), awards[q := marks]);
    AwardEffect(paper, ids, x.optionOrder, AnswersOf(answers, s), awards, q, marks);
  }

  /** What the service itself checks. */
  predicate MarkAllowed(w: World, s: nat, q: nat, marks: int) {
    && Key(s, q) in w.answers && s in w.sessions && w.sessions[s].exam in w.exams
    && var found := FindQuestion(w.exams[w.sessions[s].exam].paper, q);
       found.Some? && found.value.kind == Text && 0 <= marks <= 100 * found.value.marks
  }

  function WithAward(w: World, k: Key, marks: nat): World
    requires k in w.answers
  {
    w.(answers := w.answers[k := w.answers[k].(awarded := Some(marks))])
  }

  lemma {:induction false} AwardGuards(w: World, s: nat, q: nat, marks: int)
    ensures AwardMarks(w, s, q, marks).Ok? <==> MarkAllowed(w, s, q, marks) && Storable(Grade(WithAward(w, Key(s, q), marks), s))
  {
    hide Graded, Storable, FindQuestion;
  }

  lemma {:induction false} AwardStorable(w: World, s: nat, q: nat, marks: int)
    requires Inv(w) && MarkAllowed(w, s, q, marks)
    ensures Storable(Grade(WithAward(w, Key(s, q), marks), s))
  {
    hide Inv, Graded, Storable, FindQuestion;
    AnswerWrittenInv(w, Key(s, q), w.answers[Key(s, q)].(awarded := Some(marks)));
    StorableIffQuestions(WithAward(w, Key(s, q), marks), s);
  }

  /** Marks are accepted exactly for a stored answer to a written question of the session's exam,
      between nothing and what the question is worth; the database never refuses them. */
  lemma {:induction false} AwardSucceedsIff(w: World, s: nat, q: nat, marks: int)
    requires Inv(w)
    ensures AwardMarks(w, s, q, marks).Ok? <==>
              && Key(s, q) in w.answers && s in w.sessions && w.sessions[s].exam in w.exams
              && var found := FindQuestion(w.exams[w.sessions[s].exam].paper, q);
                 found.Some? && found.value.kind == Text && 0 <= marks <= 100 * found.value.marks
  {
    AwardGuards(w, s, q, marks);
    if MarkAllowed(w, s, q, marks) { AwardStorable(w, s, q, marks); }
    hide Inv, AwardMarks, Grade, Storable, FindQuestion;
  }

  /** A sweep leaves alone every exam that is not due, its sessions and their results. */
  lemma {:induction false} SweepTouchesOnlyDue(w: World, now: int, receipts: nat -> nat, e: nat, s: nat)
    requires Inv(w) && SweepOnce(w, now, receipts).Ok?
    requires e in w.exams && !Due(w.exams[e], now) && s in w.sessions && w.sessions[s].exam == e
    ensures var w' := SweepOnce(w, now, receipts).value;
            && e in w'.exams && w'.exams[e] == w.exams[e] && s in w'.sessions && w'.sessions[s] == w.sessions[s]
            && Get(w'.results, s) == Get(w.results, s) && w'.answers == w.answers
  {
    LiveIsDue(w, now);
    var due := DueExams(w, now);
    hide Inv, SweptWorld, Grade, Storable, Get;
    SweptSession(w, due, now, receipts, s);
    SweptExam(w, due, now, receipts, e);
    SweptResult(w, due, now, receipts, s);
    SweepKeepsAnswers(w, now, receipts);
  }
}
