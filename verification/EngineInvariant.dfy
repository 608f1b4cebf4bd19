/** What every run of the engine keeps true of the stored rows. */
module EngineInvariant {
  import opened Basics
  import opened Transitions
  import opened Shuffle
  import opened Paper
  import opened Grading
  import opened PaperScore
  import opened AnswerRows
  import opened Seating
  import opened Engine

  // ---- the invariant ----

  /** SCHEDULED and ENDING are only passed through inside a call, never stored. A window
      exists once the exam has started, and is the promised one unless it was closed early. */
  ghost predicate ExamOk(x: Exam) {
    && DurationOk(x.duration) && Distinct(x.roster) && WellFormedPaper(x.paper)
    && x.status != Scheduled && x.status != Ending
    && (x.startsAt.Some? <==> x.endsAt.Some?)
    && (x.status == Draft || x.status == Ready ==> x.startsAt.None?)
    && (x.status == Live || x.status == Completed ==> x.startsAt.Some?)
    && (x.startsAt.Some? ==> x.startsAt.value < x.endsAt.value <= x.startsAt.value + x.duration * MINUTE)
    && (x.startsAt.Some? && x.status != Completed ==> x.endsAt.value == x.startsAt.value + x.duration * MINUTE)
  }

  /** Which session statuses can stand under which exam status. */
  ghost predicate StatusesAgree(exam: ExamStatus, s: SessionStatus) {
    match exam
    case Draft => false
    case Scheduled => false
    case Ready => BeforeStart(s)
    case Live => s == Active || HandedIn(s)
    case Ending => false
    case Completed => HandedIn(s)
    case Cancelled => TerminalSession(s)
  }

  ghost predicate SessionOk(x: Session, exam: Exam) {
    && StatusesAgree(exam.status, x.status)
    && x.student in exam.roster
    && (HandedIn(x.status) <==> x.submittedAt.Some?)
    && (HandedIn(x.status) <==> x.mode.Some?)
    && (HandedIn(x.status) <==> x.submissionId.Some?)
    && (BeforeStart(x.status) ==> x.startedAt.None?)
    && (x.status == Active || HandedIn(x.status) ==> x.startedAt.Some? && x.startedAt == exam.startsAt)
    && PaperOk(x, exam)
  }

  /** A drawn paper is a valid draw from the exam. */
  ghost predicate PaperOk(x: Session, exam: Exam) {
    && (x.order.Some? ==> ValidDraw(exam.paper, exam.config, Drawn(x.order.value, x.optionOrder)))
    && (x.order.None? ==> x.optionOrder == map[])
  }

  /** An award belongs to a question of the exam that is marked afterwards, and is within its marks. */
  ghost predicate AnswerOk(row: AnswerRow, q: nat, exam: Exam) {
    row.awarded.Some? ==>
      var found := FindQuestion(exam.paper, q);
      found.Some? && AwaitsMarks(found.value) && row.awarded.value <= 100 * found.value.marks
  }

  ghost predicate SameSeat(x: Session, y: Session) {
    x.exam == y.exam && (x.student == y.student || (x.computer.Some? && x.computer == y.computer))
  }

  predicate HasSessions(s: ExamStatus) {
    s == Ready || s == Live || s == Completed
  }

  ghost predicate SeatedIn(w: World, e: nat, student: nat) {
    exists s :: s in w.sessions && w.sessions[s].exam == e && w.sessions[s].student == student
  }

  ghost predicate ExamsOk(w: World) {
    forall e :: e in w.exams ==> ExamOk(w.exams[e])
  }

  ghost predicate SessionsOk(w: World) {
    forall s :: s in w.sessions ==> w.sessions[s].exam in w.exams && SessionOk(w.sessions[s], w.exams[w.sessions[s].exam])
  }

  /** One session per candidate and exam, one candidate per machine and exam. */
  ghost predicate SeatsOk(w: World) {
    forall s, t :: s in w.sessions && t in w.sessions && SameSeat(w.sessions[s], w.sessions[t]) ==> s == t
  }

  /** From scheduling on, every enrolled candidate has a session. */
  ghost predicate RosterOk(w: World) {
    forall e, student :: e in w.exams && HasSessions(w.exams[e].status) && student in w.exams[e].roster ==> SeatedIn(w, e, student)
  }

  ghost predicate AnswersOk(w: World) {
    && (forall k :: k in w.answers ==> k.session in w.sessions)
    && (forall k :: k in w.answers && w.sessions[k.session].exam in w.exams ==>
          AnswerOk(w.answers[k], k.question, w.exams[w.sessions[k.session].exam]))
    && (forall s :: s in w.results ==> s in w.sessions)
  }

  ghost predicate Inv(w: World) {
    ExamsOk(w) && SessionsOk(w) && SeatsOk(w) && RosterOk(w) && AnswersOk(w)
  }

  lemma EmptyInv()
    ensures Inv(EMPTY)
  {
  }

  // ---- drafting ----

  /** A draft has no sessions, so replacing its paper and roster invalidates nothing. */
  lemma {:induction false} DraftHasNoSessions(w: World, e: nat)
    requires Inv(w) && (e !in w.exams || w.exams[e].status == Draft)
    ensures forall s :: s in w.sessions ==> w.sessions[s].exam != e
  {
  }

  lemma {:induction false} DraftWrittenSessions(w: World, e: nat, x: Exam)
    requires Inv(w) && (e !in w.exams || w.exams[e].status == Draft)
    ensures SessionsOk(w.(exams := w.exams[e := x]))
  {
    DraftHasNoSessions(w, e);
    hide Inv, SessionOk;
    var w' := w.(exams := w.exams[e := x]);
    forall s | s in w'.sessions
      ensures w'.sessions[s].exam in w'.exams && SessionOk(w'.sessions[s], w'.exams[w'.sessions[s].exam])
    {
      SessionIsOk(w, s);
    }
  }

  lemma {:induction false} DraftWrittenAnswers(w: World, e: nat, x: Exam)
    requires AnswersOk(w) && forall s :: s in w.sessions ==> w.sessions[s].exam != e && w.sessions[s].exam in w.exams
    ensures AnswersOk(w.(exams := w.exams[e := x]))
  {
    hide AnswerOk;
  }

  lemma {:induction false} DraftWrittenRoster(w: World, e: nat, x: Exam)
    requires RosterOk(w) && x.status == Draft
    ensures RosterOk(w.(exams := w.exams[e := x]))
  {
    var w' := w.(exams := w.exams[e := x]);
    forall e', student | e' in w'.exams && HasSessions(w'.exams[e'].status) && student in w'.exams[e'].roster
      ensures SeatedIn(w', e', student)
    {
      assert SeatedIn(w, e', student);
    }
  }

  lemma {:induction false} DraftWrittenInv(w: World, e: nat, x: Exam)
    requires Inv(w) && (e !in w.exams || w.exams[e].status == Draft)
    requires ExamOk(x) && x.status == Draft
    ensures Inv(w.(exams := w.exams[e := x]))
  {
    DraftWrittenSessions(w, e, x);
    DraftHasNoSessions(w, e);
    SessionsInExams(w);
    hide ExamOk, SessionsOk, AnswersOk, RosterOk;
    DraftWrittenAnswers(w, e, x);
    DraftWrittenRoster(w, e, x);
  }

  lemma {:induction false} SessionsInExams(w: World)
    requires Inv(w)
    ensures forall s :: s in w.sessions ==> w.sessions[s].exam in w.exams
  {
  }

  // ---- one change to every session of an exam ----

  lemma {:induction false} ChangedKeeps(c: Change, s: nat, x: Session)
    ensures var y := Changed(c, s, x);
            && y.exam == x.exam && y.student == x.student && y.computer == x.computer
            && y.order == x.order && y.optionOrder == x.optionOrder
  {
  }

  /** The exam row and all its sessions change together. */
  ghost function ExamChanged(w: World, e: nat, x: Exam, c: Change): World {
    w.(exams := w.exams[e := x], sessions := ChangeSessions(w.sessions, SessionsOf(w, e), c))
  }

  lemma {:induction false} ExamChangedSession(w: World, e: nat, x: Exam, c: Change, s: nat)
    requires s in w.sessions
    ensures var w' := ExamChanged(w, e, x, c);
            && s in w'.sessions
            && w'.sessions[s] == (if w.sessions[s].exam == e then Changed(c, s, w.sessions[s]) else w.sessions[s])
            && w'.sessions[s].exam == w.sessions[s].exam && w'.sessions[s].student == w.sessions[s].student
            && w'.sessions[s].computer == w.sessions[s].computer
  {
    ChangedKeeps(c, s, w.sessions[s]);
    hide Changed;
  }

  lemma {:induction false} ExamChangedSessionsOk(w: World, e: nat, x: Exam, c: Change)
    requires SessionsOk(w) && e in w.exams
    requires forall s :: s in w.sessions && w.sessions[s].exam == e ==> SessionOk(Changed(c, s, w.sessions[s]), x)
    ensures SessionsOk(ExamChanged(w, e, x, c))
  {
    hide SessionOk, Changed, ChangeSessions;
    var w' := ExamChanged(w, e, x, c);
    forall s | s in w'.sessions
      ensures w'.sessions[s].exam in w'.exams && SessionOk(w'.sessions[s], w'.exams[w'.sessions[s].exam])
    {
      SameSessions(w, e, x, c);
      ExamChangedSession(w, e, x, c, s);
    }
  }

  lemma {:induction false} SameSessions(w: World, e: nat, x: Exam, c: Change)
    ensures ExamChanged(w, e, x, c).sessions.Keys == w.sessions.Keys
  {
    hide Changed;
  }

  lemma {:induction false} ExamChangedAnswersOk(w: World, e: nat, x: Exam, c: Change)
    requires AnswersOk(w) && e in w.exams && x.paper == w.exams[e].paper
    ensures AnswersOk(ExamChanged(w, e, x, c))
  {
    SameSessions(w, e, x, c);
    var w' := ExamChanged(w, e, x, c);
    forall k | k in w'.answers && w'.sessions[k.session].exam in w'.exams
      ensures AnswerOk(w'.answers[k], k.question, w'.exams[w'.sessions[k.session].exam])
    {
      ExamChangedSession(w, e, x, c, k.session);
      assert AnswerOk(w.answers[k], k.question, w.exams[w.sessions[k.session].exam]);
      hide Changed, ChangeSessions;
    }
  }

  lemma {:induction false} ExamChangeInv(w: World, e: nat, x: Exam, c: Change)
    requires Inv(w) && e in w.exams && ExamOk(x)
    requires x.paper == w.exams[e].paper && x.roster == w.exams[e].roster
    requires HasSessions(x.status) ==> HasSessions(w.exams[e].status)
    requires forall s :: s in w.sessions && w.sessions[s].exam == e ==> SessionOk(Changed(c, s, w.sessions[s]), x)
    ensures Inv(ExamChanged(w, e, x, c))
  {
    hide SessionOk, Changed, ExamOk, SessionsOk, AnswersOk, SeatsOk, RosterOk;
    var w' := ExamChanged(w, e, x, c);
    ExamChangedSessionsOk(w, e, x, c);
    ExamChangedAnswersOk(w, e, x, c);
    SameSessions(w, e, x, c);
    assert SameSeats(w, w') by {
      forall s | s in w.sessions { ExamChangedSession(w, e, x, c, s); }
    }
    SameSeatsInv(w, w');
    SameRosterInv(w, w');
  }

  /** Seats are decided by columns no later step rewrites. */
  ghost predicate SameSeats(w: World, w': World) {
    && w'.sessions.Keys == w.sessions.Keys
    && forall s :: s in w.sessions ==>
         && w'.sessions[s].exam == w.sessions[s].exam
         && w'.sessions[s].student == w.sessions[s].student && w'.sessions[s].computer == w.sessions[s].computer
  }

  lemma {:induction false} SameSeatsInv(w: World, w': World)
    requires SeatsOk(w) && SameSeats(w, w')
    ensures SeatsOk(w')
  {
    forall s, t | s in w'.sessions && t in w'.sessions && SameSeat(w'.sessions[s], w'.sessions[t]) ensures s == t {
      assert SameSeat(w.sessions[s], w.sessions[t]);
    }
  }

  lemma {:induction false} SameRosterInv(w: World, w': World)
    requires RosterOk(w) && SameSeats(w, w')
    requires w'.exams.Keys == w.exams.Keys
    requires forall e :: e in w.exams && HasSessions(w'.exams[e].status) ==>
               HasSessions(w.exams[e].status) && w'.exams[e].roster == w.exams[e].roster
    ensures RosterOk(w')
  {
    forall e, student | e in w'.exams && HasSessions(w'.exams[e].status) && student in w'.exams[e].roster
      ensures SeatedIn(w', e, student)
    {
      assert SeatedIn(w, e, student);
      var s :| s in w.sessions && w.sessions[s].exam == e && w.sessions[s].student == student;
      assert w'.sessions[s].exam == e && w'.sessions[s].student == student;
    }
  }

  lemma {:induction false} ReleaseOk(s: nat, x: Session, exam: Exam, exam': Exam, now: int)
    requires SessionOk(x, exam) && exam.status == Ready
    requires exam'.status == Live && exam'.startsAt == Some(now)
    requires exam'.paper == exam.paper && exam'.config == exam.config && exam'.roster == exam.roster
    ensures SessionOk(Changed(Release(now), s, x), exam')
  {
    hide ValidDraw;
  }

  lemma {:induction false} StartInv(w: World, e: nat, key: Option<string>, now: int)
    requires Inv(w) && StartExam(w, e, key, now).Ok?
    ensures Inv(StartExam(w, e, key, now).value)
  {
    hide SessionOk, Changed, SessionsOk, SeatsOk, RosterOk, AnswersOk, WellFormedPaper, Distinct;
    var x := w.exams[e];
    assert ExamOk(x);
    if CanExamMove(x.status, Live) {
      var x' := x.(startsAt := Some(now), endsAt := Some(now + x.duration * MINUTE), status := Live,
                   startKey := key, eventSeq := x.eventSeq + 1);
      forall s | s in w.sessions && w.sessions[s].exam == e ensures SessionOk(Changed(Release(now), s, w.sessions[s]), x') {
        SessionIsOk(w, s);
        ReleaseOk(s, w.sessions[s], x, x', now);
      }
      ExamChangeInv(w, e, x', Release(now));
      assert StartExam(w, e, key, now).value == ExamChanged(w, e, x', Release(now));
    }
  }

  lemma {:induction false} SessionIsOk(w: World, s: nat)
    requires Inv(w) && s in w.sessions
    ensures w.sessions[s].exam in w.exams && SessionOk(w.sessions[s], w.exams[w.sessions[s].exam])
  {
  }

  lemma {:induction false} CloseEarlyOk(s: nat, x: Session, exam: Exam, exam': Exam, at: int, receipt: nat -> nat)
    requires SessionOk(x, exam) && exam.status == Live && exam'.status == Completed && exam'.startsAt == exam.startsAt
    requires exam'.paper == exam.paper && exam'.config == exam.config && exam'.roster == exam.roster
    ensures SessionOk(Changed(CloseEarly(at, receipt), s, x), exam')
  {
    hide ValidDraw;
  }

  lemma {:induction false} EndInv(w: World, e: nat, now: int, receipt: nat -> nat)
    requires Inv(w) && EndExam(w, e, now, receipt).Ok?
    ensures Inv(EndExam(w, e, now, receipt).value)
  {
    hide SessionOk, Changed, SessionsOk, SeatsOk, RosterOk, AnswersOk, WellFormedPaper, Distinct;
    var x := w.exams[e];
    assert ExamOk(x);
    var x' := x.(status := Completed, endsAt := Some(Earlier(x.endsAt, now)), endedAt := Some(now),
                 eventSeq := x.eventSeq + 1);
    forall s | s in w.sessions && w.sessions[s].exam == e
      ensures SessionOk(Changed(CloseEarly(now, receipt), s, w.sessions[s]), x')
    {
      SessionIsOk(w, s);
      CloseEarlyOk(s, w.sessions[s], x, x', now, receipt);
    }
    ExamChangeInv(w, e, x', CloseEarly(now, receipt));
    assert EndExam(w, e, now, receipt).value == ExamChanged(w, e, x', CloseEarly(now, receipt));
  }

  lemma {:induction false} CallOffOk(s: nat, x: Session, exam: Exam, exam': Exam)
    requires SessionOk(x, exam) && exam'.status == Cancelled && exam'.startsAt == exam.startsAt
    requires exam'.paper == exam.paper && exam'.config == exam.config && exam'.roster == exam.roster
    ensures SessionOk(Changed(CallOff, s, x), exam')
  {
    hide ValidDraw;
  }

  lemma {:induction false} CancelInv(w: World, e: nat)
    requires Inv(w) && CancelExam(w, e).Ok?
    ensures Inv(CancelExam(w, e).value)
  {
    hide SessionOk, Changed, SessionsOk, SeatsOk, RosterOk, AnswersOk, WellFormedPaper, Distinct;
    var x := w.exams[e];
    assert ExamOk(x);
    var x' := x.(status := Cancelled, eventSeq := x.eventSeq + 1);
    forall s | s in w.sessions && w.sessions[s].exam == e ensures SessionOk(Changed(CallOff, s, w.sessions[s]), x') {
      SessionIsOk(w, s);
      CallOffOk(s, w.sessions[s], x, x');
    }
    ExamChangeInv(w, e, x', CallOff);
    assert CancelExam(w, e).value == ExamChanged(w, e, x', CallOff);
  }

  // ---- scheduling ----

  lemma {:induction false} AddSessionsFacts(sessions: map<nat, Session>, e: nat, chart: seq<SeatAssignment>, ids: seq<nat>)
    requires |ids| >= |chart| && Distinct(ids)
    requires forall i :: 0 <= i < |ids| ==> ids[i] !in sessions
    ensures var r := AddSessions(sessions, e, chart, ids);
            && (forall s :: s in r <==> s in sessions || exists i :: 0 <= i < |chart| && ids[i] == s)
            && (forall s :: s in sessions ==> r[s] == sessions[s])
            && (forall i :: 0 <= i < |chart| ==> r[ids[i]] == NewSession(e, chart[i]))
  {
    hide NewSession;
    if chart != [] {
      var last := |chart| - 1;
      AddSessionsFacts(sessions, e, chart[..last], ids);
      var before, r := AddSessions(sessions, e, chart[..last], ids), AddSessions(sessions, e, chart, ids);
      assert r == before[ids[last] := NewSession(e, chart[last])];
      forall s | s in r ensures s in sessions || exists i :: 0 <= i < |chart| && ids[i] == s { }
      forall i | 0 <= i < |chart| ensures ids[i] in r && r[ids[i]] == NewSession(e, chart[i]) {
        if i < last {
          assert ids[i] in before && chart[..last][i] == chart[i];
        }
      }
    }
  }

  /** A session row is an old one, or the one made for some seat of the chart. */
  ghost predicate OldOrNew(sessions: map<nat, Session>, e: nat, chart: seq<SeatAssignment>, ids: seq<nat>, s: nat, x: Session)
    requires |ids| == |chart|
  {
    || (s in sessions && x == sessions[s])
    || (exists i :: 0 <= i < |chart| && ids[i] == s && x == NewSession(e, chart[i]))
  }

  ghost predicate UsesMachine(w: World, e: nat, computer: Option<nat>) {
    computer.Some? ==> computer.value in OccupiedMachines(w, e)
  }

  lemma {:induction false} OldSessionsCounted(w: World, e: nat, s: nat)
    requires s in w.sessions && w.sessions[s].exam == e
    ensures w.sessions[s].student in SeatedStudents(w, e) && UsesMachine(w, e, w.sessions[s].computer)
  {
    assert s in SessionsOf(w, e);
  }

  /** Two seats of a chart never clash, and none clashes with a session already there. */
  ghost predicate ChartSeatsOk(w: World, e: nat, chart: seq<SeatAssignment>) {
    && (forall i, j :: 0 <= i < j < |chart| ==> chart[i].studentId != chart[j].studentId)
    && (forall i, j :: 0 <= i < j < |chart| && chart[i].computerId.Some? ==> chart[i].computerId != chart[j].computerId)
    && (forall i :: 0 <= i < |chart| ==> chart[i].studentId !in SeatedStudents(w, e))
    && (forall i :: 0 <= i < |chart| && chart[i].computerId.Some? ==> chart[i].computerId.value !in OccupiedMachines(w, e))
  }

  lemma {:induction false} MachinesWellFormed(machines: seq<Workstation>)
    requires MachinesOk(machines)
    ensures Distinct(machines) && LabWellFormed(LabOf(machines))
  {
    forall v, w | v in LabOf(machines) && w in LabOf(machines) && (v.id == w.id || v.position == w.position) ensures v == w {
      var i :| 0 <= i < |machines| && machines[i] == v;
      var j :| 0 <= j < |machines| && machines[j] == w;
    }
  }

  lemma {:induction false} SeatingChartOk(w: World, e: nat, machines: seq<Workstation>)
    requires e in w.exams && Distinct(w.exams[e].roster) && MachinesOk(machines)
    ensures ChartSeatsOk(w, e, SeatingChart(w, e, machines))
    ensures forall i :: 0 <= i < |SeatingChart(w, e, machines)| ==> SeatingChart(w, e, machines)[i].studentId in w.exams[e].roster
    ensures forall student :: student in w.exams[e].roster && student !in SeatedStudents(w, e) ==>
              exists i :: 0 <= i < |SeatingChart(w, e, machines)| && SeatingChart(w, e, machines)[i].studentId == student
  {
    var roster, occupied, seated := w.exams[e].roster, OccupiedMachines(w, e), SeatedStudents(w, e);
    var chart, todo := SeatingChart(w, e, machines), ToSeat(roster, seated);
    assert chart == Allocate(roster, machines, occupied, seated);
    hide OccupiedMachines, SeatedStudents, Allocate, ToSeat, SeatingChart, MachinesOk, Chart, LabOf, LabWellFormed;
    MachinesWellFormed(machines);
    AllocateIsChart(roster, machines, occupied, seated);
    ToSeatMembers(roster, seated);
    ChartStudents(chart, todo, LabOf(machines), occupied);
    ChartMachines(chart, todo, LabOf(machines), occupied);
    forall student | student in roster && student !in seated
      ensures exists i :: 0 <= i < |chart| && chart[i].studentId == student
    {
      assert student in todo;
    }
  }

  lemma {:induction false} ChartStudents(chart: seq<SeatAssignment>, todo: seq<nat>, lab: set<Workstation>, occupied: set<nat>)
    requires Chart(chart, todo, lab, occupied)
    ensures forall i :: 0 <= i < |chart| ==> i < |todo| && chart[i].studentId == todo[i] && todo[i] in todo
    ensures forall student :: student in todo ==> exists i :: 0 <= i < |chart| && chart[i].studentId == student
    ensures Distinct(todo) ==> forall i, j :: 0 <= i < j < |chart| ==> chart[i].studentId != chart[j].studentId
  {
    forall student | student in todo ensures exists i :: 0 <= i < |chart| && chart[i].studentId == student {
      var i :| 0 <= i < |todo| && todo[i] == student;
      assert chart[i].studentId == student;
    }
  }

  lemma {:induction false} ChartMachines(chart: seq<SeatAssignment>, todo: seq<nat>, lab: set<Workstation>, occupied: set<nat>)
    requires Chart(chart, todo, lab, occupied)
    ensures forall i :: 0 <= i < |chart| && chart[i].computerId.Some? ==> chart[i].computerId.value !in occupied
    ensures LabWellFormed(lab) ==>
              forall i, j :: 0 <= i < j < |chart| && chart[i].computerId.Some? ==> chart[i].computerId != chart[j].computerId
  {
    forall i | 0 <= i < |chart| && chart[i].computerId.Some? ensures chart[i].computerId.value !in occupied {
      var v :| IsFree(v, lab, occupied) && Uses(chart, i, v);
    }
    if LabWellFormed(lab) {
      forall i, j | 0 <= i < j < |chart| && chart[i].computerId.Some? ensures chart[i].computerId != chart[j].computerId {
        if chart[j].computerId.Some? {
          var v :| IsFree(v, lab, occupied) && Uses(chart, i, v);
          var u :| IsFree(u, lab, occupied) && Uses(chart, j, u);
          assert v.position < u.position;
        }
      }
    }
  }

  ghost function Scheduled'(w: World, e: nat, chart: seq<SeatAssignment>, ids: seq<nat>): World
    requires e in w.exams && |ids| >= |chart|
  {
    var x := w.exams[e];
    w.(exams := w.exams[e := x.(status := Ready, eventSeq := x.eventSeq + 1)],
       sessions := AddSessions(w.sessions, e, chart, ids))
  }

  lemma {:induction false} ScheduledSession(w: World, e: nat, chart: seq<SeatAssignment>, ids: seq<nat>, s: nat)
    requires e in w.exams && |ids| == |chart| && FreshIds(w, ids) && s in Scheduled'(w, e, chart, ids).sessions
    ensures OldOrNew(w.sessions, e, chart, ids, s, Scheduled'(w, e, chart, ids).sessions[s])
  {
    AddSessionsFacts(w.sessions, e, chart, ids);
  }

  lemma {:induction false} ScheduledSessionsOk(w: World, e: nat, chart: seq<SeatAssignment>, ids: seq<nat>)
    requires Inv(w) && e in w.exams && CanExamMove(w.exams[e].status, Scheduled)
    requires |ids| == |chart| && FreshIds(w, ids)
    requires forall i :: 0 <= i < |chart| ==> chart[i].studentId in w.exams[e].roster
    ensures SessionsOk(Scheduled'(w, e, chart, ids))
  {
    hide ExamsOk, SeatsOk, RosterOk, AnswersOk, FreshIds, AddSessions, ValidDraw;
    var w' := Scheduled'(w, e, chart, ids);
    forall s | s in w'.sessions
      ensures w'.sessions[s].exam in w'.exams && SessionOk(w'.sessions[s], w'.exams[w'.sessions[s].exam])
    {
      ScheduledSession(w, e, chart, ids, s);
      if s in w.sessions && w'.sessions[s] == w.sessions[s] { SessionIsOk(w, s); }
    }
  }

  lemma {:induction false} ScheduledSeatsOk(w: World, e: nat, chart: seq<SeatAssignment>, ids: seq<nat>)
    requires SeatsOk(w) && e in w.exams && |ids| == |chart| && FreshIds(w, ids) && ChartSeatsOk(w, e, chart)
    ensures SeatsOk(Scheduled'(w, e, chart, ids))
  {
    hide FreshIds, AddSessions, OccupiedMachines, SeatedStudents;
    var w' := Scheduled'(w, e, chart, ids);
    forall s, t | s in w'.sessions && t in w'.sessions && SameSeat(w'.sessions[s], w'.sessions[t]) ensures s == t {
      ScheduledSession(w, e, chart, ids, s);
      ScheduledSession(w, e, chart, ids, t);
      var x, y := w'.sessions[s], w'.sessions[t];
      if s in w.sessions && x == w.sessions[s] && x.exam == e { OldSessionsCounted(w, e, s); }
      if t in w.sessions && y == w.sessions[t] && y.exam == e { OldSessionsCounted(w, e, t); }
    }
  }

  lemma {:induction false} ScheduledRosterOk(w: World, e: nat, chart: seq<SeatAssignment>, ids: seq<nat>)
    requires RosterOk(w) && e in w.exams && |ids| == |chart| && FreshIds(w, ids)
    requires forall student :: student in w.exams[e].roster && student !in SeatedStudents(w, e) ==>
               exists i :: 0 <= i < |chart| && chart[i].studentId == student
    ensures RosterOk(Scheduled'(w, e, chart, ids))
  {
    AddSessionsFacts(w.sessions, e, chart, ids);
    hide FreshIds, AddSessions;
    var w' := Scheduled'(w, e, chart, ids);
    forall e', student | e' in w'.exams && HasSessions(w'.exams[e'].status) && student in w'.exams[e'].roster
      ensures SeatedIn(w', e', student)
    {
      if e' == e && student !in SeatedStudents(w, e) {
        var i :| 0 <= i < |chart| && chart[i].studentId == student;
        assert w'.sessions[ids[i]].student == student;
      } else if e' == e {
        var s :| s in SessionsOf(w, e) && w.sessions[s].student == student;
        assert w'.sessions[s].student == student;
      } else {
        assert SeatedIn(w, e', student);
        var s :| s in w.sessions && w.sessions[s].exam == e' && w.sessions[s].student == student;
        assert w'.sessions[s].student == student;
      }
    }
  }

  lemma {:induction false} ScheduledAnswersOk(w: World, e: nat, chart: seq<SeatAssignment>, ids: seq<nat>)
    requires AnswersOk(w) && e in w.exams && |ids| == |chart| && FreshIds(w, ids)
    ensures AnswersOk(Scheduled'(w, e, chart, ids))
  {
    AddSessionsFacts(w.sessions, e, chart, ids);
    hide FreshIds, AddSessions, FindQuestion;
    var w' := Scheduled'(w, e, chart, ids);
    forall k | k in w'.answers && w'.sessions[k.session].exam in w'.exams
      ensures AnswerOk(w'.answers[k], k.question, w'.exams[w'.sessions[k.session].exam])
    {
      assert AnswerOk(w.answers[k], k.question, w.exams[w.sessions[k.session].exam]);
    }
  }

  lemma {:induction false} ScheduledExamsOk(w: World, e: nat, chart: seq<SeatAssignment>, ids: seq<nat>)
    requires ExamsOk(w) && e in w.exams && |ids| >= |chart| && CanExamMove(w.exams[e].status, Scheduled)
    ensures ExamsOk(Scheduled'(w, e, chart, ids))
  {
    hide AddSessions, WellFormedPaper, Distinct;
  }

  lemma {:induction false} ScheduleInv(w: World, e: nat, machines: seq<Workstation>, ids: seq<nat>)
    requires Inv(w) && ScheduleExam(w, e, machines, ids).Ok?
    ensures Inv(ScheduleExam(w, e, machines, ids).value)
  {
    hide ExamOk, SessionsOk, SeatsOk, RosterOk, AnswersOk, FreshIds, SeatingChart, ChartSeatsOk, MachinesOk, AddSessions;
    var chart := SeatingChart(w, e, machines);
    RosterDistinct(w, e);
    SeatingChartOk(w, e, machines);
    ScheduledExamsOk(w, e, chart, ids);
    ScheduledSessionsOk(w, e, chart, ids);
    ScheduledSeatsOk(w, e, chart, ids);
    ScheduledRosterOk(w, e, chart, ids);
    ScheduledAnswersOk(w, e, chart, ids);
    assert ScheduleExam(w, e, machines, ids).value == Scheduled'(w, e, chart, ids);
  }

  lemma {:induction false} RosterDistinct(w: World, e: nat)
    requires ExamsOk(w) && e in w.exams
    ensures Distinct(w.exams[e].roster)
  {
    assert ExamOk(w.exams[e]);
  }

  // ---- one session row at a time ----

  lemma {:induction false} SessionWrittenInv(w: World, s: nat, x: Session)
    requires Inv(w) && s in w.sessions && w.sessions[s].exam in w.exams
    requires SessionOk(x, w.exams[w.sessions[s].exam])
    requires x.exam == w.sessions[s].exam && x.student == w.sessions[s].student && x.computer == w.sessions[s].computer
    ensures Inv(w.(sessions := w.sessions[s := x]))
  {
    hide ExamOk, SessionOk, HasSessions, AnswerOk;
    var w' := w.(sessions := w.sessions[s := x]);
    SameSeatsInv(w, w');
    SameRosterInv(w, w');
  }

  lemma {:induction false} CheckInInv(w: World, s: nat, onMachine: bool, now: int, choices: Choices)
    requires Inv(w) && CheckIn(w, s, onMachine, now, choices).Ok?
    ensures Inv(CheckIn(w, s, onMachine, now, choices).value)
  {
    SessionIsOk(w, s);
    var x, exam := w.sessions[s], w.exams[w.sessions[s].exam];
    PaperDistinct(w, x.exam);
    DrawIsValid(exam.paper, exam.config, choices);
    hide Inv, ValidDraw, Draw, SessionOk, Distinct, WellFormedPaper;
    CheckedInOk(x, exam, onMachine, now, Draw(exam.paper, exam.config, choices));
    SessionWrittenInv(w, s, CheckedInRow(x, onMachine, now, Draw(exam.paper, exam.config, choices)));
  }

  ghost function CheckedInRow(x: Session, onMachine: bool, now: int, drawn: Drawn): Session {
    x.(order := if x.order.Some? then x.order else Some(drawn.order),
       optionOrder := if x.order.Some? then x.optionOrder else drawn.optionOrder,
       checkedInAt := if x.checkedInAt.Some? then x.checkedInAt else Some(now),
       status := if x.status == NotStarted then (if onMachine then CheckedIn else Waiting) else x.status)
  }

  lemma {:induction false} CheckedInOk(x: Session, exam: Exam, onMachine: bool, now: int, drawn: Drawn)
    requires SessionOk(x, exam) && ValidDraw(exam.paper, exam.config, drawn)
    ensures SessionOk(CheckedInRow(x, onMachine, now, drawn), exam)
  {
    hide ValidDraw;
    assert Drawn(drawn.order, drawn.optionOrder) == drawn;
  }

  lemma {:induction false} PaperDistinct(w: World, e: nat)
    requires Inv(w) && e in w.exams
    ensures WellFormedPaper(w.exams[e].paper) && Distinct(IdsOf(w.exams[e].paper))
  {
    assert ExamOk(w.exams[e]);
  }

  lemma {:induction false} ResultWrittenInv(w: World, s: nat, score: Score)
    requires Inv(w) && s in w.sessions
    ensures Inv(w.(results := w.results[s := score]))
  {
    hide ExamOk, SessionOk, SameSeat, AnswerOk, HasSessions;
    SameSeatsInv(w, w.(results := w.results[s := score]));
    SameRosterInv(w, w.(results := w.results[s := score]));
  }

  lemma {:induction false} SubmitInv(w: World, s: nat, mode: SubmitMode, receipt: nat, now: int)
    requires Inv(w) && Submit(w, s, mode, receipt, now).Ok?
    ensures Inv(Submit(w, s, mode, receipt, now).value)
  {
    hide Inv, SessionOk, Graded, Storable;
    if !(w.sessions[s].submittedAt.Some? && w.sessions[s].submissionId.Some?) {
      SessionIsOk(w, s);
      var x' := HandedInRow(w.sessions[s], mode, receipt, now);
      HandInOk(w.sessions[s], w.exams[w.sessions[s].exam], mode, receipt, now);
      SessionWrittenInv(w, s, x');
      ResultWrittenInv(w.(sessions := w.sessions[s := x']), s, Grade(w, s));
    }
  }

  ghost function HandedInRow(x: Session, mode: SubmitMode, receipt: nat, now: int): Session {
    x.(status := if mode == Auto then AutoSubmitted else Submitted,
       submittedAt := Some(now), mode := Some(mode), submissionId := Some(receipt))
  }

  lemma {:induction false} HandInOk(x: Session, exam: Exam, mode: SubmitMode, receipt: nat, now: int)
    requires SessionOk(x, exam) && AcceptsCandidateWrites(exam.status, x.status)
    ensures SessionOk(HandedInRow(x, mode, receipt, now), exam)
  {
    hide ValidDraw;
  }

  // ---- answers and awards ----

  lemma {:induction false} AnswerWrittenInv(w: World, k: Key, row: AnswerRow)
    requires Inv(w) && k.session in w.sessions && w.sessions[k.session].exam in w.exams
    requires AnswerOk(row, k.question, w.exams[w.sessions[k.session].exam])
    ensures Inv(w.(answers := w.answers[k := row]))
  {
    hide ExamOk, SessionOk, SameSeat, HasSessions, AnswerOk;
    var w' := w.(answers := w.answers[k := row]);
    SameSeatsInv(w, w');
    SameRosterInv(w, w');
  }

  lemma {:induction false} StoredAwardOk(w: World, k: Key)
    requires Inv(w) && k in w.answers && k.session in w.sessions && w.sessions[k.session].exam in w.exams
    ensures AnswerOk(w.answers[k], k.question, w.exams[w.sessions[k.session].exam])
  {
  }

  lemma {:induction false} DeliveryInv(w: World, s: nat, q: nat, d: Delivery, now: int)
    requires Inv(w) && WriteRefusal(w, s, now).None?
    ensures Inv(w.(answers := StoreRow(w.answers, Key(s, q), Deliver(Get(w.answers, Key(s, q)), d))))
  {
    hide Inv, AnswerOk, Deliver;
    var k := Key(s, q);
    var row := Deliver(Get(w.answers, k), d);
    if row.Some? {
      if k in w.answers { StoredAwardOk(w, k); }
      DeliveredAwardOk(Get(w.answers, k), d, q, w.exams[w.sessions[s].exam]);
      AnswerWrittenInv(w, k, row.value);
    } else {
      assert w.(answers := w.answers) == w;
    }
  }

  lemma {:induction false} DeliveredAwardOk(before: Option<AnswerRow>, d: Delivery, q: nat, exam: Exam)
    requires before.Some? ==> AnswerOk(before.value, q, exam)
    ensures Deliver(before, d).Some? ==> AnswerOk(Deliver(before, d).value, q, exam)
  {
    hide FindQuestion;
  }

  lemma {:induction false} AwardInv(w: World, s: nat, q: nat, marks: int)
    requires Inv(w) && AwardMarks(w, s, q, marks).Ok?
    ensures Inv(AwardMarks(w, s, q, marks).value)
  {
    hide Inv, Graded;
    var k := Key(s, q);
    var marked := w.(answers := w.answers[k := w.answers[k].(awarded := Some(marks))]);
    AnswerWrittenInv(w, k, w.answers[k].(awarded := Some(marks)));
    ResultWrittenInv(marked, s, Grade(marked, s));
  }

  lemma {:induction false} RunnerInv(w: World, s: nat, q: nat, award: Option<nat>)
    requires Inv(w) && RunnerMarks(w, s, q, award).Ok?
    ensures Inv(RunnerMarks(w, s, q, award).value)
  {
    hide Inv;
    AnswerWrittenInv(w, Key(s, q), w.answers[Key(s, q)].(awarded := award));
  }

  // ---- the sweep ----

  lemma {:induction false} ExpireOk(s: nat, x: Session, exam: Exam, now: int, receipt: nat -> nat)
    requires SessionOk(x, exam) && exam.status == Live
    ensures SessionOk(Changed(Expire(now, receipt), s, x), Closed(exam, now))
  {
    hide ValidDraw;
  }

  lemma {:induction false} SweptSession(w: World, exams: set<nat>, now: int, receipt: nat -> nat, s: nat)
    requires exams <= w.exams.Keys && s in w.sessions
    ensures var w' := SweptWorld(w, exams, now, receipt);
            && w'.sessions.Keys == w.sessions.Keys && w'.exams.Keys == w.exams.Keys
            && w'.sessions[s] == (if w.sessions[s].exam in exams then Changed(Expire(now, receipt), s, w.sessions[s]) else w.sessions[s])
            && w'.sessions[s].exam == w.sessions[s].exam && w'.sessions[s].student == w.sessions[s].student
            && w'.sessions[s].computer == w.sessions[s].computer
  {
    ChangedKeeps(Expire(now, receipt), s, w.sessions[s]);
    hide Changed, Graded, Closed;
  }

  lemma {:induction false} SweptSessionsOk(w: World, exams: set<nat>, now: int, receipt: nat -> nat)
    requires Inv(w) && exams <= w.exams.Keys && forall e :: e in exams ==> w.exams[e].status == Live
    ensures SessionsOk(SweptWorld(w, exams, now, receipt))
  {
    hide Inv, SessionOk, Changed, Graded, Closed, ChangeSessions;
    var w' := SweptWorld(w, exams, now, receipt);
    SweptKeys(w, exams, now, receipt);
    forall s | s in w'.sessions
      ensures w'.sessions[s].exam in w'.exams && SessionOk(w'.sessions[s], w'.exams[w'.sessions[s].exam])
    {
      SweptSession(w, exams, now, receipt, s);
      SessionIsOk(w, s);
      var e := w.sessions[s].exam;
      if e in exams { ExpireOk(s, w.sessions[s], w.exams[e], now, receipt); }
    }
  }

  lemma {:induction false} SweptKeys(w: World, exams: set<nat>, now: int, receipt: nat -> nat)
    requires exams <= w.exams.Keys
    ensures var w' := SweptWorld(w, exams, now, receipt);
            && w'.sessions.Keys == w.sessions.Keys && w'.exams.Keys == w.exams.Keys
            && w'.results.Keys == w.results.Keys + StragglersIn(w, exams)
  {
    hide Changed, Graded, Closed;
  }

  lemma {:induction false} SweptExam(w: World, exams: set<nat>, now: int, receipt: nat -> nat, e: nat)
    requires exams <= w.exams.Keys && e in w.exams
    ensures e in SweptWorld(w, exams, now, receipt).exams
    ensures SweptWorld(w, exams, now, receipt).exams[e] == if e in exams then Closed(w.exams[e], now) else w.exams[e]
  {
    hide Changed, Graded, Closed;
  }

  lemma {:induction false} SweptAnswersOk(w: World, exams: set<nat>, now: int, receipt: nat -> nat)
    requires AnswersOk(w) && exams <= w.exams.Keys
    ensures AnswersOk(SweptWorld(w, exams, now, receipt))
  {
    hide Changed, Graded, ChangeSessions, FindQuestion;
    var w' := SweptWorld(w, exams, now, receipt);
    SweptKeys(w, exams, now, receipt);
    forall k | k in w'.answers && w'.sessions[k.session].exam in w'.exams
      ensures AnswerOk(w'.answers[k], k.question, w'.exams[w'.sessions[k.session].exam])
    {
      SweptSession(w, exams, now, receipt, k.session);
      SweptExam(w, exams, now, receipt, w.sessions[k.session].exam);
      assert AnswerOk(w.answers[k], k.question, w.exams[w.sessions[k.session].exam]);
    }
  }

  lemma {:induction false} SweptExamsOk(w: World, exams: set<nat>, now: int, receipt: nat -> nat)
    requires ExamsOk(w) && exams <= w.exams.Keys && forall e :: e in exams ==> w.exams[e].status == Live
    ensures ExamsOk(SweptWorld(w, exams, now, receipt))
  {
    hide WellFormedPaper, Distinct, ChangeSessions, Graded;
    SweptKeys(w, exams, now, receipt);
    forall e | e in w.exams ensures ExamOk(SweptWorld(w, exams, now, receipt).exams[e]) {
      SweptExam(w, exams, now, receipt, e);
      assert ExamOk(w.exams[e]);
    }
  }

  lemma {:induction false} SweptInv(w: World, exams: set<nat>, now: int, receipt: nat -> nat)
    requires Inv(w) && exams <= w.exams.Keys && forall e :: e in exams ==> w.exams[e].status == Live
    ensures Inv(SweptWorld(w, exams, now, receipt))
  {
    SweptSessionsOk(w, exams, now, receipt);
    hide ExamsOk, SessionsOk, SeatsOk, RosterOk, AnswersOk, SweptWorld;
    var w' := SweptWorld(w, exams, now, receipt);
    SweptExamsOk(w, exams, now, receipt);
    SweptAnswersOk(w, exams, now, receipt);
    SweptKeys(w, exams, now, receipt);
    forall s | s in w.sessions { SweptSession(w, exams, now, receipt, s); }
    forall e | e in w.exams { SweptExam(w, exams, now, receipt, e); }
    SameSeatsInv(w, w');
    SameRosterInv(w, w');
  }

  lemma {:induction false} DueIsLive(w: World, now: int)
    requires ExamsOk(w)
    ensures DueExams(w, now) <= w.exams.Keys && forall e :: e in DueExams(w, now) ==> w.exams[e].status == Live
  {
    forall e | e in DueExams(w, now) ensures w.exams[e].status == Live { assert ExamOk(w.exams[e]); }
  }

  // ---- every step, every run ----

  lemma {:induction false} UpdateInv(w: World, e: nat, patch: ExamPatch)
    requires Inv(w) && UpdateExam(w, e, patch).Ok?
    ensures Inv(UpdateExam(w, e, patch).value)
  {
    assert ExamOk(w.exams[e]);
    hide Inv, WellFormedPaper, Distinct;
    DraftWrittenInv(w, e, Patched(w.exams[e], patch));
  }

  lemma {:induction false} CreateInv(w: World, e: nat, draft: ExamDraft)
    requires Inv(w) && CreateExam(w, e, draft).Ok?
    ensures Inv(CreateExam(w, e, draft).value)
  {
    hide Inv, WellFormedPaper, Distinct;
    DraftWrittenInv(w, e, CreateExam(w, e, draft).value.exams[e]);
  }

  lemma {:induction false} SaveInv(w: World, s: nat, q: nat, value: AnswerValue, clientSeq: nat, now: int)
    requires Inv(w) && SaveAnswer(w, s, q, value, clientSeq, now).Ok?
    ensures Inv(SaveAnswer(w, s, q, value, clientSeq, now).value)
  {
    hide Inv;
    DeliveryInv(w, s, q, Save(value, clientSeq), now);
  }

  lemma {:induction false} FlagInv(w: World, s: nat, q: nat, now: int)
    requires Inv(w) && ToggleFlag(w, s, q, now).Ok?
    ensures Inv(ToggleFlag(w, s, q, now).value)
  {
    hide Inv;
    DeliveryInv(w, s, q, Flag, now);
  }

  /** No call, accepted or refused, breaks the invariant. */
  lemma {:induction false} NextInv(w: World, step: Step)
    requires Inv(w)
    ensures Inv(Next(w, step))
  {
    hide *;
    if Attempt(w, step).Ok? {
      AttemptInv(w, step);
      NextIsAttempt(w, step);
    } else {
      NextIsAttempt(w, step);
    }
  }

  lemma {:induction false} NextIsAttempt(w: World, step: Step)
    ensures Next(w, step) == if Attempt(w, step).Ok? then Attempt(w, step).value else w
  {
  }

  lemma {:induction false} AttemptInv(w: World, step: Step)
    requires Inv(w) && Attempt(w, step).Ok?
    ensures Inv(Attempt(w, step).value)
  {
    hide Inv, UpdateExam, CreateExam, ScheduleExam, StartExam, EndExam, CancelExam, CheckIn, SaveAnswer, ToggleFlag,
      Submit, SweepOnce, AwardMarks, RunnerMarks;
    match step
    case Create(e, draft) => CreateInv(w, e, draft);
    case Update(e, patch) => UpdateInv(w, e, patch);
    case Schedule(e, machines, ids) => ScheduleInv(w, e, machines, ids);
    case Start(e, key, now) => StartInv(w, e, key, now);
    case End(e, now, receipts) => EndInv(w, e, now, receipts);
    case Cancel(e) => CancelInv(w, e);
    case Enter(s, onMachine, now, choices) => CheckInInv(w, s, onMachine, now, choices);
    case SaveStep(s, q, value, clientSeq, now) => SaveInv(w, s, q, value, clientSeq, now);
    case FlagStep(s, q, now) => FlagInv(w, s, q, now);
    case HandIn(s, mode, receipt, now) => SubmitInv(w, s, mode, receipt, now);
    case Sweep(now, receipts) => SweepInv(w, now, receipts);
    case Award(s, q, marks) => AwardInv(w, s, q, marks);
    case Runner(s, q, award) => RunnerInv(w, s, q, award);
  }

  lemma {:induction false} SweepInv(w: World, now: int, receipt: nat -> nat)
    requires Inv(w) && SweepOnce(w, now, receipt).Ok?
    ensures Inv(SweepOnce(w, now, receipt).value)
  {
    hide Inv, SweptWorld, Grade;
    LiveIsDue(w, now);
    SweptInv(w, DueExams(w, now), now, receipt);
  }

  lemma {:induction false} LiveIsDue(w: World, now: int)
    requires Inv(w)
    ensures DueExams(w, now) <= w.exams.Keys && forall e :: e in DueExams(w, now) ==> w.exams[e].status == Live
  {
    DueIsLive(w, now);
  }

  /** Every reachable state satisfies the invariant. */
  lemma {:induction false} RunInv(w: World, steps: seq<Step>)
    requires Inv(w)
    ensures Inv(Run(w, steps))
  {
    hide Inv, Next;
    if steps != [] {
      RunInv(w, steps[..|steps| - 1]);
      NextInv(Run(w, steps[..|steps| - 1]), steps[|steps| - 1]);
    }
  }
}
