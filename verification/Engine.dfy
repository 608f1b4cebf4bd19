/** The examination engine as a step machine: every service call of
    backend/app/services/commands.py, sessions.py and sweep.py that changes an exam, a
    session, an answer or a result, as a function from the stored rows to the stored rows.
    A refused call, and one the database's own constraints reject, changes nothing. */
module Engine {
  import opened Basics
  import opened Transitions
  import opened Shuffle
  import opened Paper
  import opened Grading
  import opened PaperScore
  import opened AnswerRows
  import opened Seating

  // ---- rows ----

  /** Clock ticks in a minute; the clock counts microseconds. */
  const MINUTE: nat := 60_000_000

  datatype Exam = Exam(
    status: ExamStatus, duration: nat, config: DrawConfig, roster: seq<nat>, paper: seq<Question>,
    startsAt: Option<int>, endsAt: Option<int>, endedAt: Option<int>, startKey: Option<string>, eventSeq: nat)

  datatype SubmitMode = Manual | Auto

  datatype Session = Session(
    exam: nat, student: nat, computer: Option<nat>, status: SessionStatus,
    order: Option<seq<nat>>, optionOrder: map<nat, seq<nat>>,
    checkedInAt: Option<int>, startedAt: Option<int>,
    submittedAt: Option<int>, mode: Option<SubmitMode>, submissionId: Option<nat>)

  datatype Key = Key(session: nat, question: nat)

  datatype World = World(
    exams: map<nat, Exam>, sessions: map<nat, Session>, answers: map<Key, AnswerRow>, results: map<nat, Score>)

  const EMPTY := World(map[], map[], map[], map[])

  datatype Error =
    | NotFound | IllegalTransition | NotEditable | Unprocessable | WritesClosed | DeadlinePassed
    | ConstraintViolated

  // ---- grading one stored session ----

  function AnswersOf(answers: map<Key, AnswerRow>, s: nat): map<nat, AnswerValue> {
    map k | k in answers && k.session == s && answers[k].value.Some? :: k.question := answers[k].value.value
  }

  function AwardsOf(answers: map<Key, AnswerRow>, s: nat): map<nat, nat> {
    map k | k in answers && k.session == s && answers[k].awarded.Some? :: k.question := answers[k].awarded.value
  }

  function Graded(paper: seq<Question>, x: Session, answers: map<Key, AnswerRow>, s: nat): Score {
    PaperTotal(paper, x.order, x.optionOrder, AnswersOf(answers, s), AwardsOf(answers, s))
  }

  function Grade(w: World, s: nat): Score
    requires s in w.sessions && w.sessions[s].exam in w.exams
  {
    Graded(w.exams[w.sessions[s].exam].paper, w.sessions[s], w.answers, s)
  }

  /** The CHECK constraints on a result row. */
  predicate Storable(score: Score) {
    score.available > 0 && score.given <= score.available
  }

  // ---- drafting ----

  datatype ExamDraft = ExamDraft(duration: nat, config: DrawConfig, roster: seq<nat>, paper: seq<Question>)

  /** Fields left out of an edit stay as they are. */
  datatype ExamPatch = ExamPatch(duration: Option<nat>, config: Option<DrawConfig>,
                                 roster: Option<seq<nat>>, paper: Option<seq<Question>>)

  predicate DurationOk(minutes: nat) {
    5 <= minutes <= 480
  }

  function CreateExam(w: World, e: nat, draft: ExamDraft): Result<World, Error> {
    if draft.paper == [] || !DurationOk(draft.duration) then Err(Unprocessable)
    else if e in w.exams || !Distinct(draft.roster) || !WellFormedPaper(draft.paper) then Err(ConstraintViolated)
    else
      Ok(w.(exams := w.exams[e := Exam(Draft, draft.duration, draft.config, draft.roster, draft.paper,
                                       None, None, None, None, 0)]))
  }

  function Patched(x: Exam, patch: ExamPatch): Exam {
    x.(duration := if patch.duration.Some? then patch.duration.value else x.duration,
       config := if patch.config.Some? then patch.config.value else x.config,
       roster := if patch.roster.Some? then patch.roster.value else x.roster,
       paper := if patch.paper.Some? then patch.paper.value else x.paper)
  }

  /** Unlike creating, editing does not insist that the paper keeps a question. */
  function UpdateExam(w: World, e: nat, patch: ExamPatch): Result<World, Error> {
    if e !in w.exams then Err(NotFound)
    else if w.exams[e].status != Draft then Err(NotEditable)
    else
      var x := Patched(w.exams[e], patch);
      if !DurationOk(x.duration) then Err(Unprocessable)
      else if !Distinct(x.roster) || !WellFormedPaper(x.paper) then Err(ConstraintViolated)
      else Ok(w.(exams := w.exams[e := x]))
  }

  // ---- scheduling ----

  function SessionsOf(w: World, e: nat): set<nat> {
    set s | s in w.sessions && w.sessions[s].exam == e
  }

  function SeatedStudents(w: World, e: nat): set<nat> {
    set s | s in SessionsOf(w, e) :: w.sessions[s].student
  }

  function OccupiedMachines(w: World, e: nat): set<nat> {
    set s | s in SessionsOf(w, e) && w.sessions[s].computer.Some? :: w.sessions[s].computer.value
  }

  function NewSession(e: nat, a: SeatAssignment): Session {
    Session(e, a.studentId, a.computerId, NotStarted, None, map[], None, None, None, None, None)
  }

  function AddSessions(sessions: map<nat, Session>, e: nat, chart: seq<SeatAssignment>, ids: seq<nat>): map<nat, Session>
    requires |ids| >= |chart|
  {
    if chart == [] then sessions
    else
      var last := |chart| - 1;
      AddSessions(sessions, e, chart[..last], ids)[ids[last] := NewSession(e, chart[last])]
  }

  /** The unique columns of the table of workstations. */
  predicate MachinesOk(machines: seq<Workstation>) {
    forall i, j :: 0 <= i < j < |machines| ==>
      machines[i].id != machines[j].id && machines[i].position != machines[j].position
  }

  /** Session ids are freshly made; a clash is refused by the primary key. */
  predicate FreshIds(w: World, ids: seq<nat>) {
    Distinct(ids) && forall i :: 0 <= i < |ids| ==> ids[i] !in w.sessions
  }

  function SeatingChart(w: World, e: nat, machines: seq<Workstation>): seq<SeatAssignment>
    requires e in w.exams
  {
    Allocate(w.exams[e].roster, machines, OccupiedMachines(w, e), SeatedStudents(w, e))
  }

  function ScheduleExam(w: World, e: nat, machines: seq<Workstation>, ids: seq<nat>): Result<World, Error> {
    if e !in w.exams then Err(NotFound)
    else
      var x := w.exams[e];
      if !CanExamMove(x.status, Scheduled) then Err(IllegalTransition)
      else if x.roster == [] then Err(Unprocessable)
      else if CapacityShortfall(|x.roster|, |machines|) > 0 then Err(Unprocessable)
      else
        var chart := SeatingChart(w, e, machines);
        if !MachinesOk(machines) || |ids| != |chart| || !FreshIds(w, ids) then Err(ConstraintViolated)
        else Ok(w.(exams := w.exams[e := x.(status := Ready, eventSeq := x.eventSeq + 1)],
                   sessions := AddSessions(w.sessions, e, chart, ids)))
  }

  // ---- starting, ending, cancelling: one change to every session of an exam ----

  datatype Change =
    | Release(startsAt: int)
    | CloseEarly(at: int, receipt: nat -> nat)
    | Expire(now: int, receipt: nat -> nat)
    | CallOff

  /** What each of the four loops does to one session row. */
  function Changed(c: Change, s: nat, x: Session): Session {
    match c
    case Release(startsAt) =>
      if BeforeStart(x.status)
      then x.(status := Active, startedAt := if x.startedAt.Some? then x.startedAt else Some(startsAt))
      else x
    case CloseEarly(at, receipt) =>
      if x.status == Active
      then x.(status := AutoSubmitted, submittedAt := Some(at), mode := Some(Auto), submissionId := Some(receipt(s)))
      else if BeforeStart(x.status) then x.(status := Terminated) else x
    case Expire(now, receipt) =>
      if x.status == Active
      then x.(status := AutoSubmitted,
              submittedAt := if x.submittedAt.Some? then x.submittedAt else Some(now),
              mode := Some(Auto),
              submissionId := if x.submissionId.Some? then x.submissionId else Some(receipt(s)))
      else if BeforeStart(x.status) then x.(status := Terminated) else x
    case CallOff =>
      if TerminalSession(x.status) then x else x.(status := Terminated)
  }

  function ChangeSessions(sessions: map<nat, Session>, ids: set<nat>, c: Change): map<nat, Session> {
    map s | s in sessions :: if s in ids then Changed(c, s, sessions[s]) else sessions[s]
  }

  function StartExam(w: World, e: nat, key: Option<string>, now: int): Result<World, Error> {
    if e !in w.exams then Err(NotFound)
    else
      var x := w.exams[e];
      if (x.status == Live || x.status == Ending) && x.startsAt.Some? && x.endsAt.Some?
         && (key.None? || key == x.startKey) then Ok(w)
      else if !CanExamMove(x.status, Live) then Err(IllegalTransition)
      else
        var x' := x.(startsAt := Some(now), endsAt := Some(now + x.duration * MINUTE), status := Live,
                     startKey := key, eventSeq := x.eventSeq + 1);
        if !WindowOk(x') then Err(ConstraintViolated)
        else Ok(w.(exams := w.exams[e := x'],
                   sessions := ChangeSessions(w.sessions, SessionsOf(w, e), Release(now))))
  }

  /** The CHECK constraint that a window ends after it starts. */
  predicate WindowOk(x: Exam) {
    x.startsAt.Some? && x.endsAt.Some? ==> x.startsAt.value < x.endsAt.value
  }

  function Earlier(endsAt: Option<int>, now: int): int {
    if endsAt.Some? && endsAt.value < now then endsAt.value else now
  }

  function EndExam(w: World, e: nat, now: int, receipt: nat -> nat): Result<World, Error> {
    if e !in w.exams then Err(NotFound)
    else
      var x := w.exams[e];
      if !CanExamMove(x.status, Ending) then Err(IllegalTransition)
      else
        var x' := x.(status := Completed, endsAt := Some(Earlier(x.endsAt, now)), endedAt := Some(now),
                     eventSeq := x.eventSeq + 1);
        if !WindowOk(x') then Err(ConstraintViolated)
        else Ok(w.(exams := w.exams[e := x'],
                   sessions := ChangeSessions(w.sessions, SessionsOf(w, e), CloseEarly(now, receipt))))
  }

  function CancelExam(w: World, e: nat): Result<World, Error> {
    if e !in w.exams then Err(NotFound)
    else
      var x := w.exams[e];
      if !CanExamMove(x.status, Cancelled) then Err(IllegalTransition)
      else Ok(w.(exams := w.exams[e := x.(status := Cancelled, eventSeq := x.eventSeq + 1)],
                 sessions := ChangeSessions(w.sessions, SessionsOf(w, e), CallOff)))
  }

  // ---- the candidate ----

  function CheckIn(w: World, s: nat, onMachine: bool, now: int, choices: Choices): Result<World, Error> {
    if s !in w.sessions || w.sessions[s].exam !in w.exams then Err(NotFound)
    else
      var x, exam := w.sessions[s], w.exams[w.sessions[s].exam];
      var drawn := Draw(exam.paper, exam.config, choices);
      var x' := x.(
        order := if x.order.Some? then x.order else Some(drawn.order),
        optionOrder := if x.order.Some? then x.optionOrder else drawn.optionOrder,
        checkedInAt := if x.checkedInAt.Some? then x.checkedInAt else Some(now),
        status := if x.status == NotStarted then (if onMachine then CheckedIn else Waiting) else x.status);
      Ok(w.(sessions := w.sessions[s := x']))
  }

  /** `_assert_writable`: both lifecycles must agree, and the deadline must not have passed. */
  function WriteRefusal(w: World, s: nat, now: int): Option<Error> {
    if s !in w.sessions || w.sessions[s].exam !in w.exams then Some(NotFound)
    else
      var x := w.exams[w.sessions[s].exam];
      if !AcceptsCandidateWrites(x.status, w.sessions[s].status) then Some(WritesClosed)
      else if x.endsAt.Some? && now > x.endsAt.value then Some(DeadlinePassed)
      else None
  }

  function StoreRow(answers: map<Key, AnswerRow>, k: Key, row: Option<AnswerRow>): map<Key, AnswerRow> {
    if row.Some? then answers[k := row.value] else answers
  }

  function SaveAnswer(w: World, s: nat, q: nat, value: AnswerValue, clientSeq: nat, now: int): Result<World, Error> {
    var refusal := WriteRefusal(w, s, now);
    if refusal.Some? then Err(refusal.value)
    else
      var k := Key(s, q);
      Ok(w.(answers := StoreRow(w.answers, k, SaveRow(Get(w.answers, k), value, clientSeq))))
  }

  function ToggleFlag(w: World, s: nat, q: nat, now: int): Result<World, Error> {
    var refusal := WriteRefusal(w, s, now);
    if refusal.Some? then Err(refusal.value)
    else
      var k := Key(s, q);
      Ok(w.(answers := StoreRow(w.answers, k, FlagRow(Get(w.answers, k)))))
  }

  function Submit(w: World, s: nat, mode: SubmitMode, receipt: nat, now: int): Result<World, Error> {
    if s !in w.sessions then Err(NotFound)
    else if w.sessions[s].submittedAt.Some? && w.sessions[s].submissionId.Some? then Ok(w)
    else
      var refusal := WriteRefusal(w, s, now);
      if refusal.Some? then Err(refusal.value)
      else
        var score := Grade(w, s);
        if !Storable(score) then Err(ConstraintViolated)
        else
          var x := w.sessions[s].(status := if mode == Auto then AutoSubmitted else Submitted,
                                  submittedAt := Some(now), mode := Some(mode), submissionId := Some(receipt));
          Ok(w.(sessions := w.sessions[s := x], results := w.results[s := score]))
  }

  // ---- the deadline ----

  predicate Due(x: Exam, now: int) {
    (x.status == Live || x.status == Ending) && x.endsAt.Some? && x.endsAt.value <= now
  }

  function DueExams(w: World, now: int): set<nat> {
    set e | e in w.exams && Due(w.exams[e], now)
  }

  function Closed(x: Exam, now: int): Exam {
    x.(status := Completed, endedAt := if x.endedAt.Some? then x.endedAt else Some(now), eventSeq := x.eventSeq + 1)
  }

  /** The sessions of a set of exams. */
  function SessionsIn(w: World, exams: set<nat>): set<nat> {
    set s | s in w.sessions && w.sessions[s].exam in exams
  }

  /** Of those, the ones the sweep hands in and grades. */
  function StragglersIn(w: World, exams: set<nat>): set<nat> {
    set s | s in w.sessions && w.sessions[s].exam in exams && w.sessions[s].status == Active
  }

  /** Every exam of `exams` closed, its stragglers handed in and graded. */
  function SweptWorld(w: World, exams: set<nat>, now: int, receipt: nat -> nat): World
    requires exams <= w.exams.Keys
  {
    World(map e | e in w.exams :: if e in exams then Closed(w.exams[e], now) else w.exams[e],
          ChangeSessions(w.sessions, SessionsIn(w, exams), Expire(now, receipt)),
          w.answers,
          map s | s in w.results.Keys + StragglersIn(w, exams) ::
            if s in StragglersIn(w, exams) then Grade(w, s) else w.results[s])
  }

  /** `sweep_once` is one transaction: a single result the database refuses undoes it all. */
  function SweepOnce(w: World, now: int, receipt: nat -> nat): Result<World, Error> {
    if exists s :: s in StragglersIn(w, DueExams(w, now)) && !Storable(Grade(w, s)) then Err(ConstraintViolated)
    else Ok(SweptWorld(w, DueExams(w, now), now, receipt))
  }

  // ---- marks that arrive afterwards ----

  /** `award_marks`: a person marks a written answer, and the paper is graded again. */
  function AwardMarks(w: World, s: nat, q: nat, marks: int): Result<World, Error> {
    var k := Key(s, q);
    if k !in w.answers || s !in w.sessions || w.sessions[s].exam !in w.exams then Err(NotFound)
    else
      var found := FindQuestion(w.exams[w.sessions[s].exam].paper, q);
      if found.None? || found.value.kind != Text then Err(Unprocessable)
      else if marks < 0 || marks > 100 * found.value.marks then Err(Unprocessable)
      else
        var marked := w.(answers := w.answers[k := w.answers[k].(awarded := Some(marks))]);
        if !Storable(Grade(marked, s)) then Err(ConstraintViolated)
        else Ok(marked.(results := w.results[s := Grade(marked, s)]))
  }

  /** What the program runner and a test-case correction do to one answer: set or clear its
      award, without grading the paper again. */
  function RunnerMarks(w: World, s: nat, q: nat, award: Option<nat>): Result<World, Error> {
    var k := Key(s, q);
    if k !in w.answers || s !in w.sessions || w.sessions[s].exam !in w.exams then Err(NotFound)
    else
      var found := FindQuestion(w.exams[w.sessions[s].exam].paper, q);
      if found.None? || found.value.kind != Coding then Err(Unprocessable)
      else if award.Some? && award.value > 100 * found.value.marks then Err(Unprocessable)
      else Ok(w.(answers := w.answers[k := w.answers[k].(awarded := award)]))
  }

  // ---- runs ----

  datatype Step =
    | Create(exam: nat, draft: ExamDraft)
    | Update(exam: nat, patch: ExamPatch)
    | Schedule(exam: nat, machines: seq<Workstation>, ids: seq<nat>)
    | Start(exam: nat, key: Option<string>, now: int)
    | End(exam: nat, now: int, receipts: nat -> nat)
    | Cancel(exam: nat)
    | Enter(session: nat, onMachine: bool, now: int, choices: Choices)
    | SaveStep(session: nat, question: nat, value: AnswerValue, clientSeq: nat, now: int)
    | FlagStep(session: nat, question: nat, now: int)
    | HandIn(session: nat, mode: SubmitMode, receipt: nat, now: int)
    | Sweep(now: int, receipts: nat -> nat)
    | Award(session: nat, question: nat, marks: int)
    | Runner(session: nat, question: nat, award: Option<nat>)

  function Attempt(w: World, step: Step): Result<World, Error> {
    match step
    case Create(e, draft) => CreateExam(w, e, draft)
    case Update(e, patch) => UpdateExam(w, e, patch)
    case Schedule(e, machines, ids) => ScheduleExam(w, e, machines, ids)
    case Start(e, key, now) => StartExam(w, e, key, now)
    case End(e, now, receipts) => EndExam(w, e, now, receipts)
    case Cancel(e) => CancelExam(w, e)
    case Enter(s, onMachine, now, choices) => CheckIn(w, s, onMachine, now, choices)
    case SaveStep(s, q, value, clientSeq, now) => SaveAnswer(w, s, q, value, clientSeq, now)
    case FlagStep(s, q, now) => ToggleFlag(w, s, q, now)
    case HandIn(s, mode, receipt, now) => Submit(w, s, mode, receipt, now)
    case Sweep(now, receipts) => SweepOnce(w, now, receipts)
    case Award(s, q, marks) => AwardMarks(w, s, q, marks)
    case Runner(s, q, award) => RunnerMarks(w, s, q, award)
  }

  /** A refused call leaves every row as it was. */
  function Next(w: World, step: Step): World {
    match Attempt(w, step)
    case Ok(w') => w'
    case Err(_) => w
  }

  function Run(w: World, steps: seq<Step>): World {
    if steps == [] then w else Next(Run(w, steps[..|steps| - 1]), steps[|steps| - 1])
  }
}
