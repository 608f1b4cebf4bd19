/** The two lifecycles and their adjacency tables (backend/app/domain/transitions.py). */
module Transitions {

  datatype ExamStatus = Draft | Scheduled | Ready | Live | Ending | Completed | Cancelled

  datatype SessionStatus = NotStarted | Waiting | CheckedIn | Active | Submitted | AutoSubmitted | Terminated

  function ExamMoves(s: ExamStatus): set<ExamStatus> {
    match s
    case Draft => {Scheduled, Cancelled}
    case Scheduled => {Ready, Draft, Cancelled}
    case Ready => {Live, Scheduled, Cancelled}
    case Live => {Ending, Cancelled}
    case Ending => {Completed}
    case Completed => {}
    case Cancelled => {}
  }

  /** `CheckedIn` is the session status the source calls READY. */
  function SessionMoves(s: SessionStatus): set<SessionStatus> {
    match s
    case NotStarted => {Waiting, Terminated}
    case Waiting => {CheckedIn, Terminated}
    case CheckedIn => {Active, Waiting, Terminated}
    case Active => {Submitted, AutoSubmitted, Terminated}
    case Submitted => {}
    case AutoSubmitted => {}
    case Terminated => {}
  }

  predicate CanExamMove(current: ExamStatus, requested: ExamStatus) {
    requested in ExamMoves(current)
  }

  predicate AcceptsCandidateWrites(exam: ExamStatus, session: SessionStatus) {
    exam == Live && session == Active
  }

  predicate BeforeStart(s: SessionStatus) {
    s == NotStarted || s == Waiting || s == CheckedIn
  }

  predicate HandedIn(s: SessionStatus) {
    s == Submitted || s == AutoSubmitted
  }

  predicate TerminalSession(s: SessionStatus) {
    HandedIn(s) || s == Terminated
  }

  predicate TerminalExam(s: ExamStatus) {
    s == Completed || s == Cancelled
  }

  // ---- paths through the tables ----

  /** A walk along the edges of the exam table. */
  ghost predicate ExamPath(path: seq<ExamStatus>) {
    path != [] && forall i :: 0 <= i < |path| - 1 ==> CanExamMove(path[i], path[i + 1])
  }

  ghost predicate SessionPath(path: seq<SessionStatus>) {
    path != [] && forall i :: 0 <= i < |path| - 1 ==> path[i + 1] in SessionMoves(path[i])
  }

  /** Progress along the lifecycle, counting statuses that can return to each other as equal. */
  function ExamStage(s: ExamStatus): nat {
    match s
    case Draft => 0
    case Scheduled => 0
    case Ready => 0
    case Live => 1
    case Ending => 2
    case Completed => 3
    case Cancelled => 3
  }

  predicate ExamReach(from: ExamStatus, to: ExamStatus) {
    || from == to
    || (ExamStage(from) == 0 && ExamStage(to) == 0)
    || (ExamStage(from) < ExamStage(to) && !(from == Ending && to == Cancelled))
  }

  function SessionStage(s: SessionStatus): nat {
    match s
    case NotStarted => 0
    case Waiting => 1
    case CheckedIn => 1
    case Active => 2
    case _ => 3
  }

  predicate SessionReach(from: SessionStatus, to: SessionStatus) {
    || from == to
    || (SessionStage(from) == 1 && SessionStage(to) == 1)
    || SessionStage(from) < SessionStage(to)
  }

  lemma {:induction false} ExamPathReaches(path: seq<ExamStatus>)
    requires ExamPath(path)
    ensures ExamReach(path[0], path[|path| - 1])
  {
    if |path| > 1 {
      assert CanExamMove(path[0], path[1]);
      assert ExamPath(path[1..]) by {
        forall i | 0 <= i < |path[1..]| - 1 ensures CanExamMove(path[1..][i], path[1..][i + 1]) {
          assert CanExamMove(path[i + 1], path[i + 2]);
        }
      }
      ExamPathReaches(path[1..]);
    }
  }

  lemma {:induction false} SessionPathReaches(path: seq<SessionStatus>)
    requires SessionPath(path)
    ensures SessionReach(path[0], path[|path| - 1])
  {
    if |path| > 1 {
      assert path[1] in SessionMoves(path[0]);
      assert SessionPath(path[1..]) by {
        forall i | 0 <= i < |path[1..]| - 1 ensures path[1..][i + 1] in SessionMoves(path[1..][i]) {
          assert path[i + 2] in SessionMoves(path[i + 1]);
        }
      }
      SessionPathReaches(path[1..]);
    }
  }

  ghost predicate ExamWalk(path: seq<ExamStatus>, from: ExamStatus, to: ExamStatus) {
    ExamPath(path) && path[0] == from && path[|path| - 1] == to
  }

  ghost predicate SessionWalk(path: seq<SessionStatus>, from: SessionStatus, to: SessionStatus) {
    SessionPath(path) && path[0] == from && path[|path| - 1] == to
  }

  /** The straight way on from a status that has been scheduled. */
  function Onwards(to: ExamStatus): seq<ExamStatus> {
    match to
    case Ready => [Ready]
    case Live => [Ready, Live]
    case Ending => [Ready, Live, Ending]
    case Completed => [Ready, Live, Ending, Completed]
    case _ => []
  }

  lemma {:induction false} ExamReachHasWalk(from: ExamStatus, to: ExamStatus) returns (path: seq<ExamStatus>)
    requires ExamReach(from, to)
    ensures ExamWalk(path, from, to)
  {
    if from == to {
      path := [from];
    } else if to in ExamMoves(from) {
      path := [from, to];
    } else if to == Draft {
      path := [Ready, Scheduled, Draft];
    } else if from == Draft {
      path := [Draft, Scheduled] + Onwards(to);
    } else if from == Scheduled {
      path := [Scheduled] + Onwards(to);
    } else if from == Ready {
      path := Onwards(to);
    } else {
      path := [Live, Ending, Completed];
    }
  }

  lemma {:induction false} SessionReachHasWalk(from: SessionStatus, to: SessionStatus) returns (path: seq<SessionStatus>)
    requires SessionReach(from, to)
    ensures SessionWalk(path, from, to)
  {
    var before := if from == NotStarted then [NotStarted, Waiting] else if from == Waiting then [Waiting] else [];
    if from == to {
      path := [from];
    } else if to in SessionMoves(from) {
      path := [from, to];
    } else if to == CheckedIn {
      path := before + [CheckedIn];
    } else if to == Active {
      path := before + [CheckedIn, Active];
    } else {
      path := before + [CheckedIn, Active, to];
    }
  }

  /** `ExamReach` is the closure of the exam table: it holds exactly when some walk along its
      edges leads from the one status to the other. */
  lemma {:induction false} ExamReachIsClosure(from: ExamStatus, to: ExamStatus)
    ensures ExamReach(from, to) <==> exists path :: ExamWalk(path, from, to)
  {
    if path :| ExamWalk(path, from, to) { ExamPathReaches(path); }
    if ExamReach(from, to) { var path := ExamReachHasWalk(from, to); }
  }

  lemma {:induction false} SessionReachIsClosure(from: SessionStatus, to: SessionStatus)
    ensures SessionReach(from, to) <==> exists path :: SessionWalk(path, from, to)
  {
    if path :| SessionWalk(path, from, to) { SessionPathReaches(path); }
    if SessionReach(from, to) { var path := SessionReachHasWalk(from, to); }
  }
}
