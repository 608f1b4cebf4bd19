/** The services as they run: four tables updated in place, row by row, each call one
    transaction. Every method is proved to do to the tables exactly what the step function of
    the same name in Engine says, so all that is proved there holds of these loops. */
module EngineServer {
  import opened Basics
  import opened Transitions
  import opened Shuffle
  import opened Paper
  import opened Grading
  import opened PaperScore
  import opened AnswerRows
  import opened Seating
  import opened Engine

  /** A call either commits what its step function says, or fails with the same error and rolls back. */
  ghost predicate Does(before: World, result: Result<World, Error>, failure: Option<Error>, after: World) {
    match result
    case Ok(w) => failure.None? && after == w
    case Err(e) => failure == Some(e) && after == before
  }

  // ---- the loops, one row further ----

  lemma {:induction false} ChangeNothing(sessions: map<nat, Session>, c: Change)
    ensures ChangeSessions(sessions, {}, c) == sessions
  {
    hide Changed;
  }

  lemma {:induction false} ChangeOneMore(sessions: map<nat, Session>, ids: set<nat>, s: nat, c: Change)
    requires s in sessions && s !in ids
    ensures ChangeSessions(sessions, ids, c).Keys == sessions.Keys
    ensures ChangeSessions(sessions, ids, c)[s] == sessions[s]
    ensures ChangeSessions(sessions, ids + {s}, c) == ChangeSessions(sessions, ids, c)[s := Changed(c, s, sessions[s])]
  {
    hide Changed;
  }

  lemma {:induction false} AddOneMore(sessions: map<nat, Session>, e: nat, chart: seq<SeatAssignment>, ids: seq<nat>, i: nat)
    requires i < |chart| == |ids|
    ensures AddSessions(sessions, e, chart[..i + 1], ids) == AddSessions(sessions, e, chart[..i], ids)[ids[i] := NewSession(e, chart[i])]
  {
    assert chart[..i + 1][..i] == chart[..i];
  }

  lemma {:induction false} AddNothing(sessions: map<nat, Session>, e: nat, ids: seq<nat>)
    ensures AddSessions(sessions, e, [], ids) == sessions
  {
  }

  // ---- the tables ----

  class Server {
    var exams: map<nat, Exam>
    var sessions: map<nat, Session>
    var answers: map<Key, AnswerRow>
    var results: map<nat, Score>

    function State(): World
      reads this
    {
      World(exams, sessions, answers, results)
    }

    constructor ()
      ensures State() == EMPTY
    {
      exams, sessions, answers, results := map[], map[], map[], map[];
    }

    method CreateExam(e: nat, draft: ExamDraft) returns (failure: Option<Error>)
      modifies this
      ensures Does(old(State()), Engine.CreateExam(old(State()), e, draft), failure, State())
    {
      hide Distinct, WellFormedPaper;
      if draft.paper == [] || !DurationOk(draft.duration) { return Some(Unprocessable); }
      if e in exams || !Distinct(draft.roster) || !WellFormedPaper(draft.paper) { return Some(ConstraintViolated); }
      exams := exams[e := Exam(Draft, draft.duration, draft.config, draft.roster, draft.paper, None, None, None, None, 0)];
      return None;
    }

    method UpdateExam(e: nat, patch: ExamPatch) returns (failure: Option<Error>)
      modifies this
      ensures Does(old(State()), Engine.UpdateExam(old(State()), e, patch), failure, State())
    {
      hide Distinct, WellFormedPaper;
      if e !in exams { return Some(NotFound); }
      var x := exams[e];
      if x.status != Draft { return Some(NotEditable); }
      if patch.duration.Some? { x := x.(duration := patch.duration.value); }
      if patch.config.Some? { x := x.(config := patch.config.value); }
      if patch.roster.Some? { x := x.(roster := patch.roster.value); }
      if patch.paper.Some? { x := x.(paper := patch.paper.value); }
      if !DurationOk(x.duration) { return Some(Unprocessable); }
      if !Distinct(x.roster) || !WellFormedPaper(x.paper) { return Some(ConstraintViolated); }
      exams := exams[e := x];
      return None;
    }

    method ScheduleExam(e: nat, machines: seq<Workstation>, ids: seq<nat>) returns (failure: Option<Error>)
      modifies this
      ensures Does(old(State()), Engine.ScheduleExam(old(State()), e, machines, ids), failure, State())
    {
      hide SeatedStudents, OccupiedMachines, Allocate, MachinesOk, FreshIds, AddSessions;
      if e !in exams { return Some(NotFound); }
      var x := exams[e];
      if !CanExamMove(x.status, Scheduled) { return Some(IllegalTransition); }
      if x.roster == [] { return Some(Unprocessable); }
      if CapacityShortfall(|x.roster|, |machines|) > 0 { return Some(Unprocessable); }
      var assignments := AllocateSeats(x.roster, machines, OccupiedMachines(State(), e), SeatedStudents(State(), e));
      if !MachinesOk(machines) || |ids| != |assignments| || !FreshIds(State(), ids) { return Some(ConstraintViolated); }
      SeatAll(e, assignments, ids);
      x := x.(status := Scheduled);
      x := x.(status := Ready, eventSeq := x.eventSeq + 1);
      exams := exams[e := x];
      return None;
    }

    /** One new session row for each seat of the chart. */
    method SeatAll(e: nat, assignments: seq<SeatAssignment>, ids: seq<nat>)
      requires |ids| == |assignments|
      modifies this`sessions
      ensures sessions == AddSessions(old(sessions), e, assignments, ids)
    {
      hide AddSessions;
      AddNothing(sessions, e, ids);
      for i := 0 to |assignments|
        invariant sessions == AddSessions(old(sessions), e, assignments[..i], ids)
      {
        AddOneMore(old(sessions), e, assignments, ids, i);
        sessions := sessions[ids[i] := Session(e, assignments[i].studentId, assignments[i].computerId, NotStarted,
                                               None, map[], None, None, None, None, None)];
      }
      assert assignments[..|assignments|] == assignments;
    }

    method StartExam(e: nat, key: Option<string>, now: int) returns (failure: Option<Error>)
      modifies this
      ensures Does(old(State()), Engine.StartExam(old(State()), e, key, now), failure, State())
    {
      hide ChangeSessions;
      if e !in exams { return Some(NotFound); }
      var x := exams[e];
      if (x.status == Live || x.status == Ending) && x.startsAt.Some? && x.endsAt.Some? {
        if key.None? || key == x.startKey { return None; }
      }
      if !CanExamMove(x.status, Live) { return Some(IllegalTransition); }
      x := x.(startsAt := Some(now), endsAt := Some(now + x.duration * MINUTE), status := Live, startKey := key);
      x := x.(eventSeq := x.eventSeq + 1);
      if !WindowOk(x) { return Some(ConstraintViolated); }
      ReleaseAll(e, now);
      exams := exams[e := x];
      return None;
    }

    /** Candidates who are waiting are released; one already active keeps their own start. */
    method ReleaseAll(e: nat, startsAt: int)
      modifies this`sessions
      ensures sessions == ChangeSessions(old(sessions), SessionsOf(old(State()), e), Release(startsAt))
    {
      ghost var before, all := sessions, SessionsOf(State(), e);
      var rows := SessionsOf(State(), e);
      ChangeNothing(sessions, Release(startsAt));
      hide ChangeSessions;
      assert all - rows == {};
      while rows != {}
        invariant rows <= all && forall s :: s in all ==> s in before
        invariant sessions == ChangeSessions(before, all - rows, Release(startsAt))
      {
        var s :| s in rows;
        ChangeOneMore(before, all - rows, s, Release(startsAt));
        SameEntry(sessions, s);
        var x := sessions[s];
        if x.status == NotStarted || x.status == Waiting || x.status == CheckedIn {
          x := x.(status := Active);
          if x.startedAt.None? { x := x.(startedAt := Some(startsAt)); }
          sessions := sessions[s := x];
        }
        assert all - (rows - {s}) == all - rows + {s};
        rows := rows - {s};
      }
      assert all - {} == all;
    }

    method EndExam(e: nat, now: int, receipts: nat -> nat) returns (failure: Option<Error>)
      modifies this
      ensures Does(old(State()), Engine.EndExam(old(State()), e, now, receipts), failure, State())
    {
      hide ChangeSessions;
      if e !in exams { return Some(NotFound); }
      var x := exams[e];
      if !CanExamMove(x.status, Ending) { return Some(IllegalTransition); }
      x := x.(status := Ending);
      x := x.(endsAt := Some(Earlier(x.endsAt, now)), endedAt := Some(now));
      x := x.(status := Completed, eventSeq := x.eventSeq + 1);
      if !WindowOk(x) { return Some(ConstraintViolated); }
      CloseAllEarly(e, now, receipts);
      exams := exams[e := x];
      return None;
    }

    /** Who is sitting the paper is handed in, who never started is terminated; nothing is graded. */
    method CloseAllEarly(e: nat, now: int, receipts: nat -> nat)
      modifies this`sessions
      ensures sessions == ChangeSessions(old(sessions), SessionsOf(old(State()), e), CloseEarly(now, receipts))
    {
      ghost var before, all := sessions, SessionsOf(State(), e);
      var rows := SessionsOf(State(), e);
      ChangeNothing(sessions, CloseEarly(now, receipts));
      hide ChangeSessions;
      assert all - rows == {};
      while rows != {}
        invariant rows <= all && forall s :: s in all ==> s in before
        invariant sessions == ChangeSessions(before, all - rows, CloseEarly(now, receipts))
      {
        var s :| s in rows;
        ChangeOneMore(before, all - rows, s, CloseEarly(now, receipts));
        SameEntry(sessions, s);
        var x := sessions[s];
        if x.status == Active {
          sessions := sessions[s := x.(status := AutoSubmitted, submittedAt := Some(now), mode := Some(Auto),
                                       submissionId := Some(receipts(s)))];
        } else if x.status == NotStarted || x.status == Waiting || x.status == CheckedIn {
          sessions := sessions[s := x.(status := Terminated)];
        }
        assert all - (rows - {s}) == all - rows + {s};
        rows := rows - {s};
      }
      assert all - {} == all;
    }

    method CancelExam(e: nat) returns (failure: Option<Error>)
      modifies this
      ensures Does(old(State()), Engine.CancelExam(old(State()), e), failure, State())
    {
      hide ChangeSessions;
      if e !in exams { return Some(NotFound); }
      var x := exams[e];
      if !CanExamMove(x.status, Cancelled) { return Some(IllegalTransition); }
      TerminateAll(e);
      exams := exams[e := x.(status := Cancelled, eventSeq := x.eventSeq + 1)];
      return None;
    }

    method TerminateAll(e: nat)
      modifies this`sessions
      ensures sessions == ChangeSessions(old(sessions), SessionsOf(old(State()), e), CallOff)
    {
      ghost var before, all := sessions, SessionsOf(State(), e);
      var rows := SessionsOf(State(), e);
      ChangeNothing(sessions, CallOff);
      hide ChangeSessions;
      assert all - rows == {};
      while rows != {}
        invariant rows <= all && forall s :: s in all ==> s in before
        invariant sessions == ChangeSessions(before, all - rows, CallOff)
      {
        var s :| s in rows;
        ChangeOneMore(before, all - rows, s, CallOff);
        SameEntry(sessions, s);
        var x := sessions[s];
        if x.status != Submitted && x.status != AutoSubmitted && x.status != Terminated {
          sessions := sessions[s := x.(status := Terminated)];
        }
        assert all - (rows - {s}) == all - rows + {s};
        rows := rows - {s};
      }
      assert all - {} == all;
    }

    method CheckIn(s: nat, onMachine: bool, now: int, choices: Choices) returns (failure: Option<Error>)
      modifies this
      ensures Does(old(State()), Engine.CheckIn(old(State()), s, onMachine, now, choices), failure, State())
    {
      hide Draw;
      if s !in sessions || sessions[s].exam !in exams { return Some(NotFound); }
      var x, exam := sessions[s], exams[sessions[s].exam];
      if x.order.None? {
        var drawn := DrawPaper(exam.paper, exam.config, choices);
        x := x.(order := Some(drawn.order), optionOrder := drawn.optionOrder);
      }
      if x.checkedInAt.None? { x := x.(checkedInAt := Some(now)); }
      if x.status == NotStarted { x := x.(status := if onMachine then CheckedIn else Waiting); }
      sessions := sessions[s := x];
      return None;
    }

    method SaveAnswer(s: nat, q: nat, value: AnswerValue, clientSeq: nat, now: int) returns (failure: Option<Error>)
      modifies this
      ensures Does(old(State()), Engine.SaveAnswer(old(State()), s, q, value, clientSeq, now), failure, State())
    {
      hide WriteRefusal;
      var refusal := WriteRefusal(State(), s, now);
      if refusal.Some? { return refusal; }
      var k := Key(s, q);
      var existing := if k in answers then answers[k] else AnswerRow(None, false, -1, None);
      if clientSeq != 0 && clientSeq <= existing.clientSeq {
        SameEntry(answers, k);
        return None;
      }
      answers := answers[k := existing.(value := Some(value), clientSeq := clientSeq)];
      return None;
    }

    method ToggleFlag(s: nat, q: nat, now: int) returns (failure: Option<Error>)
      modifies this
      ensures Does(old(State()), Engine.ToggleFlag(old(State()), s, q, now), failure, State())
    {
      hide WriteRefusal;
      var refusal := WriteRefusal(State(), s, now);
      if refusal.Some? { return refusal; }
      var k := Key(s, q);
      if k !in answers {
        answers := answers[k := AnswerRow(None, true, 0, None)];
      } else {
        answers := answers[k := answers[k].(flagged := !answers[k].flagged)];
      }
      return None;
    }

    method Submit(s: nat, mode: SubmitMode, receipt: nat, now: int) returns (failure: Option<Error>)
      modifies this
      ensures Does(old(State()), Engine.Submit(old(State()), s, mode, receipt, now), failure, State())
    {
      hide PaperTotal, AnswersOf, AwardsOf;
      if s !in sessions { return Some(NotFound); }
      var x := sessions[s];
      if x.submittedAt.Some? && x.submissionId.Some? { return None; }
      var refusal := WriteRefusal(State(), s, now);
      if refusal.Some? { return refusal; }
      x := x.(status := if mode == Auto then AutoSubmitted else Submitted,
              submittedAt := Some(now), mode := Some(mode), submissionId := Some(receipt));
      var given, available, unmarked := ScorePaper(exams[x.exam].paper, x.order, x.optionOrder, AnswersOf(answers, s), AwardsOf(answers, s));
      if !Storable(Score(given, available, unmarked)) { return Some(ConstraintViolated); }
      sessions := sessions[s := x];
      results := results[s := Score(given, available, unmarked)];
      return None;
    }

    method AwardMarks(s: nat, q: nat, marks: int) returns (failure: Option<Error>)
      modifies this
      ensures Does(old(State()), Engine.AwardMarks(old(State()), s, q, marks), failure, State())
    {
      hide PaperTotal, AnswersOf, AwardsOf, FindQuestion;
      var k := Key(s, q);
      if k !in answers || s !in sessions || sessions[s].exam !in exams { return Some(NotFound); }
      var x, paper := sessions[s], exams[sessions[s].exam].paper;
      var question := FindQuestion(paper, q);
      if question.None? || question.value.kind != Text { return Some(Unprocessable); }
      if marks < 0 || marks > 100 * question.value.marks { return Some(Unprocessable); }
      var marked := answers[k := answers[k].(awarded := Some(marks))];
      var given, available, unmarked := ScorePaper(paper, x.order, x.optionOrder, AnswersOf(marked, s), AwardsOf(marked, s));
      if !Storable(Score(given, available, unmarked)) { return Some(ConstraintViolated); }
      answers := marked;
      results := results[s := Score(given, available, unmarked)];
      return None;
    }

    // ---- the sweep ----

    /** One session of an expired exam: handed in and graded if it is active, terminated if its
        candidate never started. */
    method SweepSession(s: nat, row: Session, paper: seq<Question>, now: int, receipts: nat -> nat)
      returns (x: Session, score: Option<Score>)
      ensures x == Changed(Expire(now, receipts), s, row)
      ensures score == if row.status == Active then Some(Graded(paper, row, answers, s)) else None
    {
      hide PaperTotal, AnswersOf, AwardsOf;
      x, score := row, None;
      if x.status == Active {
        x := x.(status := AutoSubmitted, mode := Some(Auto));
        if x.submittedAt.None? { x := x.(submittedAt := Some(now)); }
        if x.submissionId.None? { x := x.(submissionId := Some(receipts(s))); }
        var given, available, unmarked := ScorePaper(paper, x.order, x.optionOrder, AnswersOf(answers, s), AwardsOf(answers, s));
        score := Some(Score(given, available, unmarked));
      } else if x.status == NotStarted || x.status == Waiting || x.status == CheckedIn {
        x := x.(status := Terminated);
      }
    }

    /** The inner loop: the sessions of one expired exam. It stops at the first result the
        database refuses. */
    method SweepSessions(e: nat, ghost done: set<nat>, now: int, receipts: nat -> nat,
                         sessions0: map<nat, Session>, results0: map<nat, Score>)
      returns (sessions': map<nat, Session>, results': map<nat, Score>, refused: bool)
      requires e in exams && done <= exams.Keys && e !in done
      requires sessions0 == ChangeSessions(sessions, SessionsIn(State(), done), Expire(now, receipts))
      requires results0 == SweptResults(State(), SessionsIn(State(), done))
      requires AllStorable(State(), SessionsIn(State(), done))
      ensures refused <==> !AllStorable(State(), SessionsIn(State(), done + {e}))
      ensures !refused ==> sessions' == ChangeSessions(sessions, SessionsIn(State(), done + {e}), Expire(now, receipts))
      ensures !refused ==> results' == SweptResults(State(), SessionsIn(State(), done + {e}))
    {
      ghost var w, all, before := State(), SessionsOf(State(), e), SessionsIn(State(), done);
      hide SweptTo, Changed, AllStorable, Graded, Grade, SessionsIn, SessionsOf, Storable, ChangeSessions, SweptResults, Stragglers;
      SessionsApart(w, done, e);
      SweptToFrom(w, before, now, receipts, sessions0, results0);
      var rows := SessionsOf(State(), e);
      sessions', results' := sessions0, results0;
      assert before + (all - rows) == before;
      while rows != {}
        invariant rows <= all
        invariant SweptTo(w, before + (all - rows), now, receipts, sessions', results')
      {
        var s :| s in rows;
        ghost var ids := before + (all - rows);
        SweptOneMore(w, ids, s, now, receipts, sessions', results');
        var x, score := SweepSession(s, sessions'[s], exams[e].paper, now, receipts);
        GradeFor(w, s);
        sessions' := sessions'[s := x];
        if score.Some? {
          if !Storable(score.value) {
            NotAllStorable(w, ids + {s}, before + all);
            return sessions', results', true;
          }
          results' := results'[s := score.value];
        }
        assert before + (all - (rows - {s})) == ids + {s};
        rows := rows - {s};
      }
      assert before + (all - {}) == before + all;
      SweptToIs(w, before + all, now, receipts, sessions', results');
      refused := false;
    }

    method SweepOnce(now: int, receipts: nat -> nat) returns (failure: Option<Error>)
      modifies this
      ensures Does(old(State()), Engine.SweepOnce(old(State()), now, receipts), failure, State())
    {
      ghost var w, due := State(), DueExams(State(), now);
      var expired := DueExams(State(), now);
      var exams', sessions', results' := exams, sessions, results;
      SweptNothing(w, now, receipts);
      hide ChangeSessions, SweptWorld, SweptResults, SweptExams;
      assert due - expired == {};
      while expired != {}
        invariant State() == w && expired <= due && due == DueExams(w, now)
        invariant exams' == SweptExams(w, due - expired, now)
        invariant sessions' == ChangeSessions(w.sessions, SessionsIn(w, due - expired), Expire(now, receipts))
        invariant results' == SweptResults(w, SessionsIn(w, due - expired))
        invariant AllStorable(w, SessionsIn(w, due - expired))
      {
        var e :| e in expired;
        ghost var done := due - expired;
        var refused;
        sessions', results', refused := SweepSessions(e, done, now, receipts, sessions', results');
        if refused {
          RefusedSweep(w, SessionsIn(w, done + {e}), now, receipts);
          return Some(ConstraintViolated);
        }
        CloseOneMore(w, done, e, now);
        var x := exams'[e].(status := Ending);
        x := x.(status := Completed);
        if x.endedAt.None? { x := x.(endedAt := Some(now)); }
        x := x.(eventSeq := x.eventSeq + 1);
        exams' := exams'[e := x];
        assert due - (expired - {e}) == done + {e};
        expired := expired - {e};
      }
      assert due - {} == due;
      SweptAll(w, now, receipts);
      exams, sessions, results := exams', sessions', results';
      return None;
    }
  }

  // ---- the sweep, part of the way through ----

  ghost function SweptExams(w: World, done: set<nat>, now: int): map<nat, Exam> {
    map e | e in w.exams :: if e in done then Closed(w.exams[e], now) else w.exams[e]
  }

  ghost function Stragglers(w: World, ids: set<nat>): set<nat> {
    set s | s in ids && s in w.sessions && w.sessions[s].status == Active && w.sessions[s].exam in w.exams
  }

  ghost function SweptResults(w: World, ids: set<nat>): map<nat, Score> {
    GradedResults(w, Stragglers(w, ids))
  }

  ghost function GradedResults(w: World, graded: set<nat>): map<nat, Score>
    requires forall s :: s in graded ==> s in w.sessions && w.sessions[s].exam in w.exams
  {
    map s | s in w.results.Keys + graded :: if s in graded then Grade(w, s) else w.results[s]
  }

  ghost predicate AllStorable(w: World, ids: set<nat>) {
    forall s :: s in Stragglers(w, ids) ==> Storable(Grade(w, s))
  }

  lemma {:induction false} SweptNothing(w: World, now: int, receipts: nat -> nat)
    ensures SweptExams(w, {}, now) == w.exams
    ensures SessionsIn(w, {}) == {}
    ensures ChangeSessions(w.sessions, {}, Expire(now, receipts)) == w.sessions
    ensures SweptResults(w, {}) == w.results && AllStorable(w, {})
  {
    hide Closed, Graded, Changed;
    assert Stragglers(w, {}) == {};
  }

  lemma {:induction false} CloseOneMore(w: World, done: set<nat>, e: nat, now: int)
    requires e in w.exams && e !in done
    ensures SweptExams(w, done, now).Keys == w.exams.Keys && SweptExams(w, done, now)[e] == w.exams[e]
    ensures SweptExams(w, done + {e}, now) == SweptExams(w, done, now)[e := Closed(w.exams[e], now)]
  {
    hide Closed;
  }

  lemma {:induction false} StragglersOneMore(w: World, ids: set<nat>, s: nat)
    requires s in w.sessions && w.sessions[s].exam in w.exams && s !in ids
    ensures s !in Stragglers(w, ids)
    ensures Stragglers(w, ids + {s}) == Stragglers(w, ids) + if w.sessions[s].status == Active then {s} else {}
  {
  }

  lemma {:induction false} OneMoreGraded(w: World, graded: set<nat>, s: nat)
    requires forall t :: t in graded + {s} ==> t in w.sessions && w.sessions[t].exam in w.exams
    ensures GradedResults(w, graded + {s}) == GradedResults(w, graded)[s := Grade(w, s)]
  {
    hide Grade;
  }

  lemma {:induction false} ResultsOneMore(w: World, ids: set<nat>, s: nat)
    requires s in w.sessions && w.sessions[s].exam in w.exams && s !in ids
    ensures SweptResults(w, ids + {s})
         == if w.sessions[s].status == Active then SweptResults(w, ids)[s := Grade(w, s)] else SweptResults(w, ids)
  {
    StragglersOneMore(w, ids, s);
    OneMoreGraded(w, Stragglers(w, ids), s);
    hide Grade, GradedResults;
    assert Stragglers(w, ids) + {} == Stragglers(w, ids);
  }

  lemma {:induction false} StorableOneMore(w: World, ids: set<nat>, s: nat)
    requires s in w.sessions && w.sessions[s].exam in w.exams && s !in ids
    ensures AllStorable(w, ids + {s}) <==> AllStorable(w, ids) && (w.sessions[s].status == Active ==> Storable(Grade(w, s)))
  {
    StragglersOneMore(w, ids, s);
    hide Graded, Storable;
  }

  /** The rows with the sessions `ids` gone through, all their results storable. */
  ghost predicate SweptTo(w: World, ids: set<nat>, now: int, receipts: nat -> nat, sessions: map<nat, Session>, results: map<nat, Score>) {
    && sessions == ChangeSessions(w.sessions, ids, Expire(now, receipts))
    && results == SweptResults(w, ids)
    && AllStorable(w, ids)
  }

  lemma {:induction false} SweptToFrom(w: World, ids: set<nat>, now: int, receipts: nat -> nat, sessions: map<nat, Session>, results: map<nat, Score>)
    requires sessions == ChangeSessions(w.sessions, ids, Expire(now, receipts)) && results == SweptResults(w, ids) && AllStorable(w, ids)
    ensures SweptTo(w, ids, now, receipts, sessions, results)
  {
  }

  /** The sessions of one more exam are none of those gone through. */
  lemma {:induction false} SessionsApart(w: World, done: set<nat>, e: nat)
    requires e !in done
    ensures SessionsIn(w, done) !! SessionsOf(w, e) && SessionsIn(w, done + {e}) == SessionsIn(w, done) + SessionsOf(w, e)
    ensures forall s :: s in SessionsOf(w, e) ==> s in w.sessions && w.sessions[s].exam == e
  {
  }

  lemma {:induction false} GradeFor(w: World, s: nat)
    requires s in w.sessions && w.sessions[s].exam in w.exams
    ensures Grade(w, s) == Graded(w.exams[w.sessions[s].exam].paper, w.sessions[s], w.answers, s)
  {
  }

  lemma {:induction false} SweptToIs(w: World, ids: set<nat>, now: int, receipts: nat -> nat, sessions: map<nat, Session>, results: map<nat, Score>)
    requires SweptTo(w, ids, now, receipts, sessions, results)
    ensures sessions == ChangeSessions(w.sessions, ids, Expire(now, receipts)) && results == SweptResults(w, ids) && AllStorable(w, ids)
  {
  }

  lemma {:induction false} SweptOneMore(w: World, ids: set<nat>, s: nat, now: int, receipts: nat -> nat,
                                        sessions: map<nat, Session>, results: map<nat, Score>)
    requires SweptTo(w, ids, now, receipts, sessions, results)
    requires s in w.sessions && w.sessions[s].exam in w.exams && s !in ids
    ensures s in sessions && sessions[s] == w.sessions[s]
    ensures var active, storable := w.sessions[s].status == Active, Storable(Grade(w, s));
            && (active && !storable ==> !AllStorable(w, ids + {s}))
            && (active && storable ==> SweptTo(w, ids + {s}, now, receipts,
                  sessions[s := Changed(Expire(now, receipts), s, w.sessions[s])], results[s := Grade(w, s)]))
            && (!active ==> SweptTo(w, ids + {s}, now, receipts, sessions[s := Changed(Expire(now, receipts), s, w.sessions[s])], results))
  {
    ChangeOneMore(w.sessions, ids, s, Expire(now, receipts));
    ResultsOneMore(w, ids, s);
    StorableOneMore(w, ids, s);
    hide Changed, Grade, ChangeSessions, SweptResults, AllStorable, Storable;
  }

  lemma {:induction false} NotAllStorable(w: World, ids: set<nat>, more: set<nat>)
    requires !AllStorable(w, ids) && ids <= more
    ensures !AllStorable(w, more)
  {
    hide Graded, Storable;
  }

  lemma {:induction false} StragglersOfDue(w: World, exams: set<nat>)
    requires exams <= w.exams.Keys
    ensures Stragglers(w, SessionsIn(w, exams)) == StragglersIn(w, exams)
  {
  }

  lemma {:induction false} RefusedSweep(w: World, ids: set<nat>, now: int, receipts: nat -> nat)
    requires !AllStorable(w, ids) && ids <= SessionsIn(w, DueExams(w, now))
    ensures Engine.SweepOnce(w, now, receipts) == Err(ConstraintViolated)
  {
    hide Graded, Storable, SweptWorld;
    var s :| s in Stragglers(w, ids) && !Storable(Grade(w, s));
    assert s in StragglersIn(w, DueExams(w, now));
  }

  lemma {:induction false} SweptAll(w: World, now: int, receipts: nat -> nat)
    requires AllStorable(w, SessionsIn(w, DueExams(w, now)))
    ensures var due := DueExams(w, now);
            Engine.SweepOnce(w, now, receipts)
            == Ok(World(SweptExams(w, due, now), ChangeSessions(w.sessions, SessionsIn(w, due), Expire(now, receipts)),
                        w.answers, SweptResults(w, SessionsIn(w, due))))
  {
    var due := DueExams(w, now);
    StragglersOfDue(w, due);
    hide Graded, Storable, Closed, ChangeSessions, Stragglers, StragglersIn;
    assert SweptResults(w, SessionsIn(w, due)) == SweptWorld(w, due, now, receipts).results;
  }
}
