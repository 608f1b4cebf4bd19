/** Does the stored result of a submitted paper agree with grading it again? */
module EngineResults {
  import opened Basics
  import opened Transitions
  import opened Paper
  import opened Grading
  import opened PaperScore
  import opened AnswerRows
  import opened Engine
  import opened EngineInvariant
  import opened EngineSweep

  /** There is a result, and it is what grading the paper now would store. */
  ghost predicate Fresh(w: World, s: nat) {
    && s in w.sessions && w.sessions[s].exam in w.exams
    && s in w.results && w.results[s] == Grade(w, s)
  }

  ghost predicate AllFresh(w: World) {
    forall s :: s in w.sessions && HandedIn(w.sessions[s].status) ==> Fresh(w, s)
  }

  // ---- what grading looks at ----

  function AwardAt(answers: map<Key, AnswerRow>, s: nat, q: nat): Option<nat> {
    if Key(s, q) in answers then answers[Key(s, q)].awarded else None
  }

  function ValueAt(answers: map<Key, AnswerRow>, s: nat, q: nat): Option<AnswerValue> {
    if Key(s, q) in answers then answers[Key(s, q)].value else None
  }

  lemma {:induction false} GetAward(answers: map<Key, AnswerRow>, s: nat, q: nat)
    ensures Get(AwardsOf(answers, s), q) == AwardAt(answers, s, q)
  {
    AwardStored(answers, s, q);
    hide AwardsOf;
  }

  lemma {:induction false} GetAnswer(answers: map<Key, AnswerRow>, s: nat, q: nat)
    ensures Get(AnswersOf(answers, s), q) == ValueAt(answers, s, q)
  {
    if q in AnswersOf(answers, s) {
      var k :| k in answers && k.session == s && answers[k].value.Some? && k.question == q;
      assert k == Key(s, q);
    }
    if Key(s, q) in answers && answers[Key(s, q)].value.Some? { assert Key(s, q).question == q; }
  }

  lemma {:induction false} SameRowsSameScore(paper: seq<Question>, x: Session, a: map<Key, AnswerRow>, b: map<Key, AnswerRow>, s: nat)
    requires forall k: Key :: k.session == s && k.question in PaperIds(paper, x.order) ==> Get(a, k) == Get(b, k)
    ensures Graded(paper, x, a, s) == Graded(paper, x, b, s)
  {
    var ids := PaperIds(paper, x.order);
    forall q | q in ids
      ensures Get(AnswersOf(a, s), q) == Get(AnswersOf(b, s), q) && Get(AwardsOf(a, s), q) == Get(AwardsOf(b, s), q)
    {
      GetAward(a, s, q);
      GetAward(b, s, q);
      GetAnswer(a, s, q);
      GetAnswer(b, s, q);
      assert Get(a, Key(s, q)) == Get(b, Key(s, q));
      hide AnswersOf, AwardsOf, PaperIds;
    }
    hide AnswersOf, AwardsOf, PaperIds, ScoreIds;
    ScoreDependsOnlyOn(paper, ids, x.optionOrder, AnswersOf(a, s), AwardsOf(a, s), AnswersOf(b, s), AwardsOf(b, s));
  }

  // ---- when a changed award can be seen in the score ----

  /** The answer is on the candidate's paper, and the award is read, or at least counted. */
  predicate Shows(paper: seq<Question>, x: Session, row: AnswerRow, q: nat, award: Option<nat>) {
    && q in PaperIds(paper, x.order) && row.value.Some?
    && if Awardable(row.value.value) then row.awarded != award else row.awarded.Some? != award.Some?
  }

  lemma {:induction false} SplitAround(ids: seq<nat>, q: nat) returns (front: seq<nat>, back: seq<nat>)
    requires Distinct(ids) && q in ids
    ensures ids == front + [q] + back && q !in front + back
  {
    var i :| 0 <= i < |ids| && ids[i] == q;
    front, back := ids[..i], ids[i + 1..];
    forall j | 0 <= j < |front + back| ensures (front + back)[j] != q {
      assert (front + back)[j] == if j < i then ids[j] else ids[j + 1];
    }
  }

  lemma {:induction false} AwardInContribution(paper: seq<Question>, q: nat, optionOrder: map<nat, seq<nat>>,
      answers: map<nat, AnswerValue>, awards: map<nat, nat>, awards': map<nat, nat>)
    requires FindQuestion(paper, q).Some? && AwaitsMarks(FindQuestion(paper, q).value)
    ensures Contribution(paper, q, optionOrder, answers, awards) != Contribution(paper, q, optionOrder, answers, awards')
       <==> q in answers && if Awardable(answers[q]) then Get(awards, q) != Get(awards', q)
                            else Get(awards, q).Some? != Get(awards', q).Some?
  {
    hide ToAuthored, CorrectPositions, FindQuestion;
  }

  lemma {:induction false} OneAwardChanged(paper: seq<Question>, ids: seq<nat>, q: nat, optionOrder: map<nat, seq<nat>>,
      answers: map<nat, AnswerValue>, awards: map<nat, nat>, answers': map<nat, AnswerValue>, awards': map<nat, nat>)
    requires Distinct(ids) && q in ids
    requires FindQuestion(paper, q).Some? && AwaitsMarks(FindQuestion(paper, q).value)
    requires forall id :: Get(answers, id) == Get(answers', id) && (id != q ==> Get(awards, id) == Get(awards', id))
    ensures ScoreIds(paper, ids, optionOrder, answers, awards) != ScoreIds(paper, ids, optionOrder, answers', awards')
       <==> Contribution(paper, q, optionOrder, answers, awards) != Contribution(paper, q, optionOrder, answers, awards')
  {
    hide ScoreIds, Contribution;
    var front, back := SplitAround(ids, q);
    ScoreDependsOnlyOn(paper, front + back, optionOrder, answers, awards, answers', awards');
    ScoreIdsSplit(paper, front, q, back, optionOrder, answers, awards);
    ScoreIdsSplit(paper, front, q, back, optionOrder, answers', awards');
    ContributionDependsOnlyOn(paper, q, optionOrder, answers', awards', answers, awards');
  }

  lemma {:induction false} AwardVisible(paper: seq<Question>, x: Session, answers: map<Key, AnswerRow>, s: nat, q: nat, award: Option<nat>)
    requires Distinct(PaperIds(paper, x.order)) && Key(s, q) in answers
    requires FindQuestion(paper, q).Some? && AwaitsMarks(FindQuestion(paper, q).value)
    ensures Graded(paper, x, answers[Key(s, q) := answers[Key(s, q)].(awarded := award)], s) != Graded(paper, x, answers, s)
       <==> Shows(paper, x, answers[Key(s, q)], q, award)
  {
    var ids, k := PaperIds(paper, x.order), Key(s, q);
    var answers' := answers[k := answers[k].(awarded := award)];
    if q in ids {
      forall id
        ensures Get(AnswersOf(answers, s), id) == Get(AnswersOf(answers', s), id)
        ensures id != q ==> Get(AwardsOf(answers, s), id) == Get(AwardsOf(answers', s), id)
      {
        GetAward(answers, s, id);
        GetAward(answers', s, id);
        GetAnswer(answers, s, id);
        GetAnswer(answers', s, id);
        hide AnswersOf, AwardsOf;
      }
      GetAward(answers, s, q);
      GetAward(answers', s, q);
      GetAnswer(answers, s, q);
      hide AnswersOf, AwardsOf, PaperIds, ScoreIds, Contribution, FindQuestion;
      OneAwardChanged(paper, ids, q, x.optionOrder, AnswersOf(answers, s), AwardsOf(answers, s), AnswersOf(answers', s), AwardsOf(answers', s));
      AwardInContribution(paper, q, x.optionOrder, AnswersOf(answers, s), AwardsOf(answers, s), AwardsOf(answers', s));
    } else {
      hide AnswersOf, AwardsOf, PaperIds, ScoreIds, FindQuestion;
      SameRowsSameScore(paper, x, answers, answers', s);
    }
  }

  lemma {:induction false} PaperIdsDistinct(x: Session, exam: Exam)
    requires SessionOk(x, exam) && WellFormedPaper(exam.paper)
    ensures Distinct(PaperIds(exam.paper, x.order))
  {
    hide WellFormed;
  }
}
