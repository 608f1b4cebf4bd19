/** Adding up one candidate's paper (`score_paper` in backend/app/domain/paper.py). */
module PaperScore {
  import opened Basics
  import opened Paper
  import opened Grading

  /** Marks given and available, in hundredths, and how many answers still wait for marks. */
  datatype Score = Score(given: nat, available: nat, unmarked: nat)

  function Plus(a: Score, b: Score): Score {
    Score(a.given + b.given, a.available + b.available, a.unmarked + b.unmarked)
  }

  const ZERO := Score(0, 0, 0)

  function FindQuestion(paper: seq<Question>, id: nat): (found: Option<Question>)
    ensures found.Some? ==> found.value in paper && found.value.id == id
    ensures found.None? ==> forall q :: q in paper ==> q.id != id
  {
    if paper == [] then None
    else if paper[0].id == id then Some(paper[0])
    else FindQuestion(paper[1..], id)
  }

  /** Written answers wait for a person, programs for the runner. */
  predicate AwaitsMarks(q: Question) {
    q.kind == Text || q.kind == Coding
  }

  /** What one question of the paper adds. Unanswered questions have no entry in `answers`,
      unmarked answers none in `awards`. */
  function Contribution(paper: seq<Question>, id: nat, optionOrder: map<nat, seq<nat>>,
                        answers: map<nat, AnswerValue>, awards: map<nat, nat>): Score
  {
    var found := FindQuestion(paper, id);
    if found.None? then ZERO
    else
      var q := found.value;
      Score(ScoreQuestion(q, if id in optionOrder then optionOrder[id] else [], Get(answers, id), Get(awards, id)),
            100 * q.marks,
            if AwaitsMarks(q) && id in answers && id !in awards then 1 else 0)
  }

  function ScoreIds(paper: seq<Question>, ids: seq<nat>, optionOrder: map<nat, seq<nat>>,
                    answers: map<nat, AnswerValue>, awards: map<nat, nat>): Score
  {
    if ids == [] then ZERO
    else Plus(ScoreIds(paper, ids[..|ids| - 1], optionOrder, answers, awards),
              Contribution(paper, ids[|ids| - 1], optionOrder, answers, awards))
  }

  /** `question_order or list(questions)`. */
  function PaperIds(paper: seq<Question>, order: Option<seq<nat>>): seq<nat> {
    if order.Some? && order.value != [] then order.value else IdsOf(paper)
  }

  function PaperTotal(paper: seq<Question>, order: Option<seq<nat>>, optionOrder: map<nat, seq<nat>>,
                      answers: map<nat, AnswerValue>, awards: map<nat, nat>): Score
  {
    ScoreIds(paper, PaperIds(paper, order), optionOrder, answers, awards)
  }

  lemma {:induction false} ScoreIdsNext(paper: seq<Question>, ids: seq<nat>, i: nat, optionOrder: map<nat, seq<nat>>,
                                        answers: map<nat, AnswerValue>, awards: map<nat, nat>)
    requires i < |ids|
    ensures ScoreIds(paper, ids[..i + 1], optionOrder, answers, awards)
         == Plus(ScoreIds(paper, ids[..i], optionOrder, answers, awards),
                 Contribution(paper, ids[i], optionOrder, answers, awards))
  {
    hide Contribution;
    assert ids[..i + 1][..i] == ids[..i];
  }

  lemma {:induction false} ScoreNothing(paper: seq<Question>, ids: seq<nat>, optionOrder: map<nat, seq<nat>>,
                                        answers: map<nat, AnswerValue>, awards: map<nat, nat>)
    ensures ScoreIds(paper, ids[..0], optionOrder, answers, awards) == ZERO
  {
  }

  method ScorePaper(paper: seq<Question>, order: Option<seq<nat>>, optionOrder: map<nat, seq<nat>>,
                    answers: map<nat, AnswerValue>, awards: map<nat, nat>)
    returns (given: nat, available: nat, unmarked: nat)
    ensures Score(given, available, unmarked) == PaperTotal(paper, order, optionOrder, answers, awards)
  {
    hide ScoreQuestion, ScoreIds, PaperIds;
    var ids := PaperIds(paper, order);
    ScoreNothing(paper, ids, optionOrder, answers, awards);
    given, available, unmarked := 0, 0, 0;
    for i := 0 to |ids|
      invariant Score(given, available, unmarked) == ScoreIds(paper, ids[..i], optionOrder, answers, awards)
    {
      ScoreIdsNext(paper, ids, i, optionOrder, answers, awards);
      var id := ids[i];
      var found := FindQuestion(paper, id);
      if found.Some? {
        var question := found.value;
        available := available + 100 * question.marks;
        if AwaitsMarks(question) && id in answers && id !in awards {
          unmarked := unmarked + 1;
        }
        given := given + ScoreQuestion(question, if id in optionOrder then optionOrder[id] else [], Get(answers, id), Get(awards, id));
      }
    }
    assert ids[..|ids|] == ids;
  }

  // ---- accounting ----

  /** No award exceeds what its question is worth. */
  ghost predicate AwardsBounded(paper: seq<Question>, awards: map<nat, nat>) {
    forall q :: q in paper && q.id in awards ==> awards[q.id] <= 100 * q.marks
  }

  lemma {:induction false} ContributionWithin(paper: seq<Question>, id: nat, optionOrder: map<nat, seq<nat>>,
                                              answers: map<nat, AnswerValue>, awards: map<nat, nat>)
    requires AwardsBounded(paper, awards)
    ensures Contribution(paper, id, optionOrder, answers, awards).given
         <= Contribution(paper, id, optionOrder, answers, awards).available
  {
    hide ToAuthored, CorrectPositions;
  }

  lemma {:induction false} GivenWithinAvailable(paper: seq<Question>, ids: seq<nat>, optionOrder: map<nat, seq<nat>>,
                                                answers: map<nat, AnswerValue>, awards: map<nat, nat>)
    requires AwardsBounded(paper, awards)
    ensures ScoreIds(paper, ids, optionOrder, answers, awards).given
         <= ScoreIds(paper, ids, optionOrder, answers, awards).available
  {
    hide Contribution;
    if ids != [] {
      GivenWithinAvailable(paper, ids[..|ids| - 1], optionOrder, answers, awards);
      ContributionWithin(paper, ids[|ids| - 1], optionOrder, answers, awards);
    }
  }

  /** The marks of the questions named by `ids`. */
  function MarksOf(paper: seq<Question>, ids: seq<nat>): nat {
    if ids == [] then 0
    else
      var found := FindQuestion(paper, ids[|ids| - 1]);
      MarksOf(paper, ids[..|ids| - 1]) + if found.Some? then found.value.marks else 0
  }

  /** The maximum is the sum of the marks on this candidate's paper, whatever was answered. */
  lemma {:induction false} AvailableIsPaperMarks(paper: seq<Question>, ids: seq<nat>, optionOrder: map<nat, seq<nat>>,
                                                 answers: map<nat, AnswerValue>, awards: map<nat, nat>)
    ensures ScoreIds(paper, ids, optionOrder, answers, awards).available == 100 * MarksOf(paper, ids)
  {
    hide ScoreQuestion;
    if ids != [] { AvailableIsPaperMarks(paper, ids[..|ids| - 1], optionOrder, answers, awards); }
  }

  lemma {:induction false} MarksOfPositive(paper: seq<Question>, ids: seq<nat>)
    requires forall q :: q in paper ==> q.marks > 0
    requires ids != [] && forall id :: id in ids ==> id in IdsOf(paper)
    ensures MarksOf(paper, ids) > 0
  {
    var id := ids[|ids| - 1];
    assert id in ids;
    var i :| 0 <= i < |paper| && IdsOf(paper)[i] == id;
    assert paper[i] in paper && paper[i].id == id;
  }

  // ---- answers and awards that do not matter, and those that do ----

  lemma {:induction false} ScoreDependsOnlyOn(paper: seq<Question>, ids: seq<nat>, optionOrder: map<nat, seq<nat>>,
      answers: map<nat, AnswerValue>, awards: map<nat, nat>, answers': map<nat, AnswerValue>, awards': map<nat, nat>)
    requires forall id :: id in ids ==> Get(answers, id) == Get(answers', id) && Get(awards, id) == Get(awards', id)
    ensures ScoreIds(paper, ids, optionOrder, answers, awards) == ScoreIds(paper, ids, optionOrder, answers', awards')
  {
    if ids != [] {
      assert ids[|ids| - 1] in ids;
      ContributionDependsOnlyOn(paper, ids[|ids| - 1], optionOrder, answers, awards, answers', awards');
      hide Contribution;
      ScoreDependsOnlyOn(paper, ids[..|ids| - 1], optionOrder, answers, awards, answers', awards');
    }
  }

  lemma {:induction false} ContributionDependsOnlyOn(paper: seq<Question>, id: nat, optionOrder: map<nat, seq<nat>>,
      answers: map<nat, AnswerValue>, awards: map<nat, nat>, answers': map<nat, AnswerValue>, awards': map<nat, nat>)
    requires Get(answers, id) == Get(answers', id) && Get(awards, id) == Get(awards', id)
    ensures Contribution(paper, id, optionOrder, answers, awards) == Contribution(paper, id, optionOrder, answers', awards')
  {
    hide ScoreQuestion;
    assert id in answers <==> Get(answers, id).Some?;
    assert id in answers' <==> Get(answers', id).Some?;
    assert id in awards <==> Get(awards, id).Some?;
    assert id in awards' <==> Get(awards', id).Some?;
  }

  /** Answers to questions that are not on this paper never matter. */
  lemma {:induction false} OffPaperIrrelevant(paper: seq<Question>, order: Option<seq<nat>>, optionOrder: map<nat, seq<nat>>,
      answers: map<nat, AnswerValue>, awards: map<nat, nat>, other: nat, value: AnswerValue, award: nat)
    requires other !in PaperIds(paper, order)
    ensures PaperTotal(paper, order, optionOrder, answers[other := value], awards[other := award])
         == PaperTotal(paper, order, optionOrder, answers, awards)
  {
    ScoreDependsOnlyOn(paper, PaperIds(paper, order), optionOrder, answers[other := value], awards[other := award], answers, awards);
  }

  /** The value an award takes effect through: a written answer or a program. */
  predicate Awardable(value: AnswerValue) {
    value.TextAnswer? || value.CodeAnswer?
  }

  lemma {:induction false} AwardContribution(paper: seq<Question>, id: nat, optionOrder: map<nat, seq<nat>>,
                                             answers: map<nat, AnswerValue>, awards: map<nat, nat>, award: nat)
    requires FindQuestion(paper, id).Some? && AwaitsMarks(FindQuestion(paper, id).value)
    requires id in answers && Awardable(answers[id]) && id !in awards
    ensures var before := Contribution(paper, id, optionOrder, answers, awards);
            && before.given == 0 && before.unmarked == 1
            && Contribution(paper, id, optionOrder, answers, awards[id := award]) == Score(award, before.available, 0)
  {
    hide ToAuthored, CorrectPositions;
  }

  /** Awarding one waiting answer on the paper raises what is given by exactly the award and
      lowers the number waiting by exactly one; the maximum stays. */
  lemma {:induction false} AwardEffect(paper: seq<Question>, ids: seq<nat>, optionOrder: map<nat, seq<nat>>,
                                       answers: map<nat, AnswerValue>, awards: map<nat, nat>, id: nat, award: nat)
    requires Distinct(ids) && id in ids
    requires FindQuestion(paper, id).Some? && AwaitsMarks(FindQuestion(paper, id).value)
    requires id in answers && Awardable(answers[id]) && id !in awards
    ensures ScoreIds(paper, ids, optionOrder, answers, awards).unmarked >= 1
    ensures var before := ScoreIds(paper, ids, optionOrder, answers, awards);
            ScoreIds(paper, ids, optionOrder, answers, awards[id := award])
            == Score(before.given + award, before.available, before.unmarked - 1)
  {
    hide Contribution;
    var last, init := ids[|ids| - 1], ids[..|ids| - 1];
    AwardContribution(paper, id, optionOrder, answers, awards, award);
    if last == id {
      forall i | 0 <= i < |init| ensures init[i] != id { }
      ScoreDependsOnlyOn(paper, init, optionOrder, answers, awards, answers, awards[id := award]);
    } else {
      AwardEffect(paper, init, optionOrder, answers, awards, id, award);
      ContributionDependsOnlyOn(paper, last, optionOrder, answers, awards, answers, awards[id := award]);
    }
  }

  // ---- the order of the questions cannot be seen either ----

  lemma {:induction false} ScoreMore(paper: seq<Question>, init: seq<nat>, last: nat,
      optionOrder: map<nat, seq<nat>>, answers: map<nat, AnswerValue>, awards: map<nat, nat>)
    ensures ScoreIds(paper, init + [last], optionOrder, answers, awards)
         == Plus(ScoreIds(paper, init, optionOrder, answers, awards), Contribution(paper, last, optionOrder, answers, awards))
  {
    hide Contribution;
    assert (init + [last])[..|init|] == init;
  }

  lemma {:induction false} PlusSwaps(a: Score, b: Score, c: Score)
    ensures Plus(Plus(a, b), c) == Plus(Plus(a, c), b)
  {
  }

  lemma {:induction false} ScoreIdsSplit(paper: seq<Question>, front: seq<nat>, id: nat, back: seq<nat>,
      optionOrder: map<nat, seq<nat>>, answers: map<nat, AnswerValue>, awards: map<nat, nat>)
    ensures ScoreIds(paper, front + [id] + back, optionOrder, answers, awards)
         == Plus(ScoreIds(paper, front + back, optionOrder, answers, awards),
                 Contribution(paper, id, optionOrder, answers, awards))
    decreases |back|
  {
    hide *;
    if back == [] {
      assert front + [id] + back == front + [id] && front + back == front;
      ScoreMore(paper, front, id, optionOrder, answers, awards);
    } else {
      FrontAndLast(back);
      var init, last := back[..|back| - 1], back[|back| - 1];
      Associate(front + [id], init, [last]);
      Associate(front, init, [last]);
      ScoreIdsSplit(paper, front, id, init, optionOrder, answers, awards);
      ScoreMore(paper, front + [id] + init, last, optionOrder, answers, awards);
      ScoreMore(paper, front + init, last, optionOrder, answers, awards);
      PlusSwaps(ScoreIds(paper, front + init, optionOrder, answers, awards), Contribution(paper, id, optionOrder, answers, awards),
                Contribution(paper, last, optionOrder, answers, awards));
    }
  }

  /** The last value of one sequence, taken out of a rearrangement of it. */
  lemma {:induction false} TakeOut(xs: seq<nat>, ys: seq<nat>) returns (front: seq<nat>, back: seq<nat>)
    requires Permutation(xs, ys) && xs != []
    ensures ys == front + [xs[|xs| - 1]] + back
    ensures Permutation(xs[..|xs| - 1], front + back)
  {
    var last, init := xs[|xs| - 1], xs[..|xs| - 1];
    assert last in multiset(xs);
    assert last in multiset(ys);
    var k :| 0 <= k < |ys| && ys[k] == last;
    front, back := ys[..k], ys[k + 1..];
    assert ys == front + [last] + back;
    assert xs == init + [last];
    assert multiset(ys) == multiset(front) + multiset{last} + multiset(back);
    assert multiset(front + back) == multiset(ys) - multiset{last};
    assert multiset(init) == multiset(xs) - multiset{last};
  }

  /** A paper's score does not depend on the order of its questions. */
  lemma {:induction false} QuestionOrderInvisible(paper: seq<Question>, ids: seq<nat>, ids': seq<nat>,
      optionOrder: map<nat, seq<nat>>, answers: map<nat, AnswerValue>, awards: map<nat, nat>)
    requires Permutation(ids, ids')
    ensures ScoreIds(paper, ids, optionOrder, answers, awards) == ScoreIds(paper, ids', optionOrder, answers, awards)
  {
    hide Contribution;
    if ids == [] {
      assert |multiset(ids')| == 0;
    } else {
      var last, init := ids[|ids| - 1], ids[..|ids| - 1];
      var front, back := TakeOut(ids, ids');
      QuestionOrderInvisible(paper, init, front + back, optionOrder, answers, awards);
      ScoreIdsSplit(paper, front, last, back, optionOrder, answers, awards);
    }
  }

  // ---- the whole claim ----

  /** Under two drawn papers with the same questions, every answer shows the same options. */
  ghost predicate SamePicks(paper: seq<Question>, drawn: Drawn, drawn': Drawn,
                            answers: map<nat, AnswerValue>, answers': map<nat, AnswerValue>)
  {
    forall q :: q in paper && q.id in drawn.order ==>
      && q.id in drawn.optionOrder && q.id in drawn'.optionOrder
      && (q.id in answers <==> q.id in answers')
      && (q.id in answers ==>
            var a, a' := answers[q.id], answers'[q.id];
            && SameKind(a, a') && InRange(q, Picked(a)) && InRange(q, Picked(a'))
            && Displayed(q, drawn.optionOrder[q.id], Picked(a)) == Displayed(q, drawn'.optionOrder[q.id], Picked(a')))
  }

  lemma {:induction false} UnansweredScoresNothing(q: Question, order: seq<nat>, awarded: Option<nat>)
    ensures ScoreQuestion(q, order, None, awarded) == 0
  {
  }

  lemma {:induction false} SamePicksSameContribution(paper: seq<Question>, cfg: DrawConfig, drawn: Drawn, drawn': Drawn,
      answers: map<nat, AnswerValue>, answers': map<nat, AnswerValue>, awards: map<nat, nat>, id: nat)
    requires WellFormedPaper(paper) && ValidDraw(paper, cfg, drawn) && ValidDraw(paper, cfg, drawn')
    requires SamePicks(paper, drawn, drawn', answers, answers') && id in drawn.order
    ensures Contribution(paper, id, drawn.optionOrder, answers, awards)
         == Contribution(paper, id, drawn'.optionOrder, answers', awards)
  {
    hide ScoreQuestion;
    var found := FindQuestion(paper, id);
    if found.Some? && id !in answers {
      UnansweredScoresNothing(found.value, drawn.optionOrder[id], Get(awards, id));
      UnansweredScoresNothing(found.value, drawn'.optionOrder[id], Get(awards, id));
    } else if found.Some? {
      var q := found.value;
      assert WellFormed(paper[IndexIn(paper, q)]);
      hide WellFormed, Displayed, ValidDraw;
      OrdersAreValid(paper, cfg, drawn, q);
      OrdersAreValid(paper, cfg, drawn', q);
      ShuffleInvisible(q, drawn.optionOrder[id], drawn'.optionOrder[id], answers[id], answers'[id], Get(awards, id));
    }
  }

  lemma {:induction false} OrdersAreValid(paper: seq<Question>, cfg: DrawConfig, drawn: Drawn, q: Question)
    requires ValidDraw(paper, cfg, drawn) && q in paper && q.id in drawn.optionOrder
    ensures ValidOrder(q, drawn.optionOrder[q.id])
  {
  }

  lemma {:induction false} SamePicksSameScore(paper: seq<Question>, cfg: DrawConfig, drawn: Drawn, drawn': Drawn,
      answers: map<nat, AnswerValue>, answers': map<nat, AnswerValue>, awards: map<nat, nat>, ids: seq<nat>)
    requires WellFormedPaper(paper) && ValidDraw(paper, cfg, drawn) && ValidDraw(paper, cfg, drawn')
    requires SamePicks(paper, drawn, drawn', answers, answers') && forall id :: id in ids ==> id in drawn.order
    ensures ScoreIds(paper, ids, drawn.optionOrder, answers, awards)
         == ScoreIds(paper, ids, drawn'.optionOrder, answers', awards)
  {
    hide SamePicks, ValidDraw, WellFormedPaper, Contribution;
    if ids != [] {
      assert ids[|ids| - 1] in ids;
      SamePicksSameContribution(paper, cfg, drawn, drawn', answers, answers', awards, ids[|ids| - 1]);
      SamePicksSameScore(paper, cfg, drawn, drawn', answers, answers', awards, ids[..|ids| - 1]);
    }
  }

  /** Grading cannot tell that a shuffle happened: two candidates who drew the same questions,
      in any order and with their options in any order, and picked the same options on their
      own screens, get the same marks, the same maximum and the same number waiting. */
  lemma {:induction false} GradingCannotSeeShuffle(paper: seq<Question>, cfg: DrawConfig, drawn: Drawn, drawn': Drawn,
      answers: map<nat, AnswerValue>, answers': map<nat, AnswerValue>, awards: map<nat, nat>)
    requires WellFormedPaper(paper) && ValidDraw(paper, cfg, drawn) && ValidDraw(paper, cfg, drawn')
    requires Permutation(drawn.order, drawn'.order)
    requires SamePicks(paper, drawn, drawn', answers, answers')
    ensures PaperTotal(paper, Some(drawn.order), drawn.optionOrder, answers, awards)
         == PaperTotal(paper, Some(drawn'.order), drawn'.optionOrder, answers', awards)
  {
    assert |multiset(drawn.order)| == |drawn.order| && |multiset(drawn'.order)| == |drawn'.order|;
    if drawn.order == [] {
      EmptyPaperDrawsNothing(paper, cfg, drawn);
    } else {
      SamePicksSameScore(paper, cfg, drawn, drawn', answers, answers', awards, drawn.order);
      QuestionOrderInvisible(paper, drawn.order, drawn'.order, drawn'.optionOrder, answers', awards);
    }
  }

  lemma {:induction false} EmptyPaperDrawsNothing(paper: seq<Question>, cfg: DrawConfig, drawn: Drawn)
    requires ValidDraw(paper, cfg, drawn) && drawn.order == []
    ensures paper == []
  {
  }
}
