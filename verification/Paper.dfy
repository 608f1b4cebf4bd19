/** Drawing one candidate's paper (backend/app/domain/paper.py). */
module Paper {
  import opened Basics
  import opened Shuffle

  datatype QuestionType = Mcq | Multiple | Text | Coding

  datatype AuthoredOption = AuthoredOption(id: nat, position: nat, body: string, isCorrect: bool)

  /** A question as authored; `marks` in whole marks. */
  datatype Question = Question(id: nat, kind: QuestionType, marks: nat, options: seq<AuthoredOption>)

  /** Options are written with their index as position, and every question is worth something. */
  predicate WellFormed(q: Question) {
    q.marks > 0 && forall i :: 0 <= i < |q.options| ==> q.options[i].position == i
  }

  /** The authored questions of one exam: distinct ids, each question well formed. */
  predicate WellFormedPaper(paper: seq<Question>) {
    && (forall i :: 0 <= i < |paper| ==> WellFormed(paper[i]))
    && Distinct(IdsOf(paper))
  }

  function IdsOf(paper: seq<Question>): (ids: seq<nat>)
    ensures |ids| == |paper|
    ensures forall i :: 0 <= i < |paper| ==> ids[i] == paper[i].id
  {
    seq(|paper|, i requires 0 <= i < |paper| => paper[i].id)
  }

  function Positions(q: Question): (positions: seq<nat>)
    ensures |positions| == |q.options|
    ensures forall i :: 0 <= i < |positions| ==> positions[i] == q.options[i].position
  {
    seq(|q.options|, i requires 0 <= i < |q.options| => q.options[i].position)
  }

  datatype DrawConfig = DrawConfig(randomizeQuestions: bool, randomizeOptions: bool, questionsPerStudent: nat)

  /** A drawn paper: question ids in order, and for each the authored option positions in
      the order this candidate sees them. */
  datatype Drawn = Drawn(order: seq<nat>, optionOrder: map<nat, seq<nat>>)

  // ---- the draw as a function of the generator's choices ----

  function Cut(ordered: seq<Question>, cfg: DrawConfig): seq<Question> {
    if 0 < cfg.questionsPerStudent < |ordered| then ordered[..cfg.questionsPerStudent] else ordered
  }

  function Selected(questions: seq<Question>, cfg: DrawConfig, choices: Choices): seq<Question> {
    Cut(if cfg.randomizeQuestions then Shuffled(questions, choices, 0) else questions, cfg)
  }

  /** The first choice not used for ordering the questions. */
  function AfterQuestions(questions: seq<Question>, cfg: DrawConfig): nat {
    if cfg.randomizeQuestions then Consumed(|questions|) else 0
  }

  /** The first choice not used once the options of `selected` are ordered. */
  function AfterOptions(selected: seq<Question>, randomize: bool, k: nat): nat {
    if selected == [] then k
    else
      var last := |selected| - 1;
      AfterOptions(selected[..last], randomize, k) + if randomize then Consumed(|selected[last].options|) else 0
  }

  function OrderOf(q: Question, randomize: bool, choices: Choices, k: nat): seq<nat> {
    if randomize then Shuffled(Positions(q), choices, k) else Positions(q)
  }

  function OptionOrders(selected: seq<Question>, randomize: bool, choices: Choices, k: nat): map<nat, seq<nat>> {
    if selected == [] then map[]
    else
      var last := |selected| - 1;
      OptionOrders(selected[..last], randomize, choices, k)
        [selected[last].id := OrderOf(selected[last], randomize, choices, AfterOptions(selected[..last], randomize, k))]
  }

  function Draw(questions: seq<Question>, cfg: DrawConfig, choices: Choices): Drawn {
    var selected := Selected(questions, cfg, choices);
    Drawn(IdsOf(selected), OptionOrders(selected, cfg.randomizeOptions, choices, AfterQuestions(questions, cfg)))
  }

  /** One question's positions, shuffled in place when asked and when it has any. */
  method OrderPositions(question: Question, randomize: bool, choices: Choices, k: nat) returns (order: seq<nat>, next: nat)
    ensures order == OrderOf(question, randomize, choices, k)
    ensures next == k + if randomize then Consumed(|question.options|) else 0
  {
    var positions := new nat[|question.options|](j requires 0 <= j < |question.options| => question.options[j].position);
    assert positions[..] == Positions(question);
    next := k;
    if randomize && question.options != [] {
      next := ShuffleInPlace(positions, choices, k);
    }
    order := positions[..];
  }

  method DrawOptions(selected: seq<Question>, randomize: bool, choices: Choices, k: nat)
    returns (optionOrder: map<nat, seq<nat>>)
    ensures optionOrder == OptionOrders(selected, randomize, choices, k)
  {
    optionOrder := map[];
    var next := k;
    for i := 0 to |selected|
      invariant next == AfterOptions(selected[..i], randomize, k)
      invariant optionOrder == OptionOrders(selected[..i], randomize, choices, k)
    {
      assert selected[..i + 1][..i] == selected[..i];
      var positions;
      positions, next := OrderPositions(selected[i], randomize, choices, next);
      optionOrder := optionOrder[selected[i].id := positions];
    }
    assert selected[..|selected|] == selected;
  }

  /** `draw_paper`: shuffle the questions in place, keep the first few, then shuffle each
      one's option positions in place. */
  method DrawPaper(questions: seq<Question>, cfg: DrawConfig, choices: Choices) returns (drawn: Drawn)
    ensures drawn == Draw(questions, cfg, choices)
  {
    var ordered := new Question[|questions|](i requires 0 <= i < |questions| => questions[i]);
    assert ordered[..] == questions;
    var next := 0;
    if cfg.randomizeQuestions {
      next := ShuffleInPlace(ordered, choices, next);
    }
    var selected := ordered[..];
    if 0 < cfg.questionsPerStudent < |selected| {
      selected := selected[..cfg.questionsPerStudent];
    }
    var optionOrder := DrawOptions(selected, cfg.randomizeOptions, choices, next);
    drawn := Drawn(IdsOf(selected), optionOrder);
  }
  // ---- what a drawn paper is, said without a generator ----

  /** How many questions a candidate gets. */
  function PaperLength(total: nat, cfg: DrawConfig): nat {
    if 0 < cfg.questionsPerStudent < total then cfg.questionsPerStudent else total
  }

  /** Distinct questions of the exam, as many as the configuration asks for, and for exactly
      those an ordering of all their option positions. */
  ghost predicate ValidDraw(questions: seq<Question>, cfg: DrawConfig, drawn: Drawn) {
    && Distinct(drawn.order)
    && |drawn.order| == PaperLength(|questions|, cfg)
    && (forall id :: id in drawn.order ==> id in IdsOf(questions))
    && (forall id :: id in drawn.optionOrder <==> id in drawn.order)
    && (forall q :: q in questions && q.id in drawn.optionOrder ==>
          Permutation(Positions(q), drawn.optionOrder[q.id]))
  }

  lemma {:induction false} OrderKeys(selected: seq<Question>, randomize: bool, choices: Choices, k: nat)
    ensures forall id :: id in OptionOrders(selected, randomize, choices, k) <==> id in IdsOf(selected)
  {
    hide OrderOf;
    if selected != [] {
      var last := |selected| - 1;
      OrderKeys(selected[..last], randomize, choices, k);
      assert IdsOf(selected) == IdsOf(selected[..last]) + [selected[last].id];
    }
  }

  /** Each question's ordering is the one drawn for it; later questions do not disturb it. */
  lemma {:induction false} OrderAt(selected: seq<Question>, randomize: bool, choices: Choices, k: nat, i: nat)
    requires Distinct(IdsOf(selected)) && i < |selected|
    ensures var orders := OptionOrders(selected, randomize, choices, k);
            && selected[i].id in orders
            && orders[selected[i].id] == OrderOf(selected[i], randomize, choices, AfterOptions(selected[..i], randomize, k))
  {
    hide OrderOf, AfterOptions;
    var last := |selected| - 1;
    if i < last {
      var before := selected[..last];
      assert IdsOf(before) == IdsOf(selected)[..last];
      OrderAt(before, randomize, choices, k, i);
      assert before[..i] == selected[..i];
      assert IdsOf(selected)[i] != IdsOf(selected)[last];
    }
  }

  lemma {:induction false} OrderOfPermutes(q: Question, randomize: bool, choices: Choices, k: nat)
    ensures Permutation(Positions(q), OrderOf(q, randomize, choices, k))
  {
    ShuffledPermutes(Positions(q), choices, k);
  }

  /** A question is known by its id. */
  lemma {:induction false} SameQuestion(paper: seq<Question>, a: Question, b: Question)
    requires Distinct(IdsOf(paper)) && a in paper && b in paper && a.id == b.id
    ensures a == b
  {
    var m, n := IndexIn(paper, a), IndexIn(paper, b);
    assert IdsOf(paper)[m] == IdsOf(paper)[n];
  }

  /** The selected question behind an id. */
  lemma {:induction false} SelectedById(paper: seq<Question>, selected: seq<Question>, q: Question) returns (i: nat)
    requires Distinct(IdsOf(paper)) && q in paper && q.id in IdsOf(selected)
    requires forall s :: s in selected ==> s in paper
    ensures i < |selected| && selected[i] == q
  {
    i :| 0 <= i < |selected| && IdsOf(selected)[i] == q.id;
    assert selected[i] in selected;
    SameQuestion(paper, q, selected[i]);
  }

  lemma {:induction false} IdsOfPermutation(a: seq<Question>, b: seq<Question>)
    requires Permutation(a, b) && Distinct(IdsOf(a))
    ensures Distinct(IdsOf(b)) && |b| == |a|
    ensures forall q :: q in b <==> q in a
    ensures forall id :: id in IdsOf(b) <==> id in IdsOf(a)
  {
    assert Distinct(a) by {
      forall i, j | 0 <= i < j < |a| ensures a[i] != a[j] { assert IdsOf(a)[i] != IdsOf(a)[j]; }
    }
    PermutationKeepsDistinct(a, b);
    forall i, j | 0 <= i < j < |b| ensures IdsOf(b)[i] != IdsOf(b)[j] {
      var m, n := IndexIn(a, b[i]), IndexIn(a, b[j]);
      assert b[i] != b[j];
      assert IdsOf(a)[m] != IdsOf(a)[n];
    }
    SameIds(a, b);
    SameIds(b, a);
  }

  ghost function IndexIn(xs: seq<Question>, q: Question): (i: nat)
    requires q in xs
    ensures i < |xs| && xs[i] == q
  {
    var i :| 0 <= i < |xs| && xs[i] == q; i
  }

  lemma {:induction false} SameIds(a: seq<Question>, b: seq<Question>)
    requires forall q :: q in a ==> q in b
    ensures forall id :: id in IdsOf(a) ==> id in IdsOf(b)
  {
    forall id | id in IdsOf(a) ensures id in IdsOf(b) {
      var i :| 0 <= i < |a| && IdsOf(a)[i] == id;
      var j := IndexIn(b, a[i]);
      assert IdsOf(b)[j] == id;
    }
  }

  lemma {:induction false} SelectedFacts(questions: seq<Question>, cfg: DrawConfig, choices: Choices)
    requires Distinct(IdsOf(questions))
    ensures var selected := Selected(questions, cfg, choices);
            && Distinct(IdsOf(selected)) && |selected| == PaperLength(|questions|, cfg)
            && (forall q :: q in selected ==> q in questions)
            && forall id :: id in IdsOf(selected) ==> id in IdsOf(questions)
  {
    ShuffledPermutes(questions, choices, 0);
    var ordered := if cfg.randomizeQuestions then Shuffled(questions, choices, 0) else questions;
    IdsOfPermutation(questions, ordered);
    var selected := Selected(questions, cfg, choices);
    assert selected <= ordered;
    assert IdsOf(selected) <= IdsOf(ordered);
    SameIds(selected, questions);
  }

  lemma {:induction false} OrdersPermute(questions: seq<Question>, selected: seq<Question>, randomize: bool,
                                         choices: Choices, k: nat, q: Question)
    requires Distinct(IdsOf(questions)) && Distinct(IdsOf(selected))
    requires forall s :: s in selected ==> s in questions
    requires q in questions && q.id in OptionOrders(selected, randomize, choices, k)
    ensures Permutation(Positions(q), OptionOrders(selected, randomize, choices, k)[q.id])
  {
    OrderKeys(selected, randomize, choices, k);
    hide OptionOrders, OrderOf, Permutation;
    var i := SelectedById(questions, selected, q);
    OrderAt(selected, randomize, choices, k, i);
    OrderOfPermutes(q, randomize, choices, AfterOptions(selected[..i], randomize, k));
  }

  /** Whatever the generator returns, the draw is a valid paper. */
  lemma {:induction false} DrawIs(questions: seq<Question>, cfg: DrawConfig, choices: Choices)
    ensures Draw(questions, cfg, choices).order == IdsOf(Selected(questions, cfg, choices))
    ensures Draw(questions, cfg, choices).optionOrder
         == OptionOrders(Selected(questions, cfg, choices), cfg.randomizeOptions, choices, AfterQuestions(questions, cfg))
  {
  }

  lemma {:induction false} ValidParts(questions: seq<Question>, cfg: DrawConfig, drawn: Drawn)
    requires Distinct(drawn.order) && |drawn.order| == PaperLength(|questions|, cfg)
    requires forall id :: id in drawn.order ==> id in IdsOf(questions)
    requires forall id :: id in drawn.optionOrder <==> id in drawn.order
    requires forall q :: q in questions && q.id in drawn.optionOrder ==> Permutation(Positions(q), drawn.optionOrder[q.id])
    ensures ValidDraw(questions, cfg, drawn)
  {
  }

  lemma {:induction false} DrawIsValid(questions: seq<Question>, cfg: DrawConfig, choices: Choices)
    requires Distinct(IdsOf(questions))
    ensures ValidDraw(questions, cfg, Draw(questions, cfg, choices))
  {
    hide *;
    SelectedFacts(questions, cfg, choices);
    DrawIs(questions, cfg, choices);
    var selected, drawn := Selected(questions, cfg, choices), Draw(questions, cfg, choices);
    var randomize, start := cfg.randomizeOptions, AfterQuestions(questions, cfg);
    OrderKeys(selected, randomize, choices, start);
    forall q | q in questions && q.id in drawn.optionOrder
      ensures Permutation(Positions(q), drawn.optionOrder[q.id])
    {
      OrdersPermute(questions, selected, randomize, choices, start, q);
    }
    ValidParts(questions, cfg, drawn);
  }

  /** With both switches off the candidate gets the first questions as they were authored. */
  lemma {:induction false} UnrandomisedDraw(questions: seq<Question>, cfg: DrawConfig, choices: Choices)
    requires Distinct(IdsOf(questions)) && !cfg.randomizeQuestions && !cfg.randomizeOptions
    ensures var drawn := Draw(questions, cfg, choices);
            && drawn.order == IdsOf(questions)[..PaperLength(|questions|, cfg)]
            && forall q :: q in questions && q.id in drawn.optionOrder ==> drawn.optionOrder[q.id] == Positions(q)
  {
    SelectedFacts(questions, cfg, choices);
    hide OptionOrders;
    var selected := Selected(questions, cfg, choices);
    OrderKeys(selected, false, choices, 0);
    forall q | q in questions && q.id in IdsOf(selected)
      ensures OptionOrders(selected, false, choices, 0)[q.id] == Positions(q)
    {
      var i := SelectedById(questions, selected, q);
      OrderAt(selected, false, choices, 0, i);
    }
  }
}
