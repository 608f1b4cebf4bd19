/** A paper first drawn after it was handed in: exactly when the stored result is still what grading
    gives, with options in authored order and with options shuffled. */
module EngineLateDraw {
  import opened Basics
  import opened Transitions
  import opened Paper
  import opened PaperReach
  import opened Grading
  import opened OrderBlind
  import opened PaperScore
  import opened AnswerRows
  import opened Engine
  import opened EngineInvariant
  import opened EngineReceipts
  import opened EngineResults
  import opened EngineFreshness

  /** A multiple choice that names a place that does not exist and is right but for that. */
  ghost predicate Slip(q: Question, value: Option<AnswerValue>) {
    && value.Some? && value.value.MultipleChoice?
    && (exists i :: i in value.value.options && i >= |q.options|)
    && ToAuthored(Positions(q), value.value.options) == CorrectPositions(q) != {}
  }

  // ---- one question ----

  /** Storing the authored order keeps what in-range picks mean. */
  lemma {:induction false} SameInRange(q: Question, chosen: seq<int>)
    requires WellFormed(q) && forall i :: i in chosen ==> i < |q.options|
    ensures ToAuthored(Positions(q), chosen) == ToAuthored([], chosen)
  {
    if Positions(q) != [] {
      forall p ensures p in ToAuthored(Positions(q), chosen) <==> p in ToAuthored([], chosen) {
        if p in ToAuthored([], chosen) { assert Positions(q)[p] == p; }
      }
    }
  }

  lemma {:induction false} CorrectInRange(q: Question)
    requires WellFormed(q)
    ensures forall p :: p in CorrectPositions(q) ==> 0 <= p < |q.options|
  {
  }

  lemma {:induction false} SingleKeepsScore(q: Question, option: int, awarded: Option<nat>)
    requires WellFormed(q)
    ensures ScoreQuestion(q, Positions(q), Some(Single(option)), awarded) == ScoreQuestion(q, [], Some(Single(option)), awarded)
  {
    if option < |q.options| {
      SameInRange(q, [option]);
    } else {
      CorrectInRange(q);
      assert option in [option];
      assert Positions(q) != [] ==> ToAuthored(Positions(q), [option]) == {};
    }
  }

  lemma {:induction false} MultipleSlip(q: Question, options: seq<int>, awarded: Option<nat>)
    requires WellFormed(q)
    ensures var stored, none := ScoreQuestion(q, Positions(q), Some(MultipleChoice(options)), awarded),
                                ScoreQuestion(q, [], Some(MultipleChoice(options)), awarded);
            stored >= none && (stored == none <==> !Slip(q, Some(MultipleChoice(options))))
  {
    if i :| i in options && i >= |q.options| {
      CorrectInRange(q);
      assert i in ToAuthored([], options);
      if Positions(q) == [] { assert CorrectPositions(q) == {}; }
    } else {
      SameInRange(q, options);
    }
  }

  lemma {:induction false} StoredOrderScore(q: Question, value: Option<AnswerValue>, awarded: Option<nat>)
    requires WellFormed(q)
    ensures var stored, none := ScoreQuestion(q, Positions(q), value, awarded), ScoreQuestion(q, [], value, awarded);
            stored >= none && (stored == none <==> !Slip(q, value))
  {
    match value
    case Some(Single(option)) => SingleKeepsScore(q, option, awarded);
    case Some(MultipleChoice(options)) => MultipleSlip(q, options, awarded);
    case _ =>
  }

  // ---- the paper ----

  ghost predicate SlipAt(paper: seq<Question>, id: nat, answers: map<nat, AnswerValue>) {
    FindQuestion(paper, id).Some? && Slip(FindQuestion(paper, id).value, Get(answers, id))
  }

  /** `orders` holds the authored order of every question it is asked for. */
  ghost predicate Authored(paper: seq<Question>, ids: seq<nat>, orders: map<nat, seq<nat>>) {
    forall q :: q in paper && q.id in ids ==> q.id in orders && orders[q.id] == Positions(q)
  }

  lemma {:induction false} OneContribution(paper: seq<Question>, id: nat, orders: map<nat, seq<nat>>,
                                           answers: map<nat, AnswerValue>, awards: map<nat, nat>)
    requires WellFormedPaper(paper) && Authored(paper, [id], orders)
    ensures var stored, none := Contribution(paper, id, orders, answers, awards), Contribution(paper, id, map[], answers, awards);
            && stored.available == none.available && stored.unmarked == none.unmarked
            && stored.given >= none.given && (stored.given == none.given <==> !SlipAt(paper, id, answers))
  {
    hide ScoreQuestion, Slip, WellFormed;
    var found := FindQuestion(paper, id);
    if found.Some? {
      assert WellFormed(paper[IndexIn(paper, found.value)]);
      assert id in [id];
      StoredOrderScore(found.value, Get(answers, id), Get(awards, id));
    }
  }

  lemma {:induction false} StoredOrdersScore(paper: seq<Question>, ids: seq<nat>, orders: map<nat, seq<nat>>,
                                             answers: map<nat, AnswerValue>, awards: map<nat, nat>)
    requires WellFormedPaper(paper) && Authored(paper, ids, orders)
    ensures var stored, none := ScoreIds(paper, ids, orders, answers, awards), ScoreIds(paper, ids, map[], answers, awards);
            && stored.available == none.available && stored.unmarked == none.unmarked && stored.given >= none.given
            && (stored.given == none.given <==> forall id :: id in ids ==> !SlipAt(paper, id, answers))
  {
    if ids != [] {
      var init, last := ids[..|ids| - 1], ids[|ids| - 1];
      assert ids == init + [last];
      hide WellFormedPaper, Contribution, SlipAt;
      StoredOrdersScore(paper, init, orders, answers, awards);
      OneContribution(paper, last, orders, answers, awards);
    }
  }

  function Members(xs: seq<nat>): set<nat> {
    set x | x in xs
  }

  lemma {:induction false} DistinctSize(xs: seq<nat>)
    requires Distinct(xs)
    ensures |Members(xs)| == |xs|
  {
    if xs != [] {
      var init, last := xs[..|xs| - 1], xs[|xs| - 1];
      DistinctSize(init);
      assert xs == init + [last] && last !in init;
      assert Members(xs) == Members(init) + {last};
    }
  }

  lemma {:induction false} SameSizeSubset(a: set<nat>, b: set<nat>)
    requires a <= b && |a| == |b|
    ensures a == b
  {
    assert |b - a| == |b| - |a|;
  }

  /** Distinct questions of the paper, as many as it has: all of them. */
  lemma {:induction false} WholePaper(paper: seq<Question>, order: seq<nat>)
    requires Distinct(IdsOf(paper)) && Distinct(order) && |order| == |paper| && forall id :: id in order ==> id in IdsOf(paper)
    ensures Permutation(IdsOf(paper), order)
  {
    var ids := IdsOf(paper);
    DistinctSize(ids);
    DistinctSize(order);
    SameSizeSubset(Members(order), Members(ids));
    forall id ensures id in ids <==> id in order { assert id in Members(ids) <==> id in Members(order); }
    DistinctSameMembers(ids, order);
  }

  /** All questions drawn, options as authored: only slips are graded differently. */
  lemma {:induction false} WholeDrawScore(paper: seq<Question>, cfg: DrawConfig, drawn: Drawn,
                                          answers: map<nat, AnswerValue>, awards: map<nat, nat>)
    requires WellFormedPaper(paper) && ValidDraw(paper, cfg, drawn) && OrdersAllowed(paper, cfg, drawn) && !cfg.randomizeOptions
    requires PaperLength(|paper|, cfg) == |paper|
    ensures PaperTotal(paper, Some(drawn.order), drawn.optionOrder, answers, awards) == PaperTotal(paper, None, map[], answers, awards)
       <==> forall id :: id in IdsOf(paper) ==> !SlipAt(paper, id, answers)
  {
    var ids := IdsOf(paper);
    WholePaper(paper, drawn.order);
    assert PaperIds(paper, None) == ids;
    assert multiset(ids) == multiset(drawn.order);
    if drawn.order == [] {
      assert |multiset(ids)| == 0 && |ids| == 0;
    } else {
      assert forall id :: id in ids ==> id in multiset(drawn.order);
      assert Authored(paper, ids, drawn.optionOrder);
      hide ScoreIds, SlipAt, WellFormedPaper, ValidDraw, Permutation;
      StoredOrdersScore(paper, ids, drawn.optionOrder, answers, awards);
      QuestionOrderInvisible(paper, ids, drawn.order, drawn.optionOrder, answers, awards);
    }
  }

  // ---- the stored result ----

  lemma {:induction false} EnteredPaper(w: World, s: nat, onMachine: bool, now: int, choices: Shuffle.Choices)
    requires s in w.sessions && w.sessions[s].exam in w.exams && w.sessions[s].order.None?
    ensures var w', exam := Next(w, Enter(s, onMachine, now, choices)), w.exams[w.sessions[s].exam];
            && s in w'.sessions && w'.sessions[s].order.Some?
            && Drawn(w'.sessions[s].order.value, w'.sessions[s].optionOrder) == Draw(exam.paper, exam.config, choices)
  {
    hide Draw;
  }

  lemma {:induction false} UndrawnHasNoOrders(x: Session, exam: Exam)
    requires SessionOk(x, exam) && x.order.None?
    ensures x.optionOrder == map[]
  {
    hide ValidDraw, StatusesAgree;
  }

  /** Nothing the candidate of session `s` picked is right but for a place that does not exist. */
  ghost predicate NoSlips(w: World, s: nat)
    requires s in w.sessions && w.sessions[s].exam in w.exams
  {
    var paper := w.exams[w.sessions[s].exam].paper;
    forall id :: id in IdsOf(paper) ==> !SlipAt(paper, id, AnswersOf(w.answers, s))
  }

  lemma {:induction false} LateScore(x: Session, y: Session, exam: Exam, choices: Shuffle.Choices, answers: map<Key, AnswerRow>, s: nat)
    requires WellFormedPaper(exam.paper) && !exam.config.randomizeOptions && PaperLength(|exam.paper|, exam.config) == |exam.paper|
    requires x.order.None? && x.optionOrder == map[] && y.order.Some?
    requires Drawn(y.order.value, y.optionOrder) == Draw(exam.paper, exam.config, choices)
    ensures Graded(exam.paper, y, answers, s) == Graded(exam.paper, x, answers, s) <==>
              forall id :: id in IdsOf(exam.paper) ==> !SlipAt(exam.paper, id, AnswersOf(answers, s))
  {
    DrawIsValid(exam.paper, exam.config, choices);
    DrawIsAllowed(exam.paper, exam.config, choices);
    hide WellFormedPaper, ValidDraw, OrdersAllowed, Draw, PaperTotal, AnswersOf, AwardsOf, SlipAt;
    var drawn := Draw(exam.paper, exam.config, choices);
    WholeDrawScore(exam.paper, exam.config, drawn, AnswersOf(answers, s), AwardsOf(answers, s));
  }

  /** With options in authored order, a first draw after submission leaves the stored result up to
      date exactly when it keeps every question and the candidate made no such slip. */
  lemma {:induction false} LateDrawFreshIff(w: World, s: nat, onMachine: bool, now: int, choices: Shuffle.Choices)
    requires Inv(w) && Fresh(w, s) && HandedIn(w.sessions[s].status) && w.sessions[s].order.None?
    requires !w.exams[w.sessions[s].exam].config.randomizeOptions
    ensures Fresh(Next(w, Enter(s, onMachine, now, choices)), s) <==> PaperSettled(w, s) && NoSlips(w, s)
  {
    var exam, w' := w.exams[w.sessions[s].exam], Next(w, Enter(s, onMachine, now, choices));
    if PaperSettled(w, s) {
      SessionIsOk(w, s);
      UndrawnHasNoOrders(w.sessions[s], exam);
      PaperDistinct(w, w.sessions[s].exam);
      EnteredLate(w, s, onMachine, now, choices);
      EnteredPaper(w, s, onMachine, now, choices);
      hide Inv, Next, Graded, WellFormedPaper, PaperLength, SessionOk, Draw, SlipAt, AnswersOf;
      LateScore(w.sessions[s], w'.sessions[s], exam, choices, w.answers, s);
    } else {
      LateDrawMakesStale(w, s, onMachine, now, choices);
    }
  }

  // ---- options in any order ----

  ghost predicate BlindAt(paper: seq<Question>, id: nat, answers: map<nat, AnswerValue>) {
    FindQuestion(paper, id).Some? ==> Blind(FindQuestion(paper, id).value, Get(answers, id))
  }

  /** Every order given is one of all the question's options. */
  ghost predicate Orders(paper: seq<Question>, orders: map<nat, seq<nat>>) {
    forall q :: q in paper && q.id in orders ==> Permutation(Positions(q), orders[q.id])
  }

  lemma {:induction false} BlindContribution(paper: seq<Question>, id: nat, orders: map<nat, seq<nat>>,
                                             answers: map<nat, AnswerValue>, awards: map<nat, nat>)
    requires WellFormedPaper(paper) && Orders(paper, orders) && BlindAt(paper, id, answers)
    ensures Contribution(paper, id, orders, answers, awards) == Contribution(paper, id, map[], answers, awards)
  {
    hide ScoreQuestion, Blind, WellFormed, Permutation;
    var found := FindQuestion(paper, id);
    if found.Some? && id in orders {
      assert WellFormed(paper[IndexIn(paper, found.value)]);
      BlindScore(found.value, orders[id], Get(answers, id), Get(awards, id));
    }
  }

  lemma {:induction false} BlindScores(paper: seq<Question>, ids: seq<nat>, orders: map<nat, seq<nat>>,
                                       answers: map<nat, AnswerValue>, awards: map<nat, nat>)
    requires WellFormedPaper(paper) && Orders(paper, orders) && forall id :: id in ids ==> BlindAt(paper, id, answers)
    ensures ScoreIds(paper, ids, orders, answers, awards) == ScoreIds(paper, ids, map[], answers, awards)
  {
    if ids != [] {
      var init, last := ids[..|ids| - 1], ids[|ids| - 1];
      assert last in ids;
      hide WellFormedPaper, Contribution, BlindAt, Orders;
      BlindScores(paper, init, orders, answers, awards);
      BlindContribution(paper, last, orders, answers, awards);
    }
  }

  lemma {:induction false} DrawnOrders(paper: seq<Question>, cfg: DrawConfig, drawn: Drawn)
    requires ValidDraw(paper, cfg, drawn)
    ensures Orders(paper, drawn.optionOrder) && Distinct(drawn.order) && forall id :: id in drawn.order ==> id in IdsOf(paper)
  {
  }

  lemma {:induction false} TotalOf(paper: seq<Question>, order: seq<nat>, orders: map<nat, seq<nat>>,
                                   answers: map<nat, AnswerValue>, awards: map<nat, nat>)
    ensures PaperTotal(paper, Some(order), orders, answers, awards)
         == ScoreIds(paper, if order == [] then IdsOf(paper) else order, orders, answers, awards)
    ensures PaperTotal(paper, None, orders, answers, awards) == ScoreIds(paper, IdsOf(paper), orders, answers, awards)
  {
  }

  /** All questions drawn, and every answer blind: the order of the options cannot matter. */
  lemma {:induction false} WholeDrawBlind(paper: seq<Question>, cfg: DrawConfig, drawn: Drawn,
                                          answers: map<nat, AnswerValue>, awards: map<nat, nat>)
    requires WellFormedPaper(paper) && ValidDraw(paper, cfg, drawn) && PaperLength(|paper|, cfg) == |paper|
    requires forall id :: id in IdsOf(paper) ==> BlindAt(paper, id, answers)
    ensures PaperTotal(paper, Some(drawn.order), drawn.optionOrder, answers, awards) == PaperTotal(paper, None, map[], answers, awards)
  {
    var ids := IdsOf(paper);
    DrawnOrders(paper, cfg, drawn);
    assert Distinct(ids) && |drawn.order| == |paper|;
    hide *;
    WholePaper(paper, drawn.order);
    TotalOf(paper, drawn.order, drawn.optionOrder, answers, awards);
    TotalOf(paper, drawn.order, map[], answers, awards);
    BlindScores(paper, ids, drawn.optionOrder, answers, awards);
    QuestionOrderInvisible(paper, ids, drawn.order, drawn.optionOrder, answers, awards);
  }

  // ---- an order that changes the marks ----

  ghost function AuthoredOrders(paper: seq<Question>): map<nat, seq<nat>> {
    map id | id in IdsOf(paper) :: Positions(ById(paper, id))
  }

  lemma {:induction false} AuthoredFacts(paper: seq<Question>)
    requires WellFormedPaper(paper)
    ensures var orders := AuthoredOrders(paper);
            && Authored(paper, IdsOf(paper), orders) && Orders(paper, orders) && forall id :: id in orders <==> id in IdsOf(paper)
  {
    forall q | q in paper && q.id in IdsOf(paper) ensures AuthoredOrders(paper)[q.id] == Positions(q) {
      SameQuestion(paper, ById(paper, q.id), q);
    }
  }

  /** Another order for a question that is not among `ids`. */
  lemma {:induction false} OrdersElsewhere(paper: seq<Question>, ids: seq<nat>, orders: map<nat, seq<nat>>, t: nat, order: seq<nat>,
                                           answers: map<nat, AnswerValue>, awards: map<nat, nat>)
    requires t !in ids
    ensures ScoreIds(paper, ids, orders[t := order], answers, awards) == ScoreIds(paper, ids, orders, answers, awards)
  {
    if ids != [] {
      var init, last := ids[..|ids| - 1], ids[|ids| - 1];
      assert last in ids;
      OrdersElsewhere(paper, init, orders, t, order, answers, awards);
      hide ScoreQuestion;
    }
  }

  /** Changing one question's order changes the total by what it changes that question's marks. */
  lemma {:induction false} OneOrderChanged(paper: seq<Question>, ids: seq<nat>, orders: map<nat, seq<nat>>, t: nat, order: seq<nat>,
                                           answers: map<nat, AnswerValue>, awards: map<nat, nat>)
    requires Distinct(ids) && t in ids
    ensures ScoreIds(paper, ids, orders[t := order], answers, awards).given + Contribution(paper, t, orders, answers, awards).given
         == ScoreIds(paper, ids, orders, answers, awards).given + Contribution(paper, t, orders[t := order], answers, awards).given
  {
    var k :| 0 <= k < |ids| && ids[k] == t;
    var front, back := ids[..k], ids[k + 1..];
    assert ids == front + [t] + back;
    assert t !in front + back;
    hide *;
    ScoreIdsSplit(paper, front, t, back, orders, answers, awards);
    ScoreIdsSplit(paper, front, t, back, orders[t := order], answers, awards);
    OrdersElsewhere(paper, front + back, orders, t, order, answers, awards);
    GivenAdds(ScoreIds(paper, front + back, orders, answers, awards), Contribution(paper, t, orders, answers, awards));
    GivenAdds(ScoreIds(paper, front + back, orders, answers, awards), Contribution(paper, t, orders[t := order], answers, awards));
  }

  lemma {:induction false} GivenAdds(a: Score, b: Score)
    ensures Plus(a, b).given == a.given + b.given
  {
  }

  lemma {:induction false} SeeingOrder(paper: seq<Question>, t: nat, orders: map<nat, seq<nat>>,
                                       answers: map<nat, AnswerValue>, awards: map<nat, nat>) returns (order: seq<nat>)
    requires WellFormedPaper(paper) && !BlindAt(paper, t, answers) && Orders(paper, orders)
    ensures Orders(paper, orders[t := order])
    ensures Contribution(paper, t, orders[t := order], answers, awards).given != Contribution(paper, t, map[], answers, awards).given
  {
    hide ScoreQuestion, Blind, WellFormed, Permutation;
    var q := FindQuestion(paper, t).value;
    assert WellFormed(paper[IndexIn(paper, q)]);
    order := SeeingScore(q, Get(answers, t), Get(awards, t));
    forall x | x in paper && x.id == t ensures Permutation(Positions(x), order) { SameQuestion(paper, x, q); }
  }

  lemma {:induction false} SameKeys(orders: map<nat, seq<nat>>, ids: seq<nat>, t: nat, order: seq<nat>)
    requires (forall id :: id in orders <==> id in ids) && t in ids
    ensures forall id :: id in orders[t := order] <==> id in ids
  {
  }

  lemma {:induction false} TellingOne(paper: seq<Question>, ids: seq<nat>, authored: map<nat, seq<nat>>, t: nat, order: seq<nat>,
                                      answers: map<nat, AnswerValue>, awards: map<nat, nat>)
    requires WellFormedPaper(paper) && Distinct(ids) && t in ids && Authored(paper, ids, authored)
    requires forall id :: id in ids ==> !SlipAt(paper, id, answers)
    requires Contribution(paper, t, authored[t := order], answers, awards).given != Contribution(paper, t, map[], answers, awards).given
    ensures ScoreIds(paper, ids, authored[t := order], answers, awards) != ScoreIds(paper, ids, map[], answers, awards)
  {
    hide *;
    StoredOrdersScore(paper, ids, authored, answers, awards);
    OneOrderChanged(paper, ids, authored, t, order, answers, awards);
    OneAuthored(paper, ids, authored, t);
    OneContribution(paper, t, authored, answers, awards);
  }

  /** An answer that is not blind: some orders of the options give other marks than none. */
  lemma {:induction false} TellingOrders(paper: seq<Question>, t: nat, answers: map<nat, AnswerValue>, awards: map<nat, nat>)
    returns (orders: map<nat, seq<nat>>)
    requires WellFormedPaper(paper) && t in IdsOf(paper) && !BlindAt(paper, t, answers)
    ensures Orders(paper, orders) && forall id :: id in orders <==> id in IdsOf(paper)
    ensures ScoreIds(paper, IdsOf(paper), orders, answers, awards) != ScoreIds(paper, IdsOf(paper), map[], answers, awards)
  {
    assert Distinct(IdsOf(paper));
    hide *;
    var ids, authored := IdsOf(paper), AuthoredOrders(paper);
    AuthoredFacts(paper);
    if forall id :: id in ids ==> !SlipAt(paper, id, answers) {
      var order := SeeingOrder(paper, t, authored, answers, awards);
      orders := authored[t := order];
      SameKeys(authored, ids, t, order);
      TellingOne(paper, ids, authored, t, order, answers, awards);
    } else {
      orders := authored;
      StoredOrdersScore(paper, ids, authored, answers, awards);
    }
  }

  lemma {:induction false} OneAuthored(paper: seq<Question>, ids: seq<nat>, orders: map<nat, seq<nat>>, id: nat)
    requires Authored(paper, ids, orders) && id in ids
    ensures Authored(paper, [id], orders)
  {
    assert forall x :: x in [id] ==> x in ids;
  }

  // ---- every draw ----

  /** What grading gives after a draw. */
  function DrawTotal(paper: seq<Question>, cfg: DrawConfig, choices: Shuffle.Choices, answers: map<nat, AnswerValue>, awards: map<nat, nat>): Score {
    var drawn := Draw(paper, cfg, choices);
    PaperTotal(paper, Some(drawn.order), drawn.optionOrder, answers, awards)
  }

  /** With options in authored order no answer may name a place that does not exist and be right
      but for that; with options shuffled every answer must be blind to their order. */
  ghost predicate Untouchable(paper: seq<Question>, cfg: DrawConfig, answers: map<nat, AnswerValue>) {
    forall id :: id in IdsOf(paper) ==>
      if cfg.randomizeOptions then BlindAt(paper, id, answers) else !SlipAt(paper, id, answers)
  }

  lemma {:induction false} WholeDraw(paper: seq<Question>, cfg: DrawConfig, orders: map<nat, seq<nat>>) returns (choices: Shuffle.Choices)
    requires WellFormedPaper(paper) && PaperLength(|paper|, cfg) == |paper| && cfg.randomizeOptions
    requires Orders(paper, orders) && forall id :: id in orders <==> id in IdsOf(paper)
    ensures Draw(paper, cfg, choices) == Drawn(IdsOf(paper), orders)
  {
    var drawn := Drawn(IdsOf(paper), orders);
    assert IdsOf(paper)[..PaperLength(|paper|, cfg)] == IdsOf(paper);
    hide Draw, Permutation;
    choices := DrawReaches(paper, cfg, drawn);
  }

  lemma {:induction false} SomeDrawTells(paper: seq<Question>, cfg: DrawConfig, t: nat, answers: map<nat, AnswerValue>, awards: map<nat, nat>)
    returns (choices: Shuffle.Choices)
    requires WellFormedPaper(paper) && PaperLength(|paper|, cfg) == |paper| && cfg.randomizeOptions
    requires t in IdsOf(paper) && !BlindAt(paper, t, answers)
    ensures DrawTotal(paper, cfg, choices, answers, awards) != PaperTotal(paper, None, map[], answers, awards)
  {
    hide WellFormedPaper, BlindAt, Orders, ScoreIds, Draw;
    var orders := TellingOrders(paper, t, answers, awards);
    choices := WholeDraw(paper, cfg, orders);
  }

  lemma {:induction false} DrawSame(paper: seq<Question>, cfg: DrawConfig, choices: Shuffle.Choices,
                                    answers: map<nat, AnswerValue>, awards: map<nat, nat>)
    requires WellFormedPaper(paper) && PaperLength(|paper|, cfg) == |paper|
    ensures Untouchable(paper, cfg, answers) ==>
              DrawTotal(paper, cfg, choices, answers, awards) == PaperTotal(paper, None, map[], answers, awards)
    ensures !cfg.randomizeOptions && DrawTotal(paper, cfg, choices, answers, awards) == PaperTotal(paper, None, map[], answers, awards) ==>
              Untouchable(paper, cfg, answers)
  {
    var drawn := Draw(paper, cfg, choices);
    DrawIsValid(paper, cfg, choices);
    DrawIsAllowed(paper, cfg, choices);
    hide WellFormedPaper, BlindAt, SlipAt, ValidDraw, OrdersAllowed, QuestionsAllowed, Draw, PaperTotal;
    if !cfg.randomizeOptions {
      WholeDrawScore(paper, cfg, drawn, answers, awards);
    } else if Untouchable(paper, cfg, answers) {
      WholeDrawBlind(paper, cfg, drawn, answers, awards);
    }
  }

  const ZEROS: Shuffle.Choices := (_: nat) => 0

  lemma {:induction false} DrawTells(paper: seq<Question>, cfg: DrawConfig, answers: map<nat, AnswerValue>, awards: map<nat, nat>)
    returns (choices: Shuffle.Choices)
    requires WellFormedPaper(paper) && PaperLength(|paper|, cfg) == |paper| && !Untouchable(paper, cfg, answers)
    ensures DrawTotal(paper, cfg, choices, answers, awards) != PaperTotal(paper, None, map[], answers, awards)
  {
    hide WellFormedPaper, BlindAt, SlipAt, DrawTotal, PaperTotal, PaperLength;
    if cfg.randomizeOptions {
      var t :| t in IdsOf(paper) && !BlindAt(paper, t, answers);
      choices := SomeDrawTells(paper, cfg, t, answers, awards);
    } else {
      hide Untouchable;
      choices := ZEROS;
      DrawSame(paper, cfg, choices, answers, awards);
    }
  }

  /** Every draw of a whole paper is graded as no draw exactly when no answer can be touched. */
  lemma {:induction false} EveryDrawSameIff(paper: seq<Question>, cfg: DrawConfig, answers: map<nat, AnswerValue>, awards: map<nat, nat>)
    requires WellFormedPaper(paper) && PaperLength(|paper|, cfg) == |paper|
    ensures (forall choices: Shuffle.Choices :: DrawTotal(paper, cfg, choices, answers, awards) == PaperTotal(paper, None, map[], answers, awards))
       <==> Untouchable(paper, cfg, answers)
  {
    hide *;
    if Untouchable(paper, cfg, answers) {
      forall choices: Shuffle.Choices
        ensures DrawTotal(paper, cfg, choices, answers, awards) == PaperTotal(paper, None, map[], answers, awards)
      {
        DrawSame(paper, cfg, choices, answers, awards);
      }
    } else {
      var choices := DrawTells(paper, cfg, answers, awards);
    }
  }

  lemma {:induction false} LateDrawFresh(w: World, s: nat, onMachine: bool, now: int, choices: Shuffle.Choices)
    requires Inv(w) && Fresh(w, s) && HandedIn(w.sessions[s].status) && w.sessions[s].order.None?
    ensures var exam := w.exams[w.sessions[s].exam];
            Fresh(Next(w, Enter(s, onMachine, now, choices)), s) <==>
              DrawTotal(exam.paper, exam.config, choices, AnswersOf(w.answers, s), AwardsOf(w.answers, s))
              == PaperTotal(exam.paper, None, map[], AnswersOf(w.answers, s), AwardsOf(w.answers, s))
  {
    var exam, w' := w.exams[w.sessions[s].exam], Next(w, Enter(s, onMachine, now, choices));
    SessionIsOk(w, s);
    UndrawnHasNoOrders(w.sessions[s], exam);
    EnteredLate(w, s, onMachine, now, choices);
    EnteredPaper(w, s, onMachine, now, choices);
    hide Inv, Next, WellFormedPaper, PaperLength, SessionOk, Draw, AnswersOf, AwardsOf, PaperTotal;
  }

  lemma {:induction false} SettledLength(w: World, s: nat)
    requires s in w.sessions && w.sessions[s].exam in w.exams && PaperSettled(w, s) && w.sessions[s].order.None?
    ensures var exam := w.exams[w.sessions[s].exam]; PaperLength(|exam.paper|, exam.config) == |exam.paper|
  {
  }

  /** The draw keeps every question, and the options' order can touch no answer. */
  ghost predicate Sure(w: World, s: nat)
    requires s in w.sessions && w.sessions[s].exam in w.exams
  {
    var exam := w.exams[w.sessions[s].exam];
    PaperSettled(w, s) && Untouchable(exam.paper, exam.config, AnswersOf(w.answers, s))
  }

  lemma {:induction false} SureIsFresh(w: World, s: nat, onMachine: bool, now: int, choices: Shuffle.Choices)
    requires Inv(w) && Fresh(w, s) && HandedIn(w.sessions[s].status) && w.sessions[s].order.None? && Sure(w, s)
    ensures Fresh(Next(w, Enter(s, onMachine, now, choices)), s)
  {
    var exam := w.exams[w.sessions[s].exam];
    PaperDistinct(w, w.sessions[s].exam);
    SettledLength(w, s);
    assert Untouchable(exam.paper, exam.config, AnswersOf(w.answers, s));
    hide *;
    LateDrawFresh(w, s, onMachine, now, choices);
    DrawSame(exam.paper, exam.config, choices, AnswersOf(w.answers, s), AwardsOf(w.answers, s));
  }

  lemma {:induction false} TouchableGoesStale(w: World, s: nat, onMachine: bool, now: int) returns (choices: Shuffle.Choices)
    requires Inv(w) && Fresh(w, s) && HandedIn(w.sessions[s].status) && w.sessions[s].order.None? && PaperSettled(w, s)
    requires !Untouchable(w.exams[w.sessions[s].exam].paper, w.exams[w.sessions[s].exam].config, AnswersOf(w.answers, s))
    ensures !Fresh(Next(w, Enter(s, onMachine, now, choices)), s)
  {
    var exam := w.exams[w.sessions[s].exam];
    PaperDistinct(w, w.sessions[s].exam);
    SettledLength(w, s);
    hide *;
    choices := DrawTells(exam.paper, exam.config, AnswersOf(w.answers, s), AwardsOf(w.answers, s));
    LateDrawFresh(w, s, onMachine, now, choices);
  }

  lemma {:induction false} UnsureGoesStale(w: World, s: nat, onMachine: bool, now: int) returns (choices: Shuffle.Choices)
    requires Inv(w) && Fresh(w, s) && HandedIn(w.sessions[s].status) && w.sessions[s].order.None? && !Sure(w, s)
    ensures !Fresh(Next(w, Enter(s, onMachine, now, choices)), s)
  {
    assert s in w.sessions && w.sessions[s].exam in w.exams;
    hide Inv, Next, Fresh, PaperSettled, Untouchable, AnswersOf;
    if PaperSettled(w, s) {
      choices := TouchableGoesStale(w, s, onMachine, now);
    } else {
      choices := ZEROS;
      LateDrawMakesStale(w, s, onMachine, now, choices);
    }
  }

  /** A first draw after submission leaves the stored result up to date whatever the generator does,
      exactly when it keeps every question and no answer can be touched by the options' order. */
  lemma {:induction false} LateDrawSurelyFreshIff(w: World, s: nat, onMachine: bool, now: int)
    requires Inv(w) && Fresh(w, s) && HandedIn(w.sessions[s].status) && w.sessions[s].order.None?
    ensures (forall choices: Shuffle.Choices :: Fresh(Next(w, Enter(s, onMachine, now, choices)), s)) <==> Sure(w, s)
  {
    assert s in w.sessions && w.sessions[s].exam in w.exams;
    hide *;
    if Sure(w, s) {
      forall choices: Shuffle.Choices ensures Fresh(Next(w, Enter(s, onMachine, now, choices)), s) {
        SureIsFresh(w, s, onMachine, now, choices);
      }
    } else {
      var choices := UnsureGoesStale(w, s, onMachine, now);
    }
  }
}
