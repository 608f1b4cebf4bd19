/** The other half of the draw: every valid paper is one some candidate may be given. */
module PaperReach {
  import opened Basics
  import opened Shuffle
  import opened Paper

  lemma {:induction false} AfterOptionsGrows(selected: seq<Question>, k: nat)
    ensures AfterOptions(selected, true, k) >= k
  {
    if selected != [] { AfterOptionsGrows(selected[..|selected| - 1], k); }
  }

  lemma {:induction false} OrderOfLocal(q: Question, a: Choices, b: Choices, k: nat)
    requires forall m :: k <= m < k + Consumed(|q.options|) ==> a(m) == b(m)
    ensures OrderOf(q, true, a, k) == OrderOf(q, true, b, k)
  {
    ShuffleLocal(Positions(q), Consumed(|q.options|), a, b, k);
  }

  /** Ordering the options looks only at the choices it consumes. */
  lemma {:induction false} OptionOrdersLocal(selected: seq<Question>, a: Choices, b: Choices, k: nat)
    requires forall m :: k <= m < AfterOptions(selected, true, k) ==> a(m) == b(m)
    ensures OptionOrders(selected, true, a, k) == OptionOrders(selected, true, b, k)
  {
    if selected != [] {
      var last := |selected| - 1;
      AfterOptionsGrows(selected[..last], k);
      OptionOrdersLocal(selected[..last], a, b, k);
      OrderOfLocal(selected[last], a, b, AfterOptions(selected[..last], true, k));
    }
  }

  lemma {:induction false} OrderReaches(q: Question, order: seq<nat>, k: nat) returns (choices: Choices)
    requires Permutation(Positions(q), order)
    ensures OrderOf(q, true, choices, k) == order
  {
    assert |multiset(Positions(q))| == |Positions(q)| && |multiset(order)| == |order|;
    choices := ShuffleReaches(Positions(q), order, Consumed(|q.options|), k);
  }

  function Wanted(selected: seq<Question>, wanted: map<nat, seq<nat>>): map<nat, seq<nat>>
    requires forall q :: q in selected ==> q.id in wanted
  {
    if selected == [] then map[]
    else
      var last := |selected| - 1;
      Wanted(selected[..last], wanted)[selected[last].id := wanted[selected[last].id]]
  }

  lemma {:induction false} WantedKeys(selected: seq<Question>, wanted: map<nat, seq<nat>>)
    requires forall q :: q in selected ==> q.id in wanted
    ensures forall id :: id in Wanted(selected, wanted) <==> id in IdsOf(selected)
    ensures forall id :: id in IdsOf(selected) ==> id in wanted && Wanted(selected, wanted)[id] == wanted[id]
  {
    if selected != [] {
      var last := |selected| - 1;
      WantedKeys(selected[..last], wanted);
      assert selected[last] in selected;
      assert IdsOf(selected) == IdsOf(selected[..last]) + [selected[last].id];
    }
  }

  lemma {:induction false} WantedIsAll(selected: seq<Question>, wanted: map<nat, seq<nat>>)
    requires forall q :: q in selected ==> q.id in wanted
    requires forall id :: id in wanted <==> id in IdsOf(selected)
    ensures Wanted(selected, wanted) == wanted
  {
    WantedKeys(selected, wanted);
    hide Wanted;
    assert Wanted(selected, wanted).Keys == wanted.Keys;
  }

  /** Choices that give each selected question the wanted ordering. */
  lemma {:induction false} OptionsReach(selected: seq<Question>, wanted: map<nat, seq<nat>>, k: nat) returns (choices: Choices)
    requires forall q :: q in selected ==> q.id in wanted && Permutation(Positions(q), wanted[q.id])
    ensures OptionOrders(selected, true, choices, k) == Wanted(selected, wanted)
  {
    choices := (m: nat) => 0;
    if selected != [] {
      var last := |selected| - 1;
      var before, q := selected[..last], selected[last];
      var mid := AfterOptions(before, true, k);
      var first := OptionsReach(before, wanted, k);
      var second := OrderReaches(q, wanted[q.id], mid);
      choices := (m: nat) => if m < mid then first(m) else second(m);
      OptionOrdersLocal(before, choices, first, k);
      OrderOfLocal(q, choices, second, mid);
    }
  }

  // ---- extending the chosen questions to an ordering of the whole paper ----

  function ById(paper: seq<Question>, id: nat): (q: Question)
    requires id in IdsOf(paper)
    ensures q in paper && q.id == id
  {
    if paper[0].id == id then paper[0]
    else
      assert IdsOf(paper) == [paper[0].id] + IdsOf(paper[1..]);
      ById(paper[1..], id)
  }

  function Chosen(paper: seq<Question>, order: seq<nat>): (qs: seq<Question>)
    requires forall id :: id in order ==> id in IdsOf(paper)
    ensures IdsOf(qs) == order && forall q :: q in qs ==> q in paper
  {
    var qs := seq(|order|, i requires 0 <= i < |order| => ById(paper, order[i]));
    assert IdsOf(qs) == order;
    qs
  }

  function Others(paper: seq<Question>, chosen: seq<Question>): (r: seq<Question>)
    ensures forall q :: q in r <==> q in paper && q !in chosen
  {
    if paper == [] then []
    else
      assert paper == [paper[0]] + paper[1..];
      (if paper[0] in chosen then [] else [paper[0]]) + Others(paper[1..], chosen)
  }

  lemma {:induction false} OthersDistinct(paper: seq<Question>, chosen: seq<Question>)
    requires Distinct(paper)
    ensures Distinct(Others(paper, chosen))
  {
    if paper != [] { OthersDistinct(paper[1..], chosen); }
  }

  lemma {:induction false} DistinctSameMembers<T>(xs: seq<T>, ys: seq<T>)
    requires Distinct(xs) && Distinct(ys) && forall x :: x in xs <==> x in ys
    ensures Permutation(xs, ys)
  {
    forall x ensures multiset(xs)[x] == multiset(ys)[x] {
      DistinctCounts(xs, x);
      DistinctCounts(ys, x);
    }
  }

  lemma {:induction false} DistinctIdsDistinct(paper: seq<Question>)
    requires Distinct(IdsOf(paper))
    ensures Distinct(paper)
  {
    forall i, j | 0 <= i < j < |paper| ensures paper[i] != paper[j] { assert IdsOf(paper)[i] != IdsOf(paper)[j]; }
  }

  lemma {:induction false} ChosenFirst(paper: seq<Question>, chosen: seq<Question>)
    requires Distinct(IdsOf(paper)) && Distinct(IdsOf(chosen)) && forall q :: q in chosen ==> q in paper
    ensures Permutation(paper, chosen + Others(paper, chosen))
  {
    DistinctIdsDistinct(paper);
    DistinctIdsDistinct(chosen);
    OthersDistinct(paper, chosen);
    var rest := Others(paper, chosen);
    forall i, j | 0 <= i < |chosen| && 0 <= j < |rest| ensures chosen[i] != rest[j] { assert rest[j] in rest; }
    DistinctSameMembers(paper, chosen + rest);
  }

  lemma {:induction false} ShuffledSelection(questions: seq<Question>, cfg: DrawConfig, chosen: seq<Question>)
    returns (choices: Choices)
    requires cfg.randomizeQuestions
    requires Distinct(IdsOf(questions)) && Distinct(IdsOf(chosen)) && forall q :: q in chosen ==> q in questions
    requires |chosen| == PaperLength(|questions|, cfg)
    ensures Selected(questions, cfg, choices) == chosen
  {
    var ordered := chosen + Others(questions, chosen);
    ChosenFirst(questions, chosen);
    assert |multiset(questions)| == |questions| && |multiset(ordered)| == |ordered|;
    choices := ShuffleReaches(questions, ordered, Consumed(|questions|), 0);
    assert ordered[..|chosen|] == chosen;
  }

  // ---- the two halves of the draw, with and without their switch ----

  lemma {:induction false} SameIdsSameQuestions(paper: seq<Question>, a: seq<Question>, b: seq<Question>)
    requires Distinct(IdsOf(paper)) && IdsOf(a) == IdsOf(b)
    requires (forall q :: q in a ==> q in paper) && forall q :: q in b ==> q in paper
    ensures a == b
  {
    assert |a| == |IdsOf(a)| == |b|;
    forall i | 0 <= i < |a| ensures a[i] == b[i] {
      assert IdsOf(a)[i] == a[i].id && IdsOf(b)[i] == b[i].id && a[i] in a && b[i] in b;
      SameQuestion(paper, a[i], b[i]);
    }
  }

  /** In authored order the first questions are taken, whatever the generator returns. */
  lemma {:induction false} AuthoredSelection(questions: seq<Question>, cfg: DrawConfig, choices: Choices)
    requires !cfg.randomizeQuestions
    ensures IdsOf(Selected(questions, cfg, choices)) == IdsOf(questions)[..PaperLength(|questions|, cfg)]
    ensures forall q :: q in Selected(questions, cfg, choices) ==> q in questions
  {
  }

  lemma {:induction false} AuthoredOptions(questions: seq<Question>, selected: seq<Question>, choices: Choices, k: nat, q: Question)
    requires Distinct(IdsOf(questions)) && Distinct(IdsOf(selected)) && forall s :: s in selected ==> s in questions
    requires q in questions && q.id in OptionOrders(selected, false, choices, k)
    ensures OptionOrders(selected, false, choices, k)[q.id] == Positions(q)
  {
    OrderKeys(selected, false, choices, k);
    hide OptionOrders;
    var i := SelectedById(questions, selected, q);
    OrderAt(selected, false, choices, k, i);
  }

  /** Choices that select exactly these questions, where the configuration allows it. */
  lemma {:induction false} SelectionReaches(questions: seq<Question>, cfg: DrawConfig, chosen: seq<Question>)
    returns (choices: Choices)
    requires Distinct(IdsOf(questions)) && Distinct(IdsOf(chosen)) && forall q :: q in chosen ==> q in questions
    requires |chosen| == PaperLength(|questions|, cfg)
    requires !cfg.randomizeQuestions ==> IdsOf(chosen) == IdsOf(questions)[..PaperLength(|questions|, cfg)]
    ensures Selected(questions, cfg, choices) == chosen
  {
    choices := (m: nat) => 0;
    if cfg.randomizeQuestions {
      choices := ShuffledSelection(questions, cfg, chosen);
    } else {
      AuthoredSelection(questions, cfg, choices);
      SameIdsSameQuestions(questions, Selected(questions, cfg, choices), chosen);
    }
  }

  /** The option orders a configuration can give: any that permute, or the authored ones. */
  ghost predicate OrdersAllowed(questions: seq<Question>, cfg: DrawConfig, drawn: Drawn) {
    !cfg.randomizeOptions ==>
      forall q :: q in questions && q.id in drawn.optionOrder ==> drawn.optionOrder[q.id] == Positions(q)
  }

  ghost predicate QuestionsAllowed(questions: seq<Question>, cfg: DrawConfig, drawn: Drawn) {
    !cfg.randomizeQuestions ==> drawn.order == IdsOf(questions)[..PaperLength(|questions|, cfg)]
  }

  lemma {:induction false} ChosenKeys(questions: seq<Question>, cfg: DrawConfig, drawn: Drawn)
    requires ValidDraw(questions, cfg, drawn)
    ensures forall q :: q in Chosen(questions, drawn.order) ==>
              q.id in drawn.optionOrder && Permutation(Positions(q), drawn.optionOrder[q.id])
    ensures forall id :: id in drawn.optionOrder <==> id in IdsOf(Chosen(questions, drawn.order))
  {
    var chosen := Chosen(questions, drawn.order);
    forall q | q in chosen ensures q.id in drawn.optionOrder && Permutation(Positions(q), drawn.optionOrder[q.id]) {
      assert IdsOf(chosen)[IndexIn(chosen, q)] == q.id;
    }
  }

  lemma {:induction false} AuthoredOrder(questions: seq<Question>, cfg: DrawConfig, drawn: Drawn, chosen: seq<Question>,
                                         choices: Choices, k: nat, id: nat)
    requires Distinct(IdsOf(questions)) && Distinct(IdsOf(chosen)) && forall q :: q in chosen ==> q in questions
    requires ValidDraw(questions, cfg, drawn) && OrdersAllowed(questions, cfg, drawn) && !cfg.randomizeOptions
    requires id in drawn.optionOrder && id in OptionOrders(chosen, false, choices, k)
    ensures OptionOrders(chosen, false, choices, k)[id] == drawn.optionOrder[id]
  {
    OrderIdsKnown(questions, cfg, drawn, id);
    hide OptionOrders, Permutation, ValidDraw, Distinct;
    var q := ById(questions, id);
    AuthoredOptions(questions, chosen, choices, k, q);
  }

  lemma {:induction false} AuthoredOrders(questions: seq<Question>, cfg: DrawConfig, drawn: Drawn, chosen: seq<Question>,
                                          choices: Choices, k: nat)
    requires Distinct(IdsOf(questions)) && Distinct(IdsOf(chosen)) && forall q :: q in chosen ==> q in questions
    requires ValidDraw(questions, cfg, drawn) && OrdersAllowed(questions, cfg, drawn) && !cfg.randomizeOptions
    requires forall id :: id in drawn.optionOrder <==> id in IdsOf(chosen)
    ensures OptionOrders(chosen, false, choices, k) == drawn.optionOrder
  {
    OrderKeys(chosen, false, choices, k);
    hide *;
    var orders := OptionOrders(chosen, false, choices, k);
    assert orders.Keys == drawn.optionOrder.Keys;
    forall id | id in orders ensures orders[id] == drawn.optionOrder[id] {
      AuthoredOrder(questions, cfg, drawn, chosen, choices, k, id);
    }
  }

  lemma {:induction false} OrdersReach(questions: seq<Question>, cfg: DrawConfig, drawn: Drawn, k: nat) returns (choices: Choices)
    requires Distinct(IdsOf(questions)) && ValidDraw(questions, cfg, drawn) && OrdersAllowed(questions, cfg, drawn)
    ensures OptionOrders(Chosen(questions, drawn.order), cfg.randomizeOptions, choices, k) == drawn.optionOrder
  {
    var chosen := Chosen(questions, drawn.order);
    ChosenKeys(questions, cfg, drawn);
    assert Distinct(drawn.order);
    hide Permutation, OptionOrders, Wanted, ValidDraw, OrdersAllowed, Chosen, Distinct;
    choices := (m: nat) => 0;
    if cfg.randomizeOptions {
      choices := OptionsReach(chosen, drawn.optionOrder, k);
      WantedIsAll(chosen, drawn.optionOrder);
    } else {
      AuthoredOrders(questions, cfg, drawn, chosen, choices, k);
    }
  }

  lemma {:induction false} OrderIdsKnown(questions: seq<Question>, cfg: DrawConfig, drawn: Drawn, id: nat)
    requires ValidDraw(questions, cfg, drawn) && id in drawn.optionOrder
    ensures id in IdsOf(questions)
  {
  }

  /** One stream that orders the questions as `first` does and the options as `second` does. */
  lemma {:induction false} CombineChoices(questions: seq<Question>, cfg: DrawConfig, first: Choices, second: Choices)
    returns (choices: Choices)
    ensures Draw(questions, cfg, choices)
         == Drawn(IdsOf(Selected(questions, cfg, first)),
                  OptionOrders(Selected(questions, cfg, first), cfg.randomizeOptions, second, AfterQuestions(questions, cfg)))
  {
    var mid := AfterQuestions(questions, cfg);
    choices := (m: nat) => if m < mid then first(m) else second(m);
    if cfg.randomizeQuestions { ShuffleLocal(questions, mid, choices, first, 0); }
    var selected := Selected(questions, cfg, first);
    if cfg.randomizeOptions {
      OptionOrdersLocal(selected, choices, second, mid);
    } else {
      SameWithoutChoices(selected, choices, second, mid);
    }
  }

  lemma {:induction false} SameWithoutChoices(selected: seq<Question>, a: Choices, b: Choices, k: nat)
    ensures OptionOrders(selected, false, a, k) == OptionOrders(selected, false, b, k)
  {
    if selected != [] { SameWithoutChoices(selected[..|selected| - 1], a, b, k); }
  }

  lemma {:induction false} DrawReaches(questions: seq<Question>, cfg: DrawConfig, drawn: Drawn) returns (choices: Choices)
    requires Distinct(IdsOf(questions)) && ValidDraw(questions, cfg, drawn)
    requires QuestionsAllowed(questions, cfg, drawn) && OrdersAllowed(questions, cfg, drawn)
    ensures Draw(questions, cfg, choices) == drawn
  {
    var chosen := Chosen(questions, drawn.order);
    assert |chosen| == |IdsOf(chosen)|;
    var first := SelectionReaches(questions, cfg, chosen);
    var second := OrdersReach(questions, cfg, drawn, AfterQuestions(questions, cfg));
    choices := CombineChoices(questions, cfg, first, second);
  }

  lemma {:induction false} DrawIsAllowed(questions: seq<Question>, cfg: DrawConfig, choices: Choices)
    requires Distinct(IdsOf(questions))
    ensures var drawn := Draw(questions, cfg, choices);
            QuestionsAllowed(questions, cfg, drawn) && OrdersAllowed(questions, cfg, drawn)
  {
    var selected, k := Selected(questions, cfg, choices), AfterQuestions(questions, cfg);
    SelectedFacts(questions, cfg, choices);
    if !cfg.randomizeQuestions { AuthoredSelection(questions, cfg, choices); }
    hide OptionOrders, Selected;
    if !cfg.randomizeOptions {
      forall q | q in questions && q.id in OptionOrders(selected, false, choices, k)
        ensures OptionOrders(selected, false, choices, k)[q.id] == Positions(q)
      {
        AuthoredOptions(questions, selected, choices, k, q);
      }
    }
  }

  /** Under every setting of the two switches, the papers that can be drawn are exactly the valid
      ones, with the first questions as authored when questions are not shuffled, and the options
      as authored when options are not. */
  lemma {:induction false} DrawableIff(questions: seq<Question>, cfg: DrawConfig, drawn: Drawn)
    requires Distinct(IdsOf(questions))
    ensures (exists choices: Choices :: Draw(questions, cfg, choices) == drawn) <==>
              && ValidDraw(questions, cfg, drawn)
              && (!cfg.randomizeQuestions ==> drawn.order == IdsOf(questions)[..PaperLength(|questions|, cfg)])
              && (!cfg.randomizeOptions ==>
                    forall q :: q in questions && q.id in drawn.optionOrder ==> drawn.optionOrder[q.id] == Positions(q))
  {
    hide Draw, ValidDraw;
    if ValidDraw(questions, cfg, drawn) && QuestionsAllowed(questions, cfg, drawn) && OrdersAllowed(questions, cfg, drawn) {
      var choices := DrawReaches(questions, cfg, drawn);
    }
    if choices: Choices :| Draw(questions, cfg, choices) == drawn {
      DrawIsValid(questions, cfg, choices);
      DrawIsAllowed(questions, cfg, choices);
    }
  }
}
