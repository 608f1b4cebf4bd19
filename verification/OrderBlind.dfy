/** Which answers are worth the same under every order of a question's options as under none
    (`to_authored_positions` and `score_question` in backend/app/domain/paper.py). */
module OrderBlind {
  import opened Basics
  import opened Paper
  import opened Grading

  /** The places a multiple choice picks that exist. */
  function Places(q: Question, options: seq<int>): set<int> {
    set i | i in options && 0 <= i < |q.options|
  }

  predicate Beyond(q: Question, options: seq<int>) {
    exists i :: i in options && i >= |q.options|
  }

  /** A single choice is blind to the order when it names no option, or every option is as correct
      as any other. A multiple choice is when nothing is correct, when it picks the wrong number of
      options, or when everything is correct and picked and nothing else is named. */
  predicate Blind(q: Question, value: Option<AnswerValue>) {
    match value
    case Some(Single(i)) =>
      || !(0 <= i < |q.options|)
      || (forall k :: 0 <= k < |q.options| ==> q.options[k].isCorrect)
      || (forall k :: 0 <= k < |q.options| ==> !q.options[k].isCorrect)
    case Some(MultipleChoice(options)) =>
      var correct := |CorrectPositions(q)|;
      || correct == 0 || |Places(q, options)| != correct
      || (correct == |q.options| && !Beyond(q, options))
    case _ => true
  }

  /** The authored positions behind some places. */
  function Behind(order: seq<nat>, places: set<int>): set<int> {
    set i | i in places && 0 <= i < |order| :: order[i]
  }

  lemma {:induction false} OrderOfOptions(q: Question, order: seq<nat>)
    requires WellFormed(q) && Permutation(Positions(q), order)
    ensures Distinct(order) && |order| == |q.options|
    ensures forall i :: 0 <= i < |order| ==> order[i] < |q.options|
  {
    PositionsDistinct(q);
    PermutationKeepsDistinct(Positions(q), order);
    forall p: nat ensures p in Positions(q) <==> p < |q.options| {
      if p < |q.options| { assert Positions(q)[p] == p; }
    }
    forall i | 0 <= i < |order| ensures order[i] < |q.options| { assert order[i] in order; }
  }

  lemma {:induction false} CorrectExist(q: Question)
    requires WellFormed(q)
    ensures forall p: int :: p in CorrectPositions(q) ==> 0 <= p < |q.options|
  {
  }

  // ---- sizes ----

  lemma {:induction false} Beside<T>(a: set<T>, b: set<T>) returns (x: T)
    requires !(a <= b)
    ensures x in a && x !in b
  {
    x :| x in a && x !in b;
  }

  lemma {:induction false} BehindSize(order: seq<nat>, places: set<int>)
    requires Distinct(order) && forall i: int :: i in places ==> 0 <= i < |order|
    ensures |Behind(order, places)| == |places|
    decreases |places|
  {
    if places != {} {
      var i := Beside(places, {});
      BehindSize(order, places - {i});
      assert Behind(order, places) == Behind(order, places - {i}) + {order[i] as int};
    }
  }

  lemma {:induction false} AllOf(places: set<int>, n: nat)
    requires forall i: int :: i in places ==> 0 <= i < n
    ensures |places| <= n && (|places| == n <==> forall i :: 0 <= i < n ==> i in places)
  {
    if n == 0 {
      if places != {} { var i := Beside(places, {}); assert false; }
    } else {
      AllOf(places - {n - 1}, n - 1);
      if n - 1 in places {
        assert |places - {n - 1}| == |places| - 1;
      } else {
        assert places - {n - 1} == places;
      }
    }
  }

  lemma {:induction false} SameSize<T>(a: set<T>, b: set<T>)
    requires a <= b && |a| == |b|
    ensures a == b
  {
    assert |b - a| == |b| - |a|;
  }

  // ---- what a multiple choice is worth ----

  lemma {:induction false} WorthOrdered(q: Question, order: seq<nat>, options: seq<int>, awarded: Option<nat>)
    requires WellFormed(q) && Permutation(Positions(q), order)
    ensures ScoreQuestion(q, order, Some(MultipleChoice(options)), awarded)
         == if CorrectPositions(q) != {} && Behind(order, Places(q, options)) == CorrectPositions(q) then 100 * q.marks else 0
  {
    OrderOfOptions(q, order);
    CorrectExist(q);
    if order == [] {
      assert CorrectPositions(q) == {};
    } else {
      assert ToAuthored(order, options) == Behind(order, Places(q, options));
    }
  }

  lemma {:induction false} WorthPlain(q: Question, options: seq<int>, awarded: Option<nat>)
    requires WellFormed(q)
    ensures ScoreQuestion(q, [], Some(MultipleChoice(options)), awarded)
         == if CorrectPositions(q) != {} && !Beyond(q, options) && Places(q, options) == CorrectPositions(q) then 100 * q.marks else 0
  {
    CorrectExist(q);
    if Beyond(q, options) {
      var i: int :| i in options && i >= |q.options|;
      assert i in ToAuthored([], options);
    } else {
      assert ToAuthored([], options) == Places(q, options);
    }
  }

  /** As many as there are: all of them, and so is what is behind them. */
  lemma {:induction false} EveryPlace(q: Question, order: seq<nat>, places: set<int>, correct: set<int>)
    requires WellFormed(q) && Permutation(Positions(q), order) && |places| == |correct| == |q.options|
    requires forall i: int :: i in places || i in correct ==> 0 <= i < |q.options|
    ensures places == correct && Behind(order, places) == correct
  {
    OrderOfOptions(q, order);
    BehindSize(order, places);
    var behind := Behind(order, places);
    assert forall p: int :: p in behind ==> 0 <= p < |q.options|;
    hide Behind;
    AllOf(places, |q.options|);
    AllOf(correct, |q.options|);
    AllOf(behind, |q.options|);
    assert places == correct && behind == correct;
  }

  lemma {:induction false} PlacesExist(q: Question, options: seq<int>)
    requires WellFormed(q)
    ensures forall i: int :: i in Places(q, options) || i in CorrectPositions(q) ==> 0 <= i < |q.options|
  {
    CorrectExist(q);
  }

  lemma {:induction false} BlindMultiple(q: Question, order: seq<nat>, options: seq<int>, awarded: Option<nat>)
    requires WellFormed(q) && Permutation(Positions(q), order) && Blind(q, Some(MultipleChoice(options)))
    ensures ScoreQuestion(q, order, Some(MultipleChoice(options)), awarded) == ScoreQuestion(q, [], Some(MultipleChoice(options)), awarded)
  {
    var correct, places := CorrectPositions(q), Places(q, options);
    hide ScoreQuestion, Behind, Places, CorrectPositions, WellFormed, Permutation, Beyond, Distinct;
    PlacesExist(q, options);
    OrderOfOptions(q, order);
    WorthOrdered(q, order, options, awarded);
    WorthPlain(q, options, awarded);
    BehindSize(order, places);
    if |correct| == |q.options| && |places| == |correct| { EveryPlace(q, order, places, correct); }
  }

  // ---- an order that tells ----

  lemma {:induction false} SwapPermutes(s: seq<nat>, a: nat, b: nat)
    requires a < |s| && b < |s|
    ensures Permutation(s, s[a := s[b]][b := s[a]])
  {
    if a != b {
      assert multiset(s[a := s[b]]) == multiset(s) - multiset{s[a]} + multiset{s[b]};
    } else {
      assert s[a := s[b]][b := s[a]] == s;
    }
  }

  lemma {:induction false} SwapBehind(order: seq<nat>, places: set<int>, a: int, b: int)
    requires 0 <= a < |order| && 0 <= b < |order| && a in places && b !in places
    ensures Behind(order[a := order[b]][b := order[a]], places) == Behind(order, places - {a} + {b})
  {
    var swapped, moved := order[a := order[b]][b := order[a]], places - {a} + {b};
    forall p: int ensures p in Behind(swapped, places) <==> p in Behind(order, moved) {
      if p in Behind(swapped, places) {
        var i: int :| i in places && 0 <= i < |swapped| && swapped[i] == p;
        var j := if i == a then b else i;
        assert j in moved && order[j] == p;
      }
      if p in Behind(order, moved) {
        var i: int :| i in moved && 0 <= i < |order| && order[i] == p;
        var j := if i == b then a else i;
        assert j in places && swapped[j] == p;
      }
    }
  }

  lemma {:induction false} AuthoredBehind(q: Question, places: set<int>)
    requires WellFormed(q) && forall i: int :: i in places ==> 0 <= i < |q.options|
    ensures Permutation(Positions(q), Positions(q)) && Behind(Positions(q), places) == places
  {
    forall p: int ensures p in Behind(Positions(q), places) <==> p in places {
      if p in places { assert Positions(q)[p] == p; }
    }
  }

  lemma {:induction false} Moved(places: set<int>, correct: set<int>, a: int, b: int)
    requires a in places && a !in correct && b in correct && b !in places
    ensures |places - {a} + {b}| == |places| && |places - {a} + {b} - correct| < |places - correct|
  {
    assert places - {a} + {b} - correct == places - correct - {a};
  }

  /** As many places as correct options: some order puts the correct ones there. */
  lemma {:induction false} OrderOnto(q: Question, places: set<int>, correct: set<int>) returns (order: seq<nat>)
    requires WellFormed(q) && |places| == |correct|
    requires forall i: int :: i in places || i in correct ==> 0 <= i < |q.options|
    ensures Permutation(Positions(q), order) && Behind(order, places) == correct
    decreases |places - correct|
  {
    hide *;
    if places <= correct {
      SameSize(places, correct);
      order := Positions(q);
      AuthoredBehind(q, places);
    } else {
      var a := Beside(places, correct);
      NotBigger(places, correct);
      var b := Beside(correct, places);
      Moved(places, correct, a, b);
      var before := OrderOnto(q, places - {a} + {b}, correct);
      OrderOfOptions(q, before);
      SwapPermutes(before, a, b);
      SwapBehind(before, places, a, b);
      order := before[a := before[b]][b := before[a]];
      PermutedAgain(Positions(q), before, order);
    }
  }

  lemma {:induction false} PermutedAgain(a: seq<nat>, b: seq<nat>, c: seq<nat>)
    requires Permutation(a, b) && Permutation(b, c)
    ensures Permutation(a, c)
  {
  }

  lemma {:induction false} NotBigger(a: set<int>, b: set<int>)
    requires |a| == |b| && !(a <= b)
    ensures !(b <= a)
  {
    if b <= a { SameSize(b, a); }
  }

  lemma {:induction false} SwapTells(q: Question, places: set<int>) returns (order: seq<nat>)
    requires WellFormed(q) && places != {} && |places| < |q.options|
    requires forall i: int :: i in places ==> 0 <= i < |q.options|
    ensures Permutation(Positions(q), order) && Behind(order, places) != places
  {
    AllOf(places, |q.options|);
    var a := Beside(places, {});
    var b :| 0 <= b < |q.options| && b !in places;
    order := Positions(q)[a := Positions(q)[b]][b := Positions(q)[a]];
    SwapPermutes(Positions(q), a, b);
    assert order[a] == b;
    assert b in Behind(order, places);
  }

  lemma {:induction false} SeeingMultiple(q: Question, options: seq<int>, awarded: Option<nat>) returns (order: seq<nat>)
    requires WellFormed(q) && !Blind(q, Some(MultipleChoice(options)))
    ensures Permutation(Positions(q), order)
    ensures ScoreQuestion(q, order, Some(MultipleChoice(options)), awarded) != ScoreQuestion(q, [], Some(MultipleChoice(options)), awarded)
  {
    var correct, places := CorrectPositions(q), Places(q, options);
    CorrectExist(q);
    WorthPlain(q, options, awarded);
    assert correct != {} && |places| == |correct|;
    if !Beyond(q, options) && places == correct {
      AllOf(correct, |q.options|);
      order := SwapTells(q, places);
    } else {
      order := OrderOnto(q, places, correct);
    }
    WorthOrdered(q, order, options, awarded);
  }

  lemma {:induction false} WorthSingle(q: Question, order: seq<nat>, i: int, awarded: Option<nat>)
    requires WellFormed(q) && ValidOrder(q, order)
    ensures !(0 <= i < |q.options|) ==> ScoreQuestion(q, order, Some(Single(i)), awarded) == 0
    ensures 0 <= i < |q.options| ==>
              |Shown(q, order)| == |q.options| && Shown(q, order)[i] < |q.options|
              && ScoreQuestion(q, order, Some(Single(i)), awarded) == if q.options[Shown(q, order)[i]].isCorrect then 100 * q.marks else 0
  {
    PresentedFacts(q, order);
    CorrectExist(q);
    if 0 <= i < |q.options| {
      var p := Shown(q, order)[i];
      assert PositionOf(q, PresentedOptions(q, order)[i], p);
      SingleGradedByDisplay(q, order, i, awarded);
    } else {
      assert forall j :: j in [i] <==> j == i;
      if order == [] && i >= 0 { assert i in ToAuthored(order, [i]); }
    }
  }

  lemma {:induction false} SeeingSingle(q: Question, i: int, awarded: Option<nat>) returns (order: seq<nat>)
    requires WellFormed(q) && !Blind(q, Some(Single(i)))
    ensures Permutation(Positions(q), order)
    ensures ScoreQuestion(q, order, Some(Single(i)), awarded) != ScoreQuestion(q, [], Some(Single(i)), awarded)
  {
    var other :| 0 <= other < |q.options| && q.options[other].isCorrect != q.options[i].isCorrect;
    order := Positions(q)[i := Positions(q)[other]][other := Positions(q)[i]];
    SwapPermutes(Positions(q), i, other);
    WorthSingle(q, order, i, awarded);
    WorthSingle(q, [], i, awarded);
  }

  // ---- both ways ----

  lemma {:induction false} BlindScore(q: Question, order: seq<nat>, value: Option<AnswerValue>, awarded: Option<nat>)
    requires WellFormed(q) && Permutation(Positions(q), order) && Blind(q, value)
    ensures ScoreQuestion(q, order, value, awarded) == ScoreQuestion(q, [], value, awarded)
  {
    match value
    case Some(Single(i)) =>
      WorthSingle(q, order, i, awarded);
      WorthSingle(q, [], i, awarded);
    case Some(MultipleChoice(options)) => BlindMultiple(q, order, options, awarded);
    case _ =>
  }

  lemma {:induction false} SeeingScore(q: Question, value: Option<AnswerValue>, awarded: Option<nat>) returns (order: seq<nat>)
    requires WellFormed(q) && !Blind(q, value)
    ensures Permutation(Positions(q), order) && ScoreQuestion(q, order, value, awarded) != ScoreQuestion(q, [], value, awarded)
  {
    match value
    case Some(Single(i)) => order := SeeingSingle(q, i, awarded);
    case Some(MultipleChoice(options)) => order := SeeingMultiple(q, options, awarded);
  }

  /** An answer is worth the same under every order of the options as under none exactly when it is
      blind to it. */
  lemma {:induction false} BlindIff(q: Question, value: Option<AnswerValue>, awarded: Option<nat>)
    requires WellFormed(q)
    ensures Blind(q, value) <==>
              forall order :: Permutation(Positions(q), order) ==>
                ScoreQuestion(q, order, value, awarded) == ScoreQuestion(q, [], value, awarded)
  {
    hide Blind, ScoreQuestion, Permutation, WellFormed;
    if Blind(q, value) {
      forall order | Permutation(Positions(q), order)
        ensures ScoreQuestion(q, order, value, awarded) == ScoreQuestion(q, [], value, awarded)
      {
        BlindScore(q, order, value, awarded);
      }
    } else {
      var order := SeeingScore(q, value, awarded);
    }
  }
}
