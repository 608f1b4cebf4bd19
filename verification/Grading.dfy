/** Grading a paper through its shuffle (backend/app/domain/paper.py). Scores are exact
    hundredths of a mark. */
module Grading {
  import opened Basics
  import opened Paper

  /** What a candidate sends; option numbers are places in the list shown to that candidate. */
  datatype AnswerValue =
    | Single(option: int)
    | MultipleChoice(options: seq<int>)
    | TextAnswer(text: string)
    | CodeAnswer(source: string)

  // ---- what the candidate sees, and how an answer is translated back ----

  function InsertOption(o: AuthoredOption, sorted: seq<AuthoredOption>): seq<AuthoredOption> {
    if sorted == [] then [o]
    else if o.position <= sorted[0].position then [o] + sorted
    else [sorted[0]] + InsertOption(o, sorted[1..])
  }

  function SortOptions(options: seq<AuthoredOption>): seq<AuthoredOption> {
    if options == [] then [] else InsertOption(options[0], SortOptions(options[1..]))
  }

  /** The option a dictionary keyed by position holds: the last one written there. */
  function AtPosition(options: seq<AuthoredOption>, position: nat): Option<AuthoredOption> {
    if options == [] then None
    else if options[|options| - 1].position == position then Some(options[|options| - 1])
    else AtPosition(options[..|options| - 1], position)
  }

  /** `presented_options`; an empty order is the same as none. */
  function PresentedOptions(q: Question, order: seq<nat>): seq<AuthoredOption> {
    if order == [] then SortOptions(q.options) else PresentedFrom(q, order)
  }

  function PresentedFrom(q: Question, order: seq<nat>): seq<AuthoredOption> {
    if order == [] then []
    else
      var found := AtPosition(q.options, order[|order| - 1]);
      PresentedFrom(q, order[..|order| - 1]) + if found.Some? then [found.value] else []
  }

  /** `to_authored_positions`: out of range is dropped when an order is stored, and only
      negative numbers are dropped when none is. */
  function ToAuthored(order: seq<nat>, chosen: seq<int>): set<int> {
    if order == [] then set index | index in chosen && index >= 0
    else set index | index in chosen && 0 <= index < |order| :: order[index]
  }

  function CorrectPositions(q: Question): set<int> {
    set i | 0 <= i < |q.options| && q.options[i].isCorrect :: q.options[i].position
  }

  /** `score_question`: the answer's own kind decides how it is scored. */
  function ScoreQuestion(q: Question, order: seq<nat>, value: Option<AnswerValue>, awarded: Option<nat>): nat {
    match value
    case None => 0
    case Some(Single(option)) =>
      var chosen := ToAuthored(order, [option]);
      if chosen != {} && chosen <= CorrectPositions(q) then 100 * q.marks else 0
    case Some(MultipleChoice(options)) =>
      if ToAuthored(order, options) == CorrectPositions(q) && CorrectPositions(q) != {} then 100 * q.marks else 0
    case Some(TextAnswer(_)) => if awarded.Some? then awarded.value else 0
    case Some(CodeAnswer(_)) => if awarded.Some? then awarded.value else 0
  }

  // ---- the shuffle cannot be seen by grading ----

  ghost predicate ValidOrder(q: Question, order: seq<nat>) {
    order == [] || Permutation(Positions(q), order)
  }

  lemma {:induction false} PositionsDistinct(q: Question)
    requires WellFormed(q)
    ensures Distinct(Positions(q))
  {
  }

  lemma {:induction false} AtPositionFound(options: seq<AuthoredOption>, i: nat)
    requires i < |options| && forall m :: 0 <= m < |options| ==> options[m].position == m
    ensures AtPosition(options, i) == Some(options[i])
  {
    if i < |options| - 1 { AtPositionFound(options[..|options| - 1], i); }
  }

  lemma {:induction false} PresentedFromFacts(q: Question, order: seq<nat>)
    requires WellFormed(q) && forall i :: 0 <= i < |order| ==> order[i] < |q.options|
    ensures |PresentedFrom(q, order)| == |order|
    ensures forall i :: 0 <= i < |order| ==> PresentedFrom(q, order)[i] == q.options[order[i]]
  {
    if order != [] {
      PresentedFromFacts(q, order[..|order| - 1]);
      AtPositionFound(q.options, order[|order| - 1]);
    }
  }

  lemma {:induction false} SortedAlready(options: seq<AuthoredOption>)
    requires forall i, j :: 0 <= i < j < |options| ==> options[i].position <= options[j].position
    ensures SortOptions(options) == options
  {
    if options != [] { SortedAlready(options[1..]); }
  }

  /** The authored position behind each place of the list a candidate sees. */
  function Shown(q: Question, order: seq<nat>): seq<nat> {
    if order == [] then Positions(q) else order
  }

  /** What stands at each place, and that every option stands somewhere. */
  lemma {:induction false} PresentedFacts(q: Question, order: seq<nat>)
    requires WellFormed(q) && ValidOrder(q, order)
    ensures |PresentedOptions(q, order)| == |Shown(q, order)| == |q.options|
    ensures forall i :: 0 <= i < |q.options| ==>
              PositionOf(q, PresentedOptions(q, order)[i], Shown(q, order)[i])
    ensures Distinct(Shown(q, order))
    ensures forall p :: 0 <= p < |q.options| ==> p in Shown(q, order)
  {
    PositionsDistinct(q);
    forall p | 0 <= p < |q.options| ensures p in Positions(q) { assert Positions(q)[p] == p; }
    forall p | p in Positions(q) ensures p < |q.options| { }
    if order == [] {
      SortedAlready(q.options);
    } else {
      PermutationKeepsDistinct(Positions(q), order);
      forall i | 0 <= i < |order| ensures order[i] < |q.options| { assert order[i] in order; }
      PresentedFromFacts(q, order);
    }
  }

  predicate InRange(q: Question, indices: seq<int>) {
    forall i :: i in indices ==> 0 <= i < |q.options|
  }

  /** The options on screen at the places a candidate picked. */
  ghost function Displayed(q: Question, order: seq<nat>, indices: seq<int>): set<AuthoredOption> {
    set i | i in indices && 0 <= i < |PresentedOptions(q, order)| :: PresentedOptions(q, order)[i]
  }

  ghost function CorrectOptions(q: Question): set<AuthoredOption> {
    set i | 0 <= i < |q.options| && q.options[i].isCorrect :: q.options[i]
  }

  ghost predicate PositionOf(q: Question, o: AuthoredOption, p: nat) {
    p < |q.options| && q.options[p] == o && o.position == p
  }

  /** Translating back gives exactly the authored positions of what was on screen. */
  lemma {:induction false} TranslationIsDisplay(q: Question, order: seq<nat>, indices: seq<int>)
    requires WellFormed(q) && ValidOrder(q, order) && InRange(q, indices)
    ensures ToAuthored(order, indices) == set o | o in Displayed(q, order, indices) :: o.position
    ensures forall o :: o in Displayed(q, order, indices) ==> o in q.options
  {
    PresentedFacts(q, order);
    hide PresentedOptions, WellFormed, ValidOrder;
    var shown, presented := Shown(q, order), PresentedOptions(q, order);
    forall p | p in ToAuthored(order, indices) ensures exists o :: o in Displayed(q, order, indices) && o.position == p {
      var i :| i in indices && 0 <= i < |q.options| && shown[i] == p;
      assert presented[i] in Displayed(q, order, indices) && PositionOf(q, presented[i], p);
    }
    forall o | o in Displayed(q, order, indices) ensures o.position in ToAuthored(order, indices) && o in q.options {
      var i :| i in indices && 0 <= i < |presented| && presented[i] == o;
      assert PositionOf(q, o, shown[i]);
    }
  }

  lemma {:induction false} SameOptionsSamePositions(q: Question, a: set<AuthoredOption>)
    requires WellFormed(q) && forall o :: o in a ==> o in q.options
    ensures (set o | o in a :: o.position) == CorrectPositions(q) <==> a == CorrectOptions(q)
    ensures CorrectPositions(q) == {} <==> CorrectOptions(q) == {}
  {
    var positions := set o | o in a :: o.position;
    if positions == CorrectPositions(q) {
      forall o ensures o in a <==> o in CorrectOptions(q) {
        if o in a {
          assert o.position in positions;
          var i :| 0 <= i < |q.options| && q.options[i] == o;
          var j :| 0 <= j < |q.options| && q.options[j].isCorrect && q.options[j].position == o.position;
        }
        if o in CorrectOptions(q) {
          var i :| 0 <= i < |q.options| && q.options[i].isCorrect && q.options[i] == o;
          assert o.position in CorrectPositions(q);
          var o' :| o' in a && o'.position == o.position;
          var j :| 0 <= j < |q.options| && q.options[j] == o';
        }
      }
    }
    if a == CorrectOptions(q) {
      forall p ensures p in positions <==> p in CorrectPositions(q) {
        if p in CorrectPositions(q) {
          var i :| 0 <= i < |q.options| && q.options[i].isCorrect && q.options[i].position == p;
          assert q.options[i] in a;
        }
      }
    }
    if o :| o in CorrectOptions(q) { assert o.position in CorrectPositions(q); }
    if p :| p in CorrectPositions(q) {
      var i :| 0 <= i < |q.options| && q.options[i].isCorrect && q.options[i].position == p;
      assert q.options[i] in CorrectOptions(q);
    }
  }

  lemma {:induction false} OnePick(q: Question, order: seq<nat>, i: nat)
    requires WellFormed(q) && i < |q.options| && |Shown(q, order)| == |q.options|
    ensures ToAuthored(order, [i]) == {Shown(q, order)[i] as int}
  {
    assert i in [i] && forall j :: j in [i] ==> j == i;
    if order == [] { assert Positions(q)[i] == i; }
  }

  lemma {:induction false} CorrectPosition(q: Question, p: nat)
    requires WellFormed(q)
    ensures p in CorrectPositions(q) <==> p < |q.options| && q.options[p].isCorrect
  {
    if p < |q.options| { assert q.options[p].position == p; }
  }

  lemma {:induction false} SingleWorth(q: Question, order: seq<nat>, i: int, p: int, awarded: Option<nat>)
    requires ToAuthored(order, [i]) == {p}
    ensures ScoreQuestion(q, order, Some(Single(i)), awarded) == if p in CorrectPositions(q) then 100 * q.marks else 0
  {
    hide ToAuthored, CorrectPositions;
  }

  /** A single choice earns the marks exactly when the option on screen at that place is a correct one. */
  lemma {:induction false} SingleGradedByDisplay(q: Question, order: seq<nat>, i: nat, awarded: Option<nat>)
    requires WellFormed(q) && ValidOrder(q, order) && i < |q.options|
    ensures i < |PresentedOptions(q, order)|
    ensures ScoreQuestion(q, order, Some(Single(i)), awarded)
         == if PresentedOptions(q, order)[i].isCorrect then 100 * q.marks else 0
  {
    hide PresentedOptions, Shown, ScoreQuestion, ToAuthored, CorrectPositions, WellFormed, ValidOrder;
    PresentedFacts(q, order);
    var p := Shown(q, order)[i];
    assert PositionOf(q, PresentedOptions(q, order)[i], p);
    OnePick(q, order, i);
    CorrectPosition(q, p);
    SingleWorth(q, order, i, p, awarded);
  }

  /** A multiple choice earns the marks exactly when the options on screen at the picked
      places are the correct ones, all of them and no other, and there are some. */
  lemma {:induction false} MultipleGradedByDisplay(q: Question, order: seq<nat>, indices: seq<int>, awarded: Option<nat>)
    requires WellFormed(q) && ValidOrder(q, order) && InRange(q, indices)
    ensures ScoreQuestion(q, order, Some(MultipleChoice(indices)), awarded)
         == if Displayed(q, order, indices) == CorrectOptions(q) != {} then 100 * q.marks else 0
  {
    TranslationIsDisplay(q, order, indices);
    SameOptionsSamePositions(q, Displayed(q, order, indices));
  }

  predicate SameKind(a: AnswerValue, b: AnswerValue) {
    a.Single? == b.Single? && a.MultipleChoice? == b.MultipleChoice?
  }

  function Picked(value: AnswerValue): seq<int> {
    match value
    case Single(option) => [option]
    case MultipleChoice(options) => options
    case _ => []
  }

  /** Two candidates who were shown the options differently, and picked what on their own
      screens were the same options, get the same marks. The unshuffled paper is the case
      of an empty order. */
  lemma {:induction false} ShuffleInvisible(q: Question, order: seq<nat>, order': seq<nat>,
                                            value: AnswerValue, value': AnswerValue, awarded: Option<nat>)
    requires WellFormed(q) && ValidOrder(q, order) && ValidOrder(q, order')
    requires SameKind(value, value') && InRange(q, Picked(value)) && InRange(q, Picked(value'))
    requires Displayed(q, order, Picked(value)) == Displayed(q, order', Picked(value'))
    ensures ScoreQuestion(q, order, Some(value), awarded) == ScoreQuestion(q, order', Some(value'), awarded)
  {
    TranslationIsDisplay(q, order, Picked(value));
    TranslationIsDisplay(q, order', Picked(value'));
  }

  /** The place on the unshuffled paper: the authored position behind it, or none. */
  function Unshuffled(order: seq<nat>, index: int): int {
    if 0 <= index < |order| then order[index] else -1
  }

  /** The answer on the unshuffled paper that means the same. */
  function AsAuthored(order: seq<nat>, value: AnswerValue): AnswerValue {
    match value
    case Single(option) => Single(Unshuffled(order, option))
    case MultipleChoice(options) => MultipleChoice(seq(|options|, k requires 0 <= k < |options| => Unshuffled(order, options[k])))
    case _ => value
  }

  lemma {:induction false} UnshuffledPicks(order: seq<nat>, value: AnswerValue)
    requires order != []
    ensures ToAuthored(order, Picked(value)) == ToAuthored([], Picked(AsAuthored(order, value)))
  {
    var picks, translated := Picked(value), Picked(AsAuthored(order, value));
    assert |translated| == |picks| && forall k :: 0 <= k < |picks| ==> translated[k] == Unshuffled(order, picks[k]);
    hide Picked, AsAuthored;
    forall p ensures p in ToAuthored(order, picks) <==> p in ToAuthored([], translated) {
      if p in ToAuthored(order, picks) {
        var i :| i in picks && 0 <= i < |order| && order[i] == p;
        var k :| 0 <= k < |picks| && picks[k] == i;
        assert translated[k] == p;
      }
      if p in ToAuthored([], translated) {
        var k :| 0 <= k < |translated| && translated[k] == p;
        assert picks[k] in picks;
      }
    }
  }

  /** Grading any answer through a stored order is grading, on the authored paper, the answer that
      means the same; places that do not exist stay ones that do not. */
  lemma {:induction false} GradeAsAuthored(q: Question, order: seq<nat>, value: AnswerValue, awarded: Option<nat>)
    requires order != []
    ensures ScoreQuestion(q, order, Some(value), awarded) == ScoreQuestion(q, [], Some(AsAuthored(order, value)), awarded)
  {
    UnshuffledPicks(order, value);
    hide ToAuthored, CorrectPositions;
  }

  /** Exactly the correct options on screen are picked. */
  ghost predicate PicksTheCorrect(q: Question, order: seq<nat>, indices: seq<int>) {
    && |PresentedOptions(q, order)| == |q.options|
    && forall i :: 0 <= i < |q.options| ==> (i in indices <==> PresentedOptions(q, order)[i].isCorrect)
  }

  lemma {:induction false} CorrectPickedThenDisplayed(q: Question, order: seq<nat>, indices: seq<int>)
    requires WellFormed(q) && ValidOrder(q, order) && PicksTheCorrect(q, order, indices)
    ensures Displayed(q, order, indices) == CorrectOptions(q)
  {
    PresentedFacts(q, order);
    hide PresentedOptions, WellFormed, ValidOrder;
    var shown, presented := Shown(q, order), PresentedOptions(q, order);
    forall o | o in Displayed(q, order, indices) ensures o in CorrectOptions(q) {
      var i :| i in indices && 0 <= i < |presented| && presented[i] == o;
      assert PositionOf(q, o, shown[i]);
    }
    forall o | o in CorrectOptions(q) ensures o in Displayed(q, order, indices) {
      var p :| 0 <= p < |q.options| && q.options[p].isCorrect && q.options[p] == o;
      assert p in shown;
      var i :| 0 <= i < |shown| && shown[i] == p;
      assert PositionOf(q, presented[i], p);
    }
  }

  lemma {:induction false} CorrectDisplayedThenPicked(q: Question, order: seq<nat>, indices: seq<int>)
    requires WellFormed(q) && ValidOrder(q, order) && Displayed(q, order, indices) == CorrectOptions(q)
    ensures PicksTheCorrect(q, order, indices)
  {
    PresentedFacts(q, order);
    hide PresentedOptions, WellFormed, ValidOrder;
    var shown, presented := Shown(q, order), PresentedOptions(q, order);
    forall i | 0 <= i < |q.options| ensures i in indices <==> presented[i].isCorrect {
      assert PositionOf(q, presented[i], shown[i]);
      if i in indices { assert presented[i] in Displayed(q, order, indices); }
      if presented[i].isCorrect {
        assert presented[i] in CorrectOptions(q);
        var j :| j in indices && 0 <= j < |presented| && presented[j] == presented[i];
        assert PositionOf(q, presented[j], shown[j]);
      }
    }
  }

  /** Picking the displayed correct options, in any order and however often, earns full marks;
      no other in-range selection does. */
  lemma {:induction false} FullMarksIffAllCorrectPicked(q: Question, order: seq<nat>, indices: seq<int>, awarded: Option<nat>)
    requires WellFormed(q) && ValidOrder(q, order) && InRange(q, indices) && CorrectPositions(q) != {}
    ensures ScoreQuestion(q, order, Some(MultipleChoice(indices)), awarded) == 100 * q.marks
       <==> PicksTheCorrect(q, order, indices)
  {
    MultipleGradedByDisplay(q, order, indices, awarded);
    SameOptionsSamePositions(q, {});
    if PicksTheCorrect(q, order, indices) { CorrectPickedThenDisplayed(q, order, indices); }
    hide PicksTheCorrect, Displayed, CorrectOptions, CorrectPositions, ScoreQuestion;
    if Displayed(q, order, indices) == CorrectOptions(q) { CorrectDisplayedThenPicked(q, order, indices); }
  }

  // ---- out of range ----

  function Below(indices: seq<int>, n: nat): seq<int> {
    if indices == [] then []
    else (if 0 <= indices[0] < n then [indices[0]] else []) + Below(indices[1..], n)
  }

  lemma {:induction false} BelowMembers(indices: seq<int>, n: nat)
    ensures forall i :: i in Below(indices, n) <==> i in indices && 0 <= i < n
  {
    if indices != [] {
      BelowMembers(indices[1..], n);
      assert indices == [indices[0]] + indices[1..];
    }
  }

  /** The places picked, beyond the list and without those. */
  lemma {:induction false} BelowTranslated(order: seq<nat>, indices: seq<int>, n: nat)
    ensures |order| == n && order != [] ==> ToAuthored(order, indices) == ToAuthored(order, Below(indices, n))
    ensures (forall i :: i in indices ==> i < n) ==> ToAuthored([], indices) == ToAuthored([], Below(indices, n))
  {
    BelowMembers(indices, n);
  }

  /** A place beyond the options is a position nothing correct has. */
  lemma {:induction false} BeyondIsWrong(q: Question, indices: seq<int>, i: int)
    requires WellFormed(q) && i in indices && i >= |q.options|
    ensures ToAuthored([], indices) != CorrectPositions(q)
  {
    assert i in ToAuthored([], indices);
    assert i !in CorrectPositions(q);
  }

  /** A stored order drops places that do not exist, so they never change a score. Without a
      stored order they are kept: exactly then, a selection that would otherwise be right is
      marked wrong for naming one. */
  lemma {:induction false} OutOfRange(q: Question, order: seq<nat>, indices: seq<int>, awarded: Option<nat>)
    requires WellFormed(q) && ValidOrder(q, order) && order != []
    ensures ScoreQuestion(q, order, Some(MultipleChoice(indices)), awarded)
         == ScoreQuestion(q, order, Some(MultipleChoice(Below(indices, |q.options|))), awarded)
    ensures ScoreQuestion(q, [], Some(MultipleChoice(indices)), awarded)
         == (if exists i :: i in indices && i >= |q.options| then 0
             else ScoreQuestion(q, [], Some(MultipleChoice(Below(indices, |q.options|))), awarded))
  {
    var n := |q.options|;
    PresentedFacts(q, order);
    assert |order| == n;
    BelowTranslated(order, indices, n);
    if i :| i in indices && i >= n { BeyondIsWrong(q, indices, i); }
    hide ToAuthored, CorrectPositions, WellFormed, PresentedOptions, Below, ValidOrder;
  }
}
