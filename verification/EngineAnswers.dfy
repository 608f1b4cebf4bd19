/** One answer over a whole run: whatever else the system does, what is stored is what its
    own accepted deliveries make of it. */
module EngineAnswers {
  import opened Basics
  import opened AnswerRows
  import opened Engine
  import opened EngineHistory
  import opened EngineReceipts

  /** The delivery `step` makes to answer `k`, if the paper is writable. */
  function DeliveryOf(w: World, step: Step, k: Key): Option<Delivery> {
    match step
    case SaveStep(s, q, value, clientSeq, now) =>
      if Key(s, q) == k && WriteRefusal(w, s, now).None? then Some(Save(value, clientSeq)) else None
    case FlagStep(s, q, now) =>
      if Key(s, q) == k && WriteRefusal(w, s, now).None? then Some(Flag) else None
    case _ => None
  }

  /** All deliveries made to answer `k` while it was writable, in the order they arrived. */
  function Deliveries(w: World, steps: seq<Step>, k: Key): seq<Delivery> {
    if steps == [] then []
    else
      var init, last := steps[..|steps| - 1], steps[|steps| - 1];
      var d := DeliveryOf(Run(w, init), last, k);
      Deliveries(w, init, k) + if d.Some? then [d.value] else []
  }

  /** What is stored does not depend on marks that were given meanwhile. */
  lemma {:induction false} DeliverContent(a: Option<AnswerRow>, b: Option<AnswerRow>, d: Delivery)
    requires Content(a) == Content(b)
    ensures Content(Deliver(a, d)) == Content(Deliver(b, d))
  {
  }

  lemma {:induction false} DeliverOne(w: World, step: Step, k: Key)
    requires DeliveryOf(w, step, k).Some?
    ensures Get(Next(w, step).answers, k) == Deliver(Get(w.answers, k), DeliveryOf(w, step, k).value)
  {
    hide WriteRefusal;
  }

  lemma {:induction false} StepContent(w: World, step: Step, k: Key)
    ensures Content(Get(Next(w, step).answers, k)) ==
              var d := DeliveryOf(w, step, k);
              if d.Some? then Content(Deliver(Get(w.answers, k), d.value)) else Content(Get(w.answers, k))
  {
    hide Next, Content, Deliver;
    if DeliveryOf(w, step, k).Some? {
      DeliverOne(w, step, k);
    } else if Content(Get(Next(w, step).answers, k)) != Content(Get(w.answers, k)) {
      OnlyWritesInTime(w, step, k);
    }
  }

  /** After any run of any number of candidates, staff and background tasks, answer `k` is what
      its own deliveries, replayed alone, would have stored. */
  lemma {:induction false} RunIsReplay(w: World, steps: seq<Step>, k: Key)
    ensures Content(Get(Run(w, steps).answers, k)) == Content(DeliverAll(Get(w.answers, k), Deliveries(w, steps, k)))
  {
    hide Next, Content, Deliver, DeliveryOf;
    if steps != [] {
      var init, last := steps[..|steps| - 1], steps[|steps| - 1];
      RunIsReplay(w, init, k);
      StepContent(Run(w, init), last, k);
      var before, ds := Get(w.answers, k), Deliveries(w, init, k);
      var d := DeliveryOf(Run(w, init), last, k);
      if d.Some? {
        DeliverContent(Get(Run(w, init).answers, k), DeliverAll(before, ds), d.value);
        assert (ds + [d.value])[..|ds|] == ds;
      } else {
        assert ds + [] == ds;
      }
    }
  }

  /** The client's contract kept, any run ends with the value of the largest number delivered,
      and a flag that is set exactly when it was toggled an odd number of times. */
  lemma {:induction false} RunStoresLargest(w: World, steps: seq<Step>, k: Key, d: Delivery)
    requires k !in w.answers
    requires ClientNumbers(Deliveries(w, steps, k))
    requires d.Save? && d in Deliveries(w, steps, k)
    requires forall e: Delivery :: e.Save? && e in Deliveries(w, steps, k) ==> e.clientSeq <= d.clientSeq
    ensures var answers := Run(w, steps).answers;
            && k in answers && answers[k].value == Some(d.value) && answers[k].clientSeq == d.clientSeq
            && (answers[k].flagged <==> FlagCount(Deliveries(w, steps, k)) % 2 == 1)
  {
    RunIsReplay(w, steps, k);
    LargestNumberStored(Deliveries(w, steps, k), d);
    FlagIsParity(None, Deliveries(w, steps, k));
    hide Run, Deliveries, DeliverAll, ClientNumbers, FlagCount;
  }
}
