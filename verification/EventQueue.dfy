/** The workstation's queue of invigilation events (desktop/core/src/client.rs): a bounded deque
    shared by everything that reports and by every flush that is running. A step runs from one
    await to the next, or holds the queue's lock once. */
module EventQueue {
  import opened Basics

  const PENDING_LIMIT: nat := 256

  /** A held event; `ticket` numbers the events in the order they were put on the queue. */
  datatype Entry = Entry(event: nat, ticket: nat)

  /** What became of one attempt to send: delivered, the server could not be reached, or it
      answered with a refusal. */
  datatype Outcome = Delivered | Unreachable | Refused

  // ---- the client ----

  /** Puts an event at the back; a full queue first loses its oldest. */
  function Enqueued(queue: seq<Entry>, entry: Entry): seq<Entry> {
    (if |queue| >= PENDING_LIMIT then queue[1..] else queue) + [entry]
  }

  /** What one uninterrupted flush gets through: everything up to the first unreachable answer. */
  function Flushed(queue: seq<Entry>, server: Entry -> Outcome): nat
  {
    if queue == [] || server(queue[0]) == Unreachable then 0 else 1 + Flushed(queue[1..], server)
  }

  class LabClient {
    var session: Option<nat>
    var pending: seq<Entry>

    constructor ()
      ensures session == None && pending == []
    {
      session, pending := None, [];
    }

    method Enqueue(entry: Entry)
      modifies this`pending
      ensures pending == Enqueued(old(pending), entry)
    {
      if |pending| >= PENDING_LIMIT {
        pending := pending[1..];
      }
      pending := pending + [entry];
    }

    /** The head of the queue, taken off it. */
    method PopFront() returns (next: Option<Entry>)
      modifies this`pending
      ensures next == if old(pending) == [] then None else Some(old(pending)[0])
      ensures pending == if old(pending) == [] then [] else old(pending)[1..]
    {
      if pending == [] { return None; }
      next := Some(pending[0]);
      pending := pending[1..];
    }

    /** Held until a session is bound, sent at once after that. */
    method Report(entry: Entry, outcome: Outcome) returns (delivered: bool)
      modifies this`pending
      ensures delivered <==> session.Some? && outcome == Delivered
      ensures pending == if session.None? || outcome == Unreachable then Enqueued(old(pending), entry) else old(pending)
    {
      if session.None? {
        Enqueue(entry);
        return false;
      }
      if outcome == Unreachable { Enqueue(entry); }
      return outcome == Delivered;
    }

    /** A flush is to be spawned exactly when this binds a session that was not bound already. */
    method BindSession(s: nat) returns (changed: bool)
      modifies this`session
      ensures session == Some(s) && (changed <==> old(session) != Some(s))
    {
      changed := session != Some(s);
      session := Some(s);
    }

    /** One flush nobody interrupts: it answers for a prefix of the queue, in order, stops at the
        first event the server cannot be reached for, and leaves that one at the head. */
    method FlushPending(server: Entry -> Outcome) returns (acknowledged: seq<Entry>, refused: seq<Entry>)
      modifies this`pending
      ensures session.None? ==> pending == old(pending) && acknowledged == refused == []
      ensures session.Some? ==>
                var n := Flushed(old(pending), server);
                && n <= |old(pending)| && pending == old(pending)[n..]
                && acknowledged == Those(old(pending)[..n], server, Delivered)
                && refused == Those(old(pending)[..n], server, Refused)
    {
      acknowledged, refused := [], [];
      if session.None? { return; }
      ghost var before, done := pending, 0;
      FlushedBound(pending, server);
      NoneThose(before, server);
      hide Those, Flushed;
      while true
        invariant done <= |before| && pending == before[done..]
        invariant Flushed(before, server) == done + Flushed(pending, server) <= |before|
        invariant acknowledged == Those(before[..done], server, Delivered)
        invariant refused == Those(before[..done], server, Refused)
        decreases |pending|
      {
        FlushedNext(pending, server);
        var next := PopFront();
        if next.None? { assert before[..done] == before; return; }
        var event := next.value;
        var outcome := server(event);
        if outcome == Unreachable {
          pending := [event] + pending;
          assert pending == before[done..];
          return;
        }
        assert before[done..][1..] == before[done + 1..];
        ThoseNext(before, done, server, Delivered);
        ThoseNext(before, done, server, Refused);
        if outcome == Refused { refused := refused + [event]; } else { acknowledged := acknowledged + [event]; }
        done := done + 1;
      }
    }

    /** Binding, and the flush it spawns run to its end: the first time a session is bound
        everything held goes out, up to the first unreachable answer; again, nothing does. */
    method Bind(s: nat, server: Entry -> Outcome) returns (acknowledged: seq<Entry>, refused: seq<Entry>)
      modifies this
      ensures session == Some(s)
      ensures var n := if old(session) == Some(s) then 0 else Flushed(old(pending), server);
              && n <= |old(pending)| && pending == old(pending)[n..]
              && acknowledged == Those(old(pending)[..n], server, Delivered)
              && refused == Those(old(pending)[..n], server, Refused)
    {
      acknowledged, refused := [], [];
      var changed := BindSession(s);
      if changed {
        acknowledged, refused := FlushPending(server);
      }
    }
  }

  /** The events of `queue` that got this outcome, in order. */
  function Those(queue: seq<Entry>, server: Entry -> Outcome, outcome: Outcome): seq<Entry> {
    if queue == [] then []
    else
      Those(queue[..|queue| - 1], server, outcome)
      + if server(queue[|queue| - 1]) == outcome then [queue[|queue| - 1]] else []
  }

  lemma {:induction false} NoneThose(queue: seq<Entry>, server: Entry -> Outcome)
    ensures Those(queue[..0], server, Delivered) == Those(queue[..0], server, Refused) == []
  {
  }

  lemma {:induction false} ThoseNext(queue: seq<Entry>, n: nat, server: Entry -> Outcome, outcome: Outcome)
    requires n < |queue|
    ensures Those(queue[..n + 1], server, outcome)
         == Those(queue[..n], server, outcome) + if server(queue[n]) == outcome then [queue[n]] else []
  {
    assert queue[..n + 1][..n] == queue[..n];
  }

  lemma {:induction false} FlushedNext(queue: seq<Entry>, server: Entry -> Outcome)
    ensures Flushed(queue, server) == if queue == [] || server(queue[0]) == Unreachable then 0 else 1 + Flushed(queue[1..], server)
  {
  }

  lemma {:induction false} FlushedBound(queue: seq<Entry>, server: Entry -> Outcome)
    ensures Flushed(queue, server) <= |queue|
  {
    if queue != [] { FlushedBound(queue[1..], server); }
  }

  // ---- everything at once ----

  /** One flush task: spawned, between two events, waiting for the answer to one, or over. */
  datatype Flush = Spawned | Between | Carrying(entry: Entry) | Over

  /** One report: being sent, about to be put on the queue, or settled. */
  datatype Send = Sending(event: nat) | Parking(event: nat) | Settled

  /** `sends` are the reports that have been made. The rest is what has happened so far. */
  datatype State = State(
    session: Option<nat>, queue: seq<Entry>, flushes: seq<Flush>, sends: seq<Send>,
    reported: seq<nat>, acknowledged: seq<nat>, refused: seq<nat>, dropped: seq<nat>, abandoned: seq<nat>,
    flushed: seq<Entry>, tickets: nat, peak: nat)

  const IDLE := State(None, [], [], [], [], [], [], [], [], [], 0, 0)

  datatype Step =
    | Report(event: nat)
    | Park(send: nat)
    | SendDone(send: nat, outcome: Outcome)
    | GiveUp(send: nat)
    | Bind(session: nat)
    | StartFlush(flush: nat)
    | Pop(flush: nat)
    | FlushDone(flush: nat, outcome: Outcome)

  function PutOn(st: State, event: nat): State {
    st.(dropped := if |st.queue| >= PENDING_LIMIT then st.dropped + [st.queue[0].event] else st.dropped,
        queue := Enqueued(st.queue, Entry(event, st.tickets)),
        tickets := st.tickets + 1)
  }

  /** The flushes that have begun and are not over. */
  function Running(flushes: seq<Flush>): nat {
    if flushes == [] then 0
    else Running(flushes[..|flushes| - 1]) + if flushes[|flushes| - 1].Between? || flushes[|flushes| - 1].Carrying? then 1 else 0
  }

  function SetFlush(st: State, i: nat, f: Flush): State
    requires i < |st.flushes|
  {
    st.(flushes := st.flushes[i := f])
  }

  /** A report looks at the session first and takes the queue's lock afterwards; only one that is
      waiting for the server can be given up. A step that cannot be taken now changes nothing. */
  function Next(st: State, step: Step): State {
    match step
    case Report(event) =>
      st.(reported := st.reported + [event], sends := st.sends + [if st.session.None? then Parking(event) else Sending(event)])
    case Park(i) =>
      if i >= |st.sends| || !st.sends[i].Parking? then st
      else PutOn(st.(sends := st.sends[i := Settled]), st.sends[i].event)
    case SendDone(i, outcome) =>
      if i >= |st.sends| || !st.sends[i].Sending? then st
      else
        var event := st.sends[i].event;
        (match outcome
         case Delivered => st.(sends := st.sends[i := Settled], acknowledged := st.acknowledged + [event])
         case Refused => st.(sends := st.sends[i := Settled], refused := st.refused + [event])
         case Unreachable => st.(sends := st.sends[i := Parking(event)]))
    case GiveUp(i) =>
      if i >= |st.sends| || !st.sends[i].Sending? then st
      else st.(sends := st.sends[i := Settled], abandoned := st.abandoned + [st.sends[i].event])
    case Bind(s) =>
      if st.session == Some(s) then st else st.(session := Some(s), flushes := st.flushes + [Spawned])
    case StartFlush(i) =>
      if i >= |st.flushes| || !st.flushes[i].Spawned? then st
      else
        var st' := SetFlush(st, i, Between);
        st'.(peak := if Running(st'.flushes) > st.peak then Running(st'.flushes) else st.peak)
    case Pop(i) =>
      if i >= |st.flushes| || !st.flushes[i].Between? then st
      else if st.queue == [] then SetFlush(st, i, Over)
      else SetFlush(st, i, Carrying(st.queue[0])).(queue := st.queue[1..])
    case FlushDone(i, outcome) =>
      if i >= |st.flushes| || !st.flushes[i].Carrying? then st
      else
        var entry := st.flushes[i].entry;
        (match outcome
         case Delivered =>
           SetFlush(st, i, Between).(acknowledged := st.acknowledged + [entry.event], flushed := st.flushed + [entry])
         case Refused => SetFlush(st, i, Between).(refused := st.refused + [entry.event])
         case Unreachable => SetFlush(st, i, Over).(queue := [entry] + st.queue))
  }

  function Run(st: State, steps: seq<Step>): State {
    if steps == [] then st else Next(Run(st, steps[..|steps| - 1]), steps[|steps| - 1])
  }

  // ---- conservation ----

  function EventsOf(entries: seq<Entry>): (events: seq<nat>)
    ensures |events| == |entries|
  {
    if entries == [] then [] else EventsOf(entries[..|entries| - 1]) + [entries[|entries| - 1].event]
  }

  /** The events flushes are waiting to hear about. */
  function Carried(flushes: seq<Flush>): seq<nat> {
    if flushes == [] then []
    else
      Carried(flushes[..|flushes| - 1])
      + if flushes[|flushes| - 1].Carrying? then [flushes[|flushes| - 1].entry.event] else []
  }

  function UnderWay(sends: seq<Send>): seq<nat> {
    if sends == [] then []
    else UnderWay(sends[..|sends| - 1]) + if sends[|sends| - 1].Settled? then [] else [sends[|sends| - 1].event]
  }

  function Times(events: seq<nat>, e: nat): nat {
    multiset(events)[e]
  }

  function One(x: nat, e: nat): nat {
    if x == e then 1 else 0
  }

  /** How often event `e` is found, over every place an event can be. */
  ghost function Found(st: State, e: nat): nat {
    Times(st.acknowledged, e) + Times(st.refused, e) + Times(st.dropped, e) + Times(st.abandoned, e)
    + Times(EventsOf(st.queue), e) + Times(Carried(st.flushes), e) + Times(UnderWay(st.sends), e)
  }

  ghost predicate Conserved(st: State, e: nat) {
    Found(st, e) == Times(st.reported, e)
  }

  lemma {:induction false} TimesSplit(a: seq<nat>, b: seq<nat>, e: nat)
    ensures Times(a + b, e) == Times(a, e) + Times(b, e)
  {
    assert multiset(a + b) == multiset(a) + multiset(b);
  }

  lemma {:induction false} TimesOne(x: nat, e: nat)
    ensures Times([x], e) == One(x, e)
  {
  }

  lemma {:induction false} TimesMore(a: seq<nat>, x: nat, e: nat)
    ensures Times(a + [x], e) == Times(a, e) + One(x, e)
  {
    TimesSplit(a, [x], e);
    TimesOne(x, e);
    hide Times;
  }

  lemma {:induction false} EventsOfSplit(a: seq<Entry>, b: seq<Entry>)
    ensures EventsOf(a + b) == EventsOf(a) + EventsOf(b)
  {
    if b == [] {
      assert a + b == a;
    } else {
      EventsOfSplit(a, b[..|b| - 1]);
      assert (a + b)[..|a + b| - 1] == a + b[..|b| - 1];
    }
  }

  lemma {:induction false} EventsOfOne(entry: Entry)
    ensures EventsOf([entry]) == [entry.event]
  {
    assert [entry][..0] == [];
  }

  lemma {:induction false} TakenFirst(queue: seq<Entry>, e: nat)
    requires queue != []
    ensures Times(EventsOf(queue), e) == One(queue[0].event, e) + Times(EventsOf(queue[1..]), e)
  {
    EventsOfOne(queue[0]);
    EventsOfSplit([queue[0]], queue[1..]);
    assert queue == [queue[0]] + queue[1..];
    TimesSplit([queue[0].event], EventsOf(queue[1..]), e);
    TimesOne(queue[0].event, e);
    hide Times;
  }

  lemma {:induction false} PutLast(queue: seq<Entry>, entry: Entry, e: nat)
    ensures Times(EventsOf(queue + [entry]), e) == Times(EventsOf(queue), e) + One(entry.event, e)
  {
    EventsOfOne(entry);
    EventsOfSplit(queue, [entry]);
    TimesMore(EventsOf(queue), entry.event, e);
  }

  function Burden(f: Flush, e: nat): nat {
    if f.Carrying? then One(f.entry.event, e) else 0
  }

  lemma {:induction false} CarriedLast(init: seq<Flush>, f: Flush, e: nat)
    ensures Times(Carried(init + [f]), e) == Times(Carried(init), e) + Burden(f, e)
  {
    assert (init + [f])[..|init|] == init;
    if f.Carrying? { TimesMore(Carried(init), f.entry.event, e); } else { assert Carried(init + [f]) == Carried(init); }
    hide Times;
  }

  lemma {:induction false} CarriedUpdate(flushes: seq<Flush>, i: nat, f: Flush, e: nat)
    requires i < |flushes|
    ensures Times(Carried(flushes[i := f]), e) + Burden(flushes[i], e) == Times(Carried(flushes), e) + Burden(f, e)
  {
    hide Carried, Burden, Times;
    var last, init := |flushes| - 1, flushes[..|flushes| - 1];
    assert flushes == init + [flushes[last]];
    CarriedLast(init, flushes[last], e);
    if i == last {
      assert flushes[i := f] == init + [f];
      CarriedLast(init, f, e);
    } else {
      CarriedUpdate(init, i, f, e);
      assert flushes[i := f] == init[i := f] + [flushes[last]];
      CarriedLast(init[i := f], flushes[last], e);
    }
  }

  function Pending(s: Send, e: nat): nat {
    if s.Settled? then 0 else One(s.event, e)
  }

  lemma {:induction false} UnderWayLast(init: seq<Send>, x: Send, e: nat)
    ensures Times(UnderWay(init + [x]), e) == Times(UnderWay(init), e) + Pending(x, e)
  {
    assert (init + [x])[..|init|] == init;
    if x.Settled? { assert UnderWay(init + [x]) == UnderWay(init); } else { TimesMore(UnderWay(init), x.event, e); }
    hide Times;
  }

  lemma {:induction false} UnderWayUpdate(sends: seq<Send>, i: nat, x: Send, e: nat)
    requires i < |sends|
    ensures Times(UnderWay(sends[i := x]), e) + Pending(sends[i], e) == Times(UnderWay(sends), e) + Pending(x, e)
  {
    hide UnderWay, Times, Pending;
    var last, init := |sends| - 1, sends[..|sends| - 1];
    assert sends == init + [sends[last]];
    UnderWayLast(init, sends[last], e);
    if i == last {
      assert sends[i := x] == init + [x];
      UnderWayLast(init, x, e);
    } else {
      UnderWayUpdate(init, i, x, e);
      assert sends[i := x] == init[i := x] + [sends[last]];
      UnderWayLast(init[i := x], sends[last], e);
    }
  }

  lemma {:induction false} PutOnFinds(st: State, event: nat, e: nat)
    ensures Found(PutOn(st, event), e) == Found(st, e) + One(event, e)
  {
    var entry := Entry(event, st.tickets);
    hide Times, EventsOf, Carried, UnderWay, One;
    if |st.queue| >= PENDING_LIMIT {
      TakenFirst(st.queue, e);
      TimesMore(st.dropped, st.queue[0].event, e);
      PutLast(st.queue[1..], entry, e);
    } else {
      PutLast(st.queue, entry, e);
    }
  }

  lemma {:induction false} SetFlushFinds(st: State, i: nat, f: Flush, e: nat)
    requires i < |st.flushes|
    ensures Found(SetFlush(st, i, f), e) + Burden(st.flushes[i], e) == Found(st, e) + Burden(f, e)
  {
    CarriedUpdate(st.flushes, i, f, e);
    hide Carried, Burden, EventsOf, UnderWay, Times;
  }

  lemma {:induction false} SpawnCarriesNothing(flushes: seq<Flush>)
    ensures Carried(flushes + [Spawned]) == Carried(flushes) && Running(flushes + [Spawned]) == Running(flushes)
  {
    assert (flushes + [Spawned])[..|flushes|] == flushes;
  }

  lemma {:induction false} ReportConserves(st: State, event: nat, e: nat)
    requires Conserved(st, e)
    ensures Conserved(Next(st, Report(event)), e)
  {
    TimesMore(st.reported, event, e);
    UnderWayLast(st.sends, if st.session.None? then Parking(event) else Sending(event), e);
    hide Times, EventsOf, Carried, UnderWay, One;
  }

  /** One report's state rewritten. */
  function SetSend(st: State, i: nat, x: Send): State
    requires i < |st.sends|
  {
    st.(sends := st.sends[i := x])
  }

  lemma {:induction false} SetSendFinds(st: State, i: nat, x: Send, e: nat)
    requires i < |st.sends|
    ensures Found(SetSend(st, i, x), e) + Pending(st.sends[i], e) == Found(st, e) + Pending(x, e)
  {
    UnderWayUpdate(st.sends, i, x, e);
    hide UnderWay, Pending, EventsOf, Carried, Times;
  }

  lemma {:induction false} ParkConserves(st: State, i: nat, e: nat)
    requires Conserved(st, e)
    ensures Conserved(Next(st, Park(i)), e)
  {
    hide Found, Times, One, PutOn;
    if i < |st.sends| && st.sends[i].Parking? {
      SetSendFinds(st, i, Settled, e);
      PutOnFinds(SetSend(st, i, Settled), st.sends[i].event, e);
      PutOnReported(SetSend(st, i, Settled), st.sends[i].event);
    }
  }

  lemma {:induction false} MoreAcknowledged(st: State, event: nat, e: nat)
    ensures Found(st.(acknowledged := st.acknowledged + [event]), e) == Found(st, e) + One(event, e)
  {
    TimesMore(st.acknowledged, event, e);
    hide EventsOf, Carried, UnderWay, Times, One;
  }

  lemma {:induction false} MoreAbandoned(st: State, event: nat, e: nat)
    ensures Found(st.(abandoned := st.abandoned + [event]), e) == Found(st, e) + One(event, e)
  {
    TimesMore(st.abandoned, event, e);
    hide EventsOf, Carried, UnderWay, Times, One;
  }

  lemma {:induction false} SendDoneConserves(st: State, i: nat, outcome: Outcome, e: nat)
    requires Conserved(st, e)
    ensures Conserved(Next(st, SendDone(i, outcome)), e)
  {
    hide Found, Times, One;
    if i < |st.sends| && st.sends[i].Sending? {
      var event := st.sends[i].event;
      match outcome
      case Delivered => SetSendFinds(st, i, Settled, e); MoreAcknowledged(SetSend(st, i, Settled), event, e);
      case Refused => SetSendFinds(st, i, Settled, e); RefusedFinds(SetSend(st, i, Settled), event, e);
      case Unreachable => SetSendFinds(st, i, Parking(event), e);
    }
  }

  lemma {:induction false} GiveUpConserves(st: State, i: nat, e: nat)
    requires Conserved(st, e)
    ensures Conserved(Next(st, GiveUp(i)), e)
  {
    hide Found, Times, One;
    if i < |st.sends| && st.sends[i].Sending? {
      SetSendFinds(st, i, Settled, e);
      MoreAbandoned(SetSend(st, i, Settled), st.sends[i].event, e);
    }
  }

  lemma {:induction false} PutOnReported(st: State, event: nat)
    ensures PutOn(st, event).reported == st.reported
  {
  }

  lemma {:induction false} QueueFinds(st: State, queue: seq<Entry>, e: nat)
    ensures Found(st.(queue := queue), e) + Times(EventsOf(st.queue), e) == Found(st, e) + Times(EventsOf(queue), e)
  {
    hide EventsOf, Carried, UnderWay, Times;
  }

  lemma {:induction false} AcknowledgedFinds(st: State, entry: Entry, e: nat)
    ensures Found(st.(acknowledged := st.acknowledged + [entry.event], flushed := st.flushed + [entry]), e)
         == Found(st, e) + One(entry.event, e)
  {
    TimesMore(st.acknowledged, entry.event, e);
    hide EventsOf, Carried, UnderWay, Times, One;
  }

  lemma {:induction false} RefusedFinds(st: State, event: nat, e: nat)
    ensures Found(st.(refused := st.refused + [event]), e) == Found(st, e) + One(event, e)
  {
    TimesMore(st.refused, event, e);
    hide EventsOf, Carried, UnderWay, Times, One;
  }

  lemma {:induction false} PopConserves(st: State, i: nat, e: nat)
    requires Conserved(st, e)
    ensures Conserved(Next(st, Pop(i)), e)
  {
    hide Found, EventsOf, Times, One;
    if i < |st.flushes| && st.flushes[i].Between? {
      if st.queue == [] {
        SetFlushFinds(st, i, Over, e);
      } else {
        var st' := SetFlush(st, i, Carrying(st.queue[0]));
        SetFlushFinds(st, i, Carrying(st.queue[0]), e);
        TakenFirst(st.queue, e);
        QueueFinds(st', st.queue[1..], e);
      }
    }
  }

  lemma {:induction false} PeakFinds(st: State, peak: nat, e: nat)
    ensures Found(st.(peak := peak), e) == Found(st, e)
  {
    hide EventsOf, Carried, UnderWay, Times;
  }

  lemma {:induction false} StartConserves(st: State, i: nat, e: nat)
    requires Conserved(st, e)
    ensures Conserved(Next(st, StartFlush(i)), e)
  {
    hide Found, Times, Running;
    if i < |st.flushes| && st.flushes[i].Spawned? {
      SetFlushFinds(st, i, Between, e);
      PeakFinds(SetFlush(st, i, Between), Next(st, StartFlush(i)).peak, e);
    }
  }

  lemma {:induction false} FlushDoneConserves(st: State, i: nat, outcome: Outcome, e: nat)
    requires Conserved(st, e)
    ensures Conserved(Next(st, FlushDone(i, outcome)), e)
  {
    hide Found, EventsOf, Times, One;
    if i < |st.flushes| && st.flushes[i].Carrying? {
      var entry := st.flushes[i].entry;
      match outcome
      case Delivered =>
        SetFlushFinds(st, i, Between, e);
        AcknowledgedFinds(SetFlush(st, i, Between), entry, e);
      case Refused =>
        SetFlushFinds(st, i, Between, e);
        RefusedFinds(SetFlush(st, i, Between), entry.event, e);
      case Unreachable =>
        SetFlushFinds(st, i, Over, e);
        TakenFirst([entry] + st.queue, e);
        assert ([entry] + st.queue)[1..] == st.queue;
        QueueFinds(SetFlush(st, i, Over), [entry] + st.queue, e);
    }
  }

  lemma {:induction false} BindConserves(st: State, s: nat, e: nat)
    requires Conserved(st, e)
    ensures Conserved(Next(st, Bind(s)), e)
  {
    SpawnCarriesNothing(st.flushes);
    hide Carried, Running, EventsOf, UnderWay, Times;
  }

  lemma {:induction false} NextConserves(st: State, step: Step, e: nat)
    requires Conserved(st, e)
    ensures Conserved(Next(st, step), e)
  {
    hide *;
    match step
    case Report(event) => ReportConserves(st, event, e);
    case Park(i) => ParkConserves(st, i, e);
    case SendDone(i, outcome) => SendDoneConserves(st, i, outcome, e);
    case GiveUp(i) => GiveUpConserves(st, i, e);
    case Bind(s) => BindConserves(st, s, e);
    case StartFlush(i) => StartConserves(st, i, e);
    case Pop(i) => PopConserves(st, i, e);
    case FlushDone(i, outcome) => FlushDoneConserves(st, i, outcome, e);
  }

  /** In every interleaving of any number of reports and flushes, an event is found, over all
      the places it can be (acknowledged, refused, dropped as the oldest, given up on the way out,
      queued, carried by a flush, under way on its own), exactly as often as it was reported:
      reported once, it is in exactly one of them. */
  lemma {:induction false} RunConserves(steps: seq<Step>, e: nat)
    ensures Found(Run(IDLE, steps), e) == Times(Run(IDLE, steps).reported, e)
  {
    hide Next;
    if steps != [] {
      RunConserves(steps[..|steps| - 1], e);
      NextConserves(Run(IDLE, steps[..|steps| - 1]), steps[|steps| - 1], e);
    }
  }

  // ---- the bound ----

  lemma {:induction false} CarriedWithinRunning(flushes: seq<Flush>)
    ensures |Carried(flushes)| <= Running(flushes)
  {
    if flushes != [] { CarriedWithinRunning(flushes[..|flushes| - 1]); }
  }

  predicate IsRunning(f: Flush) {
    f.Between? || f.Carrying?
  }

  lemma {:induction false} RunningUpdate(flushes: seq<Flush>, i: nat, f: Flush)
    requires i < |flushes|
    ensures Running(flushes[i := f]) + (if IsRunning(flushes[i]) then 1 else 0) == Running(flushes) + if IsRunning(f) then 1 else 0
    ensures |Carried(flushes[i := f])| + (if flushes[i].Carrying? then 1 else 0) == |Carried(flushes)| + if f.Carrying? then 1 else 0
  {
    var last, init := |flushes| - 1, flushes[..|flushes| - 1];
    if i == last {
      assert flushes[i := f][..last] == init;
    } else {
      RunningUpdate(init, i, f);
      assert flushes[i := f][..last] == init[i := f];
    }
  }

  ghost predicate Bounded(st: State) {
    && Running(st.flushes) <= st.peak
    && |st.queue| + |Carried(st.flushes)| <= PENDING_LIMIT + st.peak
  }

  lemma {:induction false} PutOnBounded(st: State, event: nat)
    requires Bounded(st)
    ensures Bounded(PutOn(st, event))
  {
    CarriedWithinRunning(st.flushes);
    hide Running, Carried;
  }

  lemma {:induction false} StartBounded(st: State, i: nat)
    requires Bounded(st)
    ensures Bounded(Next(st, StartFlush(i)))
  {
    hide Running, Carried;
    if i < |st.flushes| { RunningUpdate(st.flushes, i, Between); }
  }

  lemma {:induction false} PopBounded(st: State, i: nat)
    requires Bounded(st)
    ensures Bounded(Next(st, Pop(i)))
  {
    hide Running, Carried;
    if i < |st.flushes| { RunningUpdate(st.flushes, i, if st.queue == [] then Over else Carrying(st.queue[0])); }
  }

  lemma {:induction false} FlushDoneBounded(st: State, i: nat, outcome: Outcome)
    requires Bounded(st)
    ensures Bounded(Next(st, FlushDone(i, outcome)))
  {
    hide Running, Carried;
    if i < |st.flushes| { RunningUpdate(st.flushes, i, if outcome == Unreachable then Over else Between); }
  }

  lemma {:induction false} NextBounded(st: State, step: Step)
    requires Bounded(st)
    ensures Bounded(Next(st, step))
  {
    hide Running, Carried;
    match step
    case Park(i) =>
      if i < |st.sends| && st.sends[i].Parking? { PutOnBounded(SetSend(st, i, Settled), st.sends[i].event); }
    case Bind(_) => SpawnCarriesNothing(st.flushes);
    case StartFlush(i) => StartBounded(st, i);
    case Pop(i) => PopBounded(st, i);
    case FlushDone(i, outcome) => FlushDoneBounded(st, i, outcome);
    case _ =>
  }

  /** The queue and what flushes carry never exceed the limit by more than the largest number of
      flushes that ever ran at once. */
  lemma {:induction false} RunBounded(steps: seq<Step>)
    ensures Bounded(Run(IDLE, steps))
  {
    hide Next;
    if steps != [] {
      RunBounded(steps[..|steps| - 1]);
      NextBounded(Run(IDLE, steps[..|steps| - 1]), steps[|steps| - 1]);
    }
  }

  // ---- what is lost ----

  /** Each event reported, and put on the queue before the next. */
  function Reports(events: seq<nat>): seq<Step> {
    if events == [] then []
    else Reports(events[..|events| - 1]) + [Report(events[|events| - 1])] + [Park(|events| - 1)]
  }

  /** How many of `n` events a queue that nobody empties has had to drop. */
  function Overflow(n: nat): nat {
    if n > PENDING_LIMIT then n - PENDING_LIMIT else 0
  }

  lemma {:induction false} EventsOfRest(queue: seq<Entry>)
    requires queue != []
    ensures EventsOf(queue[1..]) == EventsOf(queue)[1..] && EventsOf(queue)[0] == queue[0].event
  {
    EventsOfOne(queue[0]);
    EventsOfSplit([queue[0]], queue[1..]);
    assert queue == [queue[0]] + queue[1..];
  }

  lemma {:induction false} EventsOfMore(queue: seq<Entry>, entry: Entry)
    ensures EventsOf(queue + [entry]) == EventsOf(queue) + [entry.event]
  {
    EventsOfOne(entry);
    EventsOfSplit(queue, [entry]);
  }

  lemma {:induction false} HeldNext(st: State, event: nat)
    requires st.session.None?
    ensures var st' := Next(Next(st, Report(event)), Park(|st.sends|));
            && st'.session.None? && |st'.sends| == |st.sends| + 1
            && EventsOf(st'.queue) == (if |st.queue| >= PENDING_LIMIT then EventsOf(st.queue)[1..] else EventsOf(st.queue)) + [event]
            && st'.dropped == (if |st.queue| >= PENDING_LIMIT then st.dropped + [EventsOf(st.queue)[0]] else st.dropped)
  {
    hide EventsOf;
    if |st.queue| >= PENDING_LIMIT {
      EventsOfRest(st.queue);
      EventsOfMore(st.queue[1..], Entry(event, st.tickets));
    } else {
      EventsOfMore(st.queue, Entry(event, st.tickets));
    }
  }

  lemma {:induction false} NewestShift(init: seq<nat>, last: nat)
    ensures var events, k := init + [last], Overflow(|init|);
            && |init[k..]| <= PENDING_LIMIT
            && events[Overflow(|events|)..] == (if |init[k..]| >= PENDING_LIMIT then init[k..][1..] else init[k..]) + [last]
            && events[..Overflow(|events|)] == if |init[k..]| >= PENDING_LIMIT then init[..k] + [init[k..][0]] else init[..k]
  {
  }

  lemma {:induction false} RunReports(init: seq<nat>, last: nat)
    ensures Run(IDLE, Reports(init + [last])) == Next(Next(Run(IDLE, Reports(init)), Report(last)), Park(|init|))
  {
    hide Next;
    assert (init + [last])[..|init|] == init;
    RunMore(IDLE, Reports(init), Report(last));
    RunMore(IDLE, Reports(init) + [Report(last)], Park(|init|));
  }

  /** While no session is bound, the queue holds the latest events reported, in order, and what
      was dropped is the oldest, in order. */
  lemma {:induction false} HeldAreNewest(events: seq<nat>)
    ensures var st := Run(IDLE, Reports(events));
            && st.session.None? && |st.sends| == |events|
            && st.dropped == events[..Overflow(|events|)]
            && EventsOf(st.queue) == events[Overflow(|events|)..]
  {
    if events != [] {
      var init, last := events[..|events| - 1], events[|events| - 1];
      assert events == init + [last];
      HeldAreNewest(init);
      RunReports(init, last);
      NewestShift(init, last);
      HeldNext(Run(IDLE, Reports(init)), last);
      hide Next, EventsOf, Overflow, Run, Reports;
    }
  }

  // ---- order ----

  function CarriedEntries(flushes: seq<Flush>): seq<Entry> {
    if flushes == [] then []
    else
      CarriedEntries(flushes[..|flushes| - 1])
      + if flushes[|flushes| - 1].Carrying? then [flushes[|flushes| - 1].entry] else []
  }

  ghost predicate Increasing(entries: seq<Entry>) {
    forall i, j :: 0 <= i < j < |entries| ==> entries[i].ticket < entries[j].ticket
  }

  /** What flushes have had acknowledged, what is being carried, and what still waits. */
  function Line(st: State): seq<Entry> {
    st.flushed + CarriedEntries(st.flushes) + st.queue
  }

  /** The line is in the order in which the events were put on the queue. */
  ghost predicate InOrder(st: State) {
    && Increasing(Line(st))
    && forall i :: 0 <= i < |Line(st)| ==> Line(st)[i].ticket < st.tickets
  }

  /** At most one flush has not finished. */
  ghost predicate OneFlush(flushes: seq<Flush>) {
    forall i, j :: 0 <= i < j < |flushes| ==> flushes[i].Over? || flushes[j].Over?
  }

  lemma {:induction false} NothingCarried(flushes: seq<Flush>)
    requires forall i :: 0 <= i < |flushes| ==> !flushes[i].Carrying?
    ensures CarriedEntries(flushes) == []
  {
    if flushes != [] { NothingCarried(flushes[..|flushes| - 1]); }
  }

  /** With one flush at a time, at most one event is carried: the one that flush carries. */
  lemma {:induction false} CarriedByOne(flushes: seq<Flush>, i: nat)
    requires OneFlush(flushes) && i < |flushes| && !flushes[i].Over?
    ensures CarriedEntries(flushes) == if flushes[i].Carrying? then [flushes[i].entry] else []
  {
    var last, init := |flushes| - 1, flushes[..|flushes| - 1];
    if i == last {
      NothingCarried(init);
    } else {
      assert flushes[last].Over?;
      CarriedByOne(init, i);
    }
  }

  lemma {:induction false} FlushSet(flushes: seq<Flush>, i: nat, f: Flush)
    requires OneFlush(flushes) && i < |flushes| && !flushes[i].Over?
    ensures OneFlush(flushes[i := f])
    ensures CarriedEntries(flushes[i := f]) == if f.Carrying? then [f.entry] else []
  {
    if f.Over? {
      var after := flushes[i := f];
      forall j | 0 <= j < |after| ensures !after[j].Carrying? { }
      NothingCarried(after);
    } else {
      CarriedByOne(flushes[i := f], i);
    }
  }

  /** Taking one entry out of an increasing line leaves it increasing. */
  lemma {:induction false} TakenOut(front: seq<Entry>, entry: Entry, back: seq<Entry>, bound: nat)
    requires Increasing(front + [entry] + back)
    requires forall i :: 0 <= i < |front + [entry] + back| ==> (front + [entry] + back)[i].ticket < bound
    ensures Increasing(front + back)
    ensures forall i :: 0 <= i < |front + back| ==> (front + back)[i].ticket < bound
  {
    var whole, rest := front + [entry] + back, front + back;
    forall i | 0 <= i < |rest| ensures rest[i] == whole[if i < |front| then i else i + 1] { }
  }

  lemma {:induction false} PutOnInOrder(st: State, event: nat)
    requires InOrder(st)
    ensures InOrder(PutOn(st, event))
  {
    var carried, entry := CarriedEntries(st.flushes), Entry(event, st.tickets);
    hide CarriedEntries;
    if |st.queue| >= PENDING_LIMIT {
      assert Line(st) == (st.flushed + carried) + [st.queue[0]] + st.queue[1..];
      TakenOut(st.flushed + carried, st.queue[0], st.queue[1..], st.tickets);
      assert Line(PutOn(st, event)) == (st.flushed + carried) + st.queue[1..] + [entry];
    } else {
      assert Line(PutOn(st, event)) == Line(st) + [entry];
    }
  }

  lemma {:induction false} StartFlushes(st: State, i: nat)
    requires i < |st.flushes| && st.flushes[i].Spawned?
    ensures var st' := Next(st, StartFlush(i));
            st'.flushes == st.flushes[i := Between] && st'.tickets == st.tickets && st'.queue == st.queue && st'.flushed == st.flushed
  {
    hide Running;
  }

  lemma {:induction false} StartNothing(st: State, i: nat)
    requires !(i < |st.flushes| && st.flushes[i].Spawned?)
    ensures Next(st, StartFlush(i)) == st
  {
  }

  lemma {:induction false} LineOf(st: State, st': State)
    requires st'.flushed == st.flushed && st'.queue == st.queue && CarriedEntries(st'.flushes) == CarriedEntries(st.flushes)
    ensures Line(st') == Line(st)
  {
    hide CarriedEntries;
  }

  lemma {:induction false} StartInOrder(st: State, i: nat)
    requires InOrder(st) && OneFlush(st.flushes)
    ensures InOrder(Next(st, StartFlush(i))) && OneFlush(Next(st, StartFlush(i)).flushes)
  {
    hide *;
    if i < |st.flushes| && st.flushes[i].Spawned? {
      CarriedByOne(st.flushes, i);
      FlushSet(st.flushes, i, Between);
      StartFlushes(st, i);
      LineOf(st, Next(st, StartFlush(i)));
      SameLine(st, Next(st, StartFlush(i)));
    } else {
      StartNothing(st, i);
    }
  }

  lemma {:induction false} SameLine(st: State, st': State)
    requires InOrder(st) && Line(st') == Line(st) && st'.tickets == st.tickets
    ensures InOrder(st')
  {
    hide Line, Increasing;
  }

  /** What taking the head of the queue, or finding it empty, makes of the flush. */
  lemma {:induction false} PopFlush(st: State, i: nat)
    requires i < |st.flushes| && st.flushes[i].Between?
    ensures Next(st, Pop(i)).tickets == st.tickets
    ensures Next(st, Pop(i)).flushes == st.flushes[i := if st.queue == [] then Over else Carrying(st.queue[0])]
  {
  }

  lemma {:induction false} PopNothing(st: State, i: nat)
    requires !(i < |st.flushes| && st.flushes[i].Between?)
    ensures Next(st, Pop(i)) == st
  {
  }

  lemma {:induction false} PopInOrder(st: State, i: nat)
    requires InOrder(st) && OneFlush(st.flushes)
    ensures InOrder(Next(st, Pop(i))) && OneFlush(Next(st, Pop(i)).flushes)
  {
    hide *;
    if i < |st.flushes| && st.flushes[i].Between? {
      CarriedByOne(st.flushes, i);
      FlushSet(st.flushes, i, Over);
      if st.queue != [] { FlushSet(st.flushes, i, Carrying(st.queue[0])); }
      PopFlush(st, i);
      PopLine(st, i);
      SameLine(st, Next(st, Pop(i)));
    } else {
      PopNothing(st, i);
    }
  }

  lemma {:induction false} FlushDoneInOrder(st: State, i: nat, outcome: Outcome)
    requires InOrder(st) && OneFlush(st.flushes)
    ensures InOrder(Next(st, FlushDone(i, outcome))) && OneFlush(Next(st, FlushDone(i, outcome)).flushes)
  {
    if i < |st.flushes| && st.flushes[i].Carrying? {
      CarriedByOne(st.flushes, i);
      FlushSet(st.flushes, i, Between);
      FlushSet(st.flushes, i, Over);
      hide OneFlush, CarriedEntries, InOrder;
      FlushDoneLine(st, i, outcome);
    }
  }

  lemma {:induction false} PopLine(st: State, i: nat)
    requires i < |st.flushes| && CarriedEntries(st.flushes) == if st.flushes[i].Carrying? then [st.flushes[i].entry] else []
    requires st.queue != [] ==> CarriedEntries(st.flushes[i := Carrying(st.queue[0])]) == [st.queue[0]]
    requires CarriedEntries(st.flushes[i := Over]) == []
    ensures Line(Next(st, Pop(i))) == Line(st)
  {
    hide CarriedEntries;
  }

  lemma {:induction false} FlushDoneLine(st: State, i: nat, outcome: Outcome)
    requires InOrder(st) && i < |st.flushes| && st.flushes[i].Carrying?
    requires CarriedEntries(st.flushes) == [st.flushes[i].entry]
    requires CarriedEntries(st.flushes[i := Between]) == [] && CarriedEntries(st.flushes[i := Over]) == []
    ensures InOrder(Next(st, FlushDone(i, outcome)))
  {
    hide CarriedEntries;
    var entry, st' := st.flushes[i].entry, Next(st, FlushDone(i, outcome));
    match outcome
    case Delivered => assert Line(st') == Line(st);
    case Unreachable => assert Line(st') == Line(st);
    case Refused =>
      assert Line(st) == st.flushed + [entry] + st.queue;
      TakenOut(st.flushed, entry, st.queue, st.tickets);
      assert Line(st') == st.flushed + st.queue;
  }

  /** The step does not start a second flush beside one that has not finished. */
  predicate Alone(st: State, step: Step) {
    step.Bind? && st.session != Some(step.session) ==> forall i :: 0 <= i < |st.flushes| ==> st.flushes[i].Over?
  }

  lemma {:induction false} ParkInOrder(st: State, i: nat)
    requires InOrder(st) && OneFlush(st.flushes)
    ensures InOrder(Next(st, Park(i))) && OneFlush(Next(st, Park(i)).flushes)
  {
    hide OneFlush, CarriedEntries, Increasing;
    if i < |st.sends| && st.sends[i].Parking? {
      var settled := SetSend(st, i, Settled);
      LineOf(st, settled);
      SameLine(st, settled);
      PutOnInOrder(settled, st.sends[i].event);
    }
  }

  lemma {:induction false} BindInOrder(st: State, s: nat)
    requires InOrder(st) && OneFlush(st.flushes) && Alone(st, Bind(s))
    ensures InOrder(Next(st, Bind(s))) && OneFlush(Next(st, Bind(s)).flushes)
  {
    SpawnCarriesNoEntry(st.flushes);
    hide CarriedEntries, Increasing, InOrder, Line;
    LineOf(st, Next(st, Bind(s)));
    SameLine(st, Next(st, Bind(s)));
  }

  /** A report made, settled or given up touches neither the queue nor a flush. */
  lemma {:induction false} SendInOrder(st: State, step: Step)
    requires InOrder(st) && OneFlush(st.flushes) && (step.Report? || step.SendDone? || step.GiveUp?)
    ensures InOrder(Next(st, step)) && OneFlush(Next(st, step).flushes)
  {
    hide CarriedEntries, Increasing, InOrder, OneFlush, Line;
    LineOf(st, Next(st, step));
    SameLine(st, Next(st, step));
  }

  lemma {:induction false} NextInOrder(st: State, step: Step)
    requires InOrder(st) && OneFlush(st.flushes) && Alone(st, step)
    ensures InOrder(Next(st, step)) && OneFlush(Next(st, step).flushes)
  {
    hide *;
    match step
    case Park(i) => ParkInOrder(st, i);
    case Bind(s) => BindInOrder(st, s);
    case StartFlush(i) => StartInOrder(st, i);
    case Pop(i) => PopInOrder(st, i);
    case FlushDone(i, outcome) => FlushDoneInOrder(st, i, outcome);
    case _ => SendInOrder(st, step);
  }

  lemma {:induction false} SpawnCarriesNoEntry(flushes: seq<Flush>)
    ensures CarriedEntries(flushes + [Spawned]) == CarriedEntries(flushes)
  {
    assert (flushes + [Spawned])[..|flushes|] == flushes;
  }

  ghost predicate AloneRun(st: State, steps: seq<Step>) {
    forall i :: 0 <= i < |steps| ==> Alone(Run(st, steps[..i]), steps[i])
  }

  lemma {:induction false} StaysInOrder(st: State, steps: seq<Step>)
    requires InOrder(st) && OneFlush(st.flushes) && AloneRun(st, steps)
    ensures InOrder(Run(st, steps)) && OneFlush(Run(st, steps).flushes)
  {
    if steps != [] {
      var init, last := steps[..|steps| - 1], steps[|steps| - 1];
      hide Alone, Next, InOrder, OneFlush;
      assert AloneRun(st, init) by {
        forall i | 0 <= i < |init| ensures Alone(Run(st, init[..i]), init[i]) {
          assert init[..i] == steps[..i] && init[i] == steps[i];
        }
      }
      StaysInOrder(st, init);
      assert steps[..|steps| - 1] == init;
      NextInOrder(Run(st, init), last);
    }
  }

  /** One flush at a time, and whatever else reports, fails or overflows meanwhile: events that
      were queued are acknowledged in the order they were queued, and so are those still waiting
      to be. */
  lemma {:induction false} AcknowledgedInOrder(steps: seq<Step>)
    requires AloneRun(IDLE, steps)
    ensures InOrder(Run(IDLE, steps)) && OneFlush(Run(IDLE, steps).flushes)
  {
    hide Run, AloneRun;
    StaysInOrder(IDLE, steps);
  }

  // ---- more than one flush ----

  lemma {:induction false} RunMore(st: State, steps: seq<Step>, step: Step)
    ensures Run(st, steps + [step]) == Next(Run(st, steps), step)
  {
    assert (steps + [step])[..|steps|] == steps;
  }

  lemma {:induction false} RunSplit(st: State, a: seq<Step>, b: seq<Step>)
    ensures Run(st, a + b) == Run(Run(st, a), b)
  {
    hide Next;
    if b == [] {
      assert a + b == a;
    } else {
      RunSplit(st, a, b[..|b| - 1]);
      assert (a + b)[..|a + b| - 1] == a + b[..|b| - 1];
    }
  }

  lemma {:induction false} RunOne(st: State, step: Step)
    ensures Run(st, [step]) == Next(st, step)
  {
    assert [step][..0] == [];
  }

  lemma {:induction false} RunTwo(st: State, a: Step, b: Step)
    ensures Run(st, [a, b]) == Next(Next(st, a), b)
  {
    RunOne(st, a);
    RunMore(st, [a], b);
    assert [a] + [b] == [a, b];
    hide Next, Run;
  }

  /** Two flushes can put two events back in the wrong order: each carries one, and both find the
      server gone. */
  lemma {:induction false} TwoFlushesSwap(st: State, i: nat, j: nat, a: Entry, b: Entry)
    requires i < |st.flushes| && j < |st.flushes| && i != j
    requires st.flushes[i] == Carrying(a) && st.flushes[j] == Carrying(b) && a.ticket < b.ticket
    ensures var st' := Run(st, [FlushDone(i, Unreachable), FlushDone(j, Unreachable)]);
            st'.queue == [b, a] + st.queue && !InOrder(st')
  {
    RunTwo(st, FlushDone(i, Unreachable), FlushDone(j, Unreachable));
    hide Run;
    var st' := Next(Next(st, FlushDone(i, Unreachable)), FlushDone(j, Unreachable));
    var k := |st'.flushed + CarriedEntries(st'.flushes)|;
    assert Line(st')[k] == b && Line(st')[k + 1] == a;
  }

  /** An unfinished flush can come to stand between two events, the queue untouched. */
  lemma {:induction false} MakeReady(st: State, i: nat) returns (steps: seq<Step>)
    requires i < |st.flushes| && !st.flushes[i].Over?
    ensures Run(st, steps).queue == st.queue && Run(st, steps).flushes == st.flushes[i := Between]
    ensures NoBind(steps)
  {
    if st.flushes[i].Between? {
      steps := [];
      assert st.flushes[i := Between] == st.flushes;
    } else {
      steps := [if st.flushes[i].Spawned? then StartFlush(i) else FlushDone(i, Delivered)];
      RunOne(st, steps[0]);
      hide Run, Running;
    }
  }

  predicate NoBind(steps: seq<Step>) {
    forall k :: 0 <= k < |steps| ==> !steps[k].Bind?
  }

  lemma {:induction false} MakeBothReady(st: State, i: nat, j: nat) returns (steps: seq<Step>)
    requires i < |st.flushes| && j < |st.flushes| && i != j && !st.flushes[i].Over? && !st.flushes[j].Over?
    ensures Run(st, steps).queue == st.queue && Run(st, steps).flushes == st.flushes[i := Between][j := Between]
    ensures NoBind(steps)
  {
    hide Run;
    var first := MakeReady(st, i);
    var second := MakeReady(Run(st, first), j);
    steps := first + second;
    RunSplit(st, first, second);
  }

  lemma {:induction false} PopBoth(st: State, i: nat, j: nat)
    requires i < |st.flushes| && j < |st.flushes| && i != j && st.flushes[i].Between? && st.flushes[j].Between?
    requires |st.queue| >= 2
    ensures Run(st, [Pop(i), Pop(j)]).flushes == st.flushes[i := Carrying(st.queue[0])][j := Carrying(st.queue[1])]
  {
    RunTwo(st, Pop(i), Pop(j));
    hide Run;
  }

  /** Whenever two flushes have not finished and two events wait in order, the order can be lost
      without anything else happening. */
  lemma {:induction false} TwoFlushesBreakOrder(st: State, i: nat, j: nat) returns (steps: seq<Step>)
    requires i < |st.flushes| && j < |st.flushes| && i != j && !st.flushes[i].Over? && !st.flushes[j].Over?
    requires |st.queue| >= 2 && st.queue[0].ticket < st.queue[1].ticket
    ensures NoBind(steps) && !InOrder(Run(st, steps))
  {
    hide Run, InOrder;
    var ready := MakeBothReady(st, i, j);
    var pops, fails := [Pop(i), Pop(j)], [FlushDone(i, Unreachable), FlushDone(j, Unreachable)];
    PopBoth(Run(st, ready), i, j);
    TwoFlushesSwap(Run(Run(st, ready), pops), i, j, st.queue[0], st.queue[1]);
    steps := ready + pops + fails;
    RunSplit(st, ready, pops);
    RunSplit(st, ready + pops, fails);
  }

  lemma {:induction false} NoBindIsAlone(st: State, steps: seq<Step>)
    requires NoBind(steps)
    ensures AloneRun(st, steps)
  {
    hide Run;
  }

  /** A report that finds nobody listening, and is put on the queue. */
  lemma {:induction false} OneMoreQueued(st: State) returns (steps: seq<Step>)
    requires InOrder(st)
    ensures NoBind(steps) && InOrder(Run(st, steps)) && Run(st, steps).flushes == st.flushes
    ensures |Run(st, steps).queue| == if |st.queue| >= PENDING_LIMIT then |st.queue| else |st.queue| + 1
  {
    var n := |st.sends|;
    var told := Next(st, Report(0));
    var waiting := if st.session.None? then told else Next(told, SendDone(n, Unreachable));
    assert n < |waiting.sends| && waiting.sends[n] == Parking(0);
    assert Line(waiting) == Line(st) && waiting.tickets == st.tickets;
    PutOnInOrder(SetSend(waiting, n, Settled), 0);
    steps := (if st.session.None? then [Report(0)] else [Report(0), SendDone(n, Unreachable)]) + [Park(n)];
    if st.session.None? { RunOne(st, Report(0)); } else { RunTwo(st, Report(0), SendDone(n, Unreachable)); }
    RunMore(st, if st.session.None? then [Report(0)] else [Report(0), SendDone(n, Unreachable)], Park(n));
    hide Run, InOrder, CarriedEntries;
    assert Run(st, steps) == PutOn(SetSend(waiting, n, Settled), 0);
  }

  lemma {:induction false} TwoMoreQueued(st: State) returns (steps: seq<Step>)
    requires InOrder(st)
    ensures NoBind(steps) && InOrder(Run(st, steps)) && Run(st, steps).flushes == st.flushes && |Run(st, steps).queue| >= 2
  {
    hide Run, InOrder;
    var first := OneMoreQueued(st);
    var second := OneMoreQueued(Run(st, first));
    steps := first + second;
    RunSplit(st, first, second);
  }

  /** So one flush at a time is what order needs, and all it needs: from any moment at which the
      line is in order, what is already running, and new reports, can lose the order exactly when
      more than one flush has not finished. */
  lemma {:induction false} OrderCanBreakIff(st: State)
    requires InOrder(st)
    ensures (exists steps :: NoBind(steps) && !InOrder(Run(st, steps))) <==> !OneFlush(st.flushes)
  {
    if OneFlush(st.flushes) {
      forall steps | NoBind(steps) ensures InOrder(Run(st, steps)) {
        NoBindIsAlone(st, steps);
        hide Run, InOrder, OneFlush, AloneRun;
        StaysInOrder(st, steps);
      }
    } else {
      var i, j :| 0 <= i < j < |st.flushes| && !st.flushes[i].Over? && !st.flushes[j].Over?;
      hide Run, InOrder;
      var more := TwoMoreQueued(st);
      QueueInOrder(Run(st, more));
      var steps := TwoFlushesBreakOrder(Run(st, more), i, j);
      RunSplit(st, more, steps);
      assert NoBind(more + steps);
    }
  }

  lemma {:induction false} QueueInOrder(st: State)
    requires InOrder(st) && |st.queue| >= 2
    ensures st.queue[0].ticket < st.queue[1].ticket
  {
    var k := |st.flushed + CarriedEntries(st.flushes)|;
    hide CarriedEntries;
    assert Line(st)[k] == st.queue[0] && Line(st)[k + 1] == st.queue[1];
  }

  const TWO_HELD := State(None, [Entry(0, 0), Entry(1, 1)], [], [Settled, Settled], [0, 1], [], [], [], [], [], 2, 0)

  lemma {:induction false} TwoReported()
    ensures Run(IDLE, Reports([0, 1])) == TWO_HELD
  {
    var none: seq<nat> := [];
    assert none + [0] == [0] && [0] + [1] == [0, 1];
    RunReports(none, 0);
    RunReports([0], 1);
    hide Run;
    NothingRun();
    FirstHeld();
    SecondHeld();
  }

  lemma {:induction false} NothingRun()
    ensures Run(IDLE, Reports([])) == IDLE
  {
  }

  const ONE_HELD := State(None, [Entry(0, 0)], [], [Settled], [0], [], [], [], [], [], 1, 0)

  lemma {:induction false} FirstHeld()
    ensures Next(Next(IDLE, Report(0)), Park(0)) == ONE_HELD
  {
    assert Next(IDLE, Report(0)).sends == [Parking(0)];
  }

  lemma {:induction false} SecondHeld()
    ensures Next(Next(ONE_HELD, Report(1)), Park(1)) == TWO_HELD
  {
    assert Next(ONE_HELD, Report(1)).sends == [Settled, Parking(1)];
  }

  lemma {:induction false} BoundTwice()
    ensures var st := Next(Next(TWO_HELD, Bind(7)), Bind(8));
            && st.flushes == [Spawned, Spawned] && st.queue == [Entry(0, 0), Entry(1, 1)]
            && st.tickets == 2 && st.flushed == []
  {
  }

  lemma {:induction false} TwoWaiting(st: State)
    requires st.flushes == [Spawned, Spawned] && st.queue == [Entry(0, 0), Entry(1, 1)] && st.tickets == 2 && st.flushed == []
    ensures InOrder(st) && !OneFlush(st.flushes)
  {
    NothingCarried(st.flushes);
    hide CarriedEntries;
    assert Line(st) == [Entry(0, 0), Entry(1, 1)];
    assert !st.flushes[0].Over? && !st.flushes[1].Over?;
  }

  /** Such a moment is reached: two events held, then bound to one candidate and, before the flush
      that spawns has finished, to the next. */
  lemma {:induction false} TwoFlushesHappen()
    ensures var st := Run(IDLE, Reports([0, 1]) + [Bind(7), Bind(8)]);
            InOrder(st) && |st.queue| >= 2 && !OneFlush(st.flushes)
  {
    TwoReported();
    RunSplit(IDLE, Reports([0, 1]), [Bind(7), Bind(8)]);
    RunTwo(TWO_HELD, Bind(7), Bind(8));
    BoundTwice();
    hide *;
    TwoWaiting(Next(Next(TWO_HELD, Bind(7)), Bind(8)));
  }
}
