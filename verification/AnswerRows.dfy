/** One row of the answers table under saves and flag toggles
    (`save_answer` and `toggle_flag` in backend/app/services/sessions.py). */
module AnswerRows {
  import opened Basics
  import opened Grading

  /** `value` is None for a row that only carries a flag. */
  datatype AnswerRow = AnswerRow(value: Option<AnswerValue>, flagged: bool, clientSeq: int, awarded: Option<nat>)

  /** A write that reached the server while the paper was writable. */
  datatype Delivery = Save(value: AnswerValue, clientSeq: nat) | Flag

  /** A save whose number is positive and not newer than the stored one is discarded. */
  predicate Accepted(row: Option<AnswerRow>, clientSeq: nat) {
    !(clientSeq != 0 && clientSeq <= (if row.Some? then row.value.clientSeq else -1))
  }

  function SaveRow(row: Option<AnswerRow>, value: AnswerValue, clientSeq: nat): Option<AnswerRow> {
    if !Accepted(row, clientSeq) then row
    else
      var existing := if row.Some? then row.value else AnswerRow(None, false, -1, None);
      Some(existing.(value := Some(value), clientSeq := clientSeq))
  }

  function FlagRow(row: Option<AnswerRow>): Option<AnswerRow> {
    if row.None? then Some(AnswerRow(None, true, 0, None))
    else Some(row.value.(flagged := !row.value.flagged))
  }

  function Deliver(row: Option<AnswerRow>, d: Delivery): Option<AnswerRow> {
    match d
    case Save(value, clientSeq) => SaveRow(row, value, clientSeq)
    case Flag => FlagRow(row)
  }

  /** The row after a whole history of deliveries. */
  function DeliverAll(row: Option<AnswerRow>, ds: seq<Delivery>): Option<AnswerRow> {
    if ds == [] then row else Deliver(DeliverAll(row, ds[..|ds| - 1]), ds[|ds| - 1])
  }

  // ---- which save wins, said without replaying the history ----

  predicate ZeroSave(d: Delivery) {
    d.Save? && d.clientSeq == 0
  }

  /** Delivery `k` decides the value: no save after it is numbered zero or higher than it, and
      it is numbered higher than every save before it, back to the latest zero. */
  ghost predicate Wins(ds: seq<Delivery>, k: nat) {
    && k < |ds| && ds[k].Save?
    && (forall j :: k < j < |ds| && ds[j].Save? ==> 0 < ds[j].clientSeq <= ds[k].clientSeq)
    && (forall j :: 0 <= j < k && ds[j].Save? && ds[k].clientSeq <= ds[j].clientSeq ==>
          exists z :: j < z <= k && ZeroSave(ds[z]))
  }

  function FlagCount(ds: seq<Delivery>): nat {
    if ds == [] then 0 else FlagCount(ds[..|ds| - 1]) + if ds[|ds| - 1].Flag? then 1 else 0
  }

  ghost predicate HasSave(ds: seq<Delivery>) {
    exists k :: 0 <= k < |ds| && ds[k].Save?
  }

  /** The stored value and number after any history are those of the one save that wins. */
  lemma {:induction false} WinnerIsStored(ds: seq<Delivery>) returns (k: nat)
    ensures HasSave(ds) ==>
              && Wins(ds, k) && DeliverAll(None, ds).Some?
              && DeliverAll(None, ds).value.value == Some(ds[k].value)
              && DeliverAll(None, ds).value.clientSeq == ds[k].clientSeq
    ensures !HasSave(ds) && DeliverAll(None, ds).Some? ==>
              DeliverAll(None, ds).value.value == None && DeliverAll(None, ds).value.clientSeq == 0
  {
    k := 0;
    if ds != [] {
      var last, init := |ds| - 1, ds[..|ds| - 1];
      k := WinnerIsStored(init);
      assert forall j :: 0 <= j < last ==> init[j] == ds[j];
      if ds[last].Save? && Accepted(DeliverAll(None, init), ds[last].clientSeq) {
        AcceptedSaveWins(ds, k);
        k := last;
      } else {
        if HasSave(init) { RejectedSaveLoses(ds, k); }
        assert HasSave(ds) <==> HasSave(init) by {
          if j :| 0 <= j < |ds| && ds[j].Save? && j < last { assert init[j].Save?; }
        }
      }
    }
  }

  lemma {:induction false} AcceptedSaveWins(ds: seq<Delivery>, k: nat)
    requires ds != [] && ds[|ds| - 1].Save?
    requires HasSave(ds[..|ds| - 1]) ==> Wins(ds[..|ds| - 1], k)
    requires ZeroSave(ds[|ds| - 1]) || (HasSave(ds[..|ds| - 1]) ==> ds[k].clientSeq < ds[|ds| - 1].clientSeq)
    ensures Wins(ds, |ds| - 1)
  {
    var last, init := |ds| - 1, ds[..|ds| - 1];
    forall j | 0 <= j < last && ds[j].Save? && ds[last].clientSeq <= ds[j].clientSeq
      ensures exists z :: j < z <= last && ZeroSave(ds[z])
    {
      if !ZeroSave(ds[last]) {
        assert init[j].Save?;
        assert j < k;
        var z :| j < z <= k && ZeroSave(init[z]);
        assert ZeroSave(ds[z]);
      }
    }
  }

  lemma {:induction false} RejectedSaveLoses(ds: seq<Delivery>, k: nat)
    requires ds != [] && Wins(ds[..|ds| - 1], k)
    requires ds[|ds| - 1].Save? ==> 0 < ds[|ds| - 1].clientSeq <= ds[k].clientSeq
    ensures Wins(ds, k)
  {
    var init := ds[..|ds| - 1];
    forall j | 0 <= j < k && ds[j].Save? && ds[k].clientSeq <= ds[j].clientSeq
      ensures exists z :: j < z <= k && ZeroSave(ds[z])
    {
      assert init[j].Save?;
      var z :| j < z <= k && ZeroSave(init[z]);
      assert ZeroSave(ds[z]);
    }
  }

  lemma {:induction false} WinnerUnique(ds: seq<Delivery>, k: nat, m: nat)
    requires Wins(ds, k) && Wins(ds, m)
    ensures k == m
  {
    if k < m {
      LaterSaveLoses(ds, k, m);
    } else if m < k {
      LaterSaveLoses(ds, m, k);
    }
  }

  lemma {:induction false} LaterSaveLoses(ds: seq<Delivery>, k: nat, m: nat)
    requires Wins(ds, k) && k < m < |ds| && ds[m].Save?
    ensures !Wins(ds, m)
  {
    assert ds[m].clientSeq <= ds[k].clientSeq;
    forall z | k < z <= m ensures !ZeroSave(ds[z]) { }
  }

  /** The flag is the parity of the toggles. */
  lemma {:induction false} FlagIsParity(row: Option<AnswerRow>, ds: seq<Delivery>)
    ensures var r := DeliverAll(row, ds);
            var start := row.Some? && row.value.flagged;
            (r.Some? && r.value.flagged) == if FlagCount(ds) % 2 == 0 then start else !start
  {
    if ds != [] { FlagIsParity(row, ds[..|ds| - 1]); }
  }

  /** Marks already awarded survive. */
  lemma {:induction false} DeliveryKeepsAward(row: Option<AnswerRow>, ds: seq<Delivery>)
    ensures row.Some? ==> DeliverAll(row, ds).Some?
    ensures var r := DeliverAll(row, ds);
            r.Some? ==> r.value.awarded == if row.Some? then row.value.awarded else None
  {
    if ds != [] { DeliveryKeepsAward(row, ds[..|ds| - 1]); }
  }

  // ---- any order, any duplication ----

  /** A client that numbers from one and never reuses a number for another value. */
  ghost predicate ClientNumbers(ds: seq<Delivery>) {
    && (forall i :: 0 <= i < |ds| ==> !ZeroSave(ds[i]))
    && (forall i, j :: 0 <= i < |ds| && 0 <= j < |ds| && ds[i].Save? && ds[j].Save? ==>
          ds[i].clientSeq == ds[j].clientSeq ==> ds[i].value == ds[j].value)
  }

  ghost predicate SameSaves(ds: seq<Delivery>, ds': seq<Delivery>) {
    forall d: Delivery :: d.Save? ==> (d in ds <==> d in ds')
  }

  lemma {:induction false} WinnerIsLargest(ds: seq<Delivery>, k: nat)
    requires Wins(ds, k) && forall i :: 0 <= i < |ds| ==> !ZeroSave(ds[i])
    ensures forall d: Delivery :: d.Save? && d in ds ==> d.clientSeq <= ds[k].clientSeq
  {
    forall d: Delivery | d.Save? && d in ds ensures d.clientSeq <= ds[k].clientSeq {
      var j :| 0 <= j < |ds| && ds[j] == d;
    }
  }

  /** However the same saves are ordered, repeated and interleaved with toggles, the stored
      value is the one with the largest number delivered. */
  lemma {:induction false} LargestNumberStored(ds: seq<Delivery>, d: Delivery)
    requires ClientNumbers(ds) && d.Save? && d in ds
    requires forall e: Delivery :: e.Save? && e in ds ==> e.clientSeq <= d.clientSeq
    ensures DeliverAll(None, ds).Some?
    ensures DeliverAll(None, ds).value.value == Some(d.value) && DeliverAll(None, ds).value.clientSeq == d.clientSeq
  {
    var i :| 0 <= i < |ds| && ds[i] == d;
    assert HasSave(ds);
    var k := WinnerIsStored(ds);
    WinnerIsLargest(ds, k);
    assert ds[k] in ds;
  }

  lemma {:induction false} LargestSave(ds: seq<Delivery>) returns (d: Delivery)
    requires HasSave(ds)
    ensures d.Save? && d in ds && forall e: Delivery :: e.Save? && e in ds ==> e.clientSeq <= d.clientSeq
  {
    var last, init := ds[|ds| - 1], ds[..|ds| - 1];
    assert ds == init + [last];
    if HasSave(init) {
      d := LargestSave(init);
      if last.Save? && last.clientSeq > d.clientSeq { d := last; }
    } else {
      d := last;
      forall e: Delivery | e in init ensures !e.Save? { var j :| 0 <= j < |init| && init[j] == e; }
    }
  }

  /** Two histories with the same saves and the same parity of toggles end in the same row. */
  lemma {:induction false} OrderInvisible(ds: seq<Delivery>, ds': seq<Delivery>)
    requires ClientNumbers(ds) && ClientNumbers(ds') && SameSaves(ds, ds')
    requires HasSave(ds) && FlagCount(ds) % 2 == FlagCount(ds') % 2
    ensures DeliverAll(None, ds) == DeliverAll(None, ds')
  {
    var d := LargestSave(ds);
    assert HasSave(ds') by { var j :| 0 <= j < |ds'| && ds'[j] == d; }
    LargestNumberStored(ds, d);
    LargestNumberStored(ds', d);
    FlagIsParity(None, ds);
    FlagIsParity(None, ds');
    DeliveryKeepsAward(None, ds);
    DeliveryKeepsAward(None, ds');
  }

  /** A save numbered zero is never discarded and forgets the numbers before it, so for such
      clients the order of arrival does matter. */
  lemma {:induction false} ZeroOverwrites(ds: seq<Delivery>, value: AnswerValue)
    ensures DeliverAll(None, ds + [Save(value, 0)]).Some?
    ensures DeliverAll(None, ds + [Save(value, 0)]).value.value == Some(value)
    ensures DeliverAll(None, ds + [Save(value, 0)]).value.clientSeq == 0
  {
    assert (ds + [Save(value, 0)])[..|ds|] == ds;
  }
}
