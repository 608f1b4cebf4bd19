/** Seat allocation (backend/app/domain/seating.py). */
module Seating {
  import opened Basics

  datatype Workstation = Workstation(id: nat, machineId: string, position: nat)

  datatype SeatAssignment = SeatAssignment(studentId: nat, computerId: Option<nat>, machineId: Option<string>)
  {
    predicate IsSeated() { computerId.Some? }
  }

  function SeatAt(student: nat, w: Workstation): SeatAssignment {
    SeatAssignment(student, Some(w.id), Some(w.machineId))
  }

  function Seatless(student: nat): SeatAssignment {
    SeatAssignment(student, None, None)
  }

  function Insert(w: Workstation, sorted: seq<Workstation>): seq<Workstation> {
    if sorted == [] then [w]
    else if w.position <= sorted[0].position then [w] + sorted
    else [sorted[0]] + Insert(w, sorted[1..])
  }

  /** `sorted(workstations, key=position)`; equal positions keep their order. */
  function SortByPosition(ws: seq<Workstation>): seq<Workstation> {
    if ws == [] then [] else Insert(ws[0], SortByPosition(ws[1..]))
  }

  function FreeOf(ws: seq<Workstation>, occupied: set<nat>): seq<Workstation> {
    if ws == [] then []
    else (if ws[0].id in occupied then [] else [ws[0]]) + FreeOf(ws[1..], occupied)
  }

  /** The machines in the order the queue hands them out. */
  function Queue(ws: seq<Workstation>, occupied: set<nat>): seq<Workstation> {
    FreeOf(SortByPosition(ws), occupied)
  }

  /** The enrolled candidates without a session, in enrolment order. */
  function ToSeat(enrolled: seq<nat>, seated: set<nat>): seq<nat> {
    if enrolled == [] then []
    else
      ToSeat(enrolled[..|enrolled| - 1], seated)
      + if enrolled[|enrolled| - 1] in seated then [] else [enrolled[|enrolled| - 1]]
  }

  function Allocate(enrolled: seq<nat>, ws: seq<Workstation>, occupied: set<nat>, seated: set<nat>)
    : (chart: seq<SeatAssignment>)
  {
    var todo, free := ToSeat(enrolled, seated), Queue(ws, occupied);
    seq(|todo|, i requires 0 <= i < |todo| => if i < |free| then SeatAt(todo[i], free[i]) else Seatless(todo[i]))
  }

  /** The loop of `allocate_seats`: candidates in enrolment order, each taking the next
      machine the queue still has. */
  method AllocateSeats(enrolled: seq<nat>, ws: seq<Workstation>, occupied: set<nat>, seated: set<nat>)
    returns (assignments: seq<SeatAssignment>)
    ensures assignments == Allocate(enrolled, ws, occupied, seated)
  {
    var free := Queue(ws, occupied);
    var taken := 0;
    assignments := [];
    for i := 0 to |enrolled|
      invariant assignments == Allocate(enrolled[..i], ws, occupied, seated)
      invariant taken == if |assignments| < |free| then |assignments| else |free|
    {
      assert enrolled[..i + 1][..i] == enrolled[..i];
      var student := enrolled[i];
      if student !in seated {
        if taken < |free| {
          assignments := assignments + [SeatAt(student, free[taken])];
          taken := taken + 1;
        } else {
          assignments := assignments + [Seatless(student)];
        }
      }
    }
    assert enrolled[..|enrolled|] == enrolled;
  }

  function Unseated(assignments: seq<SeatAssignment>): seq<SeatAssignment> {
    if assignments == [] then []
    else (if assignments[0].IsSeated() then [] else [assignments[0]]) + Unseated(assignments[1..])
  }

  function CapacityShortfall(enrolled: nat, workstations: nat): nat {
    if enrolled > workstations then enrolled - workstations else 0
  }

  // ---- what a seating chart has to be, said without sorting or queues ----

  /** No two machines of the lab share an id or a position (both are unique columns). */
  ghost predicate LabWellFormed(lab: set<Workstation>) {
    forall v, w :: v in lab && w in lab && (v.id == w.id || v.position == w.position) ==> v == w
  }

  ghost predicate IsFree(w: Workstation, lab: set<Workstation>, occupied: set<nat>) {
    w in lab && w.id !in occupied
  }

  /** `chart[i]` seats its candidate at `w`. */
  ghost predicate Uses(chart: seq<SeatAssignment>, i: int, w: Workstation) {
    0 <= i < |chart| && chart[i] == SeatAt(chart[i].studentId, w)
  }

  /** Every seat is a free machine, taken in increasing position; a candidate goes without
      only when nothing is left, and no free machine before a used one is passed over. */
  ghost predicate Chart(chart: seq<SeatAssignment>, todo: seq<nat>, lab: set<Workstation>, occupied: set<nat>) {
    && |chart| == |todo|
    && (forall i :: 0 <= i < |chart| ==> chart[i].studentId == todo[i])
    && (forall i :: 0 <= i < |chart| ==>
          chart[i] == Seatless(todo[i]) || exists w :: IsFree(w, lab, occupied) && Uses(chart, i, w))
    && (forall i, j, v, w :: 0 <= i < j && Uses(chart, i, v) && Uses(chart, j, w) && v in lab && w in lab ==>
          v.position < w.position)
    && (forall i, j :: 0 <= i < j < |chart| && !chart[i].IsSeated() ==> !chart[j].IsSeated())
    && (forall w :: IsFree(w, lab, occupied) && (forall k :: !Uses(chart, k, w)) ==>
          && (forall i :: 0 <= i < |chart| ==> chart[i].IsSeated())
          && (forall i, v :: Uses(chart, i, v) && v in lab ==> v.position < w.position))
  }

  // ---- the queue ----

  ghost predicate ByPosition(ws: seq<Workstation>) {
    forall i, j :: 0 <= i < j < |ws| ==> ws[i].position <= ws[j].position
  }

  lemma {:induction false} InsertStep(w: Workstation, sorted: seq<Workstation>)
    ensures Insert(w, sorted) == if sorted == [] || w.position <= sorted[0].position then [w] + sorted
                                 else [sorted[0]] + Insert(w, sorted[1..])
  {
  }

  lemma {:induction false} InFrontCounts(w: Workstation, rest: seq<Workstation>)
    ensures multiset([w] + rest) == multiset{w} + multiset(rest)
  {
  }

  lemma {:induction false} HeadAndTail(ws: seq<Workstation>)
    requires ws != []
    ensures ws == [ws[0]] + ws[1..]
  {
  }

  lemma {:induction false} InsertMembers(w: Workstation, sorted: seq<Workstation>)
    ensures multiset(Insert(w, sorted)) == multiset(sorted) + multiset{w}
  {
    hide *;
    InsertStep(w, sorted);
    if sorted == [] || w.position <= sorted[0].position {
      InFrontCounts(w, sorted);
    } else {
      InsertMembers(w, sorted[1..]);
      HeadAndTail(sorted);
      InFrontCounts(sorted[0], sorted[1..]);
      InFrontCounts(sorted[0], Insert(w, sorted[1..]));
    }
  }

  lemma {:induction false} InsertSorted(w: Workstation, sorted: seq<Workstation>)
    requires ByPosition(sorted)
    ensures ByPosition(Insert(w, sorted))
  {
    if sorted != [] && w.position > sorted[0].position {
      InsertSorted(w, sorted[1..]);
      InsertMembers(w, sorted[1..]);
      var rest := Insert(w, sorted[1..]);
      forall j | 0 <= j < |rest| ensures sorted[0].position <= rest[j].position {
        assert rest[j] in multiset(rest);
      }
    }
  }

  lemma {:induction false} SortFacts(ws: seq<Workstation>)
    ensures Permutation(ws, SortByPosition(ws)) && ByPosition(SortByPosition(ws))
  {
    if ws != [] {
      SortFacts(ws[1..]);
      InsertMembers(ws[0], SortByPosition(ws[1..]));
      InsertSorted(ws[0], SortByPosition(ws[1..]));
      assert ws == [ws[0]] + ws[1..];
    }
  }

  ghost predicate Ascending(ws: seq<Workstation>) {
    forall i, j :: 0 <= i < j < |ws| ==> ws[i].position < ws[j].position
  }

  lemma {:induction false} InFront(w: Workstation, rest: seq<Workstation>)
    requires Ascending(rest) && forall v :: v in rest ==> w.position < v.position
    ensures Ascending([w] + rest)
  {
  }

  lemma {:induction false} AscendingTail(ws: seq<Workstation>)
    requires Ascending(ws) && ws != []
    ensures Ascending(ws[1..]) && forall v :: v in ws[1..] ==> ws[0].position < v.position
  {
  }

  lemma {:induction false} FreeStep(ws: seq<Workstation>, occupied: set<nat>)
    requires ws != []
    ensures ws[0].id in occupied ==> FreeOf(ws, occupied) == FreeOf(ws[1..], occupied)
    ensures ws[0].id !in occupied ==> FreeOf(ws, occupied) == [ws[0]] + FreeOf(ws[1..], occupied)
  {
  }

  lemma {:induction false} FreeMember(ws: seq<Workstation>, occupied: set<nat>, w: Workstation)
    ensures w in FreeOf(ws, occupied) <==> w in ws && w.id !in occupied
  {
    if ws != [] {
      FreeMember(ws[1..], occupied, w);
      FreeStep(ws, occupied);
      hide FreeOf;
      assert ws == [ws[0]] + ws[1..];
    }
  }

  lemma {:induction false} FreeOrdered(ws: seq<Workstation>, occupied: set<nat>)
    requires Ascending(ws)
    ensures Ascending(FreeOf(ws, occupied))
  {
    if ws != [] {
      var first, rest := ws[0], FreeOf(ws[1..], occupied);
      AscendingTail(ws);
      FreeStep(ws, occupied);
      hide FreeOf, Ascending;
      FreeOrdered(ws[1..], occupied);
      forall v | v in rest ensures first.position < v.position { FreeMember(ws[1..], occupied, v); }
      InFront(first, rest);
    }
  }

  ghost function LabOf(ws: seq<Workstation>): set<Workstation> {
    set w | w in ws
  }

  lemma {:induction false} QueueFacts(ws: seq<Workstation>, occupied: set<nat>)
    requires Distinct(ws) && LabWellFormed(LabOf(ws))
    ensures var r := Queue(ws, occupied);
            && (forall w :: w in r <==> IsFree(w, LabOf(ws), occupied))
            && forall i, j :: 0 <= i < j < |r| ==> r[i].position < r[j].position
  {
    SortFacts(ws);
    var sorted := SortByPosition(ws);
    PermutationKeepsDistinct(ws, sorted);
    forall i, j | 0 <= i < j < |sorted| ensures sorted[i].position < sorted[j].position {
      assert sorted[i] in LabOf(ws) && sorted[j] in LabOf(ws);
    }
    FreeOrdered(sorted, occupied);
    forall w ensures w in Queue(ws, occupied) <==> IsFree(w, LabOf(ws), occupied) { FreeMember(sorted, occupied, w); }
  }

  // ---- main results ----

  /** Candidates take the machines of `free` one by one, until there are none. */
  ghost predicate Placed(chart: seq<SeatAssignment>, todo: seq<nat>, free: seq<Workstation>) {
    && |chart| == |todo|
    && forall i :: 0 <= i < |chart| ==> chart[i] == if i < |free| then SeatAt(todo[i], free[i]) else Seatless(todo[i])
  }

  /** The free machines of the lab, in increasing position. */
  ghost predicate FreeInOrder(free: seq<Workstation>, lab: set<Workstation>, occupied: set<nat>) {
    && LabWellFormed(lab)
    && (forall w :: w in free <==> IsFree(w, lab, occupied))
    && forall i, j :: 0 <= i < j < |free| ==> free[i].position < free[j].position
  }

  lemma {:induction false} UsesItsOwn(chart: seq<SeatAssignment>, todo: seq<nat>, free: seq<Workstation>,
                                      lab: set<Workstation>, occupied: set<nat>, i: int, v: Workstation)
    requires Placed(chart, todo, free) && FreeInOrder(free, lab, occupied) && Uses(chart, i, v) && v in lab
    ensures 0 <= i < |free| && v == free[i]
  {
    if 0 <= i < |free| { assert free[i] in free; }
  }

  lemma {:induction false} EachHasPlace(chart: seq<SeatAssignment>, todo: seq<nat>, free: seq<Workstation>,
                                        lab: set<Workstation>, occupied: set<nat>, i: nat)
    requires Placed(chart, todo, free) && FreeInOrder(free, lab, occupied) && i < |chart|
    ensures chart[i].studentId == todo[i]
    ensures chart[i] == Seatless(todo[i]) || exists w :: IsFree(w, lab, occupied) && Uses(chart, i, w)
    ensures chart[i].IsSeated() <==> i < |free|
  {
    if i < |free| {
      assert free[i] in free;
      assert Uses(chart, i, free[i]);
    }
  }

  lemma {:induction false} PlacedInOrder(chart: seq<SeatAssignment>, todo: seq<nat>, free: seq<Workstation>,
                                         lab: set<Workstation>, occupied: set<nat>, i: int, j: int, v: Workstation, w: Workstation)
    requires Placed(chart, todo, free) && FreeInOrder(free, lab, occupied)
    requires 0 <= i < j && Uses(chart, i, v) && Uses(chart, j, w) && v in lab && w in lab
    ensures v.position < w.position
  {
    UsesItsOwn(chart, todo, free, lab, occupied, i, v);
    UsesItsOwn(chart, todo, free, lab, occupied, j, w);
    hide Uses, IsFree, Placed, LabWellFormed;
  }

  /** A free machine nobody uses is beyond the end of the chart. */
  lemma {:induction false} LeftOver(chart: seq<SeatAssignment>, todo: seq<nat>, free: seq<Workstation>,
                                    lab: set<Workstation>, occupied: set<nat>, w: Workstation) returns (k: nat)
    requires Placed(chart, todo, free) && FreeInOrder(free, lab, occupied)
    requires IsFree(w, lab, occupied) && forall k :: !Uses(chart, k, w)
    ensures |chart| <= k < |free| && free[k] == w
  {
    k :| 0 <= k < |free| && free[k] == w;
    assert !Uses(chart, k, w);
  }

  lemma {:induction false} LeftOverIsLater(chart: seq<SeatAssignment>, todo: seq<nat>, free: seq<Workstation>,
                                           lab: set<Workstation>, occupied: set<nat>, w: Workstation)
    requires Placed(chart, todo, free) && FreeInOrder(free, lab, occupied)
    requires IsFree(w, lab, occupied) && forall k :: !Uses(chart, k, w)
    ensures forall i :: 0 <= i < |chart| ==> chart[i].IsSeated()
    ensures forall i, v :: Uses(chart, i, v) && v in lab ==> v.position < w.position
  {
    var k := LeftOver(chart, todo, free, lab, occupied, w);
    forall i | 0 <= i < |chart| ensures chart[i].IsSeated() { EachHasPlace(chart, todo, free, lab, occupied, i); }
    hide Placed, IsFree, LabWellFormed;
    forall i, v | Uses(chart, i, v) && v in lab ensures v.position < w.position {
      UsesItsOwn(chart, todo, free, lab, occupied, i, v);
      assert i < |chart|;
    }
  }

  lemma {:induction false} PlacedIsChart(chart: seq<SeatAssignment>, todo: seq<nat>, free: seq<Workstation>,
                                         lab: set<Workstation>, occupied: set<nat>)
    requires Placed(chart, todo, free) && FreeInOrder(free, lab, occupied)
    ensures Chart(chart, todo, lab, occupied)
  {
    assert |chart| == |todo|;
    hide Placed, FreeInOrder, IsFree, Uses;
    forall i | 0 <= i < |chart|
      ensures chart[i].studentId == todo[i]
      ensures chart[i] == Seatless(todo[i]) || exists w :: IsFree(w, lab, occupied) && Uses(chart, i, w)
      ensures chart[i].IsSeated() <==> i < |free|
    {
      EachHasPlace(chart, todo, free, lab, occupied, i);
    }
    forall i, j, v, w | 0 <= i < j && Uses(chart, i, v) && Uses(chart, j, w) && v in lab && w in lab
      ensures v.position < w.position
    {
      PlacedInOrder(chart, todo, free, lab, occupied, i, j, v, w);
    }
    forall w | IsFree(w, lab, occupied) && forall k :: !Uses(chart, k, w)
      ensures forall i :: 0 <= i < |chart| ==> chart[i].IsSeated()
      ensures forall i, v :: Uses(chart, i, v) && v in lab ==> v.position < w.position
    {
      LeftOverIsLater(chart, todo, free, lab, occupied, w);
    }
  }

  /** The allocation meets the description of a chart. */
  lemma {:induction false} AllocateIsChart(enrolled: seq<nat>, ws: seq<Workstation>, occupied: set<nat>, seated: set<nat>)
    requires Distinct(ws) && LabWellFormed(LabOf(ws))
    ensures Chart(Allocate(enrolled, ws, occupied, seated), ToSeat(enrolled, seated), LabOf(ws), occupied)
  {
    QueueFacts(ws, occupied);
    AllocatePlaces(enrolled, ws, occupied, seated);
    assert FreeInOrder(Queue(ws, occupied), LabOf(ws), occupied);
    hide *;
    PlacedIsChart(Allocate(enrolled, ws, occupied, seated), ToSeat(enrolled, seated), Queue(ws, occupied), LabOf(ws), occupied);
  }

  /** There is only one chart: two that meet the description agree seat by seat. */
  lemma {:induction false} ChartUnique(a: seq<SeatAssignment>, b: seq<SeatAssignment>, todo: seq<nat>,
                                       lab: set<Workstation>, occupied: set<nat>, n: nat)
    requires LabWellFormed(lab)
    requires Chart(a, todo, lab, occupied) && Chart(b, todo, lab, occupied)
    requires n <= |todo|
    ensures forall k :: 0 <= k < n ==> a[k] == b[k]
  {
    hide *;
    if n > 0 {
      ChartUnique(a, b, todo, lab, occupied, n - 1);
      SameSeat(a, b, todo, lab, occupied, n - 1);
    }
  }

  lemma {:induction false} SameSeat(a: seq<SeatAssignment>, b: seq<SeatAssignment>, todo: seq<nat>,
                                    lab: set<Workstation>, occupied: set<nat>, n: nat)
    requires LabWellFormed(lab)
    requires Chart(a, todo, lab, occupied) && Chart(b, todo, lab, occupied)
    requires n < |todo| && forall k :: 0 <= k < n ==> a[k] == b[k]
    ensures a[n] == b[n]
  {
    SameLength(a, todo, lab, occupied);
    SameLength(b, todo, lab, occupied);
    SameCandidate(a, b, todo, lab, occupied, n);
    hide Chart;
    if a[n].IsSeated() {
      var v, w := NotWorse(a, b, todo, lab, occupied, n);
      var w', v' := NotWorse(b, a, todo, lab, occupied, n);
      UsesOne(a, lab, n, v, v');
      UsesOne(b, lab, n, w, w');
      assert w == v;
    } else if b[n].IsSeated() {
      var w, v := NotWorse(b, a, todo, lab, occupied, n);
    }
  }

  lemma {:induction false} SameCandidate(a: seq<SeatAssignment>, b: seq<SeatAssignment>, todo: seq<nat>,
                                         lab: set<Workstation>, occupied: set<nat>, n: nat)
    requires Chart(a, todo, lab, occupied) && Chart(b, todo, lab, occupied) && n < |todo|
    ensures |a| == |b| == |todo| && a[n].studentId == b[n].studentId
    ensures !a[n].IsSeated() && !b[n].IsSeated() ==> a[n] == b[n]
  {
  }

  // What a chart says, one consequence at a time.

  lemma {:induction false} SeatOf(chart: seq<SeatAssignment>, todo: seq<nat>, lab: set<Workstation>, occupied: set<nat>, n: nat)
    returns (v: Workstation)
    requires Chart(chart, todo, lab, occupied) && n < |chart| && chart[n].IsSeated()
    ensures IsFree(v, lab, occupied) && Uses(chart, n, v)
  {
    v :| IsFree(v, lab, occupied) && Uses(chart, n, v);
  }

  lemma {:induction false} Increasing(chart: seq<SeatAssignment>, todo: seq<nat>, lab: set<Workstation>, occupied: set<nat>,
                                      i: nat, j: nat, v: Workstation, w: Workstation)
    requires Chart(chart, todo, lab, occupied) && i < j && Uses(chart, i, v) && Uses(chart, j, w) && v in lab && w in lab
    ensures v.position < w.position
  {
  }

  lemma {:induction false} SeatedFirst(chart: seq<SeatAssignment>, todo: seq<nat>, lab: set<Workstation>, occupied: set<nat>,
                                       i: nat, j: nat)
    requires Chart(chart, todo, lab, occupied) && i <= j < |chart| && chart[j].IsSeated()
    ensures chart[i].IsSeated()
  {
  }

  lemma {:induction false} NonePassedOver(chart: seq<SeatAssignment>, todo: seq<nat>, lab: set<Workstation>, occupied: set<nat>,
                                          v: Workstation, n: nat)
    requires Chart(chart, todo, lab, occupied) && IsFree(v, lab, occupied) && (forall k :: !Uses(chart, k, v)) && n < |chart|
    ensures chart[n].IsSeated()
    ensures forall w :: Uses(chart, n, w) && w in lab ==> w.position < v.position
  {
  }

  lemma {:induction false} SameLength(chart: seq<SeatAssignment>, todo: seq<nat>, lab: set<Workstation>, occupied: set<nat>)
    requires Chart(chart, todo, lab, occupied)
    ensures |chart| == |todo|
  {
  }

  lemma {:induction false} UsesOne(chart: seq<SeatAssignment>, lab: set<Workstation>, n: nat, v: Workstation, w: Workstation)
    requires LabWellFormed(lab) && v in lab && w in lab && Uses(chart, n, v) && Uses(chart, n, w)
    ensures v == w
  {
  }

  /** The machine `a` gives candidate `n` is given to nobody before `n` in `b` either. */
  lemma {:induction false} UnusedBefore(a: seq<SeatAssignment>, b: seq<SeatAssignment>, todo: seq<nat>,
                                        lab: set<Workstation>, occupied: set<nat>, n: nat, v: Workstation, k: int)
    requires Chart(a, todo, lab, occupied) && n < |a| && n < |b| && forall k :: 0 <= k < n ==> a[k] == b[k]
    requires v in lab && Uses(a, n, v) && k < n
    ensures !Uses(b, k, v)
  {
    hide Chart;
    if Uses(b, k, v) {
      assert Uses(a, k, v);
      Increasing(a, todo, lab, occupied, k, n, v, v);
    }
  }

  /** A free machine that nobody before `n` has: candidate `n` is seated, at no later machine. */
  lemma {:induction false} NoLater(b: seq<SeatAssignment>, todo: seq<nat>, lab: set<Workstation>, occupied: set<nat>,
                                   n: nat, v: Workstation)
    returns (w: Workstation)
    requires LabWellFormed(lab) && Chart(b, todo, lab, occupied) && n < |b|
    requires IsFree(v, lab, occupied) && forall k :: k < n ==> !Uses(b, k, v)
    ensures w in lab && Uses(b, n, w) && w.position <= v.position
  {
    hide Chart, LabWellFormed;
    if used :| Uses(b, used, v) {
      assert used >= n;
      SeatedFirst(b, todo, lab, occupied, n, used);
      w := SeatOf(b, todo, lab, occupied, n);
      if used == n {
        UsesOne(b, lab, n, v, w);
      } else {
        Increasing(b, todo, lab, occupied, n, used, w, v);
      }
    } else {
      NonePassedOver(b, todo, lab, occupied, v, n);
      w := SeatOf(b, todo, lab, occupied, n);
    }
  }

  /** Where two charts agree up to `n` and `a` seats the next candidate, `b` seats that
      candidate too, and not at a later machine. */
  lemma {:induction false} NotWorse(a: seq<SeatAssignment>, b: seq<SeatAssignment>, todo: seq<nat>,
                                    lab: set<Workstation>, occupied: set<nat>, n: nat)
    returns (v: Workstation, w: Workstation)
    requires LabWellFormed(lab)
    requires Chart(a, todo, lab, occupied) && Chart(b, todo, lab, occupied)
    requires n < |todo| && |a| == |b| == |todo| && forall k :: 0 <= k < n ==> a[k] == b[k]
    requires a[n].IsSeated()
    ensures v in lab && w in lab && Uses(a, n, v) && Uses(b, n, w) && w.position <= v.position
  {
    hide Chart, LabWellFormed, Uses;
    v := SeatOf(a, todo, lab, occupied, n);
    forall k | k < n ensures !Uses(b, k, v) { UnusedBefore(a, b, todo, lab, occupied, n, v, k); }
    w := NoLater(b, todo, lab, occupied, n, v);
  }

  /** Printing the machines in another order does not change a single seat. */
  lemma {:induction false} OrderOfMachinesIrrelevant(enrolled: seq<nat>, ws: seq<Workstation>, shuffled: seq<Workstation>,
                                                     occupied: set<nat>, seated: set<nat>)
    requires Distinct(ws) && LabWellFormed(LabOf(ws)) && Permutation(ws, shuffled)
    ensures Allocate(enrolled, shuffled, occupied, seated) == Allocate(enrolled, ws, occupied, seated)
  {
    PermutationKeepsDistinct(ws, shuffled);
    assert LabOf(ws) == LabOf(shuffled);
    AllocateIsChart(enrolled, ws, occupied, seated);
    AllocateIsChart(enrolled, shuffled, occupied, seated);
    var a, b := Allocate(enrolled, ws, occupied, seated), Allocate(enrolled, shuffled, occupied, seated);
    ChartUnique(a, b, ToSeat(enrolled, seated), LabOf(ws), occupied, |a|);
  }

  lemma {:induction false} ToSeatNobodySeated(enrolled: seq<nat>)
    ensures ToSeat(enrolled, {}) == enrolled
  {
    if enrolled != [] {
      ToSeatNobodySeated(enrolled[..|enrolled| - 1]);
    }
  }

  lemma {:induction false} FreeOfNothingOccupied(ws: seq<Workstation>)
    ensures FreeOf(ws, {}) == ws
  {
    if ws != [] { FreeOfNothingOccupied(ws[1..]); }
  }

  /** With nothing occupied the queue holds every machine. */
  lemma {:induction false} WholeQueue(ws: seq<Workstation>)
    ensures |Queue(ws, {})| == |ws|
  {
    SortFacts(ws);
    FreeOfNothingOccupied(SortByPosition(ws));
    assert |multiset(ws)| == |ws| && |multiset(SortByPosition(ws))| == |SortByPosition(ws)|;
  }

  lemma {:induction false} AllSeatedIff(chart: seq<SeatAssignment>, todo: seq<nat>, free: seq<Workstation>)
    requires Placed(chart, todo, free)
    ensures (forall i :: 0 <= i < |chart| ==> chart[i].IsSeated()) <==> |todo| <= |free|
  {
    if |todo| > |free| { assert !chart[|free|].IsSeated(); }
  }

  lemma {:induction false} AllocatePlaces(enrolled: seq<nat>, ws: seq<Workstation>, occupied: set<nat>, seated: set<nat>)
    ensures Placed(Allocate(enrolled, ws, occupied, seated), ToSeat(enrolled, seated), Queue(ws, occupied))
    ensures |Allocate(enrolled, ws, occupied, seated)| == |ToSeat(enrolled, seated)|
  {
    hide Queue, ToSeat;
  }

  /** The capacity rule is exact: on a first scheduling, everyone is seated precisely when
      the lab has no shortfall. */
  lemma {:induction false} NoShortfallSeatsEveryone(enrolled: seq<nat>, ws: seq<Workstation>)
    ensures |Allocate(enrolled, ws, {}, {})| == |enrolled|
    ensures (forall i :: 0 <= i < |enrolled| ==> Allocate(enrolled, ws, {}, {})[i].IsSeated())
       <==> CapacityShortfall(|enrolled|, |ws|) == 0
  {
    ToSeatNobodySeated(enrolled);
    WholeQueue(ws);
    AllocatePlaces(enrolled, ws, {}, {});
    hide Allocate, Queue, Placed, ToSeat;
    AllSeatedIff(Allocate(enrolled, ws, {}, {}), enrolled, Queue(ws, {}));
  }

  lemma {:induction false} UnseatedOfSuffix(chart: seq<SeatAssignment>, k: nat)
    requires k <= |chart|
    requires forall i :: 0 <= i < |chart| ==> (chart[i].IsSeated() <==> i < k)
    ensures Unseated(chart) == chart[k..]
  {
    if chart != [] {
      if k > 0 {
        UnseatedOfSuffix(chart[1..], k - 1);
        assert chart[1..][k - 1..] == chart[k..];
      } else {
        UnseatedOfSuffix(chart[1..], 0);
        assert chart[1..][0..] == chart[1..];
      }
    }
  }

  /** The seated number is the smaller of the free machines and the waiting candidates, and
      the candidates reported as unplaced are exactly the last ones. */
  lemma {:induction false} SeatedCount(enrolled: seq<nat>, ws: seq<Workstation>, occupied: set<nat>, seated: set<nat>)
    ensures var chart, free := Allocate(enrolled, ws, occupied, seated), |Queue(ws, occupied)|;
            var placed := if free < |chart| then free else |chart|;
            && (forall i :: 0 <= i < |chart| ==> (chart[i].IsSeated() <==> i < placed))
            && Unseated(chart) == chart[placed..]
            && |chart| == |ToSeat(enrolled, seated)|
  {
    var chart, free := Allocate(enrolled, ws, occupied, seated), |Queue(ws, occupied)|;
    UnseatedOfSuffix(chart, if free < |chart| then free else |chart|);
  }

  lemma {:induction false} NobodyToSeat(enrolled: seq<nat>, seated: set<nat>)
    requires forall s :: s in enrolled ==> s in seated
    ensures ToSeat(enrolled, seated) == []
  {
    if enrolled != [] { NobodyToSeat(enrolled[..|enrolled| - 1], seated); }
  }

  lemma {:induction false} ToSeatMembers(enrolled: seq<nat>, seated: set<nat>)
    ensures forall s :: s in ToSeat(enrolled, seated) <==> s in enrolled && s !in seated
    ensures Distinct(enrolled) ==> Distinct(ToSeat(enrolled, seated))
  {
    if enrolled != [] {
      ToSeatMembers(enrolled[..|enrolled| - 1], seated);
      assert enrolled == enrolled[..|enrolled| - 1] + [enrolled[|enrolled| - 1]];
      assert Distinct(enrolled) ==> Distinct(enrolled[..|enrolled| - 1]);
      assert Distinct(enrolled) ==> enrolled[|enrolled| - 1] !in enrolled[..|enrolled| - 1];
    }
  }

  /** Scheduling again finds nobody left to seat. */
  lemma {:induction false} SecondSchedulingSeatsNobody(enrolled: seq<nat>, ws: seq<Workstation>, occupied: set<nat>, seated: set<nat>)
    requires forall s :: s in enrolled ==> s in seated
    ensures Allocate(enrolled, ws, occupied, seated) == []
  {
    NobodyToSeat(enrolled, seated);
  }
}
