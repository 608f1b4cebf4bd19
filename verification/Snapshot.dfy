/** The console's snapshot of the server: loading all of it, and re-reading one exam and merging
    that into what is held (frontend/lib/api/http.ts). */
module Snapshot {
  import opened Basics

  // ---- what the server answers ----

  /** `facts` stands for the columns that are carried through as they are. */
  datatype RosterRow = RosterRow(studentId: nat, machineId: Option<string>, facts: string)

  datatype ResultRow = ResultRow(sessionId: nat, studentId: nat, facts: string)

  datatype ResultsPage = ResultsPage(rows: seq<ResultRow>, published: bool, publishedAt: Option<int>)

  datatype ServerExam = ServerExam(
    id: nat, completed: bool, facts: string, labId: nat, roster: seq<RosterRow>, results: ResultsPage)

  datatype Machine = Machine(machineId: string, labId: nat, facts: string)

  datatype Server = Server(exams: seq<ServerExam>, machines: seq<Machine>)

  // ---- what the console holds ----

  datatype Test = Test(id: nat, facts: string, enrolled: seq<nat>, publishedAt: Option<int>)

  datatype Sitting = Sitting(testId: nat, studentId: nat, computerId: string, facts: string)

  datatype Computer = Computer(id: string, labId: nat, facts: string, occupant: Option<nat>)

  datatype Outcome = Outcome(testId: nat, row: ResultRow)

  datatype Console = Console(tests: seq<Test>, sessions: seq<Sitting>, computers: seq<Computer>, results: seq<Outcome>)

  const UNASSIGNED := "Unassigned"

  // ---- one exam's part of it ----

  function StudentsOf(roster: seq<RosterRow>): seq<nat> {
    seq(|roster|, i requires 0 <= i < |roster| => roster[i].studentId)
  }

  function ToTest(exam: ServerExam): Test {
    Test(exam.id, exam.facts, StudentsOf(exam.roster),
         if exam.completed && exam.results.published then exam.results.publishedAt else None)
  }

  function ToSitting(examId: nat, row: RosterRow): Sitting {
    Sitting(examId, row.studentId, if row.machineId.Some? then row.machineId.value else UNASSIGNED, row.facts)
  }

  function SessionsOf(exam: ServerExam): (sessions: seq<Sitting>)
    ensures forall s :: s in sessions ==> s.testId == exam.id
  {
    seq(|exam.roster|, i requires 0 <= i < |exam.roster| => ToSitting(exam.id, exam.roster[i]))
  }

  /** Results only exist for exams that have finished. */
  function ResultsOf(exam: ServerExam): (results: seq<Outcome>)
    ensures forall r :: r in results ==> r.testId == exam.id
  {
    if exam.completed then seq(|exam.results.rows|, i requires 0 <= i < |exam.results.rows| => Outcome(exam.id, exam.results.rows[i]))
    else []
  }

  // ---- the whole of it ----

  function TestsIn(exams: seq<ServerExam>): (tests: seq<Test>)
    ensures |tests| == |exams|
    ensures forall i :: 0 <= i < |exams| ==> tests[i] == ToTest(exams[i])
  {
    seq(|exams|, i requires 0 <= i < |exams| => ToTest(exams[i]))
  }

  function SessionsIn(exams: seq<ServerExam>): seq<Sitting> {
    if exams == [] then [] else SessionsIn(exams[..|exams| - 1]) + SessionsOf(exams[|exams| - 1])
  }

  function ResultsIn(exams: seq<ServerExam>): seq<Outcome> {
    if exams == [] then [] else ResultsIn(exams[..|exams| - 1]) + ResultsOf(exams[|exams| - 1])
  }

  /** Who sits at machine `c`: the last session listed there. */
  function Owner(sessions: seq<Sitting>, c: string): Option<nat> {
    if sessions == [] then None
    else
      var last := sessions[|sessions| - 1];
      if last.computerId == c && c != UNASSIGNED then Some(last.studentId) else Owner(sessions[..|sessions| - 1], c)
  }

  function ToComputer(m: Machine, sessions: seq<Sitting>): Computer {
    Computer(m.machineId, m.labId, m.facts, Owner(sessions, m.machineId))
  }

  function FullLoad(server: Server): Console {
    var sessions := SessionsIn(server.exams);
    Console(TestsIn(server.exams), sessions,
            seq(|server.machines|, i requires 0 <= i < |server.machines| => ToComputer(server.machines[i], sessions)),
            ResultsIn(server.exams))
  }

  // ---- the merge ----

  function OtherSessions(sessions: seq<Sitting>, examId: nat): seq<Sitting> {
    if sessions == [] then []
    else
      OtherSessions(sessions[..|sessions| - 1], examId)
      + if sessions[|sessions| - 1].testId != examId then [sessions[|sessions| - 1]] else []
  }

  function OtherResults(results: seq<Outcome>, examId: nat): seq<Outcome> {
    if results == [] then []
    else
      OtherResults(results[..|results| - 1], examId)
      + if results[|results| - 1].testId != examId then [results[|results| - 1]] else []
  }

  predicate HasTest(tests: seq<Test>, id: nat) {
    exists i :: 0 <= i < |tests| && tests[i].id == id
  }

  /** The test in its place, or at the end if it was not there. */
  function PutTest(tests: seq<Test>, test: Test): seq<Test> {
    if HasTest(tests, test.id)
    then seq(|tests|, i requires 0 <= i < |tests| => if tests[i].id == test.id then test else tests[i])
    else tests + [test]
  }

  /** The machine as it was last read here, if it was; a later duplicate wins. */
  function Reread(machines: seq<Machine>, id: string): Option<Machine> {
    if machines == [] then None
    else if machines[|machines| - 1].machineId == id then Some(machines[|machines| - 1])
    else Reread(machines[..|machines| - 1], id)
  }

  function Refreshed(c: Computer, machines: seq<Machine>, sessions: seq<Sitting>): Computer {
    var m := Reread(machines, c.id);
    if m.Some? then ToComputer(m.value, sessions) else c.(occupant := Owner(sessions, c.id))
  }

  /** `loadExamSlice`: one exam and the machines of its lab, merged into what is held. */
  function Merge(previous: Console, exam: ServerExam, machines: seq<Machine>): Console {
    var sessions := OtherSessions(previous.sessions, exam.id) + SessionsOf(exam);
    Console(PutTest(previous.tests, ToTest(exam)), sessions,
            seq(|previous.computers|, i requires 0 <= i < |previous.computers| => Refreshed(previous.computers[i], machines, sessions)),
            OtherResults(previous.results, exam.id) + ResultsOf(exam))
  }

  // ---- the loops ----

  /** The map from machines to candidates, filled session by session. */
  method SeatedBy(sessions: seq<Sitting>) returns (seatedBy: map<string, nat>)
    ensures forall c :: Get(seatedBy, c) == Owner(sessions, c)
  {
    seatedBy := map[];
    for i := 0 to |sessions|
      invariant forall c :: Get(seatedBy, c) == Owner(sessions[..i], c)
    {
      assert sessions[..i + 1][..i] == sessions[..i];
      if sessions[i].computerId != UNASSIGNED {
        seatedBy := seatedBy[sessions[i].computerId := sessions[i].studentId];
      }
    }
    assert sessions[..|sessions|] == sessions;
  }

  lemma {:induction false} NoExams(exams: seq<ServerExam>)
    ensures TestsIn(exams[..0]) == [] && SessionsIn(exams[..0]) == [] && ResultsIn(exams[..0]) == []
  {
  }

  lemma {:induction false} OneMoreExam(exams: seq<ServerExam>, i: nat)
    requires i < |exams|
    ensures TestsIn(exams[..i + 1]) == TestsIn(exams[..i]) + [ToTest(exams[i])]
    ensures SessionsIn(exams[..i + 1]) == SessionsIn(exams[..i]) + SessionsOf(exams[i])
    ensures ResultsIn(exams[..i + 1]) == ResultsIn(exams[..i]) + ResultsOf(exams[i])
  {
    hide ToTest, SessionsOf, ResultsOf;
    assert exams[..i + 1][..i] == exams[..i];
  }

  /** Tests and sessions, pushed exam by exam. */
  method LoadExams(exams: seq<ServerExam>) returns (tests: seq<Test>, sessions: seq<Sitting>, results: seq<Outcome>)
    ensures tests == TestsIn(exams) && sessions == SessionsIn(exams) && results == ResultsIn(exams)
  {
    hide TestsIn, SessionsIn, ToTest, SessionsOf, ResultsIn;
    tests, sessions, results := [], [], [];
    NoExams(exams);
    for i := 0 to |exams|
      invariant tests == TestsIn(exams[..i]) && sessions == SessionsIn(exams[..i]) && results == ResultsIn(exams[..i])
    {
      OneMoreExam(exams, i);
      sessions := sessions + SessionsOf(exams[i]);
      tests := tests + [ToTest(exams[i])];
      if exams[i].completed { results := results + ResultsOf(exams[i]); }
    }
    assert exams[..|exams|] == exams;
  }

  method LoadAll(server: Server) returns (console: Console)
    ensures console == FullLoad(server)
  {
    hide TestsIn, SessionsIn, ResultsIn, Owner;
    var tests, sessions, results := LoadExams(server.exams);
    var seatedBy := SeatedBy(sessions);
    var computers: seq<Computer> := [];
    for i := 0 to |server.machines|
      invariant |computers| == i && forall j :: 0 <= j < i ==> computers[j] == ToComputer(server.machines[j], sessions)
    {
      var m := server.machines[i];
      computers := computers + [Computer(m.machineId, m.labId, m.facts, if m.machineId in seatedBy then Some(seatedBy[m.machineId]) else None)];
    }
    console := Console(tests, sessions, computers, results);
  }

  // ---- concatenation ----

  lemma {:induction false} ListsMore(init: seq<ServerExam>, last: ServerExam)
    ensures SessionsIn(init + [last]) == SessionsIn(init) + SessionsOf(last)
    ensures ResultsIn(init + [last]) == ResultsIn(init) + ResultsOf(last)
  {
    hide SessionsOf, ResultsOf;
    assert (init + [last])[..|init|] == init;
  }

  lemma {:induction false} SessionsSplit(a: seq<ServerExam>, b: seq<ServerExam>)
    ensures SessionsIn(a + b) == SessionsIn(a) + SessionsIn(b)
    decreases |b|
  {
    if b == [] {
      assert a + b == a;
    } else {
      hide *;
      FrontAndLast(b);
      var init, last := b[..|b| - 1], b[|b| - 1];
      Associate(a, init, [last]);
      SessionsSplit(a, init);
      ListsMore(init, last);
      ListsMore(a + init, last);
      Associate(SessionsIn(a), SessionsIn(init), SessionsOf(last));
    }
  }

  lemma {:induction false} ResultsSplit(a: seq<ServerExam>, b: seq<ServerExam>)
    ensures ResultsIn(a + b) == ResultsIn(a) + ResultsIn(b)
    decreases |b|
  {
    if b == [] {
      assert a + b == a;
    } else {
      hide *;
      FrontAndLast(b);
      var init, last := b[..|b| - 1], b[|b| - 1];
      Associate(a, init, [last]);
      ResultsSplit(a, init);
      ListsMore(init, last);
      ListsMore(a + init, last);
      Associate(ResultsIn(a), ResultsIn(init), ResultsOf(last));
    }
  }

  lemma {:induction false} SessionsOne(x: ServerExam)
    ensures SessionsIn([x]) == SessionsOf(x) && ResultsIn([x]) == ResultsOf(x)
  {
    hide SessionsOf, ResultsOf;
    assert [x][..0] == [];
  }

  /** The exams before one, that one, and those after it. */
  lemma {:induction false} Around(exams: seq<ServerExam>, i: nat)
    requires i < |exams|
    ensures SessionsIn(exams) == SessionsIn(exams[..i]) + SessionsOf(exams[i]) + SessionsIn(exams[i + 1..])
    ensures ResultsIn(exams) == ResultsIn(exams[..i]) + ResultsOf(exams[i]) + ResultsIn(exams[i + 1..])
  {
    hide SessionsIn, ResultsIn, SessionsOf, ResultsOf;
    var front := exams[..i] + [exams[i]];
    assert exams == front + exams[i + 1..];
    SessionsSplit(front, exams[i + 1..]);
    SessionsSplit(exams[..i], [exams[i]]);
    ResultsSplit(front, exams[i + 1..]);
    ResultsSplit(exams[..i], [exams[i]]);
    SessionsOne(exams[i]);
  }

  lemma {:induction false} OwnerSplit(a: seq<Sitting>, b: seq<Sitting>, c: string)
    ensures Owner(a + b, c) == if Owner(b, c).Some? then Owner(b, c) else Owner(a, c)
  {
    if b == [] {
      assert a + b == a;
    } else {
      OwnerSplit(a, b[..|b| - 1], c);
      assert (a + b)[..|a + b| - 1] == a + b[..|b| - 1];
    }
  }

  lemma {:induction false} OthersSplit(a: seq<Sitting>, b: seq<Sitting>, id: nat)
    ensures OtherSessions(a + b, id) == OtherSessions(a, id) + OtherSessions(b, id)
  {
    if b == [] {
      assert a + b == a;
    } else {
      OthersSplit(a, b[..|b| - 1], id);
      assert (a + b)[..|a + b| - 1] == a + b[..|b| - 1];
    }
  }

  lemma {:induction false} OtherResultsSplit(a: seq<Outcome>, b: seq<Outcome>, id: nat)
    ensures OtherResults(a + b, id) == OtherResults(a, id) + OtherResults(b, id)
  {
    if b == [] {
      assert a + b == a;
    } else {
      OtherResultsSplit(a, b[..|b| - 1], id);
      assert (a + b)[..|a + b| - 1] == a + b[..|b| - 1];
    }
  }

  lemma {:induction false} AllOther(a: seq<Sitting>, id: nat)
    ensures (forall s :: s in a ==> s.testId != id) ==> OtherSessions(a, id) == a
    ensures (forall s :: s in a ==> s.testId == id) ==> OtherSessions(a, id) == []
  {
    if a != [] {
      AllOther(a[..|a| - 1], id);
      assert a == a[..|a| - 1] + [a[|a| - 1]];
    }
  }

  lemma {:induction false} AllOtherResults(a: seq<Outcome>, id: nat)
    ensures (forall s :: s in a ==> s.testId != id) ==> OtherResults(a, id) == a
    ensures (forall s :: s in a ==> s.testId == id) ==> OtherResults(a, id) == []
  {
    if a != [] {
      AllOtherResults(a[..|a| - 1], id);
      assert a == a[..|a| - 1] + [a[|a| - 1]];
    }
  }

  // ---- a merge against a full reload ----

  function IdsOf(exams: seq<ServerExam>): (ids: seq<nat>)
    ensures |ids| == |exams|
    ensures forall i :: 0 <= i < |exams| ==> ids[i] == exams[i].id
  {
    seq(|exams|, i requires 0 <= i < |exams| => exams[i].id)
  }

  function LabOf(machines: seq<Machine>, labId: nat): seq<Machine> {
    if machines == [] then []
    else
      LabOf(machines[..|machines| - 1], labId)
      + if machines[|machines| - 1].labId == labId then [machines[|machines| - 1]] else []
  }

  /** The server's ids are unique. */
  ghost predicate WellFormed(server: Server) {
    && Distinct(IdsOf(server.exams))
    && UniqueMachines(server.machines)
  }

  /** The same machines in the same order, and only those of one lab report anything new. */
  ghost predicate OnlyLabChanged(old': seq<Machine>, new': seq<Machine>, labId: nat) {
    && |new'| == |old'|
    && forall i :: 0 <= i < |old'| ==>
         && new'[i].machineId == old'[i].machineId && new'[i].labId == old'[i].labId
         && (new'[i].labId != labId ==> new'[i] == old'[i])
  }

  /** The other exams, in the order they are listed. */
  function Rest(exams: seq<ServerExam>, id: nat): seq<ServerExam> {
    if exams == [] then []
    else
      Rest(exams[..|exams| - 1], id) + if exams[|exams| - 1].id != id then [exams[|exams| - 1]] else []
  }

  /** Between two moments only one exam was written, and the machines of its lab reported. It
      now stands at place `j`; before, it stood anywhere in the list, or was not there at all.
      The other exams are what they were, in the same order. */
  ghost predicate OnlyExamWritten(before: Server, after: Server, j: nat) {
    && j < |after.exams|
    && Rest(before.exams, after.exams[j].id) == Rest(after.exams, after.exams[j].id)
    && OnlyLabChanged(before.machines, after.machines, after.exams[j].labId)
  }

  lemma {:induction false} LabMore(init: seq<Machine>, last: Machine, labId: nat)
    ensures LabOf(init + [last], labId) == if last.labId == labId then LabOf(init, labId) + [last] else LabOf(init, labId)
  {
    assert (init + [last])[..|init|] == init;
    assert LabOf(init, labId) + [] == LabOf(init, labId);
  }

  lemma {:induction false} RereadMore(init: seq<Machine>, last: Machine, id: string)
    ensures Reread(init + [last], id) == if last.machineId == id then Some(last) else Reread(init, id)
  {
    assert (init + [last])[..|init|] == init;
  }

  ghost predicate UniqueMachines(machines: seq<Machine>) {
    forall i, k :: 0 <= i < k < |machines| ==> machines[i].machineId != machines[k].machineId
  }

  lemma {:induction false} UniqueFront(machines: seq<Machine>)
    requires UniqueMachines(machines) && machines != []
    ensures UniqueMachines(machines[..|machines| - 1])
    ensures forall i :: 0 <= i < |machines| - 1 ==> machines[i].machineId != machines[|machines| - 1].machineId
  {
  }

  lemma {:induction false} RereadLab(machines: seq<Machine>, labId: nat, j: nat)
    requires j < |machines| && UniqueMachines(machines)
    ensures Reread(LabOf(machines, labId), machines[j].machineId) == if machines[j].labId == labId then Some(machines[j]) else None
  {
    hide *;
    FrontAndLast(machines);
    UniqueFront(machines);
    var init, last := machines[..|machines| - 1], machines[|machines| - 1];
    if j < |init| {
      RereadLab(init, labId, j);
    } else {
      NotInLab(init, labId, last.machineId);
    }
    LabMore(init, last, labId);
    RereadMore(LabOf(init, labId), last, machines[j].machineId);
  }

  lemma {:induction false} NotInLab(machines: seq<Machine>, labId: nat, id: string)
    requires forall i :: 0 <= i < |machines| ==> machines[i].machineId != id
    ensures Reread(LabOf(machines, labId), id) == None
  {
    if machines != [] {
      hide *;
      FrontAndLast(machines);
      var init, last := machines[..|machines| - 1], machines[|machines| - 1];
      NotInLab(init, labId, id);
      LabMore(init, last, labId);
      RereadMore(LabOf(init, labId), last, id);
    }
  }

  /** Leaving an exam's sessions and results out is leaving the exam out. */
  lemma {:induction false} OthersAreRest(exams: seq<ServerExam>, id: nat)
    ensures OtherSessions(SessionsIn(exams), id) == SessionsIn(Rest(exams, id))
    ensures OtherResults(ResultsIn(exams), id) == ResultsIn(Rest(exams, id))
  {
    if exams != [] {
      var init, last := exams[..|exams| - 1], exams[|exams| - 1];
      OthersAreRest(init, id);
      AllOther(SessionsOf(last), id);
      AllOtherResults(ResultsOf(last), id);
      OthersSplit(SessionsIn(init), SessionsOf(last), id);
      OtherResultsSplit(ResultsIn(init), ResultsOf(last), id);
      RestLast(init, last, id);
      hide OtherSessions, OtherResults, SessionsOf, ResultsOf, Rest;
    }
  }

  lemma {:induction false} RestLast(init: seq<ServerExam>, last: ServerExam, id: nat)
    ensures Rest(init + [last], id) == Rest(init, id) + if last.id != id then [last] else []
    ensures SessionsIn(Rest(init + [last], id)) == SessionsIn(Rest(init, id)) + if last.id != id then SessionsOf(last) else []
    ensures ResultsIn(Rest(init + [last], id)) == ResultsIn(Rest(init, id)) + if last.id != id then ResultsOf(last) else []
    ensures init + [last] != [] && (init + [last])[..|init|] == init
  {
    var rest := Rest(init, id);
    assert (init + [last])[..|init|] == init;
    assert (rest + [last])[..|rest|] == rest && rest + [] == rest;
    hide SessionsOf, ResultsOf;
  }

  lemma {:induction false} RestMore(init: seq<ServerExam>, last: ServerExam, id: nat)
    ensures Rest(init + [last], id) == Rest(init, id) + if last.id != id then [last] else []
  {
    assert (init + [last])[..|init|] == init;
  }

  lemma {:induction false} RestSplit(a: seq<ServerExam>, b: seq<ServerExam>, id: nat)
    ensures Rest(a + b, id) == Rest(a, id) + Rest(b, id)
    decreases |b|
  {
    if b == [] {
      assert a + b == a;
    } else {
      hide *;
      FrontAndLast(b);
      var init, last := b[..|b| - 1], b[|b| - 1];
      Associate(a, init, [last]);
      RestSplit(a, init, id);
      RestMore(init, last, id);
      RestMore(a + init, last, id);
      Associate(Rest(a, id), Rest(init, id), if last.id != id then [last] else []);
    }
  }

  lemma {:induction false} AllRest(exams: seq<ServerExam>, id: nat)
    requires forall i :: 0 <= i < |exams| ==> exams[i].id != id
    ensures Rest(exams, id) == exams
  {
    if exams != [] {
      AllRest(exams[..|exams| - 1], id);
      assert exams == exams[..|exams| - 1] + [exams[|exams| - 1]];
    }
  }

  lemma {:induction false} RestOfOne(x: ServerExam)
    ensures Rest([x], x.id) == []
  {
    assert [x][..0] == [];
  }

  lemma {:induction false} RestParts(front: seq<ServerExam>, x: ServerExam, back: seq<ServerExam>)
    requires forall k :: 0 <= k < |front| ==> front[k].id != x.id
    requires forall k :: 0 <= k < |back| ==> back[k].id != x.id
    ensures Rest(front + [x] + back, x.id) == front + back
  {
    hide *;
    AllRest(front, x.id);
    AllRest(back, x.id);
    RestSplit(front + [x], back, x.id);
    RestSplit(front, [x], x.id);
    RestOfOne(x);
    assert front + [] == front;
  }

  /** With unique ids, the rest is what stands before the exam and what stands after it. */
  lemma {:induction false} RestAround(exams: seq<ServerExam>, j: nat)
    requires j < |exams| && Distinct(IdsOf(exams))
    ensures Rest(exams, exams[j].id) == exams[..j] + exams[j + 1..]
  {
    forall k | 0 <= k < |exams| && k != j ensures exams[k].id != exams[j].id { assert IdsOf(exams)[k] != IdsOf(exams)[j]; }
    hide *;
    RestParts(exams[..j], exams[j], exams[j + 1..]);
    assert exams == exams[..j] + [exams[j]] + exams[j + 1..];
  }

  /** The merge a console makes after the exam that now stands at `j` was written. */
  ghost function Merged(held: Console, after: Server, j: nat): Console
    requires j < |after.exams|
  {
    Merge(held, after.exams[j], LabOf(after.machines, after.exams[j].labId))
  }

  /** Merged straight after a full load. */
  lemma {:induction false} MergedLists(before: Server, after: Server, j: nat)
    requires WellFormed(after) && OnlyExamWritten(before, after, j)
    ensures Merged(FullLoad(before), after, j).sessions
         == SessionsIn(after.exams[..j]) + SessionsIn(after.exams[j + 1..]) + SessionsOf(after.exams[j])
    ensures Merged(FullLoad(before), after, j).results
         == ResultsIn(after.exams[..j]) + ResultsIn(after.exams[j + 1..]) + ResultsOf(after.exams[j])
  {
    OthersAreRest(before.exams, after.exams[j].id);
    RestAround(after.exams, j);
    SessionsSplit(after.exams[..j], after.exams[j + 1..]);
    ResultsSplit(after.exams[..j], after.exams[j + 1..]);
    hide SessionsIn, ResultsIn, OtherSessions, OtherResults, Rest, SessionsOf, ResultsOf;
  }

  lemma {:induction false} TestsSplit(a: seq<ServerExam>, b: seq<ServerExam>)
    ensures TestsIn(a + b) == TestsIn(a) + TestsIn(b)
  {
  }

  lemma {:induction false} Rotated<T>(front: seq<T>, mid: seq<T>, back: seq<T>)
    ensures Permutation(front + mid + back, front + back + mid)
  {
  }

  lemma {:induction false} PermutedBack<T>(a: seq<T>, b: seq<T>)
    requires Permutation(a, b)
    ensures Permutation(b, a)
  {
  }

  /** Writing a test leaves the tests of the other exams, and that one. */
  lemma {:induction false} PutTestRest(exams: seq<ServerExam>, exam: ServerExam)
    requires Distinct(IdsOf(exams))
    ensures Permutation(TestsIn(Rest(exams, exam.id)) + [ToTest(exam)], PutTest(TestsIn(exams), ToTest(exam)))
  {
    var tests := TestsIn(exams);
    if HasTest(tests, exam.id) {
      var i :| 0 <= i < |tests| && tests[i].id == exam.id;
      var front, back := exams[..i], exams[i + 1..];
      RestAround(exams, i);
      TestsSplit(front, back);
      PutInPlace(exams, exam, i);
      hide *;
      Rotated(TestsIn(front), [ToTest(exam)], TestsIn(back));
      PermutedBack(PutTest(tests, ToTest(exam)), TestsIn(front + back) + [ToTest(exam)]);
    } else {
      forall i | 0 <= i < |exams| ensures exams[i].id != exam.id { assert tests[i].id == exams[i].id; }
      AllRest(exams, exam.id);
      assert PutTest(tests, ToTest(exam)) == tests + [ToTest(exam)];
    }
  }

  lemma {:induction false} PutInPlace(exams: seq<ServerExam>, exam: ServerExam, i: nat)
    requires i < |exams| && Distinct(IdsOf(exams)) && exams[i].id == exam.id
    ensures PutTest(TestsIn(exams), ToTest(exam)) == TestsIn(exams[..i]) + [ToTest(exam)] + TestsIn(exams[i + 1..])
    ensures PutTest(TestsIn(exams), ToTest(exam)) == TestsIn(exams[i := exam])
  {
    var tests := TestsIn(exams);
    forall k | 0 <= k < |exams| ensures tests[k].id == exam.id <==> k == i {
      assert k != i ==> IdsOf(exams)[k] != IdsOf(exams)[i];
    }
    assert tests[i].id == exam.id;
  }

  lemma {:induction false} TestsAround(exams: seq<ServerExam>, j: nat)
    requires j < |exams|
    ensures TestsIn(exams) == TestsIn(exams[..j]) + [ToTest(exams[j])] + TestsIn(exams[j + 1..])
  {
    hide ToTest;
  }

  lemma {:induction false} PermutationTrans<T>(a: seq<T>, b: seq<T>, c: seq<T>)
    requires Permutation(a, b) && Permutation(b, c)
    ensures Permutation(a, c)
  {
  }

  lemma {:induction false} LoadedLists(server: Server)
    ensures FullLoad(server).tests == TestsIn(server.exams)
    ensures FullLoad(server).sessions == SessionsIn(server.exams) && FullLoad(server).results == ResultsIn(server.exams)
  {
  }

  /** The tests of the exams before, with the written one put in its place. */
  lemma {:induction false} PutTests(before: Server, after: Server, j: nat)
    requires WellFormed(before) && WellFormed(after) && OnlyExamWritten(before, after, j)
    ensures Permutation(TestsIn(after.exams), PutTest(TestsIn(before.exams), ToTest(after.exams[j])))
  {
    var exam, front, back := after.exams[j], after.exams[..j], after.exams[j + 1..];
    RestAround(after.exams, j);
    PutTestRest(before.exams, exam);
    hide *;
    TestsAround(after.exams, j);
    TestsSplit(front, back);
    Rotated(TestsIn(front), [ToTest(exam)], TestsIn(back));
    PermutationTrans(TestsIn(after.exams), TestsIn(front + back) + [ToTest(exam)], PutTest(TestsIn(before.exams), ToTest(exam)));
  }

  // ---- lists in any order ----

  lemma {:induction false} OthersMore(init: seq<Sitting>, last: Sitting, id: nat)
    ensures OtherSessions(init + [last], id) == if last.testId != id then OtherSessions(init, id) + [last] else OtherSessions(init, id)
  {
    assert (init + [last])[..|init|] == init;
    assert OtherSessions(init, id) + [] == OtherSessions(init, id);
  }

  lemma {:induction false} OtherResultsMore(init: seq<Outcome>, last: Outcome, id: nat)
    ensures OtherResults(init + [last], id) == if last.testId != id then OtherResults(init, id) + [last] else OtherResults(init, id)
  {
    assert (init + [last])[..|init|] == init;
    assert OtherResults(init, id) + [] == OtherResults(init, id);
  }

  lemma {:induction false} OthersCounted(sessions: seq<Sitting>, id: nat, x: Sitting)
    ensures multiset(OtherSessions(sessions, id))[x] == if x.testId != id then multiset(sessions)[x] else 0
  {
    if sessions != [] {
      hide *;
      FrontAndLast(sessions);
      var init, last := sessions[..|sessions| - 1], sessions[|sessions| - 1];
      OthersCounted(init, id, x);
      OthersMore(init, last, id);
      CountMore(init, last, x);
      CountMore(OtherSessions(init, id), last, x);
    }
  }

  lemma {:induction false} OtherResultsCounted(results: seq<Outcome>, id: nat, x: Outcome)
    ensures multiset(OtherResults(results, id))[x] == if x.testId != id then multiset(results)[x] else 0
  {
    if results != [] {
      hide *;
      FrontAndLast(results);
      var init, last := results[..|results| - 1], results[|results| - 1];
      OtherResultsCounted(init, id, x);
      OtherResultsMore(init, last, id);
      CountMore(init, last, x);
      CountMore(OtherResults(init, id), last, x);
    }
  }

  lemma {:induction false} OthersOfPermuted(a: seq<Sitting>, b: seq<Sitting>, id: nat)
    requires Permutation(a, b)
    ensures Permutation(OtherSessions(a, id), OtherSessions(b, id))
  {
    forall x ensures multiset(OtherSessions(a, id))[x] == multiset(OtherSessions(b, id))[x] {
      OthersCounted(a, id, x);
      OthersCounted(b, id, x);
    }
  }

  lemma {:induction false} OtherResultsOfPermuted(a: seq<Outcome>, b: seq<Outcome>, id: nat)
    requires Permutation(a, b)
    ensures Permutation(OtherResults(a, id), OtherResults(b, id))
  {
    forall x ensures multiset(OtherResults(a, id))[x] == multiset(OtherResults(b, id))[x] {
      OtherResultsCounted(a, id, x);
      OtherResultsCounted(b, id, x);
    }
  }

  ghost predicate DistinctIds(tests: seq<Test>) {
    forall i, j :: 0 <= i < j < |tests| ==> tests[i].id != tests[j].id
  }

  lemma {:induction false} PermutedIds(exams: seq<ServerExam>, tests: seq<Test>)
    requires Distinct(IdsOf(exams)) && Permutation(TestsIn(exams), tests)
    ensures DistinctIds(TestsIn(exams)) && DistinctIds(tests)
  {
    var all := TestsIn(exams);
    forall i, j | 0 <= i < j < |all| ensures all[i].id != all[j].id { assert IdsOf(exams)[i] != IdsOf(exams)[j]; }
    hide TestsIn, ToTest;
    PermutationKeepsDistinct(all, tests);
    forall i, j | 0 <= i < j < |tests| ensures tests[i].id != tests[j].id {
      assert tests[i] in all && tests[j] in all;
    }
  }

  lemma {:induction false} PutThere(tests: seq<Test>, t: Test, i: nat)
    requires DistinctIds(tests) && i < |tests| && tests[i].id == t.id
    ensures PutTest(tests, t) == tests[i := t]
  {
  }

  lemma {:induction false} PutLast(tests: seq<Test>, t: Test)
    requires !HasTest(tests, t.id)
    ensures PutTest(tests, t) == tests + [t]
    ensures forall i :: 0 <= i < |tests| ==> tests[i].id != t.id
  {
  }

  lemma {:induction false} PutCounted(tests: seq<Test>, t: Test, x: Test)
    requires DistinctIds(tests)
    ensures multiset(PutTest(tests, t))[x] == if x.id != t.id then multiset(tests)[x] else if x == t then 1 else 0
  {
    DistinctCounts(tests, x);
    hide PutTest;
    if HasTest(tests, t.id) {
      var i :| 0 <= i < |tests| && tests[i].id == t.id;
      PutThere(tests, t, i);
    } else {
      PutLast(tests, t);
    }
  }

  lemma {:induction false} PutOfPermuted(a: seq<Test>, b: seq<Test>, t: Test)
    requires Permutation(a, b) && DistinctIds(a) && DistinctIds(b)
    ensures Permutation(PutTest(a, t), PutTest(b, t))
  {
    hide PutTest, DistinctIds;
    forall x ensures multiset(PutTest(a, t))[x] == multiset(PutTest(b, t))[x] {
      PutCounted(a, t, x);
      PutCounted(b, t, x);
    }
  }

  lemma {:induction false} BothEndWith<T>(a: seq<T>, b: seq<T>, c: seq<T>)
    requires Permutation(a, b)
    ensures Permutation(a + c, b + c)
  {
  }

  // ---- what a console holds, merge after merge ----

  /** The console has what the server has, in whatever order earlier merges left it; each machine
      shows the candidate that the console's own list of sessions puts there last. */
  ghost predicate Holds(held: Console, server: Server) {
    && Permutation(TestsIn(server.exams), held.tests)
    && Permutation(SessionsIn(server.exams), held.sessions)
    && Permutation(ResultsIn(server.exams), held.results)
    && |held.computers| == |server.machines|
    && forall k :: 0 <= k < |held.computers| ==> held.computers[k] == ToComputer(server.machines[k], held.sessions)
  }

  lemma {:induction false} LoadHolds(server: Server)
    ensures Holds(FullLoad(server), server)
  {
    hide TestsIn, SessionsIn, ResultsIn, Owner;
  }

  lemma {:induction false} MergedParts(held: Console, after: Server, j: nat)
    requires j < |after.exams|
    ensures var m, exam := Merged(held, after, j), after.exams[j];
            && m.tests == PutTest(held.tests, ToTest(exam))
            && m.sessions == OtherSessions(held.sessions, exam.id) + SessionsOf(exam)
            && m.results == OtherResults(held.results, exam.id) + ResultsOf(exam)
            && |m.computers| == |held.computers|
  {
    hide PutTest, ToTest, OtherSessions, OtherResults, SessionsOf, ResultsOf, Refreshed;
  }

  lemma {:induction false} MergedTests(held: Console, before: Server, after: Server, j: nat)
    requires WellFormed(before) && WellFormed(after) && OnlyExamWritten(before, after, j)
    requires Permutation(TestsIn(before.exams), held.tests)
    ensures Permutation(TestsIn(after.exams), Merged(held, after, j).tests)
  {
    PermutedIds(before.exams, held.tests);
    PutTests(before, after, j);
    hide *;
    PutOfPermuted(TestsIn(before.exams), held.tests, ToTest(after.exams[j]));
    MergedParts(held, after, j);
    PermutationTrans(TestsIn(after.exams), PutTest(TestsIn(before.exams), ToTest(after.exams[j])), Merged(held, after, j).tests);
  }

  lemma {:induction false} MergedSessions(held: Console, before: Server, after: Server, j: nat)
    requires WellFormed(after) && OnlyExamWritten(before, after, j)
    requires Permutation(SessionsIn(before.exams), held.sessions)
    ensures Permutation(SessionsIn(after.exams), Merged(held, after, j).sessions)
    ensures Permutation(SessionsIn(Rest(after.exams, after.exams[j].id)), OtherSessions(held.sessions, after.exams[j].id))
  {
    var exam, front, back := after.exams[j], after.exams[..j], after.exams[j + 1..];
    OthersAreRest(before.exams, exam.id);
    RestAround(after.exams, j);
    SessionsSplit(front, back);
    OthersOfPermuted(SessionsIn(before.exams), held.sessions, exam.id);
    Around(after.exams, j);
    hide *;
    Rotated(SessionsIn(front), SessionsOf(exam), SessionsIn(back));
    BothEndWith(SessionsIn(Rest(after.exams, exam.id)), OtherSessions(held.sessions, exam.id), SessionsOf(exam));
    MergedParts(held, after, j);
    PermutationTrans(SessionsIn(after.exams), SessionsIn(front + back) + SessionsOf(exam), Merged(held, after, j).sessions);
  }

  lemma {:induction false} MergedResults(held: Console, before: Server, after: Server, j: nat)
    requires WellFormed(after) && OnlyExamWritten(before, after, j)
    requires Permutation(ResultsIn(before.exams), held.results)
    ensures Permutation(ResultsIn(after.exams), Merged(held, after, j).results)
  {
    var exam, front, back := after.exams[j], after.exams[..j], after.exams[j + 1..];
    OthersAreRest(before.exams, exam.id);
    RestAround(after.exams, j);
    ResultsSplit(front, back);
    OtherResultsOfPermuted(ResultsIn(before.exams), held.results, exam.id);
    Around(after.exams, j);
    hide *;
    Rotated(ResultsIn(front), ResultsOf(exam), ResultsIn(back));
    BothEndWith(ResultsIn(Rest(after.exams, exam.id)), OtherResults(held.results, exam.id), ResultsOf(exam));
    MergedParts(held, after, j);
    PermutationTrans(ResultsIn(after.exams), ResultsIn(front + back) + ResultsOf(exam), Merged(held, after, j).results);
  }

  /** Machines of the exam's lab are read again, the others did not change; the candidate is
      looked up in the merged sessions either way. */
  lemma {:induction false} MergedMachine(held: Console, before: Server, after: Server, j: nat, k: nat)
    requires WellFormed(after) && OnlyExamWritten(before, after, j) && k < |after.machines| == |held.computers|
    requires held.computers[k] == ToComputer(before.machines[k], held.sessions)
    ensures |Merged(held, after, j).computers| == |held.computers|
    ensures Merged(held, after, j).computers[k] == ToComputer(after.machines[k], Merged(held, after, j).sessions)
  {
    RereadLab(after.machines, after.exams[j].labId, k);
    hide OtherSessions, OtherResults, LabOf, Reread, SessionsOf, ResultsOf, Owner, Rest, PutTest, ToTest;
  }

  /** If only one exam was written on the server, and the machines of its lab reported, then a
      console that held the server's state holds its new state once it has merged that exam's
      slice: wherever in the list the exam was and wherever it now is, and however the console
      came by what it held. */
  lemma {:induction false} MergeRefinesReload(held: Console, before: Server, after: Server, j: nat)
    requires WellFormed(before) && WellFormed(after) && OnlyExamWritten(before, after, j) && Holds(held, before)
    ensures Holds(Merged(held, after, j), after)
  {
    MergedTests(held, before, after, j);
    MergedSessions(held, before, after, j);
    MergedResults(held, before, after, j);
    MergedParts(held, after, j);
    var m := Merged(held, after, j);
    forall k | 0 <= k < |after.machines| ensures m.computers[k] == ToComputer(after.machines[k], m.sessions) {
      MergedMachine(held, before, after, j, k);
    }
    hide Merged, TestsIn, SessionsIn, ResultsIn, ToComputer, Permutation, WellFormed, Rest;
  }

  /** The server's successive states: between any two of them one exam was written, which then
      stands at the given place. */
  ghost predicate OneByOne(servers: seq<Server>, places: seq<nat>) {
    && |servers| == |places| + 1
    && (forall i :: 0 <= i < |servers| ==> WellFormed(servers[i]))
    && forall i :: 0 <= i < |places| ==> OnlyExamWritten(servers[i], servers[i + 1], places[i])
  }

  /** A console that merges every exam written, one after another. */
  ghost function MergeAll(held: Console, servers: seq<Server>, places: seq<nat>): Console
    requires OneByOne(servers, places)
  {
    if places == [] then held
    else
      var n := |places| - 1;
      assert OnlyExamWritten(servers[n], servers[n + 1], places[n]);
      Merged(MergeAll(held, servers[..n + 1], places[..n]), servers[n + 1], places[n])
  }

  /** However many exams are written, each followed by its merge: the console holds what the
      server then has. */
  lemma {:induction false} MergesRefineReload(held: Console, servers: seq<Server>, places: seq<nat>)
    requires OneByOne(servers, places) && Holds(held, servers[0])
    ensures Holds(MergeAll(held, servers, places), servers[|places|])
  {
    if places != [] {
      var n := |places| - 1;
      hide Holds, Merged, WellFormed, OnlyExamWritten;
      assert OnlyExamWritten(servers[n], servers[n + 1], places[n]);
      MergesRefineReload(held, servers[..n + 1], places[..n]);
      MergeRefinesReload(MergeAll(held, servers[..n + 1], places[..n]), servers[n], servers[n + 1], places[n]);
    }
  }

  /** The first merge after a full load: the tests come in the reload's own order exactly when the
      exam kept its place, or is new at the end; otherwise it is shown where it used to be. */
  lemma {:induction false} TestsInOrderIff(before: Server, after: Server, j: nat)
    requires WellFormed(before) && WellFormed(after) && OnlyExamWritten(before, after, j)
    ensures Merged(FullLoad(before), after, j).tests == FullLoad(after).tests <==>
              if HasTest(FullLoad(before).tests, after.exams[j].id)
              then j < |before.exams| && before.exams[j].id == after.exams[j].id
              else j == |before.exams|
  {
    var exam, tests := after.exams[j], TestsIn(before.exams);
    RestAround(after.exams, j);
    if HasTest(tests, exam.id) {
      var i :| 0 <= i < |tests| && tests[i].id == exam.id;
      RestAround(before.exams, i);
      PutInPlace(before.exams, exam, i);
      hide Rest, PutTest;
      KeptPlace(before.exams, i, after.exams, j);
    } else {
      forall k | 0 <= k < |before.exams| ensures before.exams[k].id != exam.id { assert tests[k].id == before.exams[k].id; }
      AllRest(before.exams, exam.id);
      assert PutTest(tests, ToTest(exam)) == tests + [ToTest(exam)];
      hide Rest, PutTest;
      NewAtEnd(before.exams, after.exams, j);
    }
  }

  lemma {:induction false} KeptPlace(old': seq<ServerExam>, i: nat, new': seq<ServerExam>, j: nat)
    requires Distinct(IdsOf(old')) && Distinct(IdsOf(new')) && i < |old'| && j < |new'| && old'[i].id == new'[j].id
    requires old'[..i] + old'[i + 1..] == new'[..j] + new'[j + 1..]
    ensures TestsIn(old'[i := new'[j]]) == TestsIn(new') <==> j < |old'| && old'[j].id == new'[j].id
  {
    assert |old'| == |new'|;
    if j < |old'| && old'[j].id == new'[j].id {
      assert i == j by { assert IdsOf(old')[i] == IdsOf(old')[j]; }
      SameAround(old', new', j);
      assert old'[i := new'[j]] == new';
    }
    if TestsIn(old'[i := new'[j]]) == TestsIn(new') {
      assert TestsIn(old'[i := new'[j]])[i] == TestsIn(new')[i];
      assert new'[i].id == new'[j].id;
      assert i == j by { assert IdsOf(new')[i] == IdsOf(new')[j]; }
    }
  }

  lemma {:induction false} SameAround(a: seq<ServerExam>, b: seq<ServerExam>, j: nat)
    requires j < |a| == |b| && a[..j] + a[j + 1..] == b[..j] + b[j + 1..]
    ensures forall k :: 0 <= k < |a| && k != j ==> a[k] == b[k]
  {
    forall k | 0 <= k < |a| && k != j ensures a[k] == b[k] {
      var m := if k < j then k else k - 1;
      assert (a[..j] + a[j + 1..])[m] == a[k] && (b[..j] + b[j + 1..])[m] == b[k];
    }
  }

  lemma {:induction false} NewAtEnd(old': seq<ServerExam>, new': seq<ServerExam>, j: nat)
    requires Distinct(IdsOf(new')) && j < |new'| && old' == new'[..j] + new'[j + 1..]
    ensures TestsIn(old') + [ToTest(new'[j])] == TestsIn(new') <==> j == |old'|
  {
    if j == |old'| {
      assert new' == old' + [new'[j]];
      TestsSplit(old', [new'[j]]);
    }
    if TestsIn(old') + [ToTest(new'[j])] == TestsIn(new') {
      assert TestsIn(new')[|old'|].id == new'[j].id;
      assert |old'| == j by { assert IdsOf(new')[|old'|] == IdsOf(new')[j]; }
    }
  }

  /** When the merged list of sessions ends with the same candidate at machine `c` as the reload's.
      The exam's own candidate there must not be overruled by an exam listed after it; where the
      exam seats nobody, what the console had for the other exams must end as their list does. */
  ghost predicate OwnerSettled(held: Console, after: Server, j: nat, c: string)
    requires j < |after.exams|
  {
    var exam := after.exams[j];
    var mine, later := Owner(SessionsOf(exam), c), Owner(SessionsIn(after.exams[j + 1..]), c);
    if mine.Some? then later.None? || later == mine
    else Owner(OtherSessions(held.sessions, exam.id), c) == Owner(SessionsIn(Rest(after.exams, exam.id)), c)
  }

  lemma {:induction false} OwnerAfterMerge(rest: seq<Sitting>, front: seq<Sitting>, mid: seq<Sitting>, back: seq<Sitting>, c: string)
    ensures Owner(rest + mid, c) == Owner(front + mid + back, c) <==>
              if Owner(mid, c).Some? then Owner(back, c).None? || Owner(back, c) == Owner(mid, c)
              else Owner(rest, c) == Owner(front + back, c)
  {
    OwnerSplit(rest, mid, c);
    OwnerSplit(front, back, c);
    OwnerSplit(front + mid, back, c);
    OwnerSplit(front, mid, c);
  }

  /** Every workstation is as a full reload would show it, but for who sits there: that agrees
      exactly when the seating of the machine is settled. */
  lemma {:induction false} MachinesAfterMerge(held: Console, before: Server, after: Server, j: nat, k: nat)
    requires WellFormed(after) && OnlyExamWritten(before, after, j) && Holds(held, before) && k < |after.machines|
    ensures var m, full := Merged(held, after, j).computers, FullLoad(after).computers;
            && |m| == |full| == |after.machines| && full[k].id == after.machines[k].machineId
            && m[k] == full[k].(occupant := m[k].occupant)
            && (m[k].occupant == full[k].occupant <==> OwnerSettled(held, after, j, full[k].id))
  {
    var exam, c := after.exams[j], after.machines[k].machineId;
    var front, back := after.exams[..j], after.exams[j + 1..];
    MergedMachine(held, before, after, j, k);
    MergedParts(held, after, j);
    Around(after.exams, j);
    RestAround(after.exams, j);
    SessionsSplit(front, back);
    hide Merged, SessionsIn, TestsIn, ResultsIn, OtherSessions, OtherResults, LabOf, SessionsOf, Owner, Rest, Permutation, WellFormed;
    OwnerAfterMerge(OtherSessions(held.sessions, exam.id), SessionsIn(front), SessionsOf(exam), SessionsIn(back), c);
  }

  lemma {:induction false} OwnerSits(sessions: seq<Sitting>, c: string)
    ensures Owner(sessions, c).Some? ==>
              exists s :: s in sessions && s.computerId == c && s.studentId == Owner(sessions, c).value
  {
    if sessions != [] {
      var last, init := sessions[|sessions| - 1], sessions[..|sessions| - 1];
      OwnerSits(init, c);
      assert last in sessions;
      if !(last.computerId == c && c != UNASSIGNED) && Owner(init, c).Some? {
        var s :| s in init && s.computerId == c && s.studentId == Owner(init, c).value;
        assert s in sessions;
      }
    }
  }

  lemma {:induction false} SittingHasOwner(sessions: seq<Sitting>, s: Sitting)
    requires s in sessions && s.computerId != UNASSIGNED
    ensures Owner(sessions, s.computerId).Some?
  {
    var last, init := sessions[|sessions| - 1], sessions[..|sessions| - 1];
    if last != s {
      assert s in init;
      SittingHasOwner(init, s);
    }
  }

  ghost predicate OneCandidateAt(sessions: seq<Sitting>, c: string) {
    forall s, t :: s in sessions && t in sessions && s.computerId == c && t.computerId == c ==> s.studentId == t.studentId
  }

  lemma {:induction false} UnassignedOwnsNobody(sessions: seq<Sitting>)
    ensures Owner(sessions, UNASSIGNED) == None
  {
    if sessions != [] { UnassignedOwnsNobody(sessions[..|sessions| - 1]); }
  }

  lemma {:induction false} SoleOwner(a: seq<Sitting>, b: seq<Sitting>, c: string)
    requires (forall s :: s in a <==> s in b) && OneCandidateAt(a, c)
    ensures Owner(a, c) == Owner(b, c)
  {
    OwnerSits(a, c);
    OwnerSits(b, c);
    UnassignedOwnsNobody(a);
    UnassignedOwnsNobody(b);
    hide Owner;
    if Owner(a, c).Some? {
      var s :| s in a && s.computerId == c && s.studentId == Owner(a, c).value;
      SittingHasOwner(b, s);
      var t :| t in b && t.computerId == c && t.studentId == Owner(b, c).value;
    } else if Owner(b, c).Some? {
      var s :| s in b && s.computerId == c && s.studentId == Owner(b, c).value;
      SittingHasOwner(a, s);
    }
  }

  lemma {:induction false} PermutedMembers<T>(a: seq<T>, b: seq<T>)
    requires Permutation(a, b)
    ensures forall x :: x in a <==> x in b
  {
    forall x ensures x in a <==> x in b {
      assert (x in a <==> x in multiset(a)) && (x in b <==> x in multiset(b));
    }
  }

  /** A machine that at most one candidate sits at shows exactly what a full reload would, however
      many merges the console has made. */
  lemma {:induction false} SoleCandidateExact(held: Console, server: Server, k: nat)
    requires Holds(held, server) && k < |server.machines|
    requires OneCandidateAt(SessionsIn(server.exams), server.machines[k].machineId)
    ensures held.computers[k] == FullLoad(server).computers[k]
  {
    PermutedMembers(SessionsIn(server.exams), held.sessions);
    hide SessionsIn, TestsIn, ResultsIn, Owner, OneCandidateAt;
    SoleOwner(SessionsIn(server.exams), held.sessions, server.machines[k].machineId);
  }

  const MORNING := ServerExam(0, false, "morning", 0, [RosterRow(1, Some("LAB-1"), "")], ResultsPage([], false, None))
  const EVENING := ServerExam(1, false, "evening", 0, [RosterRow(2, Some("LAB-1"), "")], ResultsPage([], false, None))
  const SHARED := Server([MORNING, EVENING], [Machine("LAB-1", 0, "")])

  const AT_MORNING := Sitting(0, 1, "LAB-1", "")
  const AT_EVENING := Sitting(1, 2, "LAB-1", "")

  lemma {:induction false} OneSitting(s: Sitting)
    requires s.computerId == "LAB-1"
    ensures Owner([s], "LAB-1") == Some(s.studentId)
  {
  }

  lemma {:induction false} SharedSessions()
    ensures SessionsIn(SHARED.exams) == [AT_MORNING] + [AT_EVENING]
    ensures OtherSessions(SessionsIn(SHARED.exams), 0) + SessionsOf(MORNING) == [AT_EVENING] + [AT_MORNING]
  {
    assert SessionsOf(MORNING) == [AT_MORNING] && SessionsOf(EVENING) == [AT_EVENING];
    hide SessionsOf, SessionsIn, OtherSessions;
    SessionsSplit([MORNING], [EVENING]);
    SessionsOne(MORNING);
    SessionsOne(EVENING);
    assert SHARED.exams == [MORNING] + [EVENING];
    OthersSplit([AT_MORNING], [AT_EVENING], 0);
    OthersOfOne(AT_MORNING, 0);
    OthersOfOne(AT_EVENING, 0);
    assert [] + [AT_EVENING] == [AT_EVENING];
  }

  lemma {:induction false} SharedOwners()
    ensures Owner([AT_MORNING] + [AT_EVENING], "LAB-1") == Some(2)
    ensures Owner([AT_EVENING] + [AT_MORNING], "LAB-1") == Some(1)
  {
    hide Owner;
    OneSitting(AT_MORNING);
    OneSitting(AT_EVENING);
    OwnerSplit([AT_MORNING], [AT_EVENING], "LAB-1");
    OwnerSplit([AT_EVENING], [AT_MORNING], "LAB-1");
  }

  lemma {:induction false} SharedMachine()
    ensures Reread(LabOf(SHARED.machines, 0), "LAB-1") == Some(Machine("LAB-1", 0, ""))
  {
    RereadLab(SHARED.machines, 0, 0);
  }

  /** With two candidates at one machine it does not: re-reading the morning exam, nothing having
      changed, moves its candidate into the seat a full reload gives to the evening's. */
  lemma {:induction false} SharedMachineDisagrees()
    ensures FullLoad(SHARED).computers[0].occupant == Some(2)
    ensures Merged(FullLoad(SHARED), SHARED, 0).computers[0].occupant == Some(1)
  {
    SharedSessions();
    SharedOwners();
    SharedMachine();
    hide SessionsIn, OtherSessions, SessionsOf, Owner, ResultsIn, ResultsOf, OtherResults, TestsIn, PutTest, LabOf, Reread;
  }

  /** When the written exam stands last. */
  lemma {:induction false} LastLists(before: Server, after: Server, j: nat)
    requires WellFormed(after) && OnlyExamWritten(before, after, j) && j + 1 == |after.exams|
    ensures Merged(FullLoad(before), after, j).sessions == FullLoad(after).sessions
    ensures Merged(FullLoad(before), after, j).results == FullLoad(after).results
  {
    LoadedLists(after);
    MergedLists(before, after, j);
    Around(after.exams, j);
    NothingAfter(after.exams, j);
    hide *;
    NoTail(SessionsIn(after.exams[..j]), SessionsOf(after.exams[j]));
    NoTail(ResultsIn(after.exams[..j]), ResultsOf(after.exams[j]));
  }

  lemma {:induction false} NoTail<T>(front: seq<T>, mid: seq<T>)
    ensures front + mid + [] == front + [] + mid
  {
  }

  lemma {:induction false} LastMachines(before: Server, after: Server, j: nat)
    requires WellFormed(after) && OnlyExamWritten(before, after, j) && j + 1 == |after.exams|
    ensures Merged(FullLoad(before), after, j).computers == FullLoad(after).computers
  {
    LastLists(before, after, j);
    LoadHolds(before);
    var m, full := Merged(FullLoad(before), after, j), FullLoad(after);
    MergedParts(FullLoad(before), after, j);
    forall k | 0 <= k < |after.machines| ensures m.computers[k] == ToComputer(after.machines[k], full.sessions) {
      MergedMachine(FullLoad(before), before, after, j, k);
    }
    hide Merged, TestsIn, SessionsIn, ResultsIn, ToComputer;
    assert m.computers == full.computers;
  }

  /** A new exam at the end of the server's list: the merge is the full reload, order and all. */
  lemma {:induction false} CreatedLastMergesExactly(before: Server, exam: ServerExam, machines: seq<Machine>)
    requires WellFormed(before) && WellFormed(Server(before.exams + [exam], machines))
    requires OnlyLabChanged(before.machines, machines, exam.labId)
    ensures Merge(FullLoad(before), exam, LabOf(machines, exam.labId)) == FullLoad(Server(before.exams + [exam], machines))
  {
    var after, j := Server(before.exams + [exam], machines), |before.exams|;
    RestOfNew(before.exams, exam);
    assert after.exams[j] == exam;
    LoadedLists(before);
    assert OnlyExamWritten(before, after, j);
    hide *;
    TestsInOrderIff(before, after, j);
    LastLists(before, after, j);
    LastMachines(before, after, j);
    MergedIs(before, after, j);
  }

  lemma {:induction false} MergedIs(before: Server, after: Server, j: nat)
    requires j < |after.exams|
    ensures Merged(FullLoad(before), after, j) == Merge(FullLoad(before), after.exams[j], LabOf(after.machines, after.exams[j].labId))
  {
  }

  lemma {:induction false} NothingAfter(exams: seq<ServerExam>, j: nat)
    requires j + 1 == |exams|
    ensures SessionsIn(exams[j + 1..]) == [] && ResultsIn(exams[j + 1..]) == []
  {
  }

  lemma {:induction false} RestOfNew(exams: seq<ServerExam>, exam: ServerExam)
    requires Distinct(IdsOf(exams + [exam]))
    ensures Rest(exams + [exam], exam.id) == exams && Rest(exams, exam.id) == exams
    ensures !HasTest(TestsIn(exams), exam.id)
  {
    var all := exams + [exam];
    forall k | 0 <= k < |exams| ensures exams[k].id != exam.id { assert IdsOf(all)[k] != IdsOf(all)[|exams|]; }
    AllRest(exams, exam.id);
    RestLast(exams, exam, exam.id);
    assert exams + [] == exams;
  }

  // ---- merges of different exams ----

  lemma {:induction false} OthersCommute(sessions: seq<Sitting>, a: nat, b: nat)
    ensures OtherSessions(OtherSessions(sessions, a), b) == OtherSessions(OtherSessions(sessions, b), a)
  {
    if sessions != [] {
      var init, last := sessions[..|sessions| - 1], [sessions[|sessions| - 1]];
      hide OtherSessions;
      OthersCommute(init, a, b);
      assert sessions == init + last;
      LastCommutes(sessions[|sessions| - 1], a, b);
      OthersSplit(init, last, a);
      OthersSplit(init, last, b);
      OthersSplit(OtherSessions(init, a), OtherSessions(last, a), b);
      OthersSplit(OtherSessions(init, b), OtherSessions(last, b), a);
    }
  }

  lemma {:induction false} LastCommutes(s: Sitting, a: nat, b: nat)
    ensures OtherSessions(OtherSessions([s], a), b) == OtherSessions(OtherSessions([s], b), a)
  {
    OthersOfOne(s, a);
    OthersOfOne(s, b);
  }

  lemma {:induction false} OthersOfOne(s: Sitting, a: nat)
    ensures OtherSessions([s], a) == if s.testId != a then [s] else []
  {
    assert [s][..0] == [];
  }

  lemma {:induction false} ResultsCommute(results: seq<Outcome>, a: nat, b: nat)
    ensures OtherResults(OtherResults(results, a), b) == OtherResults(OtherResults(results, b), a)
  {
    if results != [] {
      var init, last := results[..|results| - 1], [results[|results| - 1]];
      hide OtherResults;
      ResultsCommute(init, a, b);
      assert results == init + last;
      LastResultCommutes(results[|results| - 1], a, b);
      OtherResultsSplit(init, last, a);
      OtherResultsSplit(init, last, b);
      OtherResultsSplit(OtherResults(init, a), OtherResults(last, a), b);
      OtherResultsSplit(OtherResults(init, b), OtherResults(last, b), a);
    }
  }

  lemma {:induction false} LastResultCommutes(r: Outcome, a: nat, b: nat)
    ensures OtherResults(OtherResults([r], a), b) == OtherResults(OtherResults([r], b), a)
  {
    ResultsOfOne(r, a);
    ResultsOfOne(r, b);
  }

  lemma {:induction false} ResultsOfOne(r: Outcome, a: nat)
    ensures OtherResults([r], a) == if r.testId != a then [r] else []
  {
    assert [r][..0] == [];
  }

  lemma {:induction false} PutKeepsHas(tests: seq<Test>, x: Test, id: nat)
    requires x.id != id
    ensures HasTest(PutTest(tests, x), id) <==> HasTest(tests, id)
  {
    var after := PutTest(tests, x);
    if HasTest(tests, id) {
      var i :| 0 <= i < |tests| && tests[i].id == id;
      assert after[i].id == id;
    }
    if HasTest(after, id) {
      var i :| 0 <= i < |after| && after[i].id == id;
      assert i < |tests| && tests[i].id == id;
    }
  }

  lemma {:induction false} PutsCommute(tests: seq<Test>, x: Test, y: Test)
    requires x.id != y.id
    ensures Permutation(PutTest(PutTest(tests, x), y), PutTest(PutTest(tests, y), x))
    ensures HasTest(tests, x.id) || HasTest(tests, y.id) ==> PutTest(PutTest(tests, x), y) == PutTest(PutTest(tests, y), x)
  {
    PutKeepsHas(tests, x, y.id);
    PutKeepsHas(tests, y, x.id);
    if !HasTest(tests, x.id) && !HasTest(tests, y.id) {
      assert tests + [x] + [y] == tests + [x, y] && tests + [y] + [x] == tests + [y, x];
      assert multiset([x, y]) == multiset([y, x]);
      hide HasTest;
      assert PutTest(PutTest(tests, x), y) == tests + [x] + [y] && PutTest(PutTest(tests, y), x) == tests + [y] + [x];
    } else {
      assert PutTest(PutTest(tests, x), y) == PutTest(PutTest(tests, y), x);
    }
  }

  /** The slices of two different exams can be merged in either order: the same tests, sessions
      and results, up to order. */
  lemma {:induction false} MergesCommute(p: Console, a: ServerExam, ma: seq<Machine>, b: ServerExam, mb: seq<Machine>)
    requires a.id != b.id
    ensures var ab, ba := Merge(Merge(p, a, ma), b, mb), Merge(Merge(p, b, mb), a, ma);
            && Permutation(ab.tests, ba.tests) && Permutation(ab.sessions, ba.sessions) && Permutation(ab.results, ba.results)
            && (HasTest(p.tests, a.id) || HasTest(p.tests, b.id) ==> ab.tests == ba.tests)
  {
    PutsCommute(p.tests, ToTest(a), ToTest(b));
    SessionsMerge(p.sessions, a, b);
    ResultsMerge(p.results, a, b);
    hide OtherSessions, OtherResults, PutTest, Refreshed, SessionsOf, ResultsOf;
  }

  lemma {:induction false} SessionsMerge(sessions: seq<Sitting>, a: ServerExam, b: ServerExam)
    requires a.id != b.id
    ensures Permutation(OtherSessions(OtherSessions(sessions, a.id) + SessionsOf(a), b.id) + SessionsOf(b),
                        OtherSessions(OtherSessions(sessions, b.id) + SessionsOf(b), a.id) + SessionsOf(a))
  {
    OthersSplit(OtherSessions(sessions, a.id), SessionsOf(a), b.id);
    OthersSplit(OtherSessions(sessions, b.id), SessionsOf(b), a.id);
    OthersCommute(sessions, a.id, b.id);
    AllOther(SessionsOf(a), b.id);
    AllOther(SessionsOf(b), a.id);
    hide OtherSessions, SessionsOf;
    var rest := OtherSessions(OtherSessions(sessions, a.id), b.id);
    assert multiset(rest + SessionsOf(a) + SessionsOf(b)) == multiset(rest + SessionsOf(b) + SessionsOf(a));
  }

  lemma {:induction false} ResultsMerge(results: seq<Outcome>, a: ServerExam, b: ServerExam)
    requires a.id != b.id
    ensures Permutation(OtherResults(OtherResults(results, a.id) + ResultsOf(a), b.id) + ResultsOf(b),
                        OtherResults(OtherResults(results, b.id) + ResultsOf(b), a.id) + ResultsOf(a))
  {
    OtherResultsSplit(OtherResults(results, a.id), ResultsOf(a), b.id);
    OtherResultsSplit(OtherResults(results, b.id), ResultsOf(b), a.id);
    ResultsCommute(results, a.id, b.id);
    AllOtherResults(ResultsOf(a), b.id);
    AllOtherResults(ResultsOf(b), a.id);
    hide OtherResults, ResultsOf;
    var rest := OtherResults(OtherResults(results, a.id), b.id);
    assert multiset(rest + ResultsOf(a) + ResultsOf(b)) == multiset(rest + ResultsOf(b) + ResultsOf(a));
  }
}
