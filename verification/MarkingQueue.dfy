/** Marking programs as a shared queue: any number of workers that claim unmarked rows with
    SKIP LOCKED, against corrections that replace a question's test cases and clear its marks,
    candidates whose saves arrive late, and drafts that put a bank question on further exams
    (`claim_and_grade` and `correct_test_cases` in backend/app/services/coding.py, `save_answer` in
    backend/app/services/sessions.py). A step is one statement of one transaction; steps of
    different transactions interleave freely. */
module MarkingQueue {
  import opened Basics
  import opened OutputComparison
  import opened Marks
  import Engine

  type Key = Engine.Key

  // ---- the committed rows ----

  /** A mark together with the program, cases and executions it was computed from. */
  datatype Mark = Mark(value: nat, source: Option<string>, tests: seq<TestCase>, runs: seq<Execution>)

  /** `source` is None when the stored value is not a program. */
  datatype Row = Row(source: Option<string>, mark: Option<Mark>)

  datatype Sitting = Sitting(exam: nat, submittedAt: Option<int>)

  /** `exams` are the exams the question is used on. */
  datatype Program = Program(exams: set<nat>, coding: bool, marks: nat, tests: seq<TestCase>)

  // ---- transactions in progress ----

  /** Rows claimed, test cases read so far, and what will be written on commit. */
  datatype Worker = Worker(claimed: set<Key>, loaded: map<nat, seq<TestCase>>, pending: map<Key, Option<Mark>>)

  /** New cases written but not committed; the answers its UPDATE saw as it started, and those of
      them locked so far. */
  datatype Fix = Fix(exam: nat, question: nat, cases: seq<TestCase>, targets: Option<set<Key>>, locked: set<Key>)

  /** A save that has been found writable and has not been written: to a new row or an old one. */
  datatype Saving = Saving(key: Key, source: Option<string>, insert: bool)

  datatype Queue = Queue(
    completed: set<nat>, sittings: map<nat, Sitting>, questions: map<nat, Program>, rows: map<Key, Row>,
    workers: map<nat, Worker>, fixes: map<nat, Fix>, saves: map<nat, Saving>)

  /** How many rows one pass claims. */
  const LIMIT: nat := 4

  // ---- marking one program ----

  predicate Blank(source: Option<string>) {
    source.None? || forall c :: c in source.value ==> IsSpace(c)
  }

  /** What the pass writes for a program: nothing when some case could not be run. */
  function MarkFor(question: Program, tests: seq<TestCase>, source: Option<string>, runs: seq<Execution>): Option<Mark>
    requires |runs| == |tests|
  {
    if Blank(source) then Some(Mark(0, source, tests, runs))
    else if AnyUnavailable(runs) then None
    else Some(Mark(RoundedMarks(question.marks, Earned(tests, runs), TotalWeight(tests)), source, tests, runs))
  }

  // ---- locks ----

  predicate HeldByWorker(q: Queue, k: Key) {
    exists w :: w in q.workers && k in q.workers[w].claimed
  }

  predicate HeldByFix(q: Queue, k: Key) {
    exists f :: f in q.fixes && k in q.fixes[f].locked
  }

  predicate Waiting(q: Queue, k: Key) {
    && k in q.rows && k.question in q.questions && q.questions[k.question].coding
    && q.rows[k].mark.None?
    && k.session in q.sittings && q.sittings[k.session].submittedAt.Some?
  }

  predicate Claimable(q: Queue, k: Key) {
    Waiting(q, k) && !HeldByWorker(q, k) && !HeldByFix(q, k)
  }

  /** The answers a correction asks for: those to its question by candidates of its exam. */
  function Targets(q: Queue, exam: nat, question: nat): set<Key> {
    set k | k in q.rows && k.question == question && k.session in q.sittings && q.sittings[k.session].exam == exam
  }

  predicate HasSittings(q: Queue, exam: nat) {
    exists s :: s in q.sittings && q.sittings[s].exam == exam
  }

  // ---- steps ----

  // A paper is only edited while nobody sits the exam. A save is checked first and written later,
  // waiting for whoever holds the row. A claim locks rows one after another, each one that is
  // unmarked, submitted and held by nobody at the moment it is locked; rows held by others are
  // passed over, never waited for. A correction's UPDATE goes through the rows there were as it
  // started, waiting for each.

  datatype Step =
    | Link(exam: nat, question: nat)
    | Unlink(exam: nat, question: nat)
    | Sit(session: nat, exam: nat)
    | CheckSave(save: nat, key: Key, source: Option<string>)
    | WriteSave(save: nat)
    | AbortSave(save: nat)
    | HandIn(session: nat, at: int)
    | Complete(exam: nat)
    | BeginPass(worker: nat)
    | ClaimRow(worker: nat, key: Key)
    | Load(worker: nat, question: nat)
    | Execute(worker: nat, key: Key, runs: seq<Execution>)
    | Commit(worker: nat)
    | Abort(worker: nat)
    | BeginFix(fix: nat, exam: nat, question: nat, cases: seq<TestCase>)
    | ScanFix(fix: nat)
    | LockRow(fix: nat, key: Key)
    | CommitFix(fix: nat)
    | AbortFix(fix: nat)

  /** The step can be taken now: the call is not refused, and no lock it needs is held. */
  ghost predicate Enabled(q: Queue, step: Step) {
    match step
    case Link(exam, question) => question in q.questions && exam !in q.completed && !HasSittings(q, exam)
    case Unlink(exam, question) => question in q.questions && exam !in q.completed && !HasSittings(q, exam)
    case Sit(s, exam) => s !in q.sittings && exam !in q.completed
    case CheckSave(v, k, _) =>
      && v !in q.saves && k.session in q.sittings && k.question in q.questions
      && q.sittings[k.session].submittedAt.None? && q.sittings[k.session].exam !in q.completed
    case WriteSave(v) =>
      && v in q.saves
      && (if q.saves[v].insert then q.saves[v].key !in q.rows
          else !HeldByWorker(q, q.saves[v].key) && !HeldByFix(q, q.saves[v].key))
    case AbortSave(v) => v in q.saves
    case HandIn(s, _) => s in q.sittings && q.sittings[s].submittedAt.None?
    case Complete(_) => true
    case BeginPass(w) => w !in q.workers
    case ClaimRow(w, k) =>
      && w in q.workers && |q.workers[w].claimed| < LIMIT && Claimable(q, k)
      && q.workers[w].loaded == map[] && q.workers[w].pending == map[]
    case Load(w, question) =>
      && w in q.workers && question in q.questions && question !in q.workers[w].loaded
      && exists k :: k in q.workers[w].claimed && k.question == question
    case Execute(w, k, runs) =>
      && w in q.workers && k in q.workers[w].claimed && k !in q.workers[w].pending && k in q.rows
      && k.question in q.questions && k.question in q.workers[w].loaded && |runs| == |q.workers[w].loaded[k.question]|
    case Commit(w) => w in q.workers && q.workers[w].pending.Keys == q.workers[w].claimed
    case Abort(w) => w in q.workers
    case BeginFix(f, exam, question, cases) =>
      && f !in q.fixes && exam in q.completed && cases != []
      && question in q.questions && q.questions[question].coding && q.questions[question].exams == {exam}
      && forall g :: g in q.fixes ==> q.fixes[g].question != question
    case ScanFix(f) => f in q.fixes && q.fixes[f].targets.None?
    case LockRow(f, k) =>
      && f in q.fixes && q.fixes[f].targets.Some? && k in q.fixes[f].targets.value
      && !HeldByWorker(q, k) && !HeldByFix(q, k)
    case CommitFix(f) =>
      && f in q.fixes && q.fixes[f].targets.Some? && q.fixes[f].targets.value <= q.fixes[f].locked
      && q.fixes[f].question in q.questions
    case AbortFix(f) => f in q.fixes
  }

  function Without<K, V>(m: map<K, V>, k: K): map<K, V> {
    map x | x in m && x != k :: m[x]
  }

  /** The rows after a worker's commit: its pending marks, where there is one. */
  function Written(rows: map<Key, Row>, pending: map<Key, Option<Mark>>): map<Key, Row> {
    map k | k in rows :: if k in pending && pending[k].Some? then rows[k].(mark := pending[k]) else rows[k]
  }

  function Cleared(rows: map<Key, Row>, targets: set<Key>): map<Key, Row> {
    map k | k in rows :: if k in targets then rows[k].(mark := None) else rows[k]
  }

  function OnPaper(q: Queue, question: nat, exams: set<nat>): Queue
    requires question in q.questions
  {
    q.(questions := q.questions[question := q.questions[question].(exams := exams)])
  }

  /** The correction's cases replaced and its marks cleared, in one commit. */
  function Corrected(q: Queue, x: Fix): Queue
    requires x.question in q.questions
  {
    q.(questions := q.questions[x.question := q.questions[x.question].(tests := x.cases)], rows := Cleared(q.rows, x.locked))
  }

  ghost function Take(q: Queue, step: Step): Queue
    requires Enabled(q, step)
  {
    match step
    case Link(exam, question) => OnPaper(q, question, q.questions[question].exams + {exam})
    case Unlink(exam, question) => OnPaper(q, question, q.questions[question].exams - {exam})
    case Sit(s, exam) => q.(sittings := q.sittings[s := Sitting(exam, None)])
    case CheckSave(v, k, source) => q.(saves := q.saves[v := Saving(k, source, k !in q.rows)])
    case WriteSave(v) =>
      var x := q.saves[v];
      q.(rows := q.rows[x.key := Row(x.source, if x.key in q.rows then q.rows[x.key].mark else None)], saves := Without(q.saves, v))
    case AbortSave(v) => q.(saves := Without(q.saves, v))
    case HandIn(s, at) => q.(sittings := q.sittings[s := q.sittings[s].(submittedAt := Some(at))])
    case Complete(exam) => q.(completed := q.completed + {exam})
    case BeginPass(w) => q.(workers := q.workers[w := Worker({}, map[], map[])])
    case ClaimRow(w, k) => q.(workers := q.workers[w := q.workers[w].(claimed := q.workers[w].claimed + {k})])
    case Load(w, question) =>
      var x := q.workers[w];
      q.(workers := q.workers[w := x.(loaded := x.loaded[question := q.questions[question].tests])])
    case Execute(w, k, runs) =>
      var x := q.workers[w];
      q.(workers := q.workers[w := x.(pending := x.pending[k :=
        MarkFor(q.questions[k.question], x.loaded[k.question], q.rows[k].source, runs)])])
    case Commit(w) => q.(rows := Written(q.rows, q.workers[w].pending), workers := Without(q.workers, w))
    case Abort(w) => q.(workers := Without(q.workers, w))
    case BeginFix(f, exam, question, cases) => q.(fixes := q.fixes[f := Fix(exam, question, cases, None, {})])
    case ScanFix(f) =>
      q.(fixes := q.fixes[f := q.fixes[f].(targets := Some(Targets(q, q.fixes[f].exam, q.fixes[f].question)))])
    case LockRow(f, k) => q.(fixes := q.fixes[f := q.fixes[f].(locked := q.fixes[f].locked + {k})])
    case CommitFix(f) => Corrected(q.(fixes := Without(q.fixes, f)), q.fixes[f])
    case AbortFix(f) => q.(fixes := Without(q.fixes, f))
  }

  /** A call that is refused changes nothing; one that waits for a lock has not happened yet. */
  ghost function Next(q: Queue, step: Step): Queue {
    if Enabled(q, step) then Take(q, step) else q
  }

  ghost function Run(q: Queue, steps: seq<Step>): Queue {
    if steps == [] then q else Next(Run(q, steps[..|steps| - 1]), steps[|steps| - 1])
  }

  // ---- the invariant ----

  ghost predicate WorkersApart(q: Queue) {
    forall v, w :: v in q.workers && w in q.workers && v != w ==> q.workers[v].claimed !! q.workers[w].claimed
  }

  ghost predicate FixesApart(q: Queue) {
    && (forall w, f :: w in q.workers && f in q.fixes ==> q.workers[w].claimed !! q.fixes[f].locked)
    && (forall f, g :: f in q.fixes && g in q.fixes && f != g ==> q.fixes[f].question != q.fixes[g].question)
  }

  /** `mark` is what `tests` make of the program it was given for. */
  ghost predicate Earnt(mark: Mark, question: Program, tests: seq<TestCase>) {
    && mark.tests == tests && |mark.runs| == |tests|
    && MarkFor(question, tests, mark.source, mark.runs) == Some(mark)
  }

  ghost predicate WorkerOk(q: Queue, w: Worker) {
    && (forall k :: k in w.claimed ==> Waiting(q, k))
    && (forall k :: k in w.pending ==> k in w.claimed && k in q.rows && k.question in w.loaded && k.question in q.questions)
    && (forall k :: k in w.pending && w.pending[k].Some? ==>
          w.pending[k].value.source == q.rows[k].source && Earnt(w.pending[k].value, q.questions[k.question], w.loaded[k.question]))
  }

  ghost predicate FixOk(q: Queue, f: Fix) {
    && f.exam in q.completed && f.question in q.questions
    && (match f.targets
        case None => f.locked == {}
        case Some(rows) => f.locked <= rows <= Targets(q, f.exam, f.question))
  }

  /** Only submitted papers are marked, and every mark was earned on the cases it was given for. */
  ghost predicate RowsOk(q: Queue) {
    forall k :: k in q.rows ==>
      && k.session in q.sittings && k.question in q.questions
      && (q.rows[k].mark.Some? ==>
            q.sittings[k.session].submittedAt.Some? && Earnt(q.rows[k].mark.value, q.questions[k.question], q.rows[k].mark.value.tests))
  }

  ghost predicate SavesOk(q: Queue) {
    forall v :: v in q.saves ==>
      && q.saves[v].key.session in q.sittings && q.saves[v].key.question in q.questions
      && (!q.saves[v].insert ==> q.saves[v].key in q.rows)
  }

  ghost predicate Inv(q: Queue) {
    && WorkersApart(q) && FixesApart(q) && RowsOk(q) && SavesOk(q)
    && (forall w :: w in q.workers ==> WorkerOk(q, q.workers[w]))
    && (forall f :: f in q.fixes ==> FixOk(q, q.fixes[f]))
  }

  lemma {:induction false} WorkersAreOk(q: Queue)
    requires Inv(q)
    ensures RowsOk(q) && forall w :: w in q.workers ==> WorkerOk(q, q.workers[w])
  {
    hide WorkerOk, RowsOk;
  }

  lemma {:induction false} FixesAreOk(q: Queue)
    requires Inv(q)
    ensures FixesApart(q) && forall f :: f in q.fixes ==> FixOk(q, q.fixes[f])
  {
    hide FixOk, FixesApart;
  }

  // ---- what every step keeps ----

  /** Nothing is taken away: exams stay completed, papers submitted, rows and questions there. */
  ghost predicate Evolves(q: Queue, q': Queue) {
    && q.completed <= q'.completed
    && (forall n :: n in q.questions ==>
          n in q'.questions && q'.questions[n].marks == q.questions[n].marks && q'.questions[n].coding == q.questions[n].coding)
    && (forall s :: s in q.sittings ==>
          && s in q'.sittings && q'.sittings[s].exam == q.sittings[s].exam
          && (q.sittings[s].submittedAt.Some? ==> q'.sittings[s].submittedAt.Some?))
    && (forall k :: k in q.rows ==> k in q'.rows)
  }

  lemma {:induction false} SameEvolves(q: Queue, q': Queue)
    requires q'.rows == q.rows && q'.sittings == q.sittings && q'.questions == q.questions && q.completed <= q'.completed
    ensures Evolves(q, q')
  {
  }

  /** Which parts of the state a step may touch at all. */
  lemma {:induction false} Frame(q: Queue, step: Step)
    requires Enabled(q, step)
    ensures !step.WriteSave? && !step.Commit? && !step.CommitFix? ==> Take(q, step).rows == q.rows
    ensures !step.Sit? && !step.HandIn? ==> Take(q, step).sittings == q.sittings
    ensures !step.Link? && !step.Unlink? && !step.CommitFix? ==> Take(q, step).questions == q.questions
    ensures !step.Complete? ==> Take(q, step).completed == q.completed
    ensures !WorkerStep(step) ==> Take(q, step).workers == q.workers
    ensures !FixStep(step) ==> Take(q, step).fixes == q.fixes
    ensures !step.CheckSave? && !step.WriteSave? && !step.AbortSave? ==> Take(q, step).saves == q.saves
  {
    hide Claimable, HeldByWorker, HeldByFix, MarkFor, Targets, HasSittings, Written, Cleared, Without;
  }

  predicate WorkerStep(step: Step) {
    step.BeginPass? || step.ClaimRow? || step.Load? || step.Execute? || step.Commit? || step.Abort?
  }

  predicate FixStep(step: Step) {
    step.BeginFix? || step.ScanFix? || step.LockRow? || step.CommitFix? || step.AbortFix?
  }

  lemma {:induction false} PaperEvolves(q: Queue, step: Step)
    requires Enabled(q, step) && (step.Link? || step.Unlink? || step.Sit? || step.HandIn? || step.Complete?)
    ensures Evolves(q, Take(q, step))
  {
    hide HasSittings;
  }

  lemma {:induction false} RowsEvolve(q: Queue, step: Step)
    requires Enabled(q, step) && (step.WriteSave? || step.Commit? || step.CommitFix?)
    ensures Evolves(q, Take(q, step))
  {
    hide HeldByWorker, HeldByFix;
  }

  lemma {:induction false} StepEvolves(q: Queue, step: Step)
    requires Enabled(q, step)
    ensures Evolves(q, Take(q, step))
  {
    Frame(q, step);
    hide Take, Enabled, Evolves;
    if step.Link? || step.Unlink? || step.Sit? || step.HandIn? || step.Complete? {
      PaperEvolves(q, step);
    } else if step.WriteSave? || step.Commit? || step.CommitFix? {
      RowsEvolve(q, step);
    } else {
      SameEvolves(q, Take(q, step));
    }
  }

  lemma {:induction false} EarntByMarks(mark: Mark, a: Program, b: Program, tests: seq<TestCase>)
    requires a.marks == b.marks
    ensures Earnt(mark, a, tests) <==> Earnt(mark, b, tests)
  {
  }

  lemma {:induction false} WorkerKept(q: Queue, q': Queue, x: Worker)
    requires WorkerOk(q, x) && Evolves(q, q') && forall k :: k in x.claimed && k in q.rows ==> k in q'.rows && q'.rows[k] == q.rows[k]
    ensures WorkerOk(q', x)
  {
    hide Earnt;
    forall k | k in x.claimed ensures Waiting(q', k) { assert Waiting(q, k); }
    forall k | k in x.pending && x.pending[k].Some?
      ensures x.pending[k].value.source == q'.rows[k].source
      ensures Earnt(x.pending[k].value, q'.questions[k.question], x.loaded[k.question])
    {
      EarntByMarks(x.pending[k].value, q.questions[k.question], q'.questions[k.question], x.loaded[k.question]);
    }
  }

  lemma {:induction false} FixKept(q: Queue, q': Queue, x: Fix)
    requires FixOk(q, x) && Evolves(q, q')
    ensures FixOk(q', x)
  {
    assert Targets(q, x.exam, x.question) <= Targets(q', x.exam, x.question);
  }

  lemma {:induction false} SavesKept(q: Queue, q': Queue)
    requires SavesOk(q) && Evolves(q, q') && q'.saves == q.saves
    ensures SavesOk(q')
  {
  }

  /** Transactions other than workers and corrections: those keep what they rely on. */
  lemma {:induction false} KeptInv(q: Queue, q': Queue)
    requires Inv(q) && Evolves(q, q') && q'.workers == q.workers && q'.fixes == q.fixes && RowsOk(q') && SavesOk(q')
    requires forall w, k :: w in q.workers && k in q.workers[w].claimed && k in q.rows ==> k in q'.rows && q'.rows[k] == q.rows[k]
    ensures Inv(q')
  {
    hide WorkerOk, FixOk, RowsOk, SavesOk, Evolves;
    forall w | w in q'.workers ensures WorkerOk(q', q'.workers[w]) { WorkerKept(q, q', q.workers[w]); }
    forall f | f in q'.fixes ensures FixOk(q', q'.fixes[f]) { FixKept(q, q', q.fixes[f]); }
  }

  // ---- papers, sittings, saves ----

  lemma {:induction false} RowsKept(q: Queue, q': Queue)
    requires RowsOk(q) && Evolves(q, q') && q'.rows == q.rows
    ensures RowsOk(q')
  {
    hide Earnt;
    forall k | k in q.rows && q.rows[k].mark.Some?
      ensures Earnt(q.rows[k].mark.value, q'.questions[k.question], q.rows[k].mark.value.tests)
    {
      EarntByMarks(q.rows[k].mark.value, q.questions[k.question], q'.questions[k.question], q.rows[k].mark.value.tests);
    }
  }

  /** The paper, a sitting, a completed exam, a save checked or given up: no row changes. */
  lemma {:induction false} SameRowsInv(q: Queue, q': Queue)
    requires Inv(q) && Evolves(q, q') && q'.rows == q.rows && q'.workers == q.workers && q'.fixes == q.fixes && SavesOk(q')
    ensures Inv(q')
  {
    WorkersAreOk(q);
    RowsKept(q, q');
    hide Evolves, RowsOk, SavesOk, WorkerOk, Inv;
    KeptInv(q, q');
  }

  lemma {:induction false} PaperInv(q: Queue, step: Step)
    requires Inv(q) && Enabled(q, step)
    requires step.Link? || step.Unlink? || step.Sit? || step.HandIn? || step.Complete?
    ensures Inv(Take(q, step))
  {
    Frame(q, step);
    StepEvolves(q, step);
    SavesAreOk(q);
    hide *;
    SavesKept(q, Take(q, step));
    SameRowsInv(q, Take(q, step));
  }

  lemma {:induction false} SavesAreOk(q: Queue)
    requires Inv(q)
    ensures SavesOk(q)
  {
  }

  lemma {:induction false} CheckSaves(q: Queue, step: Step)
    requires SavesOk(q) && Enabled(q, step) && (step.CheckSave? || step.AbortSave?)
    ensures SavesOk(Take(q, step))
  {
  }

  lemma {:induction false} CheckInv(q: Queue, step: Step)
    requires Inv(q) && Enabled(q, step) && (step.CheckSave? || step.AbortSave?)
    ensures Inv(Take(q, step))
  {
    Frame(q, step);
    StepEvolves(q, step);
    SavesAreOk(q);
    hide *;
    CheckSaves(q, step);
    SameRowsInv(q, Take(q, step));
  }

  lemma {:induction false} WriteRows(q: Queue, v: nat)
    requires RowsOk(q) && SavesOk(q) && Enabled(q, WriteSave(v))
    ensures RowsOk(Take(q, WriteSave(v))) && SavesOk(Take(q, WriteSave(v)))
  {
    hide Earnt;
  }

  lemma {:induction false} WriteInv(q: Queue, v: nat)
    requires Inv(q) && Enabled(q, WriteSave(v))
    ensures Inv(Take(q, WriteSave(v)))
  {
    var q' := Take(q, WriteSave(v));
    StepEvolves(q, WriteSave(v));
    WriteRows(q, v);
    forall w, k | w in q.workers && k in q.workers[w].claimed && k in q.rows ensures k in q'.rows && q'.rows[k] == q.rows[k] {
      assert HeldByWorker(q, k);
    }
    hide Evolves, Inv, SavesOk, RowsOk, Enabled;
    KeptInv(q, q');
  }

  // ---- workers ----

  /** No row of `claimed` is another transaction's. */
  ghost predicate Apart(q: Queue, w: nat, claimed: set<Key>) {
    && (forall v :: v in q.workers && v != w ==> q.workers[v].claimed !! claimed)
    && forall f :: f in q.fixes ==> claimed !! q.fixes[f].locked
  }

  lemma {:induction false} ClaimIsApart(q: Queue, w: nat)
    requires Inv(q) && w in q.workers
    ensures Apart(q, w, q.workers[w].claimed)
  {
    hide WorkerOk, FixOk, RowsOk, SavesOk;
  }

  lemma {:induction false} StillApart(q: Queue, w: nat, x: Worker)
    requires WorkersApart(q) && FixesApart(q) && Apart(q, w, x.claimed)
    ensures WorkersApart(q.(workers := q.workers[w := x])) && FixesApart(q.(workers := q.workers[w := x]))
  {
  }

  /** One worker's transaction put in place. */
  lemma {:induction false} WorkerPutInv(q: Queue, w: nat, x: Worker)
    requires Inv(q) && WorkerOk(q, x) && Apart(q, w, x.claimed)
    ensures Inv(q.(workers := q.workers[w := x]))
  {
    var q' := q.(workers := q.workers[w := x]);
    WorkersAreOk(q);
    SameEvolves(q, q');
    RowsKept(q, q');
    hide WorkerOk, FixOk, RowsOk, WorkersApart, FixesApart, Apart, Evolves, SavesOk;
    StillApart(q, w, x);
    SavesKept(q, q');
    forall v | v in q'.workers ensures WorkerOk(q', q'.workers[v]) { WorkerKept(q, q', q'.workers[v]); }
    forall f | f in q.fixes ensures FixOk(q', q.fixes[f]) { FixKept(q, q', q.fixes[f]); }
  }

  /** Its own notes rewritten, its claim the same. */
  lemma {:induction false} WorkerWrittenInv(q: Queue, w: nat, x: Worker)
    requires Inv(q) && w in q.workers && x.claimed == q.workers[w].claimed && WorkerOk(q, x)
    ensures Inv(q.(workers := q.workers[w := x]))
  {
    hide *;
    ClaimIsApart(q, w);
    WorkerPutInv(q, w, x);
  }

  lemma {:induction false} NothingClaimed(q: Queue, w: nat)
    ensures WorkerOk(q, Worker({}, map[], map[])) && Apart(q, w, {})
  {
    hide Waiting, Earnt;
  }

  lemma {:induction false} BeginPassInv(q: Queue, w: nat)
    requires Inv(q) && w !in q.workers
    ensures Inv(q.(workers := q.workers[w := Worker({}, map[], map[])]))
  {
    hide *;
    NothingClaimed(q, w);
    WorkerPutInv(q, w, Worker({}, map[], map[]));
  }

  lemma {:induction false} OneMoreClaimedOk(q: Queue, x: Worker, k: Key)
    requires WorkerOk(q, x) && Claimable(q, k) && x.loaded == map[] && x.pending == map[]
    ensures WorkerOk(q, x.(claimed := x.claimed + {k}))
  {
    hide Waiting, Earnt;
  }

  lemma {:induction false} HeldByNobody(q: Queue, k: Key)
    requires Claimable(q, k)
    ensures forall w :: w in q.workers ==> k !in q.workers[w].claimed
    ensures forall f :: f in q.fixes ==> k !in q.fixes[f].locked
  {
    hide Waiting;
  }

  lemma {:induction false} OneMoreApart(q: Queue, w: nat, claimed: set<Key>, k: Key)
    requires Apart(q, w, claimed) && Claimable(q, k)
    ensures Apart(q, w, claimed + {k})
  {
    HeldByNobody(q, k);
    hide Claimable;
  }

  lemma {:induction false} ClaimRowInv(q: Queue, w: nat, k: Key)
    requires Inv(q) && w in q.workers && Claimable(q, k)
    requires q.workers[w].loaded == map[] && q.workers[w].pending == map[]
    ensures Inv(q.(workers := q.workers[w := q.workers[w].(claimed := q.workers[w].claimed + {k})]))
  {
    hide *;
    WorkersAreOk(q);
    OneMoreClaimedOk(q, q.workers[w], k);
    ClaimIsApart(q, w);
    OneMoreApart(q, w, q.workers[w].claimed, k);
    WorkerPutInv(q, w, q.workers[w].(claimed := q.workers[w].claimed + {k}));
  }

  lemma {:induction false} LoadedOk(q: Queue, x: Worker, question: nat)
    requires WorkerOk(q, x) && question in q.questions && question !in x.loaded
    ensures WorkerOk(q, x.(loaded := x.loaded[question := q.questions[question].tests]))
  {
    hide MarkFor, Earnt, Waiting;
  }

  lemma {:induction false} LoadInv(q: Queue, w: nat, question: nat)
    requires Inv(q) && Enabled(q, Load(w, question))
    ensures Inv(Take(q, Load(w, question)))
  {
    WorkersAreOk(q);
    hide Inv, WorkerOk, RowsOk;
    LoadedOk(q, q.workers[w], question);
    WorkerWrittenInv(q, w, q.workers[w].(loaded := q.workers[w].loaded[question := q.questions[question].tests]));
  }

  lemma {:induction false} ExecutedOk(q: Queue, x: Worker, k: Key, runs: seq<Execution>)
    requires WorkerOk(q, x) && k in x.claimed && k in q.rows && k.question in q.questions
    requires k.question in x.loaded && |runs| == |x.loaded[k.question]|
    ensures WorkerOk(q, x.(pending := x.pending[k := MarkFor(q.questions[k.question], x.loaded[k.question], q.rows[k].source, runs)]))
  {
    MarkForEarnt(q.questions[k.question], x.loaded[k.question], q.rows[k].source, runs);
    hide MarkFor, Earnt, Waiting;
  }

  lemma {:induction false} ExecuteInv(q: Queue, w: nat, k: Key, runs: seq<Execution>)
    requires Inv(q) && Enabled(q, Execute(w, k, runs))
    ensures Inv(Take(q, Execute(w, k, runs)))
  {
    WorkersAreOk(q);
    hide Inv, WorkerOk, MarkFor, RowsOk;
    var x := q.workers[w];
    ExecutedOk(q, x, k, runs);
    WorkerWrittenInv(q, w, x.(pending := x.pending[k := MarkFor(q.questions[k.question], x.loaded[k.question], q.rows[k].source, runs)]));
  }

  lemma {:induction false} MarkForEarnt(question: Program, tests: seq<TestCase>, source: Option<string>, runs: seq<Execution>)
    requires |runs| == |tests|
    ensures var mark := MarkFor(question, tests, source, runs);
            mark.Some? ==> Earnt(mark.value, question, tests) && mark.value.source == source && mark.value.tests == tests
  {
  }

  /** A transaction that ends releases what it held; nothing else changes. */
  lemma {:induction false} WorkerGoneInv(q: Queue, w: nat)
    requires Inv(q)
    ensures Inv(q.(workers := Without(q.workers, w)))
  {
    var q' := q.(workers := Without(q.workers, w));
    SameEvolves(q, q');
    WorkersAreOk(q);
    RowsKept(q, q');
    hide WorkerOk, FixOk, RowsOk, Evolves, SavesOk;
    SavesKept(q, q');
    forall v | v in q'.workers ensures WorkerOk(q', q'.workers[v]) { WorkerKept(q, q', q'.workers[v]); }
    forall f | f in q.fixes ensures FixOk(q', q.fixes[f]) { FixKept(q, q', q.fixes[f]); }
  }

  lemma {:induction false} WrittenOk(q: Queue, x: Worker)
    requires RowsOk(q) && WorkerOk(q, x)
    ensures RowsOk(q.(rows := Written(q.rows, x.pending)))
  {
    hide MarkFor;
    forall k | k in q.rows && k in x.pending ensures Waiting(q, k) { }
  }

  lemma {:induction false} WrittenKeeps(q: Queue, x: Worker, y: Worker)
    requires WorkerOk(q, x) && x.claimed !! y.claimed
    ensures forall k :: k in y.claimed && k in q.rows ==> k in Written(q.rows, x.pending) && Written(q.rows, x.pending)[k] == q.rows[k]
  {
    hide Waiting, Earnt;
    assert forall k :: k in x.pending ==> k in x.claimed;
  }

  lemma {:induction false} WrittenInv(q: Queue, x: Worker)
    requires Inv(q) && WorkerOk(q, x) && forall v :: v in q.workers ==> x.claimed !! q.workers[v].claimed
    ensures Inv(q.(rows := Written(q.rows, x.pending)))
  {
    var after := q.(rows := Written(q.rows, x.pending));
    WorkersAreOk(q);
    WrittenOk(q, x);
    SavesAreOk(q);
    assert Evolves(q, after) by { hide WorkerOk, RowsOk, FixOk, SavesOk, Inv; }
    forall v | v in q.workers
      ensures forall k :: k in q.workers[v].claimed && k in q.rows ==> k in after.rows && after.rows[k] == q.rows[k]
    {
      hide *;
      WrittenKeeps(q, x, q.workers[v]);
    }
    hide Inv, WorkerOk, RowsOk, FixOk, SavesOk, Evolves, Written;
    SavesKept(q, after);
    KeptInv(q, after);
  }

  lemma {:induction false} CommitIs(q: Queue, w: nat)
    requires Enabled(q, Commit(w))
    ensures w in q.workers && Take(q, Commit(w)) == q.(workers := Without(q.workers, w)).(rows := Written(q.rows, q.workers[w].pending))
  {
  }

  lemma {:induction false} OthersApart(q: Queue, w: nat)
    requires Inv(q) && w in q.workers
    ensures forall v :: v in Without(q.workers, w) ==> q.workers[w].claimed !! Without(q.workers, w)[v].claimed
  {
    hide WorkerOk, FixOk, RowsOk, SavesOk, FixesApart;
  }

  lemma {:induction false} CommitInv(q: Queue, w: nat)
    requires Inv(q) && Enabled(q, Commit(w))
    ensures Inv(Take(q, Commit(w)))
  {
    CommitIs(q, w);
    hide *;
    var x, before := q.workers[w], q.(workers := Without(q.workers, w));
    WorkersAreOk(q);
    WorkerGoneInv(q, w);
    SameEvolves(q, before);
    WorkerKept(q, before, x);
    OthersApart(q, w);
    WrittenInv(before, x);
  }

  // ---- corrections ----

  lemma {:induction false} FixPutInv(q: Queue, f: nat, x: Fix)
    requires Inv(q) && FixOk(q, x) && FixesApart(q.(fixes := q.fixes[f := x]))
    ensures Inv(q.(fixes := q.fixes[f := x]))
  {
    var q' := q.(fixes := q.fixes[f := x]);
    SameEvolves(q, q');
    WorkersAreOk(q);
    RowsKept(q, q');
    hide WorkerOk, FixOk, RowsOk, Evolves, SavesOk, FixesApart;
    SavesKept(q, q');
    forall w | w in q.workers ensures WorkerOk(q', q.workers[w]) { WorkerKept(q, q', q.workers[w]); }
    forall g | g in q'.fixes ensures FixOk(q', q'.fixes[g]) { FixKept(q, q', q'.fixes[g]); }
  }

  lemma {:induction false} FixGoneInv(q: Queue, f: nat)
    requires Inv(q)
    ensures Inv(q.(fixes := Without(q.fixes, f)))
  {
    var q' := q.(fixes := Without(q.fixes, f));
    SameEvolves(q, q');
    WorkersAreOk(q);
    RowsKept(q, q');
    hide WorkerOk, FixOk, RowsOk, Evolves, SavesOk;
    SavesKept(q, q');
    forall w | w in q.workers ensures WorkerOk(q', q.workers[w]) { WorkerKept(q, q', q.workers[w]); }
    forall g | g in q'.fixes ensures FixOk(q', q'.fixes[g]) { FixKept(q, q', q'.fixes[g]); }
  }

  lemma {:induction false} FixesAreApart(q: Queue)
    requires Inv(q)
    ensures FixesApart(q)
  {
  }

  lemma {:induction false} BeginFixInv(q: Queue, f: nat, exam: nat, question: nat, cases: seq<TestCase>)
    requires Inv(q) && Enabled(q, BeginFix(f, exam, question, cases))
    ensures Inv(Take(q, BeginFix(f, exam, question, cases)))
  {
    FixesAreApart(q);
    hide Inv;
    FixPutInv(q, f, Fix(exam, question, cases, None, {}));
  }

  lemma {:induction false} ScannedOk(q: Queue, x: Fix)
    requires FixOk(q, x) && x.targets.None?
    ensures FixOk(q, x.(targets := Some(Targets(q, x.exam, x.question))))
  {
    hide Targets;
  }

  lemma {:induction false} ScannedApart(q: Queue, f: nat, rows: set<Key>)
    requires FixesApart(q) && f in q.fixes
    ensures FixesApart(q.(fixes := q.fixes[f := q.fixes[f].(targets := Some(rows))]))
  {
  }

  lemma {:induction false} ScanFixInv(q: Queue, f: nat)
    requires Inv(q) && Enabled(q, ScanFix(f))
    ensures Inv(Take(q, ScanFix(f)))
  {
    FixesAreOk(q);
    hide Inv, Targets, FixOk, FixesApart;
    var x := q.fixes[f];
    ScannedOk(q, x);
    ScannedApart(q, f, Targets(q, x.exam, x.question));
    FixPutInv(q, f, x.(targets := Some(Targets(q, x.exam, x.question))));
  }

  lemma {:induction false} LockedApart(q: Queue, f: nat, k: Key)
    requires FixesApart(q) && f in q.fixes && !HeldByWorker(q, k)
    ensures FixesApart(q.(fixes := q.fixes[f := q.fixes[f].(locked := q.fixes[f].locked + {k})]))
  {
    forall w | w in q.workers ensures k !in q.workers[w].claimed { }
  }

  lemma {:induction false} LockRowInv(q: Queue, f: nat, k: Key)
    requires Inv(q) && Enabled(q, LockRow(f, k))
    ensures Inv(Take(q, LockRow(f, k)))
  {
    FixesAreOk(q);
    var x := q.fixes[f].(locked := q.fixes[f].locked + {k});
    assert FixOk(q, x) by { hide Inv, FixesApart, HeldByFix, HeldByWorker, Targets; }
    hide Inv, Targets, HeldByFix, HeldByWorker, FixesApart, FixOk;
    LockedApart(q, f, k);
    FixPutInv(q, f, x);
  }

  lemma {:induction false} ClearedRowsOk(q: Queue, x: Fix)
    requires RowsOk(q) && x.question in q.questions
    ensures RowsOk(Corrected(q, x)) && Evolves(q, Corrected(q, x))
  {
    hide MarkFor, Earnt;
    var q' := Corrected(q, x);
    forall k | k in q'.rows && q'.rows[k].mark.Some?
      ensures Earnt(q'.rows[k].mark.value, q'.questions[k.question], q'.rows[k].mark.value.tests)
    {
      EarntByMarks(q.rows[k].mark.value, q.questions[k.question], q'.questions[k.question], q.rows[k].mark.value.tests);
    }
  }

  lemma {:induction false} ClearedInv(q: Queue, x: Fix)
    requires Inv(q) && x.question in q.questions && forall w :: w in q.workers ==> q.workers[w].claimed !! x.locked
    ensures Inv(Corrected(q, x))
  {
    var after := Corrected(q, x);
    WorkersAreOk(q);
    SavesAreOk(q);
    ClearedRowsOk(q, x);
    assert forall w, k :: w in q.workers && k in q.workers[w].claimed && k in q.rows ==> k in after.rows && after.rows[k] == q.rows[k] by {
      hide Inv, RowsOk, WorkerOk, SavesOk, Evolves;
    }
    assert after.saves == q.saves && after.workers == q.workers && after.fixes == q.fixes;
    hide *;
    SavesKept(q, after);
    KeptInv(q, after);
  }

  lemma {:induction false} HoldsNoClaim(q: Queue, f: nat)
    requires Inv(q) && f in q.fixes
    ensures forall w :: w in q.workers ==> q.workers[w].claimed !! q.fixes[f].locked
  {
    hide WorkerOk, FixOk, RowsOk, SavesOk, WorkersApart;
  }

  lemma {:induction false} CorrectIs(q: Queue, f: nat)
    requires Enabled(q, CommitFix(f))
    ensures f in q.fixes && q.fixes[f].question in q.questions
    ensures Take(q, CommitFix(f)) == Corrected(q.(fixes := Without(q.fixes, f)), q.fixes[f])
  {
  }

  /** A correction commits beside running workers: it holds none of their rows. */
  lemma {:induction false} CorrectInv(q: Queue, f: nat)
    requires Inv(q) && Enabled(q, CommitFix(f))
    ensures Inv(Take(q, CommitFix(f)))
  {
    hide *;
    CorrectIs(q, f);
    HoldsNoClaim(q, f);
    FixGoneInv(q, f);
    ClearedInv(q.(fixes := Without(q.fixes, f)), q.fixes[f]);
  }

  // ---- every step, every run ----

  lemma {:induction false} TakeInv(q: Queue, step: Step)
    requires Inv(q) && Enabled(q, step)
    ensures Inv(Take(q, step))
  {
    hide Inv, Written, Targets, Claimable, MarkFor, HeldByWorker, HeldByFix, Corrected, OnPaper, HasSittings;
    match step
    case CheckSave(_, _, _) => CheckInv(q, step);
    case AbortSave(_) => CheckInv(q, step);
    case WriteSave(v) => WriteInv(q, v);
    case BeginPass(w) => BeginPassInv(q, w);
    case ClaimRow(w, k) => ClaimRowInv(q, w, k);
    case Load(w, question) => LoadInv(q, w, question);
    case Execute(w, k, runs) => ExecuteInv(q, w, k, runs);
    case Commit(w) => CommitInv(q, w);
    case Abort(w) => WorkerGoneInv(q, w);
    case BeginFix(f, exam, question, cases) => BeginFixInv(q, f, exam, question, cases);
    case ScanFix(f) => ScanFixInv(q, f);
    case LockRow(f, k) => LockRowInv(q, f, k);
    case CommitFix(f) => CorrectInv(q, f);
    case AbortFix(f) => FixGoneInv(q, f);
    case _ => PaperInv(q, step);
  }

  /** In every interleaving: no row is held twice, only submitted papers are marked, and every mark
      is what its test cases made of a program that was stored. */
  lemma {:induction false} RunInv(q: Queue, steps: seq<Step>)
    requires Inv(q)
    ensures Inv(Run(q, steps))
  {
    hide Inv, Enabled, Take;
    if steps != [] {
      RunInv(q, steps[..|steps| - 1]);
      var v, last := Run(q, steps[..|steps| - 1]), steps[|steps| - 1];
      if Enabled(v, last) { TakeInv(v, last); }
    }
  }

  /** Before anything is marked and while nothing runs. */
  ghost predicate Idle(q: Queue) {
    && q.workers == map[] && q.fixes == map[] && q.saves == map[]
    && forall k :: k in q.rows ==> k.session in q.sittings && k.question in q.questions && q.rows[k].mark.None?
  }

  lemma {:induction false} IdleInv(q: Queue)
    requires Idle(q)
    ensures Inv(q) && Current(q) && OwnPrograms(q) && AllExclusive(q)
  {
  }

  /** No worker's row is also another transaction's, and it is unmarked until its worker commits. */
  lemma {:induction false} HeldByOne(q: Queue, steps: seq<Step>, v: nat, w: nat, k: Key)
    requires Idle(q)
    requires v in Run(q, steps).workers && w in Run(q, steps).workers
    requires k in Run(q, steps).workers[v].claimed && k in Run(q, steps).workers[w].claimed
    ensures v == w
    ensures !HeldByFix(Run(q, steps), k)
    ensures k in Run(q, steps).rows && Run(q, steps).rows[k].mark.None?
  {
    IdleInv(q);
    RunInv(q, steps);
    hide Run, Idle, Earnt, RowsOk, SavesOk, FixOk;
    assert WorkerOk(Run(q, steps), Run(q, steps).workers[v]);
  }

  /** Every mark of every run is within what its question is worth, and comes from a run in which
      every case could be tried. */
  lemma {:induction false} MarkWithinQuestion(q: Queue, steps: seq<Step>, k: Key)
    requires Idle(q) && k in Run(q, steps).rows && Run(q, steps).rows[k].mark.Some?
    ensures var q', mark := Run(q, steps), Run(q, steps).rows[k].mark.value;
            && k.question in q'.questions && mark.value <= 100 * q'.questions[k.question].marks
            && (!Blank(mark.source) ==> !AnyUnavailable(mark.runs))
  {
    IdleInv(q);
    RunInv(q, steps);
    var q' := Run(q, steps);
    WorkersAreOk(q');
    hide Run, Idle, Inv, WorkerOk;
    var mark := q'.rows[k].mark.value;
    assert Earnt(mark, q'.questions[k.question], mark.tests);
    MarksWithinQuestion(q'.questions[k.question].marks, mark.tests, mark.runs);
  }

  lemma {:induction false} WriteKeepsMark(q: Queue, v: nat, k: Key)
    requires Enabled(q, WriteSave(v)) && k in q.rows
    ensures k in Take(q, WriteSave(v)).rows && Take(q, WriteSave(v)).rows[k].mark == q.rows[k].mark
  {
    hide HeldByFix, HeldByWorker, Without;
  }

  lemma {:induction false} CorrectTakesMark(q: Queue, f: nat, k: Key)
    requires Enabled(q, CommitFix(f)) && k in q.rows
    ensures k in Take(q, CommitFix(f)).rows
    ensures Take(q, CommitFix(f)).rows[k].mark == if k in q.fixes[f].locked then None else q.rows[k].mark
  {
    hide Without;
  }

  /** A mark is written only where there is none, and taken away only by a correction that holds
      the row: nothing is marked over. */
  lemma {:induction false} NeverMarkedOver(q: Queue, step: Step, k: Key)
    requires Inv(q) && Enabled(q, step) && k in q.rows && q.rows[k].mark.Some?
    ensures k in Take(q, step).rows
    ensures Take(q, step).rows[k].mark != q.rows[k].mark ==>
              step.CommitFix? && k in q.fixes[step.fix].locked && Take(q, step).rows[k].mark.None?
  {
    if step.Commit? {
      WorkersAreOk(q);
      CommitIs(q, step.worker);
      hide *;
      CommitKeepsMark(q, q.workers[step.worker], k);
    } else if step.CommitFix? {
      hide Take, Inv;
      CorrectTakesMark(q, step.fix, k);
    } else if step.WriteSave? {
      hide Take, Inv;
      WriteKeepsMark(q, step.save, k);
    } else {
      Frame(q, step);
      hide Take, Inv;
    }
  }

  lemma {:induction false} CommitKeepsMark(q: Queue, x: Worker, k: Key)
    requires WorkerOk(q, x) && k in q.rows && q.rows[k].mark.Some?
    ensures k in Written(q.rows, x.pending) && Written(q.rows, x.pending)[k] == q.rows[k]
  {
    hide MarkFor, Earnt;
    forall j | j in x.pending ensures Waiting(q, j) { }
  }

  // ---- marks of the question's present cases ----

  /** The row answers a question of the candidate's own exam. */
  predicate OnExam(q: Queue, k: Key) {
    && k.session in q.sittings && k.question in q.questions
    && q.sittings[k.session].exam in q.questions[k.question].exams
  }

  /** Every mark on a question of the candidate's own exam comes from its current test cases. */
  ghost predicate MarksCurrent(q: Queue) {
    forall k :: k in q.rows && q.rows[k].mark.Some? && OnExam(q, k) ==>
      q.rows[k].mark.value.tests == q.questions[k.question].tests
  }

  /** What a worker has read is still so for every row of that kind it holds. */
  ghost predicate WorkerCurrent(q: Queue, w: Worker) {
    forall k :: k in w.claimed && k.question in w.loaded && OnExam(q, k) ==> w.loaded[k.question] == q.questions[k.question].tests
  }

  ghost predicate Current(q: Queue) {
    MarksCurrent(q) && forall w :: w in q.workers ==> WorkerCurrent(q, q.workers[w])
  }

  /** Does a correction about to commit leave every mark current? Each answer of the question by a
      candidate of an exam it is used on is either held, to be cleared, or neither marked on other
      cases nor about to be. */
  ghost predicate Survives(q: Queue, x: Fix) {
    && (forall k :: k in q.rows && k.question == x.question && OnExam(q, k) && k !in x.locked && q.rows[k].mark.Some? ==>
          q.rows[k].mark.value.tests == x.cases)
    && (forall w, k :: w in q.workers && k in q.workers[w].claimed && k.question == x.question && OnExam(q, k) && x.question in q.workers[w].loaded ==>
          q.workers[w].loaded[k.question] == x.cases)
  }

  /** What a step may do to a question: only the paper's editing changes where it is used, and only
      a correction its cases. */
  lemma {:induction false} QuestionAfter(q: Queue, step: Step, n: nat)
    requires Enabled(q, step) && n in q.questions
    ensures n in Take(q, step).questions
    ensures !step.CommitFix? ==> Take(q, step).questions[n].tests == q.questions[n].tests
    ensures (step.Link? || step.Unlink? ==> step.question != n) ==> Take(q, step).questions[n].exams == q.questions[n].exams
    ensures step.Unlink? ==> Take(q, step).questions[n].exams <= q.questions[n].exams
  {
    Frame(q, step);
    if !step.Link? && !step.Unlink? && !step.CommitFix? { hide Take; }
    hide HasSittings, Cleared;
  }

  lemma {:induction false} EditedOnExam(q: Queue, step: Step, k: Key)
    requires Enabled(q, step) && (step.Link? || step.Unlink?) && k.session in q.sittings && step.question == k.question
    ensures OnExam(Take(q, step), k) <==> OnExam(q, k)
  {
    assert q.sittings[k.session].exam != step.exam;
  }

  lemma {:induction false} OnExamSame(q: Queue, step: Step, k: Key)
    requires Enabled(q, step) && k.session in q.sittings && k.question in q.questions
    ensures OnExam(Take(q, step), k) <==> OnExam(q, k)
  {
    StepEvolves(q, step);
    QuestionAfter(q, step, k.question);
    hide Take, Enabled;
    if (step.Link? || step.Unlink?) && step.question == k.question {
      hide OnExam;
      EditedOnExam(q, step, k);
    }
  }

  /** For all steps but a correction's commit and a worker's, marks are as they were. */
  lemma {:induction false} MarksSame(q: Queue, step: Step, k: Key)
    requires RowsOk(q) && Enabled(q, step) && !step.Commit? && !step.CommitFix?
    requires k in Take(q, step).rows && Take(q, step).rows[k].mark.Some?
    ensures k in q.rows && q.rows[k].mark == Take(q, step).rows[k].mark
    ensures k.question in q.questions && k.question in Take(q, step).questions
    ensures Take(q, step).questions[k.question].tests == q.questions[k.question].tests
  {
    Frame(q, step);
    hide Earnt, HeldByWorker, HeldByFix;
    if !step.WriteSave? { hide Take, Enabled; }
    assert k in q.rows;
    QuestionAfter(q, step, k.question);
  }

  lemma {:induction false} QuietMarksCurrent(q: Queue, step: Step)
    requires RowsOk(q) && MarksCurrent(q) && Enabled(q, step) && !step.Commit? && !step.CommitFix?
    ensures MarksCurrent(Take(q, step))
  {
    var q' := Take(q, step);
    forall k | k in q'.rows && q'.rows[k].mark.Some? && OnExam(q', k)
      ensures q'.rows[k].mark.value.tests == q'.questions[k.question].tests
    {
      MarksSame(q, step, k);
      OnExamSame(q, step, k);
    }
    hide Take, Enabled, RowsOk, OnExam;
  }

  lemma {:induction false} CommitMarksCurrent(q: Queue, w: nat)
    requires Inv(q) && Current(q) && Enabled(q, Commit(w))
    ensures MarksCurrent(Take(q, Commit(w)))
  {
    var q', x := Take(q, Commit(w)), q.workers[w];
    WorkersAreOk(q);
    hide Inv, MarkFor, RowsOk, FixOk;
    forall k | k in q'.rows && q'.rows[k].mark.Some? && OnExam(q', k)
      ensures q'.rows[k].mark.value.tests == q'.questions[k.question].tests
    {
      assert OnExam(q, k);
      if k in x.pending && x.pending[k].Some? {
        assert k in x.claimed && WorkerCurrent(q, x);
      }
    }
  }

  /** A worker of the state after the step held no more than it did, or one row before reading. */
  lemma {:induction false} QuietWorkerCurrent(q: Queue, step: Step, w: nat)
    requires Inv(q) && Current(q) && Enabled(q, step) && !step.CommitFix? && w in Take(q, step).workers
    ensures WorkerCurrent(Take(q, step), Take(q, step).workers[w])
  {
    var q' := Take(q, step);
    TakeInv(q, step);
    WorkersAreOk(q');
    var x := q'.workers[w];
    forall k | k in x.claimed && k.question in x.loaded && OnExam(q', k)
      ensures x.loaded[k.question] == q'.questions[k.question].tests
    {
      ReadBefore(q, step, w, k);
      OnExamSame(q, step, k);
      hide Take, Enabled, Inv, WorkerOk, OnExam;
    }
  }

  lemma {:induction false} ReadBefore(q: Queue, step: Step, w: nat, k: Key)
    requires Inv(q) && Enabled(q, step) && !step.CommitFix? && w in Take(q, step).workers
    requires k in Take(q, step).workers[w].claimed && k.question in Take(q, step).workers[w].loaded
    ensures w in q.workers && k in q.workers[w].claimed && k.session in q.sittings && k.question in q.questions
    ensures k.question in Take(q, step).questions && Take(q, step).questions[k.question].tests == q.questions[k.question].tests
    ensures if k.question in q.workers[w].loaded then Take(q, step).workers[w].loaded[k.question] == q.workers[w].loaded[k.question]
            else Take(q, step).workers[w].loaded[k.question] == q.questions[k.question].tests
  {
    hide *;
    WorkersAreOk(q);
    Frame(q, step);
    if WorkerStep(step) { ClaimedBefore(q, step, w, k); }
    ClaimedKnown(q, q.workers[w], k);
    QuestionAfter(q, step, k.question);
  }

  lemma {:induction false} ClaimedKnown(q: Queue, x: Worker, k: Key)
    requires WorkerOk(q, x) && k in x.claimed
    ensures k.session in q.sittings && k.question in q.questions
  {
    assert Waiting(q, k);
  }

  lemma {:induction false} ClaimedBefore(q: Queue, step: Step, w: nat, k: Key)
    requires Enabled(q, step) && WorkerStep(step) && w in Take(q, step).workers
    requires k in Take(q, step).workers[w].claimed && k.question in Take(q, step).workers[w].loaded
    ensures w in q.workers && k in q.workers[w].claimed
    ensures if k.question in q.workers[w].loaded then Take(q, step).workers[w].loaded[k.question] == q.workers[w].loaded[k.question]
            else k.question in q.questions && Take(q, step).workers[w].loaded[k.question] == q.questions[k.question].tests
  {
    hide MarkFor, Claimable, Written;
  }

  lemma {:induction false} QuietCurrent(q: Queue, step: Step)
    requires Inv(q) && Current(q) && Enabled(q, step) && !step.CommitFix?
    ensures Current(Take(q, step))
  {
    var q' := Take(q, step);
    WorkersAreOk(q);
    if step.Commit? { CommitMarksCurrent(q, step.worker); } else { QuietMarksCurrent(q, step); }
    hide Take, Enabled, Inv, RowsOk, MarksCurrent, WorkerCurrent, WorkerOk;
    forall w | w in q'.workers ensures WorkerCurrent(q', q'.workers[w]) { QuietWorkerCurrent(q, step, w); }
  }

  lemma {:induction false} CorrectedMarks(q: Queue, x: Fix)
    requires RowsOk(q) && MarksCurrent(q) && x.question in q.questions
    ensures MarksCurrent(Corrected(q, x)) <==>
              forall k :: k in q.rows && k.question == x.question && OnExam(q, k) && k !in x.locked && q.rows[k].mark.Some? ==>
                q.rows[k].mark.value.tests == x.cases
  {
    var q' := Corrected(q, x);
    hide Earnt;
    forall k ensures OnExam(q', k) == OnExam(q, k) { }
    if MarksCurrent(q') {
      forall k | k in q.rows && k.question == x.question && OnExam(q, k) && k !in x.locked && q.rows[k].mark.Some?
        ensures q.rows[k].mark.value.tests == x.cases
      {
        assert k in q'.rows && q'.rows[k] == q.rows[k] && OnExam(q', k);
      }
    }
  }

  lemma {:induction false} CorrectedWorker(q: Queue, x: Fix, w: Worker)
    requires WorkerCurrent(q, w) && x.question in q.questions
    ensures WorkerCurrent(Corrected(q, x), w) <==>
              forall k :: k in w.claimed && k.question == x.question && OnExam(q, k) && k.question in w.loaded ==> w.loaded[k.question] == x.cases
  {
    var q' := Corrected(q, x);
    forall k ensures OnExam(q', k) == OnExam(q, k) { }
    hide OnExam;
    if WorkerCurrent(q', w) {
      forall k | k in w.claimed && k.question == x.question && OnExam(q, k) && k.question in w.loaded ensures w.loaded[k.question] == x.cases {
        assert OnExam(q', k);
      }
    }
  }

  /** A correction commits without leaving a stale mark, now or by a worker that has read the old
      cases, exactly when it survives whoever came to use the question meanwhile. */
  lemma {:induction false} CorrectionCurrentIff(q: Queue, f: nat)
    requires Inv(q) && Current(q) && Enabled(q, CommitFix(f))
    ensures Current(Take(q, CommitFix(f))) <==> Survives(q, q.fixes[f])
  {
    var x, before := q.fixes[f], q.(fixes := Without(q.fixes, f));
    CorrectIs(q, f);
    WorkersAreOk(q);
    hide Take, Enabled, Inv, WorkerOk, RowsOk, Without, Corrected;
    WithoutFix(q, before);
    CorrectedMarks(before, x);
    CorrectedWorkers(before, x);
    hide MarksCurrent, WorkerCurrent, OnExam;
    assert Corrected(before, x).workers == q.workers by { CorrectedKeeps(before, x); }
  }

  lemma {:induction false} CorrectedKeeps(q: Queue, x: Fix)
    requires x.question in q.questions
    ensures Corrected(q, x).workers == q.workers
  {
  }

  lemma {:induction false} WithoutFix(q: Queue, q': Queue)
    requires RowsOk(q) && Current(q)
    requires q'.rows == q.rows && q'.sittings == q.sittings && q'.questions == q.questions && q'.workers == q.workers
    ensures RowsOk(q') && Current(q') && forall k :: OnExam(q', k) == OnExam(q, k)
  {
    hide Earnt;
    assert forall k :: OnExam(q', k) == OnExam(q, k);
  }

  lemma {:induction false} CorrectedWorkers(q: Queue, x: Fix)
    requires Current(q) && x.question in q.questions
    ensures (forall w :: w in q.workers ==> WorkerCurrent(Corrected(q, x), q.workers[w])) <==>
              forall w, k :: w in q.workers && k in q.workers[w].claimed && k.question == x.question && OnExam(q, k) && x.question in q.workers[w].loaded ==>
                q.workers[w].loaded[k.question] == x.cases
  {
    forall w | w in q.workers
      ensures WorkerCurrent(Corrected(q, x), q.workers[w]) <==>
                forall k :: k in q.workers[w].claimed && k.question == x.question && OnExam(q, k) && k.question in q.workers[w].loaded ==>
                  q.workers[w].loaded[k.question] == x.cases
    {
      CorrectedWorker(q, x, q.workers[w]);
    }
    hide MarksCurrent, WorkerCurrent, OnExam, Corrected;
  }

  /** A correction that commits survives. */
  ghost predicate StepSound(q: Queue, step: Step) {
    step.CommitFix? && Enabled(q, step) ==> Survives(q, q.fixes[step.fix])
  }

  /** Every correction of the run does. */
  ghost predicate Sound(q: Queue, steps: seq<Step>) {
    steps == [] || (Sound(q, steps[..|steps| - 1]) && StepSound(Run(q, steps[..|steps| - 1]), steps[|steps| - 1]))
  }

  lemma {:induction false} RunCurrent(q: Queue, steps: seq<Step>)
    requires Inv(q) && Current(q) && Sound(q, steps)
    ensures Current(Run(q, steps))
  {
    if steps != [] {
      hide Inv, Current, Enabled, Take, Survives;
      var init, last := steps[..|steps| - 1], steps[|steps| - 1];
      RunInv(q, init);
      RunCurrent(q, init);
      var v := Run(q, init);
      if Enabled(v, last) {
        if last.CommitFix? { CorrectionCurrentIff(v, last.fix); } else { QuietCurrent(v, last); }
      }
    }
  }

  // ---- when corrections survive ----

  /** The question is on the correction's exam only, and its UPDATE sees every answer of it. */
  ghost predicate Exclusive(q: Queue, x: Fix) {
    && x.question in q.questions && q.questions[x.question].exams <= {x.exam}
    && (x.targets.Some? ==> Targets(q, x.exam, x.question) <= x.targets.value)
  }

  ghost predicate AllExclusive(q: Queue) {
    forall f :: f in q.fixes ==> Exclusive(q, q.fixes[f])
  }

  /** The step does not put a question on another exam while it is being corrected, nor add an
      answer for a correction whose UPDATE is already under way. */
  predicate Calm(q: Queue, step: Step) {
    match step
    case Link(_, question) => forall f :: f in q.fixes ==> q.fixes[f].question != question
    case WriteSave(v) =>
      v in q.saves && q.saves[v].insert ==>
        forall f :: f in q.fixes && q.fixes[f].targets.Some? && q.fixes[f].question == q.saves[v].key.question ==>
          !(q.saves[v].key.session in q.sittings && q.sittings[q.saves[v].key.session].exam == q.fixes[f].exam)
    case _ => true
  }

  lemma {:induction false} ExclusiveSurvives(q: Queue, f: nat)
    requires Inv(q) && Enabled(q, CommitFix(f)) && Exclusive(q, q.fixes[f])
    ensures Survives(q, q.fixes[f])
  {
    var x := q.fixes[f];
    FixesAreOk(q);
    WorkersAreOk(q);
    hide Inv, RowsOk, Earnt;
    forall k | k in q.rows && k.question == x.question && OnExam(q, k) ensures k in x.locked {
      assert k in Targets(q, x.exam, x.question);
    }
    forall w, k | w in q.workers && k in q.workers[w].claimed && k.question == x.question ensures !OnExam(q, k) {
      assert Waiting(q, k);
      assert q.workers[w].claimed !! x.locked;
    }
  }

  /** No answer to the question by the exam's candidates comes new. */
  lemma {:induction false} SameTargets(q: Queue, step: Step, x: Fix)
    requires RowsOk(q) && SavesOk(q) && Enabled(q, step) && x.exam in q.completed
    requires step.WriteSave? && q.saves[step.save].insert && q.saves[step.save].key.question == x.question ==>
               q.sittings[q.saves[step.save].key.session].exam != x.exam
    ensures Targets(Take(q, step), x.exam, x.question) <= Targets(q, x.exam, x.question)
  {
    Frame(q, step);
    StepEvolves(q, step);
    if !step.WriteSave? && !step.Commit? && !step.CommitFix? && !step.Sit? { hide Take; }
    hide HeldByWorker, HeldByFix, Earnt;
  }

  lemma {:induction false} BegunExclusive(q: Queue, step: Step)
    requires Enabled(q, step) && step.BeginFix?
    ensures step.fix !in q.fixes && step.fix in Take(q, step).fixes && Exclusive(Take(q, step), Take(q, step).fixes[step.fix])
  {
    hide Targets;
  }

  /** A correction under way is of the same question, and sees what it saw as its UPDATE started. */
  lemma {:induction false} FixAfter(q: Queue, step: Step, f: nat)
    requires Enabled(q, step) && f in Take(q, step).fixes
    ensures if step.BeginFix? && step.fix == f
            then f !in q.fixes && Exclusive(Take(q, step), Take(q, step).fixes[f])
            else var x, y := q.fixes[f], Take(q, step).fixes[f];
                 && f in q.fixes && y.exam == x.exam && y.question == x.question
                 && (y.targets == x.targets || (step.ScanFix? && y.targets == Some(Targets(q, x.exam, x.question))))
  {
    Frame(q, step);
    hide HeldByWorker, HeldByFix, Targets, Corrected, Exclusive;
    if step.BeginFix? {
      BegunExclusive(q, step);
    } else if !FixStep(step) {
      hide Take, Enabled;
    }
  }

  lemma {:induction false} ExclusiveKept(q: Queue, step: Step, f: nat)
    requires Inv(q) && Enabled(q, step) && Calm(q, step)
    requires f in q.fixes && f in Take(q, step).fixes && Exclusive(q, q.fixes[f])
    ensures Exclusive(Take(q, step), Take(q, step).fixes[f])
  {
    var x := q.fixes[f];
    ExclusivePaper(q, step, f);
    hide Inv, Targets, Take, Enabled;
    FixAfter(q, step, f);
    BeginsNew(q, step);
    if x.targets.Some? || step.ScanFix? { CalmTargets(q, step, f); }
    hide Calm;
  }

  lemma {:induction false} ExclusivePaper(q: Queue, step: Step, f: nat)
    requires Enabled(q, step) && Calm(q, step) && f in q.fixes && Exclusive(q, q.fixes[f])
    ensures var n := q.fixes[f].question;
            n in Take(q, step).questions && Take(q, step).questions[n].exams <= {q.fixes[f].exam}
  {
    QuestionAfter(q, step, q.fixes[f].question);
    hide Take, Enabled, Targets;
  }

  lemma {:induction false} BeginsNew(q: Queue, step: Step)
    requires Enabled(q, step)
    ensures step.BeginFix? ==> step.fix !in q.fixes
  {
  }

  lemma {:induction false} WritesSaved(q: Queue, step: Step)
    requires Enabled(q, step)
    ensures step.WriteSave? ==> step.save in q.saves
    ensures step.ScanFix? ==> step.fix in q.fixes
  {
  }

  lemma {:induction false} CalmTargets(q: Queue, step: Step, f: nat)
    requires Inv(q) && Enabled(q, step) && Calm(q, step)
    requires f in q.fixes && (q.fixes[f].targets.Some? || step.ScanFix?)
    ensures Targets(Take(q, step), q.fixes[f].exam, q.fixes[f].question) <= Targets(q, q.fixes[f].exam, q.fixes[f].question)
  {
    FixesAreOk(q);
    WorkersAreOk(q);
    SavesAreOk(q);
    WritesSaved(q, step);
    hide Inv, RowsOk, WorkerOk, FixesApart, Targets, Take, Enabled;
    SameTargets(q, step, q.fixes[f]);
  }

  lemma {:induction false} AllExclusiveKept(q: Queue, step: Step)
    requires Inv(q) && Enabled(q, step) && Calm(q, step) && AllExclusive(q)
    ensures AllExclusive(Take(q, step))
  {
    var q' := Take(q, step);
    forall f | f in q'.fixes ensures Exclusive(q', q'.fixes[f]) {
      FixAfter(q, step, f);
      hide Take, Enabled, Inv, Exclusive, Calm;
      if f in q.fixes { ExclusiveKept(q, step, f); }
    }
    hide Inv, Take, Enabled, Exclusive, Calm;
  }

  ghost predicate CalmRun(q: Queue, steps: seq<Step>) {
    steps == [] || (CalmRun(q, steps[..|steps| - 1]) && Calm(Run(q, steps[..|steps| - 1]), steps[|steps| - 1]))
  }

  /** As long as no question is put on another exam while it is being corrected, and no answer
      arrives for a correction already under way, every correction survives. */
  lemma {:induction false} CalmIsSound(q: Queue, steps: seq<Step>)
    requires Inv(q) && AllExclusive(q) && CalmRun(q, steps)
    ensures Sound(q, steps) && AllExclusive(Run(q, steps))
  {
    if steps != [] {
      var init, last := steps[..|steps| - 1], steps[|steps| - 1];
      hide Inv, AllExclusive, Enabled, Take, Survives, Calm;
      CalmIsSound(q, init);
      RunInv(q, init);
      var v := Run(q, init);
      if Enabled(v, last) {
        AllExclusiveKept(v, last);
        if last.CommitFix? { CommitSurvives(v, last.fix); }
      }
    }
  }

  lemma {:induction false} CommitSurvives(q: Queue, f: nat)
    requires Inv(q) && AllExclusive(q) && Enabled(q, CommitFix(f))
    ensures Survives(q, q.fixes[f])
  {
    hide Inv, Survives, Exclusive;
    ExclusiveSurvives(q, f);
  }

  // ---- marks of the program that is stored ----

  ghost predicate OwnPrograms(q: Queue) {
    forall k :: k in q.rows && q.rows[k].mark.Some? ==> q.rows[k].mark.value.source == q.rows[k].source
  }

  lemma {:induction false} WriteOwnIff(q: Queue, v: nat)
    requires OwnPrograms(q) && Enabled(q, WriteSave(v))
    ensures OwnPrograms(Take(q, WriteSave(v))) <==>
              (q.saves[v].key in q.rows && q.rows[q.saves[v].key].mark.Some? ==>
                 q.rows[q.saves[v].key].mark.value.source == q.saves[v].source)
  {
    hide HeldByFix, HeldByWorker, Without;
    var q', k := Take(q, WriteSave(v)), q.saves[v].key;
    assert k in q'.rows && q'.rows[k].source == q.saves[v].source;
  }

  lemma {:induction false} CommitOwn(q: Queue, w: nat)
    requires OwnPrograms(q) && Enabled(q, Commit(w)) && WorkerOk(q, q.workers[w])
    ensures OwnPrograms(Take(q, Commit(w)))
  {
    hide Earnt, Waiting, Without;
  }

  lemma {:induction false} CorrectOwn(q: Queue, f: nat)
    requires OwnPrograms(q) && Enabled(q, CommitFix(f))
    ensures OwnPrograms(Take(q, CommitFix(f)))
  {
    hide Without;
  }

  /** A save that is written over a mark given for another program; any other step leaves every
      mark with the program it was given for. */
  lemma {:induction false} OwnProgramsIff(q: Queue, step: Step)
    requires Inv(q) && OwnPrograms(q) && Enabled(q, step)
    ensures OwnPrograms(Take(q, step)) <==>
              (step.WriteSave? && q.saves[step.save].key in q.rows && q.rows[q.saves[step.save].key].mark.Some? ==>
                 q.rows[q.saves[step.save].key].mark.value.source == q.saves[step.save].source)
  {
    if step.WriteSave? {
      WriteOwnIff(q, step.save);
    } else if step.Commit? {
      WorkersAreOk(q);
      hide Inv, WorkerOk;
      CommitOwn(q, step.worker);
    } else if step.CommitFix? {
      CorrectOwn(q, step.fix);
    } else {
      Frame(q, step);
      hide Take, Inv;
    }
  }

  /** Each save is written before its paper is handed in. */
  ghost predicate Timely(q: Queue, steps: seq<Step>) {
    steps == [] || (Timely(q, steps[..|steps| - 1]) && StepTimely(Run(q, steps[..|steps| - 1]), steps[|steps| - 1]))
  }

  ghost predicate StepTimely(q: Queue, step: Step) {
    step.WriteSave? && Enabled(q, step) ==> InTime(q, step.save)
  }

  predicate InTime(q: Queue, v: nat) {
    v in q.saves && q.saves[v].key.session in q.sittings && q.sittings[q.saves[v].key.session].submittedAt.None?
  }

  lemma {:induction false} InTimeUnmarked(q: Queue, v: nat)
    requires Inv(q) && InTime(q, v) && q.saves[v].key in q.rows
    ensures q.rows[q.saves[v].key].mark.None?
  {
    WorkersAreOk(q);
    hide Inv;
  }

  lemma {:induction false} RunOwnPrograms(q: Queue, steps: seq<Step>)
    requires Inv(q) && OwnPrograms(q) && Timely(q, steps)
    ensures OwnPrograms(Run(q, steps))
  {
    if steps != [] {
      var init, last := steps[..|steps| - 1], steps[|steps| - 1];
      hide Inv, OwnPrograms, Enabled, Take, InTime;
      RunOwnPrograms(q, init);
      RunInv(q, init);
      var v := Run(q, init);
      if Enabled(v, last) {
        if last.WriteSave? { UseInTime(v, last.save); }
        OwnProgramsIff(v, last);
      }
    }
  }

  lemma {:induction false} UseInTime(q: Queue, v: nat)
    requires Inv(q) && InTime(q, v)
    ensures v in q.saves && (q.saves[v].key in q.rows ==> q.rows[q.saves[v].key].mark.None?)
  {
    if q.saves[v].key in q.rows { InTimeUnmarked(q, v); }
    hide Inv;
  }

  /** After any interleaving whose corrections survive, a mark on a question of the candidate's own
      exam was computed from the test cases the question has now: none from a replaced key is left.
      If moreover saves are written before the paper is handed in, it is the mark of the program
      that is stored. */
  lemma {:induction false} NoStaleMark(q: Queue, steps: seq<Step>, k: Key)
    requires Idle(q) && Sound(q, steps)
    ensures var q' := Run(q, steps);
            k in q'.rows && q'.rows[k].mark.Some? && OnExam(q', k) ==>
              var mark, question := q'.rows[k].mark.value, q'.questions[k.question];
              && |mark.runs| == |question.tests| && MarkFor(question, question.tests, mark.source, mark.runs) == Some(mark)
              && (Timely(q, steps) ==> mark.source == q'.rows[k].source)
  {
    IdleInv(q);
    RunInv(q, steps);
    RunCurrent(q, steps);
    if Timely(q, steps) { RunOwnPrograms(q, steps); }
    WorkersAreOk(Run(q, steps));
    hide Run, Idle, MarkFor, Inv, Sound, Timely, WorkerOk, WorkerCurrent;
  }

  // ---- what a correction misses ----

  /** A correction replaces the cases and clears, in one step, the mark of every answer its UPDATE
      saw. While the question is on its exam only, of the answers to it these are all but those
      saved by candidates of other exams, whose marks stand on the replaced cases. */
  lemma {:induction false} CorrectionMissesStrays(q: Queue, f: nat, k: Key)
    requires Inv(q) && Enabled(q, CommitFix(f)) && k in q.rows && k.question == q.fixes[f].question
    ensures var x, q' := q.fixes[f], Take(q, CommitFix(f));
            && x.question in q'.questions && q'.questions[x.question].tests == x.cases
            && k in q'.rows && q'.rows[k].source == q.rows[k].source
            && (q'.rows[k].mark.None? <==> q.rows[k].mark.None? || k in x.targets.value)
            && (q'.rows[k].mark.Some? ==> q'.rows[k].mark == q.rows[k].mark)
            && (Exclusive(q, x) && q.questions[x.question].exams != {} ==> (k in x.targets.value <==> OnExam(q, k)))
  {
    FixesAreOk(q);
    WorkersAreOk(q);
    hide MarkFor, Earnt, Inv, WorkerOk;
    var x := q.fixes[f];
    assert x.locked == x.targets.value;
    if Exclusive(q, x) && q.questions[x.question].exams != {} {
      assert q.questions[x.question].exams == {x.exam};
      assert k in Targets(q, x.exam, x.question) <==> OnExam(q, k);
    }
  }

  // ---- two runs in which a mark goes stale ----

  lemma {:induction false} RunMore(q: Queue, steps: seq<Step>, step: Step)
    ensures Run(q, steps + [step]) == Next(Run(q, steps), step)
  {
    assert (steps + [step])[..|steps|] == steps;
  }

  const ANSWER := Engine.Key(5, 0)

  /** One submitted, unmarked, blank answer, to a question without cases; no worker. */
  ghost predicate OneAnswer(q: Queue) {
    && q.rows == map[ANSWER := Row(None, None)] && q.workers == map[]
    && 5 in q.sittings && q.sittings[5].submittedAt.Some? && 0 in q.questions && q.questions[0].coding && q.questions[0].tests == []
    && forall f :: f in q.fixes ==> q.fixes[f].locked == {}
  }

  function With(q: Queue, x: Worker): Queue {
    q.(workers := map[0 := x])
  }

  const BLANK := Mark(0, None, [], [])

  lemma {:induction false} Pass1(q: Queue)
    requires OneAnswer(q)
    ensures Next(q, BeginPass(0)) == With(q, Worker({}, map[], map[]))
  {
  }

  lemma {:induction false} Pass2(q: Queue)
    requires OneAnswer(q)
    ensures Next(With(q, Worker({}, map[], map[])), ClaimRow(0, ANSWER)) == With(q, Worker({ANSWER}, map[], map[]))
  {
    var v := With(q, Worker({}, map[], map[]));
    assert Claimable(v, ANSWER);
    assert {} + {ANSWER} == {ANSWER};
  }

  lemma {:induction false} Pass3(q: Queue)
    requires OneAnswer(q)
    ensures Next(With(q, Worker({ANSWER}, map[], map[])), Load(0, 0)) == With(q, Worker({ANSWER}, map[0 := []], map[]))
  {
    assert ANSWER in With(q, Worker({ANSWER}, map[], map[])).workers[0].claimed;
  }

  lemma {:induction false} Pass4(q: Queue)
    requires OneAnswer(q)
    ensures Next(With(q, Worker({ANSWER}, map[0 := []], map[])), Execute(0, ANSWER, []))
         == With(q, Worker({ANSWER}, map[0 := []], map[ANSWER := Some(BLANK)]))
  {
    assert MarkFor(q.questions[0], [], None, []) == Some(BLANK);
  }

  lemma {:induction false} Pass5(q: Queue)
    requires OneAnswer(q)
    ensures Next(With(q, Worker({ANSWER}, map[0 := []], map[ANSWER := Some(BLANK)])), Commit(0))
         == q.(rows := map[ANSWER := Row(None, Some(BLANK))])
  {
    var v := With(q, Worker({ANSWER}, map[0 := []], map[ANSWER := Some(BLANK)]));
    assert Written(v.rows, v.workers[0].pending) == map[ANSWER := Row(None, Some(BLANK))];
    assert Without(v.workers, 0) == map[];
  }

  /** A pass that nothing interrupts marks it. */
  lemma {:induction false} PassOverOne(q: Queue, steps: seq<Step>) returns (more: seq<Step>)
    requires OneAnswer(Run(q, steps))
    ensures Run(q, more) == Run(q, steps).(rows := map[ANSWER := Row(None, Some(BLANK))])
  {
    var v := Run(q, steps);
    hide *;
    RunMore(q, steps, BeginPass(0));
    Pass1(v);
    more := steps + [BeginPass(0)];
    RunMore(q, more, ClaimRow(0, ANSWER));
    Pass2(v);
    more := more + [ClaimRow(0, ANSWER)];
    RunMore(q, more, Load(0, 0));
    Pass3(v);
    more := more + [Load(0, 0)];
    RunMore(q, more, Execute(0, ANSWER, []));
    Pass4(v);
    more := more + [Execute(0, ANSWER, [])];
    RunMore(q, more, Commit(0));
    Pass5(v);
    more := more + [Commit(0)];
  }

  /** The candidate sits exam 2 with an answer saved; `fixes` and `saves` are under way. */
  function Sat(exams: set<nat>, tests: seq<TestCase>, row: Row, at: Option<int>, fixes: map<nat, Fix>, saves: map<nat, Saving>): Queue {
    Queue({1}, map[5 := Sitting(2, at)], map[0 := Program(exams, true, 1, tests)], map[ANSWER := row], map[], fixes, saves)
  }

  lemma {:induction false} LateSave1()
    ensures Next(Sat({2}, [], Row(None, None), None, map[], map[]), CheckSave(0, ANSWER, Some("x")))
         == Sat({2}, [], Row(None, None), None, map[], map[0 := Saving(ANSWER, Some("x"), false)])
  {
  }

  lemma {:induction false} LateSave2()
    ensures Next(Sat({2}, [], Row(None, None), None, map[], map[0 := Saving(ANSWER, Some("x"), false)]), HandIn(5, 9))
         == Sat({2}, [], Row(None, None), Some(9), map[], map[0 := Saving(ANSWER, Some("x"), false)])
  {
  }

  lemma {:induction false} LateSave3()
    ensures Next(Sat({2}, [], Row(None, Some(BLANK)), Some(9), map[], map[0 := Saving(ANSWER, Some("x"), false)]), WriteSave(0))
         == Sat({2}, [], Row(Some("x"), Some(BLANK)), Some(9), map[], map[])
  {
    var v := Sat({2}, [], Row(None, Some(BLANK)), Some(9), map[], map[0 := Saving(ANSWER, Some("x"), false)]);
    assert Without(v.saves, 0) == map[];
  }

  /** A save found writable before the paper is handed in, and written after the worker's commit,
      leaves a program that was never marked under the mark of the one it replaces. */
  lemma {:induction false} LateSaveKeepsMark() returns (q: Queue, steps: seq<Step>)
    ensures Idle(q) && !OwnPrograms(Run(q, steps))
  {
    q := Sat({2}, [], Row(None, None), None, map[], map[]);
    var none: seq<Step> := [];
    assert Idle(q) && Run(q, none) == q;
    hide Run, Next, OneAnswer, Idle;
    RunMore(q, none, CheckSave(0, ANSWER, Some("x")));
    LateSave1();
    steps := none + [CheckSave(0, ANSWER, Some("x"))];
    RunMore(q, steps, HandIn(5, 9));
    LateSave2();
    steps := steps + [HandIn(5, 9)];
    WaitsForPass(map[], map[0 := Saving(ANSWER, Some("x"), false)], {2});
    steps := PassOverOne(q, steps);
    RunMore(q, steps, WriteSave(0));
    LateSave3();
    steps := steps + [WriteSave(0)];
    assert ANSWER in Run(q, steps).rows;
  }

  lemma {:induction false} WaitsForPass(fixes: map<nat, Fix>, saves: map<nat, Saving>, exams: set<nat>)
    requires forall f :: f in fixes ==> fixes[f].locked == {}
    ensures OneAnswer(Sat(exams, [], Row(None, None), Some(9), fixes, saves))
  {
  }

  const RETRY := [TestCase(0, "", "", false, 1)]

  /** Exam 1 is over and its question is being corrected; exam 2 is still to be drafted. */
  function Asked(exams: set<nat>, sittings: map<nat, Sitting>, fixes: map<nat, Fix>, saves: map<nat, Saving>): Queue {
    Queue({1}, sittings, map[0 := Program(exams, true, 1, [])], map[], map[], fixes, saves)
  }

  const FIXING := map[0 := Fix(1, 0, RETRY, None, {})]
  const SCANNED := map[0 := Fix(1, 0, RETRY, Some({}), {})]
  const SITTING := map[5 := Sitting(2, None)]

  lemma {:induction false} Shared1()
    ensures Next(Asked({1}, map[], map[], map[]), BeginFix(0, 1, 0, RETRY)) == Asked({1}, map[], FIXING, map[])
  {
  }

  lemma {:induction false} Shared2()
    ensures Next(Asked({1}, map[], FIXING, map[]), Link(2, 0)) == Asked({1, 2}, map[], FIXING, map[])
  {
    assert {1} + {2} == {1, 2};
  }

  lemma {:induction false} Shared3()
    ensures Next(Asked({1, 2}, map[], FIXING, map[]), Sit(5, 2)) == Asked({1, 2}, SITTING, FIXING, map[])
  {
  }

  lemma {:induction false} Shared4()
    ensures Next(Asked({1, 2}, SITTING, FIXING, map[]), CheckSave(0, ANSWER, None))
         == Asked({1, 2}, SITTING, FIXING, map[0 := Saving(ANSWER, None, true)])
  {
  }

  lemma {:induction false} Shared5()
    ensures Next(Asked({1, 2}, SITTING, FIXING, map[0 := Saving(ANSWER, None, true)]), WriteSave(0))
         == Sat({1, 2}, [], Row(None, None), None, FIXING, map[])
  {
    assert Without(map[0 := Saving(ANSWER, None, true)], 0) == map[];
  }

  lemma {:induction false} Shared6()
    ensures Next(Sat({1, 2}, [], Row(None, None), None, FIXING, map[]), HandIn(5, 9))
         == Sat({1, 2}, [], Row(None, None), Some(9), FIXING, map[])
  {
  }

  lemma {:induction false} Shared7()
    ensures Next(Sat({1, 2}, [], Row(None, Some(BLANK)), Some(9), FIXING, map[]), ScanFix(0))
         == Sat({1, 2}, [], Row(None, Some(BLANK)), Some(9), SCANNED, map[])
  {
    assert Targets(Sat({1, 2}, [], Row(None, Some(BLANK)), Some(9), FIXING, map[]), 1, 0) == {};
  }

  lemma {:induction false} Shared8()
    ensures Next(Sat({1, 2}, [], Row(None, Some(BLANK)), Some(9), SCANNED, map[]), CommitFix(0))
         == Sat({1, 2}, RETRY, Row(None, Some(BLANK)), Some(9), map[], map[])
  {
    var v := Sat({1, 2}, [], Row(None, Some(BLANK)), Some(9), SCANNED, map[]);
    assert Without(v.fixes, 0) == map[];
    assert Cleared(v.rows, {}) == v.rows;
  }

  lemma {:induction false} SharedStart()
    ensures Idle(Asked({1}, map[], map[], map[]))
  {
  }

  lemma {:induction false} SharedDraft(q: Queue) returns (steps: seq<Step>)
    requires q == Asked({1}, map[], map[], map[])
    ensures Run(q, steps) == Asked({1, 2}, SITTING, FIXING, map[])
  {
    var none: seq<Step> := [];
    assert Run(q, none) == q;
    hide Run, Next, Asked;
    RunMore(q, none, BeginFix(0, 1, 0, RETRY));
    Shared1();
    steps := none + [BeginFix(0, 1, 0, RETRY)];
    RunMore(q, steps, Link(2, 0));
    Shared2();
    steps := steps + [Link(2, 0)];
    RunMore(q, steps, Sit(5, 2));
    Shared3();
    steps := steps + [Sit(5, 2)];
  }

  lemma {:induction false} SharedAnswer(q: Queue, steps: seq<Step>) returns (more: seq<Step>)
    requires Run(q, steps) == Asked({1, 2}, SITTING, FIXING, map[])
    ensures Run(q, more) == Sat({1, 2}, [], Row(None, Some(BLANK)), Some(9), FIXING, map[])
  {
    hide Run, Next, OneAnswer, Asked;
    RunMore(q, steps, CheckSave(0, ANSWER, None));
    Shared4();
    more := steps + [CheckSave(0, ANSWER, None)];
    RunMore(q, more, WriteSave(0));
    Shared5();
    more := more + [WriteSave(0)];
    RunMore(q, more, HandIn(5, 9));
    Shared6();
    more := more + [HandIn(5, 9)];
    WaitsForPass(FIXING, map[], {1, 2});
    more := PassOverOne(q, more);
  }

  lemma {:induction false} SharedEnd()
    ensures !MarksCurrent(Sat({1, 2}, RETRY, Row(None, Some(BLANK)), Some(9), map[], map[]))
  {
    var v := Sat({1, 2}, RETRY, Row(None, Some(BLANK)), Some(9), map[], map[]);
    assert ANSWER in v.rows && OnExam(v, ANSWER);
  }

  /** A question put on a second exam while it is being corrected for the first: the second exam's
      candidates can be marked on the old cases, and the correction does not clear their marks. */
  lemma {:induction false} SharedMeanwhile() returns (q: Queue, steps: seq<Step>)
    ensures Idle(q) && !MarksCurrent(Run(q, steps))
  {
    hide *;
    q := Asked({1}, map[], map[], map[]);
    SharedStart();
    steps := SharedDraft(q);
    steps := SharedAnswer(q, steps);
    RunMore(q, steps, ScanFix(0));
    Shared7();
    steps := steps + [ScanFix(0)];
    RunMore(q, steps, CommitFix(0));
    Shared8();
    steps := steps + [CommitFix(0)];
    SharedEnd();
  }

  // ---- the pass that takes no lock ----

  /** `grade_session`: a mark computed from the program and the cases read at some earlier moment
      is written without the row having been claimed. */
  ghost function UnlockedWrite(q: Queue, k: Key, source: Option<string>, tests: seq<TestCase>, runs: seq<Execution>): Queue
    requires k in q.rows && k.question in q.questions && |runs| == |tests|
  {
    var outcome := MarkFor(q.questions[k.question], tests, source, runs);
    if outcome.Some? then q.(rows := q.rows[k := q.rows[k].(mark := outcome)]) else q
  }

  /** It keeps all marks current exactly when the cases it read are still the question's, or it
      writes nothing, or the row is not one of the exam's. */
  lemma {:induction false} UnlockedWriteCurrentIff(q: Queue, k: Key, source: Option<string>, tests: seq<TestCase>, runs: seq<Execution>)
    requires MarksCurrent(q) && k in q.rows && k.question in q.questions && |runs| == |tests|
    ensures MarksCurrent(UnlockedWrite(q, k, source, tests, runs)) <==>
              || !OnExam(q, k) || MarkFor(q.questions[k.question], tests, source, runs).None?
              || tests == q.questions[k.question].tests
  {
    var q' := UnlockedWrite(q, k, source, tests, runs);
    var outcome := MarkFor(q.questions[k.question], tests, source, runs);
    MarkForEarnt(q.questions[k.question], tests, source, runs);
    hide MarkFor, Earnt;
    forall j ensures OnExam(q', j) == OnExam(q, j) { }
    if MarksCurrent(q') && OnExam(q, k) && outcome.Some? {
      assert OnExam(q', k) && q'.rows[k].mark.Some?;
    }
  }

  /** So a pass that read the cases before a correction and writes after it leaves a mark that
      was earned on the replaced key. */
  lemma {:induction false} UnlockedMarkGoesStale(q: Queue, f: nat, k: Key, runs: seq<Execution>)
    requires Inv(q) && Current(q) && Enabled(q, CommitFix(f)) && Survives(q, q.fixes[f])
    requires k in q.rows && k.question == q.fixes[f].question && OnExam(q, k) && |runs| == |q.questions[k.question].tests|
    requires q.questions[k.question].tests != q.fixes[f].cases
    requires Blank(q.rows[k].source) || !AnyUnavailable(runs)
    ensures var q' := Take(q, CommitFix(f));
            && k in q'.rows && k.question in q'.questions
            && !MarksCurrent(UnlockedWrite(q', k, q.rows[k].source, q.questions[k.question].tests, runs))
  {
    var q' := Take(q, CommitFix(f));
    CorrectionCurrentIff(q, f);
    OnExamSame(q, CommitFix(f), k);
    hide Inv, Survives, UnlockedWrite, MarksCurrent, WorkerCurrent;
    UnlockedWriteCurrentIff(q', k, q.rows[k].source, q.questions[k.question].tests, runs);
  }

  // ---- one claim that nothing interrupts ----

  /** When the paper of a row was submitted. */
  function When(q: Queue, k: Key): int {
    if k.session in q.sittings && q.sittings[k.session].submittedAt.Some? then q.sittings[k.session].submittedAt.value else 0
  }

  /** The waiting rows, each once, the oldest submission first. */
  ghost predicate BySubmission(q: Queue, order: seq<Key>) {
    && Distinct(order)
    && (forall k :: Waiting(q, k) <==> k in order)
    && forall i, j :: 0 <= i < j < |order| ==> When(q, order[i]) <= When(q, order[j])
  }

  /** As many of the oldest rows nobody holds as there are, up to the limit. */
  ghost predicate OldestFirst(q: Queue, picks: seq<Key>) {
    && Distinct(picks) && |picks| <= LIMIT
    && (forall k :: k in picks ==> Claimable(q, k))
    && forall k :: Claimable(q, k) && k !in picks ==>
         |picks| == LIMIT && forall c :: c in picks ==> When(q, c) <= When(q, k)
  }

  /** `ORDER BY submitted_at LIMIT 4 ... SKIP LOCKED` over rows that do not move meanwhile. */
  method ClaimOldest(q: Queue, order: seq<Key>) returns (picks: seq<Key>)
    requires BySubmission(q, order)
    ensures OldestFirst(q, picks)
  {
    ListedIfClaimable(q, order);
    hide Waiting, Claimable, When, BySubmission;
    picks := [];
    var i := 0;
    while i < |order| && |picks| < LIMIT
      invariant 0 <= i <= |order| && |picks| <= LIMIT && Distinct(picks)
      invariant forall k :: k in picks <==> k in order[..i] && Claimable(q, k)
    {
      assert order[..i + 1] == order[..i] + [order[i]];
      assert order[i] !in order[..i];
      if Claimable(q, order[i]) {
        picks := picks + [order[i]];
      }
      i := i + 1;
    }
    assert order[..|order|] == order;
    forall k, c | Claimable(q, k) && k !in picks && c in picks ensures When(q, c) <= When(q, k) {
      ListedBefore(q, order, i, c, k);
    }
  }

  lemma {:induction false} ListedIfClaimable(q: Queue, order: seq<Key>)
    requires BySubmission(q, order)
    ensures Distinct(order) && forall k :: Claimable(q, k) ==> k in order
  {
    hide Waiting, When;
  }

  lemma {:induction false} ListedBefore(q: Queue, order: seq<Key>, i: nat, c: Key, k: Key)
    requires BySubmission(q, order) && i <= |order| && c in order[..i] && k in order && k !in order[..i]
    ensures When(q, c) <= When(q, k)
  {
    hide Waiting, When;
    var m :| 0 <= m < i && order[m] == c;
    assert order == order[..i] + order[i..];
    var n :| 0 <= n < |order[i..]| && order[i..][n] == k;
    assert order[i + n] == k;
  }

  function ClaimSteps(w: nat, picks: seq<Key>): seq<Step> {
    if picks == [] then [BeginPass(w)] else ClaimSteps(w, picks[..|picks| - 1]) + [ClaimRow(w, picks[|picks| - 1])]
  }

  ghost function Claimed(q: Queue, w: nat, picks: seq<Key>): Queue {
    q.(workers := q.workers[w := Worker(set k | k in picks, map[], map[])])
  }

  lemma {:induction false} ClaimedOneMore(q: Queue, w: nat, picks: seq<Key>, k: Key)
    requires w !in q.workers && |picks| < LIMIT && k !in picks && Claimable(q, k)
    ensures Next(Claimed(q, w, picks), ClaimRow(w, k)) == Claimed(q, w, picks + [k])
  {
    var now := Claimed(q, w, picks);
    var held := set j | j in picks;
    SetWithin(picks);
    assert (set j | j in picks + [k]) == held + {k};
    HeldByNobody(q, k);
    hide Waiting;
    assert Waiting(now, k) by { SameWaiting(q, now, k); }
    assert now.workers[w := now.workers[w].(claimed := held + {k})] == q.workers[w := Worker(held + {k}, map[], map[])];
  }

  lemma {:induction false} SameWaiting(q: Queue, q': Queue, k: Key)
    requires Waiting(q, k) && q'.rows == q.rows && q'.sittings == q.sittings && q'.questions == q.questions
    ensures Waiting(q', k)
  {
  }

  lemma {:induction false} SetWithin(picks: seq<Key>)
    ensures |set k | k in picks| <= |picks|
  {
    if picks != [] {
      var init, last := picks[..|picks| - 1], picks[|picks| - 1];
      SetWithin(init);
      assert (set k | k in picks) == (set k | k in init) + {last} by { assert picks == init + [last]; }
    }
  }

  /** The rows `ClaimOldest` picks can be claimed one after another, and then are the worker's. */
  lemma {:induction false} UninterruptedClaim(q: Queue, w: nat, picks: seq<Key>)
    requires w !in q.workers && Distinct(picks) && |picks| <= LIMIT && forall k :: k in picks ==> Claimable(q, k)
    ensures Run(q, ClaimSteps(w, picks)) == Claimed(q, w, picks)
  {
    hide Claimable;
    if picks == [] {
      assert [BeginPass(w)][..0] == [];
      assert (set k: Key | k in picks) == {};
    } else {
      var init, last := picks[..|picks| - 1], picks[|picks| - 1];
      assert picks == init + [last];
      UninterruptedClaim(q, w, init);
      RunMore(q, ClaimSteps(w, init), ClaimRow(w, last));
      hide Run, Next;
      ClaimedOneMore(q, w, init, last);
    }
  }
}
