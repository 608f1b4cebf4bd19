/** Ending sign-ins against renewals and sign-ins of the same account, statement by statement
    (`login`, `refresh` and `logout` in backend/app/api/routes_directory.py, the password changes in
    backend/app/services/directory.py). A renewal locks the token it is shown, and inserts the
    replacement as it commits. A sign-in checks the password first and inserts its token as it
    commits. A sign-out, a password change and a reset run one UPDATE: it sees the rows there are as
    it starts, goes through them waiting for each one's lock, looks at that row again, and takes
    effect as it commits. A row inserted meanwhile is not among those it goes through. */
module SignOutRace {

  /** Which tokens the UPDATE asks for: those of one sign-in, or all of the account. */
  datatype Scope = One(session: nat) | All

  /** `todo` are the rows the statement has yet to reach, `locked` those it will consume. */
  datatype Ending = NotYet | Scanning(scope: Scope, todo: set<nat>, locked: set<nat>) | Over(scope: Scope)

  /** One account: the sign-in of every unconsumed token; every token ever issued and every sign-in
      ever opened; the token each renewal under way holds; for each sign-in under way, and each one
      opened, whether it checked the password after a change of it; and the tokens issued since the
      ending's statement started. */
  datatype State = State(
    live: map<nat, nat>, issued: set<nat>, begun: set<nat>, renewals: map<nat, nat>, logins: map<nat, bool>,
    ending: Ending, since: map<nat, nat>, trusted: set<nat>)

  datatype Step =
    | BeginLogin(login: nat)
    | CommitLogin(login: nat, id: nat, session: nat)
    | BeginRenewal(renewal: nat, token: nat)
    | CommitRenewal(renewal: nat, id: nat)
    | AbortRenewal(renewal: nat)
    | BeginEnding(scope: Scope)
    | Reach(token: nat)
    | CommitEnding

  predicate InScope(scope: Scope, s: nat) {
    scope == All || scope == One(s)
  }

  predicate HeldByRenewal(st: State, t: nat) {
    exists r :: r in st.renewals && st.renewals[r] == t
  }

  predicate HeldByEnding(st: State, t: nat) {
    st.ending.Scanning? && t in st.ending.locked
  }

  /** The step is neither refused nor waiting for a lock. */
  predicate Enabled(st: State, step: Step) {
    match step
    case BeginLogin(l) => l !in st.logins
    case CommitLogin(l, id, s) => l in st.logins && id !in st.issued && s !in st.begun
    case BeginRenewal(r, t) => r !in st.renewals && t in st.live && !HeldByRenewal(st, t) && !HeldByEnding(st, t)
    case CommitRenewal(r, id) => r in st.renewals && st.renewals[r] in st.live && id !in st.issued
    case AbortRenewal(r) => r in st.renewals
    case BeginEnding(_) => st.ending.NotYet?
    case Reach(t) => st.ending.Scanning? && t in st.ending.todo && !HeldByRenewal(st, t)
    case CommitEnding => st.ending.Scanning? && st.ending.todo == {}
  }

  function Asked(live: map<nat, nat>, scope: Scope): set<nat> {
    set t | t in live && InScope(scope, live[t])
  }

  /** Token `id` of sign-in `s` is inserted. */
  function Issue(st: State, id: nat, s: nat): State {
    st.(live := st.live[id := s], issued := st.issued + {id},
        since := if st.ending.Scanning? then st.since[id := s] else st.since)
  }

  function Take(st: State, step: Step): State
    requires Enabled(st, step)
  {
    match step
    case BeginLogin(l) => st.(logins := st.logins[l := st.ending == Over(All)])
    case CommitLogin(l, id, s) =>
      Issue(st, id, s).(begun := st.begun + {s}, logins := st.logins - {l},
                        trusted := if st.logins[l] then st.trusted + {s} else st.trusted)
    case BeginRenewal(r, t) => st.(renewals := st.renewals[r := t])
    case CommitRenewal(r, id) =>
      var t := st.renewals[r];
      Issue(st.(live := st.live - {t}), id, st.live[t]).(renewals := st.renewals - {r})
    case AbortRenewal(r) => st.(renewals := st.renewals - {r})
    case BeginEnding(scope) => st.(ending := Scanning(scope, Asked(st.live, scope), {}))
    case Reach(t) =>
      st.(ending := st.ending.(todo := st.ending.todo - {t},
                               locked := if t in st.live then st.ending.locked + {t} else st.ending.locked))
    case CommitEnding => st.(live := st.live - st.ending.locked, ending := Over(st.ending.scope))
  }

  function Next(st: State, step: Step): State {
    if Enabled(st, step) then Take(st, step) else st
  }

  function Run(st: State, steps: seq<Step>): State {
    if steps == [] then st else Next(Run(st, steps[..|steps| - 1]), steps[|steps| - 1])
  }

  /** Signed in, with these tokens; nothing under way. */
  function Quiet(live: map<nat, nat>): State {
    State(live, live.Keys, live.Values, map[], map[], NotYet, map[], {})
  }

  // ---- the invariant ----

  ghost predicate Alive(st: State, s: nat) {
    exists t :: t in st.live && st.live[t] == s
  }

  ghost predicate Renewed(st: State, s: nat) {
    exists t :: t in st.since && st.since[t] == s
  }

  ghost predicate OneLive(live: map<nat, nat>) {
    forall t, u :: t in live && u in live && live[t] == live[u] ==> t == u
  }

  ghost predicate Known(st: State) {
    && (forall t :: t in st.live ==> t in st.issued && st.live[t] in st.begun)
    && (forall t :: t in st.since ==> t in st.issued && st.since[t] in st.begun)
    && st.trusted <= st.begun
    && (st.ending.NotYet? ==> st.since == map[])
    && (forall l :: l in st.logins && st.logins[l] ==> st.ending == Over(All))
    && (st.trusted != {} ==> st.ending == Over(All))
  }

  /** Each renewal holds a live token, not another's, and not one the ending holds. */
  ghost predicate LocksOk(st: State) {
    && (forall r :: r in st.renewals ==> st.renewals[r] in st.live && !HeldByEnding(st, st.renewals[r]))
    && (forall r, q :: r in st.renewals && q in st.renewals && st.renewals[r] == st.renewals[q] ==> r == q)
    && (st.ending.Scanning? ==> st.ending.todo <= st.issued && forall t :: t in st.ending.locked ==> t in st.live)
  }

  /** While the statement runs, for a sign-in it asks for: as long as no token of it was issued
      meanwhile, every live one is among those reached or to be reached; once one was, the live one
      is one it cannot see. It reaches for no other sign-in's tokens. */
  ghost predicate ScanOk(st: State) {
    st.ending.Scanning? ==>
      && (forall t :: t in st.since ==> t !in st.ending.todo)
      && (forall t :: t in st.live && (t in st.ending.todo || t in st.ending.locked) ==> InScope(st.ending.scope, st.live[t]))
      && (forall t :: t in st.live && InScope(st.ending.scope, st.live[t]) && !Renewed(st, st.live[t]) ==>
            t in st.ending.todo || t in st.ending.locked)
      && (forall s :: Renewed(st, s) ==> Alive(st, s))
      && (forall t :: t in st.live && Renewed(st, st.live[t]) ==> t in st.since && t !in st.ending.locked)
  }

  ghost predicate Inv(st: State) {
    OneLive(st.live) && Known(st) && LocksOk(st) && ScanOk(st)
  }

  lemma {:induction false} QuietInv(live: map<nat, nat>)
    requires OneLive(live)
    ensures Inv(Quiet(live))
  {
  }

  lemma {:induction false} RenewedBy(st: State, id: nat, s: nat, x: nat)
    requires st.ending.Scanning? && id !in st.since
    ensures Renewed(Issue(st, id, s), x) <==> x == s || Renewed(st, x)
  {
    var st' := Issue(st, id, s);
    if Renewed(st, x) {
      var t :| t in st.since && st.since[t] == x;
      assert t in st'.since && st'.since[t] == x;
    }
    if x == s { assert id in st'.since && st'.since[id] == x; }
  }

  lemma {:induction false} AliveBy(st: State, id: nat, s: nat, x: nat)
    requires id !in st.live
    ensures Alive(Issue(st, id, s), x) <==> x == s || Alive(st, x)
  {
    var st' := Issue(st, id, s);
    if Alive(st, x) {
      var t :| t in st.live && st.live[t] == x;
      assert t in st'.live && st'.live[t] == x;
    }
    if x == s { assert id in st'.live && st'.live[id] == x; }
  }

  /** A token issued for a sign-in that has none live, and that the ending holds none of. */
  lemma {:induction false} IssueScan(st: State, id: nat, s: nat)
    requires Known(st) && id !in st.issued && !Alive(st, s)
    requires st.ending.Scanning? ==> st.ending.todo <= st.issued && forall t :: t in st.ending.locked ==> t in st.live
    requires st.ending.Scanning? ==>
               && (forall t :: t in st.since ==> t !in st.ending.todo)
               && (forall t :: t in st.live && (t in st.ending.todo || t in st.ending.locked) ==> InScope(st.ending.scope, st.live[t]))
               && (forall t :: t in st.live && InScope(st.ending.scope, st.live[t]) && !Renewed(st, st.live[t]) ==>
                     t in st.ending.todo || t in st.ending.locked)
               && (forall x :: Renewed(st, x) && x != s ==> Alive(st, x))
               && (forall t :: t in st.live && Renewed(st, st.live[t]) ==> t in st.since && t !in st.ending.locked)
    ensures ScanOk(Issue(st, id, s))
  {
    if st.ending.Scanning? {
      forall x ensures Renewed(Issue(st, id, s), x) <==> x == s || Renewed(st, x) { RenewedBy(st, id, s, x); }
      forall x ensures Alive(Issue(st, id, s), x) <==> x == s || Alive(st, x) { AliveBy(st, id, s, x); }
      assert forall t :: t in st.live ==> st.live[t] != s;
      hide Renewed, Alive, Known, InScope;
    }
  }

  /** The rest of the invariant, but for what the renewals hold. */
  lemma {:induction false} IssueKnown(st: State, id: nat, s: nat)
    requires Known(st) && OneLive(st.live) && id !in st.issued && !Alive(st, s) && s in st.begun
    ensures Known(Issue(st, id, s)) && OneLive(Issue(st, id, s).live)
  {
    assert forall t :: t in st.live ==> st.live[t] != s;
    hide Alive;
  }

  lemma {:induction false} IssueLocks(st: State, id: nat, s: nat)
    requires LocksOk(st) && id !in st.issued
    ensures LocksOk(Issue(st, id, s))
  {
    var st' := Issue(st, id, s);
    forall r | r in st'.renewals ensures st'.renewals[r] in st'.live && !HeldByEnding(st', st'.renewals[r]) {
      assert st.renewals[r] in st.live && !HeldByEnding(st, st.renewals[r]);
    }
  }

  lemma {:induction false} OpenedKnown(st: State, l: nat, s: nat)
    requires Known(st) && l in st.logins
    ensures Known(st.(begun := st.begun + {s}))
    ensures Known(st.(begun := st.begun + {s}, logins := st.logins - {l},
                      trusted := if st.logins[l] then st.trusted + {s} else st.trusted))
  {
  }

  lemma {:induction false} CommitLoginInv(st: State, l: nat, id: nat, s: nat)
    requires Inv(st) && Enabled(st, CommitLogin(l, id, s))
    ensures Inv(Take(st, CommitLogin(l, id, s)))
  {
    assert !Alive(st, s);
    var mid := st.(begun := st.begun + {s}, logins := st.logins - {l}, trusted := if st.logins[l] then st.trusted + {s} else st.trusted);
    OpenedKnown(st, l, s);
    SameScan(st, mid);
    SameLocks(st, mid);
    assert !Alive(mid, s);
    IssueScan(mid, id, s) by { hide Renewed, Alive, InScope, Known; }
    hide ScanOk, Renewed, Alive, InScope, Known, LocksOk, OneLive;
    IssueKnown(mid, id, s);
    IssueLocks(mid, id, s);
    assert Issue(mid, id, s) == Take(st, CommitLogin(l, id, s));
  }

  lemma {:induction false} SameLocks(st: State, st': State)
    requires LocksOk(st) && st'.live == st.live && st'.issued == st.issued && st'.renewals == st.renewals && st'.ending == st.ending
    ensures LocksOk(st')
  {
    forall r | r in st'.renewals ensures st'.renewals[r] in st'.live && !HeldByEnding(st', st'.renewals[r]) {
      assert st.renewals[r] in st.live && !HeldByEnding(st, st.renewals[r]);
    }
  }

  lemma {:induction false} SameScan(st: State, st': State)
    requires ScanOk(st) && st'.live == st.live && st'.since == st.since && st'.ending == st.ending
    ensures ScanOk(st')
  {
    assert forall s :: Renewed(st', s) == Renewed(st, s);
    assert forall s :: Alive(st', s) == Alive(st, s);
  }

  /** Taking out a sign-in's only token leaves the other sign-ins as they were. */
  lemma {:induction false} AliveWithout(st: State, t: nat, x: nat)
    requires OneLive(st.live) && t in st.live
    ensures Alive(st.(live := st.live - {t}), x) <==> x != st.live[t] && Alive(st, x)
  {
    var st' := st.(live := st.live - {t});
    if Alive(st, x) && x != st.live[t] {
      var u :| u in st.live && st.live[u] == x;
      assert u in st'.live && st'.live[u] == x;
    }
  }

  /** Renewal `r` lets its token go, unconsumed or not. */
  function Released(st: State, r: nat): State
    requires r in st.renewals
  {
    st.(live := st.live - {st.renewals[r]}, renewals := st.renewals - {r})
  }

  lemma {:induction false} ReleasedOk(st: State, r: nat)
    requires Inv(st) && r in st.renewals
    ensures st.renewals[r] in st.live
    ensures var bare := Released(st, r);
            Known(bare) && OneLive(bare.live) && LocksOk(bare) && !Alive(bare, st.live[st.renewals[r]]) && st.live[st.renewals[r]] in bare.begun
  {
    assert !HeldByEnding(st, st.renewals[r]);
  }

  lemma {:induction false} CommitRenewalScan(st: State, r: nat, id: nat)
    requires Inv(st) && Enabled(st, CommitRenewal(r, id))
    ensures ScanOk(Take(st, CommitRenewal(r, id)))
  {
    var t := st.renewals[r];
    var s := st.live[t];
    var bare := Released(st, r);
    assert !HeldByEnding(st, t);
    forall x ensures Alive(bare, x) <==> x != s && Alive(st, x) {
      AliveWithout(st, t, x);
      assert Alive(bare, x) == Alive(st.(live := st.live - {t}), x);
    }
    assert forall x :: Renewed(bare, x) == Renewed(st, x);
    assert Known(bare);
    hide Renewed, Alive, Known, InScope;
    IssueScan(bare, id, s);
    SameScan(Issue(bare, id, s), Take(st, CommitRenewal(r, id)));
  }

  lemma {:induction false} CommitRenewalInv(st: State, r: nat, id: nat)
    requires Inv(st) && Enabled(st, CommitRenewal(r, id))
    ensures Inv(Take(st, CommitRenewal(r, id)))
  {
    CommitRenewalScan(st, r, id);
    ReleasedOk(st, r);
    hide ScanOk, Renewed, Alive, InScope, Known, LocksOk, OneLive;
    IssueKnown(Released(st, r), id, st.live[st.renewals[r]]);
    IssueLocks(Released(st, r), id, st.live[st.renewals[r]]);
    assert Issue(Released(st, r), id, st.live[st.renewals[r]]) == Take(st, CommitRenewal(r, id));
  }

  lemma {:induction false} BeginEndingInv(st: State, scope: Scope)
    requires Inv(st) && st.ending.NotYet?
    ensures Inv(Take(st, BeginEnding(scope)))
  {
    hide Alive, InScope;
  }

  lemma {:induction false} ReachScan(st: State, t: nat)
    requires Inv(st) && Enabled(st, Reach(t))
    ensures ScanOk(Take(st, Reach(t)))
  {
    var st' := Take(st, Reach(t));
    assert forall s :: Renewed(st', s) == Renewed(st, s);
    assert forall s :: Alive(st', s) == Alive(st, s);
    hide Renewed, Alive, InScope, HeldByRenewal, Known, LocksOk, OneLive;
  }

  lemma {:induction false} ReachInv(st: State, t: nat)
    requires Inv(st) && Enabled(st, Reach(t))
    ensures Inv(Take(st, Reach(t)))
  {
    ReachScan(st, t);
    hide ScanOk, Renewed, Alive, InScope;
    forall r | r in st.renewals ensures st.renewals[r] != t { }
  }

  lemma {:induction false} CommitEndingInv(st: State)
    requires Inv(st) && Enabled(st, CommitEnding)
    ensures Inv(Take(st, CommitEnding))
  {
    hide ScanOk, Renewed, Alive, InScope;
    forall r | r in st.renewals ensures st.renewals[r] !in st.ending.locked { assert !HeldByEnding(st, st.renewals[r]); }
    var st' := Take(st, CommitEnding);
    NotScanning(st');
  }

  lemma {:induction false} NotScanning(st: State)
    requires !st.ending.Scanning?
    ensures ScanOk(st)
  {
  }

  lemma {:induction false} LockStepInv(st: State, step: Step)
    requires Inv(st) && Enabled(st, step) && (step.BeginLogin? || step.BeginRenewal? || step.AbortRenewal?)
    ensures Inv(Take(st, step))
  {
    SameScan(st, Take(st, step));
    hide ScanOk, Renewed, Alive, InScope;
  }

  lemma {:induction false} NextInv(st: State, step: Step)
    requires Inv(st)
    ensures Inv(Next(st, step))
  {
    hide Inv, Take;
    if Enabled(st, step) {
      match step
      case CommitLogin(l, id, s) => CommitLoginInv(st, l, id, s);
      case CommitRenewal(r, id) => CommitRenewalInv(st, r, id);
      case BeginEnding(scope) => BeginEndingInv(st, scope);
      case Reach(t) => ReachInv(st, t);
      case CommitEnding => CommitEndingInv(st);
      case _ => LockStepInv(st, step);
    }
  }

  lemma {:induction false} RunInv(st: State, steps: seq<Step>)
    requires Inv(st)
    ensures Inv(Run(st, steps))
  {
    hide Inv, Next;
    if steps != [] {
      RunInv(st, steps[..|steps| - 1]);
      NextInv(Run(st, steps[..|steps| - 1]), steps[|steps| - 1]);
    }
  }

  // ---- what an ending achieves ----

  lemma {:induction false} CommitEndsIff(st: State, s: nat)
    requires Inv(st) && Enabled(st, CommitEnding)
    ensures InScope(st.ending.scope, s) ==> (Alive(Take(st, CommitEnding), s) <==> Renewed(st, s))
    ensures !InScope(st.ending.scope, s) ==> (Alive(Take(st, CommitEnding), s) <==> Alive(st, s))
  {
    var st' := Take(st, CommitEnding);
    if Alive(st, s) {
      var t :| t in st.live && st.live[t] == s;
      if t !in st.ending.locked { assert t in st'.live && st'.live[t] == s; }
    }
  }

  /** In every interleaving, from any tokens one to a sign-in, as a sign-out or a change of password
      commits: a sign-in it is to end still has a token that would be honoured exactly when one was
      issued for it since the ending's statement started; every other has one exactly if it had. */
  lemma {:induction false} EndingEndsIff(live: map<nat, nat>, steps: seq<Step>, s: nat)
    requires OneLive(live) && Enabled(Run(Quiet(live), steps), CommitEnding)
    ensures var st := Run(Quiet(live), steps);
            Alive(Take(st, CommitEnding), s) <==> if InScope(st.ending.scope, s) then Renewed(st, s) else Alive(st, s)
  {
    hide *;
    QuietInv(live);
    RunInv(Quiet(live), steps);
    CommitEndsIff(Run(Quiet(live), steps), s);
  }

  lemma {:induction false} DeadStep(st: State, step: Step, s: nat)
    requires Inv(st) && s in st.begun && !Alive(st, s)
    ensures s in Next(st, step).begun && !Alive(Next(st, step), s)
  {
  }

  /** A sign-in without a token has none again, whatever is tried afterwards. */
  lemma {:induction false} OverForGood(st: State, steps: seq<Step>, s: nat)
    requires Inv(st) && s in st.begun && !Alive(st, s)
    ensures s in Run(st, steps).begun && !Alive(Run(st, steps), s)
  {
    if steps != [] {
      var init := steps[..|steps| - 1];
      OverForGood(st, init, s);
      RunInv(st, init);
      hide Inv, Next, Alive;
      DeadStep(Run(st, init), steps[|steps| - 1], s);
    }
  }

  // ---- the first to lock ----

  ghost predicate Caught(st: State, s: nat) {
    st.ending.Scanning? && exists t :: t in st.ending.locked && t in st.live && st.live[t] == s
  }

  lemma {:induction false} CaughtStep(st: State, step: Step, s: nat)
    requires Inv(st) && Caught(st, s)
    ensures s in st.begun
    ensures if step == CommitEnding && Enabled(st, step) then !Alive(Next(st, step), s) else Caught(Next(st, step), s)
  {
    var t :| t in st.ending.locked && t in st.live && st.live[t] == s;
    assert HeldByEnding(st, t);
    var st' := Next(st, step);
    if step == CommitEnding && Enabled(st, step) {
    } else if step.CommitLogin? {
      assert t in st.issued;
      assert t in st'.ending.locked && t in st'.live && st'.live[t] == s;
    } else {
      assert t in st'.ending.locked && t in st'.live && st'.live[t] == s;
    }
  }

  /** An ending that reaches a sign-in's live token before any renewal does cannot be escaped: over
      any run that follows, the sign-in stays caught until the ending commits, and is over then. */
  lemma {:induction false} FirstToLockWins(st: State, steps: seq<Step>, s: nat)
    requires Inv(st) && Caught(st, s)
    ensures var st' := Run(st, steps);
            s in st'.begun && if st'.ending.Scanning? then Caught(st', s) else st'.ending.Over? && !Alive(st', s)
  {
    if steps == [] {
      CaughtStep(st, CommitEnding, s);
    } else {
      var init, last := steps[..|steps| - 1], steps[|steps| - 1];
      FirstToLockWins(st, init, s);
      RunInv(st, init);
      var mid := Run(st, init);
      EndingStep(mid, last);
      hide Inv, Next, Alive, Enabled, Caught;
      if mid.ending.Scanning? {
        CaughtStep(mid, last, s);
        OpenedStep(mid, last, s);
        ScanEnds(mid, last);
        CaughtScans(Next(mid, last), s);
      } else {
        DeadStep(mid, last, s);
      }
    }
  }

  lemma {:induction false} OpenedStep(st: State, step: Step, s: nat)
    requires s in st.begun
    ensures s in Next(st, step).begun
  {
  }

  lemma {:induction false} ScanEnds(st: State, step: Step)
    requires st.ending.Scanning?
    ensures Next(st, step).ending.Scanning? <==> !(step == CommitEnding && Enabled(st, step))
    ensures !Next(st, step).ending.NotYet?
  {
  }

  lemma {:induction false} CaughtScans(st: State, s: nat)
    ensures Caught(st, s) ==> st.ending.Scanning?
  {
  }

  lemma {:induction false} EndingStep(st: State, step: Step)
    ensures st.ending.Over? ==> Next(st, step).ending == st.ending
  {
  }

  // ---- the old password ----

  /** A token that would be honoured, of a sign-in that checked the password before the change. */
  ghost predicate OldAlive(st: State) {
    exists t :: t in st.live && st.live[t] !in st.trusted
  }

  /** A sign-in still under way did. */
  ghost predicate OldUnderWay(st: State) {
    exists l :: l in st.logins && !st.logins[l]
  }

  lemma {:induction false} OldGoneStep(st: State, step: Step)
    requires Inv(st) && st.ending == Over(All) && !OldAlive(st) && !OldUnderWay(st)
    ensures var st' := Next(st, step); st'.ending == Over(All) && !OldAlive(st') && !OldUnderWay(st')
  {
  }

  lemma {:induction false} OldGoneRun(st: State, steps: seq<Step>)
    requires Inv(st) && st.ending == Over(All) && !OldAlive(st) && !OldUnderWay(st)
    ensures var st' := Run(st, steps); st'.ending == Over(All) && !OldAlive(st') && !OldUnderWay(st')
  {
    if steps != [] {
      var init := steps[..|steps| - 1];
      OldGoneRun(st, init);
      RunInv(st, init);
      hide Inv, Next, OldAlive, OldUnderWay;
      OldGoneStep(Run(st, init), steps[|steps| - 1]);
    }
  }

  lemma {:induction false} Unused(xs: set<nat>) returns (n: nat)
    ensures forall x :: x in xs ==> x < n
    decreases |xs|
  {
    n := 0;
    if xs != {} {
      var x :| x in xs;
      var m := Unused(xs - {x});
      n := if m > x then m else x + 1;
      assert forall y :: y in xs ==> y == x || y in xs - {x};
    }
  }

  lemma {:induction false} LateLogin(st: State) returns (step: Step)
    requires Inv(st) && OldUnderWay(st)
    ensures OldAlive(Next(st, step))
  {
    var l :| l in st.logins && !st.logins[l];
    var id := Unused(st.issued);
    var s := Unused(st.begun);
    step := CommitLogin(l, id, s);
    var st' := Next(st, step);
    assert id in st'.live && st'.live[id] == s && s !in st'.trusted;
  }

  /** Once a change of password has committed: no sign-in that checked the old password will ever
      have a token that would be honoured, whatever happens next, exactly when none has one now and
      none is still under way. */
  lemma {:induction false} OldPasswordGoneIff(st: State)
    requires Inv(st) && st.ending == Over(All)
    ensures (forall steps :: !OldAlive(Run(st, steps))) <==> !OldAlive(st) && !OldUnderWay(st)
  {
    hide Inv, Next, OldAlive, OldUnderWay;
    if OldAlive(st) {
      var none: seq<Step> := [];
      assert Run(st, none) == st;
      assert OldAlive(Run(st, none));
    } else if OldUnderWay(st) {
      var step := LateLogin(st);
      RunOne(st, step);
      assert OldAlive(Run(st, [step]));
    } else {
      forall steps ensures !OldAlive(Run(st, steps)) { OldGoneRun(st, steps); }
    }
  }

  lemma {:induction false} RunOne(st: State, step: Step)
    ensures Run(st, [step]) == Next(st, step)
  {
    assert [step][..0] == [];
  }

  lemma {:induction false} RunMore(st: State, steps: seq<Step>, step: Step)
    ensures Run(st, steps + [step]) == Next(Run(st, steps), step)
  {
    assert (steps + [step])[..|steps|] == steps;
  }

  lemma {:induction false} TwoSteps(st: State, steps: seq<Step>, a: Step, b: Step)
    ensures Run(st, steps + [a, b]) == Next(Next(Run(st, steps), a), b)
  {
    hide Next, Run;
    RunMore(st, steps, a);
    RunMore(st, steps + [a], b);
    assert steps + [a] + [b] == steps + [a, b];
  }

  lemma {:induction false} FiveSteps(st: State, a: Step, b: Step, c: Step, d: Step, e: Step)
    ensures Run(st, [a] + [b, c] + [d, e]) == Next(Next(Next(Next(Next(st, a), b), c), d), e)
  {
    RunOne(st, a);
    hide Next, Run;
    TwoSteps(st, [a], b, c);
    TwoSteps(st, [a] + [b, c], d, e);
  }

  /** And the other cases happen: a renewal that holds the token as the sign-out starts, and
      commits, leaves the sign-in alive with the token it issued. */
  lemma {:induction false} RenewalSlipsThrough()
    ensures var st := Run(Quiet(map[0 := 7]), [BeginRenewal(0, 0)] + [BeginEnding(One(7)), CommitRenewal(0, 1)] + [Reach(0), CommitEnding]);
            st.ending.Over? && st.live == map[1 := 7]
  {
    FiveSteps(Quiet(map[0 := 7]), BeginRenewal(0, 0), BeginEnding(One(7)), CommitRenewal(0, 1), Reach(0), CommitEnding);
    hide Run;
    var s1 := Next(Quiet(map[0 := 7]), BeginRenewal(0, 0));
    assert s1 == Quiet(map[0 := 7]).(renewals := map[0 := 0]);
    var s2 := Next(s1, BeginEnding(One(7)));
    assert s2 == s1.(ending := Scanning(One(7), {0}, {}));
    var s3 := Next(s2, CommitRenewal(0, 1));
    assert s3.live == map[1 := 7] && s3.renewals == map[] && s3.ending == Scanning(One(7), {0}, {});
    var s4 := Next(s3, Reach(0));
    assert s4.live == map[1 := 7] && s4.ending == Scanning(One(7), {}, {});
  }

  /** A sign-in that checked the old password before the change, and commits after it, is alive. */
  lemma {:induction false} OldPasswordSlipsThrough()
    ensures var st := Run(Quiet(map[0 := 7]), [BeginLogin(0)] + [BeginEnding(All), Reach(0)] + [CommitEnding, CommitLogin(0, 1, 8)]);
            st.ending == Over(All) && st.live == map[1 := 8] && OldAlive(st)
  {
    FiveSteps(Quiet(map[0 := 7]), BeginLogin(0), BeginEnding(All), Reach(0), CommitEnding, CommitLogin(0, 1, 8));
    hide Run;
    var s1 := Next(Quiet(map[0 := 7]), BeginLogin(0));
    assert s1 == Quiet(map[0 := 7]).(logins := map[0 := false]);
    var s2 := Next(s1, BeginEnding(All));
    assert s2 == s1.(ending := Scanning(All, {0}, {}));
    var s3 := Next(s2, Reach(0));
    assert s3 == s1.(ending := Scanning(All, {}, {0}));
    var s4 := Next(s3, CommitEnding);
    assert s4.live == map[] && s4.ending == Over(All) && s4.logins == map[0 := false];
    var s5 := Next(s4, CommitLogin(0, 1, 8));
    assert 1 in s5.live && s5.live[1] == 8;
  }
}
