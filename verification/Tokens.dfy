/** Refresh-token rotation (backend/app/api/routes_directory.py, backend/app/services/directory.py):
    one chain of single-use tokens per sign-in. Each call is one transaction. */
module Tokens {
  import opened Basics

  datatype Account = Account(active: bool, secret: string)

  /** `session` is the sign-in the token belongs to, carried through every renewal. */
  datatype TokenRow = TokenRow(user: nat, session: nat, expiresAt: int, consumedAt: Option<int>)

  datatype Store = Store(accounts: map<nat, Account>, tokens: map<nat, TokenRow>)

  datatype Error = Unauthorized | Forbidden | NotFound | Unprocessable | ConstraintViolated

  /** How long a refresh token lasts: hours from the settings, in microseconds, one at least. */
  type Lifetime = n: int | n > 0 witness 1

  // ---- what each call does to the rows ----

  /** Issues token `id` of sign-in `session`; a clash of ids is refused by the primary key. */
  function Mint(st: Store, id: nat, user: nat, session: nat, now: int, lifetime: Lifetime): Store {
    st.(tokens := st.tokens[id := TokenRow(user, session, now + lifetime, None)])
  }

  function Prune(st: Store, now: int): Store {
    st.(tokens := map t | t in st.tokens && st.tokens[t].expiresAt > now :: st.tokens[t])
  }

  function Login(st: Store, user: Option<nat>, secret: string, now: int, id: nat, session: nat, lifetime: Lifetime): Result<Store, Error> {
    if user.None? || user.value !in st.accounts || st.accounts[user.value].secret != secret then Err(Unauthorized)
    else if !st.accounts[user.value].active then Err(Forbidden)
    else if id in st.tokens then Err(ConstraintViolated)
    else Ok(Prune(Mint(st, id, user.value, session, now, lifetime), now))
  }

  /** Would presenting token `t` now be honoured? */
  predicate Honoured(st: Store, t: nat, now: int) {
    && t in st.tokens && st.tokens[t].consumedAt.None? && st.tokens[t].expiresAt > now
    && st.tokens[t].user in st.accounts && st.accounts[st.tokens[t].user].active
  }

  function Consume(st: Store, t: nat, now: int): Store
    requires t in st.tokens
  {
    st.(tokens := st.tokens[t := st.tokens[t].(consumedAt := Some(now))])
  }

  /** The presented token is consumed as its replacement is issued, inside the same sign-in. */
  function Refresh(st: Store, t: nat, now: int, id: nat, lifetime: Lifetime): Result<Store, Error> {
    if !Honoured(st, t, now) then Err(Unauthorized)
    else if id in st.tokens then Err(ConstraintViolated)
    else Ok(Mint(Consume(st, t, now), id, st.tokens[t].user, st.tokens[t].session, now, lifetime))
  }

  /** Signing out: every unconsumed token of one sign-in. */
  function Logout(st: Store, session: nat, now: int): Store {
    st.(tokens := map t | t in st.tokens ::
      if st.tokens[t].session == session && st.tokens[t].consumedAt.None?
      then st.tokens[t].(consumedAt := Some(now)) else st.tokens[t])
  }

  /** Every unconsumed token of one account, on every device. */
  function Revoke(st: Store, user: nat, now: int): Store {
    st.(tokens := map t | t in st.tokens ::
      if st.tokens[t].user == user && st.tokens[t].consumedAt.None?
      then st.tokens[t].(consumedAt := Some(now)) else st.tokens[t])
  }

  function WithSecret(st: Store, user: nat, secret: string): Store
    requires user in st.accounts
  {
    st.(accounts := st.accounts[user := st.accounts[user].(secret := secret)])
  }

  function ChangePassword(st: Store, user: nat, current: string, replacement: string, now: int): Result<Store, Error> {
    if user !in st.accounts then Err(NotFound)
    else if st.accounts[user].secret != current then Err(Unauthorized)
    else if current == replacement then Err(Unprocessable)
    else Ok(Revoke(WithSecret(st, user, replacement), user, now))
  }

  function ResetPassword(st: Store, user: nat, password: string, now: int): Result<Store, Error> {
    if user !in st.accounts then Err(NotFound) else Ok(Revoke(WithSecret(st, user, password), user, now))
  }

  function SetActive(st: Store, user: nat, active: bool): Result<Store, Error> {
    if user !in st.accounts then Err(NotFound)
    else Ok(st.(accounts := st.accounts[user := st.accounts[user].(active := active)]))
  }

  // ---- the same, as the service does it ----

  class TokenService {
    var accounts: map<nat, Account>
    var tokens: map<nat, TokenRow>

    function State(): Store
      reads this
    {
      Store(accounts, tokens)
    }

    constructor (accounts: map<nat, Account>)
      ensures State() == Store(accounts, map[])
    {
      this.accounts, tokens := accounts, map[];
    }

    ghost predicate Commits(before: Store, result: Result<Store, Error>, failure: Option<Error>)
      reads this
    {
      match result
      case Ok(st) => failure.None? && State() == st
      case Err(e) => failure == Some(e) && State() == before
    }

    method TokensFor(user: nat, session: nat, now: int, id: nat, lifetime: Lifetime) returns (failure: Option<Error>)
      modifies this`tokens
      ensures failure == if id in old(tokens) then Some(ConstraintViolated) else None
      ensures State() == if failure.Some? then old(State()) else Mint(old(State()), id, user, session, now, lifetime)
    {
      if id in tokens { return Some(ConstraintViolated); }
      tokens := tokens[id := TokenRow(user, session, now + lifetime, None)];
      return None;
    }

    method PruneDead(now: int)
      modifies this`tokens
      ensures State() == Prune(old(State()), now)
    {
      tokens := map t | t in tokens && !(tokens[t].expiresAt <= now) :: tokens[t];
    }

    method SignIn(user: Option<nat>, secret: string, now: int, id: nat, session: nat, lifetime: Lifetime) returns (failure: Option<Error>)
      modifies this
      ensures Commits(old(State()), Login(old(State()), user, secret, now, id, session, lifetime), failure)
    {
      if user.None? || user.value !in accounts || accounts[user.value].secret != secret { return Some(Unauthorized); }
      if !accounts[user.value].active { return Some(Forbidden); }
      failure := TokensFor(user.value, session, now, id, lifetime);
      if failure.Some? { return; }
      PruneDead(now);
    }

    method Renew(t: nat, now: int, id: nat, lifetime: Lifetime) returns (failure: Option<Error>)
      modifies this
      ensures Commits(old(State()), Refresh(old(State()), t, now, id, lifetime), failure)
    {
      if t !in tokens || tokens[t].consumedAt.Some? || tokens[t].expiresAt <= now { return Some(Unauthorized); }
      var stored := tokens[t];
      if stored.user !in accounts || !accounts[stored.user].active { return Some(Unauthorized); }
      var before := tokens;
      tokens := tokens[t := stored.(consumedAt := Some(now))];
      failure := TokensFor(stored.user, stored.session, now, id, lifetime);
      if failure.Some? { tokens := before; }
    }

    method SignOut(session: nat, now: int)
      modifies this`tokens
      ensures State() == Logout(old(State()), session, now)
    {
      tokens := map t | t in tokens ::
        if tokens[t].session == session && tokens[t].consumedAt.None?
        then tokens[t].(consumedAt := Some(now)) else tokens[t];
    }

    /** Ends every sign-in of one account and says how many were ended. */
    method RevokeEverySession(user: nat, now: int) returns (ended: nat)
      modifies this`tokens
      ensures State() == Revoke(old(State()), user, now)
      ensures ended == |Unconsumed(old(State()), user)|
    {
      ended := |Unconsumed(State(), user)|;
      tokens := map t | t in tokens ::
        if tokens[t].user == user && tokens[t].consumedAt.None?
        then tokens[t].(consumedAt := Some(now)) else tokens[t];
    }

    method ChangeOwnPassword(user: nat, current: string, replacement: string, now: int) returns (failure: Option<Error>, ended: nat)
      modifies this
      ensures Commits(old(State()), ChangePassword(old(State()), user, current, replacement, now), failure)
      ensures failure.None? ==> ended == |Unconsumed(old(State()), user)|
    {
      ended := 0;
      if user !in accounts { return Some(NotFound), 0; }
      if accounts[user].secret != current { return Some(Unauthorized), 0; }
      if current == replacement { return Some(Unprocessable), 0; }
      accounts := accounts[user := accounts[user].(secret := replacement)];
      ended := RevokeEverySession(user, now);
      return None, ended;
    }

    method ResetStudentPassword(user: nat, password: string, now: int) returns (failure: Option<Error>, ended: nat)
      modifies this
      ensures Commits(old(State()), ResetPassword(old(State()), user, password, now), failure)
      ensures failure.None? ==> ended == |Unconsumed(old(State()), user)|
    {
      if user !in accounts { return Some(NotFound), 0; }
      accounts := accounts[user := accounts[user].(secret := password)];
      ended := RevokeEverySession(user, now);
      return None, ended;
    }
  }

  function Unconsumed(st: Store, user: nat): set<nat> {
    set t | t in st.tokens && st.tokens[t].user == user && st.tokens[t].consumedAt.None?
  }

  // ---- runs ----

  datatype Step =
    | SignIn(found: Option<nat>, secret: string, now: int, id: nat, session: nat, lifetime: Lifetime)
    | Renew(token: nat, now: int, id: nat, lifetime: Lifetime)
    | SignOut(session: nat, now: int)
    | NewPassword(user: nat, current: string, replacement: string, now: int)
    | Reset(user: nat, password: string, now: int)
    | Activate(user: nat, active: bool)

  function Attempt(st: Store, step: Step): Result<Store, Error> {
    match step
    case SignIn(user, secret, now, id, session, lifetime) => Login(st, user, secret, now, id, session, lifetime)
    case Renew(t, now, id, lifetime) => Refresh(st, t, now, id, lifetime)
    case SignOut(session, now) => Ok(Logout(st, session, now))
    case NewPassword(user, current, replacement, now) => ChangePassword(st, user, current, replacement, now)
    case Reset(user, password, now) => ResetPassword(st, user, password, now)
    case Activate(user, active) => SetActive(st, user, active)
  }

  /** What has happened so far: every token and sign-in ever issued, the tokens exchanged, in
      order, and the sign-ins that have been ended. */
  datatype History = History(store: Store, issued: set<nat>, sessions: set<nat>, exchanged: seq<nat>, ended: set<nat>)

  function SessionsOf(st: Store, user: nat): set<nat> {
    set t | t in st.tokens && st.tokens[t].user == user :: st.tokens[t].session
  }

  /** Ids are made by `uuid4`, so none is ever made twice; a token that verifies was issued. */
  predicate Genuine(h: History, step: Step) {
    match step
    case SignIn(_, _, _, id, session, _) => id !in h.issued && session !in h.sessions
    case Renew(_, _, id, _) => id !in h.issued
    case SignOut(session, _) => session in h.sessions
    case _ => true
  }

  function Next(h: History, step: Step): History {
    match Attempt(h.store, step)
    case Err(_) => h
    case Ok(st) =>
      match step
      case SignIn(_, _, _, id, session, _) => h.(store := st, issued := h.issued + {id}, sessions := h.sessions + {session})
      case Renew(t, _, id, _) => h.(store := st, issued := h.issued + {id}, exchanged := h.exchanged + [t])
      case SignOut(session, _) => h.(store := st, ended := h.ended + {session})
      case NewPassword(user, _, _, _) => h.(store := st, ended := h.ended + SessionsOf(h.store, user))
      case Reset(user, _, _) => h.(store := st, ended := h.ended + SessionsOf(h.store, user))
      case Activate(_, _) => h.(store := st)
  }

  function Run(h: History, steps: seq<Step>): History {
    if steps == [] then h else Next(Run(h, steps[..|steps| - 1]), steps[|steps| - 1])
  }

  ghost predicate GenuineRun(h: History, steps: seq<Step>) {
    forall i :: 0 <= i < |steps| ==> Genuine(Run(h, steps[..i]), steps[i])
  }

  // ---- the invariant ----

  predicate Live(st: Store, t: nat) {
    t in st.tokens && st.tokens[t].consumedAt.None?
  }

  /** At most one token of each sign-in can still be exchanged. */
  ghost predicate OneLive(st: Store) {
    forall t, u :: Live(st, t) && Live(st, u) && st.tokens[t].session == st.tokens[u].session ==> t == u
  }

  /** A sign-in belongs to one account. */
  ghost predicate OneOwner(st: Store) {
    forall t, u :: t in st.tokens && u in st.tokens && st.tokens[t].session == st.tokens[u].session ==>
      st.tokens[t].user == st.tokens[u].user
  }

  ghost predicate Recorded(h: History) {
    && (forall t :: t in h.store.tokens ==> t in h.issued && h.store.tokens[t].session in h.sessions)
    && h.ended <= h.sessions
  }

  /** Nothing of an ended sign-in is live. */
  ghost predicate EndedStaysEnded(h: History) {
    forall t :: Live(h.store, t) ==> h.store.tokens[t].session !in h.ended
  }

  ghost predicate ExchangedOnce(h: History) {
    && Distinct(h.exchanged)
    && forall t :: t in h.exchanged ==> t in h.issued && !Live(h.store, t)
  }

  ghost predicate Inv(h: History) {
    OneLive(h.store) && OneOwner(h.store) && Recorded(h) && EndedStaysEnded(h) && ExchangedOnce(h)
  }

  /** Ending sign-ins only adds to what is consumed. */
  ghost predicate OnlyEnds(st: Store, st': Store) {
    && st'.tokens.Keys == st.tokens.Keys
    && forall t :: t in st.tokens ==>
         && st'.tokens[t].user == st.tokens[t].user && st'.tokens[t].session == st.tokens[t].session
         && st'.tokens[t].expiresAt == st.tokens[t].expiresAt
         && (Live(st', t) ==> Live(st, t))
  }

  lemma {:induction false} EndingInv(h: History, st: Store, ended: set<nat>)
    requires Inv(h) && OnlyEnds(h.store, st)
    requires ended <= h.sessions && forall t :: Live(st, t) ==> st.tokens[t].session !in ended
    ensures Inv(h.(store := st, ended := h.ended + ended))
  {
  }

  lemma {:induction false} SignInInv(h: History, step: Step)
    requires Inv(h) && Genuine(h, step) && step.SignIn? && Attempt(h.store, step).Ok?
    ensures Inv(Next(h, step))
  {
  }

  lemma {:induction false} RenewInv(h: History, step: Step)
    requires Inv(h) && Genuine(h, step) && step.Renew? && Attempt(h.store, step).Ok?
    ensures Inv(Next(h, step))
  {
    var t := step.token;
    var st := Consume(h.store, t, step.now);
    ConsumeInv(h, t, step.now);
    MintInv(h.(store := st, exchanged := h.exchanged + [t]), step.id, h.store.tokens[t].user, h.store.tokens[t].session, step.now, step.lifetime);
    RenewedHistory(h, step);
    hide *;
  }

  lemma {:induction false} RenewedHistory(h: History, step: Step)
    requires step.Renew? && Attempt(h.store, step).Ok?
    ensures step.token in h.store.tokens
    ensures var t := step.token; var before := h.store.tokens[t];
            Next(h, step) == h.(store := Mint(Consume(h.store, t, step.now), step.id, before.user, before.session, step.now, step.lifetime),
                                exchanged := h.exchanged + [t], issued := h.issued + {step.id})
  {
  }

  /** A live token exchanged: its sign-in has nothing live for the moment. */
  lemma {:induction false} ConsumeInv(h: History, t: nat, now: int)
    requires Inv(h) && Live(h.store, t)
    ensures Inv(h.(store := Consume(h.store, t, now), exchanged := h.exchanged + [t]))
    ensures forall u :: Live(Consume(h.store, t, now), u) ==> Consume(h.store, t, now).tokens[u].session != h.store.tokens[t].session
    ensures Consume(h.store, t, now).tokens[t].session == h.store.tokens[t].session
    ensures Consume(h.store, t, now).tokens[t].user == h.store.tokens[t].user
    ensures h.store.tokens[t].session in h.sessions && h.store.tokens[t].session !in h.ended
  {
  }

  /** A token issued for a sign-in that has none live, to the account it belongs to. */
  lemma {:induction false} MintInv(h: History, id: nat, user: nat, session: nat, now: int, lifetime: Lifetime)
    requires Inv(h) && id !in h.issued && session in h.sessions && session !in h.ended
    requires forall u :: Live(h.store, u) ==> h.store.tokens[u].session != session
    requires forall u :: u in h.store.tokens && h.store.tokens[u].session == session ==> h.store.tokens[u].user == user
    ensures Inv(h.(store := Mint(h.store, id, user, session, now, lifetime), issued := h.issued + {id}))
  {
  }

  /** The account's live tokens are all in sign-ins that are being ended. */
  lemma {:induction false} RevokeEnds(st: Store, user: nat, now: int, accounts: map<nat, Account>)
    requires OneOwner(st)
    ensures OnlyEnds(st, Revoke(st.(accounts := accounts), user, now))
    ensures forall t :: Live(Revoke(st.(accounts := accounts), user, now), t) ==> st.tokens[t].session !in SessionsOf(st, user)
  {
  }

  lemma {:induction false} PasswordInv(h: History, user: nat, secret: string, now: int)
    requires Inv(h) && user in h.store.accounts
    ensures Inv(h.(store := Revoke(WithSecret(h.store, user, secret), user, now), ended := h.ended + SessionsOf(h.store, user)))
  {
    var accounts := WithSecret(h.store, user, secret).accounts;
    RevokeEnds(h.store, user, now, accounts);
    SessionsKnown(h, user);
    hide Inv, Revoke, SessionsOf, OnlyEnds, OneOwner;
    EndingInv(h, Revoke(h.store.(accounts := accounts), user, now), SessionsOf(h.store, user));
  }

  lemma {:induction false} SessionsKnown(h: History, user: nat)
    requires Inv(h)
    ensures OneOwner(h.store) && SessionsOf(h.store, user) <= h.sessions
  {
  }

  lemma {:induction false} SignOutInv(h: History, session: nat, now: int)
    requires Inv(h) && session in h.sessions
    ensures Inv(h.(store := Logout(h.store, session, now), ended := h.ended + {session}))
  {
    EndingInv(h, Logout(h.store, session, now), {session});
  }

  lemma {:induction false} ActivateInv(h: History, user: nat, active: bool)
    requires Inv(h) && SetActive(h.store, user, active).Ok?
    ensures Inv(h.(store := SetActive(h.store, user, active).value))
  {
  }

  lemma {:induction false} NextInv(h: History, step: Step)
    requires Inv(h) && Genuine(h, step)
    ensures Inv(Next(h, step))
  {
    hide Inv, Login, Refresh, Logout, Revoke, SetActive, SessionsOf;
    if Attempt(h.store, step).Ok? {
      match step
      case SignIn(_, _, _, _, _, _) => SignInInv(h, step);
      case Renew(_, _, _, _) => RenewInv(h, step);
      case SignOut(session, now) => SignOutInv(h, session, now);
      case NewPassword(user, _, replacement, now) => PasswordInv(h, user, replacement, now);
      case Reset(user, password, now) => PasswordInv(h, user, password, now);
      case Activate(user, active) => ActivateInv(h, user, active);
    }
  }

  /** In every run each sign-in has at most one token that can still be exchanged, no token is
      exchanged twice, and no ended sign-in is ever live again. */
  lemma {:induction false} RunInv(h: History, steps: seq<Step>)
    requires Inv(h) && GenuineRun(h, steps)
    ensures Inv(Run(h, steps))
  {
    hide Inv, Next, Genuine;
    if steps != [] {
      var init, last := steps[..|steps| - 1], steps[|steps| - 1];
      PrefixGenuine(h, steps);
      RunInv(h, init);
      assert steps[..|steps| - 1] == init;
      NextInv(Run(h, init), last);
    }
  }

  lemma {:induction false} PrefixGenuine(h: History, steps: seq<Step>)
    requires GenuineRun(h, steps) && steps != []
    ensures GenuineRun(h, steps[..|steps| - 1])
    ensures Genuine(Run(h, steps[..|steps| - 1]), steps[|steps| - 1])
  {
    hide Genuine, Run;
    var init := steps[..|steps| - 1];
    forall i | 0 <= i < |init| ensures Genuine(Run(h, init[..i]), init[i]) {
      assert init[..i] == steps[..i] && init[i] == steps[i];
    }
  }

  /** The start: accounts, and nobody signed in. */
  function Opening(accounts: map<nat, Account>): History {
    History(Store(accounts, map[]), {}, {}, [], {})
  }

  /** Over a whole run: two live tokens of one sign-in are the same token. */
  lemma {:induction false} OneLivePerSignIn(accounts: map<nat, Account>, steps: seq<Step>, t: nat, u: nat)
    requires GenuineRun(Opening(accounts), steps)
    requires Live(Run(Opening(accounts), steps).store, t) && Live(Run(Opening(accounts), steps).store, u)
    requires Run(Opening(accounts), steps).store.tokens[t].session == Run(Opening(accounts), steps).store.tokens[u].session
    ensures t == u
  {
    RunInv(Opening(accounts), steps);
    hide Run;
  }

  // ---- two moments of one run ----

  /** Once issued, exchanged or ended, always so; and an exchange is only added at the end. */
  ghost predicate Extends(h: History, h': History) {
    && h.issued <= h'.issued && h.sessions <= h'.sessions && h.ended <= h'.ended && h.exchanged <= h'.exchanged
  }

  lemma {:induction false} RunExtends(h: History, steps: seq<Step>)
    ensures Extends(h, Run(h, steps))
  {
    if steps != [] {
      RunExtends(h, steps[..|steps| - 1]);
      hide Attempt;
    }
  }

  /** A sign-in that has been ended is never live again, whatever happens afterwards. */
  lemma {:induction false} EndedForGood(h: History, steps: seq<Step>, session: nat, t: nat, now: int)
    requires Inv(h) && GenuineRun(h, steps) && session in h.ended
    ensures var st := Run(h, steps).store;
            t in st.tokens && st.tokens[t].session == session ==> !Honoured(st, t, now)
  {
    RunInv(h, steps);
    RunExtends(h, steps);
    hide Run;
    var st := Run(h, steps).store;
    assert Live(st, t) ==> st.tokens[t].session !in Run(h, steps).ended;
  }

  /** A token that has been exchanged is refused ever after. */
  lemma {:induction false} ExchangedForGood(h: History, steps: seq<Step>, t: nat, now: int, id: nat, lifetime: Lifetime)
    requires Inv(h) && GenuineRun(h, steps) && t in h.exchanged
    ensures var st := Run(h, steps).store;
            Refresh(st, t, now, id, lifetime) == Err(Unauthorized)
  {
    RunInv(h, steps);
    RunExtends(h, steps);
    hide Run;
    assert t in Run(h, steps).exchanged;
    assert !Live(Run(h, steps).store, t);
  }

  /** An accepted renewal leaves its sign-in with exactly one live token, the new one, of the
      same account; the presented one will not be honoured again. */
  lemma {:induction false} RenewalKeepsSignIn(h: History, t: nat, now: int, id: nat, lifetime: Lifetime)
    requires Inv(h) && id !in h.issued && Honoured(h.store, t, now)
    ensures var r := Refresh(h.store, t, now, id, lifetime);
            && r.Ok? && Honoured(r.value, id, now) && !Live(r.value, t)
            && r.value.tokens[id].session == h.store.tokens[t].session && r.value.tokens[id].user == h.store.tokens[t].user
            && forall u :: Live(r.value, u) && r.value.tokens[u].session == h.store.tokens[t].session ==> u == id
  {
    assert id !in h.store.tokens;
    assert Live(h.store, t);
  }

  // ---- one sign-in's calls do not reach another ----

  /** Does the call act on sign-in `session`? */
  predicate Concerns(st: Store, step: Step, session: nat) {
    match step
    case SignIn(_, _, _, _, s, _) => s == session
    case Renew(t, _, _, _) => t in st.tokens && st.tokens[t].session == session
    case SignOut(s, _) => s == session
    case NewPassword(user, _, _, _) => session in SessionsOf(st, user)
    case Reset(user, _, _) => session in SessionsOf(st, user)
    case Activate(user, _) => session in SessionsOf(st, user)
  }

  function TimeOf(step: Step): Option<int> {
    match step
    case SignIn(_, _, now, _, _, _) => Some(now)
    case _ => None
  }

  lemma {:induction false} OthersStep(h: History, step: Step, session: nat, t: nat, now: int)
    requires Inv(h) && Genuine(h, step) && !Concerns(h.store, step, session)
    requires t in h.issued && (t in h.store.tokens ==> h.store.tokens[t].session == session)
    requires TimeOf(step).Some? ==> TimeOf(step).value <= now
    ensures Honoured(Next(h, step).store, t, now) <==> Honoured(h.store, t, now)
    ensures var h' := Next(h, step); t in h'.issued && (t in h'.store.tokens ==> h'.store.tokens[t].session == session)
  {
    if t in h.store.tokens { assert session in SessionsOf(h.store, h.store.tokens[t].user); }
  }

  /** No call of the run acts on sign-in `session`. */
  ghost predicate OnlyOthers(h: History, steps: seq<Step>, session: nat) {
    forall i :: 0 <= i < |steps| ==> !Concerns(Run(h, steps[..i]).store, steps[i], session)
  }

  lemma {:induction false} PrefixOthers(h: History, steps: seq<Step>, session: nat)
    requires OnlyOthers(h, steps, session) && steps != []
    ensures OnlyOthers(h, steps[..|steps| - 1], session)
    ensures !Concerns(Run(h, steps[..|steps| - 1]).store, steps[|steps| - 1], session)
  {
    hide Concerns, Run;
    var init := steps[..|steps| - 1];
    forall i | 0 <= i < |init| ensures !Concerns(Run(h, init[..i]).store, init[i], session) {
      assert init[..i] == steps[..i] && init[i] == steps[i];
    }
  }

  lemma {:induction false} OthersRun(h: History, steps: seq<Step>, session: nat, t: nat, now: int)
    requires Inv(h) && GenuineRun(h, steps) && OnlyOthers(h, steps, session)
    requires t in h.issued && (t in h.store.tokens ==> h.store.tokens[t].session == session)
    requires forall i :: 0 <= i < |steps| && TimeOf(steps[i]).Some? ==> TimeOf(steps[i]).value <= now
    ensures Honoured(Run(h, steps).store, t, now) <==> Honoured(h.store, t, now)
    ensures var h' := Run(h, steps); t in h'.issued && (t in h'.store.tokens ==> h'.store.tokens[t].session == session)
  {
    if steps != [] {
      var init, last := steps[..|steps| - 1], steps[|steps| - 1];
      hide Inv, Genuine, GenuineRun, OnlyOthers, Concerns, Honoured, Next;
      PrefixGenuine(h, steps);
      PrefixOthers(h, steps, session);
      RunInv(h, init);
      OthersRun(h, init, session, t, now);
      OthersStep(Run(h, init), last, session, t, now);
    }
  }

  /** Whatever is done to other sign-ins and other accounts, over any run of calls, every token of
      this one is honoured at any later time exactly if it would have been. Only clearing away
      expired rows touches it, and that cannot be seen. */
  lemma {:induction false} OthersUntouched(h: History, steps: seq<Step>, session: nat, t: nat, now: int)
    requires Inv(h) && GenuineRun(h, steps) && OnlyOthers(h, steps, session)
    requires t in h.store.tokens && h.store.tokens[t].session == session
    requires forall i :: 0 <= i < |steps| && TimeOf(steps[i]).Some? ==> TimeOf(steps[i]).value <= now
    ensures Honoured(Run(h, steps).store, t, now) <==> Honoured(h.store, t, now)
  {
    assert t in h.issued;
    hide *;
    OthersRun(h, steps, session, t, now);
  }

  /** In particular signing out ends that sign-in, all of it, and no other. */
  lemma {:induction false} SignOutEndsExactlyOne(st: Store, session: nat, now: int, t: nat, later: int)
    requires t in st.tokens
    ensures Honoured(Logout(st, session, now), t, later) <==> Honoured(st, t, later) && st.tokens[t].session != session
  {
  }

  /** And a new password ends every sign-in of the account, and none of anybody else. */
  lemma {:induction false} PasswordEndsAccount(st: Store, user: nat, current: string, replacement: string, now: int, t: nat, later: int)
    requires t in st.tokens && ChangePassword(st, user, current, replacement, now).Ok?
    ensures Honoured(ChangePassword(st, user, current, replacement, now).value, t, later)
       <==> Honoured(st, t, later) && st.tokens[t].user != user
  {
  }

  /** A renewal adds a row and clears none away: contrary to the comment on pruning, signing in is
      not the only call that makes the table grow. */
  lemma {:induction false} RenewalAddsARow(st: Store, t: nat, now: int, id: nat, lifetime: Lifetime)
    requires Refresh(st, t, now, id, lifetime).Ok?
    ensures |Refresh(st, t, now, id, lifetime).value.tokens| == |st.tokens| + 1
  {
    var after := Refresh(st, t, now, id, lifetime).value.tokens;
    assert after.Keys == st.tokens.Keys + {id};
    assert |after| == |after.Keys| && |st.tokens| == |st.tokens.Keys|;
  }

  /** Who can sign in: an account that is active, with its own secret. */
  lemma {:induction false} SignInIff(h: History, user: Option<nat>, secret: string, now: int, id: nat, session: nat, lifetime: Lifetime)
    requires Inv(h) && id !in h.issued
    ensures var r := Login(h.store, user, secret, now, id, session, lifetime);
            && (r.Ok? <==> user.Some? && user.value in h.store.accounts
                             && h.store.accounts[user.value] == Account(true, secret))
            && (r.Ok? ==> Honoured(r.value, id, now) && r.value.tokens[id].user == user.value && r.value.tokens[id].session == session)
  {
    assert id !in h.store.tokens;
  }

  // ---- what an old password is still worth ----

  /** The call is not made with the account's password, and the faculty does not set a new one. */
  predicate WithoutPassword(step: Step, user: nat, secret: string) {
    match step
    case SignIn(found, s, _, _, _, _) => found != Some(user) || s != secret
    case NewPassword(u, current, _, _) => u != user || current != secret
    case Reset(u, _, _) => u != user
    case _ => true
  }

  /** The account has this password, and no token that could be exchanged. */
  ghost predicate ShutOut(st: Store, user: nat, secret: string) {
    && user in st.accounts && st.accounts[user].secret == secret
    && forall t :: Live(st, t) ==> st.tokens[t].user != user
  }

  lemma {:induction false} ChangeShutsOut(h: History, user: nat, current: string, replacement: string, now: int)
    requires ChangePassword(h.store, user, current, replacement, now).Ok?
    ensures ShutOut(Next(h, NewPassword(user, current, replacement, now)).store, user, replacement)
    ensures current != replacement
  {
  }

  lemma {:induction false} SignInRefused(h: History, step: Step, user: nat, secret: string)
    requires Inv(h) && Genuine(h, step) && ShutOut(h.store, user, secret) && WithoutPassword(step, user, secret)
    requires step.SignIn? && step.found == Some(user)
    ensures Next(h, step) == h
  {
    SignInIff(h, step.found, step.secret, step.now, step.id, step.session, step.lifetime);
    hide Login, Inv;
  }

  lemma {:induction false} StaysShutOut(h: History, step: Step, user: nat, secret: string)
    requires Inv(h) && Genuine(h, step) && ShutOut(h.store, user, secret) && WithoutPassword(step, user, secret)
    ensures ShutOut(Next(h, step).store, user, secret)
  {
    if step.SignIn? && step.found == Some(user) { SignInRefused(h, step, user, secret); }
  }

  /** After a password change, whoever has only old tokens and any password but the new one gets
      nothing: over any run of calls made without the new password no token of the account comes to
      be honoured, signing in is refused to every other password, and the new one still signs in
      exactly if the account is active. */
  lemma {:induction false} OldPasswordWorthless(h: History, user: nat, current: string, replacement: string, now: int, steps: seq<Step>,
                                                t: nat, secret: string, later: int, id: nat, session: nat, lifetime: Lifetime)
    requires Inv(h) && ChangePassword(h.store, user, current, replacement, now).Ok?
    requires GenuineRun(Next(h, NewPassword(user, current, replacement, now)), steps)
    requires forall i :: 0 <= i < |steps| ==> WithoutPassword(steps[i], user, replacement)
    ensures var h' := Run(Next(h, NewPassword(user, current, replacement, now)), steps);
            && user in h'.store.accounts
            && (Honoured(h'.store, t, later) ==> h'.store.tokens[t].user != user)
            && (id !in h'.issued ==>
                  (Login(h'.store, Some(user), secret, later, id, session, lifetime).Ok?
                   <==> secret == replacement && h'.store.accounts[user].active))
  {
    var h1 := Next(h, NewPassword(user, current, replacement, now));
    NextInv(h, NewPassword(user, current, replacement, now));
    ChangeShutsOut(h, user, current, replacement, now);
    hide Next, Genuine, Inv, Login, GenuineRun;
    RunShutOut(h1, steps, user, replacement);
    RunInv(h1, steps);
    var h' := Run(h1, steps);
    if id !in h'.issued { SignInIff(h', Some(user), secret, later, id, session, lifetime); }
  }

  lemma {:induction false} RunShutOut(h: History, steps: seq<Step>, user: nat, secret: string)
    requires Inv(h) && GenuineRun(h, steps) && ShutOut(h.store, user, secret)
    requires forall i :: 0 <= i < |steps| ==> WithoutPassword(steps[i], user, secret)
    ensures ShutOut(Run(h, steps).store, user, secret)
  {
    if steps != [] {
      var init, last := steps[..|steps| - 1], steps[|steps| - 1];
      hide Inv, Genuine, GenuineRun, ShutOut, WithoutPassword, Next;
      PrefixGenuine(h, steps);
      RunInv(h, init);
      RunShutOut(h, init, user, secret);
      StaysShutOut(Run(h, init), last, user, secret);
    }
  }
}
