/** Logins: exactly when the second half of one opens a session, and where every session of a run comes from
    (internal/state/admin.go). */
module ServerLogins {
  import opened Core
  import opened Tables
  import opened Protocol
  import opened Ledgers
  import opened Trust
  import opened ServerState
  import opened ServerInvariants
  import opened ServerTransactions
  import opened ServerAccounts
  import opened ServerRuns

  // ---- One login ----

  /** A session that is not over and was used in the last half hour. */
  predicate Alive(s: SessionRow, now: int64) {
    s.expiresAt > now && s.lastUsed > now - 1800
  }

  function AliveSession(now: int64): SessionRow -> nat {
    (s: SessionRow) => if Alive(s, now) then 1 else 0
  }

  function AliveOf(user: string, now: int64): SessionRow -> nat {
    (s: SessionRow) => if Alive(s, now) && s.user == user then 1 else 0
  }

  /** The account is enabled and has the generation, password and role that were read. */
  ghost predicate Unchanged(users: seq<UserRow>, u: UserRow) {
    exists k :: 0 <= k < |users| && users[k].id == u.id && users[k].enabled && users[k].generation == u.generation
                && users[k].password == u.password && users[k].role == u.role
  }

  /** The password matched the one read from an enabled account, and the account is still the same. */
  ghost predicate Credible(db: Db, attempt: Attempt, matched: bool) {
    matched && attempt.Some? && attempt.value.enabled && Unchanged(db.users, attempt.value)
  }

  predicate ClockOk(db: Db, now: int64) {
    now >= 1 && db.adminHigh - now <= 30
  }

  /** Room for another session, in all and of this account. */
  predicate RoomFor(db: Db, user: string, now: int64) {
    Sum(db.sessions, AliveSession(now)) < 128 && Sum(db.sessions, AliveOf(user, now)) < 8
  }

  predicate Unused(db: Db, id: string, token: string, now: int64) {
    forall i :: 0 <= i < |db.sessions| && Alive(db.sessions[i], now) ==>
                  db.sessions[i].id != id && db.sessions[i].token != Sha256(token)
  }

  /** The living sessions, and after them the new one. */
  ghost predicate Opened(db: Db, db': Db, user: string, id: string, token: string, now: int64) {
    var n := |db'.sessions| - 1;
    && n == Sum(db.sessions, AliveSession(now))
    && db'.sessions[n] == SessionRow(id, Sha256(token), user, now, now, Wrap64(now + 28800))
    && (forall s :: s in db'.sessions[..n] <==> s in db.sessions && Alive(s, now))
  }

  /** Everything but sessions, log and clock. */
  predicate Elsewhere(db: Db, db': Db) {
    db' == db.(sessions := db'.sessions, ledger := db'.ledger, adminHigh := db'.adminHigh)
  }

  lemma {:induction false} RemainingAlive(sessions: seq<SessionRow>, now: int64, user: string)
    ensures |Remaining(sessions, Stale(now))| == Sum(sessions, AliveSession(now))
    ensures Sum(Remaining(sessions, Stale(now)), OwnedBy(user)) == Sum(sessions, AliveOf(user, now))
    ensures forall s :: s in Remaining(sessions, Stale(now)) <==> s in sessions && Alive(s, now)
  {
    if sessions != [] {
      var n := |sessions| - 1;
      RemainingAlive(sessions[..n], now, user);
      var rest := Remaining(sessions[..n], Stale(now));
      SumAppend(rest, sessions[n], OwnedBy(user));
      assert rest + [] == rest;
      assert sessions == sessions[..n] + [sessions[n]];
    }
  }

  lemma CurrentIff(users: seq<UserRow>, u: UserRow)
    requires DistinctUsers(users)
    ensures StillCurrent(users, u) <==> Unchanged(users, u)
  {
    hide FindUser;
  }

  /** The state in which a login checks its limits: living sessions only, and no less space in the log. */
  lemma AfterExpiry(db: Db, db1: Db, now: int64, user: string, signers: Signers, issued: Issued)
    requires Inv(db, signers, issued) && AdminClock(db, now) == Ok(db1)
    ensures EndTx(db1, Stale(now)) == Ok(End(db1, Stale(now)))
    ensures var db2 := End(db1, Stale(now));
            && db2 == db1.(sessions := Remaining(db.sessions, Stale(now)), ledger := db2.ledger)
            && SpaceLeft(db2) == SpaceLeft(db) && db2.ledger.reserved >= 0 && db.ledger.reserved >= 0
            && |db2.ledger.events| >= |db.ledger.events|
            && db1 == db.(adminHigh := Max(db.adminHigh, now))
            && (RoomFor(db, user, now) <==>
                  |db2.sessions| < MAX_SESSIONS && Sum(db2.sessions, OwnedBy(user)) < MAX_OWNED)
  {
    hide Inv, EndTx, Remaining, EndingEvents, Sum;
    ClockPart(db, now, signers, issued);
    EndsSucceed(db1, Stale(now), signers, issued);
    EndingEventCount(db.sessions, Stale(now));
    RemainingAlive(db.sessions, now, user);
    EndPart(db1, Stale(now), signers, issued);
    ReservedIsPositive(db, signers, issued);
    ReservedIsPositive(End(db1, Stale(now)), signers, issued);
  }

  lemma FreshIff(db: Db, db2: Db, id: string, token: string, now: int64)
    requires db2.sessions == Remaining(db.sessions, Stale(now))
    ensures FreshSession(db2, id, Sha256(token)) <==> Unused(db, id, token, now)
  {
    RemainingAlive(db.sessions, now, "");
    hide Remaining, Sum, Alive;
    if Unused(db, id, token, now) {
      forall i | 0 <= i < |db2.sessions| ensures db2.sessions[i].id != id && db2.sessions[i].token != Sha256(token) {
        assert db2.sessions[i] in db2.sessions;
        assert db2.sessions[i] in db.sessions;
      }
    }
    if FreshSession(db2, id, Sha256(token)) {
      forall i | 0 <= i < |db.sessions| && Alive(db.sessions[i], now)
        ensures db.sessions[i].id != id && db.sessions[i].token != Sha256(token) {
        assert db.sessions[i] in db2.sessions;
      }
    }
  }

  lemma OpenedBy(db: Db, db2: Db, db3: Db, user: string, id: string, token: string, now: int64)
    requires db2.sessions == Remaining(db.sessions, Stale(now))
    requires db3.sessions == db2.sessions + [SessionRow(id, Sha256(token), user, now, now,
                                                        Wrap64(now + SESSION_LIFETIME))]
    ensures Opened(db, db3, user, id, token, now)
  {
    RemainingAlive(db.sessions, now, "");
    hide Remaining, Sum, Alive;
    assert db3.sessions[..|db2.sessions|] == db2.sessions;
  }

  /** Exactly when the second half of a login opens a session: the password matched, the account found before is
      enabled and unchanged, there is room, the new ID and token are unused, and clock and log go along. It then opens
      exactly that session for eight hours; in every other case no session is added, and an account that is not
      credible is refused with one event. */
  lemma LoginIff(
      db: Db, attempt: Attempt, matched: bool, id: string, token: string, now: int64, stamp: int, signers: Signers,
      issued: Issued)
    requires Inv(db, signers, issued)
    ensures var tx := Stamped(db, FinishLogin(db, attempt, matched, id, token, now), stamp);
            && (tx.result.Ok? <==>
                  && stamp > 0 && ClockOk(db, now) && Credible(db, attempt, matched)
                  && RoomFor(db, attempt.value.id, now) && Unused(db, id, token, now) && SpaceLeft(db) >= 2)
            && Elsewhere(db, tx.db)
            && (tx.result.Ok? ==>
                  && tx.result.value == token && Opened(db, tx.db, attempt.value.id, id, token, now)
                  && tx.db.adminHigh == Max(db.adminHigh, now)
                  && tx.db.ledger.events[|tx.db.ledger.events| - 1] == Event(LoginSucceeded, attempt.value.id))
            && (tx.result.Err? ==> |tx.db.sessions| <= |db.sessions| && forall s :: s in tx.db.sessions ==> s in db.sessions)
            && (stamp > 0 && ClockOk(db, now) && SpaceLeft(db) >= 1 && !Credible(db, attempt, matched) ==>
                  && tx.result == Err(Unauthorised) && tx.db.sessions == db.sessions
                  && tx.db.ledger == Ledger(db.ledger.events + [Event(LoginFailed, "")], db.ledger.reserved))
            && ((stamp > 0 && ClockOk(db, now) && SpaceLeft(db) >= 1 && Credible(db, attempt, matched)
                 && !RoomFor(db, attempt.value.id, now)) ==> tx.result == Err(Limited))
  {
    hide Inv, End, EndTx, Sum, Alive, Remaining, RoomFor, Unused, Opened, FreshSession, Unchanged, StillCurrent;
    ReservedIsPositive(db, signers, issued);
    if attempt.Some? { CurrentIff(db.users, attempt.value); }
    if ClockOk(db, now) {
      var db1 := AdminClock(db, now).value;
      var user := if attempt.Some? then attempt.value.id else "";
      AfterExpiry(db, db1, now, user, signers, issued);
      var db2 := End(db1, Stale(now));
      FreshIff(db, db2, id, token, now);
      RemainingOnlyDrops(db.sessions, now);
      var s := SessionRow(id, Sha256(token), user, now, now, Wrap64(now + SESSION_LIFETIME));
      OpenedBy(db, db2, db2.(sessions := db2.sessions + [s]), user, id, token, now);
      var r := Note(db2.(sessions := db2.sessions + [s]), LoginSucceeded, user, 1);
      if r.Ok? { SameSessionsOpened(db, db2.(sessions := db2.sessions + [s]), r.value, user, id, token, now); }
    }
  }

  lemma SameSessionsOpened(db: Db, a: Db, b: Db, user: string, id: string, token: string, now: int64)
    requires Opened(db, a, user, id, token, now) && b.sessions == a.sessions
    ensures Opened(db, b, user, id, token, now)
  {
  }

  lemma RemainingOnlyDrops(sessions: seq<SessionRow>, now: int64)
    ensures forall s :: s in Remaining(sessions, Stale(now)) ==> s in sessions
  {
    RemainingAlive(sessions, now, "");
    hide Remaining, Sum;
  }

  /** Exactly when the first half of a login goes on to the password check, and the account it then reads; it changes
      no account and no session. */
  lemma AttemptIff(
      db: Db, name: string, budget: Budget, now: int64, stamp: int, signers: Signers, issued: Issued)
    requires Inv(db, signers, issued)
    ensures var tx := Stamped(db, StartLogin(db, name, budget, now), stamp);
            && (tx.result.Ok? <==> stamp > 0 && ClockOk(db, now) && budget.Within? && SpaceLeft(db) >= 1)
            && tx.db == db.(ledger := tx.db.ledger, adminHigh := tx.db.adminHigh)
            && (tx.result.Ok? ==>
                  match tx.result.value
                  case None => forall k :: 0 <= k < |db.users| ==> db.users[k].name != name
                  case Some(u) => u in db.users && u.name == name)
            && ((ClockOk(db, now) && !budget.Within?) ==>
                  tx.result.Err? && (tx.result.error == Limited || stamp <= 0 || SpaceLeft(db) < 1))
            && (tx.result.Err? && budget.FirstBlock? && stamp > 0 && ClockOk(db, now) && SpaceLeft(db) >= 1 ==>
                  tx.db.ledger.events == db.ledger.events + [Event(LoginLimited, "")])
  {
    hide Inv, FindName;
    ReservedIsPositive(db, signers, issued);
  }

  // ---- Where the sessions of a run come from ----

  /** The same session, perhaps used since. */
  predicate SameSession(s: SessionRow, s': SessionRow) {
    s' == s.(lastUsed := s'.lastUsed)
  }

  ghost predicate From(sessions: seq<SessionRow>, s': SessionRow) {
    exists s :: s in sessions && SameSession(s, s')
  }

  /** No session is new. */
  ghost predicate NoneNew(sessions: seq<SessionRow>, sessions': seq<SessionRow>) {
    forall s' :: s' in sessions' ==> From(sessions, s')
  }

  lemma DescendsFewer(sessions: seq<SessionRow>, sessions': seq<SessionRow>)
    requires forall s' :: s' in sessions' ==> s' in sessions
    ensures NoneNew(sessions, sessions')
  {
    forall s' | s' in sessions' ensures From(sessions, s') {
      assert SameSession(s', s');
    }
  }

  lemma DescendsTransitive(a: seq<SessionRow>, b: seq<SessionRow>, c: seq<SessionRow>)
    requires NoneNew(a, b) && NoneNew(b, c)
    ensures NoneNew(a, c)
  {
    forall s'' | s'' in c ensures From(a, s'') {
      assert From(b, s'');
      var s' :| s' in b && SameSession(s', s'');
      assert From(a, s');
      var s :| s in a && SameSession(s, s');
      assert SameSession(s, s'');
    }
  }

  lemma EndDescends(db: Db, e: Ending)
    ensures EndTx(db, e).Ok? ==>
              NoneNew(db.sessions, EndTx(db, e).value.sessions) && EndTx(db, e).value.users == db.users
  {
    hide EndTx, Remaining, NoneNew;
    EndTxShape(db, e);
    RemainingMembers(db.sessions, e);
    DescendsFewer(db.sessions, Remaining(db.sessions, e));
  }

  lemma TouchDescends(db: Db, token: string, now: int64)
    ensures NoneNew(db.sessions, Touch(db, token, now).sessions)
  {
    var sessions' := Touch(db, token, now).sessions;
    forall s' | s' in sessions' ensures From(db.sessions, s') {
      var i :| 0 <= i < |sessions'| && sessions'[i] == s';
      assert db.sessions[i] in db.sessions && SameSession(db.sessions[i], s');
    }
  }

  lemma CloseKeepsSessions(db: Db, c: Sweep)
    ensures CloseTx(db, c).Ok? ==> CloseTx(db, c).value.sessions == db.sessions
  {
    hide CloseTx, SweptRows;
    CloseTxShape(db, c);
  }

  lemma DisableAtKeepsSessions(db: Db, i: nat)
    requires i < |db.nodes|
    ensures DisableAt(db, i).Ok? ==> DisableAt(db, i).value.sessions == db.sessions
  {
    hide CloseTx;
    CloseKeepsSessions(db.(nodes := db.nodes[i := db.nodes[i].(enabled := false)]), CancelNode(db.nodes[i].agent));
  }

  lemma DisableKeepsSessions(db: Db, agent: string)
    ensures DisableTx(db, agent).Ok? ==> DisableTx(db, agent).value.sessions == db.sessions
  {
    hide DisableAt, Hex, FindNode;
    match FindNode(db.nodes, agent)
    case None =>
    case Some(i) => DisableAtKeepsSessions(db, i);
  }

  lemma EnqueueKeepsSessions(db: Db, o: Order, at: Times)
    ensures EnqueueTx(db, o, at).Ok? ==> EnqueueTx(db, o, at).value.sessions == db.sessions
  {
    hide CloseTx, Hex, FindNode, FindTask, Sum, CheckTask, ValidTask, SettingsOk, RecentlyReady, Wrap64;
    CloseKeepsSessions(db, ExpireQueued(o.agent, at.first));
  }

  lemma PollKeepsSessions(
      db: Db, agent: string, epoch: string, credential: bool, digest: string, key: PublicKey, at: Times)
    ensures Poll(db, agent, epoch, credential, digest, key, at).db.sessions == db.sessions
  {
    hide CloseTx, Hex, IsEnabled, SettingsOk, Next, SignTask, EnvelopeVerifies, DecodeTask;
    CloseKeepsSessions(db, ExpireQueued(agent, at.first));
  }

  lemma PerformDescends(db: Db, s: SessionRow, op: Operation, at: Times)
    ensures Perform(db, s, op, at).Ok? ==> NoneNew(db.sessions, Perform(db, s, op, at).value.sessions)
  {
    hide EnqueueTx, DisableTx, EndTx, LiveTokens, NoneNew, FindUser, Wrap64;
    DescendsFewer(db.sessions, db.sessions);
    match op
    case Submit(o) => EnqueueKeepsSessions(db, o.(actor := s.user), at);
    case DisableNode(agent) => DisableKeepsSessions(db, agent);
    case Logout => EndDescends(db, LoggedOut(s.id));
    case RevokeOwn => EndDescends(db, UserRevoked(s.user));
    case _ =>
  }

  lemma ManageDescends(db: Db, token: string, op: Operation, at: Times)
    ensures NoneNew(db.sessions, Manage(db, token, op, at).db.sessions)
  {
    hide Perform, EndTx, NoneNew, Authorize, Touch, FindUser, Privileged;
    DescendsFewer(db.sessions, db.sessions);
    if AdminClock(db, at.first).Ok? {
      var db0 := AdminClock(db, at.first).value;
      EndDescends(db0, Stale(at.first));
      if EndTx(db0, Stale(at.first)).Ok? {
        var db1 := EndTx(db0, Stale(at.first)).value;
        match Authorize(db1, token, at.first)
        case None =>
        case Some(i) =>
          PerformDescends(db1, db1.sessions[i], op, at);
          if Perform(db1, db1.sessions[i], op, at).Ok? {
            var db2 := Perform(db1, db1.sessions[i], op, at).value;
            TouchDescends(db2, token, at.first);
            DescendsTransitive(db.sessions, db1.sessions, db2.sessions);
            DescendsTransitive(db.sessions, db2.sessions, Touch(db2, token, at.first).sessions);
          }
      }
    }
  }

  lemma ChangeUserDescends(db: Db, name: string, c: Change)
    ensures NoneNew(db.sessions, ChangeUser(db, name, c).db.sessions)
  {
    hide FindName, Changed, Remaining, NoneNew;
    DescendsFewer(db.sessions, db.sessions);
    match FindName(db.users, name)
    case None =>
    case Some(i) =>
      RemainingMembers(db.sessions, UserRevoked(db.users[i].id));
      DescendsFewer(db.sessions, Remaining(db.sessions, UserRevoked(db.users[i].id)));
  }

  lemma QuarantineDescends(db: Db)
    ensures NoneNew(db.sessions, QuarantineRestore(db).db.sessions)
  {
    hide DisableAll, Consumed, Bumped, NoneNew;
    DescendsFewer(db.sessions, db.sessions);
    DescendsFewer(db.sessions, []);
  }

  /** Every operation but the second half of a login leaves no session that was not there. */
  lemma OtherStepsOpenNothing(w: World, op: Op, at: Times)
    requires !op.EndLogin?
    ensures NoneNew(w.db.sessions, NextDb(w, op, at).sessions)
  {
    hide NoneNew, EnqueueTx, DisableTx, Manage, SettingsOk, QuarantineRestore, CloseTx, FindLive, Hex, IsEnabled,
         LiveTokens, RegistrationOk, Poll, ChangeUser, FindTask, ResultError, DecodeResult, AllLiveVerify, Valid,
         Accepted, SameTrust, FindUser, FindName, Bumped, NoneQueued, InWindow, MatchesBaseline, FindNode, Wrap64;
    var db := w.db;
    DescendsFewer(db.sessions, db.sessions);
    DescendsFewer(db.sessions, []);
    match op
    case Enqueue(o) => EnqueueKeepsSessions(db, o, at);
    case DisableLocally(agent) => DisableKeepsSessions(db, agent);
    case PollTask(agent, epoch, credential, digest, key) =>
      PollKeepsSessions(db, agent, epoch, credential, digest, key, at);
    case CancelForSwitch => CloseKeepsSessions(db, CancelQueued);
    case Quarantine => QuarantineDescends(db);
    case Administer(token, operation) => ManageDescends(db, token, operation, at);
    case AlterUser(name, change) => ChangeUserDescends(db, name, change);
    case _ =>
  }

  /** An earlier step read this account as the one to log in to, by the name given. */
  ghost predicate BegunAt(start: World, steps: seq<Step>, m: nat, attempt: nat, u: UserRow) {
    && m < |steps| && steps[m].op.BeginLogin? && u.name == steps[m].op.name
    && u in After(start, steps[..m]).db.users && |After(start, steps[..m]).attempts| == attempt
  }

  /** A step checked the password of that account, found it unchanged, and opened this session for eight hours. */
  ghost predicate LoggedInAt(start: World, steps: seq<Step>, n: nat, s: SessionRow) {
    && n < |steps| && steps[n].op.EndLogin?
    && (var op, w := steps[n].op, After(start, steps[..n]);
        && op.matched && op.attempt < |w.attempts| && w.attempts[op.attempt].Some?
        && (var u := w.attempts[op.attempt].value;
            && u.id == s.user && u.enabled && Unchanged(w.db.users, u)
            && exists m: nat :: m < n && BegunAt(start, steps, m, op.attempt, u))
        && s == SessionRow(op.session, Sha256(op.token), s.user, steps[n].at.first, s.lastUsed,
                           Wrap64(steps[n].at.first + 28800)))
  }

  ghost predicate HasLogin(start: World, steps: seq<Step>, s: SessionRow) {
    exists n: nat :: LoggedInAt(start, steps, n, s)
  }

  /** Every attempt was read by a step. */
  ghost predicate HasBegun(start: World, steps: seq<Step>, attempt: nat, a: Attempt) {
    a.Some? ==> exists m: nat :: BegunAt(start, steps, m, attempt, a.value)
  }

  lemma BegunStays(start: World, steps: seq<Step>, k: nat, m: nat, attempt: nat, u: UserRow)
    requires k <= |steps| && BegunAt(start, steps[..k], m, attempt, u)
    ensures BegunAt(start, steps, m, attempt, u)
  {
    hide After;
    assert steps[..k][..m] == steps[..m];
  }

  lemma LoginStays(start: World, steps: seq<Step>, k: nat, s: SessionRow)
    requires k <= |steps| && HasLogin(start, steps[..k], s)
    ensures HasLogin(start, steps, s)
  {
    hide After;
    var n: nat :| LoggedInAt(start, steps[..k], n, s);
    assert steps[..k][..n] == steps[..n];
    var w := After(start, steps[..n]);
    var u := w.attempts[steps[n].op.attempt].value;
    var m: nat :| m < n && BegunAt(start, steps[..k], m, steps[n].op.attempt, u);
    BegunStays(start, steps, k, m, steps[n].op.attempt, u);
    assert LoggedInAt(start, steps, n, s);
  }

  lemma {:induction false} AttemptsHaveBegun(now: int64, steps: seq<Step>, i: nat)
    requires i < |After(Start(now), steps).attempts|
    ensures HasBegun(Start(now), steps, i, After(Start(now), steps).attempts[i])
  {
    hide Start, NextDb, NextIssued, Recorded, StartLogin, FinishLogin;
    if steps == [] {
      NoAttempts(now);
    } else {
      var n := |steps| - 1;
      var w := After(Start(now), steps[..n]);
      var step := steps[n];
      if i < |w.attempts| {
        AttemptsHaveBegun(now, steps[..n], i);
        if w.attempts[i].Some? {
          var m: nat :| BegunAt(Start(now), steps[..n], m, i, w.attempts[i].value);
          BegunStays(Start(now), steps, n, m, i, w.attempts[i].value);
        }
      } else {
        RunIsGood(now, steps[..n]);
        AttemptIff(w.db, step.op.name, step.op.budget, step.at.first, 1, w.signers, w.issued);
        var a := After(Start(now), steps).attempts[i];
        if a.Some? { assert BegunAt(Start(now), steps, n, i, a.value); }
      }
    }
  }

  lemma NoAttempts(now: int64)
    ensures Start(now).attempts == [] && Start(now).db.sessions == []
  {
  }

  lemma SameHasLogin(start: World, steps: seq<Step>, s: SessionRow, s': SessionRow)
    requires HasLogin(start, steps, s) && SameSession(s, s')
    ensures HasLogin(start, steps, s')
  {
    hide After, Unchanged;
    var n: nat :| LoggedInAt(start, steps, n, s);
    assert LoggedInAt(start, steps, n, s');
  }

  /** In every run, with anything between the two halves of a login, every session was opened by a login that completed:
      one step read the account of the name given, a later one found that the password given matches it and that it is
      enabled and unchanged, and opened the session for that account, from then on for eight hours. */
  lemma {:induction false} SessionsComeFromLogins(now: int64, steps: seq<Step>, s: SessionRow)
    requires s in After(Start(now), steps).db.sessions
    ensures HasLogin(Start(now), steps, s)
  {
    hide Start, NextDb, NextIssued, NextAttempts, Recorded, FinishLogin, HasLogin, NoneNew, Good;
    if steps == [] {
      NoAttempts(now);
    } else {
      var n := |steps| - 1;
      var w := After(Start(now), steps[..n]);
      RunIsGood(now, steps[..n]);
      var old' := StepSession(w, steps[n], s);
      if old'.Some? {
        SessionsComeFromLogins(now, steps[..n], old'.value);
        SameHasLogin(Start(now), steps[..n], old'.value, s);
        LoginStays(Start(now), steps, n, s);
      } else {
        NewHasLogin(now, steps, s);
      }
    }
  }

  lemma NewHasLogin(now: int64, steps: seq<Step>, s: SessionRow)
    requires steps != [] && Logs(After(Start(now), steps[..|steps| - 1]), steps[|steps| - 1], s)
    ensures HasLogin(Start(now), steps, s)
  {
    hide After, Start, Unchanged;
    var n := |steps| - 1;
    var i := steps[n].op.attempt;
    AttemptsHaveBegun(now, steps[..n], i);
    var u := After(Start(now), steps[..n]).attempts[i].value;
    var m: nat :| BegunAt(Start(now), steps[..n], m, i, u);
    BegunStays(Start(now), steps, n, m, i, u);
    assert LoggedInAt(Start(now), steps, n, s);
  }

  /** This step is a successful second half of a login that opens this session. */
  ghost predicate Logs(w: World, step: Step, s: SessionRow) {
    && step.op.EndLogin? && step.op.matched && step.op.attempt < |w.attempts| && w.attempts[step.op.attempt].Some?
    && w.attempts[step.op.attempt].value.enabled && Unchanged(w.db.users, w.attempts[step.op.attempt].value)
    && s == SessionRow(step.op.session, Sha256(step.op.token), w.attempts[step.op.attempt].value.id, step.at.first,
                       step.at.first, Wrap64(step.at.first + 28800))
  }

  /** A session after a step was there before it, or the step is the login that opened it. */
  lemma StepSession(w: World, step: Step, s: SessionRow) returns (before: Option<SessionRow>)
    requires Good(w) && s in Apply(w, step).db.sessions
    ensures if before.Some? then before.value in w.db.sessions && SameSession(before.value, s) else Logs(w, step, s)
  {
    hide Inv, NextDb, FinishLogin, Unchanged, Opened, NoneNew;
    if step.op.EndLogin? {
      before := LoginSession(w, step, s);
    } else {
      OtherStepsOpenNothing(w, step.op, step.at);
      assert From(w.db.sessions, s) by { DescendsFrom(w.db.sessions, NextDb(w, step.op, step.at).sessions, s); }
      var s0 :| s0 in w.db.sessions && SameSession(s0, s);
      before := Some(s0);
    }
  }

  lemma DescendsFrom(sessions: seq<SessionRow>, sessions': seq<SessionRow>, s': SessionRow)
    requires NoneNew(sessions, sessions') && s' in sessions'
    ensures From(sessions, s')
  {
  }

  lemma LoginSession(w: World, step: Step, s: SessionRow) returns (before: Option<SessionRow>)
    requires Good(w) && s in Apply(w, step).db.sessions && step.op.EndLogin?
    ensures if before.Some? then before.value in w.db.sessions && SameSession(before.value, s) else Logs(w, step, s)
  {
    hide Inv, FinishLogin, Unchanged, Alive, Sum;
    before := Some(s);
    if s !in w.db.sessions {
      var i := step.op.attempt;
      LoginIff(w.db, w.attempts[i], step.op.matched, step.op.session, step.op.token, step.at.first, 1, w.signers,
               w.issued);
      var db' := FinishLogin(w.db, w.attempts[i], step.op.matched, step.op.session, step.op.token, step.at.first).db;
      var n := |db'.sessions| - 1;
      assert db'.sessions == db'.sessions[..n] + [db'.sessions[n]];
      before := None;
    }
  }
}
