/** What operators change: accounts and the settings of task dispatch, exactly, and that nothing else changes them
    (internal/state/admin.go, internal/state/signers.go, internal/state/management.go). */
module ServerChanges {
  import opened Core
  import opened Tables
  import opened Protocol
  import opened Ledgers
  import opened Trust
  import opened Envelope
  import opened ServerState
  import opened ServerInvariants
  import opened ServerTransactions
  import opened ServerAccounts
  import opened ServerEffects
  import opened ServerRuns
  import opened ServerLogins

  // ---- One account ----

  predicate DistinctNames(users: seq<UserRow>) {
    forall i, j :: 0 <= i < j < |users| ==> users[i].name != users[j].name
  }

  /** The account at position k has this name and may be changed so: a disabled one can only be revoked. */
  predicate Alterable(db: Db, name: string, c: Change, k: nat) {
    k < |db.users| && db.users[k].name == name && (db.users[k].enabled || c.RevokeAccount?)
  }

  ghost predicate SignedIn(db: Db, user: string) {
    exists i :: 0 <= i < |db.sessions| && db.sessions[i].user == user
  }

  /** What was asked for, and the next generation. */
  function Altered(u: UserRow, c: Change): UserRow {
    UserRow(u.id, u.name, if c.NewRole? then c.role else u.role, u.enabled && c != DisableAccount,
        if c.NewPassword? then c.hash else u.password, u.generation + 1)
  }

  /** That account is changed, its sessions are over, and one event says so and takes their place in the log. */
  ghost predicate AccountChanged(db: Db, c: Change, k: nat, db': Db)
    requires k < |db.users|
  {
    && db' == db.(users := db.users[k := Altered(db.users[k], c)], sessions := db'.sessions, ledger := db'.ledger)
    && (forall s :: s in db'.sessions <==> s in db.sessions && s.user != db.users[k].id)
    && db'.ledger == Ledger(db.ledger.events + [Event(UserChanged, db.users[k].id)],
                            db.ledger.reserved - (|db.sessions| - |db'.sessions|))
  }

  /** Exactly when an account is changed, and what the change leaves; a refused one leaves everything. */
  lemma ChangeIff(db: Db, name: string, c: Change, stamp: int, signers: Signers, issued: Issued)
    requires Inv(db, signers, issued) && DistinctNames(db.users)
    ensures var tx := Stamped(db, ChangeUser(db, name, c), stamp);
            && (tx.result.Ok? <==>
                  stamp > 0
                    && exists k: nat :: Alterable(db, name, c, k) && (SpaceLeft(db) >= 1 || SignedIn(db, db.users[k].id)))
            && (tx.result.Ok? ==> exists k: nat :: Alterable(db, name, c, k) && AccountChanged(db, c, k, tx.db))
            && (tx.result.Err? ==> tx.db == db)
  {
    OneName(db.users, name);
    ReservedIsPositive(db, signers, issued);
    hide Inv, FindName, SignedIn, DistinctNames, ChangeUser, AccountChanged;
    match FindName(db.users, name)
    case None => NoSuchName(db, name, c);
    case Some(k) =>
      ChangeAt(db, name, c, k, signers, issued);
      SignedInIff(db, db.users[k].id);
      if ChangeUser(db, name, c).result.Ok? { SomethingLogged(db, name, c, k); }
  }

  lemma NoSuchName(db: Db, name: string, c: Change)
    requires FindName(db.users, name).None?
    ensures ChangeUser(db, name, c) == Tx(db, Err(NoSuchUser))
  {
  }

  lemma SomethingLogged(db: Db, name: string, c: Change, k: nat)
    requires k < |db.users| && AccountChanged(db, c, k, ChangeUser(db, name, c).db)
    ensures ChangeUser(db, name, c).db.ledger.events != db.ledger.events
  {
    hide ChangeUser;
    assert |ChangeUser(db, name, c).db.ledger.events| == |db.ledger.events| + 1;
  }

  lemma ChangeAt(db: Db, name: string, c: Change, k: nat, signers: Signers, issued: Issued)
    requires Inv(db, signers, issued) && FindName(db.users, name) == Some(k)
    ensures var tx := ChangeUser(db, name, c);
            && (tx.result.Ok? <==>
                  (db.users[k].enabled || c.RevokeAccount?) && (SpaceLeft(db) >= 1 || HasSessions(db, db.users[k].id)))
            && if tx.result.Ok? then AccountChanged(db, c, k, tx.db) else tx.db == db
  {
    hide Inv, FindName, Remaining, Kept, HasSessions;
    ChangeUserKept(db, name, c, Times(0, 0, 0), signers, issued);
    RemainingMembers(db.sessions, UserRevoked(db.users[k].id));
  }

  lemma SignedInIff(db: Db, user: string)
    ensures SignedIn(db, user) <==> HasSessions(db, user)
  {
  }

  lemma OneName(users: seq<UserRow>, name: string)
    requires DistinctNames(users)
    ensures forall k :: 0 <= k < |users| && users[k].name == name ==> FindName(users, name) == Some(k)
  {
    hide FindName;
  }

  /** Exactly when an account is created: of thirty-two at most, the first one an Admin, with a new ID and name. */
  lemma CreateIff(db: Db, user: UserRow, stamp: int, signers: Signers, issued: Issued)
    requires Inv(db, signers, issued)
    ensures var tx := Stamped(db, CreateUser(db, user), stamp);
            && (tx.result.Ok? <==>
                  && stamp > 0 && |db.users| < 32 && (db.users == [] ==> user.role == Admin) && SpaceLeft(db) >= 1
                  && forall k :: 0 <= k < |db.users| ==> db.users[k].id != user.id && db.users[k].name != user.name)
            && tx.db == (if tx.result.Err? then db
                         else db.(users := db.users + [UserRow(user.id, user.name, user.role, true, user.password, 1)],
                                  ledger := Ledger(db.ledger.events + [Event(UserCreated, user.id)],
                                                   db.ledger.reserved)))
  {
    ReservedIsPositive(db, signers, issued);
    hide Inv, FindName, FindUser;
  }

  /** Every account gets the next generation and is otherwise as it was. */
  predicate AllRaised(users: seq<UserRow>, users': seq<UserRow>) {
    |users'| == |users|
    && forall i :: 0 <= i < |users| ==> users'[i] == users[i].(generation := users[i].generation + 1)
  }

  /** Exactly when all sessions are revoked; then none is left and no login begun before gets through. */
  lemma RevokeAllIff(db: Db, stamp: int, signers: Signers, issued: Issued)
    requires Inv(db, signers, issued)
    ensures var tx := Stamped(db, RevokeAllSessions(db), stamp);
            && (tx.result.Ok? <==> stamp > 0 && (SpaceLeft(db) >= 1 || db.sessions != []))
            && (tx.result.Err? ==> tx.db == db)
            && (tx.result.Ok? ==>
                  && tx.db == db.(sessions := [], users := tx.db.users,
                                  ledger := Ledger(db.ledger.events + [Event(AllSessionsRevoked, "")],
                                                   db.ledger.reserved - |db.sessions|))
                  && AllRaised(db.users, tx.db.users))
  {
    ReservedIsPositive(db, signers, issued);
    RevokeAllKept(db, Times(0, 0, 0), signers, issued);
    hide Inv, Kept, Bumped;
  }

  // ---- Quarantine of a restored store ----

  /** Same node, perhaps no longer enabled. */
  predicate MaybeDisabled(n: NodeRow, n': NodeRow) {
    n' == n.(enabled := n'.enabled)
  }

  predicate MaybeAbandoned(r: TaskRow, r': TaskRow) {
    r' == r || Abandoned(r, r')
  }

  predicate PartlyAbandoned(db: Db, db': Db) {
    && db' == db.(nodes := db'.nodes, tasks := db'.tasks, ledger := db'.ledger)
    && |db'.nodes| == |db.nodes| && |db'.tasks| == |db.tasks|
    && (forall i :: 0 <= i < |db.nodes| ==> MaybeDisabled(db.nodes[i], db'.nodes[i]))
    && forall i :: 0 <= i < |db.tasks| ==> MaybeAbandoned(db.tasks[i], db'.tasks[i])
  }

  lemma DisableAtAbandons(db: Db, i: nat)
    requires i < |db.nodes|
    ensures DisableAt(db, i).Ok? ==> PartlyAbandoned(db, DisableAt(db, i).value)
  {
    hide CloseTx, SweptRows;
    CloseTxShape(db.(nodes := db.nodes[i := db.nodes[i].(enabled := false)]), CancelNode(db.nodes[i].agent));
  }

  lemma PartlyTransitive(a: Db, b: Db, c: Db)
    requires PartlyAbandoned(a, b) && PartlyAbandoned(b, c)
    ensures PartlyAbandoned(a, c)
  {
    forall i | 0 <= i < |a.tasks| ensures MaybeAbandoned(a.tasks[i], c.tasks[i]) {
      assert MaybeAbandoned(a.tasks[i], b.tasks[i]) && MaybeAbandoned(b.tasks[i], c.tasks[i]);
    }
    forall i | 0 <= i < |a.nodes| ensures MaybeDisabled(a.nodes[i], c.nodes[i]) {
      assert MaybeDisabled(a.nodes[i], b.nodes[i]) && MaybeDisabled(b.nodes[i], c.nodes[i]);
    }
  }

  lemma {:induction false} DisableAllAbandons(db: Db, n: nat)
    ensures DisableAll(db, n).Ok? ==> PartlyAbandoned(db, DisableAll(db, n).value)
    decreases n
  {
    hide DisableAt, FirstEnabled;
    if n > 0 && FirstEnabled(db.nodes).Some? {
      var i := FirstEnabled(db.nodes).value;
      DisableAtAbandons(db, i);
      if DisableAt(db, i).Ok? {
        var db1 := DisableAt(db, i).value;
        DisableAllAbandons(db1, n - 1);
        if DisableAll(db1, n - 1).Ok? { PartlyTransitive(db, db1, DisableAll(db1, n - 1).value); }
      }
    }
  }

  /** A restored store after its quarantine: every node disabled, every open task given up, every token spent, no
      session left and no login begun before able to finish; all else is as it was. */
  lemma QuarantineEffect(db: Db, signers: Signers, issued: Issued)
    requires Inv(db, signers, issued)
    ensures var tx := QuarantineRestore(db);
            var db' := tx.db;
            && (tx.result.Err? ==> db' == db)
            && (tx.result.Ok? ==>
                  && db' == Db(db'.nodes, db.fingerprints, db'.tokens, db'.tasks, db.settings, db'.users, [],
                               db.adminHigh, db'.ledger)
                  && |db'.nodes| == |db.nodes| && |db'.tasks| == |db.tasks| && |db'.tokens| == |db.tokens|
                  && (forall i :: 0 <= i < |db.nodes| ==> db'.nodes[i] == db.nodes[i].(enabled := false))
                  && (forall i :: 0 <= i < |db.tasks| ==> Abandoned(db.tasks[i], db'.tasks[i]))
                  && (forall i :: 0 <= i < |db.tokens| ==> db'.tokens[i] == db.tokens[i].(consumed := true))
                  && AllRaised(db.users, db'.users)
                  && db'.ledger.events[|db'.ledger.events| - 1] == Event(RestoreQuarantined, ""))
  {
    hide Inv, Kept, DisableAll, Full, Sum, QuarantineRestore, PartlyAbandoned, Quarantined, AllRaised;
    QuarantineKept(db, Times(0, 0, 0), signers, issued);
    DisableAllAbandons(db, |db.nodes|);
    var tx := QuarantineRestore(db);
    QuarantineShape(db);
    if tx.result.Ok? { AllAbandoned(db, DisableAll(db, |db.nodes|).value, tx.db); }
  }

  lemma QuarantineShape(db: Db)
    ensures var tx := QuarantineRestore(db);
            if tx.result.Err? then tx.db == db
            else
              && DisableAll(db, |db.nodes|).Ok?
              && var db1 := DisableAll(db, |db.nodes|).value;
                 && tx.db == db1.(tokens := tx.db.tokens, sessions := [], users := tx.db.users, ledger := tx.db.ledger)
                 && |tx.db.tokens| == |db1.tokens|
                 && (forall i :: 0 <= i < |db1.tokens| ==> tx.db.tokens[i] == db1.tokens[i].(consumed := true))
                 && AllRaised(db1.users, tx.db.users) && AllRaised(db.users, tx.db.users)
                 && tx.db.ledger.events == db1.ledger.events + [Event(RestoreQuarantined, "")]
  {
    hide DisableAll, Bumped, Consumed;
    DisableAllTouchesNothing(db, |db.nodes|);
  }

  lemma AllAbandoned(db: Db, db1: Db, db': Db)
    requires PartlyAbandoned(db, db1) && db'.nodes == db1.nodes && db'.tasks == db1.tasks && Quarantined(db')
    ensures db1 == db.(nodes := db1.nodes, tasks := db1.tasks, ledger := db1.ledger)
    ensures |db'.nodes| == |db.nodes| && |db'.tasks| == |db.tasks|
    ensures forall i :: 0 <= i < |db.nodes| ==> db'.nodes[i] == db.nodes[i].(enabled := false)
    ensures forall i :: 0 <= i < |db.tasks| ==> Abandoned(db.tasks[i], db'.tasks[i])
  {
    forall i | 0 <= i < |db.tasks| ensures Abandoned(db.tasks[i], db'.tasks[i]) {
      assert MaybeAbandoned(db.tasks[i], db1.tasks[i]) && db'.tasks[i].state.Terminal?;
    }
    forall i | 0 <= i < |db.nodes| ensures db'.nodes[i] == db.nodes[i].(enabled := false) {
      assert MaybeDisabled(db.nodes[i], db1.nodes[i]) && !db'.nodes[i].enabled;
    }
  }

  // ---- Remote administration ----

  /** A token belongs to one session. */
  predicate DistinctTokens(sessions: seq<SessionRow>) {
    forall i, j :: 0 <= i < j < |sessions| ==> sessions[i].token != sessions[j].token
  }

  lemma DescendsKeepsTokens(sessions: seq<SessionRow>, sessions': seq<SessionRow>)
    requires NoneNew(sessions, sessions') && DistinctSessions(sessions') && DistinctTokens(sessions)
    ensures DistinctTokens(sessions')
  {
    forall i, j | 0 <= i < j < |sessions'| ensures sessions'[i].token != sessions'[j].token {
      assert sessions'[i] in sessions' && sessions'[j] in sessions';
      assert From(sessions, sessions'[i]) && From(sessions, sessions'[j]);
      var s :| s in sessions && SameSession(s, sessions'[i]);
      var s' :| s' in sessions && SameSession(s', sessions'[j]);
    }
  }

  lemma LoginKeepsTokens(
      db: Db, attempt: Attempt, matched: bool, id: string, token: string, now: int64, signers: Signers, issued: Issued)
    requires Inv(db, signers, issued) && DistinctTokens(db.sessions)
    ensures var db' := FinishLogin(db, attempt, matched, id, token, now).db;
            DistinctSessions(db'.sessions) ==> DistinctTokens(db'.sessions)
  {
    hide Inv, FinishLogin, DistinctSessions, DistinctTokens, RoomFor, Unused, Opened, Elsewhere;
    var tx := FinishLogin(db, attempt, matched, id, token, now);
    LoginIff(db, attempt, matched, id, token, now, 1, signers, issued);
    if tx.result.Ok? && DistinctSessions(tx.db.sessions) {
      OpenedKeepsTokens(db, tx.db, attempt.value.id, id, token, now);
    } else if DistinctSessions(tx.db.sessions) {
      DescendsFewer(db.sessions, tx.db.sessions);
      DescendsKeepsTokens(db.sessions, tx.db.sessions);
    }
  }

  lemma OpenedKeepsTokens(db: Db, db': Db, user: string, id: string, token: string, now: int64)
    requires DistinctTokens(db.sessions) && DistinctSessions(db'.sessions) && Opened(db, db', user, id, token, now)
             && Unused(db, id, token, now)
    ensures DistinctTokens(db'.sessions)
  {
    hide Sum, Alive, DistinctTokens;
    var n := |db'.sessions| - 1;
    DescendsFewer(db.sessions, db'.sessions[..n]);
    DescendsKeepsTokens(db.sessions, db'.sessions[..n]);
    forall i | 0 <= i < n ensures db'.sessions[i].token != Sha256(token) {
      assert db'.sessions[..n][i] == db'.sessions[i];
      assert db'.sessions[i] in db'.sessions[..n];
    }
    OneMore(db'.sessions, n);
  }

  lemma OneMore(sessions: seq<SessionRow>, n: nat)
    requires |sessions| == n + 1 && DistinctTokens(sessions[..n])
    requires forall i :: 0 <= i < n ==> sessions[i].token != sessions[n].token
    ensures DistinctTokens(sessions)
  {
    forall i, j | 0 <= i < j < |sessions| ensures sessions[i].token != sessions[j].token {
      if j < n { assert sessions[..n][i] == sessions[i] && sessions[..n][j] == sessions[j]; }
    }
  }

  lemma InvSessions(db: Db, signers: Signers, issued: Issued)
    requires Inv(db, signers, issued)
    ensures DistinctSessions(db.sessions) && DistinctUsers(db.users)
  {
    InvParts(db, signers, issued);
    hide Inv, SessionBounds, SessionCurrent, TableInv, SignerBound, Accounts;
  }

  /** In every run each token belongs to one session. */
  lemma {:induction false} TokensAreDistinct(now: int64, steps: seq<Step>)
    ensures DistinctTokens(After(Start(now), steps).db.sessions)
  {
    hide Start, NextDb, NextIssued, NextAttempts, Recorded, DistinctTokens, Good;
    if steps == [] {
      NoAttempts(now);
      NoTokens();
    } else {
      var n := |steps| - 1;
      var w := After(Start(now), steps[..n]);
      TokensAreDistinct(now, steps[..n]);
      RunIsGood(now, steps[..n]);
      ApplyKeepsGood(w, steps[n]);
      StepKeepsTokens(w, steps[n]);
    }
  }

  lemma NoTokens()
    ensures DistinctTokens([])
  {
  }

  lemma StepKeepsTokens(w: World, step: Step)
    requires Good(w) && Good(Apply(w, step)) && DistinctTokens(w.db.sessions)
    ensures DistinctTokens(Apply(w, step).db.sessions)
  {
    hide Inv, NextDb, FinishLogin, DistinctTokens, NoneNew;
    InvSessions(Apply(w, step).db, Apply(w, step).signers, Apply(w, step).issued);
    if step.op.EndLogin? {
      if step.op.attempt < |w.attempts| {
        LoginKeepsTokens(w.db, w.attempts[step.op.attempt], step.op.matched, step.op.session, step.op.token,
                         step.at.first, w.signers, w.issued);
        EndLoginStep(w, step);
      } else {
        EndLoginStep(w, step);
      }
    } else {
      OtherStepsOpenNothing(w, step.op, step.at);
      DescendsKeepsTokens(w.db.sessions, NextDb(w, step.op, step.at).sessions);
    }
  }

  lemma EndLoginStep(w: World, step: Step)
    requires step.op.EndLogin?
    ensures Apply(w, step).db.sessions ==
              if step.op.attempt < |w.attempts| then
                FinishLogin(w.db, w.attempts[step.op.attempt], step.op.matched, step.op.session, step.op.token,
                            step.at.first).db.sessions
              else w.db.sessions
  {
    hide FinishLogin, Recorded;
  }

  /** The token is that of a usable session of an enabled account, of this role if one is given. */
  ghost predicate Held(db: Db, token: string, now: int64, role: Option<Role>) {
    exists r: Role, i: nat, k: nat :: (role.Some? ==> r == role.value) && HeldBy(db, token, now, r, i, k)
  }

  lemma AuthorizeIff(db: Db, token: string, now: int64)
    requires DistinctTokens(db.sessions) && DistinctUsers(db.users)
    ensures Authorize(db, token, now).Some? <==> Held(db, token, now, None)
    ensures Authorize(db, token, now).Some? ==>
              var s := db.sessions[Authorize(db, token, now).value];
              Held(db, token, now, Some(Admin)) <==> db.users[FindUser(db.users, s.user).value].role == Admin
  {
    hide Hex, FindToken, FindUser;
    match Authorize(db, token, now)
    case Some(i) =>
      AuthorizedIsHeld(db, token, now, i);
    case None =>
  }

  lemma AliveAreHeld(db: Db, db1: Db, token: string, now: int64, role: Option<Role>)
    requires db1.users == db.users && db1.sessions == Remaining(db.sessions, Stale(now))
    ensures Held(db1, token, now, role) <==> Held(db, token, now, role)
  {
    RemainingMembers(db.sessions, Stale(now));
    hide Remaining, Hex;
    if Held(db1, token, now, role) {
      var r: Role, i: nat, k: nat :| (role.Some? ==> r == role.value) && HeldBy(db1, token, now, r, i, k);
      assert db1.sessions[i] in db.sessions;
      var j: nat :| j < |db.sessions| && db.sessions[j] == db1.sessions[i];
      assert HeldBy(db, token, now, r, j, k);
    }
    if Held(db, token, now, role) {
      var r: Role, i: nat, k: nat :| (role.Some? ==> r == role.value) && HeldBy(db, token, now, r, i, k);
      assert db.sessions[i] in db1.sessions;
      var j: nat :| j < |db1.sessions| && db1.sessions[j] == db.sessions[i];
      assert HeldBy(db1, token, now, r, j, k);
    }
  }

  /** Exactly whom remote administration turns away: without a usable session of an enabled account every request is
      unauthorised, with one only the three operations on nodes, tasks and tokens are forbidden, and only to an account
      that is no Admin; each such denial leaves one event. */
  lemma ManageIff(db: Db, token: string, op: Operation, at: Times, signers: Signers, issued: Issued)
    requires Inv(db, signers, issued) && DistinctTokens(db.sessions) && ClockOk(db, at.first)
    ensures var r := Manage(db, token, op, at).result;
            && (r == Err(Unauthorised) <==> !Held(db, token, at.first, None))
            && ((op.Submit? || op.IssueToken? || op.DisableNode?) && Held(db, token, at.first, None)
                && !Held(db, token, at.first, Some(Admin)) ==>
                  if SpaceLeft(db) >= 1 then r == Err(Forbidden) else r == Err(AuditFailed(AuditFull)))
            && (r == Err(Forbidden) ==>
                  && (op.Submit? || op.IssueToken? || op.DisableNode?) && !Held(db, token, at.first, Some(Admin))
                  && RefusedWith(Manage(db, token, op, at).db, AdminDenied))
  {
    hide Inv, Perform, EndTx, End, Authorize, Touch, Held, FindUser, DistinctTokens;
    var db0 := AdminClock(db, at.first).value;
    AfterExpiry(db, db0, at.first, "", signers, issued);
    var db1 := End(db0, Stale(at.first));
    InvSessions(db, signers, issued);
    RemainingMembers(db.sessions, Stale(at.first));
    TokensRemain(db.sessions, at.first);
    AuthorizeIff(db1, token, at.first);
    AliveAreHeld(db, db1, token, at.first, None);
    AliveAreHeld(db, db1, token, at.first, Some(Admin));
  }

  /** The session after a request with this token. */
  function Refreshed(s: SessionRow, token: string, now: int64): SessionRow {
    if s.token == Sha256(token) then s.(lastUsed := Max(s.lastUsed, now)) else s
  }

  /** Exactly the living sessions are left, and the one of the request was used now. */
  ghost predicate Used(db: Db, db': Db, token: string, now: int64) {
    forall s' :: s' in db'.sessions <==> exists s :: s in db.sessions && Alive(s, now) && s' == Refreshed(s, token, now)
  }

  /** Exactly the living sessions are left that are not of this user, or not this one. */
  ghost predicate Left(db: Db, db': Db, gone: Ending, now: int64)
    requires !gone.Stale?
  {
    forall s :: s in db'.sessions <==>
                  s in db.sessions && Alive(s, now) && (if gone.LoggedOut? then s.id != gone.id else s.user != gone.user)
  }

  /** What an operation that succeeded did for the account of this session. */
  ghost predicate Did(db: Db, db': Db, s: SessionRow, op: Operation, token: string, at: Times) {
    match op
    case Read(found) =>
      && found && Used(db, db', token, at.first)
      && db' == db.(sessions := db'.sessions, ledger := db'.ledger, adminHigh := db'.adminHigh)
    case IssueToken(secret, ttl, nanos) =>
      && Used(db, db', token, at.first) && db'.tokens != []
      && db'.tokens[|db'.tokens| - 1] == TokenRow(Sha256(secret), Wrap64((nanos + ttl) / 1_000_000_000), false)
      && db' == db.(tokens := db'.tokens, sessions := db'.sessions, ledger := db'.ledger, adminHigh := db'.adminHigh)
    case Submit(o) =>
      && Used(db, db', token, at.first) && |db'.tasks| == |db.tasks| + 1
      && (exists k: nat :: k < |db.nodes| && Prepared(db.nodes[k], o.agent, o.nanos)
                           && QueuedFor(db'.tasks[|db.tasks|], o.(actor := s.user), db.nodes[k], at))
      && db' == db.(tasks := db'.tasks, sessions := db'.sessions, ledger := db'.ledger, adminHigh := db'.adminHigh)
    case DisableNode(agent) =>
      && Used(db, db', token, at.first) && |db'.nodes| == |db.nodes|
      && (forall k :: 0 <= k < |db.nodes| ==>
            db'.nodes[k] == if db.nodes[k].agent == agent then db.nodes[k].(enabled := false) else db.nodes[k])
      && db' == db.(nodes := db'.nodes, tasks := db'.tasks, sessions := db'.sessions, ledger := db'.ledger,
                    adminHigh := db'.adminHigh)
    case Logout =>
      && Left(db, db', LoggedOut(s.id), at.first)
      && db' == db.(sessions := db'.sessions, ledger := db'.ledger, adminHigh := db'.adminHigh)
    case RevokeOwn =>
      && Left(db, db', UserRevoked(s.user), at.first) && Raised(db.users, s.user, db'.users)
      && db' == db.(users := db'.users, sessions := db'.sessions, ledger := db'.ledger, adminHigh := db'.adminHigh)
  }

  /** A request that succeeds did what was asked for the account whose session holds the token: its tasks name that
      account, and the session counts as used, unless the request ended it. */
  lemma ManageEffect(db: Db, token: string, op: Operation, at: Times, signers: Signers, issued: Issued)
    requires Inv(db, signers, issued) && DistinctTokens(db.sessions) && Manage(db, token, op, at).result.Ok?
    ensures exists r: Role, i: nat, k: nat ::
              HeldBy(db, token, at.first, r, i, k)
              && Did(db, Manage(db, token, op, at).db, db.sessions[i], op, token, at)
  {
    hide Inv, Perform, EndTx, End, Authorize, Touch, Did, FindUser, DistinctTokens, Privileged, HeldBy;
    var now := at.first;
    var db0 := AdminClock(db, now).value;
    AfterExpiry(db, db0, now, "", signers, issued);
    var db1 := End(db0, Stale(now));
    InvSessions(db, signers, issued);
    TokensRemain(db.sessions, now);
    ExpiryKeepsInv(db, db0, now, signers, issued);
    var i := Authorize(db1, token, now).value;
    AuthorizedIsHeld(db1, token, now, i);
    var k := FindUser(db1.users, db1.sessions[i].user).value;
    var r := db1.users[k].role;
    PerformDid(db, db1, i, op, token, at, signers, issued);
    assert exists j: nat :: j < |db.sessions| && db.sessions[j] == db1.sessions[i] by {
      RemainingMembers(db.sessions, Stale(now));
      assert db1.sessions[i] in db.sessions;
    }
    var j: nat :| j < |db.sessions| && db.sessions[j] == db1.sessions[i];
    assert HeldBy(db, token, now, r, j, k) by { SameHolder(db, db1, token, now, r, i, j, k); }
  }

  lemma SameHolder(db: Db, db1: Db, token: string, now: int64, role: Role, i: nat, j: nat, k: nat)
    requires HeldBy(db1, token, now, role, i, k) && db1.users == db.users && j < |db.sessions|
             && db.sessions[j] == db1.sessions[i]
    ensures HeldBy(db, token, now, role, j, k)
  {
  }

  lemma ExpiryKeepsInv(db: Db, db0: Db, now: int64, signers: Signers, issued: Issued)
    requires Inv(db, signers, issued) && AdminClock(db, now) == Ok(db0)
    ensures Inv(End(db0, Stale(now)), signers, issued)
  {
    hide Inv, End;
    ClockPart(db, now, signers, issued);
    EndPart(db0, Stale(now), signers, issued);
  }

  /** A store in which only sessions, log and clock differ, the sessions being those still alive. */
  predicate Pruned(db: Db, db1: Db, now: int64) {
    && db1 == db.(sessions := db1.sessions, ledger := db1.ledger, adminHigh := db1.adminHigh)
    && db1.sessions == Remaining(db.sessions, Stale(now))
  }

  lemma TouchUses(db: Db, db1: Db, db2: Db, token: string, now: int64)
    requires Pruned(db, db1, now) && db2.sessions == db1.sessions && DistinctTokens(db1.sessions)
    ensures Used(db, Touch(db2, token, now), token, now)
  {
    RemainingMembers(db.sessions, Stale(now));
    hide Remaining, FindToken;
    var db3 := Touch(db2, token, now);
    forall i | 0 <= i < |db1.sessions| ensures db3.sessions[i] == Refreshed(db1.sessions[i], token, now) {}
    forall s' ensures s' in db3.sessions <==> exists s :: s in db.sessions && Alive(s, now) && s' == Refreshed(s, token, now)
    {
      if s' in db3.sessions {
        var i :| 0 <= i < |db3.sessions| && db3.sessions[i] == s';
        assert db1.sessions[i] in db1.sessions;
      }
      if s :| s in db.sessions && Alive(s, now) && s' == Refreshed(s, token, now) {
        assert s in db1.sessions;
        var i :| 0 <= i < |db1.sessions| && db1.sessions[i] == s;
        assert db3.sessions[i] == s';
      }
    }
  }

  /** After logging out there is nothing left to be used. */
  lemma TouchOthers(db: Db, db1: Db, db2: Db, i: nat, gone: Ending, token: string, now: int64)
    requires Pruned(db, db1, now) && i < |db1.sessions| && db1.sessions[i].token == Sha256(token) && !gone.Stale?
    requires DistinctTokens(db1.sessions) && DistinctSessions(db1.sessions) && Ends(gone, db1.sessions[i])
    requires forall x :: x in db2.sessions <==> x in db1.sessions && !Ends(gone, x)
    ensures Touch(db2, token, now) == db2 && Left(db, db2, gone, now)
  {
    RemainingMembers(db.sessions, Stale(now));
    hide Remaining, FindToken;
    forall s | s in db2.sessions ensures s.token != Sha256(token) {
      var j :| 0 <= j < |db1.sessions| && db1.sessions[j] == s;
    }
  }

  lemma PerformDid(
      db: Db, db1: Db, i: nat, op: Operation, token: string, at: Times, signers: Signers, issued: Issued)
    requires Inv(db1, signers, issued) && Pruned(db, db1, at.first) && i < |db1.sessions|
             && db1.sessions[i].token == Sha256(token) && DistinctTokens(db1.sessions)
    requires Perform(db1, db1.sessions[i], op, at).Ok?
    ensures Did(db, Touch(Perform(db1, db1.sessions[i], op, at).value, token, at.first), db1.sessions[i], op, token, at)
  {
    hide Inv, EnqueueTx, DisableTx, EndTx, IssueTokenTx, Touch, Pruned, DistinctTokens, FindUser, Remaining, Used, Left,
         Raised, Prepared, QueuedFor, Changed;
    var s := db1.sessions[i];
    var db2 := Perform(db1, s, op, at).value;
    SessionsOnly(db, db1, db2, token, at.first);
    match op
    case Read(_) => TouchUses(db, db1, db2, token, at.first);
    case IssueToken(secret, ttl, nanos) =>
      IssueEffect(db1, secret, ttl, nanos, s.user);
      TouchUses(db, db1, db2, token, at.first);
    case Submit(o) =>
      EnqueueEffect(db1, o.(actor := s.user), at);
      TouchUses(db, db1, db2, token, at.first);
    case DisableNode(agent) =>
      DisabledNode(db1, agent, signers, issued);
      TouchUses(db, db1, db2, token, at.first);
    case Logout =>
      LeavingEffect(db1, s, at, signers, issued);
      InvSessions(db1, signers, issued);
      TouchOthers(db, db1, db2, i, LoggedOut(s.id), token, at.first);
    case RevokeOwn =>
      LeavingEffect(db1, s, at, signers, issued);
      InvSessions(db1, signers, issued);
      TouchOthers(db, db1, db2, i, UserRevoked(s.user), token, at.first);
  }

  lemma SessionsOnly(db: Db, db1: Db, db2: Db, token: string, now: int64)
    requires Pruned(db, db1, now)
    ensures db1 == db.(sessions := db1.sessions, ledger := db1.ledger, adminHigh := db1.adminHigh)
    ensures Touch(db2, token, now) == db2.(sessions := Touch(db2, token, now).sessions)
  {
    hide Remaining, FindToken;
  }

  lemma DisabledNode(db: Db, agent: string, signers: Signers, issued: Issued)
    requires Inv(db, signers, issued) && DisableTx(db, agent).Ok?
    ensures var db' := DisableTx(db, agent).value;
            && db' == db.(nodes := db'.nodes, tasks := db'.tasks, ledger := db'.ledger) && |db'.nodes| == |db.nodes|
            && forall k :: 0 <= k < |db.nodes| ==>
                 db'.nodes[k] == if db.nodes[k].agent == agent then db.nodes[k].(enabled := false) else db.nodes[k]
  {
    InvParts(db, signers, issued);
    OneNode(db.nodes, db.tasks, agent);
    hide Inv, TableInv, FindNode, SignerBound, AuthInv, Accounts, SettingsOk, DisableAt, Kept, Hex, Abandoned;
    match FindNode(db.nodes, agent)
    case Some(i) =>
      if db.nodes[i].enabled { DisableEffect(db, agent, i, 1, signers, issued); }
    case None =>
  }

  predicate RefusedWith(db: Db, kind: Kind) {
    db.ledger.events != [] && db.ledger.events[|db.ledger.events| - 1].kind == kind
  }

  lemma TokensRemain(sessions: seq<SessionRow>, now: int64)
    requires DistinctTokens(sessions) && DistinctSessions(sessions)
    ensures DistinctTokens(Remaining(sessions, Stale(now)))
  {
    hide Remaining, DistinctTokens;
    RemainingDistinct(sessions, Stale(now));
    RemainingMembers(sessions, Stale(now));
    DescendsFewer(sessions, Remaining(sessions, Stale(now)));
    DescendsKeepsTokens(sessions, Remaining(sessions, Stale(now)));
  }

  // ---- The settings of task dispatch ----

  /** Only the settings and the log change, by one event, or nothing does. */
  predicate SettingsBecome(db: Db, s: Settings, kind: Kind, db': Db) {
    db' == if s == db.settings then db
           else db.(settings := s, ledger := Ledger(db.ledger.events + [Event(kind, "")], db.ledger.reserved))
  }

  /** The key with this ID is installed and may sign now. */
  ghost predicate MaySign(trust: TrustSet, id: KeyId, now: int64) {
    exists j :: 0 <= j < |trust.keys| && trust.keys[j].id == id && trust.keys[j].notBefore <= now < trust.keys[j].notAfter
  }

  predicate Loggable(db: Db, stamp: int) {
    stamp > 0 && SpaceLeft(db) >= 1
  }

  lemma MaySignIff(trust: TrustSet, id: KeyId, now: int64)
    requires Valid(trust)
    ensures InWindow(trust, Some(id), now) <==> MaySign(trust, id, now)
  {
    KeysAreDistinct(trust);
    hide Key, Valid;
    match Key(trust.keys, id)
    case None => assert forall j :: 0 <= j < |trust.keys| ==> Ids(trust.keys)[j] == trust.keys[j].id;
    case Some(k) => var j :| 0 <= j < |trust.keys| && trust.keys[j] == k;
  }

  lemma SettingsAreOk(db: Db, signers: Signers, issued: Issued)
    requires Inv(db, signers, issued)
    ensures SettingsOk(db.settings) && Sound(db.ledger) && db.ledger.reserved >= 0
    ensures db.settings.trust.Some? ==> Valid(db.settings.trust.value) && db.settings.keyId.Some?
  {
    InvParts(db, signers, issued);
    hide Inv, TableInv, AuthInv, SignerBound, Valid;
  }

  /** The raw signer is set once, to the digest of the key given; after that only the same one is accepted. */
  lemma ConfigureIff(db: Db, key: PublicKey, stamp: int, signers: Signers, issued: Issued)
    requires Inv(db, signers, issued)
    ensures var tx := Stamped(db, ConfigureSigner(db, key), stamp);
            var s := db.settings.(keyId := Some(Sha256(key)));
            && (tx.result.Ok? <==>
                  |key| == 32 && (db.settings == s || (db.settings.keyId.None? && Loggable(db, stamp))))
            && (if tx.result.Ok? then SettingsBecome(db, s, SignerConfigured, tx.db) else tx.db == db)
  {
    SettingsAreOk(db, signers, issued);
    hide Inv, SettingsOk;
  }

  /** Dispatch is paused whenever the log takes it, and resumed only inside the selected signer's window. */
  lemma PauseIff(db: Db, paused: bool, now: int64, stamp: int, signers: Signers, issued: Issued)
    requires Inv(db, signers, issued)
    ensures var tx := Stamped(db, PauseDispatch(db, paused, now), stamp);
            var s := db.settings;
            && (tx.result.Ok? <==>
                  || s.paused == paused
                  || (Loggable(db, stamp) && (paused || s.trust.None? || MaySign(s.trust.value, s.keyId.value, now))))
            && (if tx.result.Ok? then SettingsBecome(db, s.(paused := paused), DispatchChanged, tx.db) else tx.db == db)
  {
    SettingsAreOk(db, signers, issued);
    hide Inv, SettingsOk, Valid, MaySign, InWindow;
    if db.settings.trust.Some? { MaySignIff(db.settings.trust.value, db.settings.keyId.value, now); }
  }

  /** What an operator has to name as the settings to replace. */
  predicate Names(expected: Baseline, s: Settings) {
    if s.trust.None? then expected == KeyBaseline(s.keyId)
    else expected.SetBaseline? && SameTrust(expected.trust, s.trust.value)
  }

  /** Everything that is required of a set that is to replace the installed one. */
  ghost predicate Installable(db: Db, expected: Baseline, next: TrustSet, at: Times) {
    var s := db.settings;
    && Names(expected, s) && s.keyId.Some? && Accepted(s.trust, s.keyId.value, next)
    && (exists j :: 0 <= j < |next.keys| && next.keys[j].id == s.keyId.value)
    && forall i :: 0 <= i < |db.tasks| && db.tasks[i].state.Dispatched? && db.tasks[i].expiresAt > at.first ==>
                     db.tasks[i].envelope.Some?
                       && (var v := VerifyTrusted(db.tasks[i].envelope.value, next, RowTime(at, i));
                           v.Some? && v.value.payload == db.tasks[i].payload)
  }

  /** A set is installed only while dispatch is paused, from the set or key that the operator names, by a permitted
      transition that keeps the selected signer and every live envelope; installed is what was given. */
  lemma InstallIff(
      db: Db, expected: Baseline, next: TrustSet, at: Times, stamp: int, signers: Signers, issued: Issued)
    requires Inv(db, signers, issued)
    ensures var tx := Stamped(db, InstallTrust(db, expected, next, at), stamp);
            var s := db.settings;
            var there := s.trust.Some? && SameTrust(s.trust.value, next);
            && (tx.result.Ok? <==>
                  Valid(next) && s.paused && (there || (Loggable(db, stamp) && Installable(db, expected, next, at))))
            && (if tx.result.Ok? && !there then SettingsBecome(db, s.(trust := Some(next)), TrustChanged, tx.db)
                else tx.db == db)
  {
    SettingsAreOk(db, signers, issued);
    InstallableIff(db, expected, next, at);
    InstallsWhen(db, expected, next, at);
    hide Inv, SettingsOk, Valid, SameTrust, Accepted, AllLiveVerify, Ids, Installable, MatchesBaseline, InstallTrust,
         Sound;
    var tx := InstallTrust(db, expected, next, at);
    if tx.db != db { assert |tx.db.ledger.events| == |db.ledger.events| + 1; }
  }

  lemma InstallsWhen(db: Db, expected: Baseline, next: TrustSet, at: Times)
    requires SettingsOk(db.settings) && Sound(db.ledger)
    ensures var tx := InstallTrust(db, expected, next, at);
            var s := db.settings;
            var there := s.trust.Some? && SameTrust(s.trust.value, next);
            var fits := && MatchesBaseline(s, expected) && s.keyId.Some? && Accepted(s.trust, s.keyId.value, next)
                        && s.keyId.value in Ids(next.keys) && AllLiveVerify(db.tasks, next, at);
            && (tx.result.Ok? <==> Valid(next) && s.paused && (there || (SpaceLeft(db) >= 1 && fits)))
            && (if tx.result.Ok? && !there then
                  s.(trust := Some(next)) != s && SettingsBecome(db, s.(trust := Some(next)), TrustChanged, tx.db)
                else tx.db == db)
  {
    NotTheSame(db.settings, next);
    hide SettingsOk, Valid, SameTrust, Accepted, AllLiveVerify, Ids, MatchesBaseline;
  }

  lemma InstallableIff(db: Db, expected: Baseline, next: TrustSet, at: Times)
    ensures Installable(db, expected, next, at) <==>
              var s := db.settings;
              && MatchesBaseline(s, expected) && s.keyId.Some? && Accepted(s.trust, s.keyId.value, next)
              && s.keyId.value in Ids(next.keys) && AllLiveVerify(db.tasks, next, at)
  {
    SelectedIn(next, db.settings);
    LiveIff(db, next, at);
    hide SameTrust, Accepted, AllLiveVerify, Ids, VerifyTrusted, RowTime;
  }

  lemma NotTheSame(s: Settings, next: TrustSet)
    ensures s.trust == Some(next) ==> SameTrust(s.trust.value, next)
  {
  }

  lemma SelectedIn(next: TrustSet, s: Settings)
    ensures s.keyId.Some? ==>
              (s.keyId.value in Ids(next.keys) <==> exists j :: 0 <= j < |next.keys| && next.keys[j].id == s.keyId.value)
  {
    assert forall j :: 0 <= j < |next.keys| ==> Ids(next.keys)[j] == next.keys[j].id;
  }

  lemma LiveIff(db: Db, next: TrustSet, at: Times)
    ensures AllLiveVerify(db.tasks, next, at) <==>
              forall i :: 0 <= i < |db.tasks| && db.tasks[i].state.Dispatched? && db.tasks[i].expiresAt > at.first ==>
                            db.tasks[i].envelope.Some?
                              && (var v := VerifyTrusted(db.tasks[i].envelope.value, next, RowTime(at, i));
                                  v.Some? && v.value.payload == db.tasks[i].payload)
  {
    hide VerifyTrusted, RowTime;
  }

  /** The signer changes to the one asked for: an installed key inside its window, while dispatch is paused and nothing
      waits to be signed. */
  lemma SwitchIff(db: Db, id: KeyId, now: int64, stamp: int, signers: Signers, issued: Issued)
    requires Inv(db, signers, issued)
    ensures var tx := Stamped(db, SwitchSigner(db, id, now), stamp);
            var s := db.settings;
            && (tx.result.Ok? <==>
                  && s.paused && s.trust.Some? && MaySign(s.trust.value, id, now)
                  && (s.keyId == Some(id)
                      || (Loggable(db, stamp) && forall i :: 0 <= i < |db.tasks| ==> db.tasks[i].state != Queued)))
            && (if tx.result.Ok? then SettingsBecome(db, s.(keyId := Some(id)), SignerSelected, tx.db) else tx.db == db)
  {
    SettingsAreOk(db, signers, issued);
    hide Inv, SettingsOk, Valid, MaySign, InWindow;
    if db.settings.trust.Some? { MaySignIff(db.settings.trust.value, id, now); }
  }

  /** Cancelling for a change of signer needs dispatch paused; it rejects exactly the tasks that were not sent yet. */
  lemma CancelIff(db: Db, signers: Signers, issued: Issued)
    requires Inv(db, signers, issued)
    ensures var tx := CancelQueuedTasks(db);
            && (tx.result.Ok? <==> db.settings.paused)
            && (tx.result.Err? ==> tx.db == db)
            && (tx.result.Ok? ==>
                  && tx.db == db.(tasks := tx.db.tasks, ledger := tx.db.ledger) && |tx.db.tasks| == |db.tasks|
                  && forall i :: 0 <= i < |db.tasks| ==>
                       tx.db.tasks[i] == if db.tasks[i].state.Queued? then
                         db.tasks[i].(state := Terminal(Rejected), closing := SignerChanged) else db.tasks[i])
  {
    SettingsAreOk(db, signers, issued);
    hide Inv, SettingsOk, CloseTx, SweepEvents, SweptRows;
    CloseSucceeds(db, CancelQueued, signers, issued);
  }

  // ---- Nothing else changes them ----

  /** The same accounts with the same name, password, role and state, of no earlier generation. */
  predicate SameAccounts(users: seq<UserRow>, users': seq<UserRow>) {
    |users'| == |users|
    && forall i :: 0 <= i < |users| ==>
         users'[i] == users[i].(generation := users'[i].generation) && users'[i].generation >= users[i].generation
  }

  /** Settings, names, passwords, roles and states of accounts stay. */
  predicate Untouched(db: Db, db': Db) {
    db'.settings == db.settings && SameAccounts(db.users, db'.users)
  }

  lemma UntouchedSame(db: Db, db': Db)
    requires db'.settings == db.settings && db'.users == db.users
    ensures Untouched(db, db')
  {
  }

  lemma CloseTouchesNothing(db: Db, c: Sweep)
    ensures CloseTx(db, c).Ok? ==> CloseTx(db, c).value.users == db.users && CloseTx(db, c).value.settings == db.settings
  {
    hide CloseTx, SweptRows;
    CloseTxShape(db, c);
  }

  lemma DisableAtTouchesNothing(db: Db, i: nat)
    requires i < |db.nodes|
    ensures DisableAt(db, i).Ok? ==>
              DisableAt(db, i).value.users == db.users && DisableAt(db, i).value.settings == db.settings
  {
    hide CloseTx;
    CloseTouchesNothing(db.(nodes := db.nodes[i := db.nodes[i].(enabled := false)]), CancelNode(db.nodes[i].agent));
  }

  lemma DisableTouchesNothing(db: Db, agent: string)
    ensures DisableTx(db, agent).Ok? ==>
              DisableTx(db, agent).value.users == db.users && DisableTx(db, agent).value.settings == db.settings
  {
    hide DisableAt, Hex, FindNode;
    match FindNode(db.nodes, agent)
    case None =>
    case Some(i) => DisableAtTouchesNothing(db, i);
  }

  lemma {:induction false} DisableAllTouchesNothing(db: Db, n: nat)
    ensures DisableAll(db, n).Ok? ==>
              DisableAll(db, n).value.users == db.users && DisableAll(db, n).value.settings == db.settings
    decreases n
  {
    hide DisableAt, FirstEnabled;
    if n > 0 && FirstEnabled(db.nodes).Some? {
      var i := FirstEnabled(db.nodes).value;
      DisableAtTouchesNothing(db, i);
      if DisableAt(db, i).Ok? { DisableAllTouchesNothing(DisableAt(db, i).value, n - 1); }
    }
  }

  lemma EnqueueTouchesNothing(db: Db, o: Order, at: Times)
    ensures EnqueueTx(db, o, at).Ok? ==> Untouched(db, EnqueueTx(db, o, at).value)
  {
    if EnqueueTx(db, o, at).Ok? {
      hide EnqueueTx;
      EnqueueEffect(db, o, at);
    }
  }

  lemma EndTouchesNothing(db: Db, e: Ending)
    ensures EndTx(db, e).Ok? ==> EndTx(db, e).value.users == db.users && EndTx(db, e).value.settings == db.settings
  {
    hide EndTx, Remaining;
    EndTxShape(db, e);
  }

  lemma PerformTouchesNothing(db: Db, s: SessionRow, op: Operation, at: Times)
    ensures Perform(db, s, op, at).Ok? ==> Untouched(db, Perform(db, s, op, at).value)
  {
    hide EnqueueTx, DisableTx, EndTx, LiveTokens, FindUser, Wrap64;
    match op
    case Submit(o) => EnqueueTouchesNothing(db, o.(actor := s.user), at);
    case DisableNode(agent) => DisableTouchesNothing(db, agent);
    case Logout => EndTouchesNothing(db, LoggedOut(s.id));
    case RevokeOwn => EndTouchesNothing(db, UserRevoked(s.user));
    case _ =>
  }

  lemma ManageTouchesNothing(db: Db, token: string, op: Operation, at: Times)
    ensures Untouched(db, Manage(db, token, op, at).db)
  {
    hide Perform, EndTx, Authorize, FindToken, FindUser, Privileged;
    if AdminClock(db, at.first).Ok? {
      var db0 := AdminClock(db, at.first).value;
      EndTouchesNothing(db0, Stale(at.first));
      if EndTx(db0, Stale(at.first)).Ok? {
        var db1 := EndTx(db0, Stale(at.first)).value;
        match Authorize(db1, token, at.first)
        case None =>
        case Some(i) => PerformTouchesNothing(db1, db1.sessions[i], op, at);
      }
    }
  }

  lemma FinishLoginTouchesNothing(
      db: Db, attempt: Attempt, matched: bool, id: string, token: string, now: int64)
    ensures Untouched(db, FinishLogin(db, attempt, matched, id, token, now).db)
  {
    hide EndTx, StillCurrent, FreshSession, Sum, Wrap64;
    if AdminClock(db, now).Ok? { EndTouchesNothing(AdminClock(db, now).value, Stale(now)); }
  }

  lemma PollTouchesNothing(
      db: Db, agent: string, epoch: string, credential: bool, digest: string, key: PublicKey, at: Times)
    ensures Untouched(db, Poll(db, agent, epoch, credential, digest, key, at).db)
  {
    hide Poll, EnabledNodeIs, HandsOut, NoneOverdue, AllOvertaken, Handed, Next, Hex;
    PollEffect(db, agent, epoch, credential, digest, key, at);
  }

  lemma QuarantineTouchesNothing(db: Db)
    ensures Untouched(db, QuarantineRestore(db).db)
  {
    hide DisableAll, Consumed, Bumped;
    DisableAllTouchesNothing(db, |db.nodes|);
  }

  predicate ChangesSettings(op: Op) {
    op.Configure? || op.Pause? || op.Install? || op.Switch?
  }

  /** Only the four operations on them change the settings; only creating and changing accounts changes an account, but
      that generations may rise. */
  lemma OnlyOperatorsChange(w: World, op: Op, at: Times)
    ensures !ChangesSettings(op) ==> NextDb(w, op, at).settings == w.db.settings
    ensures !op.AddUser? && !op.AlterUser? ==> SameAccounts(w.db.users, NextDb(w, op, at).users)
  {
    hide EnqueueTx, DisableTx, Manage, QuarantineRestore, CloseTx, FinishLogin, Poll, SettingsOk;
    var db := w.db;
    match op
    case Enqueue(o) => EnqueueTouchesNothing(db, o, at);
    case DisableLocally(agent) => DisableTouchesNothing(db, agent);
    case PollTask(agent, epoch, credential, digest, key) =>
      PollTouchesNothing(db, agent, epoch, credential, digest, key, at);
    case CancelForSwitch => CloseTouchesNothing(db, CancelQueued);
    case Quarantine => QuarantineTouchesNothing(db);
    case Administer(token, operation) => ManageTouchesNothing(db, token, operation, at);
    case EndLogin(i, matched, id, token) =>
      if i < |w.attempts| { FinishLoginTouchesNothing(db, w.attempts[i], matched, id, token, at.first); }
    case _ =>
      if op.AddUser? || op.AlterUser? || op.RevokeEverySession? || op.BeginLogin? { AccountStepsTouch(w, op, at); }
      else if ChangesSettings(op) { SettingsStepsTouch(w, op, at); }
      else { NodeStepsTouch(w, op, at); }
  }

  lemma AccountStepsTouch(w: World, op: Op, at: Times)
    requires op.AddUser? || op.AlterUser? || op.RevokeEverySession? || op.BeginLogin?
    ensures NextDb(w, op, at).settings == w.db.settings
    ensures op.RevokeEverySession? || op.BeginLogin? ==> SameAccounts(w.db.users, NextDb(w, op, at).users)
  {
    hide FindUser, FindName, Bumped, Remaining;
  }

  lemma SettingsStepsTouch(w: World, op: Op, at: Times)
    requires ChangesSettings(op)
    ensures NextDb(w, op, at).users == w.db.users
  {
    hide SettingsOk, AllLiveVerify, Valid, Accepted, SameTrust, NoneQueued, InWindow, MatchesBaseline, Sound, Ids;
  }

  lemma NodeStepsTouch(w: World, op: Op, at: Times)
    requires op.IssueEnrolment? || op.Enroll? || op.RenewCredential? || op.RevokeCredential? || op.Beat? || op.Submit?
             || op.LocalRead?
    ensures Untouched(w.db, NextDb(w, op, at))
  {
    hide FindLive, Hex, IsEnabled, LiveTokens, RegistrationOk, FindTask, ResultError, DecodeResult, FindNode, Wrap64;
  }

  lemma AddKeepsNames(db: Db, user: UserRow)
    requires DistinctNames(db.users)
    ensures DistinctNames(CreateUser(db, user).db.users)
  {
    hide FindUser, FindName;
  }

  lemma AlterKeepsNames(db: Db, name: string, c: Change)
    requires DistinctNames(db.users)
    ensures DistinctNames(ChangeUser(db, name, c).db.users)
  {
    hide FindName, Remaining;
  }

  /** In every run no two accounts share a name. */
  lemma {:induction false} NamesAreDistinct(now: int64, steps: seq<Step>)
    ensures DistinctNames(After(Start(now), steps).db.users)
  {
    hide NextDb, NextIssued, NextAttempts, Recorded;
    if steps != [] {
      var n := |steps| - 1;
      var w := After(Start(now), steps[..n]);
      NamesAreDistinct(now, steps[..n]);
      StepKeepsNames(w, steps[n].op, steps[n].at);
    }
  }

  lemma StepKeepsNames(w: World, op: Op, at: Times)
    requires DistinctNames(w.db.users)
    ensures DistinctNames(NextDb(w, op, at).users)
  {
    if op.AddUser? {
      hide CreateUser;
      AddKeepsNames(w.db, op.user);
    } else if op.AlterUser? {
      hide ChangeUser;
      AlterKeepsNames(w.db, op.name, op.change);
    } else {
      hide NextDb;
      OnlyOperatorsChange(w, op, at);
    }
  }
}
