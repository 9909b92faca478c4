/** Accounts, sessions and remote administration keep the invariant (internal/state/admin.go,
    internal/state/management.go). */
module ServerAccounts {
  import opened Core
  import opened Tables
  import opened Text
  import opened Ledgers
  import opened Trust
  import opened ServerState
  import opened ServerInvariants
  import opened ServerTransactions

  lemma {:induction false} RemainingAll(sessions: seq<SessionRow>, e: Ending)
    ensures |Remaining(sessions, e)| == |sessions| <==> forall i :: 0 <= i < |sessions| ==> !Ends(e, sessions[i])
  {
    hide Ends;
    if sessions != [] {
      var n := |sessions| - 1;
      RemainingAll(sessions[..n], e);
    }
  }

  lemma RevokedAreGone(sessions: seq<SessionRow>, user: string)
    ensures forall i ::
              0 <= i < |Remaining(sessions, UserRevoked(user))| ==>
                Remaining(sessions, UserRevoked(user))[i].user != user
  {
    RemainingMembers(sessions, UserRevoked(user));
    var rest := Remaining(sessions, UserRevoked(user));
    forall i | 0 <= i < |rest| ensures rest[i].user != user { assert rest[i] in rest; }
  }

  lemma NoSessionsIff(db: Db, user: string)
    ensures |Remaining(db.sessions, UserRevoked(user))| == |db.sessions| <==> !HasSessions(db, user)
  {
    hide Remaining;
    RemainingAll(db.sessions, UserRevoked(user));
  }

  /** Same tasks, nodes and settings. */
  predicate SameDispatch(db: Db, db1: Db) {
    db1.tasks == db.tasks && db1.nodes == db.nodes && db1.settings == db.settings
  }

  lemma ReservedIsPositive(db: Db, signers: Signers, issued: Issued)
    requires Inv(db, signers, issued)
    ensures db.ledger.reserved >= 0 && SpaceLeft(db) >= 0 && DistinctUsers(db.users)
  {
    hide TableInv, SignerBound, DistinctSessions, SessionBounds, Expected;
  }

  lemma EndPart(db: Db, e: Ending, signers: Signers, issued: Issued)
    requires Inv(db, signers, issued)
    ensures Inv(End(db, e), signers, issued) && SameDispatch(db, End(db, e)) && End(db, e).users == db.users
  {
    hide TableInv, SignerBound, AuthInv, Accounts, SettingsOk, Remaining;
    EndAccounts(db, e);
    EndKeepsAuth(db.users, db.sessions, issued, e);
  }

  lemma ClockPart(db: Db, now: int64, signers: Signers, issued: Issued)
    requires Inv(db, signers, issued) && AdminClock(db, now).Ok?
    ensures var db' := AdminClock(db, now).value;
            Inv(db', signers, issued) && SameDispatch(db, db') && db'.users == db.users
              && db'.sessions == db.sessions && db'.ledger == db.ledger
  {
    hide TableInv, SignerBound, AuthInv, SettingsOk;
  }

  /** Preparatory work that leaves tasks, nodes and settings alone can be put before any kept transaction. */
  lemma QuietThen(db: Db, db1: Db, db2: Db, signers: Signers, issued: Issued, issued': Issued, at: Times)
    requires SameDispatch(db, db1) && Kept(db1, db2, signers, issued, issued', at)
    ensures Kept(db, db2, signers, issued, issued', at)
  {
    hide Inv, History, LiveVerified, InOrder;
  }

  lemma CreateUserKept(db: Db, user: UserRow, at: Times, signers: Signers, issued: Issued)
    requires Inv(db, signers, issued)
    ensures Kept(db, CreateUser(db, user).db, signers, issued, issued, at)
  {
    hide Inv, Kept, AuthInv;
    UnchangedKept(db, signers, issued, at);
    InvParts(db, signers, issued);
    if FindUser(db.users, user.id).None? && |db.users| < MAX_USERS {
      var u := user.(enabled := true, generation := 1);
      AddUserKeepsAuth(db.users, db.sessions, issued, u);
      NotePart(db, db.(users := db.users + [u]), UserCreated, user.id, signers, issued, at);
    }
  }

  predicate HasSessions(db: Db, user: string) {
    exists i :: 0 <= i < |db.sessions| && db.sessions[i].user == user
  }

  /** The account-change path runs far enough to write its event. */
  predicate Changeable(db: Db, name: string, c: Change) {
    var i := FindName(db.users, name);
    i.Some? && (db.users[i.value].enabled || c.RevokeAccount?)
  }

  /** Slots given back by one aggregate event match the sessions it ended. */
  lemma AggregatePart(db: Db, db1: Db, kind: Kind, subject: string, signers: Signers, issued: Issued, at: Times)
    requires Inv(db, signers, issued) && SameDispatch(db, db1) && db1.ledger == db.ledger
             && |db1.sessions| <= |db.sessions|
    requires AuthInv(db1.users, db1.sessions, issued)
    ensures var r := Note(db1, kind, subject, |db1.sessions| - |db.sessions|);
            && (r.Ok? ==> Kept(db, r.value, signers, issued, issued, at))
            && (r.Err? <==> Full(db) && |db1.sessions| == |db.sessions|)
            && (r.Err? ==> r.error == AuditFailed(AuditFull))
  {
    var delta := |db1.sessions| - |db.sessions|;
    assert Accounts(db, 0);
    NoteAccounts(db, db1, kind, subject, delta);
    hide Inv, Kept, AuthInv;
    var r := Note(db1, kind, subject, delta);
    if r.Ok? { QuietKept(db, r.value, signers, issued, issued, at); }
  }

  /** Account changes keep everything. Full audit capacity stops one exactly when the account has no
      session whose slot it could use. */
  lemma ChangeUserKept(db: Db, name: string, c: Change, at: Times, signers: Signers, issued: Issued)
    requires Inv(db, signers, issued)
    ensures var tx := ChangeUser(db, name, c);
            && Kept(db, tx.db, signers, issued, issued, at)
            && (tx.result.Err? && tx.result.error.AuditFailed? <==>
                  Changeable(db, name, c) && Full(db) && !HasSessions(db, db.users[FindName(db.users, name).value].id))
  {
    hide Inv, Kept, AuthInv, Full, Note, Remaining, HasSessions;
    UnchangedKept(db, signers, issued, at);
    InvParts(db, signers, issued);
    match FindName(db.users, name)
    case None =>
    case Some(i) =>
      var u := db.users[i];
      var e := UserRevoked(u.id);
      var rest := Remaining(db.sessions, e);
      NoSessionsIff(db, u.id);
      RevokedAreGone(db.sessions, u.id);
      EndKeepsAuth(db.users, db.sessions, issued, e);
      ChangeKeepsAuth(db.users, rest, issued, i, Changed(u, c));
      AggregatePart(db, db.(sessions := rest, users := db.users[i := Changed(u, c)]), UserChanged, u.id, signers,
          issued, at);
  }

  lemma NoSessionsAuth(users: seq<UserRow>, sessions: seq<SessionRow>, issued: Issued)
    requires AuthInv(users, sessions, issued)
    ensures AuthInv(Bumped(users), [], issued)
  {
  }

  /** Ending all sessions is stopped by a full log exactly when there are none. */
  lemma DropAllKept(db: Db, kind: Kind, at: Times, signers: Signers, issued: Issued)
    requires Inv(db, signers, issued)
    ensures var r := DropAll(db, kind);
            && (r.Ok? ==> Kept(db, r.value, signers, issued, issued, at) && r.value.sessions == [])
            && (r.Err? <==> Full(db) && db.sessions == []) && (r.Err? ==> r.error == AuditFailed(AuditFull))
  {
    hide Inv, Kept, AuthInv, Full;
    InvParts(db, signers, issued);
    NoSessionsAuth(db.users, db.sessions, issued);
    AggregatePart(db, db.(sessions := [], users := Bumped(db.users)), kind, "", signers, issued, at);
  }

  lemma RevokeAllKept(db: Db, at: Times, signers: Signers, issued: Issued)
    requires Inv(db, signers, issued)
    ensures var tx := RevokeAllSessions(db);
            Kept(db, tx.db, signers, issued, issued, at) && (tx.result.Err? <==> Full(db) && db.sessions == [])
  {
    hide Inv, Kept, Full, DropAll;
    UnchangedKept(db, signers, issued, at);
    DropAllKept(db, AllSessionsRevoked, at, signers, issued);
  }

  lemma KeptThen(db: Db, db1: Db, db2: Db, signers: Signers, issued: Issued, at: Times)
    requires Kept(db, db1, signers, issued, issued, Times(at.first, at.first, at.first)) && |db1.tasks| == |db.tasks|
    requires Kept(db1, db2, signers, issued, issued, at) && |db2.tasks| == |db.tasks|
    ensures Kept(db, db2, signers, issued, issued, at)
  {
    hide Inv, History, Live;
    HistoryTransitive(db.tasks, db1.tasks, db2.tasks);
  }

  /** Net effect on the log of closing tasks: each queued one frees a slot for good, a dispatched one only pays for
      its own event. */
  function QueuedRows(): TaskRow -> nat {
    (r: TaskRow) => if r.state.Queued? then 1 else 0
  }

  function Used(db: Db): int {
    |db.ledger.events| + db.ledger.reserved
  }

  lemma {:induction false} SweepUsed(tasks: seq<TaskRow>, agent: string)
    ensures |SweepEvents(tasks, CancelNode(agent))| - Sum(tasks, PickedSlots(CancelNode(agent)))
            == Sum(SweptRows(tasks, CancelNode(agent)), QueuedRows()) - Sum(tasks, QueuedRows())
  {
    if tasks != [] {
      var n := |tasks| - 1;
      SweepUsed(tasks[..n], agent);
      SumAppend(SweptRows(tasks[..n], CancelNode(agent)), Swept(CancelNode(agent), tasks[n]), QueuedRows());
    }
  }

  lemma DisableUsed(db: Db, i: nat, signers: Signers, issued: Issued)
    requires Inv(db, signers, issued) && i < |db.nodes| && db.nodes[i].enabled && DisableAt(db, i).Ok?
    ensures Used(DisableAt(db, i).value) - Used(db) ==
            Sum(DisableAt(db, i).value.tasks, QueuedRows()) - Sum(db.tasks, QueuedRows())
  {
    hide CloseTx, TasksOk, SweptRows, SweepEvents, SignerBound, AuthInv, TableInv;
    InvParts(db, signers, issued);
    TableTasksOk(db);
    var db1 := db.(nodes := db.nodes[i := db.nodes[i].(enabled := false)]);
    SumUpdate(db.nodes, i, db.nodes[i].(enabled := false), EnabledNode());
    SweepSucceeds(db1, CancelNode(db.nodes[i].agent), 1);
    SweepUsed(db.tasks, db.nodes[i].agent);
  }

  /** Quarantine disables every node without failing, and afterwards the log holds one entry less for
      every queued task it closed. */
  lemma {:induction false} DisableAllKept(db: Db, n: nat, at: Times, signers: Signers, issued: Issued)
    requires Inv(db, signers, issued) && Sum(db.nodes, EnabledNode()) <= n
    ensures DisableAll(db, n).Ok?
    ensures var db1 := DisableAll(db, n).value;
            && Kept(db, db1, signers, issued, issued, Times(at.first, at.first, at.first))
            && |db1.tasks| == |db.tasks| && db1.sessions == db.sessions && db1.users == db.users
            && (forall k :: 0 <= k < |db1.nodes| ==> !db1.nodes[k].enabled) && |db1.nodes| == |db.nodes|
            && Used(db1) - Used(db) == Sum(db1.tasks, QueuedRows()) - Sum(db.tasks, QueuedRows())
    decreases n
  {
    hide Inv, Kept, DisableAt, Used, Sum, FirstEnabled;
    var now := Times(at.first, at.first, at.first);
    UnchangedKept(db, signers, issued, now);
    match FirstEnabled(db.nodes)
    case None =>
    case Some(i) =>
      SumPositive(db.nodes, i, EnabledNode());
      DisablePart(db, i, signers, issued, now);
      DisableUsed(db, i, signers, issued);
      var db1 := DisableAt(db, i).value;
      SameSigners(db, db1, signers, issued, now);
      SumUpdate(db.nodes, i, db.nodes[i].(enabled := false), EnabledNode());
      DisableAllKept(db1, n - 1, at, signers, issued);
      KeptThen(db, db1, DisableAll(db1, n - 1).value, signers, issued, now);
  }

  lemma {:induction false} EnabledAtMost(nodes: seq<NodeRow>)
    ensures Sum(nodes, EnabledNode()) <= |nodes|
  {
    if nodes != [] { EnabledAtMost(nodes[..|nodes| - 1]); }
  }

  /** The order of disabling is that of node IDs: the first enabled node precedes every other. */
  lemma {:induction false} FirstIsLeast(nodes: seq<NodeRow>, j: nat)
    requires j < |nodes| && nodes[j].enabled
    ensures FirstEnabled(nodes).Some?
    ensures var least := nodes[FirstEnabled(nodes).value].agent;
            least == nodes[j].agent || TextBefore(least, nodes[j].agent)
  {
    hide TextBefore;
    var n := |nodes| - 1;
    var last := nodes[n].agent;
    if j < n {
      FirstIsLeast(nodes[..n], j);
      var least := nodes[FirstEnabled(nodes[..n]).value].agent;
      TextOrder(last, least, nodes[j].agent);
    } else if FirstEnabled(nodes[..n]).Some? {
      var least := nodes[FirstEnabled(nodes[..n]).value].agent;
      TextOrder(last, least, last);
    }
  }

  lemma SameSigners(db: Db, db1: Db, signers: Signers, issued: Issued, at: Times)
    requires Kept(db, db1, signers, issued, issued, at) && |db1.tasks| == |db.tasks|
    ensures Inv(db1, signers, issued)
  {
    hide Inv, History, Live;
  }

  lemma {:induction false} NoneLeftQueued(tasks: seq<TaskRow>)
    requires forall i :: 0 <= i < |tasks| ==> tasks[i].state.Terminal?
    ensures Sum(tasks, QueuedRows()) == 0
  {
    SumZero(tasks, QueuedRows());
  }

  lemma NothingUnresolved(db: Db, signers: Signers, issued: Issued)
    requires Inv(db, signers, issued) && forall k :: 0 <= k < |db.nodes| ==> !db.nodes[k].enabled
    ensures forall i :: 0 <= i < |db.tasks| ==> db.tasks[i].state.Terminal?
  {
    hide TasksOk, Queues, AuthInv, SignerBound, Accounts, DistinctAgents;
    forall i | 0 <= i < |db.tasks| ensures db.tasks[i].state.Terminal? {
      assert HasNode(db.nodes, db.tasks[i]);
      var k :| 0 <= k < |db.nodes| && NodeFor(db.nodes[k], db.tasks[i]);
    }
  }

  /** Quarantine disables every node, closes every unresolved task, ends every session and consumes every
      enrolment token. A full log stops it exactly when there is neither a session nor a queued task to free a slot. */
  lemma QuarantineKept(db: Db, at: Times, signers: Signers, issued: Issued)
    requires Inv(db, signers, issued)
    ensures var tx := QuarantineRestore(db);
            && Kept(db, tx.db, signers, issued, issued, at)
            && (tx.result.Err? <==> Full(db) && db.sessions == [] && Sum(db.tasks, QueuedRows()) == 0)
            && (tx.result.Ok? ==> Quarantined(tx.db))
  {
    hide Inv, Kept, DropAll, DisableAll;
    UnchangedKept(db, signers, issued, at);
    EnabledAtMost(db.nodes);
    DisableAllKept(db, |db.nodes|, at, signers, issued);
    var db1 := DisableAll(db, |db.nodes|).value;
    SameSigners(db, db1, signers, issued, Times(at.first, at.first, at.first));
    NothingUnresolved(db1, signers, issued);
    NoneLeftQueued(db1.tasks);
    var db2 := db1.(tokens := Consumed(db1.tokens));
    TokensKept(db, db1, db2, signers, issued, Times(at.first, at.first, at.first));
    DropAllKept(db2, RestoreQuarantined, at, signers, issued);
    UsedWithin(db, signers, issued);
    DropAllTasks(db2);
    if DropAll(db2, RestoreQuarantined).Ok? {
      KeptThen(db, db2, DropAll(db2, RestoreQuarantined).value, signers, issued, at);
    }
  }

  predicate Quarantined(db: Db) {
    && db.sessions == [] && (forall i :: 0 <= i < |db.nodes| ==> !db.nodes[i].enabled)
    && (forall i :: 0 <= i < |db.tasks| ==> db.tasks[i].state.Terminal?)
    && (forall i :: 0 <= i < |db.tokens| ==> db.tokens[i].consumed)
  }

  /** Tokens play no part in the invariant. */
  lemma TokensKept(db: Db, db1: Db, db2: Db, signers: Signers, issued: Issued, at: Times)
    requires Kept(db, db1, signers, issued, issued, at) && |db1.tasks| == |db.tasks|
             && db2 == db1.(tokens := db2.tokens)
    ensures Kept(db, db2, signers, issued, issued, at) && Inv(db2, signers, issued)
  {
    hide Body, History, LiveVerified, InOrder, Sum;
    assert Body(db2, signers, issued) by { BodyIgnoresTokens(db1, db2, signers, issued); }
  }

  lemma BodyIgnoresTokens(db1: Db, db2: Db, signers: Signers, issued: Issued)
    requires Body(db1, signers, issued) && db2 == db1.(tokens := db2.tokens)
    ensures Body(db2, signers, issued)
  {
    hide TableInv, SettingsOk, SignerBound, AuthInv;
  }

  lemma UsedWithin(db: Db, signers: Signers, issued: Issued)
    requires Inv(db, signers, issued)
    ensures Used(db) <= CAPACITY
  {
  }

  lemma DropAllTasks(db: Db)
    ensures DropAll(db, RestoreQuarantined).Ok? ==>
              DropAll(db, RestoreQuarantined).value ==
                db.(sessions := [], users := Bumped(db.users), ledger := DropAll(db, RestoreQuarantined).value.ledger)
  {
  }

  // ---- Login ----

  lemma NoteThen(db: Db, db1: Db, kind: Kind, subject: string, signers: Signers, issued: Issued, at: Times)
    requires Inv(db1, signers, issued) && SameDispatch(db, db1)
    ensures var r := Note(db1, kind, subject, 0); r.Ok? ==> Kept(db, r.value, signers, issued, issued, at)
  {
    hide Inv, Kept, AuthInv, Accounts;
    InvParts(db1, signers, issued);
    NotePart(db1, db1, kind, subject, signers, issued, at);
    var r := Note(db1, kind, subject, 0);
    if r.Ok? { QuietThen(db, db1, r.value, signers, issued, issued, at); }
  }

  lemma StartLoginKept(db: Db, name: string, budget: Budget, at: Times, signers: Signers, issued: Issued)
    requires Inv(db, signers, issued)
    ensures Kept(db, StartLogin(db, name, budget, at.first).db, signers, issued, issued, at)
  {
    hide Inv, Kept, AdminClock, Note;
    UnchangedKept(db, signers, issued, at);
    if AdminClock(db, at.first).Ok? {
      var db1 := AdminClock(db, at.first).value;
      ClockPart(db, at.first, signers, issued);
      UnchangedKept(db1, signers, issued, at);
      QuietThen(db, db1, db1, signers, issued, issued, at);
      NoteThen(db, db1, LoginLimited, "", signers, issued, at);
      NoteThen(db, db1, LoginAttempted, "", signers, issued, at);
    }
  }

  function IssuedBy(issued: Issued, tx: Tx<string>, id: string, attempt: Attempt): Issued {
    if tx.result.Ok? && attempt.Some? then issued[id := attempt.value] else issued
  }

  lemma SessionPart(db: Db, u: UserRow, s: SessionRow, signers: Signers, issued: Issued, at: Times)
    requires Inv(db, signers, issued) && StillCurrent(db.users, u) && s.user == u.id
    requires forall i :: 0 <= i < |db.sessions| ==> db.sessions[i].id != s.id
    requires |db.sessions| < MAX_SESSIONS && Sum(db.sessions, OwnedBy(u.id)) < MAX_OWNED
    ensures var r := Note(db.(sessions := db.sessions + [s]), LoginSucceeded, u.id, 1);
            r.Ok? ==> Kept(db, r.value, signers, issued, issued[s.id := u], at)
  {
    var db1 := db.(sessions := db.sessions + [s]);
    InvParts(db, signers, issued);
    assert Accounts(db1, -1);
    NoteAccounts(db, db1, LoginSucceeded, u.id, 1);
    hide Inv, Kept, AuthInv, StillCurrent;
    LoginKeepsAuth(db.users, db.sessions, issued, s, u);
    var r := Note(db1, LoginSucceeded, u.id, 1);
    if r.Ok? { QuietKept(db, r.value, signers, issued, issued[s.id := u], at); }
  }

  /** The second half of a login: whatever happened since the first, a session is only issued under the
      account's present generation, password and role. */
  lemma FinishLoginKept(
      db: Db, attempt: Attempt, matched: bool, id: string, token: string, at: Times, signers: Signers, issued: Issued)
    requires Inv(db, signers, issued)
    ensures var tx := FinishLogin(db, attempt, matched, id, token, at.first);
            Kept(db, tx.db, signers, issued, IssuedBy(issued, tx, id, attempt), at)
  {
    hide Inv, Kept, AdminClock, Note, StillCurrent, End, EndTx, Sum;
    UnchangedKept(db, signers, issued, at);
    if AdminClock(db, at.first).Ok? {
      var db1 := AdminClock(db, at.first).value;
      ClockPart(db, at.first, signers, issued);
      EndsSucceed(db1, Stale(at.first), signers, issued);
      NoteThen(db, db1, LoginFailed, "", signers, issued, at);
      if attempt.Some? && StillCurrent(db.users, attempt.value) {
        var u := attempt.value;
        var db2 := End(db1, Stale(at.first));
        EndPart(db1, Stale(at.first), signers, issued);
        NoteThen(db, db2, LoginFailed, u.id, signers, issued, at);
        var s := SessionRow(id, Sha256(token), u.id, at.first, at.first, Wrap64(at.first + SESSION_LIFETIME));
        if FreshSession(db2, id, Sha256(token)) && |db2.sessions| < MAX_SESSIONS
           && Sum(db2.sessions, OwnedBy(u.id)) < MAX_OWNED {
          SessionPart(db2, u, s, signers, issued, at);
          var r := Note(db2.(sessions := db2.sessions + [s]), LoginSucceeded, u.id, 1);
          if r.Ok? { QuietThen(db, db2, r.value, signers, issued, issued[id := u], at); }
        }
      }
    }
  }

  // ---- Remote administration ----

  lemma EndsSucceed(db: Db, e: Ending, signers: Signers, issued: Issued)
    requires Inv(db, signers, issued)
    ensures EndTx(db, e) == Ok(End(db, e))
  {
    hide Inv, EndTx, End;
    LoopsSucceed(db, CancelQueued, e, signers, issued);
  }

  lemma IssueTokenKept(
      db: Db, token: string, ttl: int, nanos: int, actor: string, at: Times, signers: Signers, issued: Issued)
    requires Inv(db, signers, issued)
    ensures var r := IssueTokenTx(db, token, ttl, nanos, actor);
            r.Ok? ==> Kept(db, r.value, signers, issued, issued, at)
  {
    hide Inv, Kept, LiveTokens, Note;
    var r := IssueTokenTx(db, token, ttl, nanos, actor);
    if r.Ok? {
      var db1 := db.(tokens := r.value.tokens);
      UnchangedKept(db, signers, issued, at);
      TokensKept(db, db, db1, signers, issued, at);
      NoteThen(db, db1, TokenIssued, actor, signers, issued, at);
    }
  }

  /** A renewed certificate adds its fingerprint and an event. */
  lemma AddCredentialKept(db: Db, fingerprint: string, at: Times, signers: Signers, issued: Issued)
    requires Inv(db, signers, issued)
    ensures Kept(db, AddCredential(db, fingerprint).db, signers, issued, issued, at)
  {
    hide Kept, TableInv, SignerBound, AuthInv, SettingsOk, Note;
    UnchangedKept(db, signers, issued, at);
    var db1 := db.(fingerprints := db.fingerprints + {fingerprint});
    assert Inv(db1, signers, issued);
    hide Inv;
    NoteThen(db, db1, CertificateRenewed, "", signers, issued, at);
  }

  lemma RevokeOwnPart(db: Db, user: string, signers: Signers, issued: Issued, at: Times)
    requires Inv(db, signers, issued) && FindUser(db.users, user).Some?
    ensures var db1 := End(db, UserRevoked(user));
            var i := FindUser(db1.users, user).value;
            Kept(db, db1.(users := db1.users[i := Changed(db1.users[i], RevokeAccount)]), signers, issued, issued, at)
  {
    EndPart(db, UserRevoked(user), signers, issued);
    var db1 := End(db, UserRevoked(user));
    InvParts(db1, signers, issued);
    var i := FindUser(db1.users, user).value;
    hide Inv, Kept, AuthInv, FindUser, Remaining;
    RevokedAreGone(db.sessions, user);
    ChangeKeepsAuth(db1.users, db1.sessions, issued, i, Changed(db1.users[i], RevokeAccount));
    var db2 := db1.(users := db1.users[i := Changed(db1.users[i], RevokeAccount)]);
    QuietKept(db1, db2, signers, issued, issued, at);
    QuietThen(db, db1, db2, signers, issued, issued, at);
  }

  lemma PerformKept(db: Db, s: SessionRow, op: Operation, at: Times, signers: Signers, issued: Issued)
    requires Inv(db, signers, issued) && FindUser(db.users, s.user).Some?
    ensures Perform(db, s, op, at).Ok? ==> Kept(db, Perform(db, s, op, at).value, signers, issued, issued, at)
  {
    hide Inv, Kept, EnqueueTx, DisableTx, End, EndTx, Note, IssueTokenTx;
    EndsSucceed(db, LoggedOut(s.id), signers, issued);
    EndsSucceed(db, UserRevoked(s.user), signers, issued);
    match op
    case Read(_) => NoteThen(db, db, RecordsRead, s.user, signers, issued, at);
    case IssueToken(token, ttl, nanos) => IssueTokenKept(db, token, ttl, nanos, s.user, at, signers, issued);
    case Submit(o) =>
      if EnqueueTx(db, o.(actor := s.user), at).Ok? { EnqueueKept(db, o.(actor := s.user), at, signers, issued); }
    case DisableNode(agent) => DisableKept(db, agent, signers, issued, at);
    case Logout =>
      EndPart(db, LoggedOut(s.id), signers, issued);
      UnchangedKept(End(db, LoggedOut(s.id)), signers, issued, at);
      QuietThen(db, End(db, LoggedOut(s.id)), End(db, LoggedOut(s.id)), signers, issued, issued, at);
    case RevokeOwn =>
      EndPart(db, UserRevoked(s.user), signers, issued);
      RevokeOwnPart(db, s.user, signers, issued, at);
  }

  lemma TouchKept(db: Db, db2: Db, token: string, now: int64, signers: Signers, issued: Issued, at: Times)
    requires Kept(db, db2, signers, issued, issued, at)
    ensures Kept(db, Touch(db2, token, now), signers, issued, issued, at)
  {
    hide TableInv, SignerBound, AuthInv, SettingsOk, History, LiveVerified, InOrder;
    match FindToken(db2.sessions, Sha256(token))
    case None =>
    case Some(i) => TouchKeepsAuth(db2.users, db2.sessions, issued, i, Max(db2.sessions[i].lastUsed, now));
  }

  /** Manage keeps everything, whichever way it ends: success, a recorded denial or rejection, or a rollback. */
  lemma ManageKept(db: Db, token: string, op: Operation, at: Times, signers: Signers, issued: Issued)
    requires Inv(db, signers, issued)
    ensures Kept(db, Manage(db, token, op, at).db, signers, issued, issued, at)
  {
    hide Inv, Kept, AdminClock, Note, End, EndTx, Perform, Touch, Authorize, Privileged;
    UnchangedKept(db, signers, issued, at);
    if AdminClock(db, at.first).Ok? {
      var db0 := AdminClock(db, at.first).value;
      ClockPart(db, at.first, signers, issued);
      EndsSucceed(db0, Stale(at.first), signers, issued);
      var db1 := End(db0, Stale(at.first));
      EndPart(db0, Stale(at.first), signers, issued);
      UnchangedKept(db1, signers, issued, at);
      QuietThen(db, db1, db1, signers, issued, issued, at);
      match Authorize(db1, token, at.first)
      case None =>
      case Some(i) =>
        var s := db1.sessions[i];
        NoteThen(db, db1, AdminDenied, s.user, signers, issued, at);
        NoteThen(db, db1, AdminRejected, s.user, signers, issued, at);
        PerformKept(db1, s, op, at, signers, issued);
        var r := Perform(db1, s, op, at);
        if r.Ok? {
          QuietThen(db, db1, r.value, signers, issued, issued, at);
          TouchKept(db, r.value, token, at.first, signers, issued, at);
        }
    }
  }

  lemma FinishLoginTasks(db: Db, attempt: Attempt, matched: bool, id: string, token: string, now: int64)
    ensures FinishLogin(db, attempt, matched, id, token, now).db.tasks == db.tasks
  {
    hide StillCurrent, Sum, FreshSession, Remaining, EndTx;
    if AdminClock(db, now).Ok? { EndTxShape(AdminClock(db, now).value, Stale(now)); }
  }
}
