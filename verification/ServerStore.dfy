/** The server store as the object its transactions change. Each method works on an open copy `tx` and
    commits it or leaves the database as it was; loops append to the audit log row by row. */
module ServerStore {
  import opened Core
  import opened Tables
  import opened Protocol
  import opened Ledgers
  import opened Trust
  import opened Envelope
  import opened ServerState
  import opened ServerInvariants
  import opened ServerTransactions
  import opened ServerAccounts

  /** The loops of expireTasks, cancelNodeTasks and CancelQueuedForSignerChange. */
  method CloseTasks(db: Db, c: Sweep) returns (r: Result<Db, Error>)
    ensures r == CloseTx(db, c)
  {
    hide DecodeTask, Picks, Swept, Append, SweepEvent, SlotsOf;
    var tx := db;
    for i := 0 to |db.tasks|
      invariant TryClose(db, c, i) == Ok(tx)
    {
      var row := tx.tasks[i];
      if Picks(c, row) {
        CloseStops(db, c, i + 1, |db.tasks|);
        if DecodeTask(row.payload).None? {
          return Err(CorruptTask);
        }
        var slots: int := SlotsOf(row);
        match Append(tx.ledger, SweepEvent(c, row), -slots) {
          case Err(x) => return Err(AuditFailed(x));
          case Ok(l) => tx := tx.(tasks := tx.tasks[i := Swept(c, row)], ledger := l);
        }
      }
    }
    return Ok(tx);
  }

  lemma {:induction false} CloseStops(db: Db, c: Sweep, i: nat, n: nat)
    requires i <= n <= |db.tasks|
    ensures TryClose(db, c, i).Err? ==> TryClose(db, c, n) == TryClose(db, c, i)
  {
    hide DecodeTask, Picks, Swept, Append, SweepEvent, SlotsOf;
    if i < n { CloseStops(db, c, i, n - 1); }
  }

  /** The loops of expireSessionsTx, revokeUserSessionsTx and revokeSessionTx. */
  method EndSessions(db: Db, e: Ending) returns (r: Result<Db, Error>)
    ensures r == EndTx(db, e)
  {
    hide Ends, EndingEvent, Append;
    var kept, ledger := [], db.ledger;
    for i := 0 to |db.sessions|
      invariant TryEnd(db, e, i) == Ok((kept, ledger))
    {
      var s := db.sessions[i];
      if Ends(e, s) {
        EndStops(db, e, i + 1, |db.sessions|);
        match Append(ledger, EndingEvent(e, s), -1) {
          case Err(x) => return Err(AuditFailed(x));
          case Ok(l) => ledger := l;
        }
      } else {
        kept := kept + [s];
      }
    }
    return Ok(db.(sessions := kept, ledger := ledger));
  }

  lemma {:induction false} EndStops(db: Db, e: Ending, i: nat, n: nat)
    requires i <= n <= |db.sessions|
    ensures TryEnd(db, e, i).Err? ==> TryEnd(db, e, n) == TryEnd(db, e, i)
  {
    hide Ends, EndingEvent, Append;
    if i < n { EndStops(db, e, i, n - 1); }
  }

  /** The loop of InstallSignerTrust over live envelopes. */
  method VerifyLive(tasks: seq<TaskRow>, next: TrustSet, at: Times) returns (ok: bool)
    requires |tasks| <= MAX_STORED_TASKS
    ensures ok <==> AllLiveVerify(tasks, next, at)
  {
    hide LiveVerifies, IsLive;
    var count := 0;
    for i := 0 to |tasks|
      invariant count <= i
      invariant forall j :: 0 <= j < i && IsLive(tasks[j], at.first) ==> LiveVerifies(tasks[j], next, RowTime(at, j))
    {
      if IsLive(tasks[i], at.first) {
        count := count + 1;
        if count > MAX_STORED_TASKS || !LiveVerifies(tasks[i], next, RowTime(at, i)) {
          return false;
        }
      }
    }
    return true;
  }

  lemma InvTasksOk(db: Db, signers: Signers, issued: Issued)
    requires Inv(db, signers, issued)
    ensures Accounts(db, 0) && TasksOk(db.tasks) && |db.tasks| <= MAX_STORED_TASKS
            && |db.sessions| <= db.ledger.reserved && Sound(db.ledger)
  {
    InvParts(db, signers, issued);
    hide Owned, Queues, AuthInv, SignerBound, DistinctRequests, TaskOk;
  }

  lemma FreshInv()
    ensures Inv(Fresh(), map[], map[])
  {
    hide RowSigned, TaskOk, SessionCurrent;
    var db := Fresh();
    assert TableInv(db.nodes, db.tasks);
    hide TableInv;
    assert Accounts(db, 0);
    hide Accounts;
  }

  class Store {
    var db: Db
    ghost var signers: Signers
    ghost var issued: Issued

    ghost predicate Valid()
      reads this
    {
      Inv(db, signers, issued)
    }

    /** Open on an empty directory, after all schema migrations. */
    constructor ()
      ensures Valid() && db == Fresh()
    {
      hide Inv, Fresh;
      FreshInv();
      db, signers, issued := Fresh(), map[], map[];
    }

    /** expireTasks, cancelNodeTasks: called with the transaction open. */
    method Sweep(tx: Db, c: ServerState.Sweep) returns (r: Result<Db, Error>)
      requires Inv(tx, signers, issued)
      ensures r == CloseTx(tx, c) == Ok(Close(tx, c))
    {
      hide Inv, Close, CloseTx;
      CloseSucceeds(tx, c, signers, issued);
      r := CloseTasks(tx, c);
    }

    /** expireSessionsTx, revokeUserSessionsTx, revokeSessionTx: called with the transaction open. */
    method Expel(tx: Db, e: Ending) returns (r: Result<Db, Error>)
      requires Inv(tx, signers, issued)
      ensures r == EndTx(tx, e) == Ok(End(tx, e))
    {
      hide Inv, End, EndTx;
      EndsSucceed(tx, e, signers, issued);
      r := EndSessions(tx, e);
    }

    /** disableTx for an enabled node. */
    method DisableEnabled(tx: Db, i: nat) returns (r: Result<Db, Error>)
      requires Inv(tx, signers, issued) && i < |tx.nodes| && tx.nodes[i].enabled
      ensures r == DisableAt(tx, i) && r.Ok?
    {
      hide Inv, Close, CloseTx, TasksOk, Note;
      InvTasksOk(tx, signers, issued);
      DisableAccounts(tx, i);
      var node := tx.nodes[i];
      var tx1 := tx.(nodes := tx.nodes[i := node.(enabled := false)]);
      SumUpdate(tx.nodes, i, node.(enabled := false), EnabledNode());
      SweepSucceeds(tx1, CancelNode(node.agent), 1);
      r := CloseTasks(tx1, CancelNode(node.agent));
      r := Note(r.value, NodeDisabled, node.agent, -1);
    }

    method Disable(agent: string, ghost at: Times) returns (r: Result<(), Error>)
      requires Valid()
      modifies this
      ensures Valid() && Tx(db, r) == Committed(old(db), DisableTx(old(db), agent))
      ensures r.Err? && r.error.AuditFailed? ==>
                Full(old(db)) && exists i ::
                    0 <= i < |old(db).nodes| && old(db).nodes[i].agent == agent && !old(db).nodes[i].enabled
    {
      hide Inv, Kept, DisableAt, Note;
      DisableKept(db, agent, signers, issued, at);
      var tx := DisableOpen(db, agent);
      if tx.Err? {
        return Err(tx.error);
      }
      SameSigners(db, tx.value, signers, issued, at);
      db := tx.value;
      return Ok(());
    }

    // ---- Task dispatch ----

    /** enqueueTx: called with the transaction open. */
    method EnqueueOpen(tx: Db, o: Order, at: Times) returns (r: Result<Db, Error>)
      requires Inv(tx, signers, issued)
      ensures r == EnqueueTx(tx, o, at)
    {
      hide Inv, Close, CloseTx, ValidTask, CheckTask, SettingsOk, Hex, InsertTask, RecentlyReady;
      if !Hex(o.agent, 32) || o.ttl < NANOS || o.ttl > MAX_LIFETIME * NANOS {
        return Err(BadRequest);
      }
      var i := FindNode(tx.nodes, o.agent);
      if i.None? || !tx.nodes[i.value].enabled {
        return Err(NodeNotEnabled);
      }
      if !RecentlyReady(tx.nodes[i.value], o.nanos) {
        return Err(NotReady);
      }
      if !SettingsOk(tx.settings) || tx.settings.keyId.None? {
        return Err(NotConfigured);
      }
      if tx.settings.paused {
        return Err(DispatchPaused);
      }
      r := Sweep(tx, ExpireQueued(o.agent, at.first));
      var tx1 := r.value;
      if |tx1.tasks| >= MAX_STORED_TASKS || Sum(tx1.tasks, PendingOf(o.agent)) >= MAX_PENDING {
        return Err(QueueFull);
      }
      var t := NewTask(o, tx.nodes[i.value], at.second);
      if !ValidTask(t) {
        return Err(InvalidTask);
      }
      if tx.settings.trust.Some? && !CheckTask(tx.settings.trust.value, t, tx.settings.keyId.value, at.third) {
        return Err(OutsideKeyWindow);
      }
      return InsertTask(tx1, t);
    }

    method Enqueue(o: Order, at: Times) returns (r: Result<(), Error>)
      requires Valid()
      modifies this
      ensures Valid() && Tx(db, r) == Committed(old(db), EnqueueTx(old(db), o, at))
    {
      hide Inv, EnqueueTx;
      var tx := EnqueueOpen(db, o, at);
      if tx.Err? {
        return Err(tx.error);
      }
      EnqueueKept(db, o, at, signers, issued);
      signers := Recorded(signers, db, tx.value);
      db := tx.value;
      return Ok(());
    }

    method Poll(agent: string, epoch: string, credential: bool, digest: string, key: PublicKey, at: Times)
      returns (r: Result<Option<Envelope>, Error>)
      requires Valid()
      modifies this
      ensures Valid() && Tx(db, r) == ServerState.Poll(old(db), agent, epoch, credential, digest, key, at)
      ensures r.Err? ==> !r.error.AuditFailed? && r.error != CorruptTask
    {
      hide Inv, Kept, Close, CloseTx, Hex, SettingsOk, IsEnabled, Deliver, Next;
      PollKept(db, agent, epoch, credential, digest, key, at, signers, issued);
      if |key| != KEY_SIZE || !Hex(digest, 64) {
        return Err(BadRequest);
      }
      if !credential || !IsEnabled(db, agent, epoch) {
        return Err(Unauthorised);
      }
      if !SettingsOk(db.settings) || db.settings.keyId != Some(Sha256(key)) {
        return Err(SignerMismatch);
      }
      if db.settings.paused {
        return Ok(None);
      }
      var swept := Sweep(db, ExpireQueued(agent, at.first));
      var tx := swept.value;
      CloseShape(db, ExpireQueued(agent, at.first));
      var next := Next(tx.tasks, agent, epoch, at.second);
      if next.None? {
        SameSigners(db, tx, signers, issued, at);
        db := tx;
        return Ok(None);
      }
      var delivered := Deliver(tx, next.value, key, at.third);
      if delivered.Err? {
        return Err(delivered.error);
      }
      DeliverRows(tx, next.value, key, at.third);
      SameSigners(db, delivered.value.0, signers, issued, at);
      db := delivered.value.0;
      return Ok(Some(delivered.value.1));
    }

    method SubmitResult(agent: string, epoch: string, credential: bool, data: ResultText, ghost at: Times)
      returns (r: Result<Ack, Error>)
      requires Valid()
      modifies this
      ensures Valid() && Tx(db, r) == ServerState.SubmitResult(old(db), agent, epoch, credential, data)
      ensures r.Err? ==> !r.error.AuditFailed?
    {
      hide Inv, Kept, DecodeResult, IsEnabled, ResultError, TextSize, Note, FindTask;
      SubmitKept(db, agent, epoch, credential, data, at, signers, issued);
      if TextSize(data) > MAX_DISPATCH_RESULT_BYTES {
        return Err(TooLarge);
      }
      var decoded := DecodeResult(data);
      if decoded.None? {
        return Err(BadRequest);
      }
      var x := decoded.value;
      if !credential || !IsEnabled(db, agent, epoch) {
        return Err(Unauthorised);
      }
      if x.agent != agent || x.epoch != epoch {
        return Err(IdentityMismatch);
      }
      var i := FindTask(db.tasks, x.request);
      if i.None? || db.tasks[i.value].agent != agent || db.tasks[i.value].epoch != epoch {
        return Err(NoAssignment);
      }
      var row := db.tasks[i.value];
      var wrong := ResultError(row, x);
      if wrong.Some? {
        return Err(wrong.value);
      }
      if row.result.Some? {
        if Sha256(row.result.value) != Sha256(data) {
          return Err(Overwrite);
        }
      } else {
        if !row.state.Dispatched? {
          return Err(NotDispatched);
        }
        var tx := db.(tasks :=
            db.tasks[i.value := row.(state := Terminal(x.status), result := Some(data), closing := Reported(x.code))]);
        match Note(tx, ResultReceived, x.request, -1) {
          case Err(e) => return Err(e);
          case Ok(tx') =>
            SameSigners(db, tx', signers, issued, at);
            db := tx';
        }
      }
      return Ok(Ack(agent, epoch, x.request, Sha256(data)));
    }

    // ---- Signer rotation ----

    /** Write the settings row and its event, or roll back. */
    method Commit(s': Settings, kind: Kind) returns (r: Result<(), Error>)
      modifies this
      ensures Tx(db, r) == Committed(old(db), Note(old(db).(settings := s'), kind, "", 0))
      ensures signers == old(signers) && issued == old(issued)
    {
      var tx := Note(db.(settings := s'), kind, "", 0);
      if tx.Err? {
        return Err(tx.error);
      }
      db := tx.value;
      return Ok(());
    }

    method ConfigureSigner(key: PublicKey, ghost at: Times) returns (r: Result<(), Error>)
      requires Valid()
      modifies this
      ensures Valid() && Tx(db, r) == ServerState.ConfigureSigner(old(db), key)
    {
      ConfigureKept(db, key, at, signers, issued);
      ConfigureSameTasks(db, key);
      hide Inv, Note, SettingsOk, History, Live;
      if |key| != KEY_SIZE {
        return Err(BadRequest);
      }
      if !SettingsOk(db.settings) {
        return Err(BadSettings);
      }
      if db.settings.keyId.Some? && db.settings.keyId != Some(Sha256(key)) {
        return Err(SignerMismatch);
      }
      if db.settings.keyId.None? {
        r := Commit(db.settings.(keyId := Some(Sha256(key))), SignerConfigured);
        return;
      }
      return Ok(());
    }

    method PauseDispatch(paused: bool, at: Times) returns (r: Result<(), Error>)
      requires Valid()
      modifies this
      ensures Valid() && Tx(db, r) == ServerState.PauseDispatch(old(db), paused, at.first)
    {
      PauseKept(db, paused, at, signers, issued);
      PauseSameTasks(db, paused, at.first);
      hide Inv, Note, SettingsOk, InWindow, History, Live;
      if !SettingsOk(db.settings) {
        return Err(BadSettings);
      }
      if db.settings.paused == paused {
        return Ok(());
      }
      if !paused && db.settings.trust.Some? && !InWindow(db.settings.trust.value, db.settings.keyId, at.first) {
        return Err(OutsideKeyWindow);
      }
      r := Commit(db.settings.(paused := paused), DispatchChanged);
    }

    method InstallSignerTrust(expected: Baseline, next: TrustSet, at: Times) returns (r: Result<(), Error>)
      requires Valid()
      modifies this
      ensures Valid() && Tx(db, r) == InstallTrust(old(db), expected, next, at)
    {
      InstallKept(db, expected, next, at, signers, issued);
      InstallSameTasks(db, expected, next, at);
      InvTasksOk(db, signers, issued);
      hide Inv, Note, SettingsOk, ServerTransactions.Live, History, Valid, Accepted, SameTrust, MatchesBaseline,
           AllLiveVerify, Sound, TasksOk;
      var valid := Validate(next);
      if !valid {
        return Err(BadRequest);
      }
      var s := db.settings;
      if !SettingsOk(s) {
        return Err(BadSettings);
      }
      if !s.paused {
        return Err(NotPaused);
      }
      if !Sound(db.ledger) {
        return Err(AuditCorrupt);
      }
      if s.trust.Some? && SameTrust(s.trust.value, next) {
        return Ok(());
      }
      if !MatchesBaseline(s, expected) {
        return Err(StaleBaseline);
      }
      if s.keyId.None? {
        return Err(RejectedTransition);
      }
      var accepted := CheckTransition(s.trust, s.keyId.value, next);
      if !accepted {
        return Err(RejectedTransition);
      }
      if s.keyId.value !in Ids(next.keys) {
        return Err(SelectedSignerRetired);
      }
      var live := VerifyLive(db.tasks, next, at);
      if !live {
        return Err(LiveEnvelopes);
      }
      r := Commit(s.(trust := Some(next)), TrustChanged);
    }

    method SwitchSigner(id: KeyId, at: Times) returns (r: Result<(), Error>)
      requires Valid()
      modifies this
      ensures Valid() && Tx(db, r) == ServerState.SwitchSigner(old(db), id, at.first)
    {
      SwitchKept(db, id, at, signers, issued);
      SwitchSameTasks(db, id, at.first);
      hide Inv, Note, SettingsOk, InWindow, History, Live, NoneQueued;
      if !SettingsOk(db.settings) {
        return Err(BadSettings);
      }
      if !db.settings.paused || db.settings.trust.None? {
        return Err(NotPaused);
      }
      if !InWindow(db.settings.trust.value, Some(id), at.first) {
        return Err(OutsideKeyWindow);
      }
      if db.settings.keyId == Some(id) {
        return Ok(());
      }
      if !NoneQueued(db.tasks) {
        return Err(QueuedTasks);
      }
      r := Commit(db.settings.(keyId := Some(id)), SignerSelected);
    }

    method CancelQueuedForSignerChange(ghost at: Times) returns (r: Result<(), Error>)
      requires Valid()
      modifies this
      ensures Valid() && Tx(db, r) == CancelQueuedTasks(old(db))
    {
      CancelKept(db, at, signers, issued);
      hide Inv, Kept, SettingsOk, Close, CloseTx;
      if !SettingsOk(db.settings) {
        return Err(BadSettings);
      }
      if !db.settings.paused {
        return Err(NotPaused);
      }
      var swept := Sweep(db, CancelQueued);
      CloseShape(db, CancelQueued);
      SameSigners(db, swept.value, signers, issued, at);
      db := swept.value;
      return Ok(());
    }

    // ---- Nodes, accounts and sessions ----

    /** issueTokenTx: called with the transaction open. */
    method IssueTokenOpen(tx: Db, token: string, ttl: int, nanos: int, actor: string) returns (r: Result<Db, Error>)
      ensures r == IssueTokenTx(tx, token, ttl, nanos, actor)
    {
      hide LiveTokens, Note;
      if ttl < NANOS || ttl > MAX_TOKEN_LIFETIME * NANOS {
        return Err(BadRequest);
      }
      var live := LiveTokens(tx.tokens, Wrap64(nanos / NANOS));
      if |live| >= MAX_NODES {
        return Err(Limited);
      }
      if exists i :: 0 <= i < |live| && live[i].token == Sha256(token) {
        return Err(Conflict);
      }
      var row := TokenRow(Sha256(token), Wrap64((nanos + ttl) / NANOS), false);
      return Note(tx.(tokens := live + [row]), TokenIssued, actor, 0);
    }

    method IssueToken(token: string, ttl: int, nanos: int, ghost at: Times) returns (r: Result<(), Error>)
      requires Valid()
      modifies this
      ensures Valid() && Tx(db, r) == Committed(old(db), IssueTokenTx(old(db), token, ttl, nanos, ""))
    {
      hide Inv, IssueTokenTx, History, Live;
      IssueTokenKept(db, token, ttl, nanos, "", at, signers, issued);
      var tx := IssueTokenOpen(db, token, ttl, nanos, "");
      if tx.Err? {
        return Err(tx.error);
      }
      IssuedSameTasks(db, token, ttl, nanos, "");
      db := tx.value;
      return Ok(());
    }

    method Register(token: string, node: Registration, at: Times) returns (r: Result<(), Error>)
      requires Valid()
      modifies this
      ensures Valid() && Tx(db, r) == ServerState.Register(old(db), token, node, at.first)
    {
      RegisterKept(db, token, node, at, signers, issued);
      hide Inv, History, Live, Hex, FindLive, FindNode;
      if !Hex(token, 64) {
        return Err(Unauthorised);
      }
      if !RegistrationOk(node) {
        return Err(BadRequest);
      }
      var i := FindLive(db.tokens, Sha256(token), at.first);
      if i.None? {
        return Err(Unauthorised);
      }
      var tx := db.(tokens := db.tokens[i.value := db.tokens[i.value].(consumed := true)]);
      if |tx.nodes| >= MAX_NODES || FindNode(tx.nodes, node.agent).Some? {
        return Err(Conflict);
      }
      tx := tx.(nodes := tx.nodes + [NodeRow(node.agent, node.epoch, true, "", false, 0)]);
      if node.certificate in tx.fingerprints {
        return Err(Conflict);
      }
      tx := tx.(fingerprints := tx.fingerprints + {node.certificate});
      var done := Note(tx, NodeEnrolled, node.agent, 1);
      if done.Err? {
        return Err(done.error);
      }
      db := done.value;
      return Ok(());
    }

    method CreateUser(user: UserRow, ghost at: Times) returns (r: Result<(), Error>)
      requires Valid()
      modifies this
      ensures Valid() && Tx(db, r) == ServerState.CreateUser(old(db), user)
    {
      CreateUserKept(db, user, at, signers, issued);
      hide Inv, History, Live;
      if |db.users| >= MAX_USERS || (db.users == [] && user.role != Admin) {
        return Err(Conflict);
      }
      if FindUser(db.users, user.id).Some? || FindName(db.users, user.name).Some? {
        return Err(Conflict);
      }
      var tx := Note(db.(users := db.users + [user.(enabled := true, generation := 1)]), UserCreated, user.id, 0);
      if tx.Err? {
        return Err(tx.error);
      }
      db := tx.value;
      return Ok(());
    }

    method ChangeUser(name: string, c: Change, ghost at: Times) returns (r: Result<(), Error>)
      requires Valid()
      modifies this
      ensures Valid() && Tx(db, r) == ServerState.ChangeUser(old(db), name, c)
    {
      ChangeUserKept(db, name, c, at, signers, issued);
      hide Inv, History, Live, Remaining, HasSessions, Full;
      var i := FindName(db.users, name);
      if i.None? {
        return Err(NoSuchUser);
      }
      var u := db.users[i.value];
      if !u.enabled && !c.RevokeAccount? {
        return Err(Forbidden);
      }
      var rest := Remaining(db.sessions, UserRevoked(u.id));
      var revoked := |db.sessions| - |rest|;
      var tx := Note(db.(sessions := rest, users := db.users[i.value := Changed(u, c)]), UserChanged, u.id, -revoked);
      if tx.Err? {
        return Err(tx.error);
      }
      db := tx.value;
      return Ok(());
    }

    method RevokeAllSessions(ghost at: Times) returns (r: Result<(), Error>)
      requires Valid()
      modifies this
      ensures Valid() && Tx(db, r) == ServerState.RevokeAllSessions(old(db))
      ensures r.Err? <==> Full(old(db)) && old(db).sessions == []
    {
      RevokeAllKept(db, at, signers, issued);
      hide Inv, History, Live, Full;
      var tx := DropAll(db, AllSessionsRevoked);
      if tx.Err? {
        return Err(tx.error);
      }
      db := tx.value;
      return Ok(());
    }

    /** The loop of QuarantineRestore: the enabled nodes one by one, in order of their IDs. */
    method DisableEvery(start: Db, ghost at: Times) returns (tx: Db)
      requires Inv(start, signers, issued)
      ensures DisableAll(start, |start.nodes|) == Ok(tx)
    {
      hide Inv, Kept, DisableAt, Sum, Used, FirstEnabled;
      ghost var now := Times(at.first, at.first, at.first);
      tx := start;
      var left := |start.nodes|;
      var next := FirstEnabled(tx.nodes);
      while left > 0 && next.Some?
        invariant left >= 0 && next == FirstEnabled(tx.nodes)
        invariant Inv(tx, signers, issued) && DisableAll(tx, left) == DisableAll(start, |start.nodes|)
        decreases left
      {
        DisablePart(tx, next.value, signers, issued, now);
        SameSigners(tx, DisableAt(tx, next.value).value, signers, issued, now);
        var disabled := DisableEnabled(tx, next.value);
        tx := disabled.value;
        left := left - 1;
        next := FirstEnabled(tx.nodes);
      }
    }

    /** Disable every enabled node, then end every session; only the last event can lack room. */
    method QuarantineRestore(ghost at: Times) returns (r: Result<(), Error>)
      requires Valid()
      modifies this
      ensures Valid() && Tx(db, r) == ServerState.QuarantineRestore(old(db))
      ensures r.Err? <==> Full(old(db)) && old(db).sessions == [] && Sum(old(db).tasks, QueuedRows()) == 0
      ensures r.Ok? ==> Quarantined(db)
    {
      hide Inv, Kept, Full, DropAll, DisableAll, Sum, Used, Quarantined;
      QuarantineKept(db, at, signers, issued);
      var tx := DisableEvery(db, at);
      EnabledAtMost(db.nodes);
      DisableAllKept(db, |db.nodes|, at, signers, issued);
      tx := tx.(tokens := Consumed(tx.tokens));
      var done := DropAll(tx, RestoreQuarantined);
      if done.Err? {
        return Err(done.error);
      }
      DropAllTasks(tx);
      SameSigners(db, done.value, signers, issued, at);
      db := done.value;
      return Ok(());
    }

    /** First transaction of Login. */
    method StartLogin(name: string, budget: Budget, at: Times) returns (r: Result<Attempt, Error>)
      requires Valid()
      modifies this
      ensures Valid() && Tx(db, r) == ServerState.StartLogin(old(db), name, budget, at.first)
    {
      StartLoginKept(db, name, budget, at, signers, issued);
      hide Inv, History, Live;
      var clock := AdminClock(db, at.first);
      if clock.Err? {
        return Err(clock.error);
      }
      if budget.NoBucket? {
        return Err(Limited);
      }
      if budget.StillBlocked? {
        db := clock.value;
        return Err(Limited);
      }
      var tx := Note(clock.value, if budget.FirstBlock? then LoginLimited else LoginAttempted, "", 0);
      if tx.Err? {
        return Err(tx.error);
      }
      var i := FindName(db.users, name);
      var user := if i.None? then None else Some(db.users[i.value]);
      db := tx.value;
      return if budget.FirstBlock? then Err(Limited) else Ok(user);
    }

    /** Second transaction of Login, after the password check. */
    method FinishLogin(attempt: Attempt, matched: bool, id: string, token: string, at: Times)
      returns (r: Result<string, Error>)
      requires Valid()
      modifies this
      ensures Valid() && Tx(db, r) == ServerState.FinishLogin(old(db), attempt, matched, id, token, at.first)
    {
      hide Inv, Kept, AdminClock, Note, StillCurrent, End, EndTx, Sum, FreshSession, TasksOk, Accounts;
      FinishLoginKept(db, attempt, matched, id, token, at, signers, issued);
      ghost var out := ServerState.FinishLogin(db, attempt, matched, id, token, at.first);
      FinishLoginTasks(db, attempt, matched, id, token, at.first);
      FinishedSigners(db, out.db, signers, issued, IssuedBy(issued, out, id, attempt), at);
      ghost var issued' := IssuedBy(issued, out, id, attempt);
      var clock := AdminClock(db, at.first);
      if clock.Err? {
        return Err(clock.error);
      }
      var tx := clock.value;
      ClockPart(db, at.first, signers, issued);
      if !matched || attempt.None? || !attempt.value.enabled || !StillCurrent(db.users, attempt.value) {
        var refused := Refuse(db, tx, LoginFailed, "", Unauthorised);
        db := refused.db;
        return refused.result;
      }
      var u := attempt.value;
      InvTasksOk(tx, signers, issued);
      var ended := Expel(tx, Stale(at.first));
      tx := ended.value;
      if |tx.sessions| >= MAX_SESSIONS || Sum(tx.sessions, OwnedBy(u.id)) >= MAX_OWNED {
        var refused := Refuse(db, tx, LoginFailed, u.id, Limited);
        db := refused.db;
        return refused.result;
      }
      if !FreshSession(tx, id, Sha256(token)) {
        return Err(Conflict);
      }
      var s := SessionRow(id, Sha256(token), u.id, at.first, at.first, Wrap64(at.first + SESSION_LIFETIME));
      var done := Note(tx.(sessions := tx.sessions + [s]), LoginSucceeded, u.id, 1);
      if done.Err? {
        return Err(done.error);
      }
      db, issued := done.value, issued';
      return Ok(token);
    }

    /** The operation between the savepoint and the commit of Manage. */
    method Perform(tx: Db, s: SessionRow, op: Operation, at: Times) returns (r: Result<Db, Error>)
      requires Inv(tx, signers, issued)
      ensures r == ServerState.Perform(tx, s, op, at)
    {
      hide Inv, EnqueueTx, DisableTx, End, EndTx, Note, Kept, IssueTokenTx;
      match op {
        case Read(found) =>
          r := Note(tx, RecordsRead, s.user, 0);
          if r.Ok? && !found {
            return Err(NotFound);
          }
        case IssueToken(token, ttl, nanos) => r := IssueTokenOpen(tx, token, ttl, nanos, s.user);
        case Submit(o) => r := EnqueueOpen(tx, o.(actor := s.user), at);
        case DisableNode(agent) => r := DisableOpen(tx, agent);
        case Logout => r := Expel(tx, LoggedOut(s.id));
        case RevokeOwn =>
          var ended := Expel(tx, UserRevoked(s.user));
          var tx1 := ended.value;
          var i := FindUser(tx1.users, s.user);
          if i.Some? {
            tx1 := tx1.(users := tx1.users[i.value := Changed(tx1.users[i.value], RevokeAccount)]);
          }
          r := Ok(tx1);
      }
    }

    /** disableTx: called with the transaction open. */
    method DisableOpen(tx: Db, agent: string) returns (r: Result<Db, Error>)
      requires Inv(tx, signers, issued)
      ensures r == DisableTx(tx, agent)
    {
      hide Inv, DisableAt, Note;
      if !Hex(agent, 32) {
        return Err(BadRequest);
      }
      var i := FindNode(tx.nodes, agent);
      if i.None? {
        return Err(NoSuchNode);
      }
      if !tx.nodes[i.value].enabled {
        return Note(tx, DisableUnchanged, agent, 0);
      }
      r := DisableEnabled(tx, i.value);
    }

    method Manage(token: string, op: Operation, at: Times) returns (r: Result<(), Error>)
      requires Valid()
      modifies this
      ensures Valid() && Tx(db, r) == ServerState.Manage(old(db), token, op, at)
    {
      ManageKept(db, token, op, at, signers, issued);
      hide Inv, Kept, AdminClock, Note, End, EndTx, ServerState.Perform, Touch, Authorize, Privileged;
      ghost var out := ServerState.Manage(db, token, op, at).db;
      RecordedSigners(db, out, signers, issued, at);
      ghost var signers' := Recorded(signers, db, out);
      var clock := AdminClock(db, at.first);
      if clock.Err? {
        return Err(clock.error);
      }
      ClockPart(db, at.first, signers, issued);
      InvTasksOk(clock.value, signers, issued);
      var ended := Expel(clock.value, Stale(at.first));
      var tx := ended.value;
      EndPart(clock.value, Stale(at.first), signers, issued);
      var i := Authorize(tx, token, at.first);
      if i.None? {
        db, signers := tx, signers';
        return Err(Unauthorised);
      }
      var s := tx.sessions[i.value];
      if Privileged(op) && tx.users[FindUser(tx.users, s.user).value].role != Admin {
        var denied := Note(tx, AdminDenied, s.user, 0);
        if denied.Err? {
          return Err(denied.error);
        }
        db, signers := denied.value, signers';
        return Err(Forbidden);
      }
      var done := Perform(tx, s, op, at);
      if done.Ok? {
        db, signers := Touch(done.value, token, at.first), signers';
        return Ok(());
      }
      if done.error == AuditFailed(AuditFull) {
        return Err(done.error);
      }
      var rejected := Note(tx, AdminRejected, s.user, 0);
      if rejected.Err? {
        return Err(rejected.error);
      }
      db, signers := rejected.value, signers';
      return Err(if done.error == NotFound then NotFound else Conflict);
    }
  }

  lemma FinishedSigners(db: Db, db': Db, signers: Signers, issued: Issued, issued': Issued, at: Times)
    requires Kept(db, db', signers, issued, issued', at) && db'.tasks == db.tasks
    ensures Inv(db', signers, issued')
  {
    hide Inv, History, Live;
  }

  lemma RecordedSigners(db: Db, db': Db, signers: Signers, issued: Issued, at: Times)
    requires Kept(db, db', signers, issued, issued, at)
    ensures Inv(db', Recorded(signers, db, db'), issued)
  {
    hide Inv, History, Live;
  }

  lemma DeliverRows(db: Db, i: nat, key: PublicKey, now: int64)
    requires i < |db.tasks|
    ensures Deliver(db, i, key, now).Ok? ==> |Deliver(db, i, key, now).value.0.tasks| == |db.tasks|
  {
    hide SignTask, EnvelopeVerifies, DecodeTask;
  }

  lemma ConfigureSameTasks(db: Db, key: PublicKey)
    ensures ServerState.ConfigureSigner(db, key).db.tasks == db.tasks
  {
  }

  lemma PauseSameTasks(db: Db, paused: bool, now: int64)
    ensures ServerState.PauseDispatch(db, paused, now).db.tasks == db.tasks
  {
    hide InWindow, SettingsOk;
  }

  lemma SwitchSameTasks(db: Db, id: KeyId, now: int64)
    ensures ServerState.SwitchSigner(db, id, now).db.tasks == db.tasks
  {
    hide InWindow, SettingsOk, NoneQueued;
  }
}
