/** What the steps of a run change of the tasks and of the signer settings, operation by operation. */
module ServerSteps {
  import opened Core
  import opened Tables
  import opened Protocol
  import opened Ledgers
  import opened Trust
  import opened Envelope
  import opened ServerState
  import opened ServerInvariants
  import opened ServerTransactions
  import opened ServerAccounts
  import opened ServerEffects
  import opened ServerRuns

  /** The window of this key reaches from the creation of a task to its end. */
  predicate Covers(trust: TrustSet, id: KeyId, r: TaskRow) {
    match (Key(trust.keys, id), DecodeTask(r.payload))
    case (Some(k), Some(t)) => k.notBefore <= t.createdAt && t.expiresAt <= k.notAfter
    case _ => false
  }

  /** A queued task that the selected signer may not sign at any time. */
  predicate Stranded(s: Settings, r: TaskRow) {
    r.state.Queued? && s.trust.Some? && s.keyId.Some? && !Covers(s.trust.value, s.keyId.value, r)
  }

  /** An old row is at most closed: it gains no envelope and no result. */
  predicate Closes(r: TaskRow, r': TaskRow) {
    r' == r.(state := r'.state, closing := r'.closing) && (r'.state.Queued? ==> r.state.Queued?)
  }

  /** A new row is queued inside the window of its signer. */
  predicate Begins(s: Settings, r: TaskRow) {
    r.envelope.None? && r.result.None? && !Stranded(s, r)
  }

  predicate Quiet(db: Db, db': Db) {
    && db'.settings == db.settings && |db.tasks| <= |db'.tasks|
    && forall i :: 0 <= i < |db'.tasks| ==>
         if i < |db.tasks| then Closes(db.tasks[i], db'.tasks[i]) else Begins(db.settings, db'.tasks[i])
  }

  lemma QuietSame(db: Db, db': Db)
    requires db'.tasks == db.tasks && db'.settings == db.settings
    ensures Quiet(db, db')
  {
  }

  lemma QuietTransitive(a: Db, b: Db, c: Db)
    requires Quiet(a, b) && Quiet(b, c)
    ensures Quiet(a, c)
  {
    hide Covers;
    forall i | 0 <= i < |c.tasks|
      ensures if i < |a.tasks| then Closes(a.tasks[i], c.tasks[i]) else Begins(a.settings, c.tasks[i])
    {
      if i < |b.tasks| { assert Closes(b.tasks[i], c.tasks[i]); }
      CoverageStays(a.settings, b.tasks, c.tasks, i);
    }
  }

  lemma CoverageStays(s: Settings, tasks: seq<TaskRow>, tasks': seq<TaskRow>, i: nat)
    ensures i < |tasks| && i < |tasks'| && Closes(tasks[i], tasks'[i]) && !Stranded(s, tasks[i]) ==>
              !Stranded(s, tasks'[i])
  {
  }

  lemma SweepIsQuiet(db: Db, db': Db, c: Sweep)
    requires db'.settings == db.settings && db'.tasks == SweptRows(db.tasks, c)
    ensures Quiet(db, db')
  {
    hide SweptRows;
  }

  lemma CloseIsQuiet(db: Db, c: Sweep)
    ensures CloseTx(db, c).Ok? ==> Quiet(db, CloseTx(db, c).value)
  {
    hide CloseTx, Quiet;
    CloseTxShape(db, c);
    if CloseTx(db, c).Ok? { SweepIsQuiet(db, CloseTx(db, c).value, c); }
  }

  lemma DisableAtIsQuiet(db: Db, i: nat)
    requires i < |db.nodes|
    ensures DisableAt(db, i).Ok? ==> Quiet(db, DisableAt(db, i).value)
  {
    hide CloseTx, Quiet;
    var db1 := db.(nodes := db.nodes[i := db.nodes[i].(enabled := false)]);
    CloseTxShape(db1, CancelNode(db.nodes[i].agent));
    if DisableAt(db, i).Ok? { SweepIsQuiet(db, DisableAt(db, i).value, CancelNode(db.nodes[i].agent)); }
  }

  lemma {:induction false} DisableAllIsQuiet(db: Db, n: nat)
    ensures DisableAll(db, n).Ok? ==> Quiet(db, DisableAll(db, n).value)
    decreases n
  {
    hide DisableAt, FirstEnabled, Quiet;
    QuietSame(db, db);
    match FirstEnabled(db.nodes)
    case None =>
    case Some(i) =>
      if n > 0 && DisableAt(db, i).Ok? {
        DisableAtIsQuiet(db, i);
        var db1 := DisableAt(db, i).value;
        DisableAllIsQuiet(db1, n - 1);
        if DisableAll(db1, n - 1).Ok? { QuietTransitive(db, db1, DisableAll(db1, n - 1).value); }
      }
  }

  lemma DisableIsQuiet(db: Db, agent: string)
    ensures DisableTx(db, agent).Ok? ==> Quiet(db, DisableTx(db, agent).value)
  {
    hide DisableAt, Hex, Quiet;
    match FindNode(db.nodes, agent)
    case None =>
    case Some(i) =>
      DisableAtIsQuiet(db, i);
      if DisableTx(db, agent).Ok? && !db.nodes[i].enabled { QuietSame(db, DisableTx(db, agent).value); }
  }

  lemma EnqueueIsQuiet(db: Db, o: Order, at: Times)
    ensures EnqueueTx(db, o, at).Ok? ==> Quiet(db, EnqueueTx(db, o, at).value)
  {
    hide EnqueueTx, Closes, Begins, Overtaken, CheckTask, ValidTask, FindNode, RecentlyReady;
    if EnqueueTx(db, o, at).Ok? {
      EnqueueSettings(db, o, at);
      EnqueueEffect(db, o, at);
      var db' := EnqueueTx(db, o, at).value;
      NewRowBegins(db.settings, db'.tasks[|db.tasks|].payload.task, at.third);
      forall i | 0 <= i < |db.tasks| ensures Closes(db.tasks[i], db'.tasks[i]) {
        assert db'.tasks[..|db.tasks|][i] == db'.tasks[i];
        OvertakenCloses(db.tasks[i], o.agent, at.first, db'.tasks[i]);
      }
    }
  }

  lemma EnqueueSettings(db: Db, o: Order, at: Times)
    requires EnqueueTx(db, o, at).Ok?
    ensures EnqueueTx(db, o, at).value.settings == db.settings
  {
    hide EnqueueTx, CloseTx, ValidTask;
    EnqueueShape(db, o, at);
    CloseTxShape(db, ExpireQueued(o.agent, at.first));
  }

  lemma SweptCloses(c: Sweep, r: TaskRow)
    ensures Closes(r, Swept(c, r))
  {
  }

  lemma OvertakenCloses(r: TaskRow, agent: string, now: int64, r': TaskRow)
    requires Overtaken(r, agent, now, r')
    ensures Closes(r, r')
  {
  }

  lemma NewRowBegins(s: Settings, t: Task, now: int64)
    requires ValidTask(t) && (s.trust.Some? ==> s.keyId.Some? && CheckTask(s.trust.value, t, s.keyId.value, now))
    ensures Begins(s, QueuedRow(t))
  {
    hide ValidTask, Key;
  }

  lemma ManageIsQuiet(db: Db, token: string, op: Operation, at: Times)
    ensures Quiet(db, Manage(db, token, op, at).db)
  {
    hide Quiet, Perform, Authorize, Privileged, EndTx;
    var tx := Manage(db, token, op, at);
    QuietSame(db, db);
    if AdminClock(db, at.first).Ok? {
      var db0 := AdminClock(db, at.first).value;
      EndTxShape(db0, Stale(at.first));
      if EndTx(db0, Stale(at.first)).Ok? {
        var db1 := EndTx(db0, Stale(at.first)).value;
        QuietSame(db, db1);
        match Authorize(db1, token, at.first)
        case None =>
        case Some(i) =>
          PerformIsQuiet(db1, db1.sessions[i], op, at);
          ManageEnds(db, db1, i, token, op, at);
      }
    }
  }

  lemma ManageEnds(db: Db, db1: Db, i: nat, token: string, op: Operation, at: Times)
    requires Quiet(db, db1) && AdminClock(db, at.first).Ok?
    requires EndTx(AdminClock(db, at.first).value, Stale(at.first)) == Ok(db1)
             && Authorize(db1, token, at.first) == Some(i)
    requires Perform(db1, db1.sessions[i], op, at).Ok? ==> Quiet(db1, Perform(db1, db1.sessions[i], op, at).value)
    ensures Quiet(db, Manage(db, token, op, at).db)
  {
    hide Quiet, Perform, Authorize, Privileged, EndTx, AdminClock, Note;
    var db' := Manage(db, token, op, at).db;
    QuietSame(db, db);
    if Manage(db, token, op, at).result.Ok? {
      var db2 := Perform(db1, db1.sessions[i], op, at).value;
      QuietSame(db2, Touch(db2, token, at.first));
      QuietTransitive(db1, db2, db');
      QuietTransitive(db, db1, db');
    } else if db' != db {
      QuietSame(db1, db');
      QuietTransitive(db, db1, db');
    }
  }

  lemma PerformIsQuiet(db: Db, s: SessionRow, op: Operation, at: Times)
    ensures Perform(db, s, op, at).Ok? ==> Quiet(db, Perform(db, s, op, at).value)
  {
    hide Quiet, EndTx, DisableTx, EnqueueTx, LiveTokens;
    match op
    case Submit(o) => EnqueueIsQuiet(db, o.(actor := s.user), at);
    case DisableNode(agent) => DisableIsQuiet(db, agent);
    case _ =>
      if Perform(db, s, op, at).Ok? {
        EndTxShape(db, LoggedOut(s.id));
        EndTxShape(db, UserRevoked(s.user));
        QuietSame(db, Perform(db, s, op, at).value);
      }
  }

  lemma FinishLoginIsQuiet(db: Db, attempt: Attempt, matched: bool, id: string, token: string, now: int64)
    ensures Quiet(db, FinishLogin(db, attempt, matched, id, token, now).db)
  {
    hide StillCurrent, Sum, FreshSession, Remaining, EndTx, Quiet;
    if AdminClock(db, now).Ok? { EndTxShape(AdminClock(db, now).value, Stale(now)); }
    QuietSame(db, FinishLogin(db, attempt, matched, id, token, now).db);
  }

  lemma QuarantineIsQuiet(db: Db)
    ensures Quiet(db, QuarantineRestore(db).db)
  {
    hide Quiet, DisableAll, Consumed, Bumped;
    QuietSame(db, db);
    DisableAllIsQuiet(db, |db.nodes|);
    if QuarantineRestore(db).result.Ok? {
      var db1 := DisableAll(db, |db.nodes|).value;
      QuietSame(db1, QuarantineRestore(db).db);
      QuietTransitive(db, db1, QuarantineRestore(db).db);
    }
  }

  /** Every operation but polling, result submission and those of the signer settings leaves the settings as they
      are, closes rows and adds queued ones, and does nothing else to the tasks. */
  lemma OtherStepsAreQuiet(w: World, op: Op, at: Times)
    requires !op.PollTask? && !op.Submit? && !op.Configure? && !op.Pause? && !op.Install? && !op.Switch?
    ensures Quiet(w.db, NextDb(w, op, at))
  {
    hide Quiet, EnqueueTx, DisableTx, Manage, SettingsOk, QuarantineRestore, CloseTx, FindLive, FinishLogin, Hex,
         IsEnabled, LiveTokens, CloseTx, RegistrationOk;
    var db, db' := w.db, NextDb(w, op, at);
    QuietSame(db, db);
    match op
    case Enqueue(o) => EnqueueIsQuiet(db, o, at);
    case DisableLocally(agent) => DisableIsQuiet(db, agent);
    case CancelForSwitch => CloseIsQuiet(db, CancelQueued);
    case Quarantine => QuarantineIsQuiet(db);
    case Administer(token, operation) => ManageIsQuiet(db, token, operation, at);
    case EndLogin(i, matched, id, token) =>
      if i < |w.attempts| { FinishLoginIsQuiet(db, w.attempts[i], matched, id, token, at.first); }
    case _ => QuietSame(db, db');
  }
}
