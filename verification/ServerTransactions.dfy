/** Every transaction of the server store keeps its invariant, and which of them a full audit log can stop. */
module ServerTransactions {
  import opened Core
  import opened Tables
  import opened Protocol
  import opened Ledgers
  import opened Trust
  import opened Envelope
  import opened ServerState
  import opened ServerInvariants

  type Signers = map<string, KeyId>
  type Issued = map<string, UserRow>

  ghost predicate Body(db: Db, signers: Signers, issued: Issued) {
    && TableInv(db.nodes, db.tasks) && SettingsOk(db.settings)
    && SignerBound(db.settings, db.tasks, signers) && AuthInv(db.users, db.sessions, issued)
  }

  ghost predicate Inv(db: Db, signers: Signers, issued: Issued) {
    Accounts(db, 0) && Body(db, signers, issued)
  }

  /** Events and reservations that the audit log still takes. */
  function SpaceLeft(db: Db): int {
    100000 - |db.ledger.events| - db.ledger.reserved
  }

  ghost predicate Live(db: Db, now: int64) {
    LiveVerified(db.settings, db.tasks, now) && InOrder(db.tasks, now)
  }

  /** The signer selected when a task is queued is remembered with its request ID. */
  function Recorded(signers: Signers, db: Db, db': Db): Signers {
    if |db'.tasks| > |db.tasks| && db.settings.keyId.Some? then
      signers[db'.tasks[|db.tasks|].request := db.settings.keyId.value]
    else signers
  }

  ghost predicate Kept(db: Db, db': Db, signers: Signers, issued: Issued, issued': Issued, at: Times) {
    && Inv(db', Recorded(signers, db, db'), issued') && History(db.tasks, db'.tasks)
    && (Ordered(at) && Live(db, at.first) ==> Live(db', at.third))
  }

  lemma TableTasksOk(db: Db)
    requires TableInv(db.nodes, db.tasks)
    ensures TasksOk(db.tasks)
  {
    hide TasksOk, Owned, Queues;
  }

  lemma LivePasses(db: Db, signers: Signers, issued: Issued, at: Times)
    requires Body(db, signers, issued) && Ordered(at) && Live(db, at.first)
    ensures Live(db, at.second) && Live(db, at.third)
  {
    hide TableInv, LiveVerified, InOrder, SignerBound, AuthInv, TasksOk;
    TableTasksOk(db);
    LiveLater(db.settings, db.tasks, at.first, at.second);
    LiveLater(db.settings, db.tasks, at.second, at.third);
  }

  lemma SameHistory(tasks: seq<TaskRow>)
    ensures History(tasks, tasks)
  {
  }

  /** A transaction that leaves tasks, nodes and settings alone. */
  lemma QuietKept(db: Db, db': Db, signers: Signers, issued: Issued, issued': Issued, at: Times)
    requires Inv(db, signers, issued) && Accounts(db', 0) && AuthInv(db'.users, db'.sessions, issued')
    requires db'.tasks == db.tasks && db'.nodes == db.nodes && db'.settings == db.settings
    ensures Kept(db, db', signers, issued, issued', at)
  {
    hide TableInv, SignerBound, AuthInv, Accounts, History, LiveVerified, InOrder;
    SameHistory(db.tasks);
    if Ordered(at) && Live(db, at.first) { LivePasses(db, signers, issued, at); }
  }

  lemma UnchangedKept(db: Db, signers: Signers, issued: Issued, at: Times)
    requires Inv(db, signers, issued)
    ensures Kept(db, db, signers, issued, issued, at)
  {
    hide Inv, AuthInv, Accounts, Kept;
    assert Accounts(db, 0) && AuthInv(db.users, db.sessions, issued) by { InvParts(db, signers, issued); }
    QuietKept(db, db, signers, issued, issued, at);
  }

  lemma InvParts(db: Db, signers: Signers, issued: Issued)
    requires Inv(db, signers, issued)
    ensures Accounts(db, 0) && AuthInv(db.users, db.sessions, issued) && SettingsOk(db.settings)
    ensures TableInv(db.nodes, db.tasks) && SignerBound(db.settings, db.tasks, signers)
  {
    hide TableInv, SignerBound, AuthInv, Accounts;
  }

  /** In a state the store reaches, the loops that close tasks and end sessions get through. */
  lemma LoopsSucceed(db: Db, c: Sweep, e: Ending, signers: Signers, issued: Issued)
    requires Inv(db, signers, issued)
    ensures CloseTx(db, c) == Ok(Close(db, c)) && EndTx(db, e) == Ok(End(db, e))
  {
    hide CloseTx, Close, EndTx, End, TasksOk, Owned, Queues, AuthInv, SignerBound;
    SweepSucceeds(db, c, 0);
    EndSucceeds(db, e);
  }

  lemma CloseSucceeds(db: Db, c: Sweep, signers: Signers, issued: Issued)
    requires Inv(db, signers, issued)
    ensures CloseTx(db, c) == Ok(Close(db, c))
  {
    hide Inv, CloseTx, Close;
    LoopsSucceed(db, c, Stale(0), signers, issued);
  }

  /** Closing tasks in the middle of a transaction. */
  lemma ClosePart(db: Db, c: Sweep, signers: Signers, issued: Issued)
    requires Inv(db, signers, issued) && !c.CancelNode?
    ensures Inv(Close(db, c), signers, issued) && History(db.tasks, Close(db, c).tasks)
    ensures forall now: int64 :: Live(db, now) ==> Live(Close(db, c), now)
  {
    hide TableInv, SignerBound, AuthInv, Accounts, History, LiveVerified, InOrder, SweptRows, SettingsOk;
    CloseAccounts(db, c, 0);
    SweepKeepsTable(db.nodes, db.tasks, c);
    SweepKeepsSigner(db.settings, db.tasks, signers, c);
    forall now: int64 | Live(db, now) ensures Live(Close(db, c), now) { SweepKeepsLive(db.settings, db.tasks, c, now); }
  }

  lemma InsertPart(db: Db, t: Task, signers: Signers, issued: Issued)
    requires Inv(db, signers, issued) && db.settings.keyId.Some? && InsertTask(db, t).Ok?
    requires ValidTask(t) && EnabledFor(db.nodes, t.agent, t.epoch) && |db.tasks| < MAX_STORED_TASKS
             && Sum(db.tasks, PendingOf(t.agent)) < MAX_PENDING
    ensures var db' := InsertTask(db, t).value;
            && db'.tasks == db.tasks + [QueuedRow(t)] && db'.settings == db.settings
            && Inv(db', signers[t.request := db.settings.keyId.value], issued) && History(db.tasks, db'.tasks)
            && forall now: int64 :: Live(db, now) ==> Live(db', now)
  {
    hide TableInv, SignerBound, AuthInv, History, LiveVerified, InOrder, SettingsOk, ValidTask, EnabledFor, FindTask;
    var db1 := db.(tasks := db.tasks + [QueuedRow(t)]);
    SumAppend(db.tasks, QueuedRow(t), Slots());
    NoteAccounts(db, db1, TaskQueued, t.request, 2);
    InsertKeepsTable(db.nodes, db.tasks, t);
    InsertKeepsSigner(db.settings, db.tasks, signers, t);
    forall now: int64 | Live(db, now) ensures Live(db1, now) { InsertKeepsLive(db.settings, db.tasks, t, now); }
  }

  /** What a successful admission did. */
  lemma EnqueueShape(db: Db, o: Order, at: Times)
    requires EnqueueTx(db, o, at).Ok?
    ensures FindNode(db.nodes, o.agent).Some? && CloseTx(db, ExpireQueued(o.agent, at.first)).Ok?
    ensures var node := db.nodes[FindNode(db.nodes, o.agent).value];
            var t := NewTask(o, node, at.second);
            var db1 := CloseTx(db, ExpireQueued(o.agent, at.first)).value;
            && node.enabled && db.settings.keyId.Some? && ValidTask(t)
            && |db1.tasks| < MAX_STORED_TASKS && Sum(db1.tasks, PendingOf(o.agent)) < MAX_PENDING
            && EnqueueTx(db, o, at) == InsertTask(db1, t)
  {
    hide ValidTask, CheckTask, SettingsOk, Hex, CloseTx, InsertTask;
  }

  lemma EnqueueKept(db: Db, o: Order, at: Times, signers: Signers, issued: Issued)
    requires Inv(db, signers, issued) && EnqueueTx(db, o, at).Ok?
    ensures Kept(db, EnqueueTx(db, o, at).value, signers, issued, issued, at)
    ensures EnqueueTx(db, o, at).value.sessions == db.sessions
  {
    hide Inv, Live, History, ValidTask, EnqueueTx, InsertTask, Sum, CloseTx;
    EnqueueShape(db, o, at);
    CloseSucceeds(db, ExpireQueued(o.agent, at.first), signers, issued);
    var i := FindNode(db.nodes, o.agent).value;
    var t := NewTask(o, db.nodes[i], at.second);
    var db1 := Close(db, ExpireQueued(o.agent, at.first));
    ClosePart(db, ExpireQueued(o.agent, at.first), signers, issued);
    assert EnabledFor(db1.nodes, t.agent, t.epoch) by { assert db1.nodes[i].enabled; }
    hide EnabledFor;
    InsertPart(db1, t, signers, issued);
    var db' := InsertTask(db1, t).value;
    HistoryTransitive(db.tasks, db1.tasks, db'.tasks);
    InsertedSessions(db1, t);
    if Ordered(at) && Live(db, at.first) {
      assert Live(db', at.first);
      InvLivePasses(db', Recorded(signers, db, db'), issued, at);
    }
  }

  lemma InsertedSessions(db: Db, t: Task)
    ensures InsertTask(db, t).Ok? ==> InsertTask(db, t).value.sessions == db.sessions
  {
  }

  lemma InvLivePasses(db: Db, signers: Signers, issued: Issued, at: Times)
    requires Inv(db, signers, issued) && Ordered(at) && Live(db, at.first)
    ensures Live(db, at.second) && Live(db, at.third)
  {
    hide Body, Live, Accounts;
    LivePasses(db, signers, issued, at);
  }

  // ---- Delivery and results ----

  lemma UpdatePart(db: Db, db1: Db, i: nat, r': TaskRow, kind: Kind, signers: Signers, issued: Issued)
    requires Inv(db, signers, issued) && i < |db.tasks| && db1 == db.(tasks := db.tasks[i := r'])
    requires RowEvolves(db.tasks[i], r') && TaskOk(r') && RowSigned(db.settings, r', signers)
             && SlotsOf(r') == SlotsOf(db.tasks[i]) - 1
    requires r'.result.Some? || r'.state.Dispatched?
    ensures var r := Note(db1, kind, r'.request, -1);
            && r.Ok? && r.value.tasks == db1.tasks && r.value.settings == db.settings
            && Inv(r.value, signers, issued) && History(db.tasks, r.value.tasks)
  {
    hide TableInv, SignerBound, AuthInv, History, SettingsOk, TaskOk, RowEvolves, RowSigned;
    SumUpdate(db.tasks, i, r', Slots());
    NoteAccounts(db, db1, kind, r'.request, -1);
    UpdateKeepsTable(db.nodes, db.tasks, i, r');
    UpdateKeepsSigner(db.settings, db.tasks, signers, i, r');
  }

  lemma RowFacts(db: Db, signers: Signers, issued: Issued, i: nat)
    requires Inv(db, signers, issued) && i < |db.tasks|
    ensures TaskOk(db.tasks[i]) && RowSigned(db.settings, db.tasks[i], signers)
  {
    hide Owned, Queues, AuthInv, Accounts, TaskOk, RowSigned, DistinctRequests;
  }

  /** First delivery: always possible for lack of nothing but a usable key, and it strands nothing. */
  lemma DispatchPart(db: Db, i: nat, key: PublicKey, selectedAt: int64, now: int64, signers: Signers, issued: Issued)
    requires Inv(db, signers, issued) && i < |db.tasks| && db.tasks[i].state.Queued?
             && db.settings.keyId == Some(Sha256(key))
    requires Next(db.tasks, db.tasks[i].agent, db.tasks[i].epoch, selectedAt) == Some(i)
             && SignTask(db.settings, db.tasks[i].payload, key, now).Some?
    ensures var e := SignTask(db.settings, db.tasks[i].payload, key, now).value;
            var r := DispatchAt(db, i, e);
            && r.Ok? && Inv(r.value, signers, issued) && History(db.tasks, r.value.tasks)
            && |r.value.tasks| == |db.tasks|
            && (selectedAt <= now && Live(db, now) ==> Live(r.value, now))
  {
    hide Inv, TableInv, LiveVerified, InOrder, SignTask, Next, History, DecodeTask, EnvelopeVerifies, SignedBy;
    RowFacts(db, signers, issued, i);
    var row := db.tasks[i];
    SignTaskVerifies(db.settings, row.payload, key, now);
    var e := SignTask(db.settings, row.payload, key, now).value;
    var r' := row.(state := Dispatched, envelope := Some(e));
    UpdatePart(db, db.(tasks := db.tasks[i := r']), i, r', TaskDispatched, signers, issued);
    if selectedAt <= now && Live(db, now) {
      InvParts(db, signers, issued);
      DispatchKeepsLive(db.settings, db.nodes, db.tasks, i, e, selectedAt, now);
    }
  }

  lemma DeliverKept(db: Db, i: nat, key: PublicKey, selectedAt: int64, now: int64, signers: Signers, issued: Issued)
    requires Inv(db, signers, issued) && i < |db.tasks| && !db.tasks[i].state.Terminal?
             && db.settings.keyId == Some(Sha256(key))
    requires Next(db.tasks, db.tasks[i].agent, db.tasks[i].epoch, selectedAt) == Some(i)
    ensures var r := Deliver(db, i, key, now);
            && (r.Ok? ==>
                 Inv(r.value.0, signers, issued) && History(db.tasks, r.value.0.tasks)
                   && |r.value.0.tasks| == |db.tasks|)
            && (r.Ok? && selectedAt <= now && Live(db, now) ==> Live(r.value.0, now))
            && (r.Err? ==> !r.error.AuditFailed? && r.error != CorruptTask)
  {
    hide Inv, Live, SignTask, Next, EnvelopeVerifies, RowSigned, DispatchAt, History;
    RowFacts(db, signers, issued, i);
    if db.tasks[i].state.Queued? && SignTask(db.settings, db.tasks[i].payload, key, now).Some? {
      DispatchPart(db, i, key, selectedAt, now, signers, issued);
    }
    SameHistory(db.tasks);
  }

  /** Polling keeps everything, and never fails for lack of audit capacity or because of a stored row. */
  lemma PollKept(
      db: Db, agent: string, epoch: string, credential: bool, digest: string, key: PublicKey, at: Times,
      signers: Signers, issued: Issued)
    requires Inv(db, signers, issued)
    ensures var tx := Poll(db, agent, epoch, credential, digest, key, at);
            Kept(db, tx.db, signers, issued, issued, at)
              && (tx.result.Err? ==> !tx.result.error.AuditFailed? && tx.result.error != CorruptTask)
  {
    hide Inv, Live, Deliver, History, SettingsOk, Hex, IsEnabled, Close, CloseTx, Kept;
    var c := ExpireQueued(agent, at.first);
    CloseSucceeds(db, c, signers, issued);
    var db1 := Close(db, c);
    UnchangedKept(db, signers, issued, at);
    ClosePart(db, c, signers, issued);
    CloseShape(db, c);
    if Poll(db, agent, epoch, credential, digest, key, at).db == db1 {
      ClosedKept(db, db1, signers, issued, at);
    }
    match Next(db1.tasks, agent, epoch, at.second)
    case None =>
    case Some(i) =>
      if db.settings.keyId == Some(Sha256(key)) {
        DeliverKept(db1, i, key, at.second, at.third, signers, issued);
        var d := Deliver(db1, i, key, at.third);
        if d.Ok? {
          DeliveredKept(db, db1, d.value.0, signers, issued, at);
        }
      }
  }

  lemma CloseShape(db: Db, c: Sweep)
    ensures |Close(db, c).tasks| == |db.tasks| && Close(db, c).settings == db.settings && Close(db, c).nodes == db.nodes
    ensures Close(db, c).sessions == db.sessions && Close(db, c).users == db.users
  {
  }

  lemma ClosedKept(db: Db, db1: Db, signers: Signers, issued: Issued, at: Times)
    requires Inv(db1, signers, issued) && History(db.tasks, db1.tasks) && |db1.tasks| == |db.tasks|
    requires forall now: int64 :: Live(db, now) ==> Live(db1, now)
    ensures Kept(db, db1, signers, issued, issued, at)
  {
    hide Inv, Live, History;
    if Ordered(at) && Live(db, at.first) { InvLivePasses(db1, signers, issued, at); }
  }

  lemma DeliveredKept(db: Db, db1: Db, db2: Db, signers: Signers, issued: Issued, at: Times)
    requires Inv(db1, signers, issued) && History(db.tasks, db1.tasks) && |db2.tasks| == |db.tasks|
    requires forall now: int64 :: Live(db, now) ==> Live(db1, now)
    requires Inv(db2, signers, issued) && History(db1.tasks, db2.tasks)
             && (at.second <= at.third && Live(db1, at.third) ==> Live(db2, at.third))
    ensures Kept(db, db2, signers, issued, issued, at)
  {
    hide Inv, Live, History;
    HistoryTransitive(db.tasks, db1.tasks, db2.tasks);
    if Ordered(at) && Live(db, at.first) { InvLivePasses(db1, signers, issued, at); }
  }

  lemma ReportPart(db: Db, i: nat, data: ResultText, x: TaskResult, signers: Signers, issued: Issued, at: Times)
    requires Inv(db, signers, issued) && i < |db.tasks| && db.tasks[i].state.Dispatched?
    requires DecodeResult(data) == Some(x) && x.request == db.tasks[i].request && ResultError(db.tasks[i], x).None?
    ensures var r := ReportAt(db, i, data, x); r.Ok? && Kept(db, r.value, signers, issued, issued, at)
  {
    hide Inv, Live, History, DecodeTask, DecodeResult, ResultError, SignedBy;
    RowFacts(db, signers, issued, i);
    var row := db.tasks[i];
    var r' := row.(state := Terminal(x.status), result := Some(data), closing := Reported(x.code));
    assert ResultError(r', x) == ResultError(row, x) by { SameAssignment(row, r', x); }
    UpdatePart(db, db.(tasks := db.tasks[i := r']), i, r', ResultReceived, signers, issued);
    var db' := ReportAt(db, i, data, x).value;
    if Ordered(at) && Live(db, at.first) {
      ReportKeepsLive(db, db', i, r', at.first);
      InvLivePasses(db', signers, issued, at);
    }
  }

  lemma ReportKeepsLive(db: Db, db': Db, i: nat, r': TaskRow, now: int64)
    requires Live(db, now) && i < |db.tasks| && r'.state.Terminal? && db'.tasks == db.tasks[i := r']
             && db'.settings == db.settings
    ensures Live(db', now)
  {
    hide LiveVerified, InOrder;
    CloseRowKeepsLive(db.settings, db.tasks, i, r', now);
  }

  lemma SameAssignment(row: TaskRow, r': TaskRow, x: TaskResult)
    requires r'.payload == row.payload
    ensures ResultError(r', x) == ResultError(row, x)
  {
  }

  /** Receiving a result keeps everything and never fails for lack of audit capacity. */
  lemma SubmitKept(
      db: Db, agent: string, epoch: string, credential: bool, data: ResultText, at: Times, signers: Signers,
      issued: Issued)
    requires Inv(db, signers, issued)
    ensures var tx := SubmitResult(db, agent, epoch, credential, data);
            Kept(db, tx.db, signers, issued, issued, at) && (tx.result.Err? ==> !tx.result.error.AuditFailed?)
  {
    hide Inv, Kept, ReportAt, DecodeResult, IsEnabled, ResultError, TextSize;
    UnchangedKept(db, signers, issued, at);
    match DecodeResult(data)
    case None =>
    case Some(r) =>
      match FindTask(db.tasks, r.request)
      case None =>
      case Some(i) =>
        if db.tasks[i].state.Dispatched? && ResultError(db.tasks[i], r).None? {
          ReportPart(db, i, data, r, signers, issued, at);
        }
        if ResultError(db.tasks[i], r).Some? { ResultErrorKinds(db.tasks[i], r); }
  }

  lemma ResultErrorKinds(row: TaskRow, r: TaskResult)
    requires ResultError(row, r).Some?
    ensures !ResultError(row, r).value.AuditFailed?
  {
  }

  // ---- Nodes ----

  lemma DisablePart(db: Db, i: nat, signers: Signers, issued: Issued, at: Times)
    requires Inv(db, signers, issued) && i < |db.nodes| && db.nodes[i].enabled
    ensures var r := DisableAt(db, i);
            && r.Ok? && Kept(db, r.value, signers, issued, issued, at) && |r.value.tasks| == |db.tasks|
            && r.value.sessions == db.sessions && r.value.settings == db.settings && r.value.users == db.users
            && r.value.nodes == db.nodes[i := db.nodes[i].(enabled := false)]
  {
    hide SignerBound, AuthInv, Accounts, History, LiveVerified, InOrder, SettingsOk, SweptRows, Note, TasksOk, CloseTx,
         TableInv;
    InvParts(db, signers, issued);
    TableTasksOk(db);
    DisableAccounts(db, i);
    CloseTxShape(db.(nodes := db.nodes[i := db.nodes[i].(enabled := false)]), CancelNode(db.nodes[i].agent));
    DisableKeepsTable(db.nodes, db.tasks, i);
    var c := CancelNode(db.nodes[i].agent);
    SweepKeepsSigner(db.settings, db.tasks, signers, c);
    var db' := DisableAt(db, i).value;
    assert db'.tasks == SweptRows(db.tasks, c) && db'.settings == db.settings;
    if Ordered(at) && Live(db, at.first) {
      SweepKeepsLive(db.settings, db.tasks, c, at.first);
      LivePasses(db', signers, issued, at);
    }
  }

  /** A note with no slot change keeps everything and fails exactly when the log is full. */
  lemma NotePart(db: Db, db1: Db, kind: Kind, subject: string, signers: Signers, issued: Issued, at: Times)
    requires Inv(db, signers, issued) && Accounts(db1, 0) && AuthInv(db1.users, db1.sessions, issued)
    requires db1.tasks == db.tasks && db1.nodes == db.nodes && db1.settings == db.settings
    ensures var r := Note(db1, kind, subject, 0);
            && (r.Ok? ==> Kept(db, r.value, signers, issued, issued, at))
            && (r.Err? <==> |db1.ledger.events| + db1.ledger.reserved >= CAPACITY)
            && (r.Err? ==> r.error == AuditFailed(AuditFull))
  {
    NoteAccounts(db1, db1, kind, subject, 0);
    hide Inv, Accounts, AuthInv, Kept;
    var r := Note(db1, kind, subject, 0);
    if r.Ok? { QuietKept(db, r.value, signers, issued, issued, at); }
  }

  predicate Full(db: Db) {
    |db.ledger.events| + db.ledger.reserved >= CAPACITY
  }

  /** Disabling keeps everything; a full audit log stops it only when the node is already disabled. */
  lemma DisableKept(db: Db, agent: string, signers: Signers, issued: Issued, at: Times)
    requires Inv(db, signers, issued)
    ensures var r := DisableTx(db, agent);
            && (r.Ok? ==>
                 Kept(db, r.value, signers, issued, issued, at) && r.value.sessions == db.sessions
                   && |r.value.tasks| == |db.tasks|)
            && (r.Err? && r.error.AuditFailed? <==>
                  Hex(agent, 32) && Full(db) && FindNode(db.nodes, agent).Some?
                    && !db.nodes[FindNode(db.nodes, agent).value].enabled)
            && (r.Err? ==> r.error in {BadRequest, NoSuchNode, AuditFailed(AuditFull)})
  {
    hide Inv, Kept, DisableAt, Accounts, AuthInv, Note;
    InvParts(db, signers, issued);
    NotePart(db, db, DisableUnchanged, agent, signers, issued, at);
    match FindNode(db.nodes, agent)
    case None =>
    case Some(i) => if db.nodes[i].enabled { DisablePart(db, i, signers, issued, at); }
  }

  lemma NodesKept(db: Db, db': Db, signers: Signers, issued: Issued, at: Times)
    requires Inv(db, signers, issued) && Accounts(db', 0) && TableInv(db'.nodes, db.tasks)
    requires db' ==
             db.(nodes := db'.nodes, fingerprints := db'.fingerprints, tokens := db'.tokens, ledger := db'.ledger)
    ensures Kept(db, db', signers, issued, issued, at)
  {
    hide TableInv, SignerBound, AuthInv, Accounts, History, LiveVerified, InOrder;
    SameHistory(db.tasks);
    if Ordered(at) && Live(db, at.first) { LivePasses(db, signers, issued, at); }
  }

  lemma RegisterKept(db: Db, token: string, r: Registration, at: Times, signers: Signers, issued: Issued)
    requires Inv(db, signers, issued)
    ensures Kept(db, Register(db, token, r, at.first).db, signers, issued, issued, at)
  {
    hide Inv, Kept, TableInv;
    UnchangedKept(db, signers, issued, at);
    var tx := Register(db, token, r, at.first);
    if tx.result.Ok? {
      InvParts(db, signers, issued);
      var node := NodeRow(r.agent, r.epoch, true, "", false, 0);
      var db1 := db.(tokens := tx.db.tokens, nodes := db.nodes + [node], fingerprints := tx.db.fingerprints);
      SumAppend(db.nodes, node, EnabledNode());
      NoteAccounts(db, db1, NodeEnrolled, r.agent, 1);
      assert DistinctAgents(db.nodes) by { TableAgents(db.nodes, db.tasks); }
      NodesKeepTable(db.nodes, db1.nodes, db.tasks);
      NodesKept(db, tx.db, signers, issued, at);
    }
  }

  lemma TableAgents(nodes: seq<NodeRow>, tasks: seq<TaskRow>)
    requires TableInv(nodes, tasks)
    ensures DistinctAgents(nodes)
  {
    hide TasksOk, Owned, Queues;
  }

  lemma HeartbeatKept(
      db: Db, agent: string, epoch: string, credential: bool, digest: string, ready: bool, nanos: int, at: Times,
      signers: Signers, issued: Issued)
    requires Inv(db, signers, issued)
    ensures Kept(db, Heartbeat(db, agent, epoch, credential, digest, ready, nanos).db, signers, issued, issued, at)
  {
    hide Inv, Kept, TableInv;
    UnchangedKept(db, signers, issued, at);
    var tx := Heartbeat(db, agent, epoch, credential, digest, ready, nanos);
    if tx.result.Ok? {
      InvParts(db, signers, issued);
      var i := FindNode(db.nodes, agent).value;
      TableAgents(db.nodes, db.tasks);
      SumUpdate(db.nodes, i, tx.db.nodes[i], EnabledNode());
      NodesKeepTable(db.nodes, tx.db.nodes, db.tasks);
      NodesKept(db, tx.db, signers, issued, at);
    }
  }

  // ---- Signers ----

  /** A change of settings alone. */
  lemma SettingsKept(db: Db, s': Settings, kind: Kind, signers: Signers, issued: Issued, at: Times)
    requires Inv(db, signers, issued) && SettingsOk(s') && SignerBound(s', db.tasks, signers)
    requires Ordered(at) && Live(db, at.first) ==> LiveVerified(s', db.tasks, at.third)
    ensures Kept(db, Committed(db, Note(db.(settings := s'), kind, "", 0)).db, signers, issued, issued, at)
  {
    UnchangedKept(db, signers, issued, at);
    var db1 := db.(settings := s');
    NoteAccounts(db, db1, kind, "", 0);
    hide TableInv, SignerBound, AuthInv, Accounts, LiveVerified, InOrder, History, SettingsOk, Note;
    SameHistory(db.tasks);
    if Ordered(at) && Live(db, at.first) { LivePasses(db, signers, issued, at); }
  }

  lemma ConfigureKept(db: Db, key: PublicKey, at: Times, signers: Signers, issued: Issued)
    requires Inv(db, signers, issued)
    ensures Kept(db, ConfigureSigner(db, key).db, signers, issued, issued, at)
  {
    hide Inv, Kept, TableInv, SignerBound, LiveVerified, InOrder, Note;
    UnchangedKept(db, signers, issued, at);
    InvParts(db, signers, issued);
    if db.settings.keyId.None? {
      var s' := db.settings.(keyId := Some(Sha256(key)));
      SettingsKeepSigner(db.settings, s', db.tasks, signers);
      if Ordered(at) && Live(db, at.first) {
        InvLivePasses(db, signers, issued, at);
        SettingsKeepLive(db.settings, s', db.tasks, at.third);
      }
      SettingsKept(db, s', SignerConfigured, signers, issued, at);
    }
  }

  lemma PauseKept(db: Db, paused: bool, at: Times, signers: Signers, issued: Issued)
    requires Inv(db, signers, issued)
    ensures Kept(db, PauseDispatch(db, paused, at.first).db, signers, issued, issued, at)
  {
    hide Inv, Kept, TableInv, SignerBound, InOrder, Note, InWindow, EnvelopeVerifies;
    UnchangedKept(db, signers, issued, at);
    InvParts(db, signers, issued);
    var s' := db.settings.(paused := paused);
    SettingsKeepSigner(db.settings, s', db.tasks, signers);
    if Ordered(at) && Live(db, at.first) {
      InvLivePasses(db, signers, issued, at);
      PausedKeepsLive(db.settings, paused, db.tasks, at.third);
    }
    hide LiveVerified, RowLive;
    SettingsKept(db, s', DispatchChanged, signers, issued, at);
  }

  lemma PausedKeepsLive(s: Settings, paused: bool, tasks: seq<TaskRow>, now: int64)
    requires LiveVerified(s, tasks, now)
    ensures LiveVerified(s.(paused := paused), tasks, now)
  {
    forall i | 0 <= i < |tasks| ensures RowLive(s.(paused := paused), tasks[i], now) {
      assert RowLive(s, tasks[i], now);
    }
  }

  lemma InstallKept(db: Db, expected: Baseline, next: TrustSet, at: Times, signers: Signers, issued: Issued)
    requires Inv(db, signers, issued)
    ensures Kept(db, InstallTrust(db, expected, next, at).db, signers, issued, issued, at)
  {
    hide Inv, Kept, TableInv, SignerBound, LiveVerified, InOrder, Note, Valid, Accepted, SameTrust, MatchesBaseline,
         AllLiveVerify, Sound;
    UnchangedKept(db, signers, issued, at);
    InvParts(db, signers, issued);
    if InstallTrust(db, expected, next, at).db != db {
      var s' := db.settings.(trust := Some(next));
      SettingsKeepSigner(db.settings, s', db.tasks, signers);
      TableTasksOk(db);
      if Ordered(at) { InstallKeepsLive(db.settings, db.tasks, next, at); }
      hide TasksOk;
      SettingsKept(db, s', TrustChanged, signers, issued, at);
    }
  }

  lemma SwitchKept(db: Db, id: KeyId, at: Times, signers: Signers, issued: Issued)
    requires Inv(db, signers, issued)
    ensures Kept(db, SwitchSigner(db, id, at.first).db, signers, issued, issued, at)
  {
    hide Inv, Kept, TableInv, SignerBound, LiveVerified, InOrder, Note, Valid, NoneQueued;
    UnchangedKept(db, signers, issued, at);
    InvParts(db, signers, issued);
    if SwitchSigner(db, id, at.first).db != db {
      var s' := db.settings.(keyId := Some(id));
      SettingsKeepSigner(db.settings, s', db.tasks, signers);
      if Ordered(at) && Live(db, at.first) {
        InvLivePasses(db, signers, issued, at);
        SettingsKeepLive(db.settings, s', db.tasks, at.third);
      }
      SettingsKept(db, s', SignerSelected, signers, issued, at);
    }
  }

  /** A queued row is rejected because of the signer; any other stays exactly as it was. */
  predicate QueuedIsCancelled(r: TaskRow, r': TaskRow) {
    r' == if r.state.Queued? then r.(state := Terminal(Rejected), closing := SignerChanged) else r
  }

  lemma CancelledRows(db: Db)
    ensures CancelQueuedTasks(db).result.Err? ==> CancelQueuedTasks(db).db == db
    ensures CancelQueuedTasks(db).result.Ok? ==>
              forall i :: 0 <= i < |db.tasks| ==> QueuedIsCancelled(db.tasks[i], CancelQueuedTasks(db).db.tasks[i])
  {
    hide SettingsOk, CloseTx;
    CloseTxShape(db, CancelQueued);
  }

  /** Before a switch of signers every queued task is terminated, and every other row stays as it was. */
  lemma CancelKept(db: Db, at: Times, signers: Signers, issued: Issued)
    requires Inv(db, signers, issued)
    ensures Kept(db, CancelQueuedTasks(db).db, signers, issued, issued, at)
    ensures var tx := CancelQueuedTasks(db);
            && |tx.db.tasks| == |db.tasks| && (tx.result.Err? ==> tx.db == db)
            && (tx.result.Ok? ==> forall i :: 0 <= i < |db.tasks| ==> QueuedIsCancelled(db.tasks[i], tx.db.tasks[i]))
  {
    hide Inv, Kept, Live, History, Close, CloseTx;
    UnchangedKept(db, signers, issued, at);
    CloseSucceeds(db, CancelQueued, signers, issued);
    CloseShape(db, CancelQueued);
    ClosePart(db, CancelQueued, signers, issued);
    ClosedKept(db, Close(db, CancelQueued), signers, issued, at);
    CancelledRows(db);
  }

  lemma InstallSameTasks(db: Db, expected: Baseline, next: TrustSet, at: Times)
    ensures InstallTrust(db, expected, next, at).db.tasks == db.tasks
  {
    hide Valid, SettingsOk, Accepted, SameTrust, MatchesBaseline, AllLiveVerify, Sound;
  }

  lemma IssuedSameTasks(db: Db, token: string, ttl: int, nanos: int, actor: string)
    ensures IssueTokenTx(db, token, ttl, nanos, actor).Ok? ==>
              IssueTokenTx(db, token, ttl, nanos, actor).value.tasks == db.tasks
  {
    hide LiveTokens;
  }
}
