/** What single server transactions do, exactly: deliver, accept, queue, refuse. */
module ServerEffects {
  import opened Core
  import opened Tables
  import opened Protocol
  import opened Ledgers
  import opened Trust
  import opened Envelope
  import opened ServerState
  import opened ServerInvariants
  import opened ServerTransactions
  import opened ServerAccounts

  // ---- Poll ----

  /** A task of this node that is open and not over. */
  predicate Waits(r: TaskRow, agent: string, epoch: string, now: int64) {
    r.agent == agent && r.epoch == epoch && (r.state == Queued || r.state == Dispatched) && r.expiresAt > now
  }

  /** The row at position i is the first of the node that can be delivered, and it is dispatched as `e`. */
  predicate HandsOut(tasks: seq<TaskRow>, agent: string, epoch: string, now: int64, i: nat, e: Envelope) {
    && i < |tasks| && Waits(tasks[i], agent, epoch, now) && tasks[i].state.Dispatched?
    && tasks[i].envelope == Some(e)
    && forall j :: 0 <= j < i ==> !Waits(tasks[j], agent, epoch, now)
  }

  /** No queued task of the node is past its time. */
  predicate NoneOverdue(tasks: seq<TaskRow>, agent: string, now: int64) {
    forall j :: 0 <= j < |tasks| && tasks[j].agent == agent && tasks[j].state.Queued? ==> tasks[j].expiresAt > now
  }

  /** A queued task of the node that is past its time is over, unsent; every other row stays as it is. */
  predicate Overtaken(r: TaskRow, agent: string, now: int64, r': TaskRow) {
    if r.agent == agent && r.state.Queued? && r.expiresAt <= now then
      r' == r.(state := Terminal(Expired), closing := ExpiredBeforeDispatch)
    else r' == r
  }

  /** So it is for all rows but the one at position i, which is handed out if i is one. */
  predicate AllOvertaken(tasks: seq<TaskRow>, agent: string, now: int64, tasks': seq<TaskRow>, i: int) {
    |tasks'| == |tasks| && forall j :: 0 <= j < |tasks| && j != i ==> Overtaken(tasks[j], agent, now, tasks'[j])
  }

  /** A task handed out for the first time waited in the queue; a later delivery changes nothing. */
  predicate Handed(r: TaskRow, r': TaskRow, e: Envelope) {
    r' == if r.state.Queued? then r.(state := Dispatched, envelope := Some(e)) else r
  }

  ghost predicate EnabledNodeIs(nodes: seq<NodeRow>, agent: string, epoch: string) {
    exists i :: 0 <= i < |nodes| && nodes[i] == NodeRow(agent, epoch, true, nodes[i].policyDigest, nodes[i].ready,
                                                        nodes[i].receivedAt)
  }

  lemma SweptAreOvertaken(tasks: seq<TaskRow>, agent: string, now: int64)
    ensures AllOvertaken(tasks, agent, now, SweptRows(tasks, ExpireQueued(agent, now)), -1)
  {
    hide SweptRows;
  }

  lemma SweptNotOverdue(tasks: seq<TaskRow>, agent: string, now: int64)
    ensures NoneOverdue(SweptRows(tasks, ExpireQueued(agent, now)), agent, now)
  {
    hide SweptRows;
  }

  lemma DeliverEffect(db: Db, i: nat, agent: string, epoch: string, key: PublicKey, selectedAt: int64, now: int64)
    requires Next(db.tasks, agent, epoch, selectedAt) == Some(i) && Deliver(db, i, key, now).Ok?
    ensures var (db', e) := Deliver(db, i, key, now).value;
            && HandsOut(db'.tasks, agent, epoch, selectedAt, i, e) && Handed(db.tasks[i], db'.tasks[i], e)
            && db'.tasks == db.tasks[i := db'.tasks[i]]
    ensures forall a: string, t: int64 ::
              NoneOverdue(db.tasks, a, t) ==> NoneOverdue(Deliver(db, i, key, now).value.0.tasks, a, t)
  {
    hide SignTask, EnvelopeVerifies, DecodeTask, Next;
  }

  /** A poll is answered to an enabled node only, with its own epoch and certificate and for the selected signer. An
      unpaused poll expires exactly what is overdue of the node and hands out the envelope of its first deliverable
      task, or nothing exactly when there is none; a failed poll changes nothing. */
  lemma PollEffect(db: Db, agent: string, epoch: string, credential: bool, digest: string, key: PublicKey, at: Times)
    ensures var tx := Poll(db, agent, epoch, credential, digest, key, at);
            && (tx.result.Ok? ==>
                  credential && EnabledNodeIs(db.nodes, agent, epoch) && db.settings.keyId == Some(Sha256(key))
                    && |key| == 32 && Hex(digest, 64) && tx.db == db.(tasks := tx.db.tasks, ledger := tx.db.ledger))
            && match tx.result
               case Err(_) => tx.db == db
               case Ok(None) =>
                 if db.settings.paused then tx.db == db
                 else
                   && NoneOverdue(tx.db.tasks, agent, at.first)
                   && (forall j :: 0 <= j < |tx.db.tasks| ==> !Waits(tx.db.tasks[j], agent, epoch, at.second))
                   && AllOvertaken(db.tasks, agent, at.first, tx.db.tasks, -1)
               case Ok(Some(e)) =>
                 && !db.settings.paused && NoneOverdue(tx.db.tasks, agent, at.first)
                 && exists i: nat ::
                      && HandsOut(tx.db.tasks, agent, epoch, at.second, i, e)
                      && AllOvertaken(db.tasks, agent, at.first, tx.db.tasks, i)
                      && Handed(db.tasks[i], tx.db.tasks[i], e)
  {
    hide SettingsOk, Hex, Deliver, HandsOut, NoneOverdue, Next, SweptRows, CloseTx;
    var c := ExpireQueued(agent, at.first);
    CloseTxShape(db, c);
    SweptNotOverdue(db.tasks, agent, at.first);
    SweptAreOvertaken(db.tasks, agent, at.first);
    if CloseTx(db, c).Ok? {
      var db1 := CloseTx(db, c).value;
      match Next(db1.tasks, agent, epoch, at.second)
      case None =>
      case Some(i) =>
        if Deliver(db1, i, key, at.third).Ok? {
          DeliverEffect(db1, i, agent, epoch, key, at.second, at.third);
          DeliverRest(db1, i, key, at.third);
        }
    }
  }

  lemma DeliverRest(db: Db, i: nat, key: PublicKey, now: int64)
    requires i < |db.tasks| && Deliver(db, i, key, now).Ok?
    ensures var db' := Deliver(db, i, key, now).value.0; db' == db.(tasks := db'.tasks, ledger := db'.ledger)
  {
    hide SignTask, EnvelopeVerifies, DecodeTask;
  }

  // ---- SubmitResult ----

  /** The result answers this task: same identities and type, the policy the task was made for unless the task was
      refused or ran out, and the resource that was asked for. */
  predicate Replies(x: TaskResult, t: Task) {
    && x.request == t.request && x.agent == t.agent && x.epoch == t.epoch && x.kind == t.kind
    && (x.policyDigest == t.policyDigest || x.status == Rejected || x.status == Expired)
    && ((t.kind == SshAudit || t.kind == ServiceStatus) && x.status == Succeeded ==>
          x.data.Report? && x.data.resource == t.resource)
  }

  /** The server's row waits for this result, or already holds these very bytes. */
  predicate Takes(row: TaskRow, agent: string, epoch: string, data: ResultText, x: TaskResult) {
    && row.request == x.request && row.agent == agent && row.epoch == epoch
    && row.payload.TaskText? && Replies(x, row.payload.task)
    && (row.result == Some(data) || (row.result.None? && row.state.Dispatched?))
  }

  lemma RepliesIff(row: TaskRow, x: TaskResult)
    requires TaskOk(row) && ValidResult(x)
    ensures ResultError(row, x).None? <==> row.payload.TaskText? && Replies(x, row.payload.task)
  {
    hide Hex, Identifier, ResultOk;
  }

  /** Exactly which submissions are acknowledged; with a host clock that audit events cannot be stamped with, only
      those whose bytes are already stored. */
  lemma SubmitAcceptsIff(
      db: Db, agent: string, epoch: string, credential: bool, data: ResultText, stamp: int, signers: Signers,
      issued: Issued)
    requires Inv(db, signers, issued)
    ensures Stamped(db, SubmitResult(db, agent, epoch, credential, data), stamp).result.Ok? <==>
              && TextSize(data) <= 32768 && DecodeResult(data).Some? && credential
              && EnabledNodeIs(db.nodes, agent, epoch)
              && (var x := DecodeResult(data).value;
                  x.agent == agent && x.epoch == epoch
                    && exists i :: 0 <= i < |db.tasks| && Takes(db.tasks[i], agent, epoch, data, x)
                                   && (stamp > 0 || db.tasks[i].result == Some(data)))
  {
    hide Inv, DecodeResult, IsEnabled, EnabledNodeIs, Replies, ResultError, TextSize, ReportAt, TasksOk, FindTask;
    InvTasksDistinct(db, signers, issued);
    EnabledIff(db, agent, epoch, signers, issued);
    if DecodeResult(data).Some? {
      var x := DecodeResult(data).value;
      match FindTask(db.tasks, x.request)
      case None =>
      case Some(i) =>
        if db.tasks[i].state.Dispatched? && ResultError(db.tasks[i], x).None? {
          ReportPart(db, i, data, x, signers, issued, Times(0, 0, 0));
          ReportIsLogged(db, i, data, x);
        }
        RowResultFinal(db, i, signers, issued);
        assert TaskOk(db.tasks[i]) by { RowFacts(db, signers, issued, i); }
        RepliesIff(db.tasks[i], x);
        assert forall j :: 0 <= j < |db.tasks| && Takes(db.tasks[j], agent, epoch, data, x) ==> j == i;
    }
  }

  lemma EnabledIff(db: Db, agent: string, epoch: string, signers: Signers, issued: Issued)
    requires Inv(db, signers, issued)
    ensures IsEnabled(db, agent, epoch) <==> EnabledNodeIs(db.nodes, agent, epoch)
  {
    InvParts(db, signers, issued);
    hide TasksOk, Owned, Queues, AuthInv, SignerBound, Accounts, FindNode;
  }

  lemma ReportIsLogged(db: Db, i: nat, data: ResultText, x: TaskResult)
    requires i < |db.tasks| && ReportAt(db, i, data, x).Ok?
    ensures ReportAt(db, i, data, x).value.ledger.events != db.ledger.events
  {
    var db' := ReportAt(db, i, data, x).value;
    assert |db'.ledger.events| == |db.ledger.events| + 1;
  }

  lemma InvTasksDistinct(db: Db, signers: Signers, issued: Issued)
    requires Inv(db, signers, issued)
    ensures DistinctRequests(db.tasks)
  {
    InvParts(db, signers, issued);
    hide Owned, Queues, AuthInv, SignerBound, TaskOk;
  }

  lemma RowResultFinal(db: Db, i: nat, signers: Signers, issued: Issued)
    requires Inv(db, signers, issued) && i < |db.tasks|
    ensures db.tasks[i].result.Some? ==> !db.tasks[i].state.Dispatched?
  {
    hide Inv, RowSigned, DecodeTask, DecodeResult, ResultError;
    RowFacts(db, signers, issued, i);
  }

  /** An acknowledged submission leaves its bytes in the row, with the status and code it reports, and touches no other
      row; one whose bytes were stored before changes nothing, nor does a refused one. The answer names the node, the
      task and the digest of the bytes. */
  lemma SubmitEffect(db: Db, agent: string, epoch: string, credential: bool, data: ResultText)
    ensures var tx := SubmitResult(db, agent, epoch, credential, data);
            if tx.result.Err? then tx.db == db
            else
              && data.ResultText? && tx.result.value == Ack(agent, epoch, data.result.request, Sha256(data))
              && exists i :: 0 <= i < |db.tasks| && Stored(db, tx.db, i, data)
  {
    hide IsEnabled, ResultError, TextSize, FindTask, ValidResult;
    var tx := SubmitResult(db, agent, epoch, credential, data);
    if tx.result.Ok? {
      var i := FindTask(db.tasks, DecodeResult(data).value.request).value;
      assert Stored(db, tx.db, i, data);
    }
  }

  predicate Stored(db: Db, db': Db, i: nat, data: ResultText)
    requires i < |db.tasks| && data.ResultText?
  {
    var r, x := db.tasks[i], data.result;
    && r.request == x.request
    && if r.result.Some? then r.result == Some(data) && db' == db
       else
         && db' == db.(tasks := db.tasks[i := r.(state := Terminal(x.status), result := Some(data),
                                             closing := Reported(x.code))], ledger := db'.ledger)
         && db'.ledger == Ledger(db.ledger.events + [Event(ResultReceived, r.request)], db.ledger.reserved - 1)
  }

  // ---- Enqueue ----

  lemma NoWrap(now: int64, seconds: int)
    requires 1 <= seconds <= MAX_LIFETIME && now < Wrap64(now + seconds)
    ensures Wrap64(now + seconds) == now + seconds
  {
  }

  /** An enabled node that has reported itself ready in the last five minutes, with a policy. */
  predicate Prepared(node: NodeRow, agent: string, nanos: int) {
    node.agent == agent && node.enabled && node.ready && Hex(node.policyDigest, 64)
    && node.receivedAt >= nanos - 300_000_000_000
  }

  /** What was asked for, made at `now` for the node's own epoch and last reported policy. */
  predicate MadeFor(t: Task, o: Order, node: NodeRow, now: int64) {
    && t.request == o.request && t.agent == o.agent && t.epoch == node.epoch && t.policyDigest == node.policyDigest
    && t.kind == o.kind && t.resource == o.resource && t.actor == o.actor
    && t.createdAt == now && t.expiresAt == now + o.ttl / 1_000_000_000
  }

  /** The selected signer may sign the task now. */
  predicate Signable(s: Settings, t: Task, now: int64) {
    && s.keyId.Some?
    && (s.trust.Some? ==>
          exists j ::
            0 <= j < |s.trust.value.keys| && s.trust.value.keys[j].id == s.keyId.value
              && s.trust.value.keys[j].notBefore <= now < s.trust.value.keys[j].notAfter
              && s.trust.value.keys[j].notBefore <= t.createdAt && t.expiresAt <= s.trust.value.keys[j].notAfter)
  }

  function OverdueOf(agent: string, now: int64): TaskRow -> nat {
    (r: TaskRow) => if r.agent == agent && r.state.Queued? && r.expiresAt <= now then 1 else 0
  }

  function WaitingOf(agent: string, now: int64): TaskRow -> nat {
    (r: TaskRow) =>
      if r.agent == agent && (r.state.Dispatched? || (r.state.Queued? && r.expiresAt > now)) then 1 else 0
  }

  lemma {:induction false} SweptCounts(tasks: seq<TaskRow>, agent: string, now: int64)
    ensures |SweepEvents(tasks, ExpireQueued(agent, now))| == Sum(tasks, OverdueOf(agent, now))
    ensures Sum(tasks, PickedSlots(ExpireQueued(agent, now))) == 2 * Sum(tasks, OverdueOf(agent, now))
    ensures Sum(SweptRows(tasks, ExpireQueued(agent, now)), PendingOf(agent)) == Sum(tasks, WaitingOf(agent, now))
  {
    var c := ExpireQueued(agent, now);
    if tasks != [] {
      var n := |tasks| - 1;
      SweptCounts(tasks[..n], agent, now);
      SumAppend(SweptRows(tasks[..n], c), Swept(c, tasks[n]), PendingOf(agent));
    }
  }

  /** The log and queue after the overdue tasks of the node are closed. */
  lemma AfterOverdue(db: Db, agent: string, now: int64, signers: Signers, issued: Issued)
    requires Inv(db, signers, issued)
    ensures var c := ExpireQueued(agent, now);
            && CloseTx(db, c) == Ok(Close(db, c)) && Close(db, c) == db.(tasks := Close(db, c).tasks,
                                                                        ledger := Close(db, c).ledger)
            && |Close(db, c).tasks| == |db.tasks|
            && AllOvertaken(db.tasks, agent, now, Close(db, c).tasks, -1)
            && SpaceLeft(Close(db, c)) == SpaceLeft(db) + Sum(db.tasks, OverdueOf(agent, now))
            && Close(db, c).ledger.reserved >= 0
            && Sum(Close(db, c).tasks, PendingOf(agent)) == Sum(db.tasks, WaitingOf(agent, now))
            && (forall request: string ::
                  FindTask(Close(db, c).tasks, request).None? <==> FindTask(db.tasks, request).None?)
  {
    hide Inv, SweepEvents, SweptRows, CloseTx, Overtaken, FindTask;
    var c := ExpireQueued(agent, now);
    CloseSucceeds(db, c, signers, issued);
    ClosePart(db, c, signers, issued);
    SweptCounts(db.tasks, agent, now);
    SweptAreOvertaken(db.tasks, agent, now);
    ReservedIsPositive(Close(db, c), signers, issued);
    forall request: string
      ensures FindTask(Close(db, c).tasks, request).None? <==> FindTask(db.tasks, request).None? {
      SweptSameRequests(db.tasks, c, request);
    }
  }

  lemma SweptSameRequests(tasks: seq<TaskRow>, c: Sweep, request: string)
    ensures FindTask(SweptRows(tasks, c), request).None? <==> FindTask(tasks, request).None?
  {
    hide FindTask, SweptRows;
    var tasks' := SweptRows(tasks, c);
    forall i | 0 <= i < |tasks| ensures tasks'[i].request == tasks[i].request { SweptEvolves(c, tasks[i]); }
  }

  lemma SignableIff(s: Settings, t: Task, now: int64)
    requires SettingsOk(s) && s.keyId.Some?
    ensures Signable(s, t, now) <==> s.trust.None? || CheckTask(s.trust.value, t, s.keyId.value, now)
  {
    hide Key, GoodWindow, Overlapping, Hex;
    if s.trust.Some? {
      var keys := s.trust.value.keys;
      KeysAreDistinct(s.trust.value);
      var k := Key(keys, s.keyId.value).value;
      var j :| 0 <= j < |keys| && keys[j] == k;
    }
  }

  lemma KeysAreDistinct(s: TrustSet)
    requires Valid(s)
    ensures forall i, j :: 0 <= i < j < |s.keys| ==> s.keys[i].id != s.keys[j].id
  {
    ValidIdsDistinct(s);
    hide Valid;
    forall i, j | 0 <= i < j < |s.keys| ensures s.keys[i].id != s.keys[j].id {
      assert Ids(s.keys)[i] != Ids(s.keys)[j];
    }
  }

  /** The node at position k, with everything a new task needs: the right node and lifetime, dispatch not paused, room
      in the table, the node's queue and the log, an unused ID, and a valid task that the selected signer may sign. */
  predicate Takable(db: Db, o: Order, at: Times, k: nat) {
    && k < |db.nodes| && Prepared(db.nodes[k], o.agent, o.nanos)
    && Hex(o.agent, 32) && 1_000_000_000 <= o.ttl <= 300_000_000_000 && !db.settings.paused
    && |db.tasks| < 10000 && Sum(db.tasks, WaitingOf(o.agent, at.first)) < 10
    && (forall i :: 0 <= i < |db.tasks| ==> db.tasks[i].request != o.request)
    && SpaceLeft(db) + Sum(db.tasks, OverdueOf(o.agent, at.first)) >= 3
    && var t := NewTask(o, db.nodes[k], at.second);
       MadeFor(t, o, db.nodes[k], at.second) && ValidTask(t) && Signable(db.settings, t, at.third)
  }

  lemma NewTaskIsMadeFor(o: Order, node: NodeRow, now: int64)
    requires NANOS <= o.ttl <= MAX_LIFETIME * NANOS && ValidTask(NewTask(o, node, now)) && node.agent == o.agent
    ensures MadeFor(NewTask(o, node, now), o, node, now)
  {
    hide Wrap64, Hex, Identifier, ResourceId;
    NoWrap(now, o.ttl / NANOS);
  }

  lemma InsertIff(db: Db, t: Task)
    requires db.ledger.reserved >= 0
    ensures InsertTask(db, t).Ok? <==> FindTask(db.tasks, t.request).None? && SpaceLeft(db) >= 3
  {
    hide FindTask;
  }

  lemma UnusedIff(tasks: seq<TaskRow>, request: string)
    ensures FindTask(tasks, request).None? <==> forall i :: 0 <= i < |tasks| ==> tasks[i].request != request
  {
    hide FindTask;
  }

  /** What the admission path asks for, once the overdue tasks of the node are closed. */
  predicate Asks(db: Db, db1: Db, o: Order, at: Times, k: nat)
    requires k < |db.nodes|
  {
    var node, t := db.nodes[k], NewTask(o, db.nodes[k], at.second);
    && Hex(o.agent, 32) && NANOS <= o.ttl <= MAX_LIFETIME * NANOS && node.enabled && RecentlyReady(node, o.nanos)
    && db.settings.keyId.Some? && !db.settings.paused
    && |db1.tasks| < MAX_STORED_TASKS && Sum(db1.tasks, PendingOf(o.agent)) < MAX_PENDING && ValidTask(t)
    && (db.settings.trust.Some? ==> CheckTask(db.settings.trust.value, t, db.settings.keyId.value, at.third))
    && InsertTask(db1, t).Ok?
  }

  lemma EnqueueAsks(db: Db, db1: Db, o: Order, at: Times, k: nat)
    requires SettingsOk(db.settings) && FindNode(db.nodes, o.agent) == Some(k)
             && CloseTx(db, ExpireQueued(o.agent, at.first)) == Ok(db1)
    ensures EnqueueTx(db, o, at).Ok? <==> Asks(db, db1, o, at, k)
  {
    hide CloseTx, FindNode, Hex, ValidTask, CheckTask, SettingsOk, Sum, InsertTask, NewTask, RecentlyReady;
  }

  lemma NewTaskRequest(o: Order, node: NodeRow, now: int64)
    ensures NewTask(o, node, now).request == o.request
  {
  }

  lemma PreparedIff(node: NodeRow, agent: string, nanos: int)
    requires node.agent == agent
    ensures Prepared(node, agent, nanos) <==> node.enabled && RecentlyReady(node, nanos)
  {
    hide Hex;
  }

  lemma SignableNeedsKey(s: Settings, t: Task, now: int64)
    ensures Signable(s, t, now) ==> s.keyId.Some?
  {
  }

  lemma EnqueueAtIff(db: Db, o: Order, at: Times, k: nat, signers: Signers, issued: Issued)
    requires Inv(db, signers, issued) && SettingsOk(db.settings) && FindNode(db.nodes, o.agent) == Some(k)
    ensures EnqueueTx(db, o, at).Ok? <==> Takable(db, o, at, k)
  {
    hide Inv, CloseTx, Close, FindNode, FindTask, Hex, ValidTask, CheckTask, SettingsOk, Signable, Sum, AllOvertaken,
         InsertTask, MadeFor, NewTask, SpaceLeft, EnqueueTx, Prepared, RecentlyReady;
    AfterOverdue(db, o.agent, at.first, signers, issued);
    var t := NewTask(o, db.nodes[k], at.second);
    var db1 := Close(db, ExpireQueued(o.agent, at.first));
    EnqueueAsks(db, db1, o, at, k);
    PreparedIff(db.nodes[k], o.agent, o.nanos);
    if db.settings.keyId.Some? { SignableIff(db.settings, t, at.third); }
    if NANOS <= o.ttl <= MAX_LIFETIME * NANOS && ValidTask(t) { NewTaskIsMadeFor(o, db.nodes[k], at.second); }
    NewTaskRequest(o, db.nodes[k], at.second);
    InsertIff(db1, t);
    UnusedIff(db.tasks, o.request);
    SignableNeedsKey(db.settings, t, at.third);
  }

  /** Exactly when a task is queued. */
  lemma EnqueueIff(db: Db, o: Order, at: Times, signers: Signers, issued: Issued)
    requires Inv(db, signers, issued)
    ensures EnqueueTx(db, o, at).Ok? <==> exists k: nat :: Takable(db, o, at, k)
  {
    InvParts(db, signers, issued);
    OneNode(db.nodes, db.tasks, o.agent);
    hide Inv, TableInv, AuthInv, SignerBound, Accounts, CloseTx, FindNode, FindTask, Hex, ValidTask, CheckTask,
         SettingsOk, Signable, Sum, MadeFor, NewTask;
    match FindNode(db.nodes, o.agent)
    case None =>
    case Some(k) =>
      EnqueueAtIff(db, o, at, k, signers, issued);
      if EnqueueTx(db, o, at).Ok? { assert Takable(db, o, at, k); }
  }

  lemma OneNode(nodes: seq<NodeRow>, tasks: seq<TaskRow>, agent: string)
    requires TableInv(nodes, tasks)
    ensures forall k :: 0 <= k < |nodes| && nodes[k].agent == agent ==> FindNode(nodes, agent) == Some(k)
  {
    hide TasksOk, Owned, Queues, FindNode;
  }

  /** A queued task says what was asked for: the node's own epoch and last reported policy, the creation
      time read here, and the requested lifetime, all inside the selected key's window; and nothing but the overdue
      tasks of the node changes besides. */
  lemma EnqueueEffect(db: Db, o: Order, at: Times)
    requires EnqueueTx(db, o, at).Ok?
    ensures var db' := EnqueueTx(db, o, at).value;
            var n := |db.tasks|;
            && |db'.tasks| == n + 1 && !db.settings.paused
            && db' == db.(tasks := db'.tasks, ledger := db'.ledger)
            && db'.ledger.events[|db'.ledger.events| - 1] == Event(TaskQueued, o.request)
            && (exists k: nat ::
                  k < |db.nodes| && Prepared(db.nodes[k], o.agent, o.nanos) && QueuedFor(db'.tasks[n], o, db.nodes[k], at))
            && (db.settings.trust.Some? ==>
                  db.settings.keyId.Some?
                    && CheckTask(db.settings.trust.value, db'.tasks[n].payload.task, db.settings.keyId.value, at.third))
            && AllOvertaken(db.tasks, o.agent, at.first, db'.tasks[..n], -1)
  {
    hide CheckTask, SettingsOk, Hex, SweptRows, CloseTx, Wrap64, Swept, Identifier, ResourceId, Overtaken;
    var c := ExpireQueued(o.agent, at.first);
    CloseTxShape(db, c);
    SweptAreOvertaken(db.tasks, o.agent, at.first);
    var k := FindNode(db.nodes, o.agent).value;
    NoWrap(at.second, o.ttl / NANOS);
    var db' := EnqueueTx(db, o, at).value;
    assert db'.tasks[..|db.tasks|] == SweptRows(db.tasks, c);
    assert QueuedFor(db'.tasks[|db.tasks|], o, db.nodes[k], at);
  }

  /** A row that waits, unsigned, for the task that was ordered. */
  predicate QueuedFor(r: TaskRow, o: Order, node: NodeRow, at: Times) {
    && r.payload.TaskText? && MadeFor(r.payload.task, o, node, at.second) && ValidTask(r.payload.task)
    && r == TaskRow(o.request, o.agent, node.epoch, TaskText(r.payload.task, ""), None, Queued,
                    r.payload.task.expiresAt, None, StillOpen)
  }

  // ---- Enrolment ----

  /** Complete, enabled, and with the leaf certificate, if one is given, of this very node. */
  predicate Enrollable(r: Registration) {
    && Hex(r.agent, 32) && Hex(r.epoch, 32) && Hex(r.certificate, 64) && r.enabled
    && (r.leaf.Some? ==>
          && r.leaf.value.agent == r.agent && r.leaf.value.epoch == r.epoch
          && r.leaf.value.fingerprint == r.certificate && r.leaf.value.signed)
  }

  /** The row at position i holds this token, unspent and not expired. */
  predicate Usable(db: Db, token: string, now: int64, i: nat) {
    && i < |db.tokens| && db.tokens[i] == TokenRow(Sha256(token), db.tokens[i].expiresAt, false)
    && db.tokens[i].expiresAt > now
  }

  /** The token is spent and the node is there, enabled, with no report of itself yet. */
  predicate Enrolled(db: Db, r: Registration, i: nat, db': Db)
    requires i < |db.tokens|
  {
    && db' == db.(tokens := db.tokens[i := db.tokens[i].(consumed := true)],
                  nodes := db.nodes + [NodeRow(r.agent, r.epoch, true, "", false, 0)],
                  fingerprints := db.fingerprints + {r.certificate}, ledger := db'.ledger)
    && db'.ledger == Ledger(db.ledger.events + [Event(NodeEnrolled, r.agent)], db.ledger.reserved + 1)
  }

  /** Exactly when a registration succeeds; it then consumes its live token and adds one enabled node, and a
      registration that fails leaves the token as it was. */
  lemma RegisterIff(
      db: Db, token: string, r: Registration, now: int64, stamp: int, signers: Signers, issued: Issued)
    requires Inv(db, signers, issued)
    ensures var tx := Stamped(db, Register(db, token, r, now), stamp);
            && (tx.result.Ok? <==>
                  && stamp > 0 && Hex(token, 64) && Enrollable(r) && |db.nodes| < 1000
                  && (forall k :: 0 <= k < |db.nodes| ==> db.nodes[k].agent != r.agent)
                  && r.certificate !in db.fingerprints && SpaceLeft(db) >= 2
                  && exists i: nat :: Usable(db, token, now, i))
            && (tx.result.Err? ==> tx.db == db)
            && (tx.result.Ok? ==> exists i: nat :: Usable(db, token, now, i) && Enrolled(db, r, i, tx.db))
  {
    hide Hex, Body, FindLive, FindNode, Expected;
    match FindLive(db.tokens, Sha256(token), now)
    case None =>
    case Some(i) =>
      assert Usable(db, token, now, i);
      var tx := Register(db, token, r, now);
      if tx.result.Ok? { assert Enrolled(db, r, i, tx.db); }
  }

  function Usables(now: int64): TokenRow -> nat {
    (x: TokenRow) => if !x.consumed && x.expiresAt > now then 1 else 0
  }

  lemma {:induction false} LiveTokensCount(tokens: seq<TokenRow>, now: int64)
    ensures |LiveTokens(tokens, now)| == Sum(tokens, Usables(now))
  {
    if tokens != [] { LiveTokensCount(tokens[..|tokens| - 1], now); }
  }

  /** Exactly when a token is issued: for a second to a quarter of an hour, at most a thousand waiting, and not one
      that waits already. */
  lemma IssueIff(
      db: Db, token: string, ttl: int, nanos: int, actor: string, stamp: int, signers: Signers, issued: Issued)
    requires Inv(db, signers, issued)
    ensures var now := Wrap64(nanos / 1_000_000_000);
            var tx := Stamped(db, Committed(db, IssueTokenTx(db, token, ttl, nanos, actor)), stamp);
            && (tx.result.Ok? <==>
                  && stamp > 0 && 1_000_000_000 <= ttl <= 900_000_000_000 && Sum(db.tokens, Usables(now)) < 1000
                  && (forall i: nat :: !Usable(db, token, now, i)) && SpaceLeft(db) >= 1)
            && (tx.result.Err? ==> tx.db == db)
  {
    hide LiveTokens, Sum, Wrap64, TableInv, SignerBound, AuthInv, SettingsOk;
    ReservedIsPositive(db, signers, issued);
    hide Inv;
    var now := Wrap64(nanos / NANOS);
    var live := LiveTokens(db.tokens, now);
    LiveTokensCount(db.tokens, now);
    if i: nat :| Usable(db, token, now, i) {
      assert db.tokens[i] in live;
    }
    if i :| 0 <= i < |live| && live[i].token == Sha256(token) {
      assert live[i] in live;
      var k: nat :| k < |db.tokens| && db.tokens[k] == live[i];
      assert Usable(db, token, now, k);
    }
  }

  /** Issuing drops spent and expired tokens, keeps every live one, adds exactly the new one and never lets
      more than a thousand wait. */
  lemma IssueEffect(db: Db, token: string, ttl: int, nanos: int, actor: string)
    requires IssueTokenTx(db, token, ttl, nanos, actor).Ok?
    ensures var db' := IssueTokenTx(db, token, ttl, nanos, actor).value;
            var n := |db'.tokens| - 1;
            && 0 <= n < 1000 && db' == db.(tokens := db'.tokens, ledger := db'.ledger)
            && db'.tokens[n] == TokenRow(Sha256(token), Wrap64((nanos + ttl) / 1_000_000_000), false)
            && (forall x :: x in db'.tokens[..n] <==>
                              x in db.tokens && !x.consumed && x.expiresAt > Wrap64(nanos / 1_000_000_000))
            && db'.ledger.events == db.ledger.events + [Event(TokenIssued, actor)]
  {
    hide LiveTokens, Wrap64;
    var live := LiveTokens(db.tokens, Wrap64(nanos / NANOS));
    assert IssueTokenTx(db, token, ttl, nanos, actor).value.tokens[..|live|] == live;
  }

  /** Exactly when a heartbeat is taken, and what it leaves of it. */
  lemma HeartbeatIff(
      db: Db, agent: string, epoch: string, credential: bool, digest: string, ready: bool, nanos: int,
      signers: Signers, issued: Issued)
    requires Inv(db, signers, issued)
    ensures var tx := Heartbeat(db, agent, epoch, credential, digest, ready, nanos);
            && (tx.result.Ok? <==>
                  credential && exists i :: 0 <= i < |db.nodes| && Reports(db, agent, epoch, nanos, i))
            && (tx.result.Err? ==> tx.db == db)
            && (tx.result.Ok? ==>
                  exists i :: 0 <= i < |db.nodes| && Reports(db, agent, epoch, nanos, i)
                    && tx.db == db.(nodes := db.nodes[i := NodeRow(agent, epoch, true, digest, ready, nanos)]))
  {
    EnabledIff(db, agent, epoch, signers, issued);
    InvParts(db, signers, issued);
    OneNode(db.nodes, db.tasks, agent);
    hide Inv, TableInv, FindNode, SignerBound, AuthInv, Accounts, SettingsOk, EnabledNodeIs;
    var tx := Heartbeat(db, agent, epoch, credential, digest, ready, nanos);
    if tx.result.Ok? { assert Reports(db, agent, epoch, nanos, FindNode(db.nodes, agent).value); }
  }

  /** This enabled node last reported at least five seconds ago. */
  predicate Reports(db: Db, agent: string, epoch: string, nanos: int, i: nat)
    requires i < |db.nodes|
  {
    var n := db.nodes[i];
    n.agent == agent && n.epoch == epoch && n.enabled && nanos - n.receivedAt >= 5_000_000_000
  }

  // ---- Disabling a node ----

  /** A task of a node that is disabled: rejected if it was not sent yet, open for a late result if it was. */
  predicate Abandoned(r: TaskRow, r': TaskRow) {
    match r.state
    case Queued => r' == r.(state := Terminal(Rejected), closing := NodeWasDisabled)
    case Dispatched => r' == r.(state := Terminal(Indeterminate), closing := NodeWasDisabled)
    case Terminal(_) => r' == r
  }

  /** Disabling an enabled node succeeds whenever its audit events can be stamped, resolves every task of the node,
      keeps what was resolved before, and touches no other node's tasks. */
  lemma DisableEffect(db: Db, agent: string, i: nat, stamp: int, signers: Signers, issued: Issued)
    requires Inv(db, signers, issued) && Hex(agent, 32) && FindNode(db.nodes, agent) == Some(i) && db.nodes[i].enabled
    ensures Stamped(db, Committed(db, DisableTx(db, agent)), stamp).result.Ok? <==> stamp > 0
    ensures var tx := Stamped(db, Committed(db, DisableTx(db, agent)), stamp);
            tx.result.Err? ==> tx.db == db
    ensures var db' := Committed(db, DisableTx(db, agent)).db;
            && db' == db.(nodes := db.nodes[i := db.nodes[i].(enabled := false)], tasks := db'.tasks,
                          ledger := db'.ledger)
            && db'.ledger.events[|db'.ledger.events| - 1] == Event(NodeDisabled, agent) && |db'.tasks| == |db.tasks|
            && forall j :: 0 <= j < |db.tasks| ==>
                 if db.tasks[j].agent == agent then Abandoned(db.tasks[j], db'.tasks[j])
                 else db'.tasks[j] == db.tasks[j]
  {
    hide Inv, Kept, SweptRows, CloseTx, Append, Hex;
    CloseTxShape(db.(nodes := db.nodes[i := db.nodes[i].(enabled := false)]), CancelNode(agent));
    DisablePart(db, i, signers, issued, Times(0, 0, 0));
    DisableIsLogged(db, i);
  }

  /** Exactly when a request to disable a node is accepted; for one that is disabled already it only leaves an event. */
  lemma DisableIff(db: Db, agent: string, signers: Signers, issued: Issued)
    requires Inv(db, signers, issued)
    ensures var r := DisableTx(db, agent);
            && (r.Ok? <==>
                  Hex(agent, 32)
                    && exists i :: 0 <= i < |db.nodes| && db.nodes[i].agent == agent
                                   && (db.nodes[i].enabled || SpaceLeft(db) >= 1))
            && (forall i :: 0 <= i < |db.nodes| && db.nodes[i].agent == agent && !db.nodes[i].enabled && r.Ok? ==>
                  r.value == db.(ledger := Ledger(db.ledger.events + [Event(DisableUnchanged, agent)],
                                                  db.ledger.reserved)))
  {
    InvParts(db, signers, issued);
    OneNode(db.nodes, db.tasks, agent);
    ReservedIsPositive(db, signers, issued);
    hide Inv, TableInv, FindNode, SignerBound, AuthInv, Accounts, SettingsOk, DisableAt, Kept, Hex;
    match FindNode(db.nodes, agent)
    case None =>
    case Some(i) => if db.nodes[i].enabled { DisablePart(db, i, signers, issued, Times(0, 0, 0)); }
  }

  lemma {:induction false} ClosingOnlyAdds(db: Db, c: Sweep, n: nat)
    requires n <= |db.tasks|
    ensures TryClose(db, c, n).Ok? ==> |db.ledger.events| <= |TryClose(db, c, n).value.ledger.events|
  {
    hide DecodeTask, Picks, Swept, SweepEvent, SlotsOf;
    if n > 0 {
      ClosingOnlyAdds(db, c, n - 1);
    }
  }

  lemma DisableIsLogged(db: Db, i: nat)
    requires i < |db.nodes| && DisableAt(db, i).Ok?
    ensures DisableAt(db, i).value.ledger.events != db.ledger.events
  {
    hide TryClose;
    ClosingOnlyAdds(db.(nodes := db.nodes[i := db.nodes[i].(enabled := false)]), CancelNode(db.nodes[i].agent),
                    |db.tasks|);
  }

  // ---- Remote administration ----

  /** The token, 64 hexadecimal digits, is that of the session at position i: one that is not over, was used in the
      last half hour and not created in the future, and belongs to the enabled account at position k with this role. */
  predicate HeldBy(db: Db, token: string, now: int64, role: Role, i: nat, k: nat) {
    && i < |db.sessions| && k < |db.users| && Hex(token, 64)
    && db.sessions[i].token == Sha256(token) && db.sessions[i].expiresAt > now
    && db.sessions[i].lastUsed > now - 1800 && db.sessions[i].createdAt <= now + 30
    && db.users[k].id == db.sessions[i].user && db.users[k].enabled && db.users[k].role == role
  }

  lemma AuthorizedIsHeld(db: Db, token: string, now: int64, i: nat)
    requires Authorize(db, token, now) == Some(i)
    ensures HeldBy(db, token, now, db.users[FindUser(db.users, db.sessions[i].user).value].role, i,
              FindUser(db.users, db.sessions[i].user).value)
  {
  }

  /** Only a live session of an enabled Admin account can change a task, a node or an enrolment token. */
  lemma OnlyAdminsChangeDispatch(db: Db, token: string, op: Operation, at: Times)
    requires var db' := Manage(db, token, op, at).db;
             db'.tasks != db.tasks || db'.nodes != db.nodes || db'.tokens != db.tokens
    ensures exists i: nat, k: nat :: HeldBy(db, token, at.first, Admin, i, k)
  {
    hide EnqueueTx, DisableTx, Authorize, Remaining, EndTx, IssueTokenTx, HeldBy, Changed, AdminClock;
    var db0 := AdminClock(db, at.first).value;
    ClockOnly(db, at.first);
    EndTxShape(db0, Stale(at.first));
    var db1 := EndTx(db0, Stale(at.first)).value;
    forall e: Ending ensures EndTx(db1, e).Ok? ==> SameDispatch(db1, EndTx(db1, e).value)
                                                   && EndTx(db1, e).value.tokens == db1.tokens { EndTxShape(db1, e); }
    var i := Authorize(db1, token, at.first).value;
    AuthorizedIsHeld(db1, token, at.first, i);
    var k := FindUser(db1.users, db1.sessions[i].user).value;
    StillHeld(db, db1, token, at.first, i, k);
  }

  lemma ClockOnly(db: Db, now: int64)
    ensures AdminClock(db, now).Ok? ==>
              AdminClock(db, now).value == db.(adminHigh := AdminClock(db, now).value.adminHigh)
  {
  }

  lemma StillHeld(db: Db, db1: Db, token: string, now: int64, i: nat, k: nat)
    requires HeldBy(db1, token, now, Admin, i, k) && db1.users == db.users
             && db1.sessions == Remaining(db.sessions, Stale(now))
    ensures exists i: nat, k: nat :: HeldBy(db, token, now, Admin, i, k)
  {
    RemainingMembers(db.sessions, Stale(now));
    hide Remaining;
    assert db1.sessions[i] in db.sessions;
    var j :| 0 <= j < |db.sessions| && db.sessions[j] == db1.sessions[i];
    assert HeldBy(db, token, now, Admin, j, k);
  }

  /** A refused request leaves tasks, nodes, settings and accounts as they were, whatever the operation had
      done before it failed; at most stale sessions are gone. */
  lemma RefusalRollsBack(db: Db, token: string, op: Operation, at: Times)
    requires Manage(db, token, op, at).result.Err?
    ensures var db' := Manage(db, token, op, at).db;
            && db'.tasks == db.tasks && db'.nodes == db.nodes && db'.settings == db.settings && db'.users == db.users
            && (db'.sessions == db.sessions || db'.sessions == Remaining(db.sessions, Stale(at.first)))
  {
    hide Perform, Authorize, Remaining, EndTx, Touch, Privileged;
    if AdminClock(db, at.first).Ok? { EndTxShape(AdminClock(db, at.first).value, Stale(at.first)); }
  }

  /** The row at position i gets the next generation, if it is the account's. */
  predicate Raised(users: seq<UserRow>, user: string, users': seq<UserRow>) {
    |users'| == |users| && forall i :: 0 <= i < |users| ==>
      users'[i] == if users[i].id == user then users[i].(generation := users[i].generation + 1) else users[i]
  }

  /** The new events: one for each session that ended, of this kind and with its ID. */
  ghost predicate SaysEnded(db: Db, db': Db, kind: Kind) {
    && |db.ledger.events| <= |db'.ledger.events| && db'.ledger.events[..|db.ledger.events|] == db.ledger.events
    && |db'.ledger.events| - |db.ledger.events| == |db.sessions| - |db'.sessions|
    && forall k :: |db.ledger.events| <= k < |db'.ledger.events| ==> EndedOne(db, db', kind, db'.ledger.events[k])
  }

  ghost predicate EndedOne(db: Db, db': Db, kind: Kind, e: Event) {
    exists s :: s in db.sessions && s !in db'.sessions && e == Event(kind, s.id)
  }

  lemma {:induction false} EndingIs(sessions: seq<SessionRow>, e: Ending, k: nat) returns (s: SessionRow)
    requires k < |EndingEvents(sessions, e)|
    ensures s in sessions && Ends(e, s)
    ensures EndingEvents(sessions, e)[k] == Event(
      match e case Stale(_) => SessionExpired case UserRevoked(_) => SessionRevoked case LoggedOut(_) => SessionLogout, s.id)
  {
    hide Ends;
    var n := |sessions| - 1;
    if k < |EndingEvents(sessions[..n], e)| {
      s := EndingIs(sessions[..n], e, k);
    } else {
      s := sessions[n];
    }
  }

  lemma EndTells(db: Db, e: Ending, signers: Signers, issued: Issued)
    requires Inv(db, signers, issued)
    ensures SaysEnded(db, End(db, e), match e case Stale(_) => SessionExpired case UserRevoked(_) => SessionRevoked
                                             case LoggedOut(_) => SessionLogout)
  {
    hide Inv, EndingEvents, Remaining, Ends;
    EndingEventCount(db.sessions, e);
    RemainingMembers(db.sessions, e);
    var db' := End(db, e);
    var n := |db.ledger.events|;
    forall k | n <= k < |db'.ledger.events|
      ensures EndedOne(db, db', match e case Stale(_) => SessionExpired case UserRevoked(_) => SessionRevoked
                                case LoggedOut(_) => SessionLogout, db'.ledger.events[k]) {
      var s := EndingIs(db.sessions, e, k - n);
    }
  }

  /** Logging out ends exactly that session; revoking one's own ends all of the account's and raises its generation,
      so that logins begun before do not get through. Each session that ends leaves its event. */
  lemma LeavingEffect(db: Db, s: SessionRow, at: Times, signers: Signers, issued: Issued)
    requires Inv(db, signers, issued)
    ensures var out := Perform(db, s, Logout, at);
            && out.Ok? && out.value == db.(sessions := out.value.sessions, ledger := out.value.ledger)
            && (forall x :: x in out.value.sessions <==> x in db.sessions && x.id != s.id)
            && SaysEnded(db, out.value, SessionLogout)
    ensures var out := Perform(db, s, RevokeOwn, at);
            && out.Ok? && out.value == db.(sessions := out.value.sessions, users := out.value.users,
                                           ledger := out.value.ledger)
            && Raised(db.users, s.user, out.value.users)
            && (forall x :: x in out.value.sessions <==> x in db.sessions && x.user != s.user)
            && SaysEnded(db, out.value, SessionRevoked)
  {
    ReservedIsPositive(db, signers, issued);
    EndTells(db, LoggedOut(s.id), signers, issued);
    EndTells(db, UserRevoked(s.user), signers, issued);
    hide Inv, EndTx, EndingEvents, Remaining, FindUser, EndedOne;
    EndsSucceed(db, LoggedOut(s.id), signers, issued);
    EndsSucceed(db, UserRevoked(s.user), signers, issued);
    RemainingMembers(db.sessions, LoggedOut(s.id));
    RemainingMembers(db.sessions, UserRevoked(s.user));
    var db1 := End(db, UserRevoked(s.user));
    SameSaysEnded(db, db1, Perform(db, s, RevokeOwn, at).value, SessionRevoked);
  }

  lemma SameSaysEnded(db: Db, a: Db, b: Db, kind: Kind)
    requires SaysEnded(db, a, kind) && b.sessions == a.sessions && b.ledger == a.ledger
    ensures SaysEnded(db, b, kind)
  {
    forall k | |db.ledger.events| <= k < |b.ledger.events| ensures EndedOne(db, b, kind, b.ledger.events[k]) {
      assert EndedOne(db, a, kind, a.ledger.events[k]);
    }
  }
}
