/** The server and one probe joined by a network that loses, repeats and reorders messages
    (internal/agent/tasks.go). */
module System {
  import opened Core
  import opened Tables
  import opened Protocol
  import opened Ledgers
  import opened Trust
  import opened Envelope
  import opened Acknowledgments
  import S = ServerState
  import SI = ServerInvariants
  import ST = ServerTransactions
  import SE = ServerEffects
  import SR = ServerRuns
  import SS = ServerSteps
  import P = ProbeState
  import PI = ProbeInvariants
  import PR = ProbeRuns
  import PT = ProbeTheorems

  /** Messages are never removed once sent, so each may arrive any number of times, in any order, or
      not at all. A result is on the wire once the probe has returned it. */
  datatype World = World(server: SR.World, probe: PR.World, envelopes: set<Envelope>, acks: set<S.Ack>)

  datatype Step =
    | AtServer(operation: SR.Step)
    | AtProbe(event: PR.Step)
    | Resend(row: nat)
    | ReceiveAck(ack: S.Ack, sent: ResultText)

  /** Only the probe holds the node's credential: what is submitted with it was posted by the probe. */
  predicate Submittable(w: World, op: SR.Op) {
    op.Submit? && op.credential && op.agent == w.probe.state.node.agent ==>
      exists k :: 0 <= k < |w.probe.replies| && w.probe.replies[k].text == op.data
  }

  /** The probe may be handed anything, but only the server's signer makes envelopes that verify. */
  predicate Receivable(w: World, op: PR.Step) {
    op.Receive? && w.probe.worker.Some?
      && PR.ForNode(w.probe.state, PR.Check(op.envelope, w.probe.worker.value, op.verifiedAt)) ==>
         op.envelope in w.envelopes
  }

  function Sent(w: World, op: SR.Step): set<Envelope> {
    if !op.op.PollTask? then {}
    else
      match S.Poll(w.server.db, op.op.agent, op.op.epoch, op.op.credential, op.op.digest, op.op.signer, op.at).result
      case Ok(Some(e)) => {e}
      case _ => {}
  }

  function Acked(w: World, op: SR.Step): set<S.Ack> {
    if !op.op.Submit? then {}
    else
      match S.SubmitResult(w.server.db, op.op.agent, op.op.epoch, op.op.credential, op.op.data).result
      case Ok(ack) => {ack}
      case Err(_) => {}
  }

  function Apply(w: World, step: Step): World {
    match step
    case AtServer(op) =>
      if !Submittable(w, op.op) then w
      else w.(server := SR.Apply(w.server, op), envelopes := w.envelopes + Sent(w, op), acks := w.acks + Acked(w, op))
    case AtProbe(op) =>
      if op.Deliver? || !Receivable(w, op) then w else w.(probe := PR.Apply(w.probe, op))
    case Resend(i) =>
      if i < |w.probe.state.rows| && w.probe.flight.None? && w.probe.state.rows[i].result.Some?
      then
        var again := PR.Reply(w.probe.state.rows[i].request, w.probe.state.rows[i].result.value);
        w.(probe := w.probe.(replies := w.probe.replies + [again]))
      else w
    case ReceiveAck(ack, sent) =>
      if ack in w.acks && AckMatches(ack, sent) then
        w.(probe := PR.Apply(w.probe, PR.Deliver(ack.request, ack.digest)))
      else w
  }

  function After(w: World, steps: seq<Step>): World {
    if steps == [] then w else Apply(After(w, steps[..|steps| - 1]), steps[|steps| - 1])
  }

  function Start(node: P.Node, binding: P.Binding, now: int64): World {
    World(SR.Start(now), PR.Start(node, binding, now), {}, {})
  }

  // ---- The server side of a step ----

  /** Results appear only through SubmitResult, from the row's own node. */
  predicate NoNewResults(tasks: seq<S.TaskRow>, tasks': seq<S.TaskRow>) {
    forall i :: 0 <= i < |tasks'| && tasks'[i].result.Some? ==> i < |tasks| && tasks[i].result == tasks'[i].result
  }

  lemma QuietAddsNoResults(db: S.Db, db': S.Db)
    requires SS.Quiet(db, db')
    ensures NoNewResults(db.tasks, db'.tasks)
  {
    hide SS.Stranded;
    forall i | 0 <= i < |db'.tasks| && db'.tasks[i].result.Some?
      ensures i < |db.tasks| && db.tasks[i].result == db'.tasks[i].result {
      assert if i < |db.tasks| then SS.Closes(db.tasks[i], db'.tasks[i]) else SS.Begins(db.settings, db'.tasks[i]);
    }
  }

  lemma PollAddsNoResults(
      db: S.Db, agent: string, epoch: string, credential: bool, digest: string, key: PublicKey, at: S.Times)
    ensures NoNewResults(db.tasks, S.Poll(db, agent, epoch, credential, digest, key, at).db.tasks)
  {
    hide S.IsEnabled, S.SettingsOk, Hex, S.CloseTx, S.SignTask, S.EnvelopeVerifies, DecodeTask, SS.Quiet;
    var c := S.ExpireQueued(agent, at.first);
    SS.CloseIsQuiet(db, c);
    if S.CloseTx(db, c).Ok? { QuietAddsNoResults(db, S.CloseTx(db, c).value); }
  }

  lemma OnlySubmitAddsResults(w: SR.World, op: SR.Op, at: S.Times)
    requires !op.Submit?
    ensures NoNewResults(w.db.tasks, SR.NextDb(w, op, at).tasks)
  {
    hide S.Poll, S.SettingsOk, S.InWindow, Valid, S.NoneQueued, SS.Quiet, NoNewResults, S.InstallTrust;
    var db := w.db;
    SameAddsNoResults(db.tasks);
    match op
    case PollTask(agent, epoch, credential, digest, key) =>
      PollAddsNoResults(db, agent, epoch, credential, digest, key, at);
    case Install(expected, next) => ST.InstallSameTasks(db, expected, next, at);
    case Configure(_) =>
    case Pause(_) =>
    case Switch(_) =>
    case _ =>
      hide SR.NextDb;
      SS.OtherStepsAreQuiet(w, op, at);
      QuietAddsNoResults(db, SR.NextDb(w, op, at));
  }

  lemma SameAddsNoResults(tasks: seq<S.TaskRow>)
    ensures NoNewResults(tasks, tasks)
  {
  }

  /** What SubmitResult may store. */
  lemma SubmitAddsOnlyData(db: S.Db, agent: string, epoch: string, credential: bool, data: ResultText, i: nat)
    requires i < |S.SubmitResult(db, agent, epoch, credential, data).db.tasks|
    ensures var tasks' := S.SubmitResult(db, agent, epoch, credential, data).db.tasks;
            && i < |db.tasks|
            && (tasks'[i].result == db.tasks[i].result
                 || (tasks'[i].result == Some(data) && db.tasks[i].agent == agent && credential))
  {
    hide DecodeResult, S.ResultError, S.IsEnabled, TextSize;
  }

  /** An acknowledgment is only given for bytes that are stored. */
  lemma AckMeansStored(db: S.Db, agent: string, epoch: string, credential: bool, data: ResultText)
    requires S.SubmitResult(db, agent, epoch, credential, data).result.Ok?
    ensures var tx := S.SubmitResult(db, agent, epoch, credential, data);
            exists i ::
              0 <= i < |tx.db.tasks| && StoredAs(tx.db.tasks[i], tx.result.value.request, tx.result.value.digest)
  {
    hide DecodeResult, S.ResultError, S.IsEnabled, TextSize;
    var r := DecodeResult(data).value;
    var i := S.FindTask(db.tasks, r.request).value;
    var tx := S.SubmitResult(db, agent, epoch, credential, data);
    assert StoredAs(tx.db.tasks[i], tx.result.value.request, tx.result.value.digest);
  }

  predicate StoredAs(row: S.TaskRow, request: string, digest: Sha256<ResultText>) {
    row.request == request && row.result.Some? && Sha256(row.result.value) == digest
  }

  /** Every envelope handed out is the stored one of some task. */
  lemma PollHandsOutStored(
      db: S.Db, agent: string, epoch: string, credential: bool, digest: string, key: PublicKey, at: S.Times)
    ensures var tx := S.Poll(db, agent, epoch, credential, digest, key, at);
            tx.result.Ok? && tx.result.value.Some? ==>
              exists i :: 0 <= i < |tx.db.tasks| && tx.db.tasks[i].envelope == tx.result.value
  {
    hide S.IsEnabled, S.SettingsOk, Hex, S.CloseTx, S.SignTask, S.EnvelopeVerifies, DecodeTask;
    var tx := S.Poll(db, agent, epoch, credential, digest, key, at);
    if tx.result.Ok? && tx.result.value.Some? {
      var db1 := S.CloseTx(db, S.ExpireQueued(agent, at.first)).value;
      var i := S.Next(db1.tasks, agent, epoch, at.second).value;
      assert tx.db.tasks[i].envelope == tx.result.value;
    }
  }

  // ---- The probe side of a step ----

  /** The same execution, possibly completed meanwhile. */
  predicate SameRow(r: P.Row, r': P.Row) {
    r' == r || (r.state.Running? && r'.request == r.request && r'.payload == r.payload && r'.delivered == r.delivered)
  }

  /** Rows come from earlier rows or from the payload just received. */
  ghost predicate Traced(rows: seq<P.Row>, rows': seq<P.Row>, received: Option<Payload>) {
    forall r' ::
      r' in rows' ==> (exists r :: r in rows && SameRow(r, r')) || (received == Some(r'.payload) && !r'.delivered)
  }

  lemma SubsetTraced(rows: seq<P.Row>, rows': seq<P.Row>, received: Option<Payload>)
    requires forall r :: r in rows' ==> r in rows
    ensures Traced(rows, rows', received)
  {
  }

  lemma UpdateTraced(rows: seq<P.Row>, i: nat, row: P.Row)
    requires i < |rows| && SameRow(rows[i], row)
    ensures Traced(rows, rows[i := row], None)
  {
    hide SameRow;
    var rows' := rows[i := row];
    forall r' | r' in rows' ensures exists r :: r in rows && SameRow(r, r') {
      if r' == row {
        assert rows[i] in rows;
      } else {
        assert r' in rows && SameRow(r', r') by { Same(r'); }
      }
    }
  }

  lemma Same(r: P.Row)
    ensures SameRow(r, r)
  {
  }

  lemma ClockSameRows(s: P.State, now: int64)
    ensures !P.Clock(s, now).ClockInvalid? ==> P.Clock(s, now).state.rows == s.rows
  {
  }

  lemma ReadyTraced(s: P.State, v: P.Binding, p: P.Policy, now: int64)
    ensures Traced(s.rows, P.Ready(s, v, p, now).state.rows, None)
  {
    hide P.Clock, P.ValidPolicy, Sum, P.FindRunning, P.Prune;
    ClockSameRows(s, now);
    SubsetTraced(s.rows, P.Ready(s, v, p, now).state.rows, None);
  }

  lemma AdmitTraced(s: P.State, t: Task, payload: Payload, p: P.Policy, nowMs: int64)
    requires P.Admit(s, t, payload, p, nowMs).Ok?
    ensures Traced(s.rows, P.Admit(s, t, payload, p, nowMs).value.0.rows, Some(payload))
  {
    hide P.Prune, P.Judge, Sum, P.FindRunning, P.Record, SameRow;
    var rows' := P.Admit(s, t, payload, p, nowMs).value.0.rows;
    forall r' | r' in rows'
      ensures (exists r :: r in s.rows && SameRow(r, r')) || (r'.payload == payload && !r'.delivered) {
      Same(r');
    }
  }

  lemma PrepareTraced(
      s: P.State, v: P.Binding, t: Task, payload: Payload, p: P.Policy, nowMs: int64, keyId: KeyId, checkedAt: int64)
    ensures Traced(s.rows, P.Prepare(s, v, t, payload, p, nowMs, keyId, checkedAt).state.rows, Some(payload))
  {
    hide P.Clock, P.ValidPolicy, CheckTask, P.Admit, Traced, DecodeResult;
    ClockSameRows(s, P.Seconds(nowMs));
    SubsetTraced(s.rows, s.rows, Some(payload));
    if P.Clock(s, P.Seconds(nowMs)).ClockRuns? {
      var s1 := P.Clock(s, P.Seconds(nowMs)).state;
      if P.Admit(s1, t, payload, p, nowMs).Ok? { AdmitTraced(s1, t, payload, p, nowMs); }
    }
  }

  lemma FinishTxTraced(s: P.State, t: Task, r: TaskResult, kind: P.Kind)
    ensures P.FinishTx(s, t, r, kind).Ok? ==> Traced(s.rows, P.FinishTx(s, t, r, kind).value.rows, None)
  {
    hide ValidResult, CheckAssignment, P.Record, Traced;
    match P.Find(s.rows, t.request)
    case None =>
    case Some(i) => if s.rows[i].state.Running? { UpdateTraced(s.rows, i, P.FinishedRow(s.rows[i], r)); }
  }

  lemma RecoverTraced(s: P.State, node: P.Node, v: P.Binding, now: int64)
    ensures Traced(s.rows, P.Recover(s, node, v, now).state.rows, None)
  {
    hide P.Matches, P.Clock, P.FinishTx, P.InterruptedResult, Sum, Traced, DecodeTask, Sound;
    ClockSameRows(s, now);
    SubsetTraced(s.rows, s.rows, None);
    if P.Clock(s, now).ClockRuns? {
      var s1 := P.Clock(s, now).state;
      if P.FindRunning(s1.rows).Some? {
        var row := s1.rows[P.FindRunning(s1.rows).value];
        if DecodeTask(row.payload).Some? {
          var t := DecodeTask(row.payload).value;
          FinishTxTraced(s1, t, P.InterruptedResult(t, row, now), P.TaskRecovered);
        }
      }
    }
  }

  function FreshPayload(op: PR.Step): Option<Payload> {
    if op.Receive? && !op.envelope.Unparsed? then Some(op.envelope.payload) else None
  }

  lemma ReceiveTraced(w: PR.World, op: PR.Step)
    requires op.Receive?
    ensures Traced(w.state.rows, PR.Apply(w, op).state.rows, FreshPayload(op))
  {
    hide P.Prepare, Traced;
    SubsetTraced(w.state.rows, w.state.rows, FreshPayload(op));
    if w.worker.Some? && op.loaded.Some? {
      var v := PR.Check(op.envelope, w.worker.value, op.verifiedAt);
      if v.Some? {
        PrepareTraced(w.state, w.worker.value, v.value.task, v.value.payload, op.loaded.value, op.nowMs,
            v.value.keyId, op.checkedAt);
      }
    }
  }

  lemma ProbeTraced(w: PR.World, op: PR.Step)
    requires !op.Deliver?
    ensures Traced(w.state.rows, PR.Apply(w, op).state.rows, FreshPayload(op))
    ensures op.Receive? && PR.Apply(w, op).state.rows != w.state.rows ==>
              w.worker.Some? && PR.ForNode(w.state, PR.Check(op.envelope, w.worker.value, op.verifiedAt))
  {
    hide P.Recover, P.Ready, P.Prepare, P.FinishTx, P.MigrateTrust, Traced, PR.Check, PR.FlightResult;
    SubsetTraced(w.state.rows, w.state.rows, None);
    match op
    case Open(node, v, now) => RecoverTraced(w.state, node, v, now);
    case CheckReady(p, now) => if w.worker.Some? { ReadyTraced(w.state, w.worker.value, p, now); }
    case Receive(_, _, _, _, _) => ReceiveTraced(w, op);
    case Complete(outcome, now) =>
      if w.flight.Some? {
        FinishTxTraced(w.state, w.flight.value.task, PR.FlightResult(w.flight.value, outcome, now), P.TaskCompleted);
      }
    case Migrate(node, legacy, previous, next, now) => MigrateSameRows(w.state, node, legacy, previous, next, now);
    case _ =>
  }

  lemma MigrateSameRows(
      s: P.State, node: P.Node, legacy: PublicKey, previous: Option<TrustSet>, next: TrustSet, now: int64)
    ensures P.MigrateTrust(s, node, legacy, previous, next, now).state.rows == s.rows
  {
    hide Accepted, P.Matches, P.RecordsConsistent, SameTrust, Sound;
  }

  /** Every answer is the result of a row that is in the table when it is returned. */
  ghost predicate Backed(s: P.State, a: PR.Reply) {
    exists r :: r in s.rows && r.request == a.request && r.result == Some(a.text)
  }

  lemma NewRepliesBacked(w: PR.World, op: PR.Step)
    requires PT.Good(w)
    ensures var w' := PR.Apply(w, op);
            || w'.replies == w.replies
            || (|w'.replies| == |w.replies| + 1 && w'.replies[..|w.replies|] == w.replies
                 && Backed(w'.state, w'.replies[|w.replies|]))
  {
    hide PT.Good, PI.Inv, P.Prepare, P.Finish, P.Recover, P.Ready, P.MigrateTrust, P.Acknowledge,
         PR.Admits, PR.Progress, PR.RunningKept, PR.Check, PR.FlightResult;
    match op
    case Receive(e, loaded, verifiedAt, nowMs, checkedAt) =>
      ProbeInv(w);
      if w.worker.Some? && loaded.Some? {
        var v := PR.Check(e, w.worker.value, verifiedAt);
        if v.Some? {
          PR.PrepareEffect(w.state, w.worker.value, v.value.task, v.value.payload, loaded.value, nowMs,
              v.value.keyId, checkedAt);
        }
      }
    case Complete(outcome, now) =>
      if w.flight.Some? && !w.flight.value.phase.Admitted? { PT.CompleteEffect(w, outcome, now); }
    case _ =>
  }

  /** A backed answer decodes as a result for its own request. */
  lemma BackedDecodes(s: P.State, a: PR.Reply)
    requires PI.Inv(s) && Backed(s, a)
    ensures DecodeResult(a.text).Some? && DecodeResult(a.text).value.request == a.request
  {
    var r :| r in s.rows && r.request == a.request && r.result == Some(a.text);
    assert PI.RowOk(s.node, r);
    hide PI.Inv, Hex, ValidResult, CheckAssignment, EncodedSize;
    RowDecodes(s.node, r);
  }

  lemma RowDecodes(node: P.Node, r: P.Row)
    requires PI.RowOk(node, r) && r.result.Some?
    ensures DecodeResult(r.result.value).Some? && DecodeResult(r.result.value).value.request == r.request
  {
  }

  lemma ProbeKeepsNode(w: PR.World, op: PR.Step)
    ensures PR.Apply(w, op).state.node == w.state.node
  {
    hide P.Matches, Sum, P.FindRunning, P.Prune, P.ValidPolicy, P.Record, P.Judge, Accepted, P.RecordsConsistent,
         SameTrust, Sound, DecodeTask, DecodeResult, ValidResult, CheckAssignment, PR.Check, CheckTask, PR.FlightResult,
         P.InterruptedResult, P.Capacity;
    match op
    case Open(node, v, now) => RecoverKeepsNode(w.state, node, v, now);
    case CheckReady(p, now) => if w.worker.Some? { ReadyKeepsNode(w.state, w.worker.value, p, now); }
    case Receive(e, p, verifiedAt, nowMs, checkedAt) =>
      if w.worker.Some? && p.Some? && PR.Check(e, w.worker.value, verifiedAt).Some? {
        var v := PR.Check(e, w.worker.value, verifiedAt).value;
        PrepareKeepsNode(w.state, w.worker.value, v.task, v.payload, p.value, nowMs, v.keyId, checkedAt);
      }
    case _ =>
  }

  lemma RecoverKeepsNode(s: P.State, node: P.Node, v: P.Binding, now: int64)
    ensures P.Recover(s, node, v, now).state.node == s.node
  {
    hide P.Matches, Sum, P.FindRunning, P.Record, Sound, DecodeTask, ValidResult, CheckAssignment, P.InterruptedResult;
  }

  lemma CapacityKeepsNode(s: P.State, p: P.Policy, now: int64)
    ensures P.Capacity(s, p, now).Ok? ==> P.Capacity(s, p, now).value.node == s.node
  {
  }

  lemma ReadyKeepsNode(s: P.State, v: P.Binding, p: P.Policy, now: int64)
    ensures P.Ready(s, v, p, now).state.node == s.node
  {
    hide P.ValidPolicy, P.FindRunning, P.Capacity;
    forall s1: P.State ensures P.Capacity(s1, p, now).Ok? ==> P.Capacity(s1, p, now).value.node == s1.node {
      CapacityKeepsNode(s1, p, now);
    }
  }

  lemma PrepareKeepsNode(
      s: P.State, v: P.Binding, t: Task, payload: Payload, p: P.Policy, nowMs: int64, keyId: KeyId, checkedAt: int64)
    ensures P.Prepare(s, v, t, payload, p, nowMs, keyId, checkedAt).state.node == s.node
  {
    hide P.ValidPolicy, P.FindRunning, P.Capacity, P.Judge, Sum, P.Record, P.JudgedRow, CheckTask, DecodeResult;
    forall s1: P.State, now: int64 ensures P.Capacity(s1, p, now).Ok? ==> P.Capacity(s1, p, now).value.node == s1.node {
      CapacityKeepsNode(s1, p, now);
    }
  }

  // ---- The joint invariant ----

  ghost predicate HoldsEnvelope(tasks: seq<S.TaskRow>, e: Envelope) {
    exists i :: 0 <= i < |tasks| && tasks[i].envelope == Some(e)
  }

  /** Some dispatched task has exactly this payload. */
  ghost predicate Assigned(tasks: seq<S.TaskRow>, payload: Payload) {
    exists i :: 0 <= i < |tasks| && tasks[i].payload == payload && tasks[i].envelope.Some?
  }

  ghost predicate Stored(tasks: seq<S.TaskRow>, request: string, digest: Sha256<ResultText>) {
    exists i :: 0 <= i < |tasks| && StoredAs(tasks[i], request, digest)
  }

  ghost predicate Replied(replies: seq<PR.Reply>, text: ResultText) {
    exists k :: 0 <= k < |replies| && replies[k].text == text
  }

  ghost predicate EnvelopesOk(tasks: seq<S.TaskRow>, envelopes: set<Envelope>) {
    forall e :: e in envelopes ==> HoldsEnvelope(tasks, e)
  }

  ghost predicate RowsOk(tasks: seq<S.TaskRow>, rows: seq<P.Row>) {
    forall r ::
      r in rows ==>
        Assigned(tasks, r.payload)
          && (r.delivered ==> r.resultDigest.Some? && Stored(tasks, r.request, r.resultDigest.value))
  }

  ghost predicate RepliesDecode(replies: seq<PR.Reply>) {
    forall k ::
      0 <= k < |replies| ==>
        DecodeResult(replies[k].text).Some? && DecodeResult(replies[k].text).value.request == replies[k].request
  }

  ghost predicate ResultsOk(tasks: seq<S.TaskRow>, agent: string, replies: seq<PR.Reply>) {
    forall i ::
      0 <= i < |tasks| && tasks[i].agent == agent && tasks[i].result.Some? ==> Replied(replies, tasks[i].result.value)
  }

  ghost predicate AcksOk(tasks: seq<S.TaskRow>, acks: set<S.Ack>) {
    forall a :: a in acks ==> Stored(tasks, a.request, a.digest)
  }

  ghost predicate Linked(w: World) {
    && EnvelopesOk(w.server.db.tasks, w.envelopes) && RowsOk(w.server.db.tasks, w.probe.state.rows)
    && RepliesDecode(w.probe.replies)
    && ResultsOk(w.server.db.tasks, w.probe.state.node.agent, w.probe.replies) && AcksOk(w.server.db.tasks, w.acks)
  }

  ghost predicate Good(w: World) {
    SR.Good(w.server) && PT.Good(w.probe) && Linked(w)
  }

  lemma StoredStays(tasks: seq<S.TaskRow>, tasks': seq<S.TaskRow>, request: string, digest: Sha256<ResultText>)
    requires SI.TasksOk(tasks) && SI.History(tasks, tasks') && Stored(tasks, request, digest)
    ensures Stored(tasks', request, digest)
  {
    var i :| 0 <= i < |tasks| && StoredAs(tasks[i], request, digest);
    hide DecodeTask, DecodeResult, S.ResultError, SI.DistinctRequests;
    assert SI.TaskOk(tasks[i]) && SI.RowEvolves(tasks[i], tasks'[i]);
    assert tasks'[i] == tasks[i];
  }

  lemma ServerKeepsFacts(tasks: seq<S.TaskRow>, tasks': seq<S.TaskRow>, w: World)
    requires SI.TasksOk(tasks) && SI.History(tasks, tasks')
    requires EnvelopesOk(tasks, w.envelopes) && RowsOk(tasks, w.probe.state.rows) && AcksOk(tasks, w.acks)
    ensures EnvelopesOk(tasks', w.envelopes) && RowsOk(tasks', w.probe.state.rows) && AcksOk(tasks', w.acks)
  {
    hide SI.TasksOk, Stored;
    forall e | e in w.envelopes ensures HoldsEnvelope(tasks', e) {
      var i :| 0 <= i < |tasks| && tasks[i].envelope == Some(e);
      assert SI.RowEvolves(tasks[i], tasks'[i]);
    }
    forall r | r in w.probe.state.rows
      ensures Assigned(tasks', r.payload)
              && (r.delivered ==> r.resultDigest.Some? && Stored(tasks', r.request, r.resultDigest.value))
    {
      var i :| 0 <= i < |tasks| && tasks[i].payload == r.payload && tasks[i].envelope.Some?;
      assert SI.RowEvolves(tasks[i], tasks'[i]);
      if r.delivered { StoredStays(tasks, tasks', r.request, r.resultDigest.value); }
    }
    forall a | a in w.acks ensures Stored(tasks', a.request, a.digest) {
      StoredStays(tasks, tasks', a.request, a.digest);
    }
  }

  /** A submission stores only what the probe posted. */
  lemma ServerKeepsResults(w: World, op: SR.Step)
    requires ResultsOk(w.server.db.tasks, w.probe.state.node.agent, w.probe.replies) && Submittable(w, op.op)
    requires SI.History(w.server.db.tasks, SR.Apply(w.server, op).db.tasks)
    ensures ResultsOk(SR.Apply(w.server, op).db.tasks, w.probe.state.node.agent, w.probe.replies)
  {
    hide SR.NextDb, SR.NextIssued, SR.NextAttempts, ST.Recorded;
    var tasks, tasks', agent := w.server.db.tasks, SR.Apply(w.server, op).db.tasks, w.probe.state.node.agent;
    forall i | 0 <= i < |tasks'| && tasks'[i].agent == agent && tasks'[i].result.Some?
      ensures Replied(w.probe.replies, tasks'[i].result.value) {
      if op.op.Submit? {
        SubmitDb(w.server, op);
        SubmitAddsOnlyData(w.server.db, op.op.agent, op.op.epoch, op.op.credential, op.op.data, i);
      } else {
        OnlySubmitAddsResults(w.server, op.op, op.at);
      }
      assert SI.RowEvolves(tasks[i], tasks'[i]);
    }
  }

  lemma SubmitDb(w: SR.World, op: SR.Step)
    requires op.op.Submit?
    ensures SR.Apply(w, op).db == S.SubmitResult(w.db, op.op.agent, op.op.epoch, op.op.credential, op.op.data).db
  {
    hide S.SubmitResult;
  }

  lemma PollDb(w: SR.World, op: SR.Step)
    requires op.op.PollTask?
    ensures SR.Apply(w, op).db ==
            S.Poll(w.db, op.op.agent, op.op.epoch, op.op.credential, op.op.digest, op.op.signer, op.at).db
  {
    hide S.Poll;
  }

  lemma SentAreHeld(w: World, op: SR.Step)
    ensures EnvelopesOk(SR.Apply(w.server, op).db.tasks, Sent(w, op))
            && AcksOk(SR.Apply(w.server, op).db.tasks, Acked(w, op))
  {
    hide SR.Apply, S.Poll, S.SubmitResult;
    if op.op.PollTask? {
      PollDb(w.server, op);
      PollHandsOutStored(w.server.db, op.op.agent, op.op.epoch, op.op.credential, op.op.digest, op.op.signer, op.at);
    }
    if op.op.Submit? {
      SubmitDb(w.server, op);
      if S.SubmitResult(w.server.db, op.op.agent, op.op.epoch, op.op.credential, op.op.data).result.Ok? {
        AckMeansStored(w.server.db, op.op.agent, op.op.epoch, op.op.credential, op.op.data);
      }
    }
  }

  lemma ServerTasksOk(w: SR.World)
    requires SR.Good(w)
    ensures SI.TasksOk(w.db.tasks)
  {
    hide SI.Owned, SI.Queues, SI.AuthInv, SI.SignerBound, SI.Accounts, SI.TasksOk;
  }

  lemma AtServerKeepsGood(w: World, op: SR.Step)
    requires Good(w)
    ensures Good(Apply(w, AtServer(op)))
  {
    hide SR.Good, PT.Good, SR.Apply, SI.TasksOk, SI.History, EnvelopesOk, RowsOk, RepliesDecode, ResultsOk, AcksOk,
         Submittable, Sent, Acked;
    if Submittable(w, op.op) {
      SR.ApplyKeepsGood(w.server, op);
      ServerTasksOk(w.server);
      var tasks' := SR.Apply(w.server, op).db.tasks;
      ServerKeepsFacts(w.server.db.tasks, tasks', w);
      ServerKeepsResults(w, op);
      SentAreHeld(w, op);
      EnvelopesUnion(tasks', w.envelopes, Sent(w, op));
      AcksUnion(tasks', w.acks, Acked(w, op));
    }
  }

  lemma EnvelopesUnion(tasks: seq<S.TaskRow>, a: set<Envelope>, b: set<Envelope>)
    requires EnvelopesOk(tasks, a) && EnvelopesOk(tasks, b)
    ensures EnvelopesOk(tasks, a + b)
  {
  }

  lemma AcksUnion(tasks: seq<S.TaskRow>, a: set<S.Ack>, b: set<S.Ack>)
    requires AcksOk(tasks, a) && AcksOk(tasks, b)
    ensures AcksOk(tasks, a + b)
  {
  }

  /** An envelope held by a task carries that task's payload. */
  lemma HeldIsAssigned(w: SR.World, e: Envelope)
    requires SR.Good(w) && HoldsEnvelope(w.db.tasks, e)
    ensures !e.Unparsed? && Assigned(w.db.tasks, e.payload)
  {
    hide SR.Good;
    var i :| 0 <= i < |w.db.tasks| && w.db.tasks[i].envelope == Some(e);
    GoodRow(w, i);
  }

  lemma GoodRow(w: SR.World, i: nat)
    requires SR.Good(w) && i < |w.db.tasks|
    ensures SI.TaskOk(w.db.tasks[i]) && SI.RowSigned(w.db.settings, w.db.tasks[i], w.signers)
  {
    hide ST.Inv, SI.TaskOk, SI.RowSigned;
    ST.RowFacts(w.db, w.signers, w.issued, i);
  }

  lemma TracedRowsOk(tasks: seq<S.TaskRow>, s: P.State, rows': seq<P.Row>, received: Option<Payload>)
    requires PI.Inv(s) && RowsOk(tasks, s.rows) && Traced(s.rows, rows', received)
             && (received.Some? ==> Assigned(tasks, received.value))
    ensures RowsOk(tasks, rows')
  {
    hide Assigned, Stored;
    forall r' | r' in rows'
      ensures Assigned(tasks, r'.payload)
              && (r'.delivered ==> r'.resultDigest.Some? && Stored(tasks, r'.request, r'.resultDigest.value)) {
      if r :| r in s.rows && SameRow(r, r') {
        RunningUndelivered(s, r);
      }
    }
  }

  lemma RunningUndelivered(s: P.State, r: P.Row)
    requires PI.Inv(s) && r in s.rows
    ensures r.state.Running? ==> !r.delivered
  {
    assert PI.RowOk(s.node, r);
    hide PI.Inv, DecodeTask, PI.CompletedOk;
  }

  lemma MoreReplies(w: World, replies': seq<PR.Reply>)
    requires ResultsOk(w.server.db.tasks, w.probe.state.node.agent, w.probe.replies)
    requires |w.probe.replies| <= |replies'| && replies'[..|w.probe.replies|] == w.probe.replies
    ensures ResultsOk(w.server.db.tasks, w.probe.state.node.agent, replies')
  {
    var tasks := w.server.db.tasks;
    forall i | 0 <= i < |tasks| && tasks[i].agent == w.probe.state.node.agent && tasks[i].result.Some?
      ensures Replied(replies', tasks[i].result.value) {
      assert Replied(w.probe.replies, tasks[i].result.value);
      var k :| 0 <= k < |w.probe.replies| && w.probe.replies[k].text == tasks[i].result.value;
      assert replies'[k] == w.probe.replies[k];
    }
  }

  lemma OneMoreDecodes(replies: seq<PR.Reply>, replies': seq<PR.Reply>, s: P.State)
    requires RepliesDecode(replies) && PI.Inv(s)
    requires replies' == replies
             || (|replies'| == |replies| + 1 && replies'[..|replies|] == replies && Backed(s, replies'[|replies|]))
    ensures RepliesDecode(replies')
  {
    hide PI.Inv, Backed, DecodeResult;
    if replies' != replies { BackedDecodes(s, replies'[|replies|]); }
    assert forall k :: 0 <= k < |replies| ==> replies'[k] == replies'[..|replies|][k];
  }

  lemma ProbeInv(w: PR.World)
    requires PT.Good(w)
    ensures PI.Inv(w.state)
  {
    hide PI.Inv;
  }

  /** Whatever is freshly stored by the probe was dispatched by the server. */
  lemma ReceivedIsAssigned(w: World, op: PR.Step)
    requires Good(w) && op.Receive? && op.envelope in w.envelopes
    ensures !op.envelope.Unparsed? && Assigned(w.server.db.tasks, op.envelope.payload)
  {
    hide SR.Good, PT.Good, RowsOk, RepliesDecode, ResultsOk, AcksOk, HoldsEnvelope;
    HeldIsAssigned(w.server, op.envelope);
  }

  lemma AtProbeKeepsRows(w: World, op: PR.Step)
    requires Good(w) && !op.Deliver? && Receivable(w, op)
    ensures RowsOk(w.server.db.tasks, PR.Apply(w.probe, op).state.rows)
  {
    hide SR.Good, PT.Good, PR.Apply, PR.ForNode, PR.Check, EnvelopesOk, RowsOk, RepliesDecode, ResultsOk, AcksOk,
         Traced, PI.Inv;
    ProbeTraced(w.probe, op);
    ProbeInv(w.probe);
    var rows' := PR.Apply(w.probe, op).state.rows;
    if rows' != w.probe.state.rows {
      if op.Receive? {
        ReceivedIsAssigned(w, op);
      }
      TracedRowsOk(w.server.db.tasks, w.probe.state, rows', FreshPayload(op));
    }
  }

  lemma AtProbeKeepsGood(w: World, op: PR.Step)
    requires Good(w)
    ensures Good(Apply(w, AtProbe(op)))
  {
    hide SR.Good, PT.Good, PR.Apply, EnvelopesOk, RowsOk, RepliesDecode, ResultsOk, AcksOk, Receivable, Backed;
    if !op.Deliver? && Receivable(w, op) {
      PT.ApplyKeepsGood(w.probe, op);
      AtProbeKeepsRows(w, op);
      ProbeKeepsNode(w.probe, op);
      var p' := PR.Apply(w.probe, op);
      NewRepliesBacked(w.probe, op);
      ProbeInv(p');
      OneMoreDecodes(w.probe.replies, p'.replies, p'.state);
      if p'.replies != w.probe.replies { MoreReplies(w, p'.replies); }
    }
  }

  lemma ResendKeepsGood(w: World, i: nat)
    requires Good(w)
    ensures Good(Apply(w, Resend(i)))
  {
    hide SR.Good, PT.Good, EnvelopesOk, RowsOk, RepliesDecode, ResultsOk, AcksOk;
    var p := w.probe;
    if i < |p.state.rows| && p.flight.None? && p.state.rows[i].result.Some? {
      var a := PR.Reply(p.state.rows[i].request, p.state.rows[i].result.value);
      assert p.state.rows[i] in p.state.rows;
      PT.AnsweredLater(p, a);
      ProbeInv(p);
      OneMoreDecodes(p.replies, p.replies + [a], p.state);
      MoreReplies(w, p.replies + [a]);
    }
  }

  /** Marking a row delivered. */
  lemma DeliverShape(s: P.State, request: string, digest: Sha256<ResultText>, r': P.Row)
    requires r' in P.Acknowledge(s, request, digest).state.rows
    ensures exists r ::
              r in s.rows && r'.payload == r.payload && r'.request == r.request && r'.resultDigest == r.resultDigest
                        && (r'.delivered == r.delivered || (r.request == request && r.resultDigest == Some(digest)))
  {
    if r' in s.rows {
    } else {
      var i := P.Find(s.rows, request).value;
      assert s.rows[i] in s.rows;
    }
  }

  lemma ReceiveAckKeepsRows(w: World, ack: S.Ack)
    requires RowsOk(w.server.db.tasks, w.probe.state.rows) && AcksOk(w.server.db.tasks, w.acks) && ack in w.acks
    ensures RowsOk(w.server.db.tasks, P.Acknowledge(w.probe.state, ack.request, ack.digest).state.rows)
  {
    hide Assigned, Stored, P.Acknowledge;
    var tasks := w.server.db.tasks;
    var rows' := P.Acknowledge(w.probe.state, ack.request, ack.digest).state.rows;
    forall r' | r' in rows'
      ensures Assigned(tasks, r'.payload)
              && (r'.delivered ==> r'.resultDigest.Some? && Stored(tasks, r'.request, r'.resultDigest.value)) {
      DeliverShape(w.probe.state, ack.request, ack.digest, r');
      var r :| r in w.probe.state.rows && r'.payload == r.payload && r'.request == r.request
        && r'.resultDigest == r.resultDigest
               && (r'.delivered == r.delivered || (r.request == ack.request && r.resultDigest == Some(ack.digest)));
    }
  }

  lemma DeliverApplies(w: PR.World, request: string, digest: Sha256<ResultText>)
    ensures var w' := PR.Apply(w, PR.Deliver(request, digest));
            w'.replies == w.replies
              && (w'.state == w.state || w'.state == P.Acknowledge(w.state, request, digest).state)
  {
    hide P.Acknowledge;
  }

  lemma ReceiveAckKeepsGood(w: World, ack: S.Ack, sent: ResultText)
    requires Good(w)
    ensures Good(Apply(w, ReceiveAck(ack, sent)))
  {
    hide SR.Good, PT.Good, PR.Apply, EnvelopesOk, RowsOk, RepliesDecode, ResultsOk, AcksOk, AckMatches, P.Acknowledge;
    if ack in w.acks && AckMatches(ack, sent) {
      PT.ApplyKeepsGood(w.probe, PR.Deliver(ack.request, ack.digest));
      ProbeKeepsNode(w.probe, PR.Deliver(ack.request, ack.digest));
      ReceiveAckKeepsRows(w, ack);
      DeliverApplies(w.probe, ack.request, ack.digest);
    }
  }

  lemma ApplyKeepsGood(w: World, step: Step)
    requires Good(w)
    ensures Good(Apply(w, step))
  {
    hide Good, Apply;
    match step
    case AtServer(op) => AtServerKeepsGood(w, op);
    case AtProbe(op) => AtProbeKeepsGood(w, op);
    case Resend(i) => ResendKeepsGood(w, i);
    case ReceiveAck(ack, sent) => ReceiveAckKeepsGood(w, ack, sent);
  }

  lemma StartIsGood(node: P.Node, binding: P.Binding, now: int64)
    ensures Good(Start(node, binding, now))
  {
    hide SR.Good, PT.Good;
    SR.StartIsGood(now);
    PT.StartIsGood(node, binding, now);
  }

  lemma {:induction false} RunIsGood(node: P.Node, binding: P.Binding, now: int64, steps: seq<Step>)
    ensures Good(After(Start(node, binding, now), steps))
  {
    hide Good, Apply, Start;
    if steps == [] {
      StartIsGood(node, binding, now);
    } else {
      RunIsGood(node, binding, now, steps[..|steps| - 1]);
      ApplyKeepsGood(After(Start(node, binding, now), steps[..|steps| - 1]), steps[|steps| - 1]);
    }
  }

  // ---- Theorems ----

  /** The server's row for a row of the probe. */
  lemma Counterpart(w: World, r: P.Row) returns (i: nat)
    requires Good(w) && r in w.probe.state.rows && r.result.Some?
    ensures i < |w.server.db.tasks| && w.server.db.tasks[i].payload == r.payload && w.server.db.tasks[i].envelope.Some?
    ensures S.FindTask(w.server.db.tasks, r.request) == Some(i) && PI.RowOk(w.probe.state.node, r)
  {
    hide SR.Good, PT.Good, EnvelopesOk, RepliesDecode, ResultsOk, AcksOk, Stored, PI.RowOk;
    var tasks := w.server.db.tasks;
    assert Assigned(tasks, r.payload);
    i :| 0 <= i < |tasks| && tasks[i].payload == r.payload && tasks[i].envelope.Some?;
    GoodRow(w.server, i);
    ServerTasksOk(w.server);
    ProbeInv(w.probe);
    ProbeRowOk(w.probe.state, r);
    SameRequest(w.probe.state.node, r, tasks[i]);
    OneTask(tasks, i);
  }

  lemma ProbeRowOk(s: P.State, r: P.Row)
    requires PI.Inv(s) && r in s.rows
    ensures PI.RowOk(s.node, r)
  {
    hide PI.RowOk;
  }

  lemma SameRequest(node: P.Node, r: P.Row, t: S.TaskRow)
    requires PI.RowOk(node, r) && SI.TaskOk(t) && t.payload == r.payload
    ensures t.request == r.request && t.agent == node.agent && t.epoch == node.epoch
  {
    hide PI.CompletedOk, SI.ResultOk, ValidTask, Hex;
  }

  lemma OneTask(tasks: seq<S.TaskRow>, i: nat)
    requires SI.TasksOk(tasks) && i < |tasks|
    ensures S.FindTask(tasks, tasks[i].request) == Some(i)
  {
    hide SI.TaskOk, S.FindTask;
  }

  /** A completed row passes the checks SubmitResult makes before it looks at the task's state. */
  lemma RowPassesChecks(node: P.Node, r: P.Row, t: S.TaskRow)
    requires PI.RowOk(node, r) && r.result.Some? && SI.TaskOk(t) && t.payload == r.payload
    ensures TextSize(r.result.value) <= MAX_DISPATCH_RESULT_BYTES && DecodeResult(r.result.value).Some?
    ensures var x := DecodeResult(r.result.value).value;
            x.request == r.request && x.agent == node.agent && x.epoch == node.epoch && S.ResultError(t, x).None?
  {
    hide EncodedSize, Hex, SI.ResultOk, ValidResult;
  }

  /** While the node is enabled, its dispatched task is still waiting for its result or already has this very one. */
  lemma WaitingOrSame(w: World, r: P.Row, i: nat)
    requires Good(w) && r in w.probe.state.rows && r.result.Some? && i < |w.server.db.tasks|
    requires PI.RowOk(w.probe.state.node, r) && w.server.db.tasks[i].payload == r.payload
             && w.server.db.tasks[i].envelope.Some?
    requires S.IsEnabled(w.server.db, w.probe.state.node.agent, w.probe.state.node.epoch)
    ensures var t := w.server.db.tasks[i]; (t.state.Dispatched? && t.result.None?) || t.result == r.result
  {
    hide SR.Good, EnvelopesOk, RowsOk, AcksOk, PI.RowOk, S.IsEnabled, PT.Good, DecodeResult;
    GoodRow(w.server, i);
    var t := w.server.db.tasks[i];
    SameRequest(w.probe.state.node, r, t);
    if t.result.None? {
      EnabledWaits(w.server, i);
    } else {
      assert Replied(w.probe.replies, t.result.value);
      var k :| 0 <= k < |w.probe.replies| && w.probe.replies[k].text == t.result.value;
      ResultNamesTask(t);
      ReplyMatchesRow(w.probe, w.probe.replies[k], r);
    }
  }

  lemma ResultNamesTask(t: S.TaskRow)
    requires SI.TaskOk(t) && t.result.Some? && DecodeResult(t.result.value).Some?
    ensures DecodeResult(t.result.value).value.request == t.request
  {
    hide Hex, ValidResult, ValidTask;
  }

  lemma ReplyMatchesRow(w: PR.World, a: PR.Reply, r: P.Row)
    requires PT.Good(w) && a in w.replies && r in w.state.rows && r.request == a.request
    ensures r.result == Some(a.text)
  {
    hide PI.Inv, PT.FlightOk, PT.EnteredOk, PT.RatesOk, PT.CountsAgree;
  }

  lemma EnabledWaits(w: SR.World, i: nat)
    requires SR.Good(w) && i < |w.db.tasks| && w.db.tasks[i].envelope.Some? && w.db.tasks[i].result.None?
    requires S.IsEnabled(w.db, w.db.tasks[i].agent, w.db.tasks[i].epoch)
    ensures w.db.tasks[i].state.Dispatched?
  {
    hide ST.Inv, SI.TasksOk, SI.Queues;
    ST.InvParts(w.db, w.signers, w.issued);
    assert SI.HasNode(w.db.nodes, w.db.tasks[i]);
    var k :| 0 <= k < |w.db.nodes| && SI.NodeFor(w.db.nodes[k], w.db.tasks[i]);
    assert S.FindNode(w.db.nodes, w.db.tasks[i].agent).value == k;
  }

  /** In every run of the joint system: whatever result the probe has recorded, the server accepts and
      acknowledges it while the node is enabled and its credential authorised, unless the server's clock is one
      that audit events cannot be stamped with and the result is not stored yet. */
  lemma RecordedResultsAreAccepted(
      node: P.Node, binding: P.Binding, now: int64, steps: seq<Step>, r: P.Row, stamp: int)
    requires var w := After(Start(node, binding, now), steps);
             && r in w.probe.state.rows && r.result.Some?
             && S.IsEnabled(w.server.db, w.probe.state.node.agent, w.probe.state.node.epoch)
    ensures var w := After(Start(node, binding, now), steps);
            var n := w.probe.state.node;
            var tx := S.Stamped(w.server.db, S.SubmitResult(w.server.db, n.agent, n.epoch, true, r.result.value),
                stamp);
            if stamp > 0 || Holds(w.server.db.tasks, r) then
              tx.result == Ok(S.Ack(n.agent, n.epoch, r.request, Sha256(r.result.value)))
            else tx.result.Err? && tx.db == w.server.db
  {
    hide Good, After, Start, S.IsEnabled, PI.RowOk, DecodeResult, TextSize, S.ResultError, S.ReportAt, SI.TaskOk;
    RunIsGood(node, binding, now, steps);
    var w := After(Start(node, binding, now), steps);
    var i := Counterpart(w, r);
    WaitingOrSame(w, r, i);
    var t := w.server.db.tasks[i];
    GoodServer(w);
    GoodRow(w.server, i);
    RowPassesChecks(w.probe.state.node, r, t);
    SameRequest(w.probe.state.node, r, t);
    if t.result.None? {
      ReportSucceeds(w.server, i, r.result.value);
      NotHeld(w.server, i, r);
    }
  }

  lemma NotHeld(w: SR.World, i: nat, r: P.Row)
    requires SR.Good(w) && i < |w.db.tasks| && w.db.tasks[i].request == r.request && w.db.tasks[i].result.None?
             && r.result.Some?
    ensures !Holds(w.db.tasks, r)
  {
    hide ST.Inv;
    SE.InvTasksDistinct(w.db, w.signers, w.issued);
  }

  /** The server has stored this very result. */
  predicate Holds(tasks: seq<S.TaskRow>, r: P.Row) {
    exists i :: 0 <= i < |tasks| && tasks[i].request == r.request && tasks[i].result == r.result
  }

  lemma GoodServer(w: World)
    requires Good(w)
    ensures SR.Good(w.server)
  {
    hide SR.Good;
  }

  lemma ReportSucceeds(w: SR.World, i: nat, data: ResultText)
    requires SR.Good(w) && i < |w.db.tasks| && w.db.tasks[i].state.Dispatched? && DecodeResult(data).Some?
    requires DecodeResult(data).value.request == w.db.tasks[i].request
             && S.ResultError(w.db.tasks[i], DecodeResult(data).value).None?
    ensures var r := S.ReportAt(w.db, i, data, DecodeResult(data).value);
            r.Ok? && r.value.ledger.events != w.db.ledger.events
  {
    hide ST.Inv, ST.Kept, DecodeResult, S.ResultError, S.ReportAt;
    ST.ReportPart(w.db, i, data, DecodeResult(data).value, w.signers, w.issued, S.Times(0, 0, 0));
    SE.ReportIsLogged(w.db, i, data, DecodeResult(data).value);
  }

  /** In every run of the joint system, a row the probe has marked delivered is stored by the server with
      exactly the probe's bytes. */
  lemma DeliveredMeansStored(node: P.Node, binding: P.Binding, now: int64, steps: seq<Step>, r: P.Row)
    requires r in After(Start(node, binding, now), steps).probe.state.rows && r.delivered
    ensures var tasks := After(Start(node, binding, now), steps).server.db.tasks;
            exists i ::
              0 <= i < |tasks| && tasks[i].request == r.request && tasks[i].result == r.result && r.result.Some?
  {
    hide After, Start, SR.Good, PT.Good, EnvelopesOk, RepliesDecode, ResultsOk, AcksOk, Assigned;
    RunIsGood(node, binding, now, steps);
    var w := After(Start(node, binding, now), steps);
    ProbeInv(w.probe);
    DigestIsResult(w.probe.state, r);
    var tasks := w.server.db.tasks;
    assert Stored(tasks, r.request, r.resultDigest.value);
    var i :| 0 <= i < |tasks| && StoredAs(tasks[i], r.request, r.resultDigest.value);
    assert tasks[i].result == r.result;
  }

  lemma DigestIsResult(s: P.State, r: P.Row)
    requires PI.Inv(s) && r in s.rows && r.delivered
    ensures r.result.Some? && r.resultDigest == Some(Sha256(r.result.value))
  {
    hide PI.Inv, Hex, ValidResult, CheckAssignment, EncodedSize, ValidTask;
    ProbeRowOk(s, r);
  }
}
