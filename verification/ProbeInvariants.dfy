/** What every transaction of the probe's store keeps. */
module ProbeInvariants {
  import opened Core
  import opened Tables
  import opened Protocol
  import opened Ledgers
  import opened Trust
  import opened ProbeState

  const MAX_STORED_RESULT := 16384

  // ---- Sums over the table ----

  lemma {:induction false} SumPrune(rows: seq<Row>, now: int64, w: Row -> nat)
    ensures Sum(Prune(rows, now), w) <= Sum(rows, w)
    ensures (forall r :: r in rows && Expendable(r, now) ==> w(r) == 0) ==> Sum(Prune(rows, now), w) == Sum(rows, w)
  {
    if rows != [] {
      var n := |rows| - 1;
      SumPrune(rows[..n], now, w);
      if !Expendable(rows[n], now) {
        SumAppend(Prune(rows[..n], now), rows[n], w);
      }
    }
  }

  // ---- The state invariant ----

  /** A row is consistent with its payload; a completed row holds the bytes of a valid matching result. */
  predicate RowOk(node: Node, row: Row) {
    && DecodeTask(row.payload).Some?
    && (var t := DecodeTask(row.payload).value;
        && t.request == row.request && t.agent == node.agent && t.epoch == node.epoch && t.expiresAt == row.expiresAt
        && row.payloadDigest == Sha256(row.payload) && Hex(row.policyDigest, 64) && row.startedAt > 0
        && (row.executed ==> Seconds(row.acceptedMs) < t.expiresAt && row.policyDigest == t.policyDigest)
        && (row.state.Running? ==> row.executed && row.result.None? && row.resultDigest.None? && !row.delivered)
        && (!row.state.Running? ==> CompletedOk(row, t)))
  }

  predicate CompletedOk(row: Row, t: Task) {
    && row.result.Some? && row.result.value.ResultText? && row.result.value.layout == ""
    && (var r := row.result.value.result;
        && ValidResult(r) && CheckAssignment(r, t) && r.status == row.state && r.policyDigest == row.policyDigest
        && row.resultDigest == Some(Sha256(row.result.value)) && EncodedSize(r) <= MAX_STORED_RESULT
        && (r.status.Rejected? || r.status.Expired? || r.policyDigest == t.policyDigest))
  }

  predicate DistinctIds(rows: seq<Row>) {
    forall i, j :: 0 <= i < j < |rows| ==> rows[i].request != rows[j].request
  }

  /** No request is accepted or rejected twice in the audit log. */
  ghost predicate UniqueDecisions(l: Ledger<Event>) {
    forall i, j :: 0 <= i < j < |l.events| && IsDecision(l.events[i]) && IsDecision(l.events[j]) ==>
                     l.events[i].request != l.events[j].request
  }

  ghost predicate Inv(s: State) {
    && Sound(s.audit) && UniqueDecisions(s.audit) && |s.rows| <= MAX_RECORDS
    && s.audit.reserved == Sum(s.rows, RunningWeight()) <= 1
    && DistinctIds(s.rows)
    && (forall r :: r in s.rows ==> RowOk(s.node, r))
    && (forall r :: r in s.rows ==> Decided(s.audit, r.request))
  }

  /** Decisions stay decided. */
  ghost predicate Remembers(l: Ledger<Event>, l': Ledger<Event>) {
    |l.events| <= |l'.events| && l'.events[..|l.events|] == l.events
  }

  lemma DecisionsStay(l: Ledger<Event>, l': Ledger<Event>, id: string)
    requires Remembers(l, l') && Decided(l, id)
    ensures Decided(l', id)
  {
    var i :| 0 <= i < |l.events| && Decides(l.events[i], id);
    assert l'.events[i] == l.events[i];
  }

  /** At most one event was added, and it decides nothing. */
  ghost predicate Quiet(l: Ledger<Event>, l': Ledger<Event>) {
    var n := |l.events|;
    l'.events == l.events || (|l'.events| == n + 1 && l'.events[..n] == l.events && !IsDecision(l'.events[n]))
  }

  lemma QuietKeepsUnique(l: Ledger<Event>, l': Ledger<Event>)
    requires UniqueDecisions(l) && Quiet(l, l')
    ensures UniqueDecisions(l') && Remembers(l, l')
  {
    assert forall i :: 0 <= i < |l.events| ==> l'.events[i] == l.events[i];
  }

  /** Noting an event without touching rows or reservations keeps the invariant. */
  lemma NoteKeepsInv(s: State, s': State)
    requires Inv(s) && s'.rows == s.rows && s'.node == s.node
    requires Quiet(s.audit, s'.audit) && Sound(s'.audit) && s'.audit.reserved == s.audit.reserved
    ensures Inv(s') && Remembers(s.audit, s'.audit)
  {
    QuietKeepsUnique(s.audit, s'.audit);
    forall r | r in s'.rows ensures Decided(s'.audit, r.request) {
      DecisionsStay(s.audit, s'.audit, r.request);
    }
  }

  lemma ClockKeepsInv(s: State, now: int64)
    requires Inv(s) && !Clock(s, now).ClockInvalid?
    ensures Inv(Clock(s, now).state) && Clock(s, now).state.rows == s.rows && Clock(s, now).state.node == s.node
    ensures Remembers(s.audit, Clock(s, now).state.audit) && now > 0
    ensures Clock(s, now).state.clockHigh >= s.clockHigh
    ensures Clock(s, now).ClockRuns? ==>
              Clock(s, now).state.clockHigh >= now >= Clock(s, now).state.clockHigh - MAX_CLOCK_SKEW
  {
    NoteKeepsInv(s, Clock(s, now).state);
  }

  lemma PolicyKeepsInv(s: State, digest: string)
    requires Inv(s) && UsePolicy(s, digest).Ok?
    ensures Inv(UsePolicy(s, digest).value) && Remembers(s.audit, UsePolicy(s, digest).value.audit)
    ensures var s' := UsePolicy(s, digest).value; s'.rows == s.rows && s'.node == s.node && s'.clockHigh == s.clockHigh
  {
    NoteKeepsInv(s, UsePolicy(s, digest).value);
  }

  lemma {:induction false} PruneKeepsDistinct(rows: seq<Row>, now: int64)
    requires DistinctIds(rows)
    ensures DistinctIds(Prune(rows, now)) && |Prune(rows, now)| <= |rows|
  {
    hide Expendable;
    if rows != [] {
      var n := |rows| - 1;
      PruneKeepsDistinct(rows[..n], now);
      var kept := Prune(rows[..n], now);
      forall r | r in kept ensures r.request != rows[n].request {
        var j :| 0 <= j < n && rows[j] == r;
      }
      FreshIdsStayDistinct(kept, rows[n]);
    }
  }

  lemma InvRow(s: State, r: Row)
    requires Inv(s) && r in s.rows
    ensures RowOk(s.node, r) && Decided(s.audit, r.request)
  {
    hide RowOk, Decided;
  }

  lemma InvCounts(s: State)
    requires Inv(s)
    ensures Sound(s.audit) && s.audit.reserved == Sum(s.rows, RunningWeight()) <= 1
  {
    hide RowOk, Decided, DistinctIds, UniqueDecisions;
  }

  lemma CapacityKeepsInv(s: State, p: Policy, now: int64)
    requires Inv(s) && Capacity(s, p, now).Ok?
    ensures Inv(Capacity(s, p, now).value) && |Capacity(s, p, now).value.rows| < MAX_RECORDS
    ensures var s' := Capacity(s, p, now).value;
            s'.audit == s.audit && s'.node == s.node && s'.rows == Prune(s.rows, now)
  {
    PruneKeepsDistinct(s.rows, now);
    SumPrune(s.rows, now, RunningWeight());
  }

  lemma FreshIdsStayDistinct(rows: seq<Row>, row: Row)
    requires DistinctIds(rows) && forall r :: r in rows ==> r.request != row.request
    ensures DistinctIds(rows + [row])
  {
  }

  lemma JudgedRowOk(node: Node, t: Task, payload: Payload, p: Policy, nowMs: int64, minute: nat, burst: nat)
    requires ValidPolicy(p) && DecodeTask(payload) == Some(t) && t.agent == node.agent && t.epoch == node.epoch
             && Seconds(nowMs) > 0
    ensures var (status, code) := Judge(t, p, Seconds(nowMs), minute, burst);
            RowOk(node, JudgedRow(t, payload, p, nowMs, status, code))
  {
    var (status, code) := Judge(t, p, Seconds(nowMs), minute, burst);
    var r := EmptyResult(t, p.digest, Seconds(nowMs), Seconds(nowMs), status, code);
    if !status.Running? {
      assert ValidResult(r);
      FailureResultsAreSmall(r);
    }
    hide EncodedSize;
  }

  /** Admission adds one row for a request that was never decided before, and nothing else but pruning. */
  lemma AdmitKeepsInv(s: State, t: Task, payload: Payload, p: Policy, nowMs: int64)
    requires Inv(s) && ValidPolicy(p) && DecodeTask(payload) == Some(t) && t.agent == s.node.agent
             && t.epoch == s.node.epoch
    requires Seconds(nowMs) > 0 && Admit(s, t, payload, p, nowMs).Ok?
    ensures Inv(Admit(s, t, payload, p, nowMs).value.0)
    ensures Remembers(s.audit, Admit(s, t, payload, p, nowMs).value.0.audit)
    ensures !Decided(s.audit, t.request) && Decided(Admit(s, t, payload, p, nowMs).value.0.audit, t.request)
  {
    hide Inv, UsePolicy, Capacity, Judge, JudgedRow, RowOk, Record, Decided, ValidPolicy, DecodeTask;
    var now := Seconds(nowMs);
    var s1 := UsePolicy(s, p.digest).value;
    PolicyKeepsInv(s, p.digest);
    var s2 := Capacity(s1, p, now).value;
    CapacityKeepsInv(s1, p, now);
    var minute, burst := Sum(s2.rows, ExecutedAfter(nowMs - MINUTE_MS)), Sum(s2.rows, ExecutedAfter(nowMs - SECOND_MS));
    var (status, code) := Judge(t, p, now, minute, burst);
    var row := JudgedRow(t, payload, p, nowMs, status, code);
    JudgedRowOk(s.node, t, payload, p, nowMs, minute, burst);
    JudgedRowIs(t, payload, p, nowMs, status, code);
    var s3 := Admit(s, t, payload, p, nowMs).value.0;
    SumZero(s2.rows, RunningWeight());
    InsertKeepsInv(s2, s3, row, code);
    if Decided(s.audit, t.request) { DecisionsStay(s.audit, s2.audit, t.request); }
  }

  lemma JudgedRowIs(t: Task, payload: Payload, p: Policy, nowMs: int64, status: Status, code: Code)
    ensures var row := JudgedRow(t, payload, p, nowMs, status, code); row.state == status && row.request == t.request
  {
  }

  lemma NewDecisionKeepsUnique(l: Ledger<Event>, e: Event)
    requires UniqueDecisions(l) && IsDecision(e) && !Decided(l, e.request)
    ensures UniqueDecisions(Ledger(l.events + [e], l.reserved))
    ensures forall r: int :: UniqueDecisions(Ledger(l.events + [e], r))
  {
    forall i | 0 <= i < |l.events| && IsDecision(l.events[i]) ensures l.events[i].request != e.request {
      assert !Decides(l.events[i], e.request);
    }
  }

  lemma InsertKeepsInv(s: State, s': State, row: Row, code: Code)
    requires Inv(s) && RowOk(s.node, row) && Sum(s.rows, RunningWeight()) == 0 && |s.rows| < MAX_RECORDS
    requires Record(s.audit, JudgedEvent(row, code), if row.state.Running? then 1 else 0).Ok?
    requires s'.node == s.node && s'.rows == s.rows + [row]
    requires s'.audit == Record(s.audit, JudgedEvent(row, code), if row.state.Running? then 1 else 0).value
    ensures Inv(s') && Remembers(s.audit, s'.audit) && !Decided(s.audit, row.request) && Decided(s'.audit, row.request)
  {
    var e := JudgedEvent(row, code);
    assert Decides(e, row.request);
    assert s'.audit.events[|s.audit.events|] == e;
    NewDecisionKeepsUnique(s.audit, e);
    SumAppend(s.rows, row, RunningWeight());
    forall r | r in s.rows ensures r.request != row.request && Decided(s'.audit, r.request) {
      DecisionsStay(s.audit, s'.audit, r.request);
    }
    FreshIdsStayDistinct(s.rows, row);
    hide RowOk;
  }

  lemma UpdateKeepsDistinct(rows: seq<Row>, i: nat, row: Row)
    requires i < |rows| && DistinctIds(rows) && row.request == rows[i].request
    ensures DistinctIds(rows[i := row])
  {
  }

  lemma UpdateKeepsInv(s: State, s': State, i: nat, row: Row, delta: int)
    requires Inv(s) && i < |s.rows| && row.request == s.rows[i].request && RowOk(s.node, row)
    requires s'.node == s.node && s'.rows == s.rows[i := row]
    requires Quiet(s.audit, s'.audit) && Sound(s'.audit) && s'.audit.reserved == s.audit.reserved + delta
    requires delta == RunningWeight()(row) - RunningWeight()(s.rows[i]) <= 0
    ensures Inv(s') && Remembers(s.audit, s'.audit)
  {
    hide RowOk, Decided, DistinctIds, UniqueDecisions, Quiet;
    QuietKeepsUnique(s.audit, s'.audit);
    SumUpdate(s.rows, i, row, RunningWeight());
    UpdateKeepsDistinct(s.rows, i, row);
    assert s.rows[i] in s.rows;
    forall r | r in s'.rows ensures RowOk(s'.node, r) && Decided(s'.audit, r.request) {
      assert r == row || r in s.rows;
      DecisionsStay(s.audit, s'.audit, r.request);
    }
  }

  lemma FinishedRowOk(node: Node, row: Row, r: TaskResult)
    requires RowOk(node, row) && row.state.Running?
    requires ValidResult(r) && CheckAssignment(r, DecodeTask(row.payload).value)
             && r.policyDigest == row.policyDigest && EncodedSize(r) <= MAX_STORED_RESULT
    ensures RowOk(node, FinishedRow(row, r)) && !r.status.Running?
  {
    hide EncodedSize, Hex;
  }

  lemma FoundByRequest(s: State, i: nat)
    requires Inv(s) && i < |s.rows|
    ensures Find(s.rows, s.rows[i].request) == Some(i)
  {
    hide RowOk, Decided, UniqueDecisions, Find;
  }

  /** Finishing a task that has a running row cannot fail and keeps the invariant. */
  lemma FinishKeepsInv(s: State, i: nat, r: TaskResult, kind: Kind)
    requires Inv(s) && i < |s.rows| && s.rows[i].state.Running? && DecodeTask(s.rows[i].payload).Some?
    requires var t := DecodeTask(s.rows[i].payload).value;
             ValidResult(r) && CheckAssignment(r, t) && r.policyDigest == s.rows[i].policyDigest
               && EncodedSize(r) <= MAX_STORED_RESULT
    requires kind.TaskCompleted? || kind.TaskRecovered?
    ensures var t := DecodeTask(s.rows[i].payload).value;
            var f := FinishTx(s, t, r, kind);
            f.Ok? && Inv(f.value) && Remembers(s.audit, f.value.audit)
              && f.value.rows == s.rows[i := FinishedRow(s.rows[i], r)]
            && f.value.node == s.node && f.value.clockHigh == s.clockHigh
            && f.value.audit ==
                 Ledger(s.audit.events + [Event(kind, t.request, r.code, Some(s.rows[i].payloadDigest),
                                                Some(Sha256(ResultText(r, ""))))], s.audit.reserved - 1)
  {
    hide Inv, ValidResult, CheckAssignment, EncodedSize, Find, CompletedOk;
    var t := DecodeTask(s.rows[i].payload).value;
    var row := s.rows[i];
    InvRow(s, row);
    InvCounts(s);
    SumPositive(s.rows, i, RunningWeight());
    FoundByRequest(s, i);
    FinishedRowOk(s.node, row, r);
    var f := FinishTx(s, t, r, kind);
    assert f.Ok?;
    hide RowOk, DecodeTask;
    UpdateKeepsInv(s, f.value, i, FinishedRow(row, r), -1);
  }

  lemma InterruptedResultOk(node: Node, row: Row, now: int64)
    requires RowOk(node, row) && row.state.Running?
    ensures var t := DecodeTask(row.payload).value;
            var r := InterruptedResult(t, row, now);
            ValidResult(r) && CheckAssignment(r, t) && r.policyDigest == row.policyDigest && EncodedSize(r) < 1024
  {
    FailureResultsAreSmall(InterruptedResult(DecodeTask(row.payload).value, row, now));
  }

  /** Opening a store that the worker itself produced is refused only for the reasons a caller can see:
      another identity, another verifier, or the clock. Interrupted work is always completed. */
  lemma RecoverAccepts(s: State, node: Node, verifier: Binding, now: int64)
    requires Inv(s)
    ensures Inv(Recover(s, node, verifier, now).state)
    ensures Recover(s, node, verifier, now).result.Ok? <==>
              node == s.node && Matches(s.binding, verifier) && Clock(s, now).ClockRuns?
    ensures Recover(s, node, verifier, now).result.Err? ==>
              Recover(s, node, verifier, now).result.error in {WrongIdentity, TrustMismatch, InvalidClock, ClockBlocked}
    ensures Recover(s, node, verifier, now).result.Ok? ==> FindRunning(Recover(s, node, verifier, now).state.rows).None?
  {
    hide Matches, Inv, Clock, FinishTx, ValidResult, CheckAssignment, EncodedSize, CompletedOk, Sum;
    InvCounts(s);
    if node == s.node && Matches(s.binding, verifier) && !Clock(s, now).ClockInvalid? {
      ClockKeepsInv(s, now);
      var s1 := Clock(s, now).state;
      InvCounts(s1);
      var found := FindRunning(s1.rows);
      if Clock(s, now).ClockRuns? && found.Some? {
        var i := found.value;
        assert s1.rows[i] in s1.rows;
        InvRow(s1, s1.rows[i]);
        InterruptedResultOk(s1.node, s1.rows[i], now);
        var t := DecodeTask(s1.rows[i].payload).value;
        var r := InterruptedResult(t, s1.rows[i], now);
        FinishKeepsInv(s1, i, r, TaskRecovered);
        OneRunning(s1, i, FinishedRow(s1.rows[i], r));
      }
    }
  }

  lemma OneRunning(s: State, i: nat, row: Row)
    requires Inv(s) && i < |s.rows| && s.rows[i].state.Running? && !row.state.Running?
    ensures FindRunning(s.rows[i := row]).None?
  {
    var rows := s.rows[i := row];
    SumUpdate(s.rows, i, row, RunningWeight());
    if FindRunning(rows).Some? {
      SumPositive(rows, FindRunning(rows).value, RunningWeight());
    }
  }

  /** verifyMigrationRecords accepts a store the worker produced if and only if nothing is running. */
  lemma MigrationAcceptsIffIdle(s: State)
    requires Inv(s)
    ensures RecordsConsistent(s) <==> FindRunning(s.rows).None?
  {
    var found := FindRunning(s.rows);
    if found.Some? {
      SumPositive(s.rows, found.value, RunningWeight());
    } else {
      SumZero(s.rows, RunningWeight());
      forall i | 0 <= i < |s.rows| ensures RecordConsistent(s.node, s.rows[i]) {
        assert s.rows[i] in s.rows;
      }
    }
  }

  lemma ConflictKeepsInv(s: State, t: Task, payload: Payload, row: Row)
    requires Inv(s)
    ensures Inv(Replay(s, t, payload, row).state) && Remembers(s.audit, Replay(s, t, payload, row).state.audit)
    ensures Replay(s, t, payload, row).state.rows == s.rows && Replay(s, t, payload, row).state.clockHigh == s.clockHigh
  {
    NoteKeepsInv(s, Replay(s, t, payload, row).state);
  }

  lemma PrepareKeepsInv(
      s: State, v: Binding, t: Task, payload: Payload, p: Policy, nowMs: int64, keyId: KeyId, checkedAt: int64)
    requires Inv(s) && DecodeTask(payload) == Some(t)
    ensures Inv(Prepare(s, v, t, payload, p, nowMs, keyId, checkedAt).state)
    ensures Remembers(s.audit, Prepare(s, v, t, payload, p, nowMs, keyId, checkedAt).state.audit)
  {
    hide Inv, Admit, Clock, ValidPolicy, CheckTask;
    var now := Seconds(nowMs);
    if ValidPolicy(p) && t.agent == s.node.agent && t.epoch == s.node.epoch && !Clock(s, now).ClockInvalid? {
      ClockKeepsInv(s, now);
      var s1 := Clock(s, now).state;
      if Clock(s, now).ClockRuns? {
        match Find(s1.rows, t.request)
        case Some(i) =>
          var r := Replay(s1, t, payload, s1.rows[i]);
          if r.result == Err(Conflict) { ConflictKeepsInv(s1, t, payload, s1.rows[i]); }
        case None =>
          if Admit(s1, t, payload, p, nowMs).Ok? { AdmitKeepsInv(s1, t, payload, p, nowMs); }
      }
    }
  }

  lemma ReadyKeepsInv(s: State, v: Binding, p: Policy, now: int64)
    requires Inv(s)
    ensures Inv(Ready(s, v, p, now).state) && Remembers(s.audit, Ready(s, v, p, now).state.audit)
  {
    hide Inv, Clock, UsePolicy, Capacity, ValidPolicy;
    if !Clock(s, now).ClockInvalid? {
      ClockKeepsInv(s, now);
      var s1 := Clock(s, now).state;
      if UsePolicy(s1, p.digest).Ok? {
        PolicyKeepsInv(s1, p.digest);
        var s2 := UsePolicy(s1, p.digest).value;
        if Capacity(s2, p, now).Ok? { CapacityKeepsInv(s2, p, now); }
      }
    }
  }

  lemma AcknowledgeKeepsInv(s: State, request: string, digest: Sha256<ResultText>)
    requires Inv(s)
    ensures Inv(Acknowledge(s, request, digest).state)
  {
    match Find(s.rows, request)
    case None =>
    case Some(i) =>
      var row := s.rows[i];
      assert row in s.rows;
      var row' := row.(delivered := true);
      if !row.state.Running? && row.resultDigest == Some(digest) {
        UpdateKeepsInv(s, Acknowledge(s, request, digest).state, i, row', 0);
      }
  }

  lemma MigrateKeepsInv(s: State, node: Node, legacy: PublicKey, previous: Option<TrustSet>, next: TrustSet, now: int64)
    requires Inv(s)
    ensures Inv(MigrateTrust(s, node, legacy, previous, next, now).state)
    ensures MigrateTrust(s, node, legacy, previous, next, now).state.rows == s.rows
    ensures Remembers(s.audit, MigrateTrust(s, node, legacy, previous, next, now).state.audit)
  {
    hide Accepted, Matches, RecordsConsistent, SameTrust;
    NoteKeepsInv(s, MigrateTrust(s, node, legacy, previous, next, now).state);
  }

  lemma RejectInvalidKeepsInv(s: State)
    requires Inv(s)
    ensures Inv(RejectInvalid(s).state) && RejectInvalid(s).state.rows == s.rows
            && Remembers(s.audit, RejectInvalid(s).state.audit)
  {
    NoteKeepsInv(s, RejectInvalid(s).state);
  }

  lemma InitialInv(node: Node, binding: Binding, now: int64)
    ensures Inv(Initialize(node, binding, now))
  {
  }

  // ---- Results ----

  /** A report that answers this task: of its kind, well formed, observed before the end and, for an inspection, of the
      resource asked for. */
  predicate Answers(t: Task, data: Data, finishedAt: int64) {
    && data.Report? && data.kind == t.kind && data.wellFormed && data.observedAt <= finishedAt
    && (t.kind.SshAudit? || t.kind.ServiceStatus? ==> data.resource == t.resource)
  }

  /** The success that a report would be recorded as. */
  function SuccessOf(t: Task, digest: string, startedAt: int64, finishedAt: int64, data: Data): TaskResult {
    TaskResult(t.request, t.agent, t.epoch, t.kind, startedAt, finishedAt, Succeeded, data, NoCode, digest)
  }

  /** What has to be recorded of an execution: who ran what and when, and exactly one of six endings. `late` says that
      the task ran out before the collector started, `ended` is the clock when it was over. */
  predicate RecordsOutcome(
      t: Task, p: Policy, startedAt: int64, late: bool, outcome: Outcome, ended: int64, r: TaskResult)
  {
    var finishedAt := if ended < startedAt then startedAt else ended;
    var answered := outcome.Collected? && Answers(t, outcome.data, finishedAt);
    var fits := answered && EncodedSize(SuccessOf(t, p.digest, startedAt, finishedAt, outcome.data)) <= p.maxResultBytes;
    && r.request == t.request && r.agent == t.agent && r.epoch == t.epoch && r.kind == t.kind
    && r.policyDigest == p.digest && r.startedAt == startedAt && r.finishedAt == finishedAt
    && (r.status.Expired? <==> late) && (r.code == ExpiredCode <==> late)
    && (r.status.Succeeded? <==> !late && fits) && (r.code == NoCode <==> !late && fits)
    && (r.code == ResultLimit <==> !late && answered && !fits)
    && (r.code == CollectorFailed <==> !late && (outcome.CollectorError? || (outcome.Collected? && !answered)))
    && (r.code == Deadline <==> !late && outcome.TimedOut?)
    && (r.status.Failed? <==> r.code in {ResultLimit, CollectorFailed, Deadline})
    && r.data == if r.status.Succeeded? then outcome.data else EmptyObject
  }

  /** The result Process records is valid for its task, within the policy's size limit, and says exactly what the
      collector did. */
  lemma NormalisedResultFits(
      t: Task, startedAt: int64, late: bool, outcome: Outcome, finishedAt: int64, p: Policy)
    requires ValidTask(t) && ValidPolicy(p) && startedAt > 0
    ensures var r := Normalise(t, p.digest, startedAt, late, outcome, finishedAt, p);
            && ValidResult(r) && CheckAssignment(r, t) && EncodedSize(r) <= p.maxResultBytes
            && RecordsOutcome(t, p, startedAt, late, outcome, finishedAt, r)
  {
    var base := EmptyResult(t, p.digest, startedAt, Max(startedAt, finishedAt), Failed, CollectorFailed);
    FailureResultsAreSmall(base);
    FailureResultsAreSmall(base.(code := ResultLimit));
    FailureResultsAreSmall(base.(code := Deadline));
    FailureResultsAreSmall(base.(status := Expired, code := ExpiredCode));
    hide EncodedSize;
  }
}
