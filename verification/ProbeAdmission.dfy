/** What the probe runs, what it answers from its store, and what it refuses (internal/probe/state.go). */
module ProbeAdmission {
  import opened Core
  import opened Tables
  import opened Protocol
  import opened Ledgers
  import opened Trust
  import opened Envelope
  import opened ProbeState
  import opened ProbeInvariants
  import opened ProbeRuns

  /** The policy lists the profile or service that an inspection names. */
  predicate ResourceOpen(t: Task, p: Policy) {
    && (t.kind.SshAudit? ==> ResourceId(t.resource) && t.resource in p.sshProfiles)
    && (t.kind.ServiceStatus? ==> ResourceId(t.resource) && t.resource in p.services)
  }

  /** The local policy lets this task run now. */
  predicate Permitted(t: Task, p: Policy, now: int64) {
    && t.createdAt - 30 <= now < t.expiresAt && t.policyDigest == p.digest
    && !p.paused && t.kind in p.kinds && ResourceOpen(t, p)
  }

  /** Which verdict belongs to a task, code by code; `minute` and `burst` are the executions counted in the two
      windows. */
  predicate Verdict(t: Task, p: Policy, now: int64, minute: nat, burst: nat, status: Status, code: Code) {
    var early, late := now < t.createdAt - 30, now >= t.expiresAt;
    var current := !early && !late && t.policyDigest == p.digest;
    var busy := minute >= p.maxPerMinute || burst >= p.burst;
    && (status.Running? <==> Permitted(t, p, now) && !busy) && (code == NoCode <==> status.Running?)
    && (status.Expired? <==> late) && (code == ExpiredCode <==> late)
    && (status.Rejected? <==> !status.Running? && !late)
    && (code == Future <==> early && !late)
    && (code == PolicyMismatch <==> !early && !late && t.policyDigest != p.digest)
    && (code == Paused <==> current && p.paused)
    && (code == TaskDisabled <==> current && !p.paused && t.kind !in p.kinds)
    && (code == ResourceDenied <==> current && !p.paused && t.kind in p.kinds && !ResourceOpen(t, p))
    && (code == RateLimited <==> Permitted(t, p, now) && busy)
  }

  /** The verdict in full: each code exactly when its reason is the first that applies, and a valid one. */
  lemma JudgeIff(t: Task, p: Policy, now: int64, minute: nat, burst: nat)
    ensures var (status, code) := Judge(t, p, now, minute, burst);
            Verdict(t, p, now, minute, burst, status, code) && (!status.Running? ==> ValidFailure(status, code))
  {
  }

  /** Nothing enters execution unless the envelope's key may sign it now, the clock is trusted, the request
      has no row, and the policy loaded for this very call permits it. */
  lemma OnlyPermittedTasksRun(
      s: State, v: Binding, t: Task, payload: Payload, p: Policy, nowMs: int64, keyId: KeyId, checkedAt: int64)
    requires var r := Prepare(s, v, t, payload, p, nowMs, keyId, checkedAt).result; r.Ok? && r.value.Run?
    ensures ValidPolicy(p) && Permitted(t, p, Seconds(nowMs)) && t.agent == s.node.agent && t.epoch == s.node.epoch
    ensures !s.clockBlocked && Seconds(nowMs) >= s.clockHigh - MAX_CLOCK_SKEW
    ensures v.Installed? ==> CheckTask(v.trust, t, keyId, checkedAt)
    ensures Find(s.rows, t.request).None?
  {
    hide ValidPolicy, CheckTask, Capacity, UsePolicy, Record, Judge, JudgedRow, Permitted, Find, Append, Sum,
         FindRunning;
    ClockRunsWhen(s, Seconds(nowMs));
    var s1 := Clock(s, Seconds(nowMs)).state;
    AdmittedIsPermitted(s1, t, payload, p, nowMs);
  }

  /** The clock check: it runs on within 30 seconds of the latest time seen, and otherwise latches the store, with an
      event if the log has room for one. */
  lemma ClockRunsWhen(s: State, now: int64)
    ensures Clock(s, now).ClockRuns? <==> ClockFits(s, now)
    ensures Clock(s, now).ClockInvalid? <==> s.clockHigh <= 0 || now <= 0
    ensures Clock(s, now).ClockRuns? ==> Clock(s, now).state == s.(clockHigh := Max(s.clockHigh, now))
    ensures Clock(s, now).ClockStops? ==>
              var s' := Clock(s, now).state;
              && s' == s.(clockBlocked := true, audit := s'.audit) && s'.audit.reserved == s.audit.reserved
              && s'.audit.events ==
                   if !s.clockBlocked && s.audit.reserved >= 0 && |s.audit.events| + s.audit.reserved < CAPACITY
                   then s.audit.events + [LocalEvent(ClockRollback)] else s.audit.events
  {
  }

  lemma AdmittedIsPermitted(s: State, t: Task, payload: Payload, p: Policy, nowMs: int64)
    ensures var r := Admit(s, t, payload, p, nowMs); r.Ok? && r.value.1.Run? ==> Permitted(t, p, Seconds(nowMs))
  {
    hide Capacity, UsePolicy, Record, Judge, JudgedRow, Permitted, Sum, FindRunning;
    if UsePolicy(s, p.digest).Ok? && Capacity(UsePolicy(s, p.digest).value, p, Seconds(nowMs)).Ok? {
      var s2 := Capacity(UsePolicy(s, p.digest).value, p, Seconds(nowMs)).value;
      JudgeIff(t, p, Seconds(nowMs), Sum(s2.rows, ExecutedAfter(nowMs - MINUTE_MS)),
          Sum(s2.rows, ExecutedAfter(nowMs - SECOND_MS)));
    }
  }

  // ---- When a new request is admitted, and what is then recorded ----

  /** Rows that pruning keeps: undelivered, running, indeterminate, or ended less than a day ago. */
  function Retained(now: int64): Row -> nat {
    (r: Row) => if !r.delivered || r.state.Running? || r.state.Indeterminate? || r.expiresAt >= now - 86400 then 1 else 0
  }

  /** Room for one more row, one full result and two audit events, after noting a change of policy. */
  predicate Room(s: State, p: Policy, now: int64) {
    && Sum(s.rows, Retained(now)) < 8192 && Sum(s.rows, PendingWeight()) + p.maxResultBytes <= p.pendingBytes
    && |s.audit.events| + s.audit.reserved + (if s.policyDigest == p.digest then 2 else 3) <= CAPACITY
  }

  /** The clock lets the worker go on. */
  predicate ClockFits(s: State, now: int64) {
    s.clockHigh > 0 && now > 0 && !s.clockBlocked && s.clockHigh - now <= 30
  }

  lemma {:induction false} PruneCounts(rows: seq<Row>, now: int64)
    ensures |Prune(rows, now)| == Sum(rows, Retained(now))
    ensures Sum(Prune(rows, now), PendingWeight()) == Sum(rows, PendingWeight())
  {
    if rows != [] { PruneCounts(rows[..|rows| - 1], now); }
    SumPrune(rows, now, PendingWeight());
  }

  lemma PruneKeepsRunning(rows: seq<Row>, now: int64)
    ensures FindRunning(Prune(rows, now)).None? <==> FindRunning(rows).None?
  {
    PrunedRunning(rows, now);
    if FindRunning(Prune(rows, now)).Some? {
      var r := Prune(rows, now)[FindRunning(Prune(rows, now)).value];
      assert r in Prune(rows, now);
      assert r in rows;
    }
  }

  /** Room is exactly what noting the policy and capacity need. */
  lemma RoomIff(s: State, p: Policy, now: int64)
    requires Sound(s.audit)
    ensures (UsePolicy(s, p.digest).Ok? && Capacity(UsePolicy(s, p.digest).value, p, now).Ok?) <==> Room(s, p, now)
    ensures Room(s, p, now) ==>
              var s2 := Capacity(UsePolicy(s, p.digest).value, p, now).value;
              && s2 == s.(rows := Prune(s.rows, now), policyDigest := p.digest, audit := s2.audit)
              && s2.audit.reserved == s.audit.reserved
              && s2.audit.events == s.audit.events
                                    + if s.policyDigest == p.digest then [] else [LocalEvent(PolicyChanged)]
  {
    PruneCounts(s.rows, now);
    hide Sum, Prune, Retained, PendingWeight;
  }

  lemma NotedDecides(l: Ledger<Event>, l': Ledger<Event>, e: Event, id: string)
    requires l'.events == l.events || (l'.events == l.events + [e] && !IsDecision(e))
    ensures Decided(l', id) <==> Decided(l, id)
  {
    if Decided(l, id) {
      var i :| 0 <= i < |l.events| && Decides(l.events[i], id);
      assert Decides(l'.events[i], id);
    }
  }

  /** The row of a judged request. */
  function NewRow(t: Task, payload: Payload, p: Policy, nowMs: int64, status: Status, code: Code): Row {
    var now := Seconds(nowMs);
    var text := ResultText(TaskResult(t.request, t.agent, t.epoch, t.kind, now, now, status, EmptyObject, code, p.digest),
                           "");
    if status.Running? then
      Row(t.request, payload, Sha256(payload), p.digest, Running, now, nowMs, true, t.expiresAt, None, None, false)
    else
      Row(t.request, payload, Sha256(payload), p.digest, status, now, nowMs, false, t.expiresAt, Some(text),
          Some(Sha256(text)), false)
  }

  /** What admitting a new request leaves: one row and one event with the verdict that belongs to it, the rows that
      pruning keeps, and for a refusal the answer from that row. */
  ghost predicate Admitted(s: State, s': State, d: Decision, t: Task, payload: Payload, p: Policy, nowMs: int64) {
    exists status: Status, code: Code ::
      var row := NewRow(t, payload, p, nowMs, status, code);
      && Verdict(t, p, Seconds(nowMs), Sum(s.rows, ExecutedAfter(nowMs - 60000)), Sum(s.rows, ExecutedAfter(nowMs - 1000)),
                 status, code)
      && d == (if status.Running? then Run(p.digest, Seconds(nowMs)) else Answer(row.result.value))
      && s'.rows == Prune(s.rows, Seconds(nowMs)) + [row]
      && s'.audit.reserved == s.audit.reserved + (if status.Running? then 1 else 0)
      && s'.audit.events ==
           s.audit.events + (if s.policyDigest == p.digest then [] else [LocalEvent(PolicyChanged)])
           + [Event(if status.Running? then TaskAccepted else TaskRejected, t.request, code, Some(Sha256(payload)),
                    row.resultDigest)]
      && s'.policyDigest == p.digest && s'.binding == s.binding && s'.node == s.node
  }

  lemma NewRowIs(t: Task, payload: Payload, p: Policy, nowMs: int64, status: Status, code: Code)
    ensures JudgedRow(t, payload, p, nowMs, status, code) == NewRow(t, payload, p, nowMs, status, code)
  {
  }

  lemma CountsBeforePruning(s: State, nowMs: int64, p: Policy)
    requires Inv(s) && s.clockHigh >= Seconds(nowMs) >= s.clockHigh - MAX_CLOCK_SKEW
    ensures var kept := Prune(s.rows, Seconds(nowMs));
            && Sum(kept, ExecutedAfter(nowMs - MINUTE_MS)) == Sum(s.rows, ExecutedAfter(nowMs - MINUTE_MS))
            && Sum(kept, ExecutedAfter(nowMs - SECOND_MS)) == Sum(s.rows, ExecutedAfter(nowMs - SECOND_MS))
  {
    hide Inv, Sum, Prune;
    PruneKeepsCounts(s, Seconds(nowMs), nowMs - MINUTE_MS);
    PruneKeepsCounts(s, Seconds(nowMs), nowMs - SECOND_MS);
  }

  lemma AdmitIff(s: State, t: Task, payload: Payload, p: Policy, nowMs: int64)
    requires Inv(s) && s.clockHigh >= Seconds(nowMs) >= s.clockHigh - MAX_CLOCK_SKEW
    ensures var r := Admit(s, t, payload, p, nowMs);
            && (r.Ok? <==> Room(s, p, Seconds(nowMs)) && FindRunning(s.rows).None? && !Decided(s.audit, t.request))
            && (r.Ok? ==> Admitted(s, r.value.0, r.value.1, t, payload, p, nowMs))
  {
    hide Inv, Judge, Verdict, Sum, Prune, JudgedRow, NewRow, Decided, FindRunning, ExecutedAfter, Admitted;
    var now := Seconds(nowMs);
    InvCounts(s);
    RoomIff(s, p, now);
    PruneKeepsRunning(s.rows, now);
    if Room(s, p, now) {
      RoomIsEnough(s, p, now);
      hide Room;
      var s2 := Capacity(UsePolicy(s, p.digest).value, p, now).value;
      NotedDecides(s.audit, s2.audit, LocalEvent(PolicyChanged), t.request);
      hide UsePolicy, Capacity;
      CountsBeforePruning(s, nowMs, p);
      var minute, burst := Sum(s.rows, ExecutedAfter(nowMs - MINUTE_MS)), Sum(s.rows, ExecutedAfter(nowMs - SECOND_MS));
      var (status, code) := Judge(t, p, now, minute, burst);
      JudgeIff(t, p, now, minute, burst);
      NewRowIs(t, payload, p, nowMs, status, code);
      NewRowFacts(t, payload, p, nowMs, status, code);
      var r := Admit(s, t, payload, p, nowMs);
      if r.Ok? { AdmittedWith(s, r.value.0, r.value.1, t, payload, p, nowMs, status, code); }
    }
  }

  lemma RoomIsEnough(s: State, p: Policy, now: int64)
    requires Room(s, p, now) && Sound(s.audit)
    ensures |s.audit.events| + s.audit.reserved + (if s.policyDigest == p.digest then 2 else 3) <= CAPACITY
  {
  }

  lemma NewRowFacts(t: Task, payload: Payload, p: Policy, nowMs: int64, status: Status, code: Code)
    ensures var row := NewRow(t, payload, p, nowMs, status, code);
            row.request == t.request && row.state == status && row.payloadDigest == Sha256(payload)
            && (row.result.Some? <==> !status.Running?)
  {
  }

  lemma AdmittedWith(s: State, s': State, d: Decision, t: Task, payload: Payload, p: Policy, nowMs: int64,
                     status: Status, code: Code)
    requires Verdict(t, p, Seconds(nowMs), Sum(s.rows, ExecutedAfter(nowMs - 60000)),
                     Sum(s.rows, ExecutedAfter(nowMs - 1000)), status, code)
    requires var row := NewRow(t, payload, p, nowMs, status, code);
             && (status.Running? || row.result.Some?)
             && d == (if status.Running? then Run(p.digest, Seconds(nowMs)) else Answer(row.result.value))
             && s'.rows == Prune(s.rows, Seconds(nowMs)) + [row]
             && s'.audit.reserved == s.audit.reserved + (if status.Running? then 1 else 0)
             && s'.audit.events ==
                  s.audit.events + (if s.policyDigest == p.digest then [] else [LocalEvent(PolicyChanged)])
                  + [Event(if status.Running? then TaskAccepted else TaskRejected, t.request, code, Some(Sha256(payload)),
                           row.resultDigest)]
             && s'.policyDigest == p.digest && s'.binding == s.binding && s'.node == s.node
    ensures Admitted(s, s', d, t, payload, p, nowMs)
  {
    hide Verdict, Sum, Prune, NewRow;
  }

  /** Exactly when a request without a row is decided, and what is then recorded and answered. */
  lemma NewRequestIff(
      s: State, v: Binding, t: Task, payload: Payload, p: Policy, nowMs: int64, keyId: KeyId, checkedAt: int64)
    requires Inv(s) && Find(s.rows, t.request).None?
    ensures var tx := Prepare(s, v, t, payload, p, nowMs, keyId, checkedAt);
            && (tx.result.Ok? <==>
                  && ValidPolicy(p) && t.agent == s.node.agent && t.epoch == s.node.epoch
                  && ClockFits(s, Seconds(nowMs)) && (v.Installed? ==> CheckTask(v.trust, t, keyId, checkedAt))
                  && Room(s, p, Seconds(nowMs)) && FindRunning(s.rows).None? && !Decided(s.audit, t.request))
            && (tx.result.Ok? ==>
                  && Admitted(s, tx.state, tx.result.value, t, payload, p, nowMs)
                  && tx.state.clockHigh == Max(s.clockHigh, Seconds(nowMs)))
  {
    hide Inv, ValidPolicy, CheckTask, Clock, Admit, Find, FindRunning, Decided, Admitted, Room;
    var now := Seconds(nowMs);
    ClockRunsWhen(s, now);
    if Clock(s, now).ClockRuns? {
      var s1 := Clock(s, now).state;
      ClockKeepsInv(s, now);
      AdmitIff(s1, t, payload, p, nowMs);
      SameRoom(s, s1, p, now);
      if ValidPolicy(p) && Admit(s1, t, payload, p, nowMs).Ok? {
        var r := Admit(s1, t, payload, p, nowMs).value;
        AdmitKeepsHigh(s1, t, payload, p, nowMs);
        if Admitted(s1, r.0, r.1, t, payload, p, nowMs) { SameAdmitted(s, s1, r.0, r.1, t, payload, p, nowMs); }
      }
    }
  }

  lemma AdmitKeepsHigh(s: State, t: Task, payload: Payload, p: Policy, nowMs: int64)
    ensures var r := Admit(s, t, payload, p, nowMs); r.Ok? ==> r.value.0.clockHigh == s.clockHigh
  {
    hide Judge, JudgedRow, Record, Sum, Prune, FindRunning;
  }

  lemma SameRoom(s: State, s1: State, p: Policy, now: int64)
    requires s1 == s.(clockHigh := s1.clockHigh)
    ensures Room(s1, p, now) <==> Room(s, p, now)
  {
    hide Sum, Retained;
  }

  lemma SameAdmitted(s: State, s1: State, s': State, d: Decision, t: Task, payload: Payload, p: Policy, nowMs: int64)
    requires s1 == s.(clockHigh := s1.clockHigh) && Admitted(s1, s', d, t, payload, p, nowMs)
    ensures Admitted(s, s', d, t, payload, p, nowMs)
  {
    hide Verdict, Sum, Prune, NewRow;
  }

  /** Exactly when the worker is ready to ask for work, and what checking leaves. */
  lemma ReadyIff(s: State, v: Binding, p: Policy, now: int64)
    requires Inv(s)
    ensures var tx := Ready(s, v, p, now);
            && (tx.result.Ok? <==>
                  && ValidPolicy(p) && ClockFits(s, now) && Room(s, p, now) && FindRunning(s.rows).None?
                  && (v.Installed? ==>
                        exists i :: 0 <= i < |v.trust.keys|
                                    && v.trust.keys[i].notBefore <= now < v.trust.keys[i].notAfter))
            && (tx.result.Ok? ==>
                  && tx.state == s.(rows := Prune(s.rows, now), clockHigh := Max(s.clockHigh, now),
                                    policyDigest := p.digest, audit := tx.state.audit)
                  && tx.state.audit.events == s.audit.events + if s.policyDigest == p.digest then []
                                                               else [LocalEvent(PolicyChanged)])
  {
    hide Inv, ValidPolicy, Clock, UsePolicy, Capacity, Room, Prune, FindRunning;
    InvCounts(s);
    ClockRunsWhen(s, now);
    if Clock(s, now).ClockRuns? {
      var s1 := Clock(s, now).state;
      RoomIff(s1, p, now);
      SameRoom(s, s1, p, now);
      PruneKeepsRunning(s1.rows, now);
    }
  }

  /** Once latched, the clock stays latched: neither admission nor readiness clears it, whatever the time. */
  lemma LatchHolds(
      s: State, v: Binding, t: Task, payload: Payload, p: Policy, nowMs: int64, keyId: KeyId, checkedAt: int64)
    requires s.clockBlocked
    ensures var tx := Prepare(s, v, t, payload, p, nowMs, keyId, checkedAt); tx.state == s && tx.result.Err?
    ensures var tx := Ready(s, v, p, Seconds(nowMs)); tx.state == s && tx.result.Err?
    ensures forall node: Node ::
              Recover(s, node, v, Seconds(nowMs)).result.Err? && Recover(s, node, v, Seconds(nowMs)).state == s
  {
    hide ValidPolicy, Matches, Sound, FinishTx;
    assert Clock(s, Seconds(nowMs)) in {ClockInvalid, ClockStops(s)};
  }

  lemma FinishKeepsLatch(s: State, t: Task, r: TaskResult, kind: Kind)
    ensures FinishTx(s, t, r, kind).Ok? ==> FinishTx(s, t, r, kind).value.clockBlocked == s.clockBlocked
  {
    hide ValidResult, CheckAssignment, Record, Find;
  }

  lemma MigrateKeepsLatch(
      s: State, node: Node, legacy: PublicKey, previous: Option<TrustSet>, next: TrustSet, now: int64)
    requires s.clockBlocked
    ensures MigrateTrust(s, node, legacy, previous, next, now).state == s
  {
    hide Accepted, Matches, RecordsConsistent, SameTrust, Sound;
  }

  /** No step admits anything or clears the latch. */
  lemma LatchedStep(w: World, step: Step)
    requires w.state.clockBlocked
    ensures Apply(w, step).state.clockBlocked && Apply(w, step).admissions == w.admissions
  {
    hide Prepare, Ready, Recover, FinishTx, MigrateTrust, Check, FlightResult, Find;
    match step
    case Open(node, v, now) => LatchHoldsAt(w.state, node, v, now);
    case CheckReady(p, now) => if w.worker.Some? { LatchBlocksReady(w.state, w.worker.value, p, now); }
    case Receive(e, p, verifiedAt, nowMs, checkedAt) =>
      if w.worker.Some? && p.Some? && Check(e, w.worker.value, verifiedAt).Some? {
        var v := Check(e, w.worker.value, verifiedAt).value;
        LatchHolds(w.state, w.worker.value, v.task, v.payload, p.value, nowMs, v.keyId, checkedAt);
      }
    case Complete(outcome, now) =>
      if w.flight.Some? {
        FinishKeepsLatch(w.state, w.flight.value.task, FlightResult(w.flight.value, outcome, now), TaskCompleted);
      }
    case Migrate(node, legacy, previous, next, now) => MigrateKeepsLatch(w.state, node, legacy, previous, next, now);
    case _ =>
  }

  lemma LatchHoldsAt(s: State, node: Node, v: Binding, now: int64)
    requires s.clockBlocked
    ensures Recover(s, node, v, now).state == s
  {
    hide Matches, Sound, FinishTx;
    assert Clock(s, now) in {ClockInvalid, ClockStops(s)};
  }

  lemma LatchBlocksReady(s: State, v: Binding, p: Policy, now: int64)
    requires s.clockBlocked
    ensures Ready(s, v, p, now).state == s
  {
    hide ValidPolicy;
    assert Clock(s, now) in {ClockInvalid, ClockStops(s)};
  }

  /** Once the clock latch is set, no continuation of the run admits another execution, whatever the clock reads
      afterwards and however often the worker restarts, and the latch stays set. */
  lemma {:induction false} LatchIsForever(w: World, steps: seq<Step>)
    requires w.state.clockBlocked
    ensures After(w, steps).state.clockBlocked && After(w, steps).admissions == w.admissions
  {
    hide Apply;
    if steps != [] {
      LatchIsForever(w, steps[..|steps| - 1]);
      LatchedStep(After(w, steps[..|steps| - 1]), steps[|steps| - 1]);
    }
  }

  /** A repeated request with the same payload is answered from its row, bytes and all, and runs nothing. */
  lemma DuplicateIsAnswered(
      s: State, v: Binding, t: Task, payload: Payload, p: Policy, nowMs: int64, keyId: KeyId, checkedAt: int64, i: nat)
    requires Inv(s) && ValidPolicy(p) && DecodeTask(payload) == Some(t) && t.agent == s.node.agent
             && t.epoch == s.node.epoch
    requires Clock(s, Seconds(nowMs)).ClockRuns? && (v.Installed? ==> CheckTask(v.trust, t, keyId, checkedAt))
    requires i < |s.rows| && s.rows[i].request == t.request && s.rows[i].payload == payload
    ensures var tx := Prepare(s, v, t, payload, p, nowMs, keyId, checkedAt);
            && tx.state.rows == s.rows
            && tx.result == match s.rows[i].result case None => Err(Busy) case Some(text) => Ok(Answer(text))
  {
    hide Inv, ValidPolicy, CheckTask, Clock, Admit, Find;
    FoundByRequest(s, i);
    assert s.rows[i] in s.rows;
    InvRow(s, s.rows[i]);
    ClockRunsWhen(s, Seconds(nowMs));
    RowAnswers(s.node, s.rows[i], t);
    hide RowOk;
  }

  lemma RowAnswers(node: Node, row: Row, t: Task)
    requires RowOk(node, row) && DecodeTask(row.payload) == Some(t)
    ensures row.payloadDigest == Sha256(row.payload) && (row.state.Running? <==> row.result.None?)
    ensures row.result.Some? ==>
              && row.resultDigest == Some(Sha256(row.result.value)) && DecodeResult(row.result.value).Some?
              && (var r := DecodeResult(row.result.value).value;
                   r.request == t.request && r.agent == t.agent && r.epoch == t.epoch && r.kind == t.kind)
  {
    hide Hex, EncodedSize, ValidResult;
  }

  /** A request ID reused for another payload is neither run nor answered, and no row changes; a worker that could have
      admitted it leaves the digest of the payload in the log. */
  lemma ConflictIsRefused(
      s: State, v: Binding, t: Task, payload: Payload, p: Policy, nowMs: int64, keyId: KeyId, checkedAt: int64, i: nat)
    requires Inv(s) && i < |s.rows| && s.rows[i].request == t.request && s.rows[i].payload != payload
    ensures var tx := Prepare(s, v, t, payload, p, nowMs, keyId, checkedAt);
            && tx.result.Err? && tx.state.rows == s.rows
            && (ValidPolicy(p) && t.agent == s.node.agent && t.epoch == s.node.epoch && ClockFits(s, Seconds(nowMs))
                && (v.Installed? ==> CheckTask(v.trust, t, keyId, checkedAt))
                && |s.audit.events| + s.audit.reserved < CAPACITY ==>
                  && tx.result == Err(Conflict) && tx.state.audit.reserved == s.audit.reserved
                  && tx.state.audit.events ==
                       s.audit.events + [Event(TaskConflict, t.request, NoCode, Some(Sha256(payload)), None)])
  {
    InvCounts(s);
    hide Inv, ValidPolicy, CheckTask, Clock, Admit, Find, DecodeResult;
    FoundByRequest(s, i);
    assert s.rows[i] in s.rows;
    InvRow(s, s.rows[i]);
    ClockRunsWhen(s, Seconds(nowMs));
    PayloadDigestOk(s.node, s.rows[i]);
    hide RowOk;
  }

  lemma PayloadDigestOk(node: Node, row: Row)
    requires RowOk(node, row)
    ensures row.payloadDigest == Sha256(row.payload)
  {
    hide Hex, EncodedSize, ValidResult;
  }

  /** What is not verifiably for this node changes nothing but the log, by one event. */
  lemma InvalidIsNoted(w: World, e: Envelope, loaded: Option<Policy>, verifiedAt: int64, nowMs: int64, checkedAt: int64)
    requires w.worker.Some? && Sound(w.state.audit)
    requires var v := Check(e, w.worker.value, verifiedAt);
             v.None? || v.value.task.agent != w.state.node.agent || v.value.task.epoch != w.state.node.epoch
    ensures var w' := Apply(w, Receive(e, loaded, verifiedAt, nowMs, checkedAt));
            && w' == w.(state := w.state.(audit := w'.state.audit))
            && w'.state.audit.reserved == w.state.audit.reserved
            && w'.state.audit.events == w.state.audit.events +
                 if |w.state.audit.events| + w.state.audit.reserved < CAPACITY then [LocalEvent(InvalidTask)] else []
  {
    hide Check;
  }
}
