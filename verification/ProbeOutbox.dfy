/** The outbox in every run: a result stays in the store until it was acknowledged and its task is long over
    (internal/probe/state.go). */
module ProbeOutbox {
  import opened Core
  import opened Tables
  import opened Protocol
  import opened Ledgers
  import opened Trust
  import opened ProbeState
  import opened ProbeInvariants
  import opened ProbeRuns
  import opened ProbeTheorems
  import opened ProbeAdmission

  // ---- One acknowledgment ----

  /** The row at position i holds the result with this digest. */
  predicate Answered(s: State, request: string, digest: Sha256<ResultText>, i: nat) {
    i < |s.rows| && s.rows[i].request == request && s.rows[i].result == Some(digest.preimage)
  }

  /** An acknowledgment is taken exactly if it names a request and the digest of its stored result; that row is then
      delivered and nothing else changes. */
  lemma AcknowledgeIff(s: State, request: string, digest: Sha256<ResultText>)
    requires Inv(s)
    ensures var tx := Acknowledge(s, request, digest);
            && (tx.result.Ok? <==> exists i: nat :: Answered(s, request, digest, i))
            && (tx.result.Err? ==> tx.state == s)
            && (forall i: nat :: Answered(s, request, digest, i) ==>
                  tx.state == s.(rows := s.rows[i := s.rows[i].(delivered := true)]))
  {
    forall i: nat | i < |s.rows|
      ensures s.rows[i].request == request ==> Find(s.rows, request) == Some(i)
      ensures HeldResult(s.rows[i])
    {
      FoundByRequest(s, i);
      assert s.rows[i] in s.rows;
      InvRow(s, s.rows[i]);
      RowHolds(s.node, s.rows[i]);
    }
    hide Inv, Find;
    match Find(s.rows, request)
    case None =>
    case Some(i) =>
      assert HeldResult(s.rows[i]);
      if Acknowledge(s, request, digest).result.Ok? { assert Answered(s, request, digest, i); }
  }

  /** A completed row holds its result and the digest of it, a running one neither. */
  predicate HeldResult(r: Row) {
    if r.state.Running? then r.result.None? else r.result.Some? && r.resultDigest == Some(Sha256(r.result.value))
  }

  lemma RowHolds(node: Node, r: Row)
    requires RowOk(node, r)
    ensures HeldResult(r)
  {
    hide Hex, ValidResult, EncodedSize, DecodeTask;
  }

  // ---- One step ----

  /** What pruning may drop at a time: delivered, not interrupted, and its task over for more than a day. */
  predicate Disposable(r: Row, now: int) {
    r.delivered && r.state != Indeterminate && r.expiresAt < now - 86400
  }

  /** Every completed row is still there, or was disposable. */
  ghost predicate Keeps(s: State, s': State) {
    s'.clockHigh >= s.clockHigh
    && forall r :: r in s.rows && r.result.Some? ==> r in s'.rows || Disposable(r, s'.clockHigh)
  }

  lemma SameRowsKeep(s: State, s': State)
    requires s'.rows == s.rows && s'.clockHigh >= s.clockHigh
    ensures Keeps(s, s')
  {
  }

  lemma KeepsTransitive(a: State, b: State, c: State)
    requires Keeps(a, b) && Keeps(b, c)
    ensures Keeps(a, c)
  {
  }

  lemma ClockKeepsRows(s: State, now: int64)
    ensures !Clock(s, now).ClockInvalid? ==> Keeps(s, Clock(s, now).state) && Clock(s, now).state.rows == s.rows
    ensures Clock(s, now).ClockRuns? ==> now <= Clock(s, now).state.clockHigh
  {
  }

  lemma PruningKeeps(s: State, s': State, now: int64)
    requires now <= s'.clockHigh && s'.clockHigh >= s.clockHigh && forall r :: r in Prune(s.rows, now) ==> r in s'.rows
    ensures Keeps(s, s')
  {
    hide Prune;
  }

  lemma CapacityKeeps(s: State, p: Policy, now: int64)
    requires now <= s.clockHigh
    ensures Capacity(s, p, now).Ok? ==> Keeps(s, Capacity(s, p, now).value)
  {
    hide Prune, Sum;
    if Capacity(s, p, now).Ok? { PruningKeeps(s, Capacity(s, p, now).value, now); }
  }

  lemma PolicyKeeps(s: State, digest: string)
    ensures UsePolicy(s, digest).Ok? ==>
              Keeps(s, UsePolicy(s, digest).value) && UsePolicy(s, digest).value.clockHigh == s.clockHigh
  {
  }

  lemma AdmitKeeps(s: State, t: Task, payload: Payload, p: Policy, nowMs: int64)
    requires Seconds(nowMs) <= s.clockHigh
    ensures Admit(s, t, payload, p, nowMs).Ok? ==> Keeps(s, Admit(s, t, payload, p, nowMs).value.0)
  {
    hide UsePolicy, Capacity, Judge, JudgedRow, Record, FindRunning, Sum, Keeps;
    if Admit(s, t, payload, p, nowMs).Ok? {
      PolicyKeeps(s, p.digest);
      var s1 := UsePolicy(s, p.digest).value;
      CapacityKeeps(s1, p, Seconds(nowMs));
      var s2 := Capacity(s1, p, Seconds(nowMs)).value;
      KeepsTransitive(s, s1, s2);
      var s3 := Admit(s, t, payload, p, nowMs).value.0;
      MoreRows(s2, s3);
      KeepsTransitive(s, s2, s3);
    }
  }

  lemma MoreRows(s: State, s': State)
    requires s'.clockHigh >= s.clockHigh && |s.rows| <= |s'.rows| && s'.rows[..|s.rows|] == s.rows
    ensures Keeps(s, s')
  {
  }

  lemma PrepareKeeps(
      s: State, v: Binding, t: Task, payload: Payload, p: Policy, nowMs: int64, keyId: KeyId, checkedAt: int64)
    ensures Keeps(s, Prepare(s, v, t, payload, p, nowMs, keyId, checkedAt).state)
  {
    hide Clock, Admit, ValidPolicy, CheckTask, Find, Keeps, DecodeResult;
    SameRowsKeep(s, s);
    ClockKeepsRows(s, Seconds(nowMs));
    if Clock(s, Seconds(nowMs)).ClockRuns? {
      var s1 := Clock(s, Seconds(nowMs)).state;
      var tx := Prepare(s, v, t, payload, p, nowMs, keyId, checkedAt);
      match Find(s1.rows, t.request)
      case Some(i) =>
        var s2 := Replay(s1, t, payload, s1.rows[i]).state;
        SameRowsKeep(s1, s2);
        KeepsTransitive(s, s1, s2);
      case None =>
        AdmitKeeps(s1, t, payload, p, nowMs);
        if Admit(s1, t, payload, p, nowMs).Ok? { KeepsTransitive(s, s1, Admit(s1, t, payload, p, nowMs).value.0); }
    }
  }

  lemma ReadyKeeps(s: State, v: Binding, p: Policy, now: int64)
    ensures Keeps(s, Ready(s, v, p, now).state)
  {
    hide Clock, Capacity, UsePolicy, ValidPolicy, FindRunning, Keeps;
    SameRowsKeep(s, s);
    ClockKeepsRows(s, now);
    if Clock(s, now).ClockRuns? {
      var s1 := Clock(s, now).state;
      PolicyKeeps(s1, p.digest);
      if UsePolicy(s1, p.digest).Ok? {
        var s2 := UsePolicy(s1, p.digest).value;
        CapacityKeeps(s2, p, now);
        KeepsTransitive(s, s1, s2);
        if Capacity(s2, p, now).Ok? { KeepsTransitive(s, s2, Capacity(s2, p, now).value); }
      }
    }
  }

  /** Completing a row touches no row that was complete. */
  lemma FinishKeeps(s: State, t: Task, r: TaskResult, kind: Kind)
    requires Inv(s)
    ensures FinishTx(s, t, r, kind).Ok? ==>
              Keeps(s, FinishTx(s, t, r, kind).value) && FinishTx(s, t, r, kind).value.clockHigh == s.clockHigh
  {
    hide Inv, ValidResult, CheckAssignment, Record, Find;
    if FinishTx(s, t, r, kind).Ok? {
      var i := Find(s.rows, t.request).value;
      assert s.rows[i] in s.rows;
      InvRow(s, s.rows[i]);
      RowHolds(s.node, s.rows[i]);
      var s' := FinishTx(s, t, r, kind).value;
      forall x | x in s.rows && x.result.Some? ensures x in s'.rows {
        var j :| 0 <= j < |s.rows| && s.rows[j] == x;
        assert s'.rows[j] == x;
      }
    }
  }

  lemma RecoverKeeps(s: State, node: Node, v: Binding, now: int64)
    requires Inv(s)
    ensures Keeps(s, Recover(s, node, v, now).state)
  {
    ClockKeepsRows(s, now);
    SameRowsKeep(s, s);
    if Clock(s, now).ClockRuns? {
      var s1 := Clock(s, now).state;
      ClockKeepsInv(s, now);
      hide Inv, Clock, FinishTx, Matches, Sound, Sum, FindRunning, Keeps;
      if FindRunning(s1.rows).Some? && Recover(s, node, v, now).result.Ok? {
        RecoverShape(s, s1, node, v, now);
        var row := s1.rows[FindRunning(s1.rows).value];
        var t := DecodeTask(row.payload).value;
        FinishKeeps(s1, t, InterruptedResult(t, row, now), TaskRecovered);
        KeepsTransitive(s, s1, Recover(s, node, v, now).state);
      }
    } else {
      hide Inv, FinishTx, Matches, Sound, Clock;
    }
  }

  /** The row is still there; it counts as delivered only if it did before or was acknowledged. */
  ghost predicate InStore(r: Row, rows: seq<Row>, acked: bool) {
    exists r' :: r' in rows && r' == r.(delivered := r'.delivered) && (r'.delivered ==> r.delivered || acked)
  }

  predicate Acknowledges(step: Step, r: Row) {
    r.result.Some? && step == Deliver(r.request, Sha256(r.result.value))
  }

  lemma StepKeepsRows(w: World, step: Step, r: Row)
    requires Good(w) && r in w.state.rows && r.result.Some?
    ensures var s' := Apply(w, step).state;
            InStore(r, s'.rows, Acknowledges(step, r)) || Disposable(r, s'.clockHigh)
    ensures Apply(w, step).state.clockHigh >= w.state.clockHigh
  {
    if step.Deliver? {
      DeliverKeepsRow(w, step, r);
    } else {
      OtherStepsKeep(w, step);
      hide Apply, Good;
    }
  }

  lemma OtherStepsKeep(w: World, step: Step)
    requires Good(w) && !step.Deliver?
    ensures Keeps(w.state, Apply(w, step).state)
  {
    var s := w.state;
    assert Inv(s);
    hide Good, Inv, Prepare, Ready, Recover, FinishTx, MigrateTrust, Keeps, Check, FlightResult;
    SameRowsKeep(s, s);
    match step
    case Open(node, v, now) => RecoverKeeps(s, node, v, now);
    case CheckReady(p, now) => if w.worker.Some? { ReadyKeeps(s, w.worker.value, p, now); }
    case Receive(e, p, verifiedAt, nowMs, checkedAt) =>
      if w.worker.Some? {
        var v := Check(e, w.worker.value, verifiedAt);
        SameRowsKeep(s, RejectInvalid(s).state);
        if v.Some? && p.Some? {
          PrepareKeeps(s, w.worker.value, v.value.task, v.value.payload, p.value, nowMs, v.value.keyId, checkedAt);
        }
      }
    case Complete(outcome, now) =>
      if w.flight.Some? { FinishKeeps(s, w.flight.value.task, FlightResult(w.flight.value, outcome, now), TaskCompleted); }
    case Migrate(node, legacy, previous, next, now) =>
      MigrateKeepsInv(s, node, legacy, previous, next, now);
      MigrateKeepsClock(s, node, legacy, previous, next, now);
      SameRowsKeep(s, MigrateTrust(s, node, legacy, previous, next, now).state);
    case _ =>
  }

  lemma DeliverKeepsRow(w: World, step: Step, r: Row)
    requires Good(w) && r in w.state.rows && r.result.Some? && step.Deliver?
    ensures InStore(r, Apply(w, step).state.rows, Acknowledges(step, r))
    ensures Apply(w, step).state.clockHigh == w.state.clockHigh
  {
    assert Inv(w.state);
    hide Good, Inv, Acknowledge;
    if w.worker.Some? {
      AcknowledgingKeepsRow(w.state, step.request, step.digest, r);
    } else {
      assert Apply(w, step).state == w.state;
    }
  }

  lemma AcknowledgingKeepsRow(s: State, request: string, digest: Sha256<ResultText>, r: Row)
    requires Inv(s) && r in s.rows && r.result.Some?
    ensures InStore(r, Acknowledge(s, request, digest).state.rows, Acknowledges(Deliver(request, digest), r))
    ensures Acknowledge(s, request, digest).state.clockHigh == s.clockHigh
  {
    AcknowledgeIff(s, request, digest);
    hide Inv, Acknowledge;
    var j: nat :| j < |s.rows| && s.rows[j] == r;
    var s' := Acknowledge(s, request, digest).state;
    if i: nat :| Answered(s, request, digest, i) {
      assert s'.rows[j] in s'.rows;
    } else {
      assert s' == s;
    }
  }

  // ---- Runs ----

  ghost predicate WasAcknowledged(steps: seq<Step>, r: Row) {
    exists m :: 0 <= m < |steps| && Acknowledges(steps[m], r)
  }

  /** Over every run, with restarts, crashes, pruning and trust migration: a result that was recorded is still in the
      store, byte for byte, unless it was delivered and its task ended more than a day before the latest time seen; it
      counts as delivered only once a step acknowledged these very bytes; and the mark of an interrupted execution
      stays for good. */
  lemma {:induction false} ResultsStay(node: Node, binding: Binding, now: int64, steps: seq<Step>, more: seq<Step>, r: Row)
    requires r in After(Start(node, binding, now), steps).state.rows && r.result.Some?
    ensures var s' := After(After(Start(node, binding, now), steps), more).state;
            var acked := WasAcknowledged(more, r);
            || InStore(r, s'.rows, acked)
            || ((r.delivered || acked) && r.state != Indeterminate && r.expiresAt < s'.clockHigh - 86400)
  {
    hide Apply, Start, Good;
    var w := After(Start(node, binding, now), steps);
    if more == [] {
      assert InStore(r, w.state.rows, false);
    } else {
      var n := |more| - 1;
      ResultsStay(node, binding, now, steps, more[..n], r);
      AfterIsGood(node, binding, now, steps, more[..n]);
      var w1 := After(w, more[..n]);
      var acked := WasAcknowledged(more[..n], r);
      var acked' := WasAcknowledged(more, r);
      assert acked ==> acked' by {
        if acked {
          var m :| 0 <= m < n && Acknowledges(more[..n][m], r);
          assert Acknowledges(more[m], r);
        }
      }
      if InStore(r, w1.state.rows, acked) {
        var r1 :| r1 in w1.state.rows && r1 == r.(delivered := r1.delivered) && (r1.delivered ==> r.delivered || acked);
        StepKeepsRows(w1, more[n], r1);
        assert Acknowledges(more[n], r1) ==> acked';
      } else {
        ClockOnlyRises(w1, more[n]);
      }
    }
  }

  lemma AfterIsGood(node: Node, binding: Binding, now: int64, steps: seq<Step>, more: seq<Step>)
    ensures Good(After(After(Start(node, binding, now), steps), more))
  {
    hide Good, Apply, Start;
    if more == [] {
      RunIsGood(node, binding, now, steps);
    } else {
      AfterIsGood(node, binding, now, steps, more[..|more| - 1]);
      ApplyKeepsGood(After(After(Start(node, binding, now), steps), more[..|more| - 1]), more[|more| - 1]);
    }
  }

  lemma ClockOnlyRises(w: World, step: Step)
    requires Good(w)
    ensures Apply(w, step).state.clockHigh >= w.state.clockHigh
  {
    if step.Deliver? {
      hide Good;
    } else {
      OtherStepsKeep(w, step);
      hide Apply, Good;
    }
  }
}
